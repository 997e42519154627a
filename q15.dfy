/** Saturating Q15 fixed-point arithmetic: the q15_add, q15_sub and q15_mult helpers
    the engine calls.  Their library is not part of this model; the definitions below
    are the conventional saturating ones (exact result clamped into the q15_t range,
    the product shifted right arithmetically by 15). */
module Q15 {
  import opened Arith

  const Q15_MIN: int := -32768
  const Q15_MAX: int := 32767

  /** A q15_t sample: a signed 16-bit integer read as a fraction of 32768. */
  type Q15 = x: int | -32768 <= x <= 32767

  /** Clamps an exact result into the q15_t range. */
  function Sat(x: int): Q15
  {
    if x > Q15_MAX then Q15_MAX else if x < Q15_MIN then Q15_MIN else x
  }

  /** q15_add: saturating sum; exact when in range, never wraps around. */
  function Add(a: Q15, b: Q15): (r: Q15)
    ensures Q15_MIN <= a + b <= Q15_MAX ==> r == a + b
    ensures a + b > Q15_MAX ==> r == Q15_MAX
    ensures a + b < Q15_MIN ==> r == Q15_MIN
    ensures b == 0 ==> r == a
  {
    Sat(a + b)
  }

  /** q15_sub: saturating difference.  It has the sign of a - b and never exceeds
      it in magnitude. */
  function Sub(a: Q15, b: Q15): (r: Q15)
    ensures a == b ==> r == 0
    ensures b == 0 ==> r == a
    ensures a >= b ==> 0 <= r <= a - b
    ensures a <= b ==> a - b <= r <= 0
    ensures Q15_MIN <= a - b <= Q15_MAX ==> r == a - b
  {
    Sat(a - b)
  }

  /** q15_mult: product of two Q15 fractions, (a * b) >> 15, saturated (only
      -1 * -1 saturates).  A non-negative factor a scales b towards zero. */
  function Mult(a: Q15, b: Q15): (r: Q15)
    ensures a == 0 || b == 0 ==> r == 0
    ensures 0 <= a && 0 <= b ==> 0 <= r <= b
    ensures 0 <= a && b <= 0 ==> b <= r <= 0
  {
    ProductIsMul(b, a);
    ScaleTowardZero(a, b);
    // Product(b, a) is a * b (ProductIsMul); the recursive form keeps proofs cheap.
    Sat(Product(b, a) / 32768)
  }

  /** Multiplying by a fraction a / 32768 with 0 <= a < 32768 and flooring lands
      between 0 and b. */
  lemma ScaleTowardZero(a: Q15, b: Q15)
    ensures 0 <= a && 0 <= b ==> 0 <= (a * b) / 32768 <= b
    ensures 0 <= a && b <= 0 ==> b <= (a * b) / 32768 <= 0
    ensures a == 0 || b == 0 ==> (a * b) / 32768 == 0
  {
    if 0 <= a && 0 <= b {
      MulNonNeg(32767 - a, b);
      assert 0 <= a * b <= 32768 * b;
    } else if 0 <= a && b <= 0 {
      MulNonNeg(32768 - a, -(b as int));
      MulNonNeg(a, -(b as int));
      assert 32768 * b <= a * b <= 0;
    }
  }

  /** The fixed-point identities the shaper relies on. */
  lemma {:induction false} Identities(t: Q15, x: Q15)
    ensures Mult(0, t) == 0 && Mult(t, 0) == 0
    ensures Add(x, 0) == x && Sub(x, x) == 0
  {
  }

  /** Summing two near-maximum samples saturates at the maximum instead of
      wrapping to a negative value. */
  lemma SaturatingMix(a: Q15, b: Q15)
    requires a > 0 && b > 0 && a + b > Q15_MAX
    ensures Add(a, b) == Q15_MAX
  {
  }
}
