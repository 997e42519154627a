/** Potentiometer scale and the integer `map` helper (linear interpolation) the
    engine uses for every knob-to-parameter conversion.  The configuration header
    that fixes the pot range and the utility header that defines `map` are not part
    of this model: the pot range is taken as 12 bits, and `map` as the usual
    (x - inMin) * (outMax - outMin) / (inMax - inMin) + outMin over int with C's
    truncating division. */
module Mapping {
  import opened Arith

  const POT_MIN: int := 0
  const POT_MAX: int := 4095
  const POT_HALF: int := 2048

  /** A smoothed potentiometer reading. */
  type PotValue = x: int | 0 <= x <= 4095

  /** A strictly positive count (a sample length). */
  type Pos = x: int | x > 0 witness 1

  function Abs(x: int): (r: nat)
    ensures r == x || r == -x
  {
    if x < 0 then -x else x
  }

  /** C integer division: rounds toward zero (Dafny's own `/` is Euclidean). */
  function TruncDiv(a: int, b: int): int
    requires b != 0
  {
    if (a >= 0) == (b > 0) then Quot(Abs(a), Abs(b)) else -(Quot(Abs(a), Abs(b)) as int)
  }

  lemma TruncDivIs(a: int, b: int)
    requires b != 0
    ensures TruncDiv(a, b) == if (a >= 0) == (b > 0) then Abs(a) / Abs(b) else -(Abs(a) / Abs(b))
    ensures a >= 0 && b > 0 ==> TruncDiv(a, b) == a / b
    ensures a <= 0 && b > 0 ==> TruncDiv(a, b) == -((-a) / b)
  {
    QuotIsDiv(Abs(a), Abs(b));
  }

  /** map(x, inMin, inMax, outMin, outMax): the endpoints map to the endpoints and
      an in-range input lands in the output range. */
  function Map(x: int, inMin: int, inMax: int, outMin: int, outMax: int): (r: int)
    requires inMin != inMax
    ensures x == inMin ==> r == outMin
    ensures x == inMax ==> r == outMax
    ensures inMin < inMax && inMin <= x && outMin <= outMax ==> outMin <= r
    ensures inMin < inMax && inMin <= x <= inMax && outMin <= outMax ==> r <= outMax
  {
    MapBounds(x, inMin, inMax, outMin, outMax);
    ProductIsMul(x - inMin, outMax - outMin);
    // Product is `*` (ProductIsMul) and TruncDiv is C's `/` (TruncDivIs, QuotIsDiv).
    TruncDiv(Product(x - inMin, outMax - outMin), inMax - inMin) + outMin
  }

  /** Map in terms of `*`, for proofs that need its value. */
  lemma MapIs(x: int, inMin: int, inMax: int, outMin: int, outMax: int)
    requires inMin != inMax
    ensures Map(x, inMin, inMax, outMin, outMax) == TruncDiv((x - inMin) * (outMax - outMin), inMax - inMin) + outMin
  {
    ProductIsMul(x - inMin, outMax - outMin);
  }

  lemma MapBounds(x: int, inMin: int, inMax: int, outMin: int, outMax: int)
    requires inMin != inMax
    ensures x == inMax ==> TruncDiv((x - inMin) * (outMax - outMin), inMax - inMin) == outMax - outMin
    ensures inMin < inMax && inMin <= x && outMin <= outMax ==>
      0 <= TruncDiv((x - inMin) * (outMax - outMin), inMax - inMin)
    ensures inMin < inMax && inMin <= x <= inMax && outMin <= outMax ==>
      TruncDiv((x - inMin) * (outMax - outMin), inMax - inMin) <= outMax - outMin
  {
    var n, d, w := x - inMin, inMax - inMin, outMax - outMin;
    TruncDivIs(n * w, d);
    if x == inMax {
      ExactQuotient(d, w);
    }
    if inMin < inMax && inMin <= x && outMin <= outMax {
      MulMono(0, n, w);
      if x <= inMax {
        MulMono(n, d, w);
        QuotientBelow(n * w, d, w);
      }
    }
  }

  /** d * w / d == w under C division. */
  lemma ExactQuotient(d: int, w: int)
    requires d != 0
    ensures TruncDiv(d * w, d) == w
  {
    var ad, aw := Abs(d), Abs(w);
    TruncDivIs(d * w, d);
    AbsMul(d, w);
    PositiveQuotient(ad, aw);
    assert Abs(d * w) / Abs(d) == aw;
    if w == 0 {
      assert d * w == 0;
    } else if (d > 0) == (w > 0) {
      MulSign(d, w);
    } else {
      MulSign(d, w);
    }
  }

  lemma AbsMul(d: int, w: int)
    ensures Abs(d * w) == Abs(d) * Abs(w)
  {
    if d < 0 && w < 0 { assert d * w == (-d) * (-w); }
    else if d < 0 { assert -(d * w) == (-d) * w; MulMono(0, -d, w); }
    else if w < 0 { assert -(d * w) == d * (-w); MulMono(0, d, -w); }
    else { MulMono(0, d, w); }
  }

  lemma MulSign(d: int, w: int)
    requires d != 0 && w != 0
    ensures d * w > 0 <==> (d > 0) == (w > 0)
  {
    if d > 0 && w > 0 { MulMono(1, d, w); }
    else if d < 0 && w < 0 { MulMono(1, -d, -w); assert d * w == (-d) * (-w); }
    else if d > 0 { MulMono(1, d, -w); assert d * w == -(d * (-w)); }
    else { MulMono(1, -d, w); assert d * w == -((-d) * w); }
  }

  /** For a fixed non-negative input, a larger output range never gives a smaller
      result. */
  lemma MapMonotoneInRange(x: int, inMax: int, w0: int, w1: int)
    requires 0 <= x && 0 < inMax && 0 <= w0 <= w1
    ensures Map(x, 0, inMax, 0, w0) <= Map(x, 0, inMax, 0, w1)
  {
    MapIs(x, 0, inMax, 0, w0);
    MapIs(x, 0, inMax, 0, w1);
    TruncDivIs(x * w0, inMax);
    TruncDivIs(x * w1, inMax);
    MulMono(w0, w1, x);
    assert x * w0 <= x * w1;
    MulMono(0, w0, x);
    DivMono(x * w0, x * w1, inMax);
  }

  /** For a fixed output range starting at 0, a larger input never gives a smaller
      result. */
  lemma MapMonotoneInInput(x0: int, x1: int, inMax: int, w: int)
    requires 0 <= x0 <= x1 && 0 < inMax && 0 <= w
    ensures Map(x0, 0, inMax, 0, w) <= Map(x1, 0, inMax, 0, w)
  {
    MapIs(x0, 0, inMax, 0, w);
    MapIs(x1, 0, inMax, 0, w);
    TruncDivIs(x0 * w, inMax);
    TruncDivIs(x1 * w, inMax);
    MulMono(x0, x1, w);
    MulMono(0, x0, w);
    DivMono(x0 * w, x1 * w, inMax);
  }
}
