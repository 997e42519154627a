/** Integer multiplication and division written as recursion, with lemmas that
    connect them to `*` and `/`.  The fixed-point product and the `map` helper are
    defined through these, so that proofs that only pass through those helpers
    meet recursive definitions instead of nonlinear arithmetic; the lemmas below
    bring in `*` and `/` exactly where a value matters. */
module Arith {

  /** a * b by binary recursion on a (shift and add).  Callers put the factor that
      is usually a variable first, so that the definition is only unfolded on
      demand; on a literal a the unfolding is a few levels deep. */
  function Product(a: int, b: int): int
    decreases if a < 0 then 1 - a else a
  {
    if a == 0 then 0
    else if a < 0 then -Product(-a, b)
    else
      var h := Product(a / 2, b);
      if a % 2 == 0 then h + h else h + h + b
  }

  lemma {:induction false} ProductIsMul(a: int, b: int)
    ensures Product(a, b) == a * b
    decreases if a < 0 then 1 - a else a
  {
    if a < 0 {
      ProductIsMul(-a, b);
      MulNeg(-a, b);
    } else if a > 0 {
      ProductIsMul(a / 2, b);
      Doubling(b, a / 2, a % 2);
      assert a == 2 * (a / 2) + a % 2;
    }
  }

  lemma MulNeg(a: int, b: int)
    ensures -a * b == -(a * b)
  {
  }

  /** a * (2h + m) split into the halves and the low bit, for m in {0, 1}. */
  lemma Doubling(a: int, h: int, m: int)
    requires m == 0 || m == 1
    ensures a * (2 * h + m) == a * h + a * h + (if m == 1 then a else 0)
    ensures (2 * h + m) * a == h * a + h * a + (if m == 1 then a else 0)
  {
    assert a * (2 * h + m) == a * (h + h) + a * m;
  }

  /** Quotient and remainder of n by d, by binary long division: the pair
      for n / 2 is doubled and the low bit of n brought down. */
  function DivMod(n: nat, d: nat): (nat, nat)
    requires d > 0
    decreases n
  {
    if n < d then (0, n)
    else
      var qr := DivMod(n / 2, d);
      var r := 2 * qr.1 + n % 2;
      if r >= d then (2 * qr.0 + 1, r - d) else (2 * qr.0, r)
  }

  /** n / d on naturals. */
  function Quot(n: nat, d: nat): nat
    requires d > 0
  {
    DivMod(n, d).0
  }

  /** The pair from DivMod satisfies the division identity. */
  lemma {:induction false} DivModSplits(n: nat, d: nat)
    requires d > 0
    ensures n == d * DivMod(n, d).0 + DivMod(n, d).1 && DivMod(n, d).1 < d
    decreases n
  {
    if n >= d {
      DivModSplits(n / 2, d);
      var q := DivMod(n / 2, d).0;
      Doubling(d, q, 0);
      Doubling(d, q, 1);
    }
  }

  lemma DivModIs(n: nat, d: nat)
    requires d > 0
    ensures DivMod(n, d) == (n / d, n % d)
  {
    DivModSplits(n, d);
    DivUnique(n, d, DivMod(n, d).0, DivMod(n, d).1);
  }

  lemma QuotIsDiv(n: nat, d: nat)
    requires d > 0
    ensures Quot(n, d) == n / d
  {
    DivModIs(n, d);
  }

  /** The quotient is the only q with n == d * q + r and 0 <= r < d, and the
      remainder is r. */
  lemma DivUnique(n: int, d: int, q: int, r: int)
    requires d > 0 && n == d * q + r && 0 <= r < d
    ensures n / d == q && n % d == r
  {
    var q', r' := n / d, n % d;
    assert d * (q - q') == r' - r;
    if q - q' >= 1 {
      MulMono(1, q - q', d);
    } else if q - q' <= -1 {
      MulMono(q - q', -1, d);
    }
  }

  /** Multiplication by a non-negative factor is monotone. */
  lemma MulMono(a: int, b: int, c: int)
    requires a <= b && 0 <= c
    ensures a * c <= b * c
  {
    assert b * c - a * c == (b - a) * c;
  }

  lemma MulNonNeg(x: int, y: int)
    requires 0 <= x && 0 <= y
    ensures 0 <= x * y
  {
  }

  /** Division by a positive number is monotone. */
  lemma DivMono(a: int, b: int, d: int)
    requires 0 <= a <= b && 0 < d
    ensures a / d <= b / d
  {
    if a / d > b / d {
      MulMono(b / d + 1, a / d, d);
    }
  }

  lemma QuotientBelow(n: int, d: int, w: int)
    requires 0 <= n <= d * w && 0 < d
    ensures n / d <= w
  {
    if n / d > w {
      MulMono(w + 1, n / d, d);
    }
  }

  lemma PositiveQuotient(d: int, w: int)
    requires d > 0
    ensures (d * w) / d == w
  {
    DivUnique(d * w, d, w, 0);
  }

  /** A numerator at least the divisor gives a positive quotient. */
  lemma QuotientPositive(n: int, d: int)
    requires 0 < d <= n
    ensures n / d > 0
  {
  }
}
