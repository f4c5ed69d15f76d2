/** Rounding of fixed-point amounts: half to even, as `Decimal.quantize` does by default. */
module Money {

  function RoundHalfEven(n: int, d: int): int
    requires d > 0
  {
    var q, r := n / d, n % d;
    if 2 * r < d || (2 * r == d && q % 2 == 0) then q else q + 1
  }

  function Abs(x: int): int { if x < 0 then -x else x }

  /** `r` is a nearest multiple of `d` to `n`, and the even one of two equally near. */
  predicate Nearest(n: int, d: int, r: int) {
    2 * Abs(n - r * d) <= d && (2 * Abs(n - r * d) == d ==> r % 2 == 0)
  }

  lemma RoundIsNearest(n: int, d: int)
    requires d > 0
    ensures Nearest(n, d, RoundHalfEven(n, d))
  {
    var q, r := n / d, n % d;
    assert n == q * d + r;
    assert (q + 1) * d == q * d + d;
  }

  /** Multiples of `d` are at least `d` apart. */
  lemma MultiplesApart(r: int, s: int, d: int)
    requires d > 0
    ensures r < s ==> r * d + d <= s * d
    ensures r + 1 < s ==> r * d + 2 * d <= s * d
  {
    assert s * d - r * d == (s - r) * d;
    assert s - r >= 1 ==> (s - r) * d >= d;
    assert s - r >= 2 ==> (s - r) * d >= 2 * d;
  }

  lemma NearestIsUnique(n: int, d: int, r: int, s: int)
    requires d > 0 && Nearest(n, d, r) && Nearest(n, d, s)
    ensures r == s
  {
    MultiplesApart(r, s, d);
    MultiplesApart(s, r, d);
  }

  /** Rounding works on the magnitude: the sign of an amount does not matter. */
  lemma RoundIsOdd(n: int, d: int)
    requires d > 0
    ensures RoundHalfEven(-n, d) == -RoundHalfEven(n, d)
  {
    RoundIsNearest(n, d);
    RoundIsNearest(-n, d);
    NearestOfNegative(n, d, RoundHalfEven(n, d));
    NearestIsUnique(-n, d, RoundHalfEven(-n, d), -RoundHalfEven(n, d));
  }

  lemma NearestOfNegative(n: int, d: int, r: int)
    requires Nearest(n, d, r)
    ensures Nearest(-n, d, -r)
  {
    assert (-r) * d == -(r * d);
  }

  /** The test that rounding takes `n` per `d` below the whole bound `lo`. */
  predicate RoundsBelow(n: int, d: int, lo: int) {
    2 * (lo * d - n) > d || (2 * (lo * d - n) == d && lo % 2 != 0)
  }

  predicate RoundsAbove(n: int, d: int, hi: int) { RoundsBelow(-n, d, -hi) }

  lemma RoundsBelowExactly(n: int, d: int, lo: int)
    requires d > 0
    ensures RoundHalfEven(n, d) < lo <==> RoundsBelow(n, d, lo)
  {
    var r := RoundHalfEven(n, d);
    RoundIsNearest(n, d);
    MultiplesApart(r, lo, d);
    MultiplesApart(lo, r, d);
  }

  lemma RoundsAboveExactly(n: int, d: int, hi: int)
    requires d > 0
    ensures RoundHalfEven(n, d) > hi <==> RoundsAbove(n, d, hi)
  {
    RoundIsOdd(n, d);
    RoundsBelowExactly(-n, d, -hi);
  }

  /** Rounding reaches `r` from `k` below it exactly when `k` is less than half of `d`, or just
      half and `r` is even. */
  lemma RoundsUpTo(n: int, d: int, r: int, k: int)
    requires d > 0 && k >= 0 && r * d - n == k
    ensures RoundHalfEven(n, d) == r <==> 2 * k < d || (2 * k == d && r % 2 == 0)
  {
    RoundsBelowExactly(n, d, r);
    RoundsAboveExactly(n, d, r);
    assert (-r) * d == -(r * d);
  }
}
