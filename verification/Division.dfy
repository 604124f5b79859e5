/** Uniqueness of the quotient, for arguments about division by a variable. */
module Division {

  lemma MultipleAtLeast(d: int, k: int)
    requires 0 < d && 0 < k
    ensures d * k >= d
  {
  }

  lemma QuotientIs(a: int, d: int, q: int, r: int)
    requires 0 < d && 0 <= r < d && a == d * q + r
    ensures a / d == q
  {
    var p := a / d;
    assert a == d * p + a % d;
    assert d * (p - q) == r - a % d;
    if p > q { MultipleAtLeast(d, p - q); }
    if p < q { MultipleAtLeast(d, q - p); }
  }
}
