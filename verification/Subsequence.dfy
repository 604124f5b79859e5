/** One sequence arises from another by leaving elements out. */
module Subsequence {

  function Front<T>(s: seq<T>): seq<T>
    requires s != []
  {
    s[..|s| - 1]
  }

  function Last<T>(s: seq<T>): T
    requires s != []
  {
    s[|s| - 1]
  }

  predicate Subseq<T(==)>(a: seq<T>, b: seq<T>)
    decreases |b|
  {
    || a == []
    || (b != [] && (Subseq(a, Front(b)) || (Last(a) == Last(b) && Subseq(Front(a), Front(b)))))
  }

  lemma {:induction false} SubseqLength<T>(a: seq<T>, b: seq<T>)
    requires Subseq(a, b)
    ensures |a| <= |b|
    decreases |b|
  {
    if a != [] {
      if Subseq(a, Front(b)) { SubseqLength(a, Front(b)); } else { SubseqLength(Front(a), Front(b)); }
    }
  }

  lemma {:induction false} SubseqSelf<T>(a: seq<T>)
    ensures Subseq(a, a)
  {
    if a != [] { SubseqSelf(Front(a)); }
  }

  lemma SubseqSnoc<T>(a: seq<T>, b: seq<T>, x: T)
    requires Subseq(a, b)
    ensures Subseq(a, b + [x]) && Subseq(a + [x], b + [x])
  {
    assert Front(b + [x]) == b && Front(a + [x]) == a;
  }

  lemma {:induction false} SubseqTrans<T>(a: seq<T>, b: seq<T>, c: seq<T>)
    requires Subseq(a, b) && Subseq(b, c)
    ensures Subseq(a, c)
    decreases |c|
  {
    if a != [] {
      if Subseq(b, Front(c)) {
        SubseqTrans(a, b, Front(c));
      } else if Subseq(a, Front(b)) {
        SubseqTrans(a, Front(b), Front(c));
      } else {
        SubseqTrans(Front(a), Front(b), Front(c));
      }
    }
  }

  /** Leaving one element out of the middle. */
  lemma {:induction false} SubseqDrop<T>(a: seq<T>, x: T, b: seq<T>)
    ensures Subseq(a + b, a + [x] + b)
    decreases |b|
  {
    if b == [] {
      SubseqSelf(a);
      SubseqSnoc(a, a, x);
      assert a + b == a && a + [x] + b == a + [x];
    } else {
      SubseqDrop(a, x, Front(b));
      SubseqSnoc(a + Front(b), a + [x] + Front(b), Last(b));
      assert a + Front(b) + [Last(b)] == a + b;
      assert a + [x] + Front(b) + [Last(b)] == a + [x] + b;
    }
  }

  lemma {:induction false} SubseqPrefix<T>(a: seq<T>, b: seq<T>)
    ensures Subseq(a, a + b)
    decreases |b|
  {
    if b == [] {
      SubseqSelf(a);
      assert a + b == a;
    } else {
      SubseqPrefix(a, Front(b));
      SubseqSnoc(a, a + Front(b), Last(b));
      assert a + Front(b) + [Last(b)] == a + b;
    }
  }
}
