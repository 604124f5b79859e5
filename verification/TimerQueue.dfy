/** The multimap of wake-up events: a sequence sorted by wake-up time in which
    events with equal times stand in insertion order. */
module TimerQueue {

  type TimerId = nat

  datatype TimerEvent = TimerEvent(time: int, id: TimerId)

  ghost predicate Sorted(q: seq<TimerEvent>) {
    forall i, j | 0 <= i < j < |q| :: q[i].time <= q[j].time
  }

  /** `multimap::emplace`: behind every event that is not later than `e`. */
  function Insert(q: seq<TimerEvent>, e: TimerEvent): (r: seq<TimerEvent>) {
    if q == [] then [e]
    else if q[0].time <= e.time then [q[0]] + Insert(q[1..], e)
    else [e] + q
  }

  /** The events whose id is not in `ids`, in their old order. */
  function EraseAll(q: seq<TimerEvent>, ids: set<TimerId>): (r: seq<TimerEvent>) {
    if q == [] then []
    else (if q[0].id in ids then [] else [q[0]]) + EraseAll(q[1..], ids)
  }

  /** How many pending events carry this id. */
  function Count(q: seq<TimerEvent>, id: TimerId): (n: nat) {
    if q == [] then 0 else (if q[0].id == id then 1 else 0) + Count(q[1..], id)
  }

  // ----- Insert ---------------------------------------------------------------

  /** Where the new event lands: all earlier or equal times stay in front of it, all
      later ones behind it, and nothing else moves. */
  lemma {:induction false} InsertSplits(q: seq<TimerEvent>, e: TimerEvent) returns (k: nat)
    requires Sorted(q)
    ensures k <= |q| && Insert(q, e) == q[..k] + [e] + q[k..]
    ensures forall i | 0 <= i < k :: q[i].time <= e.time
    ensures forall i | k <= i < |q| :: e.time < q[i].time
  {
    if q == [] || e.time < q[0].time {
      k := 0;
    } else {
      var j := InsertSplits(q[1..], e);
      k := j + 1;
      assert q == [q[0]] + q[1..];
      forall i | k <= i < |q| ensures e.time < q[i].time {
        assert q[i] == q[1..][i - 1];
      }
      forall i | 0 <= i < k ensures q[i].time <= e.time {
        if i > 0 { assert q[i] == q[1..][i - 1]; }
      }
    }
  }

  lemma InsertKeepsSorted(q: seq<TimerEvent>, e: TimerEvent)
    requires Sorted(q)
    ensures Sorted(Insert(q, e))
  {
    var k := InsertSplits(q, e);
  }

  lemma {:induction false} InsertMembers(q: seq<TimerEvent>, e: TimerEvent)
    ensures multiset(Insert(q, e)) == multiset(q) + multiset{e}
    ensures forall x :: x in Insert(q, e) <==> x in q || x == e
  {
    if q != [] {
      assert q == [q[0]] + q[1..];
      InsertMembers(q[1..], e);
    }
    assert forall x :: x in Insert(q, e) <==> x in multiset(Insert(q, e));
    assert forall x :: x in q <==> x in multiset(q);
  }

  lemma {:induction false} InsertCount(q: seq<TimerEvent>, e: TimerEvent, id: TimerId)
    ensures Count(Insert(q, e), id) == Count(q, id) + if e.id == id then 1 else 0
  {
    if q != [] {
      InsertCount(q[1..], e, id);
      assert ([q[0]] + Insert(q[1..], e))[1..] == Insert(q[1..], e);
      assert ([e] + q)[1..] == q;
    }
  }

  // ----- EraseAll -------------------------------------------------------------

  lemma {:induction false} EraseMembers(q: seq<TimerEvent>, ids: set<TimerId>)
    ensures forall x :: x in EraseAll(q, ids) <==> x in q && x.id !in ids
  {
    if q != [] {
      EraseMembers(q[1..], ids);
      assert q == [q[0]] + q[1..];
    }
  }

  lemma {:induction false} EraseKeepsSorted(q: seq<TimerEvent>, ids: set<TimerId>)
    requires Sorted(q)
    ensures Sorted(EraseAll(q, ids))
  {
    if q != [] {
      EraseKeepsSorted(q[1..], ids);
      EraseMembers(q[1..], ids);
      assert q == [q[0]] + q[1..];
      forall x | x in EraseAll(q[1..], ids) ensures q[0].time <= x.time {
        var i :| 0 <= i < |q[1..]| && q[1..][i] == x;
        assert q[i + 1] == x;
      }
    }
  }

  lemma {:induction false} EraseCount(q: seq<TimerEvent>, ids: set<TimerId>, id: TimerId)
    ensures Count(EraseAll(q, ids), id) == if id in ids then 0 else Count(q, id)
  {
    if q != [] {
      EraseCount(q[1..], ids, id);
      var rest := EraseAll(q[1..], ids);
      assert ([q[0]] + rest)[1..] == rest;
      assert [] + rest == rest;
    }
  }

  lemma {:induction false} EraseConcat(p: seq<TimerEvent>, q: seq<TimerEvent>, ids: set<TimerId>)
    ensures EraseAll(p + q, ids) == EraseAll(p, ids) + EraseAll(q, ids)
  {
    if p == [] {
      assert p + q == q;
    } else {
      assert (p + q)[1..] == p[1..] + q;
      EraseConcat(p[1..], q, ids);
    }
  }

  /** Erasing two sets one after the other is erasing their union. */
  lemma {:induction false} EraseTwice(q: seq<TimerEvent>, a: set<TimerId>, b: set<TimerId>)
    ensures EraseAll(EraseAll(q, a), b) == EraseAll(q, a + b)
  {
    if q != [] {
      EraseTwice(q[1..], a, b);
      EraseConcat(if q[0].id in a then [] else [q[0]], EraseAll(q[1..], a), b);
    }
  }

  lemma {:induction false} EraseNothing(q: seq<TimerEvent>, ids: set<TimerId>)
    requires forall e | e in q :: e.id !in ids
    ensures EraseAll(q, ids) == q
  {
    if q != [] {
      EraseNothing(q[1..], ids);
      assert q == [q[0]] + q[1..];
    }
  }

  // ----- Count ----------------------------------------------------------------

  lemma {:induction false} CountPositive(q: seq<TimerEvent>, id: TimerId)
    ensures Count(q, id) > 0 <==> exists e :: e in q && e.id == id
  {
    if q != [] {
      CountPositive(q[1..], id);
      assert q == [q[0]] + q[1..];
    }
  }
}
