/** The timer manager object: its fields, its API calls, each made under the mutex, and
    the two halves of the service step. */
module TimerManager {
  import opened Common
  import opened TimerQueue
  import opened TimerModel
  import opened TimerRuns
  import opened TimerBacklog

  /** Every non-empty key set has a least key. */
  lemma {:induction false} LeastExists(ids: set<TimerId>) returns (m: TimerId)
    requires ids != {}
    ensures m in ids && forall j | j in ids :: m <= j
  {
    var x :| x in ids;
    var rest := ids - {x};
    assert ids == rest + {x};
    m := x;
    if rest != {} {
      var n := LeastExists(rest);
      if n < x { m := n; }
    }
  }

  /** The next key of a map iterator that still has `ids` ahead of it. */
  method Least(ids: set<TimerId>) returns (id: TimerId)
    requires ids != {}
    ensures id in ids && forall j | j in ids :: id <= j
  {
    ghost var m := LeastExists(ids);
    id :| id in ids && forall j | j in ids :: id <= j;
  }

  lemma EraseOneMore(q: seq<TimerEvent>, k: nat, id: TimerId)
    requires k < |q|
    ensures EraseAll(q[..k + 1], {id}) == EraseAll(q[..k], {id}) + if q[k].id == id then [] else [q[k]]
  {
    assert q[..k + 1] == q[..k] + [q[k]];
    EraseConcat(q[..k], [q[k]], {id});
    assert [q[k]][1..] == [];
  }

  /** The erase loop has worked through `k` events of `all`; `it` is its position in `now`. */
  ghost predicate ErasedSoFar(all: seq<TimerEvent>, now: seq<TimerEvent>, id: TimerId, it: nat, k: nat) {
    && k <= |all|
    && it == |EraseAll(all[..k], {id})|
    && now == EraseAll(all[..k], {id}) + all[k..]
  }

  /** One turn of the erase loop. */
  lemma EraseTurn(all: seq<TimerEvent>, now: seq<TimerEvent>, id: TimerId, it: nat, k: nat)
    requires ErasedSoFar(all, now, id, it, k) && k < |all|
    ensures it < |now| && now[it] == all[k]
    ensures all[k].id == id ==> ErasedSoFar(all, now[..it] + now[it + 1..], id, it, k + 1)
    ensures all[k].id != id ==> ErasedSoFar(all, now, id, it + 1, k + 1)
  {
    var kept := EraseAll(all[..k], {id});
    EraseOneMore(all, k, id);
    assert all[k..] == [all[k]] + all[k + 1..];
    assert now[..it] == kept && now[it + 1..] == all[k + 1..];
    assert now == (kept + [all[k]]) + all[k + 1..];
  }

  ghost function Without(s: State, ids: set<TimerId>): State {
    s.(timers := s.timers - ids, events := EraseAll(s.events, ids))
  }

  lemma WithoutOneMore(s: State, ids: set<TimerId>, id: TimerId)
    requires id in s.timers && id !in ids
    ensures Next(Without(s, ids), Cancel(id)) == Without(s, ids + {id})
  {
    EraseTwice(s.events, ids, {id});
    assert s.timers - ids - {id} == s.timers - (ids + {id});
  }

  /** One full round of the service loop on its own. */
  lemma ServeRound(s: State, now: int)
    requires Inv(s) && Enabled(s, FireBegin(now))
    ensures var t := Next(Next(s, FireBegin(now)), FireEnd);
      && Inv(t) && t.timers == s.timers && t.inFlight.None?
      && Backlog(t, now) + 1 == Backlog(s, now)
      && (forall e | e in t.events :: s.events[0].time <= e.time)
  {
    var m := Next(s, FireBegin(now));
    var f := m.inFlight.value;
    ServiceStep(s, FireBegin(now), now);
    NextKeepsInv(s, FireBegin(now));
    ServiceStep(m, FireEnd, now);
    NextKeepsInv(m, FireEnd);
    InsertMembers(m.events, TimerEvent(f.wakeup + f.entry.interval, f.id));
  }

  class TimerManager {
    var timers: map<TimerId, TimerEntry>
    var timerEvents: seq<TimerEvent>
    var nextTimerId: TimerId
    /** The locals of the service thread while it runs a handler. */
    var inFlight: Option<InFlight>

    ghost function View(): State
      reads this
    {
      State(timers, timerEvents, nextTimerId, inFlight)
    }

    constructor ()
      ensures View() == INITIAL
    {
      timers, timerEvents, nextTimerId, inFlight := map[], [], 0, None;
    }

    method ScheduleTimer(now: int, handler: nat, act: int, oneshot: int, interval: int)
      returns (id: TimerId)
      modifies this
      ensures id == old(nextTimerId)
      ensures View() == Next(old(View()), Schedule(now, handler, act, oneshot, interval))
    {
      id := nextTimerId;
      nextTimerId := nextTimerId + 1;
      timerEvents := Insert(timerEvents, TimerEvent(now + oneshot, id));
      timers := timers[id := TimerEntry(handler, act, interval)];
    }

    /** The erase loop over the event map, with the iterator as an index. */
    method EraseEventsOf(id: TimerId)
      modifies this`timerEvents
      ensures timerEvents == EraseAll(old(timerEvents), {id})
    {
      var it: nat := 0;
      ghost var all, k: nat := timerEvents, 0;
      while it < |timerEvents|
        invariant ErasedSoFar(all, timerEvents, id, it, k)
        decreases |all| - k
      {
        EraseTurn(all, timerEvents, id, it, k);
        if timerEvents[it].id == id {
          timerEvents := timerEvents[..it] + timerEvents[it + 1..];
        } else {
          it := it + 1;
        }
        k := k + 1;
      }
      assert all[..k] == all;
    }

    method Unregister(id: TimerId)
      requires id in timers
      modifies this
      ensures View() == Next(old(View()), Cancel(id))
    {
      timers := timers - {id};
      EraseEventsOf(id);
    }

    method ResetTimerInterval(now: int, id: TimerId, interval: int) returns (status: int)
      modifies this
      ensures View() == Next(old(View()), Reset(now, id, interval))
      ensures status == if id in old(timers) then 0 else -1
    {
      if id !in timers { return -1; }
      timers := timers[id := timers[id].(interval := interval)];
      EraseEventsOf(id);
      timerEvents := Insert(timerEvents, TimerEvent(now + interval, id));
      status := 0;
    }

    /** On success the token given at scheduling is handed back; `notified` lists the
        handlers whose `timerCancelled` is called after unlocking. */
    method CancelTimer(id: TimerId) returns (status: int, act: Option<int>, notified: seq<nat>)
      modifies this
      ensures View() == Next(old(View()), Cancel(id))
      ensures id in old(timers) ==>
        status == 0 && act == Some(old(timers)[id].act) && notified == [old(timers)[id].handler]
      ensures id !in old(timers) ==> status == -1 && act == None && notified == []
    {
      if id !in timers { return -1, None, []; }
      var entry := timers[id];
      Unregister(id);
      return 0, Some(entry.act), [entry.handler];
    }

    /** The outer loop walks the timer map in key order; for every timer of the handler
        the inner loop erases its events. The handler is notified once, also when it had
        no timer. */
    method CancelTimersOf(handler: nat) returns (cancelled: nat, notified: seq<nat>)
      modifies this
      ensures View() == Next(old(View()), CancelOf(handler))
      ensures cancelled == |Owned(old(timers), handler)| && notified == [handler]
    {
      cancelled := 0;
      var ahead := timers.Keys;
      ghost var s, owned := View(), Owned(timers, handler);
      ghost var gone: set<TimerId> := {};
      EraseNothing(timerEvents, {});
      while ahead != {}
        invariant ahead <= s.timers.Keys && gone <= owned <= gone + ahead && gone !! ahead
        invariant View() == Without(s, gone)
        invariant cancelled == |gone|
        decreases ahead
      {
        var id := Least(ahead);
        if timers[id].handler == handler {
          cancelled := cancelled + 1;
          Unregister(id);
          WithoutOneMore(s, gone, id);
          gone := gone + {id};
        }
        ahead := ahead - {id};
      }
      assert gone == owned;
      notified := [handler];
    }

    /** `deleted` lists the timers whose `timerDeleted` upcalls follow after unlocking,
        in key order, and `notified` their handlers with the tokens these are passed. */
    method DeleteAllTimers() returns (deleted: seq<TimerId>, notified: seq<(nat, int)>)
      modifies this
      ensures View() == Next(old(View()), DeleteAll)
      ensures forall i, j | 0 <= i < j < |deleted| :: deleted[i] < deleted[j]
      ensures forall id :: id in deleted <==> id in old(timers)
      ensures |notified| == |deleted|
      ensures forall i | 0 <= i < |deleted| ::
        notified[i] == (old(timers)[deleted[i]].handler, old(timers)[deleted[i]].act)
    {
      timerEvents := [];
      var timersCopy := timers;
      timers := map[];
      deleted, notified := [], [];
      var ahead := timersCopy.Keys;
      while ahead != {}
        invariant View() == Next(old(View()), DeleteAll)
        invariant ahead <= timersCopy.Keys
        invariant forall i, j | 0 <= i < j < |deleted| :: deleted[i] < deleted[j]
        invariant forall i, j | 0 <= i < |deleted| && j in ahead :: deleted[i] < j
        invariant forall id :: id in deleted <==> id in timersCopy && id !in ahead
        invariant |notified| == |deleted|
        invariant forall i | 0 <= i < |deleted| ::
          notified[i] == (timersCopy[deleted[i]].handler, timersCopy[deleted[i]].act)
        decreases ahead
      {
        var id := Least(ahead);
        deleted := deleted + [id];
        notified := notified + [(timersCopy[id].handler, timersCopy[id].act)];
        ahead := ahead - {id};
      }
    }

    /** Pops the front event and copies its entry; the handler call follows unlocked. */
    method FireBegin(now: int) returns (x: Expiry)
      requires Enabled(View(), TimerModel.FireBegin(now))
      modifies this
      ensures View() == Next(old(View()), TimerModel.FireBegin(now))
      ensures [x] == Expiries(old(View()), TimerModel.FireBegin(now))
    {
      var e := timerEvents[0];
      timerEvents := timerEvents[1..];
      if e.id !in timers { timers := timers[e.id := BLANK_ENTRY]; }
      inFlight := Some(InFlight(e.id, e.time, timers[e.id]));
      x := Expiry(e.id, timers[e.id].handler, e.time, timers[e.id].act, now);
    }

    /** Back under the mutex: reschedules relative to the previous wake-up time. */
    method FireEnd()
      requires inFlight.Some?
      modifies this
      ensures View() == Next(old(View()), TimerModel.FireEnd)
    {
      var f := inFlight.value;
      if f.id in timers && f.entry.interval > 0 {
        timerEvents := Insert(timerEvents, TimerEvent(f.wakeup + f.entry.interval, f.id));
      }
      inFlight := None;
    }

    /** The service loop while no API call interferes and the clock stands at `now`: it
        performs exactly the backlog, in wake-up order, and stops with nothing due. */
    method ServeUntil(now: int) returns (log: seq<Expiry>)
      requires Inv(View()) && inFlight.None?
      modifies this
      ensures Inv(View()) && inFlight.None? && timers == old(timers)
      ensures |log| == Backlog(old(View()), now)
      ensures forall i, j | 0 <= i < j < |log| :: log[i].wakeup <= log[j].wakeup
      ensures forall x | x in log :: x.wakeup <= now
      ensures forall e | e in timerEvents :: now < e.time
    {
      log := [];
      while timerEvents != [] && timerEvents[0].time <= now
        invariant Inv(View()) && inFlight.None? && timers == old(timers)
        invariant |log| + Backlog(View(), now) == Backlog(old(View()), now)
        invariant forall i, j | 0 <= i < j < |log| :: log[i].wakeup <= log[j].wakeup
        invariant forall x | x in log :: x.wakeup <= now
        invariant forall x, e | x in log && e in timerEvents :: x.wakeup <= e.time
        decreases Backlog(View(), now)
      {
        ServeRound(View(), now);
        var x := FireBegin(now);
        FireEnd();
        log := log + [x];
      }
      LoadZero(timerEvents, timers, now);
    }
  }
}
