/** What every run of the timer manager keeps, for every interleaving of API calls
    with the two halves of the service step. */
module TimerRuns {
  import opened Common
  import opened TimerQueue
  import opened TimerModel

  // ----- One step keeps the invariant -----------------------------------------

  lemma NextKeepsSorted(s: State, op: Op)
    requires Inv(s) && Enabled(s, op)
    ensures Sorted(Next(s, op).events)
  {
    match op
    case Schedule(now, _, _, oneshot, _) => InsertKeepsSorted(s.events, TimerEvent(now + oneshot, s.nextId));
    case Reset(now, id, interval) =>
      EraseKeepsSorted(s.events, {id});
      InsertKeepsSorted(EraseAll(s.events, {id}), TimerEvent(now + interval, id));
    case Cancel(id) => EraseKeepsSorted(s.events, {id});
    case CancelOf(handler) => EraseKeepsSorted(s.events, Owned(s.timers, handler));
    case DeleteAll =>
    case FireBegin(_) =>
    case FireEnd =>
      var f := s.inFlight.value;
      InsertKeepsSorted(s.events, TimerEvent(f.wakeup + f.entry.interval, f.id));
  }

  /** How many pending events a timer has after one step. */
  function CountAfter(s: State, op: Op, id: TimerId): int
    requires Enabled(s, op)
  {
    var n := Count(s.events, id);
    match op
    case Schedule(_, _, _, _, _) => if id == s.nextId then 1 else n
    case Reset(_, r, _) => if id == r && r in s.timers then 1 else n
    case Cancel(c) => if id == c then 0 else n
    case CancelOf(handler) => if id in s.timers && s.timers[id].handler == handler then 0 else n
    case DeleteAll => 0
    case FireBegin(_) => if s.events[0].id == id then n - 1 else n
    case FireEnd =>
      var f := s.inFlight.value;
      if f.id == id && id in s.timers && f.entry.interval > 0 then n + 1 else n
  }

  lemma NextCount(s: State, op: Op, id: TimerId)
    requires Inv(s) && Enabled(s, op)
    ensures Count(Next(s, op).events, id) == CountAfter(s, op, id)
  {
    CountPositive(s.events, id);
    match op
    case Schedule(now, _, _, oneshot, _) => InsertCount(s.events, TimerEvent(now + oneshot, s.nextId), id);
    case Reset(now, r, interval) =>
      EraseCount(s.events, {r}, id);
      InsertCount(EraseAll(s.events, {r}), TimerEvent(now + interval, r), id);
    case Cancel(c) => EraseCount(s.events, {c}, id);
    case CancelOf(h) => EraseCount(s.events, Owned(s.timers, h), id);
    case DeleteAll =>
    case FireBegin(_) =>
    case FireEnd =>
      var f := s.inFlight.value;
      InsertCount(s.events, TimerEvent(f.wakeup + f.entry.interval, f.id), id);
  }

  lemma NextKeepsRegistered(s: State, op: Op, e: TimerEvent)
    requires Inv(s) && Enabled(s, op) && e in Next(s, op).events
    ensures e.id in Next(s, op).timers
  {
    CountPositive(Next(s, op).events, e.id);
    NextCount(s, op, e.id);
    CountPositive(s.events, e.id);
  }

  lemma NextKeepsInv(s: State, op: Op)
    requires Inv(s) && Enabled(s, op)
    ensures Inv(Next(s, op))
  {
    NextKeepsSorted(s, op);
    var t := Next(s, op);
    forall e | e in t.events ensures e.id in t.timers {
      NextKeepsRegistered(s, op, e);
    }
    if op.FireBegin? { assert s.events[0] in s.events; }
    forall id ensures Tokens(t, id) <= 2 {
      NextCount(s, op, id);
      if id == s.nextId { CountPositive(s.events, id); }
      assert Tokens(s, id) <= 2;
    }
    forall id | id in t.timers ensures KeepsGoing(t, id) {
      NextCount(s, op, id);
      if op.FireBegin? { assert s.events[0] in s.events; }
      if id in s.timers { assert KeepsGoing(s, id); }
    }
  }

  /** In every reachable state: the queue is sorted, pending ids are registered and below
      the next id, no timer has more than two tokens, and no periodic timer is lost. */
  lemma {:induction false} RunKeepsInv(s: State, ops: seq<Op>)
    requires Inv(s) && Legal(s, ops)
    ensures Inv(Exec(s, ops))
    decreases |ops|
  {
    if ops != [] {
      NextKeepsInv(s, ops[0]);
      RunKeepsInv(Next(s, ops[0]), ops[1..]);
    }
  }

  lemma InitialInv()
    ensures Inv(INITIAL)
  {
  }

  /** In every reachable state a registered timer with a positive interval has a pending
      event, or its callback is running and will leave one behind. */
  lemma PeriodicNeverLost(ops: seq<Op>, id: TimerId)
    requires Legal(INITIAL, ops)
    requires id in Exec(INITIAL, ops).timers && Exec(INITIAL, ops).timers[id].interval > 0
    ensures var s := Exec(INITIAL, ops);
      && Tokens(s, id) <= 2
      && (|| Count(s.events, id) > 0
          || (Airborne(s, id) == 1 && Count(Next(s, FireEnd).events, id) > 0))
  {
    InitialInv();
    RunKeepsInv(INITIAL, ops);
    var s := Exec(INITIAL, ops);
    assert KeepsGoing(s, id);
    if Airborne(s, id) == 1 { NextCount(s, FireEnd, id); }
  }

  // ----- Token conservation ---------------------------------------------------

  /** Somewhere in the run the timer is reset from inside its own callback. */
  predicate ResetInOwnCallback(s: State, ops: seq<Op>, id: TimerId)
    requires Legal(s, ops)
    decreases |ops|
  {
    ops != [] &&
    (|| (ops[0].Reset? && ops[0].id == id && id in s.timers && Airborne(s, id) == 1)
     || ResetInOwnCallback(Next(s, ops[0]), ops[1..], id))
  }

  /** Two tokens are the doing of a reset from the timer's own callback, and of nothing else. */
  lemma {:induction false} OneTokenUnlessResetInCallback(s: State, ops: seq<Op>, id: TimerId)
    requires Inv(s) && Legal(s, ops) && Tokens(s, id) <= 1
    requires !ResetInOwnCallback(s, ops, id)
    ensures Tokens(Exec(s, ops), id) <= 1
    decreases |ops|
  {
    if ops != [] {
      NextCount(s, ops[0], id);
      NextKeepsInv(s, ops[0]);
      OneTokenUnlessResetInCallback(Next(s, ops[0]), ops[1..], id);
    }
  }

  /** A reset promises one new schedule that replaces the old one. Once the service step
      is over, the timer has that single schedule if and only if the reset was not made
      inside the timer's own callback, or the callback works on a one-shot copy. */
  lemma ResetLeavesOneScheduleIff(s: State, now: int, id: TimerId, interval: int)
    requires Inv(s) && id in s.timers
    ensures
      var r := Next(s, Reset(now, id, interval));
      var t := if r.inFlight.Some? then Next(r, FireEnd) else r;
      && Inv(t)
      && (Count(t.events, id) == 1 <==>
          !(Airborne(s, id) == 1 && s.inFlight.value.entry.interval > 0))
      && (Count(t.events, id) == 2 <==>
          Airborne(s, id) == 1 && s.inFlight.value.entry.interval > 0)
  {
    var op := Reset(now, id, interval);
    NextCount(s, op, id);
    NextKeepsInv(s, op);
    var r := Next(s, op);
    if r.inFlight.Some? {
      NextCount(r, FireEnd, id);
      NextKeepsInv(r, FireEnd);
    }
  }

  /** The second token really happens: schedule, let it expire, reset in the callback. */
  lemma ResetInCallbackDoublesWitness()
    ensures
      var ops := [Schedule(0, 7, 0, 5, 10), FireBegin(5), Reset(6, 0, 10), FireEnd];
      && Legal(INITIAL, ops)
      && Exec(INITIAL, ops).events == [TimerEvent(15, 0), TimerEvent(16, 0)]
  {
    var s1 := Next(INITIAL, Schedule(0, 7, 0, 5, 10));
    assert s1.events == [TimerEvent(5, 0)];
    var s2 := Next(s1, FireBegin(5));
    assert s2.events == [] && s2.inFlight == Some(InFlight(0, 5, TimerEntry(7, 0, 10)));
    var s3 := Next(s2, Reset(6, 0, 10));
    assert EraseAll(s2.events, {0}) == [];
    assert s3.events == [TimerEvent(16, 0)];
    var s4 := Next(s3, FireEnd);
    assert Insert(s3.events, TimerEvent(15, 0)) == [TimerEvent(15, 0)] + s3.events;
    assert s4.events == [TimerEvent(15, 0), TimerEvent(16, 0)];
    var ops := [Schedule(0, 7, 0, 5, 10), FireBegin(5), Reset(6, 0, 10), FireEnd];
    assert ops[1..] == [FireBegin(5), Reset(6, 0, 10), FireEnd];
    assert ops[1..][1..] == [Reset(6, 0, 10), FireEnd];
    assert ops[1..][1..][1..] == [FireEnd];
    assert ops[1..][1..][1..][1..] == [];
    assert Legal(s4, []);
    assert Legal(s3, [FireEnd]);
    assert Legal(s2, ops[1..][1..]);
    assert Legal(s1, ops[1..]);
    assert Exec(s3, [FireEnd]) == s4;
    assert Exec(s2, ops[1..][1..]) == s4;
    assert Exec(s1, ops[1..]) == s4;
  }

  // ----- Cancelled means silent -----------------------------------------------

  /** An id that was issued and is no longer registered stays unregistered and silent
      in every continuation; in particular it is never issued again. */
  lemma {:induction false} UnregisteredIsSilent(s: State, ops: seq<Op>, id: TimerId)
    requires Inv(s) && Legal(s, ops)
    requires id < s.nextId && id !in s.timers
    ensures id !in Exec(s, ops).timers && id < Exec(s, ops).nextId
    ensures forall x | x in Log(s, ops) :: x.id != id
    decreases |ops|
  {
    if ops != [] {
      if ops[0].FireBegin? { assert s.events[0] in s.events; }
      NextKeepsInv(s, ops[0]);
      UnregisteredIsSilent(Next(s, ops[0]), ops[1..], id);
    }
  }

  /** What the cancelling calls remove: `Cancel` the timer it names, `CancelOf` those of
      the handler it names, `DeleteAll` every one; no other step unregisters a timer. */
  lemma CancelledExactly(s: State, op: Op, id: TimerId)
    requires Inv(s) && Enabled(s, op) && id in s.timers
    ensures id !in Next(s, op).timers <==>
      op == Cancel(id) || op == CancelOf(s.timers[id].handler) || op == DeleteAll
    ensures id !in Next(s, op).timers ==> Count(Next(s, op).events, id) == 0
    ensures id in Next(s, op).timers ==>
      Next(s, op).timers[id] ==
        if op.Reset? && op.id == id then s.timers[id].(interval := op.interval) else s.timers[id]
  {
    NextKeepsInv(s, op);
    CountPositive(Next(s, op).events, id);
  }

  /** Whatever step unregisters a timer is one of the three cancelling calls, and no expiry
      of the timer begins afterwards. */
  lemma CancelledMeansSilent(s: State, op: Op, ops: seq<Op>, id: TimerId)
    requires Inv(s) && Enabled(s, op) && Legal(Next(s, op), ops) && id in s.timers
    ensures id !in Next(s, op).timers <==>
      op == Cancel(id) || op == CancelOf(s.timers[id].handler) || op == DeleteAll
    ensures id !in Next(s, op).timers ==>
      && (forall x | x in Log(Next(s, op), ops) :: x.id != id)
      && id !in Exec(Next(s, op), ops).timers
  {
    CancelledExactly(s, op, id);
    NextKeepsInv(s, op);
    if id !in Next(s, op).timers { UnregisteredIsSilent(Next(s, op), ops, id); }
  }

  /** Handler and token of a timer never change while it is registered. */
  lemma {:induction false} OwnerKept(s: State, ops: seq<Op>, id: TimerId)
    requires Inv(s) && Legal(s, ops) && id in s.timers && id in Exec(s, ops).timers
    ensures Exec(s, ops).timers[id].handler == s.timers[id].handler
    ensures Exec(s, ops).timers[id].act == s.timers[id].act
    decreases |ops|
  {
    if ops != [] {
      NextKeepsInv(s, ops[0]);
      CancelledExactly(s, ops[0], id);
      if id !in Next(s, ops[0]).timers { UnregisteredIsSilent(Next(s, ops[0]), ops[1..], id); }
      OwnerKept(Next(s, ops[0]), ops[1..], id);
    }
  }

  /** A scheduled timer belongs to the handler that scheduled it: in every continuation in
      which it is still registered, cancelling the timers of a handler removes it if and
      only if that handler scheduled it, and cancelling it hands back the token. */
  lemma ScheduledForHandler(
    s: State, now: int, handler: nat, act: int, oneshot: int, interval: int, ops: seq<Op>, other: nat)
    requires Inv(s) && Legal(Next(s, Schedule(now, handler, act, oneshot, interval)), ops)
    requires s.nextId in Exec(Next(s, Schedule(now, handler, act, oneshot, interval)), ops).timers
    ensures
      var w := Exec(Next(s, Schedule(now, handler, act, oneshot, interval)), ops);
      && (s.nextId in Owned(w.timers, other) <==> other == handler)
      && (s.nextId !in Next(w, CancelOf(other)).timers <==> other == handler)
      && (other == handler ==> Count(Next(w, CancelOf(other)).events, s.nextId) == 0)
      && w.timers[s.nextId].act == act
  {
    var t := Next(s, Schedule(now, handler, act, oneshot, interval));
    NextKeepsInv(s, Schedule(now, handler, act, oneshot, interval));
    OwnerKept(t, ops, s.nextId);
    RunKeepsInv(t, ops);
    CancelledExactly(Exec(t, ops), CancelOf(other), s.nextId);
  }

  /** The lookup of the expired id always finds its entry, so a service step never
      registers anything: only `Schedule` adds an id, and always a new one. */
  lemma OnlyScheduleRegisters(s: State, op: Op, id: TimerId)
    requires Inv(s) && Enabled(s, op)
    requires id !in s.timers && id in Next(s, op).timers
    ensures op.Schedule? && id == s.nextId
  {
    assert s.events != [] ==> s.events[0] in s.events;
  }

  function Scheduled(ops: seq<Op>): nat {
    if ops == [] then 0 else (if ops[0].Schedule? then 1 else 0) + Scheduled(ops[1..])
  }

  /** Ids are issued in order, one per schedule: the next id is the number of schedules. */
  lemma {:induction false} IdsInOrder(s: State, ops: seq<Op>)
    requires Legal(s, ops)
    ensures Exec(s, ops).nextId == s.nextId + Scheduled(ops)
    decreases |ops|
  {
    if ops != [] { IdsInOrder(Next(s, ops[0]), ops[1..]); }
  }

  // ----- Monotone expiry ------------------------------------------------------

  /** Nothing that can still fire lies before `floor`. */
  ghost predicate Floored(s: State, floor: int) {
    && (forall e | e in s.events :: floor <= e.time)
    && (s.inFlight.Some? ==> floor <= s.inFlight.value.wakeup)
  }

  /** The event that a step puts into the queue. */
  function Added(s: State, op: Op): Option<TimerEvent>
    requires Enabled(s, op)
  {
    match op
    case Schedule(now, _, _, oneshot, _) => Some(TimerEvent(now + oneshot, s.nextId))
    case Reset(now, id, interval) => if id in s.timers then Some(TimerEvent(now + interval, id)) else None
    case FireEnd =>
      var f := s.inFlight.value;
      if f.id in s.timers && f.entry.interval > 0
      then Some(TimerEvent(f.wakeup + f.entry.interval, f.id)) else None
    case _ => None
  }

  lemma NextMembers(s: State, op: Op, e: TimerEvent)
    requires Enabled(s, op) && e in Next(s, op).events
    ensures e in s.events || Added(s, op) == Some(e)
  {
    match op
    case Schedule(now, _, _, oneshot, _) => InsertMembers(s.events, TimerEvent(now + oneshot, s.nextId));
    case Reset(now, id, interval) =>
      EraseMembers(s.events, {id});
      InsertMembers(EraseAll(s.events, {id}), TimerEvent(now + interval, id));
    case Cancel(id) => EraseMembers(s.events, {id});
    case CancelOf(h) => EraseMembers(s.events, Owned(s.timers, h));
    case DeleteAll =>
    case FireBegin(_) =>
    case FireEnd =>
      var f := s.inFlight.value;
      InsertMembers(s.events, TimerEvent(f.wakeup + f.entry.interval, f.id));
  }

  lemma NextKeepsFloor(s: State, op: Op, floor: int)
    requires Sorted(s.events) && Enabled(s, op) && Floored(s, floor)
    requires op.Schedule? ==> floor <= op.now && 0 <= op.oneshot
    requires op.Reset? ==> floor <= op.now && 0 <= op.interval
    ensures Floored(Next(s, op), if op.FireBegin? then s.events[0].time else floor)
  {
    forall e | e in Next(s, op).events
      ensures (if op.FireBegin? then s.events[0].time else floor) <= e.time
    {
      NextMembers(s, op, e);
    }
    if op.FireBegin? { assert s.events[0] in s.events; }
  }

  /** The wake-up times never decrease, start at `floor`, and none is ahead of the clock. */
  ghost predicate Rising(log: seq<Expiry>, floor: int) {
    && (forall i, j | 0 <= i < j < |log| :: log[i].wakeup <= log[j].wakeup)
    && (forall i | 0 <= i < |log| :: floor <= log[i].wakeup <= log[i].at)
  }

  lemma RisingCons(x: Expiry, tail: seq<Expiry>, floor: int)
    requires Rising(tail, x.wakeup) && floor <= x.wakeup <= x.at
    ensures Rising([x] + tail, floor)
  {
    var log := [x] + tail;
    forall i | 1 <= i < |log| ensures log[i] == tail[i - 1] {}
  }

  lemma {:induction false} MonotoneExpiryFrom(s: State, ops: seq<Op>, clock: int, floor: int)
    requires Inv(s) && Legal(s, ops) && Floored(s, floor) && floor <= clock
    requires Clocked(clock, ops) && DurationsNonNegative(ops)
    ensures Rising(Log(s, ops), floor)
    decreases |ops|
  {
    if ops != [] {
      var op, rest := ops[0], ops[1..];
      var clock' := if TakesClock(op) then op.now else clock;
      var floor' := if op.FireBegin? then s.events[0].time else floor;
      assert forall i | 0 <= i < |rest| :: rest[i] == ops[i + 1];
      NextKeepsFloor(s, op, floor);
      NextKeepsInv(s, op);
      if op.FireBegin? { assert s.events[0] in s.events; }
      MonotoneExpiryFrom(Next(s, op), rest, clock', floor');
      var tail := Log(Next(s, op), rest);
      if op.FireBegin? {
        RisingCons(Expiries(s, op)[0], tail, floor);
        assert Log(s, ops) == [Expiries(s, op)[0]] + tail;
      } else {
        assert Log(s, ops) == tail;
      }
    }
  }

  /** From the start, with a clock that never goes back: the wake-up times handed to the
      handlers never decrease, and no handler is called before its time. */
  lemma MonotoneExpiry(ops: seq<Op>, clock: int)
    requires Legal(INITIAL, ops) && Clocked(clock, ops) && DurationsNonNegative(ops)
    ensures var log := Log(INITIAL, ops);
      && (forall i, j | 0 <= i < j < |log| :: log[i].wakeup <= log[j].wakeup)
      && (forall i | 0 <= i < |log| :: log[i].wakeup <= log[i].at)
  {
    InitialInv();
    MonotoneExpiryFrom(INITIAL, ops, clock, clock);
  }
}
