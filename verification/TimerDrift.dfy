/** A periodic timer fires on a fixed grid of wake-up times, however late the service
    thread runs and however long the handlers take. */
module TimerDrift {
  import opened TimerQueue
  import opened TimerModel
  import opened TimerRuns

  /** The wake-up time `k` intervals after `due`. */
  function Due(due: int, interval: int, k: nat): int
    decreases k
  {
    if k == 0 then due else Due(due + interval, interval, k - 1)
  }

  lemma {:induction false} DueIsLinear(due: int, interval: int, k: nat)
    ensures Due(due, interval, k) == due + k * interval
    decreases k
  {
    if k > 0 {
      DueIsLinear(due + interval, interval, k - 1);
      assert k * interval == (k - 1) * interval + interval;
    }
  }

  function OfTimer(log: seq<Expiry>, id: TimerId): seq<Expiry> {
    if log == [] then []
    else (if log[0].id == id then [log[0]] else []) + OfTimer(log[1..], id)
  }

  ghost predicate NeverReset(ops: seq<Op>, id: TimerId) {
    forall op | op in ops :: !(op.Reset? && op.id == id)
  }

  /** The timer is registered with `entry` and at most one token of it exists:
      its next expiry is pending at `due`, or the one before it is being handled, or the
      timer was one-shot and is spent; or it is gone for good. */
  ghost predicate OnGrid(s: State, id: TimerId, due: int, entry: TimerEntry) {
    && id < s.nextId
    && (id in s.timers ==>
          && s.timers[id] == entry
          && if Count(s.events, id) == 1 then
               Airborne(s, id) == 0 && TimerEvent(due, id) in s.events
             else
               && Count(s.events, id) == 0
               && if Airborne(s, id) == 1 then
                    && s.inFlight.value.wakeup + entry.interval == due
                    && s.inFlight.value.entry == entry
                  else entry.interval <= 0)
  }

  lemma {:induction false} SoleEvent(q: seq<TimerEvent>, a: TimerEvent, b: TimerEvent)
    requires a in q && b in q && a.id == b.id && Count(q, a.id) == 1
    ensures a == b
  {
    CountPositive(q[1..], a.id);
    assert q == [q[0]] + q[1..];
    if q[0].id != a.id { SoleEvent(q[1..], a, b); }
  }

  lemma InsertKeeps(q: seq<TimerEvent>, x: TimerEvent, e: TimerEvent)
    ensures e in q ==> e in Insert(q, x)
  {
    InsertMembers(q, x);
  }

  lemma EraseKeeps(q: seq<TimerEvent>, ids: set<TimerId>, e: TimerEvent)
    ensures e in q && e.id !in ids ==> e in EraseAll(q, ids)
  {
    EraseMembers(q, ids);
  }

  /** A pending event survives every step that neither serves nor erases its timer. */
  lemma EventSurvives(s: State, op: Op, e: TimerEvent)
    requires Enabled(s, op) && e in s.events
    requires !(op.Reset? && op.id == e.id) && !(op.FireBegin? && s.events[0].id == e.id)
    ensures e.id in Next(s, op).timers ==> e in Next(s, op).events
  {
    match op
    case Schedule(now, _, _, oneshot, _) => InsertKeeps(s.events, TimerEvent(now + oneshot, s.nextId), e);
    case Reset(now, r, d) =>
      EraseKeeps(s.events, {r}, e);
      InsertKeeps(EraseAll(s.events, {r}), TimerEvent(now + d, r), e);
    case Cancel(c) => EraseKeeps(s.events, {c}, e);
    case CancelOf(h) => EraseKeeps(s.events, Owned(s.timers, h), e);
    case DeleteAll =>
    case FireBegin(_) =>
      assert s.events == [s.events[0]] + s.events[1..];
    case FireEnd =>
      var f := s.inFlight.value;
      InsertKeeps(s.events, TimerEvent(f.wakeup + f.entry.interval, f.id), e);
  }

  /** The end of the callback leaves the next expiry behind, if the timer is periodic. */
  lemma OwnEndOnGrid(s: State, id: TimerId, due: int, entry: TimerEntry)
    requires Inv(s) && Enabled(s, FireEnd) && OnGrid(s, id, due, entry)
    requires id in s.timers && Count(s.events, id) == 0
    ensures OnGrid(Next(s, FireEnd), id, due, entry)
  {
    NextCount(s, FireEnd, id);
    var f := s.inFlight.value;
    InsertMembers(s.events, TimerEvent(f.wakeup + f.entry.interval, f.id));
  }

  /** A step that is not a service begin of this timer leaves it on its grid. */
  lemma OtherStepOnGrid(s: State, op: Op, id: TimerId, due: int, entry: TimerEntry)
    requires Inv(s) && Enabled(s, op) && OnGrid(s, id, due, entry)
    requires !(op.Reset? && op.id == id) && !(op.FireBegin? && s.events[0].id == id)
    ensures OnGrid(Next(s, op), id, due, entry)
  {
    NextCount(s, op, id);
    if op.FireBegin? { assert s.events[0] in s.events; }
    if id in Next(s, op).timers {
      assert id in s.timers;
      if Count(s.events, id) == 1 {
        EventSurvives(s, op, TimerEvent(due, id));
      } else if op.FireEnd? {
        OwnEndOnGrid(s, id, due, entry);
      }
    }
  }

  /** A service begin of this timer happens at its due time and moves the grid one on. */
  lemma OwnStepOnGrid(s: State, op: Op, id: TimerId, due: int, entry: TimerEntry)
    requires Inv(s) && Enabled(s, op) && OnGrid(s, id, due, entry)
    requires op.FireBegin? && s.events[0].id == id
    ensures s.events[0].time == due
    ensures Expiries(s, op)[0].handler == entry.handler && Expiries(s, op)[0].act == entry.act
    ensures OnGrid(Next(s, op), id, due + entry.interval, entry)
    ensures Count(s.events, id) == 1 && Count(Next(s, op).events, id) == 0
  {
    assert s.events[0] in s.events;
    NextCount(s, op, id);
    CountPositive(s.events, id);
    SoleEvent(s.events, s.events[0], TimerEvent(due, id));
  }

  lemma FirstOfTimer(s: State, ops: seq<Op>, id: TimerId)
    requires ops != [] && Legal(s, ops)
    ensures OfTimer(Log(s, ops), id) ==
      (if ops[0].FireBegin? && s.events[0].id == id then [Expiries(s, ops[0])[0]] else []) +
      OfTimer(Log(Next(s, ops[0]), ops[1..]), id)
  {
    var tail := Log(Next(s, ops[0]), ops[1..]);
    if ops[0].FireBegin? {
      assert Log(s, ops)[1..] == tail;
    } else {
      assert Log(s, ops) == tail;
      assert [] + OfTimer(tail, id) == OfTimer(tail, id);
    }
  }

  /** The expiry is the k-th one on the grid from `due` on and calls the registered
      handler with the registered token. */
  predicate OnTime(x: Expiry, due: int, entry: TimerEntry, k: nat) {
    x.wakeup == Due(due, entry.interval, k) && x.handler == entry.handler && x.act == entry.act
  }

  ghost predicate GridLog(log: seq<Expiry>, due: int, entry: TimerEntry) {
    forall k: nat | k < |log| :: OnTime(log[k], due, entry, k)
  }

  lemma GridCons(x: Expiry, log: seq<Expiry>, due: int, entry: TimerEntry)
    requires OnTime(x, due, entry, 0) && GridLog(log, due + entry.interval, entry)
    ensures GridLog([x] + log, due, entry)
  {
    forall k: nat | k < |[x] + log| ensures OnTime(([x] + log)[k], due, entry, k) {
      if k > 0 { assert ([x] + log)[k] == log[k - 1]; }
    }
  }

  /** Starting on the grid, the k-th expiry of the run lies k intervals after `due` and
      calls the registered handler with the registered token. */
  lemma {:induction false} GridRun(
    s: State, ops: seq<Op>, id: TimerId, due: int, entry: TimerEntry)
    requires Inv(s) && Legal(s, ops) && NeverReset(ops, id)
    requires OnGrid(s, id, due, entry)
    ensures GridLog(OfTimer(Log(s, ops), id), due, entry)
    decreases |ops|
  {
    if ops != [] {
      var op, t := ops[0], Next(s, ops[0]);
      var tail := OfTimer(Log(t, ops[1..]), id);
      NextKeepsInv(s, op);
      FirstOfTimer(s, ops, id);
      if op.FireBegin? && s.events[0].id == id {
        OwnStepOnGrid(s, op, id, due, entry);
        GridRun(t, ops[1..], id, due + entry.interval, entry);
        GridCons(Expiries(s, op)[0], tail, due, entry);
      } else {
        OtherStepOnGrid(s, op, id, due, entry);
        GridRun(t, ops[1..], id, due, entry);
        assert OfTimer(Log(s, ops), id) == tail;
      }
    }
  }

  /** A one-shot timer fires once for its pending event and never again. */
  lemma {:induction false} OneShotRun(
    s: State, ops: seq<Op>, id: TimerId, due: int, entry: TimerEntry)
    requires Inv(s) && Legal(s, ops) && NeverReset(ops, id)
    requires OnGrid(s, id, due, entry) && entry.interval <= 0
    ensures |OfTimer(Log(s, ops), id)| <= Count(s.events, id)
    decreases |ops|
  {
    if ops != [] {
      var op, t := ops[0], Next(s, ops[0]);
      NextKeepsInv(s, op);
      FirstOfTimer(s, ops, id);
      NextCount(s, op, id);
      if op.FireBegin? && s.events[0].id == id {
        OwnStepOnGrid(s, op, id, due, entry);
        OneShotRun(t, ops[1..], id, due + entry.interval, entry);
      } else {
        OtherStepOnGrid(s, op, id, due, entry);
        OneShotRun(t, ops[1..], id, due, entry);
      }
    }
  }

  /** A scheduled timer starts on its grid. */
  lemma ScheduleOnGrid(s: State, now: int, handler: nat, act: int, oneshot: int, interval: int)
    requires Inv(s)
    ensures var t := Next(s, Schedule(now, handler, act, oneshot, interval));
      Inv(t) && OnGrid(t, s.nextId, now + oneshot, TimerEntry(handler, act, interval)) && Count(t.events, s.nextId) == 1
  {
    var op := Schedule(now, handler, act, oneshot, interval);
    NextKeepsInv(s, op);
    NextCount(s, op, s.nextId);
    InsertMembers(s.events, TimerEvent(now + oneshot, s.nextId));
  }

  /** A reset outside the callback puts the timer on a new grid. */
  lemma ResetOnGrid(s: State, now: int, id: TimerId, interval: int)
    requires Inv(s) && id in s.timers && Airborne(s, id) == 0
    ensures var t := Next(s, Reset(now, id, interval));
      Inv(t) && OnGrid(t, id, now + interval, s.timers[id].(interval := interval))
  {
    var op := Reset(now, id, interval);
    NextKeepsInv(s, op);
    NextCount(s, op, id);
    InsertMembers(EraseAll(s.events, {id}), TimerEvent(now + interval, id));
  }

  /** No drift: expiry number k of a scheduled timer that is never reset wakes up exactly
      at schedule time + oneshot + k * interval, and calls the scheduling handler with its
      token. */
  lemma NoDrift(
    s: State, now: int, handler: nat, act: int, oneshot: int, interval: int, ops: seq<Op>, k: nat)
    requires Inv(s)
    requires Legal(Next(s, Schedule(now, handler, act, oneshot, interval)), ops)
    requires NeverReset(ops, s.nextId)
    ensures var mine := OfTimer(Log(Next(s, Schedule(now, handler, act, oneshot, interval)), ops), s.nextId);
      && (k < |mine| ==>
            && mine[k].wakeup == now + oneshot + k * interval
            && mine[k].handler == handler && mine[k].act == act)
      && (interval <= 0 ==> |mine| <= 1)
  {
    var t := Next(s, Schedule(now, handler, act, oneshot, interval));
    var entry := TimerEntry(handler, act, interval);
    ScheduleOnGrid(s, now, handler, act, oneshot, interval);
    DueIsLinear(now + oneshot, interval, k);
    GridRun(t, ops, s.nextId, now + oneshot, entry);
    var mine := OfTimer(Log(t, ops), s.nextId);
    if k < |mine| { assert OnTime(mine[k], now + oneshot, entry, k); }
    if interval <= 0 { OneShotRun(t, ops, s.nextId, now + oneshot, entry); }
  }

  /** A reset outside the timer's own callback restarts the grid one new interval later,
      for the same handler and token. */
  lemma ResetRestartsGrid(s: State, now: int, id: TimerId, interval: int, ops: seq<Op>, k: nat)
    requires Inv(s) && id in s.timers && Airborne(s, id) == 0
    requires Legal(Next(s, Reset(now, id, interval)), ops) && NeverReset(ops, id)
    ensures var mine := OfTimer(Log(Next(s, Reset(now, id, interval)), ops), id);
      k < |mine| ==>
        && mine[k].wakeup == now + interval + k * interval
        && mine[k].handler == s.timers[id].handler && mine[k].act == s.timers[id].act
  {
    var t := Next(s, Reset(now, id, interval));
    var entry := s.timers[id].(interval := interval);
    ResetOnGrid(s, now, id, interval);
    DueIsLinear(now + interval, interval, k);
    GridRun(t, ops, id, now + interval, entry);
    var mine := OfTimer(Log(t, ops), id);
    if k < |mine| { assert OnTime(mine[k], now + interval, entry, k); }
  }
}
