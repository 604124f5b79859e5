/** How much work is due: the number of expiries with a wake-up time up to a horizon is
    a conserved quantity of the service loop, which bounds every wait for the thread. */
module TimerBacklog {
  import opened Division
  import opened TimerQueue
  import opened TimerModel
  import opened TimerRuns

  /** Expiries up to `horizon` of a timer whose next wake-up is `wakeup`. */
  function Share(wakeup: int, interval: int, horizon: int): nat {
    if wakeup > horizon then 0
    else if interval <= 0 then 1
    else (horizon - wakeup) / interval + 1
  }

  /** Pending events count with the interval the table stores for their timer. */
  function Load(q: seq<TimerEvent>, timers: map<TimerId, TimerEntry>, horizon: int): nat {
    if q == [] then 0
    else Share(q[0].time, Lookup(timers, q[0].id).interval, horizon) + Load(q[1..], timers, horizon)
  }

  /** A running callback of a live timer is rescheduled with the interval of its own copy. */
  function AirLoad(s: State, horizon: int): nat {
    if s.inFlight.None? then 0
    else
      var f := s.inFlight.value;
      if f.id in s.timers && f.entry.interval > 0
      then Share(f.wakeup + f.entry.interval, s.timers[f.id].interval, horizon)
      else 0
  }

  function Backlog(s: State, horizon: int): nat {
    Load(s.events, s.timers, horizon) + AirLoad(s, horizon)
  }

  function DueCount(log: seq<Expiry>, horizon: int): nat {
    if log == [] then 0
    else (if log[0].wakeup <= horizon then 1 else 0) + DueCount(log[1..], horizon)
  }

  predicate ServiceOnly(ops: seq<Op>) {
    forall op | op in ops :: op.FireBegin? || op.FireEnd?
  }

  lemma ShareStep(wakeup: int, interval: int, horizon: int)
    ensures Share(wakeup, interval, horizon) ==
      (if wakeup <= horizon then 1 else 0) +
      (if interval > 0 then Share(wakeup + interval, interval, horizon) else 0)
  {
    if wakeup <= horizon && interval > 0 {
      DivideStep(horizon - wakeup, interval);
    }
  }

  lemma DivideStep(a: int, d: int)
    requires 0 <= a && 0 < d
    ensures a / d == if a < d then 0 else (a - d) / d + 1
  {
    if a >= d {
      var q, r := (a - d) / d, (a - d) % d;
      assert a - d == d * q + r;
      QuotientIs(a, d, q + 1, r);
    }
  }

  lemma {:induction false} LoadInsert(
    q: seq<TimerEvent>, e: TimerEvent, timers: map<TimerId, TimerEntry>, horizon: int)
    ensures Load(Insert(q, e), timers, horizon) ==
      Load(q, timers, horizon) + Share(e.time, Lookup(timers, e.id).interval, horizon)
  {
    if q != [] {
      LoadInsert(q[1..], e, timers, horizon);
      assert ([q[0]] + Insert(q[1..], e))[1..] == Insert(q[1..], e);
      assert ([e] + q)[1..] == q;
    }
  }

  lemma {:induction false} LoadAtLeast(
    q: seq<TimerEvent>, e: TimerEvent, timers: map<TimerId, TimerEntry>, horizon: int)
    requires e in q && e.time <= horizon
    ensures Load(q, timers, horizon) >= 1
  {
    assert q == [q[0]] + q[1..];
    if q[0] != e { LoadAtLeast(q[1..], e, timers, horizon); }
    else if Lookup(timers, e.id).interval > 0 {
      DivideStep(horizon - e.time, Lookup(timers, e.id).interval);
    }
  }

  lemma {:induction false} LoadZero(q: seq<TimerEvent>, timers: map<TimerId, TimerEntry>, horizon: int)
    requires Sorted(q) && (q != [] ==> q[0].time > horizon)
    ensures Load(q, timers, horizon) == 0
  {
    if q != [] { LoadZero(q[1..], timers, horizon); }
  }

  /** One service step performs exactly what it takes off the backlog. */
  lemma ServiceStep(s: State, op: Op, horizon: int)
    requires Inv(s) && Enabled(s, op) && (op.FireBegin? || op.FireEnd?)
    ensures Backlog(Next(s, op), horizon) + DueCount(Expiries(s, op), horizon) == Backlog(s, horizon)
    ensures Next(s, op).timers == s.timers
  {
    match op
    case FireBegin(_) =>
      var e := s.events[0];
      assert e in s.events;
      assert Next(s, op).timers == s.timers;
      ShareStep(e.time, s.timers[e.id].interval, horizon);
      assert DueCount(Expiries(s, op), horizon) == if e.time <= horizon then 1 else 0;
    case FireEnd =>
      var f := s.inFlight.value;
      LoadInsert(s.events, TimerEvent(f.wakeup + f.entry.interval, f.id), s.timers, horizon);
  }

  lemma {:induction false} DueConcat(a: seq<Expiry>, b: seq<Expiry>, horizon: int)
    ensures DueCount(a + b, horizon) == DueCount(a, horizon) + DueCount(b, horizon)
  {
    if a == [] { assert a + b == b; }
    else {
      assert (a + b)[1..] == a[1..] + b;
      DueConcat(a[1..], b, horizon);
    }
  }

  /** Conservation over every run of the service thread: expiries performed up to the
      horizon plus the remaining backlog are the initial backlog. */
  lemma {:induction false} BacklogConserved(s: State, ops: seq<Op>, horizon: int)
    requires Inv(s) && Legal(s, ops) && ServiceOnly(ops)
    ensures DueCount(Log(s, ops), horizon) + Backlog(Exec(s, ops), horizon) == Backlog(s, horizon)
    decreases |ops|
  {
    if ops != [] {
      ServiceStep(s, ops[0], horizon);
      NextKeepsInv(s, ops[0]);
      BacklogConserved(Next(s, ops[0]), ops[1..], horizon);
      DueConcat(Expiries(s, ops[0]), Log(Next(s, ops[0]), ops[1..]), horizon);
    }
  }

  /** The event is in the queue before and after every step of the run. */
  predicate StaysPending(s: State, ops: seq<Op>, e: TimerEvent)
    requires Legal(s, ops)
    decreases |ops|
  {
    e in s.events && (ops == [] || StaysPending(Next(s, ops[0]), ops[1..], e))
  }

  lemma {:induction false} NothingOvertakes(s: State, ops: seq<Op>, e: TimerEvent)
    requires Inv(s) && Legal(s, ops) && ServiceOnly(ops) && StaysPending(s, ops, e)
    ensures DueCount(Log(s, ops), e.time) == |Log(s, ops)|
    ensures e in Exec(s, ops).events
    decreases |ops|
  {
    if ops != [] {
      NextKeepsInv(s, ops[0]);
      NothingOvertakes(Next(s, ops[0]), ops[1..], e);
      if ops[0].FireBegin? {
        assert Log(s, ops)[1..] == Log(Next(s, ops[0]), ops[1..]);
      } else {
        assert Log(s, ops) == Log(Next(s, ops[0]), ops[1..]);
      }
    }
  }

  /** Starvation bound: without further API calls, the thread performs fewer expiries than
      the backlog at the event's own time before the event itself is served. */
  lemma StarvationBound(s: State, ops: seq<Op>, e: TimerEvent)
    requires Inv(s) && Legal(s, ops) && ServiceOnly(ops) && StaysPending(s, ops, e)
    ensures |Log(s, ops)| < Backlog(s, e.time)
  {
    NothingOvertakes(s, ops, e);
    BacklogConserved(s, ops, e.time);
    LoadAtLeast(Exec(s, ops).events, e, Exec(s, ops).timers, e.time);
  }

  lemma {:induction false} AllDueByClock(s: State, ops: seq<Op>, now: int)
    requires Legal(s, ops) && ServiceOnly(ops)
    requires forall op | op in ops :: op.FireBegin? ==> op.now <= now
    ensures DueCount(Log(s, ops), now) == |Log(s, ops)|
    decreases |ops|
  {
    if ops != [] {
      AllDueByClock(Next(s, ops[0]), ops[1..], now);
      if ops[0].FireBegin? {
        assert ops[0] in ops;
        assert Log(s, ops)[1..] == Log(Next(s, ops[0]), ops[1..]);
      } else {
        assert Log(s, ops) == Log(Next(s, ops[0]), ops[1..]);
      }
    }
  }

  /** While the clock is at most `now`, the thread performs at most the backlog at `now`,
      and it has performed all of it exactly when nothing is due any more. */
  lemma FrozenClockExact(s: State, ops: seq<Op>, now: int)
    requires Inv(s) && Legal(s, ops) && ServiceOnly(ops)
    requires forall op | op in ops :: op.FireBegin? ==> op.now <= now
    requires Exec(s, ops).inFlight.None?
    ensures |Log(s, ops)| <= Backlog(s, now)
    ensures |Log(s, ops)| == Backlog(s, now) <==> !Enabled(Exec(s, ops), FireBegin(now))
  {
    AllDueByClock(s, ops, now);
    BacklogConserved(s, ops, now);
    RunKeepsInv(s, ops);
    var t := Exec(s, ops);
    if Enabled(t, FireBegin(now)) {
      LoadAtLeast(t.events, t.events[0], t.timers, now);
    } else {
      LoadZero(t.events, t.timers, now);
    }
  }
}
