/** The timer manager as a state machine. Every operation is one step taken under the
    mutex; because the mutex is released while a handler runs, the service of one event
    is two steps, `FireBegin` and `FireEnd`, between which any API call may happen. */
module TimerModel {
  import opened Common
  import opened TimerQueue

  datatype TimerEntry = TimerEntry(handler: nat, act: int, interval: int)

  /** What the service thread holds on its stack while the handler runs: the id, the
      wake-up time and a COPY of the table entry. */
  datatype InFlight = InFlight(id: TimerId, wakeup: int, entry: TimerEntry)

  datatype State = State(
    timers: map<TimerId, TimerEntry>,
    events: seq<TimerEvent>,
    nextId: TimerId,
    inFlight: Option<InFlight>)

  const INITIAL := State(map[], [], 0, None)

  /** What `timers[id]` would insert and return for an unknown id. */
  const BLANK_ENTRY := TimerEntry(0, 0, 0)

  /** API calls and service steps, with the clock reading each of them takes. */
  datatype Op =
    | Schedule(now: int, handler: nat, act: int, oneshot: int, interval: int)
    | Reset(now: int, id: TimerId, interval: int)
    | Cancel(id: TimerId)
    | CancelOf(handler: nat)
    | DeleteAll
    | FireBegin(now: int)
    | FireEnd

  predicate Enabled(s: State, op: Op) {
    match op
    case FireBegin(now) => s.inFlight.None? && s.events != [] && s.events[0].time <= now
    case FireEnd => s.inFlight.Some?
    case _ => true
  }

  function Owned(timers: map<TimerId, TimerEntry>, handler: nat): set<TimerId> {
    set id | id in timers && timers[id].handler == handler
  }

  function Lookup(timers: map<TimerId, TimerEntry>, id: TimerId): TimerEntry {
    if id in timers then timers[id] else BLANK_ENTRY
  }

  function Next(s: State, op: Op): State
    requires Enabled(s, op)
  {
    match op
    case Schedule(now, handler, act, oneshot, interval) =>
      s.(timers := s.timers[s.nextId := TimerEntry(handler, act, interval)],
         events := Insert(s.events, TimerEvent(now + oneshot, s.nextId)),
         nextId := s.nextId + 1)
    case Reset(now, id, interval) =>
      if id in s.timers then
        s.(timers := s.timers[id := s.timers[id].(interval := interval)],
           events := Insert(EraseAll(s.events, {id}), TimerEvent(now + interval, id)))
      else s
    case Cancel(id) =>
      if id in s.timers then s.(timers := s.timers - {id}, events := EraseAll(s.events, {id}))
      else s
    case CancelOf(handler) =>
      var ids := Owned(s.timers, handler);
      s.(timers := s.timers - ids, events := EraseAll(s.events, ids))
    case DeleteAll =>
      s.(timers := map[], events := [])
    case FireBegin(_) =>
      var e := s.events[0];
      var entry := Lookup(s.timers, e.id);
      s.(timers := s.timers[e.id := entry],
         events := s.events[1..],
         inFlight := Some(InFlight(e.id, e.time, entry)))
    case FireEnd =>
      var f := s.inFlight.value;
      s.(events := if f.id in s.timers && f.entry.interval > 0
                   then Insert(s.events, TimerEvent(f.wakeup + f.entry.interval, f.id))
                   else s.events,
         inFlight := None)
  }

  /** A handler invocation: which timer, which handler, the wake-up time and token it is
      passed, and the clock reading that found it due. */
  datatype Expiry = Expiry(id: TimerId, handler: nat, wakeup: int, act: int, at: int)

  function Expiries(s: State, op: Op): seq<Expiry>
    requires Enabled(s, op)
  {
    if op.FireBegin? then
      var e := s.events[0];
      var entry := Lookup(s.timers, e.id);
      [Expiry(e.id, entry.handler, e.time, entry.act, op.now)]
    else []
  }

  // ----- Runs -----------------------------------------------------------------

  predicate Legal(s: State, ops: seq<Op>)
    decreases |ops|
  {
    ops == [] || (Enabled(s, ops[0]) && Legal(Next(s, ops[0]), ops[1..]))
  }

  function Exec(s: State, ops: seq<Op>): State
    requires Legal(s, ops)
    decreases |ops|
  {
    if ops == [] then s else Exec(Next(s, ops[0]), ops[1..])
  }

  /** Every handler invocation of the run, in order. */
  function Log(s: State, ops: seq<Op>): seq<Expiry>
    requires Legal(s, ops)
    decreases |ops|
  {
    if ops == [] then [] else Expiries(s, ops[0]) + Log(Next(s, ops[0]), ops[1..])
  }

  predicate TakesClock(op: Op) { op.Schedule? || op.Reset? || op.FireBegin? }

  /** The clock readings of the run start at `clock` and never go back. */
  ghost predicate Clocked(clock: int, ops: seq<Op>)
    decreases |ops|
  {
    ops == [] ||
    (if TakesClock(ops[0]) then clock <= ops[0].now && Clocked(ops[0].now, ops[1..])
     else Clocked(clock, ops[1..]))
  }

  /** Callers pass no negative first delay and no negative new interval. */
  ghost predicate DurationsNonNegative(ops: seq<Op>) {
    forall i | 0 <= i < |ops| ::
      (ops[i].Schedule? ==> ops[i].oneshot >= 0) && (ops[i].Reset? ==> ops[i].interval >= 0)
  }

  // ----- Tokens ---------------------------------------------------------------

  function Airborne(s: State, id: TimerId): nat {
    if s.inFlight.Some? && s.inFlight.value.id == id then 1 else 0
  }

  /** Pending events of the timer plus its running callback. */
  function Tokens(s: State, id: TimerId): nat {
    Count(s.events, id) + Airborne(s, id)
  }

  /** The timer will fire again without anybody's help, or it is a one-shot timer. */
  predicate KeepsGoing(s: State, id: TimerId)
    requires id in s.timers
  {
    || Count(s.events, id) > 0
    || s.timers[id].interval <= 0
    || (s.inFlight.Some? && s.inFlight.value.id == id && s.inFlight.value.entry == s.timers[id])
  }

  // ----- The invariant --------------------------------------------------------

  ghost predicate Inv(s: State) {
    && Sorted(s.events)
    && (forall e | e in s.events :: e.id in s.timers)
    && (forall id | id in s.timers :: id < s.nextId)
    && (s.inFlight.Some? ==> s.inFlight.value.id < s.nextId)
    && (forall id :: Tokens(s, id) <= 2)
    && (forall id | id in s.timers :: KeepsGoing(s, id))
  }
}
