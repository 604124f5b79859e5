/** The per-activation cell that the cache and every blocked caller share. */
module EventResults {
  import opened Common

  /** Event payloads are opaque; the cell starts with a default one. */
  type Event = int

  const DEFAULT_EVENT: Event := 0

  /** A guard condition that a getNextEvent call created for itself. */
  type GuardId = nat

  datatype Mode = Single | Continuous

  /** `triggered` records which registered next-event guards have been raised. */
  datatype ResultVal = ResultVal(
    mode: Mode,
    event: Event,
    hasNew: bool,
    eventGuard: bool,
    deactivated: bool,
    guards: seq<GuardId>,
    triggered: set<GuardId>)

  function NewResult(mode: Mode): ResultVal {
    ResultVal(mode, DEFAULT_EVENT, false, false, false, [], {})
  }

  function SetNew(r: ResultVal, event: Event): ResultVal {
    r.(event := event, hasNew := true, eventGuard := true,
       triggered := r.triggered + set g | g in r.guards)
  }

  /** Only in continuous mode consuming also lowers the event guard. */
  function Consume(r: ResultVal): ResultVal {
    r.(hasNew := false, eventGuard := r.eventGuard && r.mode == Single)
  }

  function AddGuard(r: ResultVal, g: GuardId): ResultVal {
    r.(guards := r.guards + [g])
  }

  /** `list::remove`: every occurrence goes. */
  function RemoveGuard(guards: seq<GuardId>, g: GuardId): seq<GuardId> {
    if guards == [] then []
    else (if guards[0] == g then [] else [guards[0]]) + RemoveGuard(guards[1..], g)
  }

  function ConsumeNext(r: ResultVal, g: GuardId): ResultVal {
    Consume(r.(guards := RemoveGuard(r.guards, g)))
  }

  function Deactivate(r: ResultVal): ResultVal { r.(deactivated := true) }

  /** The status test of `tryEvent`, which looks at the flags and never at the mode. */
  function Try(r: ResultVal): StatusCode {
    if r.hasNew then Ok else if r.eventGuard then Passive else Active
  }

  lemma {:induction false} RemoveGuardConcat(a: seq<GuardId>, b: seq<GuardId>, g: GuardId)
    ensures RemoveGuard(a + b, g) == RemoveGuard(a, g) + RemoveGuard(b, g)
  {
    if a == [] {
      assert a + b == b;
    } else {
      assert (a + b)[1..] == a[1..] + b;
      RemoveGuardConcat(a[1..], b, g);
    }
  }

  // ----- The shared object ----------------------------------------------------

  class EventResult {
    const mode: Mode
    var event: Event
    var hasNewEvent: bool
    var hasEventGuard: bool
    var deactivatedGuard: bool
    var nextEventGuards: seq<GuardId>
    var triggered: set<GuardId>

    constructor (mode: Mode)
      ensures View() == NewResult(mode)
    {
      this.mode := mode;
      event, hasNewEvent := DEFAULT_EVENT, false;
      hasEventGuard, deactivatedGuard := false, false;
      nextEventGuards, triggered := [], {};
    }

    function View(): ResultVal
      reads this
    {
      ResultVal(mode, event, hasNewEvent, hasEventGuard, deactivatedGuard, nextEventGuards, triggered)
    }

    method SetNewEvent(event: Event)
      modifies this
      ensures View() == SetNew(old(View()), event)
    {
      this.event := event;
      hasNewEvent := true;
      hasEventGuard := true;
      ghost var before := triggered;
      for i := 0 to |nextEventGuards|
        invariant nextEventGuards == old(nextEventGuards) && deactivatedGuard == old(deactivatedGuard)
        invariant this.event == event && hasNewEvent && hasEventGuard
        invariant triggered == before + set g | g in nextEventGuards[..i]
      {
        assert nextEventGuards[..i + 1] == nextEventGuards[..i] + [nextEventGuards[i]];
        triggered := triggered + {nextEventGuards[i]};
      }
      assert nextEventGuards[..|nextEventGuards|] == nextEventGuards;
    }

    method ConsumeEvent() returns (event: Event)
      modifies this
      ensures View() == Consume(old(View())) && event == old(this.event)
    {
      hasNewEvent := false;
      if mode == Continuous { hasEventGuard := false; }
      event := this.event;
    }

    method AddNextEventGuard(g: GuardId)
      modifies this
      ensures View() == AddGuard(old(View()), g)
    {
      nextEventGuards := nextEventGuards + [g];
    }

    method ConsumeNextEvent(g: GuardId) returns (event: Event)
      modifies this
      ensures View() == ConsumeNext(old(View()), g) && event == old(this.event)
    {
      var all, kept := nextEventGuards, [];
      for i := 0 to |all|
        invariant kept == RemoveGuard(all[..i], g)
        invariant View() == old(View())
      {
        RemoveGuardConcat(all[..i], [all[i]], g);
        assert all[..i + 1] == all[..i] + [all[i]];
        if all[i] != g { kept := kept + [all[i]]; }
      }
      assert all[..|all|] == all;
      nextEventGuards := kept;
      event := ConsumeEvent();
    }

    method DeactivateEvent()
      modifies this
      ensures View() == Deactivate(old(View()))
    {
      deactivatedGuard := true;
    }
  }

  // ----- Classification over every history ------------------------------------

  datatype HistoryOp =
    | SetOp(event: Event)
    | ConsumeOp
    | ConsumeNextOp(g: GuardId)
    | AddGuardOp(g: GuardId)
    | DeactivateOp

  function Apply(r: ResultVal, op: HistoryOp): ResultVal {
    match op
    case SetOp(e) => SetNew(r, e)
    case ConsumeOp => Consume(r)
    case ConsumeNextOp(g) => ConsumeNext(r, g)
    case AddGuardOp(g) => AddGuard(r, g)
    case DeactivateOp => Deactivate(r)
  }

  function Replay(mode: Mode, h: seq<HistoryOp>): ResultVal {
    if h == [] then NewResult(mode) else Apply(Replay(mode, h[..|h| - 1]), h[|h| - 1])
  }

  ghost predicate Fired(h: seq<HistoryOp>) { exists i | 0 <= i < |h| :: h[i].SetOp? }

  predicate Consumes(op: HistoryOp) { op.ConsumeOp? || op.ConsumeNextOp? }

  /** The set at `i` is the last one, and nothing was consumed since. */
  ghost predicate Unconsumed(h: seq<HistoryOp>, i: nat) {
    i < |h| && h[i].SetOp? && forall j | i < j < |h| :: !h[j].SetOp? && !Consumes(h[j])
  }

  lemma {:induction false} ReplayFlags(mode: Mode, h: seq<HistoryOp>)
    ensures var r := Replay(mode, h);
      && r.mode == mode
      && (r.hasNew <==> exists i: nat :: Unconsumed(h, i))
      && (r.eventGuard <==> if mode == Single then Fired(h) else r.hasNew)
      && (forall i: nat :: Unconsumed(h, i) ==> r.event == h[i].event)
  {
    if h != [] {
      var n := |h| - 1;
      var p, op := h[..n], h[n];
      ReplayFlags(mode, p);
      forall i: nat | i != n ensures Unconsumed(h, i) <==> Unconsumed(p, i) && !op.SetOp? && !Consumes(op) {
        if Unconsumed(p, i) && !op.SetOp? && !Consumes(op) {
          assert forall j | 0 <= j < n :: h[j] == p[j];
        }
      }
      assert Fired(h) <==> Fired(p) || op.SetOp? by {
        if Fired(p) {
          var i :| 0 <= i < |p| && p[i].SetOp?;
          assert h[i].SetOp?;
        }
        if op.SetOp? { assert h[n].SetOp?; }
      }
      if op.SetOp? { assert Unconsumed(h, n); }
    }
  }

  /** For every history of sets and consumptions: `tryEvent` says OK exactly while an
      unconsumed value exists, PASSIVE exactly when a single-mode value was fired and
      consumed, and ACTIVE otherwise, although it never asks for the mode. */
  lemma TryClassifies(mode: Mode, h: seq<HistoryOp>)
    ensures Try(Replay(mode, h)) == Ok <==> exists i: nat :: Unconsumed(h, i)
    ensures Try(Replay(mode, h)) == Passive <==>
      mode == Single && Fired(h) && !exists i: nat :: Unconsumed(h, i)
    ensures Try(Replay(mode, h)) in {Ok, Passive, Active}
  {
    ReplayFlags(mode, h);
  }
}
