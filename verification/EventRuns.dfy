/** Concurrent callers over whole runs: which of them gets a value that arrived, and which
    of them `blocking` aborts. Both differ from what the client documents. */
module EventRuns {
  import opened Common
  import opened ConnectionId
  import opened CorrelationIds
  import opened EventClient
  import opened EventProofs
  import opened EventResults
  import opened EventServer
  import opened EventSystem
  import opened EventTheorems

  // ----- What a run shows of one activation ------------------------------------

  /** The step brings a new value into the cell of `id`. */
  predicate Arrives(s: System, step: Step, id: CorrelationId)
    requires Enabled(s, step)
  {
    step.Take? && s.nodes[step.c].inbox[0].related == id && id in s.nodes[step.c].client.cache
  }

  /** The step returns from a getEvent or getNextEvent on `id` with OK. */
  predicate Returns(s: System, step: Step, id: CorrelationId)
    requires Enabled(s, step)
  {
    step.Finish? && s.calls[step.t].id == id && CallStatus(CellFor(s, s.calls[step.t]), s.calls[step.t]) == Ok
  }

  /** At the end of the run a value has arrived that no call returned yet: since the last
      OK, or since the start if `left`, one came in. */
  predicate Unreturned(s: System, steps: seq<Step>, id: CorrelationId, left: bool)
    requires Legal(s, steps)
    decreases |steps|
  {
    if steps == [] then left
    else
      Unreturned(Next(s, steps[0]), steps[1..], id,
            Arrives(s, steps[0], id) || (left && !Returns(s, steps[0], id)))
  }

  // ----- One step ----------------------------------------------------------------

  function ClientAt(s: System, c: nat): Client {
    if c in s.nodes then s.nodes[c].client else INITIAL_CLIENT
  }

  /** The cell of `id`, wherever its connection was made. */
  function CellAt(s: System, id: CorrelationId): ResultVal {
    if id.writer in s.owner then CellOf(ClientAt(s, s.owner[id.writer]), id) else NewResult(Single)
  }

  lemma CallCell(s: System, t: nat)
    requires t in s.calls && CallAt(s, t) && NodeAt(s, s.calls[t].client)
    ensures CellFor(s, s.calls[t]) == CellAt(s, s.calls[t].id)
    ensures OwnedBy(s, s.calls[t].id, s.calls[t].client)
  {
  }

  /** Steps that change neither a cell nor what a record says of arrivals. */
  predicate Idle(step: Step) {
    step.Guard? || step.Block? || step.ActivateBegin? || step.LoseUp? || step.ReceiveUp? ||
    step.PutBegin? || step.PutEnd? || step.LoseEvent? || step.EnterGet? || step.Wake?
  }

  lemma IdleKeepsCell(s: System, step: Step, id: CorrelationId)
    requires Enabled(s, step) && Idle(step)
    ensures CellAt(Next(s, step), id) == CellAt(s, id)
    ensures Next(s, step).records == s.records
  {
  }

  /** From `s` to `t` the flag of `id` changes as `arrives` and `returned` say. */
  ghost predicate Freshness(s: System, t: System, id: CorrelationId, arrives: bool, returned: bool) {
    && (CellAt(t, id).hasNew <==> arrives || (CellAt(s, id).hasNew && !returned))
    && |RecordOf(t, id).sets| == |RecordOf(s, id).sets| + if arrives then 1 else 0
  }

  lemma PutClients(s: System, result: Tested, throws: bool, c: nat)
    requires s.putAt.Some? && s.putAt.value < |s.server|
    ensures ClientAt(AfterPutEntry(s, result, throws), c) == ClientAt(s, c)
    ensures AfterPutEntry(s, result, throws).owner == s.owner
  {
  }

  lemma PutSets(s: System, result: Tested, throws: bool, id: CorrelationId)
    requires s.putAt.Some? && s.putAt.value < |s.server|
    ensures RecordOf(AfterPutEntry(s, result, throws), id).sets == RecordOf(s, id).sets
  {
  }

  lemma PutFreshness(s: System, result: Tested, throws: bool, id: CorrelationId)
    requires s.putAt.Some? && s.putAt.value < |s.server|
    ensures Freshness(s, AfterPutEntry(s, result, throws), id, false, false)
  {
    PutClients(s, result, throws, if id.writer in s.owner then s.owner[id.writer] else 0);
    PutSets(s, result, throws, id);
  }

  lemma ConnectFreshness(s: System, c: nat, g: Guid, id: CorrelationId)
    requires c in s.nodes && NodeAt(s, c) && g !in s.owner
    ensures Freshness(s, AfterConnect(s, c, g), id, false, false)
  {
  }

  lemma DisconnectFreshness(s: System, c: nat, id: CorrelationId)
    requires c in s.nodes && NodeAt(s, c)
    ensures Freshness(s, AfterDisconnect(s, c), id, false, false)
  {
  }

  lemma ActivateWriteFreshness(s: System, c: nat, i: CorrelationId, params: int, throws: bool, id: CorrelationId)
    requires c in s.nodes && s.nodes[c].activating.Some? && i !in s.records
    ensures Freshness(s, AfterActivateWrite(s, c, i, params, throws), id, false, false)
  {
  }

  lemma ActivateInsertFreshness(s: System, c: nat, id: CorrelationId)
    requires c in s.nodes && NodeAt(s, c) && s.nodes[c].activating.Some? && s.nodes[c].activating.value.id.Some?
    ensures Freshness(s, AfterActivateInsert(s, c), id, false, false)
  {
  }

  lemma DeactivationFreshness(s: System, c: nat, i: CorrelationId, throws: bool, id: CorrelationId)
    requires c in s.nodes && NodeAt(s, c) && i in s.nodes[c].client.cache
    ensures Freshness(s, AfterDeactivation(s, c, i, throws), id, false, false)
  {
  }

  lemma EnterNextFreshness(s: System, t: nat, c: nat, i: CorrelationId, id: CorrelationId)
    requires c in s.nodes && NodeAt(s, c) && i in s.nodes[c].client.cache
    ensures Freshness(s, AfterEnterNext(s, t, c, i), id, false, false)
  {
  }

  lemma TakeFreshness(s: System, c: nat, id: CorrelationId)
    requires c in s.nodes && NodeAt(s, c) && s.nodes[c].inbox != []
    ensures var e := s.nodes[c].inbox[0];
      Freshness(s, AfterTake(s, c), id, e.related == id && id in s.nodes[c].client.cache, false)
  {
  }

  /** The cell after the end of a call. */
  function FinishedCell(r: ResultVal, call: Call): ResultVal
    requires call.woken.Some?
  {
    if CallStatus(r, call) != Ok then r
    else if call.guard.Some? then ConsumeNext(r, call.guard.value)
    else Consume(r)
  }

  lemma FinishCells(s: System, t: nat, id: CorrelationId)
    requires t in s.calls && s.calls[t].woken.Some? && CallAt(s, t) && NodeAt(s, s.calls[t].client)
    ensures CellAt(AfterFinish(s, t), id) ==
      if id == s.calls[t].id then FinishedCell(CellAt(s, id), s.calls[t]) else CellAt(s, id)
    ensures RecordOf(AfterFinish(s, t), id).sets == RecordOf(s, id).sets
  {
  }

  lemma FinishFreshness(s: System, t: nat, id: CorrelationId)
    requires t in s.calls && s.calls[t].woken.Some? && CallAt(s, t) && NodeAt(s, s.calls[t].client)
    ensures var call := s.calls[t];
      Freshness(s, AfterFinish(s, t), id, false, call.id == id && CallStatus(CellFor(s, call), call) == Ok)
  {
    CallCell(s, t);
    FinishCells(s, t, id);
  }

  /** The new-event flag, and the number of values so far, after one step. */
  lemma NextFreshness(s: System, step: Step, id: CorrelationId)
    requires Inv(s) && Enabled(s, step)
    ensures Freshness(s, Next(s, step), id, Arrives(s, step, id), Returns(s, step, id))
  {
    match step
    case PutEntry(result, throws) => PutFreshness(s, result, throws, id);
    case Finish(t) =>
      assert CallAt(s, t) && NodeAt(s, s.calls[t].client);
      FinishFreshness(s, t, id);
    case Take(c) => assert NodeAt(s, c); TakeFreshness(s, c, id);
    case EnterNext(t, c, i) => assert NodeAt(s, c); EnterNextFreshness(s, t, c, i, id);
    case Connect(c, g) => assert NodeAt(s, c); ConnectFreshness(s, c, g, id);
    case Disconnect(c) => assert NodeAt(s, c); DisconnectFreshness(s, c, id);
    case ActivateWrite(c, i, params, throws) => ActivateWriteFreshness(s, c, i, params, throws, id);
    case ActivateInsert(c) => assert NodeAt(s, c); ActivateInsertFreshness(s, c, id);
    case Deactivation(c, i, throws) => assert NodeAt(s, c); DeactivationFreshness(s, c, i, throws, id);
    case _ => IdleKeepsCell(s, step, id);
  }

  // ----- Who gets the value --------------------------------------------------------

  lemma {:induction false} UnreturnedIsHasNew(s: System, steps: seq<Step>, id: CorrelationId)
    requires Inv(s) && Legal(s, steps)
    ensures CellAt(Exec(s, steps), id).hasNew <==> Unreturned(s, steps, id, CellAt(s, id).hasNew)
    decreases |steps|
  {
    if steps != [] {
      NextFreshness(s, steps[0], id);
      NextKeepsInv(s, steps[0]);
      UnreturnedIsHasNew(Next(s, steps[0]), steps[1..], id);
    }
  }

  /** The condition by which an event releases this call. */
  function OwnCond(call: Call): Cond {
    if call.guard.Some? then NextCond(call.guard.value) else EventCond
  }

  /** The status of a call that its own event released, and nothing else. */
  lemma ReleasedStatus(r: ResultVal, call: Call)
    requires call.woken == Some([OwnCond(call)])
    ensures CallStatus(r, call) ==
      if r.hasNew then Ok else if call.guard.None? && r.mode == Single then Passive else Error
  {
    var active := call.woken.value;
    assert active[1..] == [];
    assert ScanGet(r, active[1..]) == Error;
    assert call.guard.Some? ==> ScanNext(r, call.guard.value, active[1..]) == Error;
  }

  /** The documentation promises that concurrent getEvent and getNextEvent calls on one id
      all return the event. In the code, in every run: a call returns OK only if a value
      arrived since the last OK of any call on this id; a call that was released by the
      event alone returns OK if and only if that is so, and else PASSIVE or ERROR. */
  lemma SecondGetEventIff(clients: set<nat>, steps: seq<Step>, t: nat)
    requires Legal(Initial(clients), steps) && Enabled(Exec(Initial(clients), steps), Finish(t))
    ensures
      var s := Exec(Initial(clients), steps);
      var call := s.calls[t];
      var status, left := CallStatus(CellFor(s, call), call), Unreturned(Initial(clients), steps, call.id, false);
      && (status == Ok ==> left)
      && (call.woken == Some([OwnCond(call)]) ==>
            && (status == Ok <==> left)
            && (!left ==> status == if call.guard.None? && RecordOf(s, call.id).mode == Single
                                     then Passive else Error))
  {
    InitialInv(clients);
    RunKeepsInv(Initial(clients), steps);
    var s := Exec(Initial(clients), steps);
    var call := s.calls[t];
    assert CallAt(s, t) && NodeAt(s, call.client) && IdAt(s, call.id);
    CallCell(s, t);
    UnreturnedIsHasNew(Initial(clients), steps, call.id);
    OkMeansNewEvent(CellFor(s, call), if call.guard.Some? then call.guard.value else 0, call.woken.value);
    if call.woken == Some([OwnCond(call)]) { ReleasedStatus(CellFor(s, call), call); }
  }

  lemma {:induction false} ArrivalsOnlyGrow(s: System, steps: seq<Step>, id: CorrelationId)
    requires Inv(s) && Legal(s, steps)
    ensures |RecordOf(s, id).sets| <= |RecordOf(Exec(s, steps), id).sets|
    ensures |RecordOf(s, id).sets| == |RecordOf(Exec(s, steps), id).sets| ==>
      forall left :: Unreturned(s, steps, id, left) ==> left
    decreases |steps|
  {
    if steps != [] {
      NextFreshness(s, steps[0], id);
      NextKeepsInv(s, steps[0]);
      ArrivalsOnlyGrow(Next(s, steps[0]), steps[1..], id);
    }
  }

  /** After an OK nobody else gets an OK on this id before another value arrives. */
  lemma NoSecondOk(s: System, t: nat, steps: seq<Step>, u: nat)
    requires Inv(s) && Enabled(s, Finish(t)) && Returns(s, Finish(t), s.calls[t].id)
    requires Legal(Next(s, Finish(t)), steps)
    requires Enabled(Exec(Next(s, Finish(t)), steps), Finish(u))
    ensures
      var id, w := s.calls[t].id, Exec(Next(s, Finish(t)), steps);
      w.calls[u].id == id && |RecordOf(w, id).sets| == |RecordOf(s, id).sets| ==>
        !Returns(w, Finish(u), id)
  {
    var id, r := s.calls[t].id, Next(s, Finish(t));
    var w := Exec(r, steps);
    NextFreshness(s, Finish(t), id);
    NextKeepsInv(s, Finish(t));
    UnreturnedIsHasNew(r, steps, id);
    ArrivalsOnlyGrow(r, steps, id);
    RunKeepsInv(r, steps);
    var call := w.calls[u];
    assert CallAt(w, u) && NodeAt(w, call.client);
    CallCell(w, u);
    OkMeansNewEvent(CellFor(w, call), if call.guard.Some? then call.guard.value else 0, call.woken.value);
  }

  // ----- Whom `blocking` aborts -------------------------------------------------

  /** The argument of the last `blocking` call of client `c`; `before` without one. */
  predicate LastBlocking(steps: seq<Step>, c: nat, before: bool)
    decreases |steps|
  {
    if steps == [] then before
    else
      LastBlocking(steps[1..], c, if steps[0].Block? && steps[0].c == c then steps[0].blocking else before)
  }

  lemma FinishNonblocking(s: System, t: nat, c: nat)
    requires t in s.calls && s.calls[t].woken.Some? && s.calls[t].client in s.nodes
    ensures ClientAt(AfterFinish(s, t), c).nonblocking == ClientAt(s, c).nonblocking
  {
  }

  lemma NextNonblocking(s: System, step: Step, c: nat)
    requires Enabled(s, step)
    ensures ClientAt(Next(s, step), c).nonblocking ==
      if step.Block? && step.c == c then step.blocking else ClientAt(s, c).nonblocking
  {
    match step
    case PutEntry(result, throws) => PutClients(s, result, throws, c);
    case Finish(t) => FinishNonblocking(s, t, c);
    case _ =>
  }

  lemma {:induction false} GuardIsLastBlocking(s: System, steps: seq<Step>, c: nat)
    requires Legal(s, steps)
    ensures ClientAt(Exec(s, steps), c).nonblocking == LastBlocking(steps, c, ClientAt(s, c).nonblocking)
    decreases |steps|
  {
    if steps != [] {
      NextNonblocking(s, steps[0], c);
      GuardIsLastBlocking(Next(s, steps[0]), steps[1..], c);
    }
  }

  /** The documentation of `blocking` says that false aborts the blocked calls with
      CANCELLED. In the code, in every run, a blocked call can be aborted in that way if
      and only if the last argument its client was given is true. */
  lemma BlockingReleasesIff(clients: set<nat>, steps: seq<Step>, t: nat)
    requires Legal(Initial(clients), steps)
    requires t in Exec(Initial(clients), steps).calls && Exec(Initial(clients), steps).calls[t].woken.None?
    ensures
      var s := Exec(Initial(clients), steps);
      var wake := Wake(t, [NonblockingCond]);
      && (Enabled(s, wake) <==> LastBlocking(steps, s.calls[t].client, false))
      && (Enabled(s, wake) ==>
            CallStatus(CellFor(Next(s, wake), Next(s, wake).calls[t]), Next(s, wake).calls[t]) == Cancelled)
  {
    InitialInv(clients);
    RunKeepsInv(Initial(clients), steps);
    var s := Exec(Initial(clients), steps);
    var c := s.calls[t].client;
    assert CallAt(s, t);
    GuardIsLastBlocking(Initial(clients), steps, c);
    assert [NonblockingCond][0] == NonblockingCond;
    if Enabled(s, Wake(t, [NonblockingCond])) { assert Holds(s, s.calls[t], [NonblockingCond][0]); }
  }

  lemma {:induction false} CancelledNeedsGuard(r: ResultVal, g: GuardId, active: seq<Cond>)
    ensures ScanGet(r, active) == Cancelled ==> NonblockingCond in active
    ensures ScanNext(r, g, active) == Cancelled ==> NonblockingCond in active
  {
    if active != [] { CancelledNeedsGuard(r, g, active[1..]); }
  }

  /** The client's guard is down, and it is not what woke call `t`. */
  ghost predicate Unaborted(s: System, c: nat, t: nat) {
    && !ClientAt(s, c).nonblocking
    && (t in s.calls && s.calls[t].client == c && s.calls[t].woken.Some? ==>
          NonblockingCond !in s.calls[t].woken.value)
  }

  lemma WakeUnaborted(s: System, c: nat, t: nat, active: seq<Cond>)
    requires Enabled(s, Wake(t, active)) && !ClientAt(s, c).nonblocking
    ensures s.calls[t].client == c ==> NonblockingCond !in active
  {
    forall i | s.calls[t].client == c && 0 <= i < |active| ensures active[i] != NonblockingCond {
      assert Holds(s, s.calls[t], active[i]);
    }
  }

  lemma NotWoken(s: System, step: Step, t: nat)
    requires Enabled(s, step) && !step.Wake?
    ensures t in Next(s, step).calls && Next(s, step).calls[t].woken.Some? ==>
      t in s.calls && s.calls[t] == Next(s, step).calls[t]
  {
  }

  lemma NextUnaborted(s: System, step: Step, c: nat, t: nat)
    requires Enabled(s, step) && Unaborted(s, c, t) && !(step.Block? && step.c == c && step.blocking)
    ensures Unaborted(Next(s, step), c, t)
  {
    NextNonblocking(s, step, c);
    if step.Wake? { WakeUnaborted(s, c, step.t, step.active); } else { NotWoken(s, step, t); }
  }

  lemma {:induction false} RunUnaborted(s: System, steps: seq<Step>, c: nat, t: nat)
    requires Legal(s, steps) && Unaborted(s, c, t) && Block(c, true) !in steps
    ensures Unaborted(Exec(s, steps), c, t)
    decreases |steps|
  {
    if steps != [] {
      assert steps[0] in steps;
      NextUnaborted(s, steps[0], c, t);
      RunUnaborted(Next(s, steps[0]), steps[1..], c, t);
    }
  }

  /** No call that is still blocked, or begins, after `blocking(false)` is cancelled before
      a later `blocking(true)`. */
  lemma NoCancelAfterBlockingFalse(s: System, c: nat, steps: seq<Step>, t: nat)
    requires Enabled(s, Block(c, false)) && (t in s.calls ==> s.calls[t].woken.None?)
    requires Legal(Next(s, Block(c, false)), steps) && Block(c, true) !in steps
    requires Enabled(Exec(Next(s, Block(c, false)), steps), Finish(t))
    ensures
      var w := Exec(Next(s, Block(c, false)), steps);
      w.calls[t].client == c ==> CallStatus(CellFor(w, w.calls[t]), w.calls[t]) != Cancelled
  {
    RunUnaborted(Next(s, Block(c, false)), steps, c, t);
    var w := Exec(Next(s, Block(c, false)), steps);
    var call := w.calls[t];
    CancelledNeedsGuard(CellFor(w, call), if call.guard.Some? then call.guard.value else 0, call.woken.value);
  }
}
