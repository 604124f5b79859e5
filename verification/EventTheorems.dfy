/** What holds in every run of the event protocol. */
module EventTheorems {
  import opened Common
  import opened CorrelationIds
  import opened EventClient
  import opened EventProofs
  import opened EventResults
  import opened EventServer
  import opened EventSystem
  import opened Subsequence

  predicate OfCalls(step: Step) { step.EnterGet? || step.EnterNext? || step.Wake? || step.Finish? }

  predicate OfServer(step: Step) {
    step.LoseUp? || step.ReceiveUp? || step.PutBegin? || step.PutEntry? || step.PutEnd?
  }

  lemma CallStepKeepsInv(s: System, step: Step)
    requires Inv(s) && Enabled(s, step) && OfCalls(step)
    ensures Inv(Next(s, step))
  {
    match step
    case EnterGet(t, c, id) => EnterGetKeepsInv(s, t, c, id);
    case EnterNext(t, c, id) => EnterNextKeepsInv(s, t, c, id);
    case Wake(t, active) => WakeKeepsInv(s, t, active);
    case Finish(t) => FinishKeepsInv(s, t);
  }

  lemma ServerPartKeepsInv(s: System, step: Step)
    requires Inv(s) && Enabled(s, step) && OfServer(step)
    ensures Inv(Next(s, step))
  {
    match step
    case LoseUp(k) => LoseUpKeepsInv(s, k);
    case ReceiveUp(k) => ReceiveKeepsInv(s, k);
    case PutEntry(result, throws) => PutEntryKeepsInv(s, result, throws);
    case PutBegin => ServerStepKeepsInv(s, Next(s, step));
    case PutEnd => ServerStepKeepsInv(s, Next(s, step));
  }

  lemma ClientPartKeepsInv(s: System, step: Step)
    requires Inv(s) && Enabled(s, step) && !OfCalls(step) && !OfServer(step)
    ensures Inv(Next(s, step))
  {
    match step
    case Connect(c, g) => ConnectKeepsInv(s, c, g);
    case Guard(c, d) => GuardsKeepInv(s, c, d, s.nodes[c].client.nonblocking);
    case Disconnect(c) => DisconnectKeepsInv(s, c);
    case Block(c, b) =>
      assert NodeAt(s, c);
      GuardsKeepInv(s, c, s.nodes[c].client.disconnected, b);
    case ActivateBegin(c, mode) => ActivateBeginKeepsInv(s, c, mode);
    case ActivateWrite(c, id, params, throws) =>
      if throws { ActivateThrowKeepsInv(s, c, id, params); } else { ActivateWriteKeepsInv(s, c, id, params); }
    case ActivateInsert(c) => ActivateInsertKeepsInv(s, c);
    case Deactivation(c, id, throws) => DeactivationKeepsInv(s, c, id, throws);
    case LoseEvent(c, k) => LoseEventKeepsInv(s, c, k);
    case Take(c) => TakeKeepsInv(s, c);
  }

  lemma NextKeepsInv(s: System, step: Step)
    requires Inv(s) && Enabled(s, step)
    ensures Inv(Next(s, step))
  {
    if OfCalls(step) { CallStepKeepsInv(s, step); }
    else if OfServer(step) { ServerPartKeepsInv(s, step); }
    else { ClientPartKeepsInv(s, step); }
  }

  // ----- Runs -----------------------------------------------------------------

  predicate Legal(s: System, steps: seq<Step>)
    decreases |steps|
  {
    steps == [] || (Enabled(s, steps[0]) && Legal(Next(s, steps[0]), steps[1..]))
  }

  function Exec(s: System, steps: seq<Step>): System
    requires Legal(s, steps)
    decreases |steps|
  {
    if steps == [] then s else Exec(Next(s, steps[0]), steps[1..])
  }

  lemma {:induction false} RunKeepsInv(s: System, steps: seq<Step>)
    requires Inv(s) && Legal(s, steps)
    ensures Inv(Exec(s, steps))
    decreases |steps|
  {
    if steps != [] {
      NextKeepsInv(s, steps[0]);
      RunKeepsInv(Next(s, steps[0]), steps[1..]);
    }
  }

  // ----- End to end -----------------------------------------------------------

  /** In every run, for every activation: the events returned with OK are a subsequence of
      those that reached the cell, and these of those the server wrote, so nothing is
      invented, duplicated or reordered; in single mode there is at most one write. */
  lemma EndToEnd(clients: set<nat>, steps: seq<Step>, id: CorrelationId)
    requires Legal(Initial(clients), steps) && id in Exec(Initial(clients), steps).records
    ensures var h := Exec(Initial(clients), steps).records[id];
      && Subseq(h.oks, h.sets) && Subseq(h.sets, h.writes) && Subseq(h.oks, h.writes)
      && |h.oks| <= |h.sets| <= |h.writes|
      && (h.mode == Single ==> |h.writes| <= 1)
  {
    InitialInv(clients);
    RunKeepsInv(Initial(clients), steps);
    var s := Exec(Initial(clients), steps);
    assert IdAt(s, id);
    var h := s.records[id];
    ChainLosesPending(h, Pending(s.nodes[s.owner[id.writer]].inbox, id));
    assert h.sets + [] == h.sets;
    SubseqTrans(h.oks, h.sets, h.writes);
    SubseqLength(h.oks, h.sets);
    SubseqLength(h.sets, h.writes);
  }

  /** One turn of the put loop of the system does to the list and to the topic what `put`
      of the server object does for that entry. */
  lemma PutEntryAgreesWithPut(s: System, test: TestHandler, state: int, throws: bool)
    requires Inv(s) && s.putAt.Some? && s.putAt.value < |s.server|
    ensures var i := s.putAt.value;
      var a := s.server[i];
      var t := Next(s, PutEntry(test(i, a.params, state), throws));
      && t.server == s.server[i := MarkOne(a, i, test, state)]
      && (t.putAt.None? <==> Fires(a, i, test, state) && throws)
      && RecordOf(t, a.id).writes == RecordOf(s, a.id).writes +
           (if throws then [] else Events(WrittenFor(a, i, test, state)))
  {
    var a := s.server[s.putAt.value];
    assert a in s.server;
    assert RecordOf(s, a.id).writes + [] == RecordOf(s, a.id).writes;
  }

  function Events(samples: seq<EventSample>): seq<Event> {
    seq(|samples|, i requires 0 <= i < |samples| => samples[i].event)
  }

  /** Event isolation: a put changes at most the node of the client that made the
      activation, and only while the connection it was made on still exists. */
  lemma WriteIsIsolated(s: System, result: Tested, throws: bool, c: nat)
    requires Inv(s) && Enabled(s, PutEntry(result, throws)) && c in s.nodes
    requires c !in Next(s, PutEntry(result, throws)).nodes
      || Next(s, PutEntry(result, throws)).nodes[c] != s.nodes[c]
    ensures var a := s.server[s.putAt.value];
      && result.event.Some? && !throws && Eligible(a)
      && s.nodes[c].guid == Some(a.id.writer) && OwnedBy(s, a.id, c)
      && Next(s, PutEntry(result, throws)).nodes[c] ==
           s.nodes[c].(inbox := s.nodes[c].inbox + [EventSample(a.id, result.event.value)])
  {
    var a := s.server[s.putAt.value];
    if result.event.Some? { BroadcastReaches(s, EventSample(a.id, result.event.value)); }
  }

  /** No event is lost to a racing activation: a sample that is taken finds the cell of its
      activation, which then holds it as its new event, unless that activation was
      deactivated or its connection dropped. */
  lemma TakenEventFindsItsCell(s: System, c: nat)
    requires Inv(s) && Enabled(s, Take(c))
    ensures var id := s.nodes[c].inbox[0].related;
      && id in s.records
      && (id in s.nodes[c].client.cache <==> !s.records[id].removed)
      && (!s.records[id].removed ==>
            && id in Next(s, Take(c)).nodes[c].client.results
            && var cell := Next(s, Take(c)).nodes[c].client.results[id];
            && cell.hasNew && cell.eventGuard && cell.event == s.nodes[c].inbox[0].event
            && Last(Next(s, Take(c)).records[id].sets) == cell.event)
  {
    var e := s.nodes[c].inbox[0];
    assert NodeAt(s, c) && e in s.nodes[c].inbox;
    assert IdAt(s, e.related);
  }

  /** The cell a call waits on, which it keeps alive, and the cache of its client. */
  function CellFor(s: System, call: Call): ResultVal {
    if call.client in s.nodes then CellOf(s.nodes[call.client].client, call.id) else NewResult(Single)
  }

  predicate Cached(s: System, call: Call) {
    call.client in s.nodes && call.id in s.nodes[call.client].client.cache
  }

  // ----- Blocked calls --------------------------------------------------------

  /** A getNextEvent that returns OK hands out the latest value of its cell, and that value
      arrived after the call had registered its guard. */
  lemma NextEventIsFresh(s: System, t: nat)
    requires Inv(s) && Enabled(s, Finish(t)) && s.calls[t].guard.Some?
    requires CallStatus(CellFor(s, s.calls[t]), s.calls[t]) == Ok
    ensures var call := s.calls[t];
      var h := RecordOf(s, call.id);
      && call.since < |h.sets|
      && RecordOf(Next(s, Finish(t)), call.id).oks == h.oks + [Last(h.sets)]
  {
    var call := s.calls[t];
    assert CallAt(s, t) && NodeAt(s, call.client) && IdAt(s, call.id);
    var cell := s.nodes[call.client].client.results[call.id];
    OkMeansNewEvent(cell, call.guard.value, call.woken.value);
  }

  /** A value is returned with OK at most once: the returned one had not been returned. */
  lemma OkConsumes(s: System, t: nat)
    requires Inv(s) && Enabled(s, Finish(t))
    ensures var call := s.calls[t];
      var cell := CellFor(s, call);
      CallStatus(cell, call) == Ok ==>
        && cell.hasNew && !CellFor(Next(s, Finish(t)), call).hasNew
        && Subseq(RecordOf(s, call.id).oks + [cell.event], RecordOf(s, call.id).sets)
  {
    var call := s.calls[t];
    assert CallAt(s, t) && NodeAt(s, call.client) && IdAt(s, call.id);
    var cell := s.nodes[call.client].client.results[call.id];
    var h := s.records[call.id];
    OkMeansNewEvent(cell, if call.guard.Some? then call.guard.value else 0, call.woken.value);
    if CallStatus(cell, call) == Ok {
      SubseqSnoc(h.oks, Front(h.sets), Last(h.sets));
      assert Front(h.sets) + [Last(h.sets)] == h.sets;
    }
  }

  /** No stranded waiter: a blocked call whose activation is no longer cached can wake up,
      and waking up by that condition it returns NOTACTIVATED. */
  lemma NoStrandedWaiter(s: System, t: nat)
    requires Inv(s) && t in s.calls && s.calls[t].woken.None?
    requires !Cached(s, s.calls[t])
    ensures Enabled(s, Wake(t, [DeactivatedCond]))
    ensures var call := Next(s, Wake(t, [DeactivatedCond])).calls[t];
      CallStatus(CellFor(s, call), call) == NotActivated
  {
    var call := s.calls[t];
    assert CallAt(s, t) && NodeAt(s, call.client) && IdAt(s, call.id);
    assert Holds(s, call, DeactivatedCond);
  }

  /** What every step but a write leaves of the record of an activation; values only join. */
  lemma RecordKeeps(s: System, step: Step, id: CorrelationId)
    requires Enabled(s, step) && !step.PutEntry? && id in s.records
    ensures var t := Next(s, step);
      && id in t.records && t.records[id].mode == s.records[id].mode
      && t.records[id].writes == s.records[id].writes
      && s.records[id].sets <= t.records[id].sets
      && (s.records[id].removed ==> t.records[id].removed)
  {
  }

  /** Once removed, an activation stays removed. */
  lemma RemovedStays(s: System, step: Step, id: CorrelationId)
    requires Enabled(s, step) && id in s.records && s.records[id].removed
    ensures id in Next(s, step).records && Next(s, step).records[id].removed
  {
    if !step.PutEntry? { RecordKeeps(s, step, id); }
  }

  lemma RemovedMeansWakeable(s: System, t: nat)
    requires Inv(s) && t in s.calls && s.calls[t].woken.None?
    requires RecordOf(s, s.calls[t].id).removed
    ensures !Cached(s, s.calls[t])
  {
    assert CallAt(s, t) && NodeAt(s, s.calls[t].client) && IdAt(s, s.calls[t].id);
  }

  /** ... so a call blocked on a removed activation is wakeable in every continuation. */
  lemma {:induction false} NeverStrandedLater(s: System, steps: seq<Step>, t: nat, id: CorrelationId)
    requires Inv(s) && Legal(s, steps) && id in s.records && s.records[id].removed
    requires t in Exec(s, steps).calls && Exec(s, steps).calls[t].id == id
    requires Exec(s, steps).calls[t].woken.None?
    ensures Enabled(Exec(s, steps), Wake(t, [DeactivatedCond]))
    decreases |steps|
  {
    if steps == [] {
      assert CallAt(s, t);
      RemovedMeansWakeable(s, t);
      NoStrandedWaiter(s, t);
    } else {
      NextKeepsInv(s, steps[0]);
      RemovedStays(s, steps[0], id);
      NeverStrandedLater(Next(s, steps[0]), steps[1..], t, id);
    }
  }

  // ----- The single shot ------------------------------------------------------

  lemma ActivateWriteOpen(s: System, c: nat, i: CorrelationId, params: int, throws: bool, id: CorrelationId)
    requires c in s.nodes && s.nodes[c].activating.Some? && i != id
    ensures Open(AfterActivateWrite(s, c, i, params, throws), id) == Open(s, id)
  {
    var t := AfterActivateWrite(s, c, i, params, throws);
    if !throws { OpenAfterUp(s, t, t.up[|s.up|], id); }
  }

  lemma DeactivationOpen(s: System, c: nat, i: CorrelationId, throws: bool, id: CorrelationId)
    requires c in s.nodes
    ensures Open(AfterDeactivation(s, c, i, throws), id) == Open(s, id)
  {
    var t := AfterDeactivation(s, c, i, throws);
    if t.up != s.up { OpenAfterUp(s, t, t.up[|s.up|], id); }
  }

  lemma ReceiveOpen(s: System, k: nat, id: CorrelationId)
    requires k < |s.up|
    ensures Open(AfterReceive(s, k), id) <= Open(s, id)
  {
    var u := s.up[k];
    var a := Activation(u.id, u.mode, u.params, false);
    UpRemove(s.up, k, id);
    UnfiredErase(s.server, u.related, id);
    UnfiredConcat(s.server, [a], id);
    UnfiredOne(a, id);
  }

  lemma LoseUpOpen(s: System, k: nat, id: CorrelationId)
    requires k < |s.up|
    ensures Open(s.(up := RemoveAt(s.up, k)), id) <= Open(s, id)
  {
    UpRemove(s.up, k, id);
  }

  lemma PutOpen(s: System, result: Tested, throws: bool, id: CorrelationId)
    requires s.putAt.Some? && s.putAt.value < |s.server|
    ensures Open(AfterPutEntry(s, result, throws), id) <= Open(s, id)
  {
    UnfiredTested(s.server, s.putAt.value, result, id);
  }

  lemma ServerUnseen(s: System, step: Step)
    requires Enabled(s, step) && !step.ActivateWrite? && !step.Deactivation? && !step.LoseUp?
    requires !step.ReceiveUp? && !step.PutEntry?
    ensures Next(s, step).up == s.up && Next(s, step).server == s.server
  {
  }

  /** No step gives an activation a further chance of a first write. */
  lemma OpenNeverGrows(s: System, step: Step, id: CorrelationId)
    requires ServerOk(s) && Enabled(s, step) && id in s.records
    ensures Open(Next(s, step), id) <= Open(s, id)
  {
    match step
    case ActivateWrite(c, i, params, throws) => ActivateWriteOpen(s, c, i, params, throws, id);
    case Deactivation(c, i, throws) => DeactivationOpen(s, c, i, throws, id);
    case LoseUp(k) => LoseUpOpen(s, k, id);
    case ReceiveUp(k) => ReceiveOpen(s, k, id);
    case PutEntry(result, throws) => PutOpen(s, result, throws, id);
    case _ => ServerUnseen(s, step);
  }

  lemma PutNeedsChance(s: System, result: Tested, throws: bool, id: CorrelationId)
    requires ServerOk(s) && s.putAt.Some? && s.putAt.value < |s.server|
    requires id in s.records && s.records[id].mode == Single && Open(s, id) == 0
    ensures id in AfterPutEntry(s, result, throws).records
    ensures AfterPutEntry(s, result, throws).records[id] == s.records[id]
  {
    assert s.server[s.putAt.value] in s.server;
    UnfiredUpdate(s.server, s.putAt.value, s.server[s.putAt.value].(fired := true), id);
  }

  lemma WriteNeedsChance(s: System, step: Step, id: CorrelationId)
    requires ServerOk(s) && Enabled(s, step) && id in s.records && s.records[id].mode == Single
    requires Open(s, id) == 0
    ensures id in Next(s, step).records && Next(s, step).records[id].mode == Single
    ensures Next(s, step).records[id].writes == s.records[id].writes
  {
    if step.PutEntry? { PutNeedsChance(s, step.result, step.throws, id); } else { RecordKeeps(s, step, id); }
  }

  /** Without a chance left, no continuation writes for the activation again. */
  lemma {:induction false} NoChanceNoWrite(s: System, steps: seq<Step>, id: CorrelationId)
    requires Inv(s) && Legal(s, steps) && id in s.records && s.records[id].mode == Single
    requires Open(s, id) == 0
    ensures id in Exec(s, steps).records && Exec(s, steps).records[id].writes == s.records[id].writes
    decreases |steps|
  {
    if steps != [] {
      NextKeepsInv(s, steps[0]);
      OpenNeverGrows(s, steps[0], id);
      WriteNeedsChance(s, steps[0], id);
      NoChanceNoWrite(Next(s, steps[0]), steps[1..], id);
    }
  }

  /** A single-mode activation has one shot: once its test has come out true, written or
      not, the server never writes for it again. In particular an event whose write threw
      is lost for good, since the entry was marked as fired before the write. */
  lemma SingleShotIsFinal(s: System, result: Tested, throws: bool, steps: seq<Step>)
    requires Inv(s) && Enabled(s, PutEntry(result, throws)) && result.event.Some?
    requires Eligible(s.server[s.putAt.value])
    requires RecordOf(s, s.server[s.putAt.value].id).mode == Single
    requires Legal(Next(s, PutEntry(result, throws)), steps)
    ensures RecordOf(Exec(Next(s, PutEntry(result, throws)), steps), s.server[s.putAt.value].id).writes ==
      if throws then [] else [result.event.value]
  {
    var t := Next(s, PutEntry(result, throws));
    var a := s.server[s.putAt.value];
    assert a in s.server && IdAt(s, a.id);
    NextKeepsInv(s, PutEntry(result, throws));
    UnfiredTested(s.server, s.putAt.value, result, a.id);
    NoChanceNoWrite(t, steps, a.id);
  }
}
