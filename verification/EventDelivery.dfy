/** That the event protocol delivers: who may wait, what a put writes and where it goes,
    whom an arriving value releases and what they return, and what a deactivation ends. */
module EventDelivery {
  import opened Common
  import opened ConnectionId
  import opened CorrelationIds
  import opened EventClient
  import opened EventProofs
  import opened EventResults
  import opened EventRuns
  import opened EventServer
  import opened EventSystem
  import opened EventTheorems
  import opened Subsequence

  // ----- Who waits, and what the others are told --------------------------------

  /** A getEvent call waits exactly if the client is connected and has the activation;
      otherwise it says DISCONNECTED or WRONGID. */
  lemma GetEventWaitsIff(s: System, t: nat, c: nat, id: CorrelationId)
    requires Inv(s) && Unlocked(s, c) && t !in s.calls
    ensures
      var client := s.nodes[c].client;
      && (Enabled(s, EnterGet(t, c, id)) <==> !client.disconnected && id in client.cache)
      && (!Enabled(s, EnterGet(t, c, id)) ==>
            GetEntry(client.disconnected, CachedCell(client, id)) ==
              Some(if client.disconnected then Disconnected else WrongId))
    ensures Enabled(s, EnterGet(t, c, id)) ==>
      var u := Next(s, EnterGet(t, c, id));
      && t in u.calls && u.calls[t].client == c && u.calls[t].id == id
      && u.calls[t].guard.None? && u.calls[t].woken.None?
  {
  }

  /** A getNextEvent call waits exactly if, besides, no value arrived yet for a single-mode
      activation, since no further one can; then it says PASSIVE. */
  lemma GetNextEventWaitsIff(s: System, t: nat, c: nat, id: CorrelationId)
    requires Inv(s) && Unlocked(s, c) && t !in s.calls
    ensures
      var client, h := s.nodes[c].client, RecordOf(s, id);
      var missed := h.mode == Single && h.sets != [];
      && (Enabled(s, EnterNext(t, c, id)) <==> !client.disconnected && id in client.cache && !missed)
      && (!Enabled(s, EnterNext(t, c, id)) ==>
            NextEntry(client.disconnected, CachedCell(client, id)) ==
              Some(if client.disconnected then Disconnected else if id !in client.cache then WrongId else Passive))
    ensures Enabled(s, EnterNext(t, c, id)) ==>
      var u := Next(s, EnterNext(t, c, id));
      && t in u.calls && u.calls[t].client == c && u.calls[t].id == id
      && u.calls[t].guard.Some? && u.calls[t].woken.None? && u.calls[t].since == |RecordOf(s, id).sets|
  {
    assert NodeAt(s, c) && IdAt(s, id);
  }

  // ----- What a woken call returns ------------------------------------------------

  /** The condition settles what the call returns; one of another kind is passed over. */
  predicate Decides(r: ResultVal, own: Cond, cond: Cond) {
    || cond == DisconnectedCond || cond == NonblockingCond || cond == DeactivatedCond
    || (cond == own && (r.hasNew || (cond == EventCond && r.mode == Single)))
  }

  /** The documented statuses of getEvent and getNextEvent: TIMEOUT when nothing was active,
      else by the first condition that settles it, and ERROR when none does. */
  ghost predicate StatusIs(r: ResultVal, own: Cond, active: seq<Cond>, status: StatusCode) {
    && (active == [] ==> status == Timeout)
    && (active != [] && (forall i | 0 <= i < |active| :: !Decides(r, own, active[i])) ==> status == Error)
    && (forall i | 0 <= i < |active| && Decides(r, own, active[i])
          && (forall j | 0 <= j < i :: !Decides(r, own, active[j])) ::
          && (active[i] == DisconnectedCond ==> status == Disconnected)
          && (active[i] == NonblockingCond ==> status == Cancelled)
          && (active[i] == DeactivatedCond ==> status == NotActivated)
          && (active[i] == own ==> status == if r.hasNew then Ok else Passive))
  }

  /** The first condition that settles it, if there is one. */
  ghost predicate SettledBy(r: ResultVal, own: Cond, active: seq<Cond>, i: nat) {
    i < |active| && Decides(r, own, active[i]) && forall j | 0 <= j < i :: !Decides(r, own, active[j])
  }

  lemma {:induction false} ScanGetMeans(r: ResultVal, active: seq<Cond>, i: nat)
    requires i <= |active| && forall j | 0 <= j < i :: !Decides(r, EventCond, active[j])
    requires i < |active| ==> Decides(r, EventCond, active[i])
    ensures ScanGet(r, active) == if i == |active| then Error else ScanGet(r, [active[i]])
  {
    if i > 0 {
      assert !Decides(r, EventCond, active[0]);
      ScanGetMeans(r, active[1..], i - 1);
    }
  }

  lemma {:induction false} ScanNextMeans(r: ResultVal, g: GuardId, active: seq<Cond>, i: nat)
    requires i <= |active| && forall j | 0 <= j < i :: !Decides(r, NextCond(g), active[j])
    requires i < |active| ==> Decides(r, NextCond(g), active[i])
    ensures ScanNext(r, g, active) == if i == |active| then Error else ScanNext(r, g, [active[i]])
  {
    if i > 0 {
      assert !Decides(r, NextCond(g), active[0]);
      ScanNextMeans(r, g, active[1..], i - 1);
    }
  }

  lemma WokenStatus(r: ResultVal, call: Call)
    requires call.woken.Some?
    ensures StatusIs(r, OwnCond(call), call.woken.value, CallStatus(r, call))
  {
    var own, active := OwnCond(call), call.woken.value;
    var n := |active|;
    if forall j | 0 <= j < n :: !Decides(r, own, active[j]) {
      if call.guard.Some? { ScanNextMeans(r, call.guard.value, active, n); } else { ScanGetMeans(r, active, n); }
    }
    forall i | 0 <= i < n && SettledBy(r, own, active, i)
      ensures active[i] == DisconnectedCond ==> CallStatus(r, call) == Disconnected
      ensures active[i] == NonblockingCond ==> CallStatus(r, call) == Cancelled
      ensures active[i] == DeactivatedCond ==> CallStatus(r, call) == NotActivated
      ensures active[i] == own ==> CallStatus(r, call) == if r.hasNew then Ok else Passive
    {
      if call.guard.Some? { ScanNextMeans(r, call.guard.value, active, i); } else { ScanGetMeans(r, active, i); }
    }
  }

  // ----- Whom a value releases ------------------------------------------------------

  /** In every run a blocked getNextEvent can be woken by its own guard if and only if a
      value arrived since it entered, and a blocked getEvent by the event guard if and only
      if an unreturned value is there or, in single mode, one ever arrived. */
  lemma ReleasedIff(clients: set<nat>, steps: seq<Step>, t: nat)
    requires Legal(Initial(clients), steps)
    requires t in Exec(Initial(clients), steps).calls && Exec(Initial(clients), steps).calls[t].woken.None?
    ensures
      var s := Exec(Initial(clients), steps);
      var call := s.calls[t];
      var h := RecordOf(s, call.id);
      Enabled(s, Wake(t, [OwnCond(call)])) <==>
        if call.guard.Some? then call.since < |h.sets|
        else if h.mode == Single then h.sets != []
        else Unreturned(Initial(clients), steps, call.id, false)
  {
    InitialInv(clients);
    RunKeepsInv(Initial(clients), steps);
    var s := Exec(Initial(clients), steps);
    var call := s.calls[t];
    assert CallAt(s, t) && NodeAt(s, call.client) && IdAt(s, call.id);
    UnreturnedIsHasNew(Initial(clients), steps, call.id);
    CallCell(s, t);
    OneCondition(s, t, OwnCond(call));
  }

  lemma OneCondition(s: System, t: nat, cond: Cond)
    requires t in s.calls && s.calls[t].woken.None? && s.calls[t].client in s.nodes
    ensures Enabled(s, Wake(t, [cond])) <==> Holds(s, s.calls[t], cond)
  {
    assert [cond][0] == cond;
    if Enabled(s, Wake(t, [cond])) { assert Holds(s, s.calls[t], [cond][0]); }
  }

  /** What the arriving value does to its cell and history. */
  lemma TakenCell(s: System, c: nat, id: CorrelationId)
    requires NodeAt(s, c) && Enabled(s, Take(c)) && Arrives(s, Take(c), id) && id in s.records
    ensures
      var u, event := AfterTake(s, c), s.nodes[c].inbox[0].event;
      && id in u.records && u.records[id].sets == s.records[id].sets + [event]
      && u.calls == s.calls && u.nodes.Keys == s.nodes.Keys
      && CellAt(u, id) == SetNew(CellAt(s, id), event)
  {
  }

  lemma ArrivalReleases(s: System, c: nat, t: nat)
    requires Inv(s) && Enabled(s, Take(c)) && t in s.calls && s.calls[t].woken.None?
    requires Arrives(s, Take(c), s.calls[t].id)
    ensures
      var u, call := AfterTake(s, c), s.calls[t];
      && t in u.calls && u.calls[t] == call
      && Enabled(u, Wake(t, [OwnCond(call)]))
      && CellAt(u, call.id).hasNew
      && call.id in s.records && call.id in u.records
      && u.records[call.id].sets == s.records[call.id].sets + [s.nodes[c].inbox[0].event]
  {
    var u, call := AfterTake(s, c), s.calls[t];
    assert NodeAt(s, c) && CallAt(s, t) && NodeAt(s, call.client);
    TakenCell(s, c, call.id);
    CallCell(s, t);
    TakeKeepsInv(s, c);
    assert CallAt(u, t) && NodeAt(u, call.client);
    CallCell(u, t);
    OneCondition(u, t, OwnCond(call));
  }

  /** No call on `id` returns OK in the run. */
  predicate NoReturn(s: System, steps: seq<Step>, id: CorrelationId)
    requires Legal(s, steps)
    decreases |steps|
  {
    steps == [] || (!Returns(s, steps[0], id) && NoReturn(Next(s, steps[0]), steps[1..], id))
  }

  lemma StillWoken(s: System, step: Step, t: nat)
    requires Enabled(s, step) && step != Finish(t) && t in s.calls && s.calls[t].woken.Some?
    ensures t in Next(s, step).calls && Next(s, step).calls[t] == s.calls[t]
  {
  }

  lemma SetsOnlyGrow(s: System, step: Step, id: CorrelationId)
    requires Enabled(s, step) && id in s.records
    ensures id in Next(s, step).records && s.records[id].sets <= Next(s, step).records[id].sets
  {
    if !step.PutEntry? { RecordKeeps(s, step, id); }
  }

  /** A woken call waits for its turn while others do what they like except take the value. */
  lemma {:induction false} WaitsForTurn(s: System, steps: seq<Step>, t: nat)
    requires Inv(s) && Legal(s, steps) && t in s.calls && s.calls[t].woken.Some?
    requires Finish(t) !in steps && NoReturn(s, steps, s.calls[t].id)
    requires s.calls[t].id in s.records && CellAt(s, s.calls[t].id).hasNew
    ensures
      var w, id := Exec(s, steps), s.calls[t].id;
      && t in w.calls && w.calls[t] == s.calls[t] && CellAt(w, id).hasNew
      && id in w.records && s.records[id].sets <= w.records[id].sets
    decreases |steps|
  {
    if steps != [] {
      assert steps[0] in steps;
      StillWoken(s, steps[0], t);
      NextFreshness(s, steps[0], s.calls[t].id);
      SetsOnlyGrow(s, steps[0], s.calls[t].id);
      NextKeepsInv(s, steps[0]);
      WaitsForTurn(Next(s, steps[0]), steps[1..], t);
    }
  }

  /** A call wakes up by its event: nothing else changes. */
  lemma ReleasedState(u: System, t: nat)
    requires Inv(u) && t in u.calls && Enabled(u, Wake(t, [OwnCond(u.calls[t])]))
    ensures
      var v := Next(u, Wake(t, [OwnCond(u.calls[t])]));
      && Inv(v) && t in v.calls && v.calls[t] == u.calls[t].(woken := Some([OwnCond(u.calls[t])]))
      && v.records == u.records && CellAt(v, u.calls[t].id) == CellAt(u, u.calls[t].id)
  {
    WakeKeepsInv(u, t, [OwnCond(u.calls[t])]);
  }

  /** Call `t`, woken in `v`, gets OK in `w` with the latest value, which is `event` if no
      value has come between the two. */
  ghost predicate GetsValue(v: System, w: System, t: nat, event: Event)
    requires t in v.calls && v.calls[t].id in v.records
  {
    var id := v.calls[t].id;
    && t in w.calls && w.calls[t] == v.calls[t] && w.calls[t].client in w.nodes
    && w.calls[t].woken.Some? && id in w.records && w.records[id].sets != []
    && CallStatus(CellFor(w, w.calls[t]), w.calls[t]) == Ok
    && RecordOf(AfterFinish(w, t), id).oks == w.records[id].oks + [Last(w.records[id].sets)]
    && (|w.records[id].sets| == |v.records[id].sets| ==> Last(w.records[id].sets) == event)
  }

  /** From `v` on, call `t` gets the value whatever happens in `steps`, unless another call
      on the id returns one. */
  ghost predicate ReturnsValue(v: System, t: nat, steps: seq<Step>, event: Event)
    requires t in v.calls && v.calls[t].id in v.records
  {
    Legal(v, steps) && Finish(t) !in steps && NoReturn(v, steps, v.calls[t].id) ==>
      GetsValue(v, Exec(v, steps), t, event)
  }

  lemma LaterGetsValue(v: System, w: System, t: nat, event: Event)
    requires Inv(w) && t in v.calls && v.calls[t].woken == Some([OwnCond(v.calls[t])])
    requires var id := v.calls[t].id;
      && id in v.records && v.records[id].sets != [] && Last(v.records[id].sets) == event
      && t in w.calls && w.calls[t] == v.calls[t] && CellAt(w, id).hasNew
      && id in w.records && v.records[id].sets <= w.records[id].sets
    ensures GetsValue(v, w, t, event)
  {
    ReleasedGetsOk(w, t);
  }

  lemma ReleasedReturns(v: System, t: nat, steps: seq<Step>, event: Event)
    requires Inv(v) && t in v.calls && v.calls[t].woken == Some([OwnCond(v.calls[t])])
    requires v.calls[t].id in v.records && CellAt(v, v.calls[t].id).hasNew
    requires v.records[v.calls[t].id].sets != [] && Last(v.records[v.calls[t].id].sets) == event
    ensures ReturnsValue(v, t, steps, event)
  {
    if Legal(v, steps) && Finish(t) !in steps && NoReturn(v, steps, v.calls[t].id) {
      WaitsForTurn(v, steps, t);
      RunKeepsInv(v, steps);
      LaterGetsValue(v, Exec(v, steps), t, event);
    }
  }

  lemma ReleasedGetsOk(w: System, t: nat)
    requires Inv(w) && t in w.calls && w.calls[t].woken == Some([OwnCond(w.calls[t])])
    requires CellAt(w, w.calls[t].id).hasNew
    ensures
      var call := w.calls[t];
      && CallStatus(CellFor(w, call), call) == Ok
      && call.client in w.nodes && call.id in w.records && w.records[call.id].sets != []
      && RecordOf(AfterFinish(w, t), call.id).oks == w.records[call.id].oks + [Last(w.records[call.id].sets)]
  {
    var call := w.calls[t];
    assert CallAt(w, t) && NodeAt(w, call.client) && IdAt(w, call.id);
    CallCell(w, t);
    ReleasedStatus(CellFor(w, call), call);
  }

  /** Delivery: a value that arrives for an activation releases every call that is blocked
      on it, and the released call returns it: whatever happens until it has the mutex
      again, as long as no other call on the id returns a value it says OK, with the latest
      value, which is the one that arrived unless more have come since. */
  lemma WaiterGetsValue(s: System, c: nat, t: nat, steps: seq<Step>)
    requires Inv(s) && Enabled(s, Take(c)) && t in s.calls && s.calls[t].woken.None?
    requires Arrives(s, Take(c), s.calls[t].id)
    ensures
      var u := AfterTake(s, c);
      && t in u.calls && u.calls[t] == s.calls[t] && u.calls[t].id in u.records
      && Enabled(u, Wake(t, [OwnCond(u.calls[t])]))
      && var v := Next(u, Wake(t, [OwnCond(u.calls[t])]));
      && t in v.calls && v.calls[t].id == u.calls[t].id && v.calls[t].id in v.records
      && ReturnsValue(v, t, steps, s.nodes[c].inbox[0].event)
  {
    ArrivalReleases(s, c, t);
    TakeKeepsInv(s, c);
    var u := AfterTake(s, c);
    ReleasedState(u, t);
    ReleasedReturns(Next(u, Wake(t, [OwnCond(u.calls[t])])), t, steps, s.nodes[c].inbox[0].event);
  }

  /** A getNextEvent that returns OK takes its own guard out of the cell, and no other. */
  lemma ReturnedGuardLeaves(s: System, t: nat)
    requires Inv(s) && Enabled(s, Finish(t)) && s.calls[t].guard.Some?
    ensures
      var call := s.calls[t];
      var before, after := CellFor(s, call).guards, CellFor(Next(s, Finish(t)), call).guards;
      forall g :: g in after <==>
        g in before && !(g == call.guard.value && CallStatus(CellFor(s, call), call) == Ok)
  {
    var call := s.calls[t];
    assert CallAt(s, t);
    RemoveGuardMembers(CellFor(s, call).guards, call.guard.value);
  }

  /** When the server's last writer goes, every blocked call of the client can wake up by
      the disconnected guard and then returns DISCONNECTED; when one comes back, none can. */
  lemma LivelinessReleasesIff(s: System, c: nat, disconnected: bool, t: nat)
    requires Inv(s) && Enabled(s, Guard(c, disconnected))
    requires t in s.calls && s.calls[t].client == c && s.calls[t].woken.None?
    ensures
      var u, wake := Next(s, Guard(c, disconnected)), Wake(t, [DisconnectedCond]);
      && (Enabled(u, wake) <==> disconnected)
      && (disconnected ==>
            CallStatus(CellFor(Next(u, wake), Next(u, wake).calls[t]), Next(u, wake).calls[t]) == Disconnected)
  {
    assert CallAt(s, t);
    OneCondition(Next(s, Guard(c, disconnected)), t, DisconnectedCond);
  }

  /** A disconnect releases every call of the client: it can wake up by the disconnected
      guard, and then returns DISCONNECTED. */
  lemma DisconnectReleases(s: System, c: nat, t: nat)
    requires Inv(s) && Enabled(s, Disconnect(c))
    requires t in s.calls && s.calls[t].client == c && s.calls[t].woken.None?
    ensures
      var u, wake := Next(s, Disconnect(c)), Wake(t, [DisconnectedCond]);
      && Enabled(u, wake)
      && CallStatus(CellFor(Next(u, wake), Next(u, wake).calls[t]), Next(u, wake).calls[t]) == Disconnected
  {
    assert CallAt(s, t);
    OneCondition(Next(s, Disconnect(c)), t, DisconnectedCond);
  }

  // ----- What a put writes, and where it goes ------------------------------------------

  /** A continuous activation may always fire, a single one only once. */
  predicate MayFire(s: System, a: Activation) { RecordOf(s, a.id).mode == Continuous || !a.fired }

  /** The entry is due: it may fire, and its test says that it does. */
  predicate Due(s: System, a: Activation, result: Tested) { MayFire(s, a) && result.event.Some? }

  lemma PutRecords(s: System, result: Tested, throws: bool)
    requires ServerOk(s) && Enabled(s, PutEntry(result, throws))
    ensures
      var i, t := s.putAt.value, AfterPutEntry(s, result, throws);
      var a := s.server[i];
      && RecordOf(t, a.id).writes == RecordOf(s, a.id).writes +
           (if Due(s, a, result) && !throws then [result.event.value] else [])
      && (forall id | id != a.id :: RecordOf(t, id) == RecordOf(s, id))
      && t.server == s.server[i := t.server[i]] && t.server[i].id == a.id && t.server[i].mode == a.mode
      && (t.server[i].fired <==> a.fired || Due(s, a, result))
      && t.server[i].params == (if MayFire(s, a) then result.params else a.params)
      && t.putAt == (if Due(s, a, result) && throws then None else Some(i + 1))
  {
    assert s.server[s.putAt.value] in s.server;
  }

  lemma PutReaches(s: System, result: Tested, throws: bool, c: nat)
    requires Inv(s) && Enabled(s, PutEntry(result, throws)) && c in s.nodes
    ensures
      var t, a := AfterPutEntry(s, result, throws), s.server[s.putAt.value];
      && t.nodes.Keys == s.nodes.Keys
      && t.nodes[c] ==
           if Due(s, a, result) && !throws && s.nodes[c].guid == Some(a.id.writer)
           then s.nodes[c].(inbox := s.nodes[c].inbox + [EventSample(a.id, result.event.value)])
           else s.nodes[c]
  {
    var a := s.server[s.putAt.value];
    assert a in s.server && NodeAt(s, c);
    if result.event.Some? { BroadcastReaches(s, EventSample(a.id, result.event.value)); }
  }

  /** A turn of the put loop appends the event to the writes of its activation if and only
      if the entry is due and the write does not throw, hands the sample to the connection
      that made the activation and to no other, and marks exactly the due entries. */
  lemma PutWritesIff(s: System, result: Tested, throws: bool)
    requires Inv(s) && Enabled(s, PutEntry(result, throws))
    ensures
      var i, t := s.putAt.value, AfterPutEntry(s, result, throws);
      var a := s.server[i];
      var written := Due(s, a, result) && !throws;
      && RecordOf(t, a.id).writes == RecordOf(s, a.id).writes + (if written then [result.event.value] else [])
      && (forall id | id != a.id :: RecordOf(t, id) == RecordOf(s, id))
      && t.server == s.server[i := t.server[i]] && t.server[i].id == a.id && t.server[i].mode == a.mode
      && (t.server[i].fired <==> a.fired || Due(s, a, result))
      && t.server[i].params == (if MayFire(s, a) then result.params else a.params)
      && t.putAt == (if Due(s, a, result) && throws then None else Some(i + 1))
      && t.nodes.Keys == s.nodes.Keys
      && (forall c | c in s.nodes ::
            t.nodes[c] ==
              if written && s.nodes[c].guid == Some(a.id.writer)
              then s.nodes[c].(inbox := s.nodes[c].inbox + [EventSample(a.id, result.event.value)])
              else s.nodes[c])
  {
    PutRecords(s, result, throws);
    forall c | c in s.nodes
      ensures AfterPutEntry(s, result, throws).nodes.Keys == s.nodes.Keys
      ensures AfterPutEntry(s, result, throws).nodes[c] ==
        if Due(s, s.server[s.putAt.value], result) && !throws
           && s.nodes[c].guid == Some(s.server[s.putAt.value].id.writer)
        then s.nodes[c].(inbox :=
               s.nodes[c].inbox + [EventSample(s.server[s.putAt.value].id, result.event.value)])
        else s.nodes[c]
    {
      PutReaches(s, result, throws, c);
    }
    assert s.nodes.Keys == {} ==> AfterPutEntry(s, result, throws).nodes.Keys == {};
  }

  // ----- Activations reach the server, deactivations end them -----------------------------

  /** An activation goes out in its own mode with its parameters, and once it is received
      it stands at the end of the server list, unfired. */
  lemma ActivationIsSent(s: System, c: nat, id: CorrelationId, params: int)
    requires Inv(s) && Enabled(s, ActivateWrite(c, id, params, false))
    ensures
      var t, mode := Next(s, ActivateWrite(c, id, params, false)), s.nodes[c].activating.value.mode;
      var sent := if mode == Continuous then ActivateContinuous else ActivateSingle;
      && |t.up| == |s.up| + 1 && IsActivation(t.up[|s.up|])
      && t.records[id].mode == mode
      && (t.putAt.None? ==>
            && Enabled(t, ReceiveUp(|s.up|))
            && Next(t, ReceiveUp(|s.up|)).server == s.server + [Activation(id, sent, params, false)])
  {
  }

  /** A deactivation goes out exactly while the client is connected; the cell leaves the
      cache, unless the write throws, which leaves everything as it was. */
  lemma DeactivationIsSent(s: System, c: nat, id: CorrelationId, throws: bool)
    requires Inv(s) && Enabled(s, Deactivation(c, id, throws))
    ensures
      var t, connected := Next(s, Deactivation(c, id, throws)), !s.nodes[c].client.disconnected;
      && (connected && throws ==> t == s)
      && (connected && !throws ==>
            && |t.up| == |s.up| + 1 && t.up[..|s.up|] == s.up && IsDeactivationOf(t.up[|s.up|], id))
      && (!connected ==> t.up == s.up)
      && (!(connected && throws) ==> id !in t.nodes[c].client.cache && RecordOf(t, id).removed)
  {
  }

  /** Nothing of the activation is on its way to the server or stands there. */
  ghost predicate Ended(s: System, id: CorrelationId) {
    id in s.records && UpCount(s.up, id) == 0 && Entries(s.server, id) == 0
  }

  lemma ReceiveKeepsEnded(s: System, k: nat, id: CorrelationId)
    requires k < |s.up| && Ended(s, id)
    ensures Ended(AfterReceive(s, k), id)
  {
    var u := s.up[k];
    UpRemove(s.up, k, id);
    EntriesErase(s.server, u.related, id);
    EntriesConcat(s.server, [Activation(u.id, u.mode, u.params, false)], id);
    assert [Activation(u.id, u.mode, u.params, false)][1..] == [];
  }

  lemma PutKeepsEnded(s: System, result: Tested, throws: bool, id: CorrelationId)
    requires s.putAt.Some? && s.putAt.value < |s.server| && Ended(s, id)
    ensures Ended(AfterPutEntry(s, result, throws), id)
    ensures AfterPutEntry(s, result, throws).records[id] == s.records[id]
  {
    var i := s.putAt.value;
    EntriesUpdate(s.server, i, AfterTest(s.server[i], result), id);
    EntriesPositive(s.server, id);
    assert s.server[i] in s.server;
  }

  lemma ActivateWriteKeepsEnded(s: System, c: nat, i: CorrelationId, params: int, throws: bool, id: CorrelationId)
    requires c in s.nodes && s.nodes[c].activating.Some? && i !in s.records && Ended(s, id)
    ensures Ended(AfterActivateWrite(s, c, i, params, throws), id)
  {
    var t := AfterActivateWrite(s, c, i, params, throws);
    if !throws {
      UpConcat(s.up, [t.up[|s.up|]], id);
      UpOne(t.up[|s.up|], id);
    }
  }

  lemma DeactivationKeepsEnded(s: System, c: nat, i: CorrelationId, throws: bool, id: CorrelationId)
    requires c in s.nodes && Ended(s, id)
    ensures Ended(AfterDeactivation(s, c, i, throws), id)
  {
    var t := AfterDeactivation(s, c, i, throws);
    if t.up != s.up {
      UpConcat(s.up, [t.up[|s.up|]], id);
      UpOne(t.up[|s.up|], id);
    }
  }

  lemma NextKeepsEnded(s: System, step: Step, id: CorrelationId)
    requires Enabled(s, step) && Ended(s, id)
    ensures Ended(Next(s, step), id) && Next(s, step).records[id].writes == s.records[id].writes
  {
    if step.PutEntry? { PutKeepsEnded(s, step.result, step.throws, id); } else { RecordKeeps(s, step, id); }
    match step
    case ReceiveUp(k) => ReceiveKeepsEnded(s, k, id);
    case LoseUp(k) => UpRemove(s.up, k, id);
    case ActivateWrite(c, i, params, throws) => ActivateWriteKeepsEnded(s, c, i, params, throws, id);
    case Deactivation(c, i, throws) => DeactivationKeepsEnded(s, c, i, throws, id);
    case PutEntry(_, _) =>
    case _ => ServerUnseen(s, step);
  }

  lemma {:induction false} EndedIsSilent(s: System, steps: seq<Step>, id: CorrelationId)
    requires Legal(s, steps) && Ended(s, id)
    ensures Ended(Exec(s, steps), id) && Exec(s, steps).records[id].writes == s.records[id].writes
    decreases |steps|
  {
    if steps != [] {
      NextKeepsEnded(s, steps[0], id);
      EndedIsSilent(Next(s, steps[0]), steps[1..], id);
    }
  }

  /** The sample is received in the order in which its writer sent it. */
  predicate InWriterOrder(up: seq<ActivationSample>, k: nat, writer: Guid)
    requires k < |up|
  {
    forall j | 0 <= j < k && IsActivation(up[j]) :: up[j].id.writer != writer
  }

  lemma {:induction false} UpCountPositive(up: seq<ActivationSample>, id: CorrelationId)
    ensures UpCount(up, id) > 0 <==> exists i :: 0 <= i < |up| && IsActivation(up[i]) && up[i].id == id
  {
    if up != [] {
      UpCountPositive(up[1..], id);
      assert up == [up[0]] + up[1..];
      if i :| 0 <= i < |up[1..]| && IsActivation(up[1..][i]) && up[1..][i].id == id {
        assert IsActivation(up[i + 1]) && up[i + 1].id == id;
      }
      if i :| 0 <= i < |up| && IsActivation(up[i]) && up[i].id == id {
        assert i > 0 ==> up[1..][i - 1] == up[i];
      }
    }
  }

  /** A received deactivation takes the entry of its activation out of the server list, in
      whatever order samples arrive. It ends the activation for good, single or continuous,
      if and only if the activation sample is not still on its way; that is always so when
      the samples of one writer arrive in order. */
  lemma DeactivationEnds(s: System, k: nat, id: CorrelationId)
    requires Inv(s) && Enabled(s, ReceiveUp(k)) && IsDeactivationOf(s.up[k], id)
    ensures
      var t := Next(s, ReceiveUp(k));
      && Entries(t.server, id) == 0 && (forall a | a in t.server :: a.id != id)
      && (Ended(t, id) <==> UpCount(s.up, id) == 0)
      && (InWriterOrder(s.up, k, id.writer) ==> Ended(t, id))
  {
    var u := s.up[k];
    assert u in s.up && SoleCopy(s.up, s.server, id);
    UpRemove(s.up, k, id);
    EntriesErase(s.server, id, id);
    EntriesPositive(EraseFirst(s.server, id), id);
    UpCountPositive(s.up, id);
  }

  /** Once a deactivation ended its activation, no continuation writes for it. */
  lemma DeactivatedIsSilent(s: System, k: nat, id: CorrelationId, steps: seq<Step>)
    requires Inv(s) && Enabled(s, ReceiveUp(k)) && IsDeactivationOf(s.up[k], id)
    requires UpCount(s.up, id) == 0 || InWriterOrder(s.up, k, id.writer)
    requires Legal(Next(s, ReceiveUp(k)), steps)
    ensures
      var w := Exec(Next(s, ReceiveUp(k)), steps);
      && RecordOf(w, id).writes == RecordOf(s, id).writes && (forall a | a in w.server :: a.id != id)
  {
    DeactivationEnds(s, k, id);
    EndedIsSilent(Next(s, ReceiveUp(k)), steps, id);
    EntriesPositive(Exec(Next(s, ReceiveUp(k)), steps).server, id);
  }

  /** A deactivation that overtakes its activation is lost: the activation stands at the
      server, unfired, as soon as its sample arrives. */
  lemma OvertakenActivationStands(s: System, k: nat, id: CorrelationId, j: nat)
    requires Inv(s) && Enabled(s, ReceiveUp(k)) && IsDeactivationOf(s.up[k], id)
    requires var t := Next(s, ReceiveUp(k)); j < |t.up| && IsActivation(t.up[j]) && t.up[j].id == id
    ensures
      var t := Next(s, ReceiveUp(k));
      && Enabled(t, ReceiveUp(j))
      && Activation(id, t.up[j].mode, t.up[j].params, false) in Next(t, ReceiveUp(j)).server
  {
  }

  /** Only its own deactivation takes an activation out of the server list. */
  lemma EntryStands(s: System, step: Step, a: Activation)
    requires Enabled(s, step) && a in s.server
    requires step.ReceiveUp? ==> !IsDeactivationOf(s.up[step.k], a.id)
    ensures exists b :: b in Next(s, step).server && b.id == a.id && b.mode == a.mode && (a.fired ==> b.fired)
  {
    if step.ReceiveUp? {
      ReceiveKeepsEntry(s.server, s.up[step.k], a);
      assert a in Next(s, step).server;
    } else if step.PutEntry? {
      var i :| 0 <= i < |s.server| && s.server[i] == a;
      assert Next(s, step).server[i] in Next(s, step).server;
    } else {
      assert Next(s, step).server == s.server;
    }
  }

  lemma ReceiveKeepsEntry(server: seq<Activation>, u: ActivationSample, a: Activation)
    requires a in server && !IsDeactivationOf(u, a.id)
    ensures a in Receive(server, u)
  {
    if u.valid && u.mode == DeactivateMode { EraseKeepsOther(server, u.related, a); }
  }

  lemma {:induction false} EraseKeepsOther(server: seq<Activation>, gone: CorrelationId, a: Activation)
    requires a in server && a.id != gone
    ensures a in EraseFirst(server, gone)
  {
    assert server == [server[0]] + server[1..];
    if server[0].id != gone && server[0] != a { EraseKeepsOther(server[1..], gone, a); }
  }
}
