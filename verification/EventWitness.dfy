/** A run in which two getEvent calls wait for the same event and only one gets it. */
module EventWitness {
  import opened Common
  import CorrelationIdFilter
  import opened CorrelationIds
  import opened EventClient
  import opened EventResults
  import opened EventRuns
  import opened EventServer
  import opened EventSystem
  import opened EventTheorems

  /** Connect, activate in single mode, block two getEvent calls on the activation, put a
      state for which it fires, deliver the event, and let both calls wake up by it. */
  function TwoWaiters(id: CorrelationId, params: int, event: Event): seq<Step> {
    [Connect(0, id.writer), ActivateBegin(0, Single), ActivateWrite(0, id, params, false), ActivateInsert(0),
     EnterGet(1, 0, id), EnterGet(2, 0, id), ReceiveUp(0),
     PutBegin, PutEntry(Tested(Some(event), params), false), PutEnd,
     Take(0), Wake(1, [EventCond]), Wake(2, [EventCond])]
  }

  const CONNECTED := Client({}, map[], false, false)

  function Waiting(id: CorrelationId, woken: bool): Call {
    Call(0, id, None, 0, if woken then Some([EventCond]) else None)
  }

  function OneClient(id: CorrelationId, n: Node, s: System): System {
    s.(nodes := map[0 := n], owner := map[id.writer := 0])
  }

  /** The system before step `i` while the activation is being made. */
  function Preparing(id: CorrelationId, params: int, i: nat): System
    requires i <= 4
  {
    var s := Initial({0});
    var n := Node(CONNECTED, Some(id.writer), [], None);
    var up := [ActivationSample(true, id, id, ActivateSingle, params)];
    var records := map[id := Record(Single, false, [], [], [])];
    if i == 0 then s
    else if i == 1 then OneClient(id, n, s)
    else if i == 2 then OneClient(id, n.(activating := Some(Activating(Single, None))), s)
    else if i == 3 then
      OneClient(id, n.(activating := Some(Activating(Single, Some(id)))), s).(up := up, records := records)
    else
      OneClient(id, n.(client := InsertResult(CONNECTED, id, Single)), s).(up := up, records := records)
  }

  /** The system before step `i` once two calls wait and until the event was sent. */
  function Firing(id: CorrelationId, params: int, event: Event, i: nat): System
    requires 4 <= i <= 10
  {
    var s := Preparing(id, params, 4);
    var a := Activation(id, ActivateSingle, params, i >= 9);
    var n := s.nodes[0].(inbox := if i >= 9 then [EventSample(id, event)] else []);
    var calls :=
      if i == 4 then map[]
      else if i == 5 then map[1 := Waiting(id, false)]
      else map[1 := Waiting(id, false), 2 := Waiting(id, false)];
    OneClient(id, n, s).(
      up := if i >= 7 then [] else s.up,
      server := if i >= 7 then [a] else [],
      putAt := if i == 8 then Some(0) else if i == 9 then Some(1) else None,
      calls := calls,
      records := map[id := Record(Single, false, if i >= 9 then [event] else [], [], [])])
  }

  /** The system before step `i` once the event was sent. */
  function Delivering(id: CorrelationId, params: int, event: Event, i: nat): System
    requires 10 <= i <= 13
  {
    var s := Firing(id, params, event, 10);
    if i == 10 then s
    else
      var client := Deliver(s.nodes[0].client, EventSample(id, event));
      OneClient(id, s.nodes[0].(client := client, inbox := []), s).(
        calls := map[1 := Waiting(id, i >= 12), 2 := Waiting(id, i >= 13)],
        records := s.records[id := Record(Single, false, [event], [event], [])])
  }

  lemma PreparingStep(id: CorrelationId, params: int, event: Event, i: nat)
    requires i < 4
    ensures var s, step := Preparing(id, params, i), TwoWaiters(id, params, event)[i];
      Enabled(s, step) && Next(s, step) == Preparing(id, params, i + 1)
  {
    if i == 0 {
      assert Next(Initial({0}), Connect(0, id.writer)) == Preparing(id, params, 1);
    } else if i == 2 {
      var up := [ActivationSample(true, id, id, ActivateSingle, params)];
      assert [] + up == up;
    }
  }

  lemma FiringStep(id: CorrelationId, params: int, event: Event, i: nat)
    requires 4 <= i < 10 && i != 8
    ensures var s, step := Firing(id, params, event, i), TwoWaiters(id, params, event)[i];
      Enabled(s, step) && Next(s, step) == Firing(id, params, event, i + 1)
  {
    if i == 6 {
      var up := [ActivationSample(true, id, id, ActivateSingle, params)];
      var a := Activation(id, ActivateSingle, params, false);
      assert RemoveAt(up, 0) == [];
      assert [] + [a] == [a];
    }
  }

  lemma FiringBroadcast(id: CorrelationId, params: int, event: Event)
    ensures Broadcast(Firing(id, params, event, 8).nodes, EventSample(id, event)) ==
      Firing(id, params, event, 9).nodes
  {
    CorrelationIdFilter.Isolation(id.writer, id.writer);
    var e := EventSample(id, event);
    assert [] + [e] == [e];
  }

  lemma FiringWrite(id: CorrelationId, params: int, event: Event)
    ensures AfterPutEntry(Firing(id, params, event, 8), Tested(Some(event), params), false) ==
      Firing(id, params, event, 9)
  {
    FiringBroadcast(id, params, event);
    assert [] + [event] == [event];
  }

  lemma DeliveringTake(id: CorrelationId, params: int, event: Event)
    ensures var s := Delivering(id, params, event, 10);
      Unlocked(s, 0) && s.nodes[0].inbox != [] && AfterTake(s, 0) == Delivering(id, params, event, 11)
  {
    var s, e := Delivering(id, params, event, 10), EventSample(id, event);
    assert [e][1..] == [];
    assert [] + [event] == [event];
  }

  /** The condition that wakes the two calls holds. */
  lemma BothReleased(id: CorrelationId, params: int, event: Event, i: nat, t: nat)
    requires 11 <= i <= 13 && 1 <= t <= 2
    ensures Holds(Delivering(id, params, event, i), Delivering(id, params, event, i).calls[t], EventCond)
  {
  }

  lemma WokenCalls(id: CorrelationId, params: int, event: Event, i: nat)
    requires 11 <= i < 13
    ensures var calls := Delivering(id, params, event, i).calls;
      calls[i - 10 := calls[i - 10].(woken := Some([EventCond]))] == Delivering(id, params, event, i + 1).calls
  {
  }

  lemma DeliveringWake(id: CorrelationId, params: int, event: Event, i: nat)
    requires 11 <= i < 13
    ensures var s, step := Delivering(id, params, event, i), TwoWaiters(id, params, event)[i];
      Enabled(s, step) && Next(s, step) == Delivering(id, params, event, i + 1)
  {
    var s := Delivering(id, params, event, i);
    BothReleased(id, params, event, i, i - 10);
    WokenCalls(id, params, event, i);
    assert TwoWaiters(id, params, event)[i] == Wake(i - 10, [EventCond]);
    assert Delivering(id, params, event, i + 1) == s.(calls := Delivering(id, params, event, i + 1).calls);
  }

  function Stage(id: CorrelationId, params: int, event: Event, i: nat): System
    requires i <= 13
  {
    if i < 4 then Preparing(id, params, i)
    else if i < 10 then Firing(id, params, event, i)
    else Delivering(id, params, event, i)
  }

  lemma StageStep(id: CorrelationId, params: int, event: Event, i: nat)
    requires i < 13
    ensures var s, step := Stage(id, params, event, i), TwoWaiters(id, params, event)[i];
      Enabled(s, step) && Next(s, step) == Stage(id, params, event, i + 1)
  {
    if i < 4 {
      PreparingStep(id, params, event, i);
      assert Preparing(id, params, 4) == Firing(id, params, event, 4);
    } else if i == 8 {
      FiringWrite(id, params, event);
    } else if i < 10 {
      FiringStep(id, params, event, i);
    } else if i == 10 {
      DeliveringTake(id, params, event);
    } else {
      DeliveringWake(id, params, event, i);
    }
  }

  lemma {:induction false} FromStage(id: CorrelationId, params: int, event: Event, i: nat)
    requires i <= 13
    ensures var s, rest := Stage(id, params, event, i), TwoWaiters(id, params, event)[i..];
      Legal(s, rest) && Exec(s, rest) == Stage(id, params, event, 13)
    decreases 13 - i
  {
    var steps := TwoWaiters(id, params, event);
    if i < 13 {
      StageStep(id, params, event, i);
      FromStage(id, params, event, i + 1);
      assert steps[i..][1..] == steps[i + 1..];
    }
  }

  /** The two calls when both have been released, and the second after the first. */
  lemma FirstComesFirst(id: CorrelationId, params: int, event: Event)
    ensures
      var s := Delivering(id, params, event, 13);
      && Unlocked(s, 0)
      && CallStatus(CellFor(s, s.calls[1]), s.calls[1]) == Ok
      && CallStatus(CellFor(s, s.calls[2]), s.calls[2]) == Ok
      && var t := AfterFinish(s, 1);
      && Unlocked(t, 0) && 2 in t.calls && t.calls[2] == s.calls[2]
      && CallStatus(CellFor(t, t.calls[2]), t.calls[2]) == Passive
  {
    var cell := SetNew(NewResult(Single), event);
    ReleasedStatus(cell, Waiting(id, true));
    ReleasedStatus(Consume(cell), Waiting(id, true));
  }

  /** For every activation and event: both calls were waiting before the event fired, the
      event releases both, the first one returns OK, and then the second one PASSIVE. */
  lemma SecondGetEventIsPassive(id: CorrelationId, params: int, event: Event)
    ensures Legal(Initial({0}), TwoWaiters(id, params, event))
    ensures
      var s := Exec(Initial({0}), TwoWaiters(id, params, event));
      && Enabled(s, Finish(1)) && Enabled(s, Finish(2))
      && CallStatus(CellFor(s, s.calls[1]), s.calls[1]) == Ok
      && CallStatus(CellFor(s, s.calls[2]), s.calls[2]) == Ok
      && Enabled(Next(s, Finish(1)), Finish(2))
      && var t := Next(s, Finish(1));
      CallStatus(CellFor(t, t.calls[2]), t.calls[2]) == Passive
  {
    FromStage(id, params, event, 0);
    assert TwoWaiters(id, params, event)[0..] == TwoWaiters(id, params, event);
    FirstComesFirst(id, params, event);
  }
}
