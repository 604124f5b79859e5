/** The event server: the list of activations, kept up by incoming samples and tested
    against every new state. */
module EventServer {
  import opened Common
  import opened CorrelationIds
  import opened EventResults

  datatype ActivationMode = ActivateSingle | ActivateContinuous | DeactivateMode | UndefinedMode

  /** A sample of the activation topic: its own id, the id it relates to, and its data. */
  datatype ActivationSample = ActivationSample(
    valid: bool, id: CorrelationId, related: CorrelationId, mode: ActivationMode, params: int)

  datatype Activation = Activation(id: CorrelationId, mode: ActivationMode, params: int, fired: bool)

  /** A sample of the event topic, related to the activation it answers. */
  datatype EventSample = EventSample(related: CorrelationId, event: Event)

  predicate IsActivation(s: ActivationSample) {
    s.valid && (s.mode == ActivateSingle || s.mode == ActivateContinuous)
  }

  predicate IsDeactivationOf(s: ActivationSample, id: CorrelationId) {
    s.valid && s.mode == DeactivateMode && s.related == id
  }

  // ----- Specification --------------------------------------------------------

  /** `std::find` and `erase`: the first entry with this id goes. */
  function EraseFirst(list: seq<Activation>, id: CorrelationId): seq<Activation> {
    if list == [] then []
    else if list[0].id == id then list[1..]
    else [list[0]] + EraseFirst(list[1..], id)
  }

  /** The search for the first entry with this id stops at `i`. */
  lemma {:induction false} FirstAt(list: seq<Activation>, id: CorrelationId, i: nat)
    requires i <= |list| && forall j | 0 <= j < i :: list[j].id != id
    requires i < |list| ==> list[i].id == id
    ensures EraseFirst(list, id) == if i < |list| then RemoveAt(list, i) else list
  {
    if i > 0 {
      var rest := list[1..];
      forall j | 0 <= j < i - 1 ensures rest[j].id != id { assert rest[j] == list[j + 1]; }
      FirstAt(rest, id, i - 1);
      assert list == [list[0]] + rest;
      if i < |list| { assert RemoveAt(list, i) == [list[0]] + RemoveAt(rest, i - 1); }
    } else if list != [] {
      assert RemoveAt(list, 0) == list[1..];
    }
  }

  function Receive(list: seq<Activation>, s: ActivationSample): seq<Activation> {
    if s.valid && s.mode == DeactivateMode then EraseFirst(list, s.related)
    else if IsActivation(s) then list + [Activation(s.id, s.mode, s.params, false)]
    else list
  }

  function ReceiveAll(list: seq<Activation>, samples: seq<ActivationSample>): seq<Activation> {
    if samples == [] then list
    else Receive(ReceiveAll(list, samples[..|samples| - 1]), samples[|samples| - 1])
  }

  /** What the user's test of one activation does: it may say that the event fires, and it
      may rewrite the stored parameters, which it is handed by reference. */
  datatype Tested = Tested(event: Option<Event>, params: int)

  /** The tests of one `put`: the entry's position, its parameters and the new state. The
      handler may keep state of its own, so its verdict may depend on the position. */
  type TestHandler = (nat, int, int) -> Tested

  predicate Eligible(a: Activation) { a.mode == ActivateContinuous || !a.fired }

  predicate Fires(a: Activation, i: nat, test: TestHandler, state: int) {
    Eligible(a) && test(i, a.params, state).event.Some?
  }

  function MarkOne(a: Activation, i: nat, test: TestHandler, state: int): Activation {
    if Eligible(a) then AfterTest(a, test(i, a.params, state)) else a
  }

  /** An eligible entry after its test. */
  function AfterTest(a: Activation, result: Tested): Activation {
    a.(params := result.params, fired := a.fired || result.event.Some?)
  }

  /** The list after `put` has tested all of it. */
  function Mark(list: seq<Activation>, test: TestHandler, state: int): (r: seq<Activation>)
    ensures |r| == |list|
  {
    seq(|list|, i requires 0 <= i < |list| => MarkOne(list[i], i, test, state))
  }

  function Written(list: seq<Activation>, test: TestHandler, state: int): seq<EventSample> {
    if list == [] then []
    else
      var n := |list| - 1;
      Written(list[..n], test, state) + WrittenFor(list[n], n, test, state)
  }

  function WrittenFor(a: Activation, i: nat, test: TestHandler, state: int): seq<EventSample> {
    if Fires(a, i, test, state) then [EventSample(a.id, test(i, a.params, state).event.value)] else []
  }

  /** The loop of `put` has worked through `i` entries of `list`: what the list has become
      and what was sent. */
  ghost predicate PutSoFar(
    list: seq<Activation>, now: seq<Activation>, sent: seq<EventSample>, test: TestHandler, state: int, i: nat)
  {
    && i <= |list|
    && now == Mark(list[..i], test, state) + list[i..]
    && sent == Written(list[..i], test, state)
  }

  /** One more entry, whose sample goes out if it fires. */
  lemma PutAdvance(
    list: seq<Activation>, now: seq<Activation>, sent: seq<EventSample>, test: TestHandler, state: int, i: nat)
    requires PutSoFar(list, now, sent, test, state, i) && i < |list|
    ensures |now| == |list| && now[i] == list[i]
    ensures now[i := MarkOne(list[i], i, test, state)] == Mark(list[..i + 1], test, state) + list[i + 1..]
    ensures PutSoFar(list, now[i := MarkOne(list[i], i, test, state)],
                     sent + WrittenFor(list[i], i, test, state), test, state, i + 1)
  {
    assert list[..i + 1][..i] == list[..i];
    var next := now[i := MarkOne(list[i], i, test, state)];
    assert next == Mark(list[..i + 1], test, state) + list[i + 1..];
  }

  /** `n` is the position of the first firing entry whose write throws, or the end. */
  ghost predicate FirstFailure(
    list: seq<Activation>, test: TestHandler, state: int, writeFails: nat -> bool, n: nat)
  {
    && n <= |list|
    && (forall i: nat | i < n :: !(Fires(list[i], i, test, state) && writeFails(i)))
    && (n < |list| ==> Fires(list[n], n, test, state) && writeFails(n))
  }

  // ----- The server object ----------------------------------------------------

  class EventServer {
    var activations: seq<Activation>
    var shuttingDown: bool

    constructor ()
      ensures activations == [] && !shuttingDown
    {
      activations, shuttingDown := [], false;
    }

    method EraseById(id: CorrelationId)
      modifies this`activations
      ensures activations == EraseFirst(old(activations), id)
    {
      var list, i := activations, 0;
      while i < |list| && list[i].id != id
        invariant i <= |list| && activations == list
        invariant forall j | 0 <= j < i :: list[j].id != id
      {
        i := i + 1;
      }
      FirstAt(list, id, i);
      if i < |list| { activations := RemoveAt(list, i); }
    }

    method OnDataAvailable(samples: seq<ActivationSample>)
      modifies this`activations
      ensures activations == if shuttingDown then old(activations) else ReceiveAll(old(activations), samples)
    {
      if shuttingDown { return; }
      for n := 0 to |samples|
        invariant activations == ReceiveAll(old(activations), samples[..n])
      {
        assert samples[..n + 1][..n] == samples[..n];
        var s := samples[n];
        if s.valid {
          if s.mode == DeactivateMode {
            EraseById(s.related);
          } else if s.mode == ActivateSingle || s.mode == ActivateContinuous {
            activations := activations + [Activation(s.id, s.mode, s.params, false)];
          }
        }
      }
      assert samples[..|samples|] == samples;
    }

    /** Tests one entry by reference and marks it if it fires. */
    method TestEntry(i: nat, state: int, test: TestHandler) returns (event: Option<Event>)
      requires i < |activations|
      modifies this`activations
      ensures activations == old(activations)[i := MarkOne(old(activations[i]), i, test, state)]
      ensures event == if Fires(old(activations[i]), i, test, state)
                       then test(i, old(activations[i]).params, state).event else None
    {
      var a := activations[i];
      event := None;
      if a.mode == ActivateContinuous || !a.fired {
        var result := test(i, a.params, state);
        activations := activations[i := a.(params := result.params)];
        if result.event.Some? {
          activations := activations[i := activations[i].(fired := true)];
          event := result.event;
        }
      }
    }

    /** Tests every activation in list order. The fired mark is set before the write, so
        the entry whose write throws is marked although nothing was sent for it. */
    method Put(state: int, test: TestHandler, writeFails: nat -> bool)
      returns (status: StatusCode, sent: seq<EventSample>, ghost n: nat)
      modifies this`activations
      ensures shuttingDown ==> status == Cancelled && sent == [] && activations == old(activations)
      ensures !shuttingDown ==>
        && FirstFailure(old(activations), test, state, writeFails, n)
        && status == (if n == |old(activations)| then Ok else ErrorCommunication)
        && sent == Written(old(activations)[..n], test, state)
        && (n == |old(activations)| ==> activations == Mark(old(activations), test, state))
        && (n < |old(activations)| ==>
              activations == Mark(old(activations)[..n + 1], test, state) + old(activations)[n + 1..])
    {
      ghost var list := activations;
      sent, n := [], 0;
      if shuttingDown { return Cancelled, sent, n; }
      var i: nat := 0;
      while i < |activations|
        invariant i == n <= |list| == |activations|
        invariant PutSoFar(list, activations, sent, test, state, i)
        invariant forall j: nat | j < i :: !(Fires(list[j], j, test, state) && writeFails(j))
      {
        var id := activations[i].id;
        PutAdvance(list, activations, sent, test, state, i);
        var event := TestEntry(i, state, test);
        if event.Some? {
          if writeFails(i) {
            status := ErrorCommunication;
            return;
          }
          sent := sent + [EventSample(id, event.value)];
        }
        i, n := i + 1, n + 1;
      }
      assert list[..i] == list;
      status := Ok;
    }
  }

  // ----- The list refines the history of samples ------------------------------

  function Ids(list: seq<Activation>): seq<CorrelationId> {
    seq(|list|, i requires 0 <= i < |list| => list[i].id)
  }

  ghost predicate DeactivatedAfter(h: seq<ActivationSample>, i: nat)
    requires i < |h|
  {
    exists j | i < j < |h| :: IsDeactivationOf(h[j], h[i].id)
  }

  /** What position `i` of the history contributes. */
  ghost function StandingAt(h: seq<ActivationSample>, i: nat): seq<CorrelationId>
    requires i < |h|
  {
    if IsActivation(h[i]) && !DeactivatedAfter(h, i) then [h[i].id] else []
  }

  /** The ids activated in `h` from position `i` on and not deactivated later, in arrival
      order. */
  ghost function Standing(h: seq<ActivationSample>, i: nat): seq<CorrelationId>
    requires i <= |h|
    decreases |h| - i
  {
    if i == |h| then []
    else StandingAt(h, i) + Standing(h, i + 1)
  }

  /** The middleware gives every activation sample an id of its own. */
  ghost predicate UniqueActivations(h: seq<ActivationSample>) {
    forall i, j | 0 <= i < j < |h| && IsActivation(h[i]) && IsActivation(h[j]) :: h[i].id != h[j].id
  }

  function WithoutId(ids: seq<CorrelationId>, id: CorrelationId): seq<CorrelationId> {
    if ids == [] then []
    else (if ids[0] == id then [] else [ids[0]]) + WithoutId(ids[1..], id)
  }

  lemma {:induction false} StandingMembers(h: seq<ActivationSample>, i: nat)
    requires i <= |h| && UniqueActivations(h)
    ensures forall id | id in Standing(h, i) ::
      exists j | i <= j < |h| :: IsActivation(h[j]) && h[j].id == id
    ensures Distinct(Standing(h, i))
    decreases |h| - i
  {
    if i < |h| {
      StandingMembers(h, i + 1);
      if IsActivation(h[i]) {
        var ids := Standing(h, i + 1);
        forall k | 0 <= k < |ids| ensures ids[k] != h[i].id {
          assert ids[k] in ids;
          var j :| i + 1 <= j < |h| && IsActivation(h[j]) && h[j].id == ids[k];
        }
      }
    }
  }

  lemma DeactivatedAppend(h: seq<ActivationSample>, s: ActivationSample, i: nat)
    requires i < |h|
    ensures (h + [s])[i] == h[i]
    ensures DeactivatedAfter(h + [s], i) <==> DeactivatedAfter(h, i) || IsDeactivationOf(s, h[i].id)
  {
    var h' := h + [s];
    if j :| i < j < |h| && IsDeactivationOf(h[j], h[i].id) {
      assert IsDeactivationOf(h'[j], h'[i].id);
    }
    if IsDeactivationOf(s, h[i].id) {
      assert IsDeactivationOf(h'[|h|], h'[i].id);
    }
  }

  lemma StandingAtAppend(h: seq<ActivationSample>, s: ActivationSample, i: nat)
    requires i < |h|
    ensures StandingAt(h + [s], i) ==
      if s.valid && s.mode == DeactivateMode then WithoutId(StandingAt(h, i), s.related) else StandingAt(h, i)
  {
    DeactivatedAppend(h, s, i);
    assert WithoutId([h[i].id], s.related) == if h[i].id == s.related then [] else [h[i].id];
  }

  lemma {:induction false} StandingAppend(h: seq<ActivationSample>, s: ActivationSample, i: nat)
    requires i <= |h|
    ensures Standing(h + [s], i) ==
      (if s.valid && s.mode == DeactivateMode then WithoutId(Standing(h, i), s.related)
       else Standing(h, i)) +
      (if IsActivation(s) then [s.id] else [])
    decreases |h| - i
  {
    var h' := h + [s];
    if i == |h| {
      assert Standing(h', i + 1) == [];
      assert StandingAt(h', i) == if IsActivation(s) then [s.id] else [];
    } else {
      StandingAppend(h, s, i + 1);
      StandingAtAppend(h, s, i);
      if s.valid && s.mode == DeactivateMode {
        WithoutConcat(StandingAt(h, i), Standing(h, i + 1), s.related);
      }
    }
  }

  lemma {:induction false} WithoutConcat(a: seq<CorrelationId>, b: seq<CorrelationId>, id: CorrelationId)
    ensures WithoutId(a + b, id) == WithoutId(a, id) + WithoutId(b, id)
  {
    if a == [] {
      assert a + b == b;
    } else {
      assert (a + b)[1..] == a[1..] + b;
      WithoutConcat(a[1..], b, id);
    }
  }

  lemma {:induction false} WithoutAbsent(ids: seq<CorrelationId>, id: CorrelationId)
    requires id !in ids
    ensures WithoutId(ids, id) == ids
  {
    if ids != [] { WithoutAbsent(ids[1..], id); }
  }

  lemma IdsHead(list: seq<Activation>)
    requires list != [] && Distinct(Ids(list))
    ensures Ids(list) == [list[0].id] + Ids(list[1..])
    ensures Distinct(Ids(list[1..])) && list[0].id !in Ids(list[1..])
  {
    forall k | 0 <= k < |list| - 1
      ensures Ids(list[1..])[k] == Ids(list)[k + 1] && Ids(list[1..])[k] != list[0].id
    {
      assert Ids(list)[0] != Ids(list)[k + 1];
    }
  }

  lemma {:induction false} EraseFirstIds(list: seq<Activation>, id: CorrelationId)
    requires Distinct(Ids(list))
    ensures Ids(EraseFirst(list, id)) == WithoutId(Ids(list), id)
  {
    if list != [] {
      IdsHead(list);
      if list[0].id == id {
        WithoutAbsent(Ids(list[1..]), id);
      } else {
        EraseFirstIds(list[1..], id);
        var rest := EraseFirst(list[1..], id);
        assert Ids([list[0]] + rest) == [list[0].id] + Ids(rest);
      }
    }
  }

  /** What one entry contributes to a put that reaches it: exactly one sample, with its id
      and the event of its test, if the activation is continuous, fired or not, or single
      and unfired, and its test says that it fires; and nothing otherwise. The contributions
      of the entries follow each other in list order. */
  lemma {:induction false} EntryContributes(
    list: seq<Activation>, test: TestHandler, state: int, i: nat, n: nat)
    requires i < n <= |list|
    ensures
      var a, outcome := list[i], test(i, list[i].params, state).event;
      var mayFire := a.mode == ActivateContinuous || !a.fired;
      Written(list[..i + 1], test, state) ==
        Written(list[..i], test, state) +
        (if mayFire && outcome.Some? then [EventSample(a.id, outcome.value)] else [])
    ensures Written(list[..i + 1], test, state) <= Written(list[..n], test, state)
  {
    assert list[..n][..n - 1] == list[..n - 1];
    if n > i + 1 { EntryContributes(list, test, state, i, n - 1); }
  }

  // ----- Histories of receptions and puts -------------------------------------

  datatype ServerOp =
    | ReceiveOp(sample: ActivationSample)
    | PutOp(state: int, test: TestHandler, stop: nat)

  /** A put that got as far as entry `stop`, or to the end. */
  function Step(list: seq<Activation>, op: ServerOp): seq<Activation> {
    match op
    case ReceiveOp(s) => Receive(list, s)
    case PutOp(state, test, stop) =>
      if stop < |list| then Mark(list[..stop + 1], test, state) + list[stop + 1..]
      else Mark(list, test, state)
  }

  function Run(ops: seq<ServerOp>): seq<Activation> {
    if ops == [] then [] else Step(Run(ops[..|ops| - 1]), ops[|ops| - 1])
  }

  function Received(ops: seq<ServerOp>): seq<ActivationSample> {
    if ops == [] then []
    else
      Received(ops[..|ops| - 1]) +
      (if ops[|ops| - 1].ReceiveOp? then [ops[|ops| - 1].sample] else [])
  }

  /** However receptions and puts interleave, the server list holds, in arrival order and
      without duplicates, exactly the activations received and not deactivated since. */
  lemma {:induction false} ListRefinesHistory(ops: seq<ServerOp>)
    requires UniqueActivations(Received(ops))
    ensures Ids(Run(ops)) == Standing(Received(ops), 0)
    ensures Distinct(Ids(Run(ops)))
  {
    if ops != [] {
      var n := |ops| - 1;
      var before, h := Run(ops[..n]), Received(ops[..n]);
      assert forall i | 0 <= i < |h| :: Received(ops)[i] == h[i];
      ListRefinesHistory(ops[..n]);
      match ops[n]
      case ReceiveOp(s) =>
        assert Received(ops) == h + [s];
        StandingAppend(h, s, 0);
        EraseFirstIds(before, s.related);
        assert Ids(before + [Activation(s.id, s.mode, s.params, false)]) == Ids(before) + [s.id];
      case PutOp(_, _, _) =>
        assert Received(ops) == h;
        assert Ids(Run(ops)) == Ids(before);
    }
    StandingMembers(Received(ops), 0);
  }

  /** Every entry has the mode of the activation sample that it was made from. */
  lemma {:induction false} ModesRefineHistory(ops: seq<ServerOp>, i: nat)
    requires i < |Run(ops)|
    ensures exists s :: s in Received(ops) && IsActivation(s) && s.id == Run(ops)[i].id && s.mode == Run(ops)[i].mode
  {
    var n := |ops| - 1;
    var before, after := Run(ops[..n]), Run(ops);
    assert ops[..n] + [ops[n]] == ops;
    match ops[n]
    case ReceiveOp(s) =>
      assert Received(ops) == Received(ops[..n]) + [s];
      if IsActivation(s) && i == |before| {
        assert s in Received(ops);
      } else {
        if s.valid && s.mode == DeactivateMode { EraseMembers(before, s.related); }
        assert after[i] in before;
        var j :| 0 <= j < |before| && before[j] == after[i];
        ModesRefineHistory(ops[..n], j);
      }
    case PutOp(_, _, _) => ModesRefineHistory(ops[..n], i);
  }

  lemma {:induction false} EraseMembers(list: seq<Activation>, id: CorrelationId)
    ensures forall a | a in EraseFirst(list, id) :: a in list
  {
    if list != [] && list[0].id != id { EraseMembers(list[1..], id); }
  }

  /** A put never changes the id or the mode of an entry and only ever raises its fired
      mark; the parameters change only where the entry was tested, and to what its test
      left there. */
  lemma PutOnlyMarks(list: seq<Activation>, op: ServerOp, i: nat)
    requires op.PutOp? && i < |list|
    ensures |Step(list, op)| == |list|
    ensures var a, b := list[i], Step(list, op)[i];
      && b.id == a.id && b.mode == a.mode
      && (b.fired <==> a.fired || (i <= op.stop && Fires(a, i, op.test, op.state)))
      && b.params == (if i <= op.stop && Eligible(a) then op.test(i, a.params, op.state).params else a.params)
  {
  }
}
