/** Blocked queries over whole runs: whom `blocking` aborts, and that no waiter is left
    behind when its query leaves the cache. */
module QueryRuns {
  import opened Common
  import opened CorrelationIds
  import opened QueryClient
  import opened QuerySystem
  import opened QueryTheorems

  // ----- Whom `blocking` aborts -------------------------------------------------

  function NodeFor(s: System, c: nat): Node {
    if c in s.nodes then s.nodes[c] else INITIAL_NODE
  }

  /** The argument of the last `blocking` call of client `c`; `before` without one. */
  predicate LastBlocking(steps: seq<Step>, c: nat, before: bool)
    decreases |steps|
  {
    if steps == [] then before
    else
      LastBlocking(steps[1..], c, if steps[0].Block? && steps[0].c == c then steps[0].blocking else before)
  }

  lemma NextNonblocking(s: System, step: Step, c: nat)
    requires Enabled(s, step)
    ensures NodeFor(Next(s, step), c).nonblocking ==
      if step.Block? && step.c == c then step.blocking else NodeFor(s, c).nonblocking
  {
  }

  lemma {:induction false} GuardIsLastBlocking(s: System, steps: seq<Step>, c: nat)
    requires Legal(s, steps)
    ensures NodeFor(Exec(s, steps), c).nonblocking == LastBlocking(steps, c, NodeFor(s, c).nonblocking)
    decreases |steps|
  {
    if steps != [] {
      NextNonblocking(s, steps[0], c);
      GuardIsLastBlocking(Next(s, steps[0]), steps[1..], c);
    }
  }

  /** As in the event client: a blocked receive can be aborted with CANCELLED by the
      non-blocking guard if and only if the last argument of `blocking` is true. */
  lemma BlockingReleasesIff(clients: set<nat>, steps: seq<Step>, t: nat)
    requires Legal(Initial(clients), steps)
    requires t in Exec(Initial(clients), steps).calls && Exec(Initial(clients), steps).calls[t].woken.None?
    ensures
      var s := Exec(Initial(clients), steps);
      var wake := Wake(t, [NonblockingCond]);
      && (Enabled(s, wake) <==> LastBlocking(steps, s.calls[t].client, false))
      && (Enabled(s, wake) ==> CallStatus(Next(s, wake), Next(s, wake).calls[t]) == Cancelled)
  {
    InitialInv(clients);
    RunKeepsInv(Initial(clients), steps);
    var s := Exec(Initial(clients), steps);
    assert CallAt(s, t);
    GuardIsLastBlocking(Initial(clients), steps, s.calls[t].client);
    assert [NonblockingCond][0] == NonblockingCond;
    if Enabled(s, Wake(t, [NonblockingCond])) { assert Holds(s, s.calls[t], [NonblockingCond][0]); }
  }

  /** The client's guard is down, and it is not what woke call `t`. */
  ghost predicate Unaborted(s: System, c: nat, t: nat) {
    && !NodeFor(s, c).nonblocking
    && (t in s.calls && s.calls[t].client == c && s.calls[t].woken.Some? ==>
          NonblockingCond !in s.calls[t].woken.value)
  }

  lemma WakeUnaborted(s: System, c: nat, t: nat, active: seq<Cond>)
    requires Enabled(s, Wake(t, active)) && !NodeFor(s, c).nonblocking
    ensures s.calls[t].client == c ==> NonblockingCond !in active
  {
    forall i | s.calls[t].client == c && 0 <= i < |active| ensures active[i] != NonblockingCond {
      assert Holds(s, s.calls[t], active[i]);
    }
  }

  lemma NextUnaborted(s: System, step: Step, c: nat, t: nat)
    requires Enabled(s, step) && Unaborted(s, c, t) && !(step.Block? && step.c == c && step.blocking)
    ensures Unaborted(Next(s, step), c, t)
  {
    NextNonblocking(s, step, c);
    if step.Wake? { WakeUnaborted(s, c, step.t, step.active); }
  }

  lemma {:induction false} RunUnaborted(s: System, steps: seq<Step>, c: nat, t: nat)
    requires Legal(s, steps) && Unaborted(s, c, t) && Block(c, true) !in steps
    ensures Unaborted(Exec(s, steps), c, t)
    decreases |steps|
  {
    if steps != [] {
      assert steps[0] in steps;
      NextUnaborted(s, steps[0], c, t);
      RunUnaborted(Next(s, steps[0]), steps[1..], c, t);
    }
  }

  /** A receive that is still blocked, or begins, after `blocking(false)` is not cancelled
      before a later `blocking(true)`, unless its query was discarded. */
  lemma NoCancelAfterBlockingFalse(s: System, c: nat, steps: seq<Step>, t: nat)
    requires Enabled(s, Block(c, false)) && (t in s.calls ==> s.calls[t].woken.None?)
    requires Legal(Next(s, Block(c, false)), steps) && Block(c, true) !in steps
    requires Enabled(Exec(Next(s, Block(c, false)), steps), Finish(t))
    ensures
      var w := Exec(Next(s, Block(c, false)), steps);
      w.calls[t].client == c && CallStatus(w, w.calls[t]) == Cancelled ==>
        w.calls[t].woken.value[0] == DiscardCond
  {
    RunUnaborted(Next(s, Block(c, false)), steps, c, t);
  }

  // ----- No waiter is left behind ---------------------------------------------------

  /** The query had its cell and is no longer cached. */
  ghost predicate Left(s: System, id: CorrelationId) {
    id in NodeOf(s, id).cells && id !in NodeOf(s, id).cache
  }

  ghost predicate Discarded(s: System, id: CorrelationId) {
    id in NodeOf(s, id).cells && NodeOf(s, id).cells[id].discarded
  }

  /** Cells stay, discard marks stay, and an entry that left the cache does not return. */
  lemma CellsStay(n: Node, step: Step, id: CorrelationId)
    requires AtClient(step) && NodeEnabled(n, step) && id in n.cells
    requires n.writing.Some? ==> n.writing.value !in n.cells
    ensures var m := NodeAfter(n, step);
      && id in m.cells
      && (n.cells[id].discarded ==> m.cells[id].discarded)
      && (id !in n.cache ==> id !in m.cache)
  {
  }

  lemma LeftStaysAtClient(s: System, step: Step, id: CorrelationId)
    requires Enabled(s, step) && AtClient(step) && NodeAt(s, step.c)
    ensures Left(s, id) ==> Left(Next(s, step), id)
    ensures Discarded(s, id) ==> Discarded(Next(s, step), id)
  {
    if Left(s, id) || Discarded(s, id) {
      NodeOfAfter(s, step, id);
      if s.owner[id.writer] == step.c { CellsStay(s.nodes[step.c], step, id); }
    }
  }

  /** What left the cache or was discarded in `s` is so in `t`. */
  ghost predicate LeftKept(s: System, t: System, id: CorrelationId) {
    (Left(s, id) ==> Left(t, id)) && (Discarded(s, id) ==> Discarded(t, id))
  }

  lemma LeftStaysAtAnswer(s: System, p: nat, answer: int, id: CorrelationId)
    requires p in s.requests
    ensures LeftKept(s, AfterAnswer(s, p, answer), id)
  {
  }

  lemma LeftStaysAtWrite(s: System, c: nat, i: CorrelationId, id: CorrelationId)
    requires c in s.nodes
    ensures LeftKept(s, AfterWriteRequest(s, c, i), id)
  {
  }

  lemma LeftStaysAtReturn(s: System, c: nat, i: CorrelationId, id: CorrelationId)
    requires c in s.nodes
    ensures LeftKept(s, Returned(s, c, i), id)
  {
  }

  lemma LeftStaysAtFinish(s: System, t: nat, id: CorrelationId)
    requires t in s.calls && s.calls[t].woken.Some? && s.calls[t].client in s.nodes
    ensures LeftKept(s, AfterFinish(s, t), id)
  {
    var left := s.(calls := s.calls - {t});
    assert LeftKept(s, left, id);
    LeftStaysAtReturn(left, s.calls[t].client, s.calls[t].id, id);
  }

  lemma NodesUntouched(s: System, step: Step)
    requires Enabled(s, step) && !AtClient(step)
    requires !step.WriteRequest? && !step.Answer? && !step.ReceiveOk? && !step.Finish?
    ensures Next(s, step).nodes == s.nodes && Next(s, step).owner == s.owner
  {
  }

  lemma LeftStaysElsewhere(s: System, step: Step, id: CorrelationId)
    requires Enabled(s, step) && !AtClient(step)
    ensures LeftKept(s, Next(s, step), id)
  {
    match step
    case WriteRequest(c, i) => LeftStaysAtWrite(s, c, i, id);
    case Answer(p, answer) => LeftStaysAtAnswer(s, p, answer, id);
    case ReceiveOk(c, i) => LeftStaysAtReturn(s, c, i, id);
    case Finish(t) => LeftStaysAtFinish(s, t, id);
    case _ => NodesUntouched(s, step);
  }

  lemma {:induction false} LeftStays(s: System, steps: seq<Step>, id: CorrelationId)
    requires Inv(s) && Legal(s, steps)
    ensures Left(s, id) ==> Left(Exec(s, steps), id)
    ensures Discarded(s, id) ==> Discarded(Exec(s, steps), id)
    decreases |steps|
  {
    if steps != [] {
      if AtClient(steps[0]) {
        assert NodeAt(s, steps[0].c);
        LeftStaysAtClient(s, steps[0], id);
      } else {
        LeftStaysElsewhere(s, steps[0], id);
      }
      NextKeepsInv(s, steps[0]);
      LeftStays(Next(s, steps[0]), steps[1..], id);
    }
  }

  /** Once a query has left the cache, a call that waits on it can wake up in every
      continuation, by its discard guard or by its answer. */
  lemma NeverStrandedLater(s: System, steps: seq<Step>, t: nat, id: CorrelationId)
    requires Inv(s) && Legal(s, steps) && Left(s, id)
    requires t in Exec(s, steps).calls && Exec(s, steps).calls[t].id == id
    requires Exec(s, steps).calls[t].woken.None?
    ensures Enabled(Exec(s, steps), Wake(t, [DiscardCond])) || Enabled(Exec(s, steps), Wake(t, [ResultCond]))
  {
    RunKeepsInv(s, steps);
    LeftStays(s, steps, id);
    var w := Exec(s, steps);
    assert CallAt(w, t) && NodeAt(w, w.calls[t].client);
    NoStrandedWaiter(w, t);
  }

  lemma DiscardMarks(s: System, c: nat, id: CorrelationId)
    requires Enabled(s, Discard(c, id)) && NodeAt(s, c)
    ensures Discarded(Next(s, Discard(c, id)), id)
  {
  }

  /** What happens to a call that wakes up by the discard guard. */
  lemma DiscardWakes(s: System, t: nat)
    requires Inv(s) && t in s.calls && s.calls[t].woken.None? && Discarded(s, s.calls[t].id)
    ensures
      var wake := Wake(t, [DiscardCond]);
      && Enabled(s, wake)
      && CallStatus(Next(s, wake), Next(s, wake).calls[t]) ==
           if NodeOf(s, s.calls[t].id).disconnected then Disconnected else Cancelled
  {
    assert CallAt(s, t) && NodeAt(s, s.calls[t].client);
    assert Holds(s, s.calls[t], [DiscardCond][0]);
  }

  /** A discard during a wait releases the waiter for good: in every continuation it can
      wake up by the discard guard, and then it returns CANCELLED or DISCONNECTED. */
  lemma DiscardReleases(s: System, c: nat, id: CorrelationId, steps: seq<Step>, t: nat)
    requires Inv(s) && Enabled(s, Discard(c, id)) && Legal(Next(s, Discard(c, id)), steps)
    requires t in Exec(Next(s, Discard(c, id)), steps).calls
    requires Exec(Next(s, Discard(c, id)), steps).calls[t].id == id
    requires Exec(Next(s, Discard(c, id)), steps).calls[t].woken.None?
    ensures
      var w, wake := Exec(Next(s, Discard(c, id)), steps), Wake(t, [DiscardCond]);
      && Enabled(w, wake)
      && CallStatus(Next(w, wake), Next(w, wake).calls[t]) == if NodeOf(w, id).disconnected
                                                              then Disconnected else Cancelled
  {
    var d := Next(s, Discard(c, id));
    assert NodeAt(s, c);
    NextKeepsInv(s, Discard(c, id));
    DiscardMarks(s, c, id);
    LeftStays(d, steps, id);
    RunKeepsInv(d, steps);
    DiscardWakes(Exec(d, steps), t);
  }
}
