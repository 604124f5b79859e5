/** Every step of the query system keeps its invariant, and what follows for every run. */
module QueryTheorems {
  import opened Common
  import opened ConnectionId
  import CorrelationIdFilter
  import opened CorrelationIds
  import opened QueryClient
  import opened QueryServer
  import opened QuerySystem

  lemma InitialInv(clients: set<nat>)
    ensures Inv(Initial(clients))
  {
  }

  // ----- Steps that touch one node and no history ------------------------------

  /** Everything but the node of `c`, and at `c` the cells and the pending request. */
  ghost predicate NodeOnly(s: System, t: System, c: nat, n: Node) {
    && c in s.nodes
    && t == s.(nodes := s.nodes[c := n], owner := t.owner)
    && (forall g | g in s.owner :: g in t.owner && t.owner[g] == s.owner[g])
  }

  lemma NodeOnlyKeepsInv(s: System, t: System, c: nat, n: Node)
    requires Inv(s) && NodeOnly(s, t, c, n) && NodeAt(t, c)
    requires (forall id :: IdAt(t, id)) && (forall k :: CallAt(t, k))
    ensures Inv(t)
  {
    forall d ensures NodeAt(t, d) { assert NodeAt(s, d); }
    forall k, l ensures CallsDiffer(t, k, l) { assert CallsDiffer(s, k, l); }
    forall p ensures RequestAt(t, p) { assert RequestAt(s, p); }
    forall p, q ensures RequestsDiffer(t, p, q) { assert RequestsDiffer(s, p, q); }
  }

  lemma TakeId(s: System, c: nat, id: CorrelationId)
    requires Enabled(s, Take(c)) && NodeAt(s, c) && IdAt(s, id)
    ensures IdAt(Next(s, Take(c)), id)
  {
    assert s.nodes[c].inbox[0] in s.nodes[c].inbox;
  }

  lemma ClientStepId(s: System, step: Step, id: CorrelationId)
    requires Enabled(s, step) && AtClient(step) && !step.Take? && NodeAt(s, step.c) && IdAt(s, id)
    ensures IdAt(Next(s, step), id)
  {
  }

  lemma ClientStepCall(s: System, step: Step, k: nat)
    requires Enabled(s, step) && AtClient(step) && NodeAt(s, step.c) && CallAt(s, k)
    ensures CallAt(Next(s, step), k)
  {
  }

  lemma ClientStepOnly(s: System, step: Step)
    requires Enabled(s, step) && AtClient(step)
    ensures NodeOnly(s, Next(s, step), step.c, Next(s, step).nodes[step.c])
  {
  }

  lemma LoseReplyNode(s: System, c: nat, k: nat)
    requires Enabled(s, LoseReply(c, k)) && NodeAt(s, c)
    ensures NodeAt(Next(s, LoseReply(c, k)), c)
  {
    RemoveAtMembers(s.nodes[c].inbox, k);
  }

  /** The taken reply is the only one for its query. */
  lemma TakenIsOnlyReply(n: Node, records: map<CorrelationId, Record>)
    requires n.inbox != [] && Distinct(n.inbox)
    requires forall r | r in n.inbox :: ReplyOk(n, r, records)
    ensures Distinct(n.inbox[1..])
    ensures forall r | r in n.inbox[1..] :: r in n.inbox && r.related != n.inbox[0].related
  {
    forall r | r in n.inbox[1..] ensures r in n.inbox && r.related != n.inbox[0].related {
      var i :| 0 <= i < |n.inbox[1..]| && n.inbox[1..][i] == r;
      assert n.inbox[i + 1] == r && n.inbox[0] != n.inbox[i + 1];
      assert n.inbox[0] in n.inbox;
    }
  }

  lemma TakeNode(n: Node, c: nat, owner: map<Guid, nat>, records: map<CorrelationId, Record>)
    requires NodeOk(n, c, owner, records) && n.inbox != []
    ensures NodeOk(NodeAfter(n, Take(c)), c, owner, records)
  {
    TakenIsOnlyReply(n, records);
    assert n.inbox[0] in n.inbox;
    var m := NodeAfter(n, Take(c));
    forall r | r in m.inbox ensures ReplyOk(m, r, records) { assert ReplyOk(n, r, records); }
  }

  lemma ClientStepNode(s: System, step: Step)
    requires Enabled(s, step) && AtClient(step) && !step.Take? && !step.LoseReply? && NodeAt(s, step.c)
    ensures NodeAt(Next(s, step), step.c)
  {
  }

  lemma ClientNode(s: System, step: Step)
    requires Enabled(s, step) && AtClient(step) && NodeAt(s, step.c)
    ensures NodeAt(Next(s, step), step.c)
  {
    if step.Take? { TakeNode(s.nodes[step.c], step.c, s.owner, s.records); }
    else if step.LoseReply? { LoseReplyNode(s, step.c, step.k); }
    else { ClientStepNode(s, step); }
  }

  lemma ClientStepKeepsInv(s: System, step: Step)
    requires Inv(s) && Enabled(s, step) && AtClient(step)
    ensures Inv(Next(s, step))
  {
    var t := Next(s, step);
    assert NodeAt(s, step.c);
    ClientStepOnly(s, step);
    ClientNode(s, step);
    forall id ensures IdAt(t, id) {
      assert IdAt(s, id);
      if step.Take? { TakeId(s, step.c, id); } else { ClientStepId(s, step, id); }
    }
    forall k ensures CallAt(t, k) { assert CallAt(s, k); ClientStepCall(s, step, k); }
    NodeOnlyKeepsInv(s, t, step.c, t.nodes[step.c]);
  }

  // ----- Requests and the server ----------------------------------------------

  lemma WriteRequestNode(s: System, c: nat, id: CorrelationId, d: nat)
    requires NodeAt(s, c) && NodeAt(s, d) && Enabled(s, WriteRequest(c, id))
    ensures NodeAt(AfterWriteRequest(s, c, id), d)
  {
  }

  lemma WriteRequestId(s: System, c: nat, id: CorrelationId, i: CorrelationId)
    requires NodeAt(s, c) && IdAt(s, i) && Enabled(s, WriteRequest(c, id))
    ensures IdAt(AfterWriteRequest(s, c, id), i)
  {
  }

  lemma WriteRequestRest(s: System, c: nat, id: CorrelationId)
    requires Inv(s) && Enabled(s, WriteRequest(c, id))
    ensures var t := AfterWriteRequest(s, c, id);
      && UpOk(t) && (forall k :: CallAt(t, k)) && (forall p :: RequestAt(t, p))
  {
    var t := AfterWriteRequest(s, c, id);
    forall k ensures CallAt(t, k) { assert CallAt(s, k); }
    forall p ensures RequestAt(t, p) { assert RequestAt(s, p); }
  }

  lemma WriteRequestKeepsInv(s: System, c: nat, id: CorrelationId)
    requires Inv(s) && Enabled(s, WriteRequest(c, id))
    ensures Inv(AfterWriteRequest(s, c, id))
  {
    var t := AfterWriteRequest(s, c, id);
    assert NodeAt(s, c);
    forall d ensures NodeAt(t, d) { assert NodeAt(s, d); WriteRequestNode(s, c, id, d); }
    forall i ensures IdAt(t, i) { assert IdAt(s, i); WriteRequestId(s, c, id, i); }
    WriteRequestRest(s, c, id);
    forall k, l ensures CallsDiffer(t, k, l) { assert CallsDiffer(s, k, l); }
    forall p, q ensures RequestsDiffer(t, p, q) { assert RequestsDiffer(s, p, q); }
  }

  /** Steps of the request channel and the server that send nothing. */
  predicate AtServer(step: Step) {
    step.LoseRequest? || step.Arrive? || step.Liveness? || step.ServerDisconnect?
  }

  lemma ArriveRequests(s: System, k: nat, p: nat)
    requires Inv(s) && Enabled(s, Arrive(k, p))
    ensures var t := Next(s, Arrive(k, p));
      UpOk(t) && (forall q :: RequestAt(t, q)) && (forall q, r :: RequestsDiffer(t, q, r))
  {
    var t := Next(s, Arrive(k, p));
    RemoveAtMembers(s.up, k);
    assert s.up[k] in s.up && RequestAt(s, p);
    forall q ensures RequestAt(t, q) { assert RequestAt(s, q); }
    forall q, r ensures RequestsDiffer(t, q, r) {
      assert RequestsDiffer(s, q, r) && RequestAt(s, q) && RequestAt(s, r);
    }
  }

  lemma ServerRequests(s: System, step: Step)
    requires Inv(s) && Enabled(s, step) && (step.LoseRequest? || step.Liveness? || step.ServerDisconnect?)
    ensures var t := Next(s, step);
      UpOk(t) && (forall q :: RequestAt(t, q)) && (forall q, r :: RequestsDiffer(t, q, r))
  {
    var t := Next(s, step);
    if step.LoseRequest? { RemoveAtMembers(s.up, step.k); }
    forall q ensures RequestAt(t, q) { assert RequestAt(s, q); }
    forall q, r ensures RequestsDiffer(t, q, r) { assert RequestsDiffer(s, q, r); }
  }

  /** Nothing that the rest of the invariant speaks of changes. */
  lemma ServerStepElsewhere(s: System, step: Step)
    requires Enabled(s, step) && AtServer(step)
    ensures var t := Next(s, step);
      t == s.(up := t.up, requests := t.requests, pending := t.pending, dropped := t.dropped, live := t.live)
    ensures forall p | p in s.requests :: p in Next(s, step).requests && Next(s, step).requests[p] == s.requests[p]
  {
  }

  lemma ServerStepKeepsInv(s: System, step: Step)
    requires Inv(s) && Enabled(s, step) && AtServer(step)
    ensures Inv(Next(s, step))
  {
    var t := Next(s, step);
    ServerStepElsewhere(s, step);
    if step.Arrive? { ArriveRequests(s, step.k, step.p); } else { ServerRequests(s, step); }
    forall d ensures NodeAt(t, d) { assert NodeAt(s, d); }
    forall i ensures IdAt(t, i) { assert IdAt(s, i); }
    forall k ensures CallAt(t, k) { assert CallAt(s, k); }
    forall k, l ensures CallsDiffer(t, k, l) { assert CallsDiffer(s, k, l); }
  }

  /** A reply reaches only the connection its request was written on. */
  lemma ReplyReaches(s: System, r: Reply)
    requires forall c :: NodeAt(s, c)
    ensures Broadcast(s.nodes, r).Keys == s.nodes.Keys
    ensures forall c | c in s.nodes ::
      Broadcast(s.nodes, r)[c] ==
        if s.nodes[c].guid == Some(r.related.writer)
        then s.nodes[c].(inbox := s.nodes[c].inbox + [r]) else s.nodes[c]
  {
    forall c | c in s.nodes && s.nodes[c].guid.Some?
      ensures CorrelationIdFilter.Accepts(s.nodes[c].guid.value, r.related.writer) <==>
              s.nodes[c].guid == Some(r.related.writer)
    {
      CorrelationIdFilter.Isolation(s.nodes[c].guid.value, r.related.writer);
    }
  }

  /** What answering does: the records and the request sets, and at each node that owns
      the query's writer one more reply in the reader. */
  ghost predicate AnswerEffect(s: System, t: System, p: nat, answer: int) {
    && p in s.pending && p in s.requests && s.requests[p] in s.records
    && var id := s.requests[p];
    && t == s.(nodes := t.nodes, pending := s.pending - {p}, answered := s.answered[p := answer],
               records := s.records[id := s.records[id].(
                 replies := s.records[id].replies + [answer], via := Some(p))])
    && t.nodes.Keys == s.nodes.Keys
    && forall c | c in s.nodes :: NodeAnswered(s, t, c, Reply(id, answer))
  }

  ghost predicate NodeAnswered(s: System, t: System, c: nat, r: Reply)
    requires c in s.nodes && c in t.nodes
  {
    t.nodes[c] ==
      if s.nodes[c].guid == Some(r.related.writer)
      then s.nodes[c].(inbox := s.nodes[c].inbox + [r]) else s.nodes[c]
  }

  lemma AnswerHasEffect(s: System, p: nat, answer: int)
    requires Enabled(s, Answer(p, answer)) && s.requests[p] in s.records
    requires forall c :: NodeAt(s, c)
    ensures AnswerEffect(s, AfterAnswer(s, p, answer), p, answer)
  {
    ReplyReaches(s, Reply(s.requests[p], answer));
  }

  lemma AnswerNode(s: System, t: System, p: nat, answer: int, d: nat)
    requires AnswerEffect(s, t, p, answer) && RequestAt(s, p) && IdAt(s, s.requests[p]) && NodeAt(s, d)
    ensures NodeAt(t, d)
  {
    if d in s.nodes {
      var id, inbox := s.requests[p], s.nodes[d].inbox;
      assert NodeAnswered(s, t, d, Reply(id, answer));
      forall i | 0 <= i < |inbox| ensures inbox[i].related != id {
        assert inbox[i] in inbox && ReplyOk(s.nodes[d], inbox[i], s.records);
      }
      forall r | r in t.nodes[d].inbox ensures ReplyOk(t.nodes[d], r, t.records) {
        assert r in inbox || r == Reply(id, answer);
      }
    }
  }

  lemma AnswerId(s: System, t: System, p: nat, answer: int, i: CorrelationId)
    requires AnswerEffect(s, t, p, answer) && RequestAt(s, p) && IdAt(s, i)
    requires i == s.requests[p] || (i in s.records && s.records[i].via.Some? ==> RequestAt(s, s.records[i].via.value))
    ensures IdAt(t, i)
  {
    if i in s.records {
      assert NodeAnswered(s, t, s.owner[i.writer], Reply(s.requests[p], answer));
      assert [] + [answer] == [answer];
    }
  }

  lemma AnswerCall(s: System, t: System, p: nat, answer: int, k: nat)
    requires AnswerEffect(s, t, p, answer) && CallAt(s, k)
    ensures CallAt(t, k)
  {
    if k in s.calls { assert NodeAnswered(s, t, s.calls[k].client, Reply(s.requests[p], answer)); }
  }

  lemma AnswerKeepsInv(s: System, p: nat, answer: int)
    requires Inv(s) && Enabled(s, Answer(p, answer))
    ensures Inv(Next(s, Answer(p, answer)))
  {
    var t := Next(s, Answer(p, answer));
    assert RequestAt(s, p) && IdAt(s, s.requests[p]);
    AnswerHasEffect(s, p, answer);
    forall d ensures NodeAt(t, d) { assert NodeAt(s, d); AnswerNode(s, t, p, answer, d); }
    forall i ensures IdAt(t, i) {
      assert IdAt(s, i);
      if i in s.records && s.records[i].via.Some? { assert RequestAt(s, s.records[i].via.value); }
      AnswerId(s, t, p, answer, i);
    }
    forall k ensures CallAt(t, k) { assert CallAt(s, k); AnswerCall(s, t, p, answer, k); }
    forall k, l ensures CallsDiffer(t, k, l) { assert CallsDiffer(s, k, l); }
    forall q ensures RequestAt(t, q) { assert RequestAt(s, q) && RequestsDiffer(s, p, q); }
    forall q, r ensures RequestsDiffer(t, q, r) { assert RequestsDiffer(s, q, r); }
  }

  // ----- Receiving -------------------------------------------------------------

  /** Handing out the answer of a query that no call uses any more. */
  lemma ReturnedKeepsInv(s: System, c: nat, id: CorrelationId)
    requires Inv(s) && c in s.nodes && Unused(s, id) && id in s.nodes[c].cells
    requires s.nodes[c].cells[id].hasAnswer && RecordOf(s, id).oks == []
    ensures Inv(Returned(s, c, id))
  {
    var t := Returned(s, c, id);
    assert NodeAt(s, c) && IdAt(s, id);
    forall d ensures NodeAt(t, d) { assert NodeAt(s, d); }
    forall i ensures IdAt(t, i) { assert IdAt(s, i); }
    forall k ensures CallAt(t, k) { assert CallAt(s, k); }
    forall k, l ensures CallsDiffer(t, k, l) { assert CallsDiffer(s, k, l); }
    forall q ensures RequestAt(t, q) { assert RequestAt(s, q); }
    forall q, r ensures RequestsDiffer(t, q, r) { assert RequestsDiffer(s, q, r); }
  }

  /** Dropping calls or changing what one has been woken by. */
  lemma CallsOnlyKeepsInv(s: System, calls: map<nat, Call>)
    requires Inv(s)
    requires forall k :: CallAt(s.(calls := calls), k)
    requires forall k, l :: CallsDiffer(s.(calls := calls), k, l)
    ensures Inv(s.(calls := calls))
  {
    var t := s.(calls := calls);
    forall d ensures NodeAt(t, d) { assert NodeAt(s, d); }
    forall i ensures IdAt(t, i) { assert IdAt(s, i); }
    forall q ensures RequestAt(t, q) { assert RequestAt(s, q); }
    forall q, r ensures RequestsDiffer(t, q, r) { assert RequestsDiffer(s, q, r); }
  }

  lemma CallStepKeepsInv(s: System, step: Step)
    requires Inv(s) && Enabled(s, step) && (step.EnterWait? || step.Wake?)
    ensures Inv(Next(s, step))
  {
    var t := Next(s, step);
    if step.EnterWait? { assert NodeAt(s, step.c) && IdAt(s, step.id); }
    forall k ensures CallAt(t, k) {
      assert CallAt(s, k);
      if step.Wake? && ResultCond in step.active {
        var i :| 0 <= i < |step.active| && step.active[i] == ResultCond;
        assert Holds(s, s.calls[step.t], step.active[i]);
      }
    }
    forall k, l ensures CallsDiffer(t, k, l) { assert CallsDiffer(s, k, l); }
    CallsOnlyKeepsInv(s, t.calls);
  }

  lemma WithoutCallKeepsInv(s: System, t: nat)
    requires Inv(s) && t in s.calls
    ensures Inv(s.(calls := s.calls - {t}))
    ensures Unused(s.(calls := s.calls - {t}), s.calls[t].id)
  {
    var u := s.(calls := s.calls - {t});
    forall k ensures CallAt(u, k) { assert CallAt(s, k); }
    forall k, l ensures CallsDiffer(u, k, l) { assert CallsDiffer(s, k, l); }
    forall k | k in u.calls ensures u.calls[k].id != s.calls[t].id { assert CallsDiffer(s, k, t); }
    CallsOnlyKeepsInv(s, u.calls);
  }

  lemma FinishKeepsInv(s: System, t: nat)
    requires Inv(s) && Enabled(s, Finish(t))
    ensures Inv(Next(s, Finish(t)))
  {
    var call := s.calls[t];
    assert CallAt(s, t);
    WithoutCallKeepsInv(s, t);
    if CallStatus(s, call) == Ok {
      assert call.woken.value[0] == ResultCond;
      ReturnedKeepsInv(s.(calls := s.calls - {t}), call.client, call.id);
    }
  }

  lemma ReceiveKeepsInv(s: System, c: nat, id: CorrelationId)
    requires Inv(s) && Enabled(s, ReceiveOk(c, id))
    ensures Inv(Next(s, ReceiveOk(c, id)))
  {
    assert NodeAt(s, c) && IdAt(s, id);
    ReturnedKeepsInv(s, c, id);
  }

  lemma NextKeepsInv(s: System, step: Step)
    requires Inv(s) && Enabled(s, step)
    ensures Inv(Next(s, step))
  {
    match step
    case WriteRequest(c, id) => WriteRequestKeepsInv(s, c, id);
    case Answer(p, answer) => AnswerKeepsInv(s, p, answer);
    case ReceiveOk(c, id) => ReceiveKeepsInv(s, c, id);
    case Finish(t) => FinishKeepsInv(s, t);
    case EnterWait(_, _, _) => CallStepKeepsInv(s, step);
    case Wake(_, _) => CallStepKeepsInv(s, step);
    case LoseRequest(_) => ServerStepKeepsInv(s, step);
    case Arrive(_, _) => ServerStepKeepsInv(s, step);
    case Liveness(_, _) => ServerStepKeepsInv(s, step);
    case ServerDisconnect => ServerStepKeepsInv(s, step);
    case _ => ClientStepKeepsInv(s, step);
  }

  // ----- Runs -------------------------------------------------------------------

  predicate Legal(s: System, steps: seq<Step>)
    decreases |steps|
  {
    steps == [] || (Enabled(s, steps[0]) && Legal(Next(s, steps[0]), steps[1..]))
  }

  function Exec(s: System, steps: seq<Step>): System
    requires Legal(s, steps)
    decreases |steps|
  {
    if steps == [] then s else Exec(Next(s, steps[0]), steps[1..])
  }

  lemma {:induction false} RunKeepsInv(s: System, steps: seq<Step>)
    requires Inv(s) && Legal(s, steps)
    ensures Inv(Exec(s, steps))
    decreases |steps|
  {
    if steps != [] {
      NextKeepsInv(s, steps[0]);
      RunKeepsInv(Next(s, steps[0]), steps[1..]);
    }
  }

  /** In every run, a query gets at most one reply and at most one OK; the OK hands out
      exactly what the server passed to `answer` for a request object of that query. */
  lemma QueryAtMostOnce(clients: set<nat>, steps: seq<Step>, id: CorrelationId)
    requires Legal(Initial(clients), steps) && id in Exec(Initial(clients), steps).records
    ensures var s := Exec(Initial(clients), steps);
      var h := s.records[id];
      && |h.replies| <= 1 && |h.oks| <= 1
      && (h.oks != [] ==>
            exists p :: p in s.requests && s.requests[p] == id
                     && p in s.answered && h.oks == [s.answered[p]])
  {
    InitialInv(clients);
    RunKeepsInv(Initial(clients), steps);
    assert IdAt(Exec(Initial(clients), steps), id);
  }

  /** Every request the server received is pending, answered or dropped by a server
      disconnect, and only one of these; so the numbers add up. */
  lemma RequestsConserved(clients: set<nat>, steps: seq<Step>)
    requires Legal(Initial(clients), steps)
    ensures var s := Exec(Initial(clients), steps);
      |s.requests| == |s.pending| + |s.answered| + |s.dropped|
  {
    InitialInv(clients);
    RunKeepsInv(Initial(clients), steps);
    RequestsPartition(Exec(Initial(clients), steps));
  }

  lemma RequestsPartition(s: System)
    requires forall p :: RequestAt(s, p)
    ensures |s.requests| == |s.pending| + |s.answered| + |s.dropped|
  {
    assert forall p {:trigger p in s.requests} :: RequestAt(s, p);
    DisjointSizes(s.requests.Keys, s.pending, s.answered.Keys, s.dropped);
  }

  lemma DisjointSizes(all: set<nat>, a: set<nat>, b: set<nat>, c: set<nat>)
    requires forall p :: p in all <==> p in a || p in b || p in c
    requires forall p :: !(p in a && p in b) && !(p in a && p in c) && !(p in b && p in c)
    ensures |all| == |a| + |b| + |c|
  {
    assert all == a + b + c;
    assert a !! b && (a + b) !! c;
  }

  /** An answered request object is never answered again: the call says WRONGID. */
  lemma {:induction false} AnsweredOnce(s: System, steps: seq<Step>, p: nat)
    requires Inv(s) && Legal(s, steps) && p in s.answered
    ensures p in Exec(s, steps).answered && Exec(s, steps).answered[p] == s.answered[p]
    ensures forall a :: !Enabled(Exec(s, steps), Answer(p, a))
    decreases |steps|
  {
    if steps == [] {
      assert RequestAt(s, p);
    } else {
      NextKeepsInv(s, steps[0]);
      assert RequestAt(s, p);
      AnsweredOnce(Next(s, steps[0]), steps[1..], p);
    }
  }

  /** A call that waits on a query which left the cache can wake up, by its discard guard
      or by its answer. */
  lemma NoStrandedWaiter(s: System, t: nat)
    requires Inv(s) && t in s.calls && s.calls[t].woken.None?
    requires s.calls[t].client in s.nodes && s.calls[t].id !in s.nodes[s.calls[t].client].cache
    ensures Enabled(s, Wake(t, [DiscardCond])) || Enabled(s, Wake(t, [ResultCond]))
  {
    var call := s.calls[t];
    assert CallAt(s, t) && NodeAt(s, call.client) && IdAt(s, call.id);
    var n := s.nodes[call.client];
    if n.cells[call.id].discarded {
      assert forall i | 0 <= i < 1 :: Holds(s, call, [DiscardCond][i]);
    } else {
      assert forall i | 0 <= i < 1 :: Holds(s, call, [ResultCond][i]);
    }
  }

  // ----- Answers can overtake the insertion --------------------------------------

  function NodeOf(s: System, id: CorrelationId): Node {
    if id.writer in s.owner && s.owner[id.writer] in s.nodes then s.nodes[s.owner[id.writer]]
    else INITIAL_NODE
  }

  /** No answer to `id` is in the node. */
  ghost predicate NoAnswerIn(n: Node, id: CorrelationId) {
    && (forall r | r in n.inbox :: r.related != id)
    && (id in n.cells ==> !n.cells[id].hasAnswer)
  }

  /** The query was answered, but the answer is not on its way, in no cell, and was never
      returned. */
  ghost predicate AnswerGone(s: System, id: CorrelationId) {
    && id in s.records && s.records[id].via.Some? && s.records[id].oks == []
    && NoAnswerIn(NodeOf(s, id), id)
  }

  /** A taken reply reaches its query exactly if the query is in the cache at that moment:
      when it overtook the insertion of the cell, or the entry was discarded before, the
      answer is gone. */
  lemma TakenReplyIsGoneIff(s: System, c: nat)
    requires Inv(s) && Enabled(s, Take(c))
    ensures var id := s.nodes[c].inbox[0].related;
      var n, m := s.nodes[c], Next(s, Take(c)).nodes[c];
      && (id in n.cache ==> id in m.cells && m.cells[id] == SetAnswer(CellOf(n, id), n.inbox[0].answer))
      && (AnswerGone(Next(s, Take(c)), id) <==>
            id !in n.cache)
  {
    var n := s.nodes[c];
    assert NodeAt(s, c) && n.inbox[0] in n.inbox && IdAt(s, n.inbox[0].related);
    TakenIsOnlyReply(n, s.records);
  }

  /** A run in which the reply overtakes the insertion of the cell. */
  function Overtaking(id: CorrelationId, answer: int): seq<Step> {
    [Connect(0, id.writer), WriteRequest(0, id), Liveness(id.writer, true), Arrive(0, 0),
     Answer(0, answer), Take(0), InsertRequest(0)]
  }

  /** The system before step `i` of that run. */
  function Stage(id: CorrelationId, answer: int, i: nat): System
    requires i <= 7
  {
    var joined := Node({}, map[], false, false, Some(id.writer), [], None);
    var asked := joined.(writing := Some(id));
    var owner, blank := map[id.writer := 0], Record([], None, []);
    var answered := Record([answer], Some(0), []);
    if i == 0 then Initial({0})
    else if i == 1 then
      System(map[0 := joined], owner, [], map[], {}, map[], {}, {}, map[], map[])
    else if i == 2 then
      System(map[0 := asked], owner, [id], map[], {}, map[], {}, {}, map[], map[id := blank])
    else if i == 3 then
      System(map[0 := asked], owner, [id], map[], {}, map[], {}, {id.writer}, map[], map[id := blank])
    else if i == 4 then
      System(map[0 := asked], owner, [], map[0 := id], {0}, map[], {}, {id.writer}, map[], map[id := blank])
    else
      var n :=
        if i == 5 then asked.(inbox := [Reply(id, answer)])
        else if i == 6 then asked
        else joined.(cache := {id}, cells := map[id := NEW_TRIGGER]);
      System(map[0 := n], owner, [], map[0 := id], {}, map[0 := answer], {}, {id.writer}, map[],
             map[id := answered])
  }

  lemma EarlyStage(id: CorrelationId, answer: int, i: nat)
    requires i < 4
    ensures var s, step := Stage(id, answer, i), Overtaking(id, answer)[i];
      Enabled(s, step) && Next(s, step) == Stage(id, answer, i + 1)
  {
    if i == 3 {
      assert RemoveAt([id], 0) == [];
      assert {} + {0} == {0};
    } else if i == 2 {
      assert {} + {id.writer} == {id.writer};
    } else {
      assert [] + [id] == [id];
    }
  }

  lemma AnswerStage(id: CorrelationId, answer: int)
    ensures AfterAnswer(Stage(id, answer, 4), 0, answer) == Stage(id, answer, 5)
  {
    CorrelationIdFilter.Isolation(id.writer, id.writer);
    assert [] + [Reply(id, answer)] == [Reply(id, answer)];
    assert [] + [answer] == [answer];
    assert {0} - {0} == {};
  }

  lemma LateStage(id: CorrelationId, answer: int, i: nat)
    requires 4 <= i < 7
    ensures var s, step := Stage(id, answer, i), Overtaking(id, answer)[i];
      Enabled(s, step) && Next(s, step) == Stage(id, answer, i + 1)
  {
    if i == 4 {
      AnswerStage(id, answer);
    } else if i == 5 {
      assert [Reply(id, answer)][1..] == [];
    } else {
      assert {} + {id} == {id};
    }
  }

  lemma {:induction false} FromStage(id: CorrelationId, answer: int, i: nat)
    requires i <= 7
    ensures Legal(Stage(id, answer, i), Overtaking(id, answer)[i..])
    ensures Exec(Stage(id, answer, i), Overtaking(id, answer)[i..]) == Stage(id, answer, 7)
    decreases 7 - i
  {
    var steps := Overtaking(id, answer);
    if i < 7 {
      if i < 4 { EarlyStage(id, answer, i); } else { LateStage(id, answer, i); }
      FromStage(id, answer, i + 1);
      assert steps[i..][1..] == steps[i + 1..];
    }
  }

  /** Such a run is possible for every query id and answer, with nothing lost on the way. */
  lemma OvertakenAnswerIsGone(id: CorrelationId, answer: int)
    ensures Legal(Initial({0}), Overtaking(id, answer))
    ensures AnswerGone(Exec(Initial({0}), Overtaking(id, answer)), id)
  {
    FromStage(id, answer, 0);
    assert Overtaking(id, answer)[0..] == Overtaking(id, answer);
  }

  /** A step at one client changes only the queries made there. */
  lemma NodeOfAfter(s: System, step: Step, id: CorrelationId)
    requires Enabled(s, step) && AtClient(step) && id.writer in s.owner && s.owner[id.writer] in s.nodes
    ensures NodeOf(Next(s, step), id) ==
      if s.owner[id.writer] == step.c then NodeAfter(NodeOf(s, id), step) else NodeOf(s, id)
    ensures Next(s, step).records == s.records
  {
  }

  lemma NoAnswerStays(n: Node, step: Step, id: CorrelationId)
    requires AtClient(step) && NodeEnabled(n, step) && Distinct(n.inbox) && NoAnswerIn(n, id)
    ensures NoAnswerIn(NodeAfter(n, step), id)
  {
    if step.LoseReply? { RemoveAtMembers(n.inbox, step.k); }
    if step.Take? { assert n.inbox[0] in n.inbox; }
  }

  lemma GoneKeptByClient(s: System, step: Step, id: CorrelationId)
    requires Enabled(s, step) && AtClient(step) && AnswerGone(s, id)
    requires NodeAt(s, step.c) && IdAt(s, id)
    ensures AnswerGone(Next(s, step), id)
  {
    NodeOfAfter(s, step, id);
    if s.owner[id.writer] == step.c { NoAnswerStays(s.nodes[step.c], step, id); }
  }

  lemma GoneKeptByAnswer(s: System, p: nat, answer: int, id: CorrelationId)
    requires Inv(s) && Enabled(s, Answer(p, answer)) && AnswerGone(s, id)
    ensures AnswerGone(Next(s, Answer(p, answer)), id)
  {
    assert RequestAt(s, p) && IdAt(s, id);
    ReplyReaches(s, Reply(s.requests[p], answer));
  }

  lemma GoneKeptByReturn(s: System, step: Step, id: CorrelationId)
    requires Inv(s) && Enabled(s, step) && (step.Finish? || step.ReceiveOk?) && AnswerGone(s, id)
    ensures AnswerGone(Next(s, step), id)
  {
    assert IdAt(s, id);
    if step.Finish? {
      assert CallAt(s, step.t) && NodeAt(s, s.calls[step.t].client);
    } else {
      assert NodeAt(s, step.c);
    }
  }

  lemma GoneKept(s: System, step: Step, id: CorrelationId)
    requires Inv(s) && Enabled(s, step) && AnswerGone(s, id)
    ensures AnswerGone(Next(s, step), id)
  {
    assert IdAt(s, id);
    if AtClient(step) {
      assert NodeAt(s, step.c);
      GoneKeptByClient(s, step, id);
    } else if step.Answer? {
      GoneKeptByAnswer(s, step.p, step.answer, id);
    } else if step.Finish? || step.ReceiveOk? {
      GoneKeptByReturn(s, step, id);
    } else if step.WriteRequest? {
      assert NodeAt(s, step.c);
    }
  }

  /** "No answer is ever lost" does not hold: once an answer is gone, no continuation ever
      completes its query with OK, and no receive is ever released by a result. */
  lemma {:induction false} GoneAnswerNeverComes(s: System, steps: seq<Step>, id: CorrelationId)
    requires Inv(s) && Legal(s, steps) && AnswerGone(s, id)
    ensures AnswerGone(Exec(s, steps), id)
    ensures forall t, active | t in Exec(s, steps).calls && Exec(s, steps).calls[t].id == id
      && Enabled(Exec(s, steps), Wake(t, active)) :: ResultCond !in active
    decreases |steps|
  {
    if steps == [] {
      assert IdAt(s, id);
      forall t, active | t in s.calls && s.calls[t].id == id && Enabled(s, Wake(t, active))
        ensures ResultCond !in active
      {
        assert CallAt(s, t) && NodeAt(s, s.calls[t].client);
        assert !Holds(s, s.calls[t], ResultCond);
        forall i | 0 <= i < |active| ensures active[i] != ResultCond {
          assert Holds(s, s.calls[t], active[i]);
        }
      }
    } else {
      NextKeepsInv(s, steps[0]);
      GoneKept(s, steps[0], id);
      GoneAnswerNeverComes(Next(s, steps[0]), steps[1..], id);
    }
  }
}
