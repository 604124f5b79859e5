/** That the query protocol delivers: requests reach the server, its answer reaches the cell
    of its query, and whoever receives or waits there gets it. */
module QueryDelivery {
  import opened Common
  import opened ConnectionId
  import opened CorrelationIds
  import opened QueryClient
  import opened QueryServer
  import opened QuerySystem
  import opened QueryTheorems

  // ----- The way of a request and its answer ---------------------------------------

  /** A request that arrives is pending under its own id; no other request changes. */
  lemma ArrivedIsPending(s: System, k: nat, p: nat)
    requires Enabled(s, Arrive(k, p))
    ensures
      var u := Next(s, Arrive(k, p));
      && p in u.pending && p in u.requests && u.requests[p] == s.up[k] && u.up == RemoveAt(s.up, k)
      && (forall q | q != p :: (q in u.pending <==> q in s.pending) && (q in u.requests <==> q in s.requests))
  {
  }

  /** A written request is in the channel, and once it arrives the server holds it pending
      under its own id. */
  lemma RequestIsSent(s: System, c: nat, id: CorrelationId, p: nat)
    requires Enabled(s, WriteRequest(c, id)) && p !in s.requests
    ensures
      var t := AfterWriteRequest(s, c, id);
      && t.up == s.up + [id] && id in t.records
      && Enabled(t, Arrive(|s.up|, p))
      && var u := Next(t, Arrive(|s.up|, p));
      p in u.pending && p in u.requests && u.requests[p] == id && u.up == s.up
  {
    var t := AfterWriteRequest(s, c, id);
    ArrivedIsPending(t, |s.up|, p);
  }

  /** An answer to a pending request of a live client goes to the connection that made the
      request and to no other, and the request is no longer pending. */
  lemma AnswerIsSent(s: System, p: nat, answer: int)
    requires Inv(s) && p in s.pending && p in s.requests
    ensures Enabled(s, Answer(p, answer)) <==> s.requests[p].writer in s.live
    ensures Enabled(s, Answer(p, answer)) ==>
      var t, id := AfterAnswer(s, p, answer), s.requests[p];
      && p !in t.pending && p in t.answered && t.answered[p] == answer
      && (forall q | q != p :: (q in t.pending <==> q in s.pending) && (q in t.answered <==> q in s.answered))
      && t.nodes.Keys == s.nodes.Keys
      && (forall c | c in s.nodes ::
            t.nodes[c] ==
              if s.nodes[c].guid == Some(id.writer)
              then s.nodes[c].(inbox := s.nodes[c].inbox + [Reply(id, answer)]) else s.nodes[c])
  {
    if Enabled(s, Answer(p, answer)) { ReplyReaches(s, Reply(s.requests[p], answer)); }
  }

  /** A client counts as live from its arrival to its departure. */
  lemma LivenessFollows(s: System, g: Guid, alive: bool)
    ensures var t := Next(s, Liveness(g, alive));
      && (g in t.live <==> alive)
      && (forall h | h != g :: h in t.live <==> h in s.live)
  {
  }

  /** A request that was dropped is never answered, in any continuation. */
  lemma {:induction false} DroppedStays(s: System, steps: seq<Step>, p: nat)
    requires Inv(s) && Legal(s, steps) && p in s.dropped
    ensures p in Exec(s, steps).dropped && p !in Exec(s, steps).answered
    ensures forall answer :: !Enabled(Exec(s, steps), Answer(p, answer))
    decreases |steps|
  {
    assert RequestAt(s, p);
    if steps != [] {
      NextKeepsInv(s, steps[0]);
      DroppedStays(Next(s, steps[0]), steps[1..], p);
    }
  }

  /** A disconnect by the server drops every pending request for good, and no client
      counts as live. */
  lemma ServerDisconnectDrops(s: System, steps: seq<Step>, p: nat)
    requires Inv(s) && p in s.pending && Legal(Next(s, ServerDisconnect), steps)
    ensures var t := Next(s, ServerDisconnect);
      t.pending == {} && t.live == {} && t.answered == s.answered
    ensures p !in Exec(Next(s, ServerDisconnect), steps).answered
    ensures forall answer :: !Enabled(Exec(Next(s, ServerDisconnect), steps), Answer(p, answer))
  {
    NextKeepsInv(s, ServerDisconnect);
    DroppedStays(Next(s, ServerDisconnect), steps, p);
  }

  /** A taken reply is the answer in the cell of its query, if that is cached; no other
      cell changes. */
  lemma TakenAnswer(s: System, c: nat)
    requires Inv(s) && Enabled(s, Take(c))
    ensures
      var n, m, r := s.nodes[c], NodeAfter(s.nodes[c], Take(c)), s.nodes[c].inbox[0];
      && m.cells.Keys == n.cells.Keys && m.cache == n.cache && m.inbox == n.inbox[1..]
      && (forall id | id in n.cells ::
            if id == r.related && id in n.cache
            then m.cells[id].hasAnswer && m.cells[id].answer == r.answer
                 && m.cells[id].discarded == n.cells[id].discarded
            else m.cells[id] == n.cells[id])
  {
    assert NodeAt(s, c);
  }

  // ----- Receiving ---------------------------------------------------------------------

  /** What the server answered to the query of this id. */
  ghost predicate Answered(s: System, id: CorrelationId, answer: int) {
    && id in s.records && s.records[id].via.Some?
    && s.records[id].via.value in s.answered && s.answered[s.records[id].via.value] == answer
  }

  /** queryReceive answers DISCONNECTED, WRONGID, NODATA or OK, each exactly in its case;
      and OK hands out what the server answered and drops the entry. */
  lemma ReceiveDelivers(s: System, c: nat, id: CorrelationId)
    requires Inv(s) && c in s.nodes && Unused(s, id)
    ensures
      var n := s.nodes[c];
      var status := ReceiveStatus(n.disconnected, CachedCell(n, id));
      && (status == Disconnected <==> n.disconnected)
      && (status == WrongId <==> !n.disconnected && id !in n.cache)
      && (status == NoData <==> !n.disconnected && id in n.cache && !CellOf(n, id).hasAnswer)
      && (status == Ok <==> !n.disconnected && id in n.cache && CellOf(n, id).hasAnswer)
      && (Enabled(s, ReceiveOk(c, id)) <==> !n.disconnected && id in n.cache && CellOf(n, id).hasAnswer)
    ensures Enabled(s, ReceiveOk(c, id)) ==>
      var t := Returned(s, c, id);
      && Answered(s, id, CellOf(s.nodes[c], id).answer)
      && t.records[id].oks == [CellOf(s.nodes[c], id).answer] && id !in t.nodes[c].cache
  {
    assert NodeAt(s, c) && IdAt(s, id);
  }

  /** A queryReceiveWait call waits exactly if the client is connected and the query is
      pending; otherwise it says DISCONNECTED or WRONGID. */
  lemma WaitsIff(s: System, t: nat, c: nat, id: CorrelationId)
    requires Inv(s) && c in s.nodes && t !in s.calls && Unused(s, id)
    ensures
      var n := s.nodes[c];
      && (Enabled(s, EnterWait(t, c, id)) <==> !n.disconnected && id in n.cache)
      && (!Enabled(s, EnterWait(t, c, id)) ==>
            WaitEntry(n.disconnected, CachedCell(n, id)) ==
              Some(if n.disconnected then Disconnected else WrongId))
    ensures Enabled(s, EnterWait(t, c, id)) ==>
      var u := Next(s, EnterWait(t, c, id));
      && t in u.calls && u.calls[t].client == c && u.calls[t].id == id && u.calls[t].woken.None?
  {
  }

  /** What a woken call returns: TIMEOUT when nothing was active, else by the first active
      condition. */
  lemma WokenStatus(s: System, call: Call)
    requires call.client in s.nodes && call.woken.Some?
    ensures
      var active, disconnected := call.woken.value, s.nodes[call.client].disconnected;
      && (active == [] ==> CallStatus(s, call) == Timeout)
      && (active != [] && active[0] == DisconnectedCond ==> CallStatus(s, call) == Disconnected)
      && (active != [] && active[0] == NonblockingCond ==> CallStatus(s, call) == Cancelled)
      && (active != [] && active[0] == DiscardCond ==>
            CallStatus(s, call) == if disconnected then Disconnected else Cancelled)
      && (active != [] && active[0] == ResultCond ==> CallStatus(s, call) == Ok)
  {
  }

  lemma OneCondition(s: System, t: nat, cond: Cond)
    requires t in s.calls && s.calls[t].woken.None? && s.calls[t].client in s.nodes
    ensures Enabled(s, Wake(t, [cond])) <==> Holds(s, s.calls[t], cond)
  {
    assert [cond][0] == cond;
    if Enabled(s, Wake(t, [cond])) { assert Holds(s, s.calls[t], [cond][0]); }
  }

  // ----- Waiting -------------------------------------------------------------------------

  lemma StillWoken(s: System, step: Step, t: nat)
    requires Enabled(s, step) && step != Finish(t) && t in s.calls && s.calls[t].woken.Some?
    ensures t in Next(s, step).calls && Next(s, step).calls[t] == s.calls[t]
  {
  }

  lemma {:induction false} WaitsForTurn(s: System, steps: seq<Step>, t: nat)
    requires Inv(s) && Legal(s, steps) && t in s.calls && s.calls[t].woken.Some? && Finish(t) !in steps
    ensures t in Exec(s, steps).calls && Exec(s, steps).calls[t] == s.calls[t]
    decreases |steps|
  {
    if steps != [] {
      assert steps[0] in steps;
      StillWoken(s, steps[0], t);
      NextKeepsInv(s, steps[0]);
      WaitsForTurn(Next(s, steps[0]), steps[1..], t);
    }
  }

  /** A call that was released by the result returns OK with the server's answer. */
  lemma ReleasedGetsAnswer(w: System, t: nat)
    requires Inv(w) && t in w.calls && w.calls[t].woken == Some([ResultCond])
    ensures
      var call := w.calls[t];
      && Enabled(w, Finish(t)) && CallStatus(w, call) == Ok
      && Answered(w, call.id, CellOf(w.nodes[call.client], call.id).answer)
      && AfterFinish(w, t).records[call.id].oks == [CellOf(w.nodes[call.client], call.id).answer]
      && call.id !in AfterFinish(w, t).nodes[call.client].cache && t !in AfterFinish(w, t).calls
  {
    var call := w.calls[t];
    assert call.woken.value[0] == ResultCond;
    assert CallAt(w, t) && NodeAt(w, call.client) && IdAt(w, call.id);
  }

  /** Delivery: a blocked queryReceiveWait can be woken by the result if and only if its
      cell has an answer. Whatever happens until it has the mutex again, it then returns OK,
      and what it returns, for the first and only time, is the answer the server gave. */
  lemma WaiterGetsAnswer(s: System, t: nat, steps: seq<Step>)
    requires Inv(s) && t in s.calls && s.calls[t].woken.None?
    ensures s.calls[t].client in s.nodes
    ensures Enabled(s, Wake(t, [ResultCond])) <==> CellOf(s.nodes[s.calls[t].client], s.calls[t].id).hasAnswer
    ensures Enabled(s, Wake(t, [ResultCond])) ==>
      var released, id := Next(s, Wake(t, [ResultCond])), s.calls[t].id;
      Legal(released, steps) && Finish(t) !in steps ==>
        var w := Exec(released, steps);
        && Enabled(w, Finish(t)) && CallStatus(w, w.calls[t]) == Ok
        && id in AfterFinish(w, t).records
        && exists answer :: Answered(w, id, answer) && AfterFinish(w, t).records[id].oks == [answer]
  {
    assert CallAt(s, t);
    OneCondition(s, t, ResultCond);
    if Enabled(s, Wake(t, [ResultCond])) {
      var released := Next(s, Wake(t, [ResultCond]));
      NextKeepsInv(s, Wake(t, [ResultCond]));
      if Legal(released, steps) && Finish(t) !in steps {
        WaitsForTurn(released, steps, t);
        RunKeepsInv(released, steps);
        ReleasedGetsAnswer(Exec(released, steps), t);
      }
    }
  }

  /** When the server's last writer goes, every blocked call of the client can wake up by
      the disconnected guard and then returns DISCONNECTED; when one comes back, none can. */
  lemma LivelinessReleasesIff(s: System, c: nat, disconnected: bool, t: nat)
    requires Inv(s) && Enabled(s, Guard(c, disconnected))
    requires t in s.calls && s.calls[t].client == c && s.calls[t].woken.None?
    ensures
      var u, wake := Next(s, Guard(c, disconnected)), Wake(t, [DisconnectedCond]);
      && (Enabled(u, wake) <==> disconnected)
      && (disconnected ==> CallStatus(Next(u, wake), Next(u, wake).calls[t]) == Disconnected)
  {
    assert CallAt(s, t);
    OneCondition(Next(s, Guard(c, disconnected)), t, DisconnectedCond);
  }

  /** Without its endpoints a client takes no reply, can write no request, and no answer
      is sent to it. */
  lemma WithoutEndpoints(s: System, c: nat, p: nat, answer: int)
    requires Inv(s) && Enabled(s, ResetEndpoints(c))
    ensures
      var u := Next(s, ResetEndpoints(c));
      && !Enabled(u, Take(c)) && (forall id :: !Enabled(u, WriteRequest(c, id)))
      && (Enabled(u, Answer(p, answer)) ==> AfterAnswer(u, p, answer).nodes[c].inbox == [])
      && u.nodes[c].disconnected
  {
    NextKeepsInv(s, ResetEndpoints(c));
    var u := Next(s, ResetEndpoints(c));
    if Enabled(u, Answer(p, answer)) { AnswerIsSent(u, p, answer); }
  }

  /** Disconnecting discards every pending query: a call that waits on one can wake up by
      its discard guard or by the disconnected guard, and then returns DISCONNECTED. */
  lemma DisconnectReleases(s: System, c: nat, t: nat)
    requires Inv(s) && Enabled(s, DiscardAll(c)) && t in s.calls && s.calls[t].woken.None?
    requires s.calls[t].client == c && s.calls[t].id in s.nodes[c].cache
    ensures
      var u := Next(s, DiscardAll(c));
      && Enabled(u, Wake(t, [DiscardCond])) && Enabled(u, Wake(t, [DisconnectedCond]))
      && (forall cond | cond == DiscardCond || cond == DisconnectedCond ::
            CallStatus(u, u.calls[t].(woken := Some([cond]))) == Disconnected)
      && u.nodes[c].cache == {}
  {
    assert NodeAt(s, c) && CallAt(s, t);
    var u := Next(s, DiscardAll(c));
    OneCondition(u, t, DiscardCond);
    OneCondition(u, t, DisconnectedCond);
  }
}
