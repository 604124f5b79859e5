/** Every step of the event system keeps its invariant. */
module EventProofs {
  import opened Common
  import opened ConnectionId
  import CorrelationIdFilter
  import opened CorrelationIds
  import opened EventClient
  import opened EventResults
  import opened EventServer
  import opened EventSystem
  import opened Subsequence

  // ----- Counting and pending events ------------------------------------------

  lemma {:induction false} PendingAppend(inbox: seq<EventSample>, e: EventSample, id: CorrelationId)
    ensures Pending(inbox + [e], id) == Pending(inbox, id) + if e.related == id then [e.event] else []
  {
    assert Front(inbox + [e]) == inbox;
  }

  lemma {:induction false} PendingConcat(a: seq<EventSample>, b: seq<EventSample>, id: CorrelationId)
    ensures Pending(a + b, id) == Pending(a, id) + Pending(b, id)
    decreases |b|
  {
    if b == [] {
      assert a + b == a;
    } else {
      assert Front(a + b) == a + Front(b);
      PendingConcat(a, Front(b), id);
    }
  }

  /** Taking sample `k` out of the reader leaves out at most one pending event. */
  lemma PendingRemove(inbox: seq<EventSample>, k: nat, id: CorrelationId)
    requires k < |inbox|
    ensures
      var before, after := Pending(inbox[..k], id), Pending(inbox[k + 1..], id);
      && Pending(RemoveAt(inbox, k), id) == before + after
      && Pending(inbox, id) == before + (if inbox[k].related == id then [inbox[k].event] else []) + after
  {
    PendingConcat(inbox[..k], inbox[k + 1..], id);
    assert inbox == (inbox[..k] + [inbox[k]]) + inbox[k + 1..];
    PendingConcat(inbox[..k] + [inbox[k]], inbox[k + 1..], id);
    PendingAppend(inbox[..k], inbox[k], id);
  }

  lemma {:induction false} UpConcat(a: seq<ActivationSample>, b: seq<ActivationSample>, id: CorrelationId)
    ensures UpCount(a + b, id) == UpCount(a, id) + UpCount(b, id)
  {
    if a == [] {
      assert a + b == b;
    } else {
      assert (a + b)[1..] == a[1..] + b;
      UpConcat(a[1..], b, id);
    }
  }

  lemma UpOne(u: ActivationSample, id: CorrelationId)
    ensures UpCount([u], id) == if IsActivation(u) && u.id == id then 1 else 0
  {
    assert [u][1..] == [];
  }

  lemma UpRemove(up: seq<ActivationSample>, k: nat, id: CorrelationId)
    requires k < |up|
    ensures UpCount(up, id) ==
      UpCount(RemoveAt(up, k), id) + if IsActivation(up[k]) && up[k].id == id then 1 else 0
  {
    UpConcat(up[..k], up[k + 1..], id);
    assert up == (up[..k] + [up[k]]) + up[k + 1..];
    UpConcat(up[..k] + [up[k]], up[k + 1..], id);
    UpConcat(up[..k], [up[k]], id);
    UpOne(up[k], id);
  }

  lemma {:induction false} UpZero(up: seq<ActivationSample>, id: CorrelationId)
    requires forall u | u in up :: IsActivation(u) ==> u.id != id
    ensures UpCount(up, id) == 0
  {
    if up != [] { UpZero(up[1..], id); }
  }

  lemma {:induction false} UnfiredConcat(a: seq<Activation>, b: seq<Activation>, id: CorrelationId)
    ensures Unfired(a + b, id) == Unfired(a, id) + Unfired(b, id)
  {
    if a == [] {
      assert a + b == b;
    } else {
      assert (a + b)[1..] == a[1..] + b;
      UnfiredConcat(a[1..], b, id);
    }
  }

  lemma UnfiredOne(a: Activation, id: CorrelationId)
    ensures Unfired([a], id) == if a.id == id && !a.fired then 1 else 0
  {
    assert [a][1..] == [];
  }

  lemma {:induction false} UnfiredZero(server: seq<Activation>, id: CorrelationId)
    requires forall a | a in server :: a.id != id
    ensures Unfired(server, id) == 0
  {
    if server != [] { UnfiredZero(server[1..], id); }
  }

  lemma {:induction false} UnfiredErase(server: seq<Activation>, gone: CorrelationId, id: CorrelationId)
    ensures Unfired(EraseFirst(server, gone), id) <= Unfired(server, id)
    ensures forall a | a in EraseFirst(server, gone) :: a in server
  {
    if server != [] && server[0].id != gone {
      UnfiredErase(server[1..], gone, id);
      var rest := EraseFirst(server[1..], gone);
      assert ([server[0]] + rest)[1..] == rest;
    }
  }

  /** Replacing one entry by one with the same id. */
  lemma UnfiredUpdate(server: seq<Activation>, i: nat, b: Activation, id: CorrelationId)
    requires i < |server| && b.id == server[i].id
    ensures Unfired(server[i := b], id) ==
      Unfired(server, id) + (if b.id == id && !b.fired then 1 else 0)
                          - (if b.id == id && !server[i].fired then 1 else 0)
  {
    var a := server[i];
    assert server == (server[..i] + [a]) + server[i + 1..];
    assert server[i := b] == (server[..i] + [b]) + server[i + 1..];
    UnfiredConcat(server[..i] + [a], server[i + 1..], id);
    UnfiredConcat(server[..i] + [b], server[i + 1..], id);
    UnfiredConcat(server[..i], [a], id);
    UnfiredConcat(server[..i], [b], id);
    UnfiredOne(a, id);
    UnfiredOne(b, id);
  }

  /** An entry whose test came out true leaves the count; any other stays as it was. */
  lemma UnfiredTested(server: seq<Activation>, i: nat, result: Tested, id: CorrelationId)
    requires i < |server|
    ensures Unfired(server[i := AfterTest(server[i], result)], id) ==
      Unfired(server, id) - if server[i].id == id && !server[i].fired && result.event.Some? then 1 else 0
  {
    UnfiredUpdate(server, i, AfterTest(server[i], result), id);
  }

  // ----- The activation channel -------------------------------------------------

  lemma {:induction false} EntriesConcat(a: seq<Activation>, b: seq<Activation>, id: CorrelationId)
    ensures Entries(a + b, id) == Entries(a, id) + Entries(b, id)
  {
    if a == [] {
      assert a + b == b;
    } else {
      assert (a + b)[1..] == a[1..] + b;
      EntriesConcat(a[1..], b, id);
    }
  }

  lemma {:induction false} EntriesPositive(server: seq<Activation>, id: CorrelationId)
    ensures Entries(server, id) > 0 <==> exists a :: a in server && a.id == id
  {
    if server != [] {
      EntriesPositive(server[1..], id);
      assert server == [server[0]] + server[1..];
    }
  }

  lemma {:induction false} EntriesErase(server: seq<Activation>, gone: CorrelationId, id: CorrelationId)
    ensures Entries(EraseFirst(server, gone), id) ==
      Entries(server, id) - if id == gone && Entries(server, id) > 0 then 1 else 0
  {
    if server != [] && server[0].id != gone {
      EntriesErase(server[1..], gone, id);
      var rest := EraseFirst(server[1..], gone);
      assert ([server[0]] + rest)[1..] == rest;
    }
  }

  lemma EntriesUpdate(server: seq<Activation>, i: nat, b: Activation, id: CorrelationId)
    requires i < |server| && b.id == server[i].id
    ensures Entries(server[i := b], id) == Entries(server, id)
  {
    var a := server[i];
    assert server == (server[..i] + [a]) + server[i + 1..];
    assert server[i := b] == (server[..i] + [b]) + server[i + 1..];
    EntriesConcat(server[..i] + [a], server[i + 1..], id);
    EntriesConcat(server[..i] + [b], server[i + 1..], id);
    EntriesConcat(server[..i], [a], id);
    EntriesConcat(server[..i], [b], id);
    assert [a][1..] == [] && [b][1..] == [];
  }

  /** An activation joins the channel under an id that nothing there refers to. */
  lemma ChannelActivates(up: seq<ActivationSample>, server: seq<Activation>, u: ActivationSample)
    requires ChannelOk(up, server) && IsActivation(u)
    requires forall v | v in up :: !(IsActivation(v) && v.id == u.id) && !IsDeactivationOf(v, u.id)
    requires forall a | a in server :: a.id != u.id
    ensures ChannelOk(up + [u], server)
  {
    forall id ensures SoleCopy(up + [u], server, id) {
      assert SoleCopy(up, server, id);
      UpConcat(up, [u], id);
      UpOne(u, id);
      if id == u.id {
        UpZero(up, id);
        EntriesPositive(server, id);
      }
    }
  }

  lemma ChannelDeactivates(up: seq<ActivationSample>, server: seq<Activation>, u: ActivationSample)
    requires ChannelOk(up, server) && !IsActivation(u)
    ensures ChannelOk(up + [u], server)
  {
    forall id ensures SoleCopy(up + [u], server, id) {
      assert SoleCopy(up, server, id);
      UpConcat(up, [u], id);
      UpOne(u, id);
    }
  }

  lemma OrderLoses(up: seq<ActivationSample>, k: nat, i: nat, j: nat)
    requires k < |up| && i < j < |RemoveAt(up, k)|
    requires forall i, j | 0 <= i < j < |up| && IsActivation(up[j]) :: !IsDeactivationOf(up[i], up[j].id)
    requires IsActivation(RemoveAt(up, k)[j])
    ensures !IsDeactivationOf(RemoveAt(up, k)[i], RemoveAt(up, k)[j].id)
  {
    var p, q := if i < k then i else i + 1, if j < k then j else j + 1;
    assert RemoveAt(up, k)[i] == up[p] && RemoveAt(up, k)[j] == up[q];
  }

  lemma ChannelLoses(up: seq<ActivationSample>, server: seq<Activation>, k: nat)
    requires ChannelOk(up, server) && k < |up|
    ensures ChannelOk(RemoveAt(up, k), server)
  {
    forall id ensures SoleCopy(RemoveAt(up, k), server, id) {
      assert SoleCopy(up, server, id);
      UpRemove(up, k, id);
    }
    forall i: nat, j: nat | i < j < |RemoveAt(up, k)| && IsActivation(RemoveAt(up, k)[j])
      ensures !IsDeactivationOf(RemoveAt(up, k)[i], RemoveAt(up, k)[j].id)
    {
      OrderLoses(up, k, i, j);
    }
  }

  lemma ChannelReceives(up: seq<ActivationSample>, server: seq<Activation>, k: nat)
    requires ChannelOk(up, server) && k < |up|
    ensures ChannelOk(RemoveAt(up, k), Receive(server, up[k]))
  {
    var u := up[k];
    var a := Activation(u.id, u.mode, u.params, false);
    ChannelLoses(up, server, k);
    forall id ensures SoleCopy(RemoveAt(up, k), Receive(server, u), id) {
      assert SoleCopy(up, server, id) && SoleCopy(RemoveAt(up, k), server, id);
      UpRemove(up, k, id);
      EntriesErase(server, u.related, id);
      EntriesConcat(server, [a], id);
      assert [a][1..] == [];
    }
  }

  lemma ChannelMarks(up: seq<ActivationSample>, server: seq<Activation>, i: nat, b: Activation)
    requires ChannelOk(up, server) && i < |server| && b.id == server[i].id
    ensures ChannelOk(up, server[i := b])
  {
    var marked := server[i := b];
    forall id ensures SoleCopy(up, marked, id) {
      assert SoleCopy(up, server, id);
      EntriesUpdate(server, i, b, id);
    }
  }

  // ----- Steps of the client --------------------------------------------------

  lemma InitialInv(clients: set<nat>)
    ensures Inv(Initial(clients))
  {
  }

  /** What a step at client `c` leaves alone: the other nodes, their activations and
      their blocked calls. */
  ghost predicate OthersKept(s: System, t: System, c: nat) {
    && t.nodes.Keys == s.nodes.Keys && c in s.nodes && s.nextGuard <= t.nextGuard
    && (forall d | d in s.nodes && d != c :: t.nodes[d] == s.nodes[d])
    && (forall g | g in s.owner :: g in t.owner && t.owner[g] == s.owner[g])
    && (forall id | id in s.records :: id in t.records && t.records[id].mode == s.records[id].mode)
    && (forall id | id in s.records && !OwnedBy(s, id, c) ::
          t.records[id] == s.records[id] && Open(t, id) <= Open(s, id))
    && (forall id | id in t.records && id !in s.records :: OwnedBy(t, id, c))
    && (forall k | k in t.calls && t.calls[k].client != c :: k in s.calls && s.calls[k] == t.calls[k])
  }

  lemma OtherNode(s: System, t: System, c: nat, d: nat)
    requires OthersKept(s, t, c) && d != c && NodeAt(s, d)
    ensures NodeAt(t, d)
  {
  }

  lemma OtherId(s: System, t: System, c: nat, id: CorrelationId)
    requires OthersKept(s, t, c) && !OwnedBy(t, id, c) && IdAt(s, id)
    ensures IdAt(t, id)
  {
  }

  lemma OtherCall(s: System, t: System, c: nat, k: nat)
    requires OthersKept(s, t, c) && CallAt(s, k)
    requires k in t.calls && t.calls[k].client != c
    requires k in s.calls ==> NodeAt(s, s.calls[k].client)
    ensures CallAt(t, k)
  {
  }

  /** To show that a step at client `c` keeps the invariant, look at `c` only. */
  lemma Assemble(s: System, t: System, c: nat)
    requires Inv(s) && OthersKept(s, t, c)
    requires NodeAt(t, c)
    requires forall id :: OwnedBy(t, id, c) ==> IdAt(t, id)
    requires forall k :: k in t.calls && t.calls[k].client == c ==> CallAt(t, k)
    requires ServerOk(t) && ChannelOk(t.up, t.server)
    requires forall k, l :: GuardsDiffer(t.calls, k, l)
    ensures Inv(t)
  {
    forall d ensures NodeAt(t, d) {
      assert NodeAt(s, d);
      if d != c { OtherNode(s, t, c, d); }
    }
    forall id ensures IdAt(t, id) {
      assert IdAt(s, id);
      if !OwnedBy(t, id, c) { OtherId(s, t, c, id); }
    }
    forall k ensures CallAt(t, k) {
      assert CallAt(s, k);
      if k in t.calls && t.calls[k].client != c {
        assert NodeAt(s, t.calls[k].client);
        OtherCall(s, t, c, k);
      }
    }
  }

  lemma ConnectKeepsInv(s: System, c: nat, g: Guid)
    requires Inv(s) && Enabled(s, Connect(c, g))
    ensures Inv(AfterConnect(s, c, g))
  {
    var t := AfterConnect(s, c, g);
    assert NodeAt(s, c);
    forall id | OwnedBy(t, id, c) ensures IdAt(t, id) { assert IdAt(s, id); }
    forall k | k in t.calls && t.calls[k].client == c ensures CallAt(t, k) { assert CallAt(s, k); }
    Assemble(s, t, c);
  }

  /** Changing only the two client-wide guards of a node. */
  lemma GuardsKeepInv(s: System, c: nat, disconnected: bool, nonblocking: bool)
    requires Inv(s) && c in s.nodes && (disconnected || s.nodes[c].guid.Some?)
    ensures Inv(SetClient(s, c, s.nodes[c].client.(disconnected := disconnected, nonblocking := nonblocking)))
  {
    var t := SetClient(s, c, s.nodes[c].client.(disconnected := disconnected, nonblocking := nonblocking));
    assert NodeAt(s, c);
    forall id | OwnedBy(t, id, c) ensures IdAt(t, id) { assert IdAt(s, id); }
    forall k | k in t.calls && t.calls[k].client == c ensures CallAt(t, k) { assert CallAt(s, k); }
    Assemble(s, t, c);
  }

  lemma ActivateBeginKeepsInv(s: System, c: nat, mode: Mode)
    requires Inv(s) && Enabled(s, ActivateBegin(c, mode))
    ensures Inv(Next(s, ActivateBegin(c, mode)))
  {
    var t := Next(s, ActivateBegin(c, mode));
    assert NodeAt(s, c);
    forall id | OwnedBy(t, id, c) ensures IdAt(t, id) { assert IdAt(s, id); }
    forall k | k in t.calls && t.calls[k].client == c ensures CallAt(t, k) { assert CallAt(s, k); }
    Assemble(s, t, c);
  }

  lemma {:induction false} PendingNone(inbox: seq<EventSample>, id: CorrelationId)
    requires forall e | e in inbox :: e.related != id
    ensures Pending(inbox, id) == []
  {
    if inbox != [] { PendingNone(Front(inbox), id); }
  }

  lemma OpenZero(s: System, id: CorrelationId)
    requires ServerOk(s) && id !in s.records
    ensures Open(s, id) == 0
  {
    UpZero(s.up, id);
    UnfiredZero(s.server, id);
  }

  lemma OpenAfterUp(s: System, t: System, u: ActivationSample, id: CorrelationId)
    requires t.up == s.up + [u] && t.server == s.server
    ensures Open(t, id) == Open(s, id) + if IsActivation(u) && u.id == id then 1 else 0
  {
    UpConcat(s.up, [u], id);
    UpOne(u, id);
  }

  lemma ActivateThrowKeepsInv(s: System, c: nat, id: CorrelationId, params: int)
    requires Inv(s) && Enabled(s, ActivateWrite(c, id, params, true))
    ensures Inv(AfterActivateWrite(s, c, id, params, true))
  {
    var t := AfterActivateWrite(s, c, id, params, true);
    assert NodeAt(s, c);
    forall i | OwnedBy(t, i, c) ensures IdAt(t, i) { assert IdAt(s, i); }
    forall k | k in t.calls && t.calls[k].client == c ensures CallAt(t, k) { assert CallAt(s, k); }
    Assemble(s, t, c);
  }

  lemma ActivateWriteOthers(s: System, c: nat, id: CorrelationId, params: int)
    requires NodeAt(s, c) && Enabled(s, ActivateWrite(c, id, params, false))
    requires ServerOk(s)
    ensures OthersKept(s, AfterActivateWrite(s, c, id, params, false), c)
  {
    var t := AfterActivateWrite(s, c, id, params, false);
    forall i | i != id ensures Open(t, i) == Open(s, i) { OpenAfterUp(s, t, t.up[|s.up|], i); }
  }

  lemma ActivateWriteNode(s: System, c: nat, id: CorrelationId, params: int)
    requires NodeAt(s, c) && Enabled(s, ActivateWrite(c, id, params, false))
    requires ServerOk(s)
    ensures NodeAt(AfterActivateWrite(s, c, id, params, false), c)
  {
  }

  lemma ActivateWriteServer(s: System, c: nat, id: CorrelationId, params: int)
    requires NodeAt(s, c) && Enabled(s, ActivateWrite(c, id, params, false))
    requires ServerOk(s)
    ensures ServerOk(AfterActivateWrite(s, c, id, params, false))
  {
  }

  lemma ActivateWriteId(s: System, c: nat, id: CorrelationId, params: int, i: CorrelationId)
    requires NodeAt(s, c) && Enabled(s, ActivateWrite(c, id, params, false))
    requires ServerOk(s)
    requires IdAt(s, i) && OwnedBy(AfterActivateWrite(s, c, id, params, false), i, c)
    ensures IdAt(AfterActivateWrite(s, c, id, params, false), i)
  {
    var t := AfterActivateWrite(s, c, id, params, false);
    OpenAfterUp(s, t, t.up[|s.up|], i);
    if i == id {
      OpenZero(s, id);
      PendingNone(s.nodes[c].inbox, id);
    }
  }

  lemma ActivateWriteCall(s: System, c: nat, id: CorrelationId, params: int, j: nat)
    requires NodeAt(s, c) && Enabled(s, ActivateWrite(c, id, params, false))
    requires CallAt(s, j)
    ensures CallAt(AfterActivateWrite(s, c, id, params, false), j)
  {
  }

  lemma ActivateWriteChannel(s: System, c: nat, id: CorrelationId, params: int)
    requires NodeAt(s, c) && Enabled(s, ActivateWrite(c, id, params, false))
    requires ServerOk(s) && ChannelOk(s.up, s.server)
    ensures var t := AfterActivateWrite(s, c, id, params, false);
      ChannelOk(t.up, t.server)
  {
    var t := AfterActivateWrite(s, c, id, params, false);
    ChannelActivates(s.up, s.server, t.up[|s.up|]);
  }

  lemma ActivateWriteKeepsInv(s: System, c: nat, id: CorrelationId, params: int)
    requires Inv(s) && Enabled(s, ActivateWrite(c, id, params, false))
    ensures Inv(AfterActivateWrite(s, c, id, params, false))
  {
    var t := AfterActivateWrite(s, c, id, params, false);
    assert NodeAt(s, c);
    ActivateWriteOthers(s, c, id, params);
    ActivateWriteNode(s, c, id, params);
    ActivateWriteServer(s, c, id, params);
    forall i | OwnedBy(t, i, c) ensures IdAt(t, i) {
      assert IdAt(s, i);
      ActivateWriteId(s, c, id, params, i);
    }
    forall j | j in t.calls && t.calls[j].client == c ensures CallAt(t, j) {
      assert CallAt(s, j);
      ActivateWriteCall(s, c, id, params, j);
    }
    ActivateWriteChannel(s, c, id, params);
    Assemble(s, t, c);
  }

  lemma ActivateInsertKeepsInv(s: System, c: nat)
    requires Inv(s) && Enabled(s, ActivateInsert(c))
    ensures Inv(AfterActivateInsert(s, c))
  {
    var t := AfterActivateInsert(s, c);
    assert NodeAt(s, c);
    assert IdAt(s, s.nodes[c].activating.value.id.value);
    forall i | OwnedBy(t, i, c) ensures IdAt(t, i) { assert IdAt(s, i); }
    forall k | k in t.calls && t.calls[k].client == c ensures CallAt(t, k) { assert CallAt(s, k); }
    Assemble(s, t, c);
  }

  lemma DeactivationOthers(s: System, c: nat, id: CorrelationId, throws: bool)
    requires NodeAt(s, c) && IdAt(s, id) && Unlocked(s, c) && id in s.nodes[c].client.cache
    requires ServerOk(s)
    ensures OthersKept(s, AfterDeactivation(s, c, id, throws), c)
  {
    var t := AfterDeactivation(s, c, id, throws);
    if t.up != s.up {
      forall i ensures Open(t, i) == Open(s, i) { OpenAfterUp(s, t, t.up[|s.up|], i); }
    }
  }

  lemma DeactivationNode(s: System, c: nat, id: CorrelationId, throws: bool)
    requires NodeAt(s, c) && IdAt(s, id) && Unlocked(s, c) && id in s.nodes[c].client.cache
    requires ServerOk(s)
    ensures NodeAt(AfterDeactivation(s, c, id, throws), c)
  {
  }

  lemma DeactivationServer(s: System, c: nat, id: CorrelationId, throws: bool)
    requires NodeAt(s, c) && IdAt(s, id) && Unlocked(s, c) && id in s.nodes[c].client.cache
    requires ServerOk(s)
    ensures ServerOk(AfterDeactivation(s, c, id, throws))
  {
  }

  lemma DeactivationId(s: System, c: nat, id: CorrelationId, throws: bool, i: CorrelationId)
    requires NodeAt(s, c) && IdAt(s, id) && Unlocked(s, c) && id in s.nodes[c].client.cache
    requires IdAt(s, i) && OwnedBy(AfterDeactivation(s, c, id, throws), i, c)
    ensures IdAt(AfterDeactivation(s, c, id, throws), i)
  {
    var t := AfterDeactivation(s, c, id, throws);
    if t.up != s.up { OpenAfterUp(s, t, t.up[|s.up|], i); }
  }

  lemma DeactivationCall(s: System, c: nat, id: CorrelationId, throws: bool, j: nat)
    requires NodeAt(s, c) && IdAt(s, id) && Unlocked(s, c) && id in s.nodes[c].client.cache
    requires CallAt(s, j)
    ensures CallAt(AfterDeactivation(s, c, id, throws), j)
  {
  }

  lemma DeactivationKeepsInv(s: System, c: nat, id: CorrelationId, throws: bool)
    requires Inv(s) && Enabled(s, Deactivation(c, id, throws))
    ensures Inv(AfterDeactivation(s, c, id, throws))
  {
    var t := AfterDeactivation(s, c, id, throws);
    assert NodeAt(s, c) && IdAt(s, id);
    DeactivationOthers(s, c, id, throws);
    DeactivationNode(s, c, id, throws);
    DeactivationServer(s, c, id, throws);
    forall i | OwnedBy(t, i, c) ensures IdAt(t, i) {
      assert IdAt(s, i);
      DeactivationId(s, c, id, throws, i);
    }
    forall j | j in t.calls && t.calls[j].client == c ensures CallAt(t, j) {
      assert CallAt(s, j);
      DeactivationCall(s, c, id, throws, j);
    }
    if t.up != s.up { ChannelDeactivates(s.up, s.server, t.up[|s.up|]); }
    Assemble(s, t, c);
  }

  lemma DisconnectKeepsInv(s: System, c: nat)
    requires Inv(s) && Enabled(s, Disconnect(c))
    ensures Inv(AfterDisconnect(s, c))
  {
    var t := AfterDisconnect(s, c);
    assert NodeAt(s, c);
    forall i | OwnedBy(t, i, c) ensures IdAt(t, i) {
      assert IdAt(s, i);
      if i in s.records { ChainLosesPending(s.records[i], Pending(s.nodes[c].inbox, i)); }
    }
    forall k | k in t.calls && t.calls[k].client == c ensures CallAt(t, k) { assert CallAt(s, k); }
    Assemble(s, t, c);
  }

  lemma ChainLosesPending(h: Record, pending: seq<Event>)
    requires ChainOk(h, pending)
    ensures ChainOk(h, [])
  {
    SubseqPrefix(h.sets, pending);
    SubseqTrans(h.sets, h.sets + pending, h.writes);
    assert h.sets + [] == h.sets;
  }

  lemma ChainLosesOne(h: Record, before: seq<Event>, x: Event, after: seq<Event>)
    requires ChainOk(h, before + [x] + after)
    ensures ChainOk(h, before + after)
  {
    SubseqDrop(h.sets + before, x, after);
    assert h.sets + before + [x] + after == h.sets + (before + [x] + after);
    assert h.sets + before + after == h.sets + (before + after);
    SubseqTrans(h.sets + (before + after), h.sets + (before + [x] + after), h.writes);
  }

  lemma ChainAfterRemove(h: Record, inbox: seq<EventSample>, k: nat, id: CorrelationId)
    requires k < |inbox| && ChainOk(h, Pending(inbox, id))
    ensures ChainOk(h, Pending(RemoveAt(inbox, k), id))
  {
    PendingRemove(inbox, k, id);
    var before, after := Pending(inbox[..k], id), Pending(inbox[k + 1..], id);
    if inbox[k].related == id {
      ChainLosesOne(h, before, inbox[k].event, after);
    } else {
      assert before + [] + after == before + after;
    }
  }

  lemma LoseEventKeepsInv(s: System, c: nat, k: nat)
    requires Inv(s) && Enabled(s, LoseEvent(c, k))
    ensures Inv(Next(s, LoseEvent(c, k)))
  {
    var t := Next(s, LoseEvent(c, k));
    assert NodeAt(s, c);
    forall i | OwnedBy(t, i, c) ensures IdAt(t, i) {
      assert IdAt(s, i);
      if i in s.records { ChainAfterRemove(s.records[i], s.nodes[c].inbox, k, i); }
    }
    forall j | j in t.calls && t.calls[j].client == c ensures CallAt(t, j) { assert CallAt(s, j); }
    Assemble(s, t, c);
  }

  lemma PendingHead(inbox: seq<EventSample>, id: CorrelationId)
    requires inbox != []
    ensures Pending(inbox, id) ==
      (if inbox[0].related == id then [inbox[0].event] else []) + Pending(inbox[1..], id)
  {
    assert inbox == [inbox[0]] + inbox[1..];
    PendingConcat([inbox[0]], inbox[1..], id);
    assert [inbox[0]] == [] + [inbox[0]];
    PendingAppend([], inbox[0], id);
  }

  /** A value moves from the reader into the cell. */
  lemma ChainAfterTake(h: Record, inbox: seq<EventSample>, id: CorrelationId)
    requires inbox != [] && ChainOk(h, Pending(inbox, id)) && inbox[0].related == id
    ensures ChainOk(h.(sets := h.sets + [inbox[0].event]), Pending(inbox[1..], id))
  {
    var e, rest := inbox[0].event, Pending(inbox[1..], id);
    PendingHead(inbox, id);
    assert (h.sets + [e]) + rest == h.sets + ([e] + rest);
    SubseqSnoc(h.oks, h.sets, e);
  }

  lemma TakeOthers(s: System, c: nat)
    requires c in s.nodes && s.nodes[c].inbox != []
    requires s.nodes[c].inbox[0].related in s.records && OwnedBy(s, s.nodes[c].inbox[0].related, c)
    ensures OthersKept(s, AfterTake(s, c), c)
  {
    assert forall i :: Open(AfterTake(s, c), i) == Open(s, i);
  }

  lemma TakeNode(s: System, c: nat)
    requires Enabled(s, Take(c)) && NodeAt(s, c) && IdAt(s, s.nodes[c].inbox[0].related)
    requires ServerOk(s)
    ensures NodeAt(AfterTake(s, c), c)
  {
    var inbox := s.nodes[c].inbox;
    assert inbox[0] in inbox;
  }

  lemma TakeServer(s: System, c: nat)
    requires Enabled(s, Take(c)) && NodeAt(s, c) && IdAt(s, s.nodes[c].inbox[0].related)
    requires ServerOk(s)
    ensures ServerOk(AfterTake(s, c))
  {
    var inbox := s.nodes[c].inbox;
    assert inbox[0] in inbox;
  }

  lemma TakeId(s: System, c: nat, i: CorrelationId)
    requires Enabled(s, Take(c)) && NodeAt(s, c)
    requires IdAt(s, i) && OwnedBy(AfterTake(s, c), i, c)
    ensures IdAt(AfterTake(s, c), i)
  {
    if i in s.records {
      var n, h := s.nodes[c], s.records[i];
      ChainAfterRemove(h, n.inbox, 0, i);
      assert RemoveAt(n.inbox, 0) == n.inbox[1..];
      if n.inbox[0].related == i { TakeOwn(s, c, i); }
    }
  }

  lemma TakeOwn(s: System, c: nat, i: CorrelationId)
    requires Enabled(s, Take(c)) && NodeAt(s, c)
    requires IdAt(s, i) && i in s.records && OwnedBy(s, i, c) && s.nodes[c].inbox[0].related == i
    requires ChainOk(s.records[i], Pending(s.nodes[c].inbox[1..], i))
    ensures IdAt(AfterTake(s, c), i)
  {
    var n, h := s.nodes[c], s.records[i];
    var e := n.inbox[0].event;
    ChainAfterTake(h, n.inbox, i);
    if i in n.client.cache {
      CellAfterTake(n.client.results[i], h, e, s.nextGuard);
    }
  }

  /** The cell of a cached activation when a value arrives. */
  lemma CellAfterTake(r: ResultVal, h: Record, e: Event, nextGuard: nat)
    requires CellOk(r, true, h, nextGuard) && Subseq(h.oks, h.sets)
    ensures CellOk(SetNew(r, e), true, h.(sets := h.sets + [e]), nextGuard)
  {
    assert Front(h.sets + [e]) == h.sets && Last(h.sets + [e]) == e;
  }

  lemma TakeCall(s: System, c: nat, j: nat)
    requires Enabled(s, Take(c)) && NodeAt(s, c) && IdAt(s, s.nodes[c].inbox[0].related)
    requires j in s.calls && s.calls[j].client == c && CallAt(s, j)
    ensures CallAt(AfterTake(s, c), j)
  {
    var inbox := s.nodes[c].inbox;
    assert inbox[0] in inbox;
  }

  lemma TakeKeepsInv(s: System, c: nat)
    requires Inv(s) && Enabled(s, Take(c))
    ensures Inv(AfterTake(s, c))
  {
    var t := AfterTake(s, c);
    assert NodeAt(s, c) && s.nodes[c].inbox[0] in s.nodes[c].inbox && IdAt(s, s.nodes[c].inbox[0].related);
    TakeOthers(s, c);
    TakeNode(s, c);
    TakeServer(s, c);
    forall i | OwnedBy(t, i, c) ensures IdAt(t, i) {
      assert IdAt(s, i);
      TakeId(s, c, i);
    }
    forall j | j in t.calls && t.calls[j].client == c ensures CallAt(t, j) {
      assert CallAt(s, j);
      TakeCall(s, c, j);
    }
    Assemble(s, t, c);
  }

  // ----- Blocked calls --------------------------------------------------------

  /** Calls that keep their guards, and new ones without a guard, stay apart. */
  lemma CallsStayApart(before: map<nat, Call>, after: map<nat, Call>)
    requires forall k, l :: GuardsDiffer(before, k, l)
    requires forall k | k in after && after[k].guard.Some? :: k in before && before[k].guard == after[k].guard
    ensures forall k, l :: GuardsDiffer(after, k, l)
  {
    forall k, l ensures GuardsDiffer(after, k, l) { assert GuardsDiffer(before, k, l); }
  }

  lemma EnterNextApart(s: System, k: nat, c: nat, id: CorrelationId)
    requires Enabled(s, EnterNext(k, c, id)) && (forall j :: CallAt(s, j))
    requires forall i, j :: GuardsDiffer(s.calls, i, j)
    ensures forall i, j :: GuardsDiffer(AfterEnterNext(s, k, c, id).calls, i, j)
  {
    var t := AfterEnterNext(s, k, c, id);
    forall i, j ensures GuardsDiffer(t.calls, i, j) {
      assert GuardsDiffer(s.calls, i, j) && CallAt(s, i) && CallAt(s, j);
    }
  }

  lemma EnterGetKeepsInv(s: System, k: nat, c: nat, id: CorrelationId)
    requires Inv(s) && Enabled(s, EnterGet(k, c, id))
    ensures Inv(AfterEnterGet(s, k, c, id))
  {
    var t := AfterEnterGet(s, k, c, id);
    assert NodeAt(s, c) && IdAt(s, id);
    forall i | OwnedBy(t, i, c) ensures IdAt(t, i) { assert IdAt(s, i); }
    forall j | j in t.calls && t.calls[j].client == c ensures CallAt(t, j) { assert CallAt(s, j); }
    CallsStayApart(s.calls, t.calls);
    Assemble(s, t, c);
  }

  lemma EnterNextOthers(s: System, k: nat, c: nat, id: CorrelationId)
    requires Enabled(s, EnterNext(k, c, id)) && NodeAt(s, c) && IdAt(s, id)
    requires ServerOk(s)
    ensures OthersKept(s, AfterEnterNext(s, k, c, id), c)
  {
    assert forall i :: Open(AfterEnterNext(s, k, c, id), i) == Open(s, i);
  }

  lemma EnterNextNode(s: System, k: nat, c: nat, id: CorrelationId)
    requires Enabled(s, EnterNext(k, c, id)) && NodeAt(s, c) && IdAt(s, id)
    requires ServerOk(s)
    ensures NodeAt(AfterEnterNext(s, k, c, id), c)
  {
  }

  lemma EnterNextServer(s: System, k: nat, c: nat, id: CorrelationId)
    requires Enabled(s, EnterNext(k, c, id)) && NodeAt(s, c) && IdAt(s, id)
    requires ServerOk(s)
    ensures ServerOk(AfterEnterNext(s, k, c, id))
  {
  }

  lemma EnterNextId(s: System, k: nat, c: nat, id: CorrelationId, i: CorrelationId)
    requires Enabled(s, EnterNext(k, c, id)) && NodeAt(s, c) && IdAt(s, id)
    requires IdAt(s, i) && OwnedBy(AfterEnterNext(s, k, c, id), i, c)
    ensures IdAt(AfterEnterNext(s, k, c, id), i)
  {
  }

  lemma EnterNextCall(s: System, k: nat, c: nat, id: CorrelationId, j: nat)
    requires Enabled(s, EnterNext(k, c, id)) && NodeAt(s, c) && IdAt(s, id)
    requires CallAt(s, j) && (j == k || (j in s.calls && s.calls[j].client == c))
    ensures CallAt(AfterEnterNext(s, k, c, id), j)
  {
  }

  lemma EnterNextKeepsInv(s: System, k: nat, c: nat, id: CorrelationId)
    requires Inv(s) && Enabled(s, EnterNext(k, c, id))
    ensures Inv(AfterEnterNext(s, k, c, id))
  {
    var t := AfterEnterNext(s, k, c, id);
    assert NodeAt(s, c) && IdAt(s, id);
    EnterNextOthers(s, k, c, id);
    EnterNextNode(s, k, c, id);
    EnterNextServer(s, k, c, id);
    forall i | OwnedBy(t, i, c) ensures IdAt(t, i) {
      assert IdAt(s, i);
      EnterNextId(s, k, c, id, i);
    }
    forall j | j in t.calls && t.calls[j].client == c ensures CallAt(t, j) {
      assert CallAt(s, j);
      EnterNextCall(s, k, c, id, j);
    }
    EnterNextApart(s, k, c, id);
    Assemble(s, t, c);
  }

  lemma WakeKeepsInv(s: System, k: nat, active: seq<Cond>)
    requires Inv(s) && Enabled(s, Wake(k, active))
    ensures Inv(Next(s, Wake(k, active)))
  {
    var t := Next(s, Wake(k, active));
    var c := s.calls[k].client;
    assert NodeAt(s, c) && CallAt(s, k);
    forall g: nat | NextCond(g) in active
      ensures Holds(s, s.calls[k], NextCond(g))
    {
      var i :| 0 <= i < |active| && active[i] == NextCond(g);
    }
    forall i | OwnedBy(t, i, c) ensures IdAt(t, i) { assert IdAt(s, i); }
    forall j | j in t.calls && t.calls[j].client == c ensures CallAt(t, j) { assert CallAt(s, j); }
    CallsStayApart(s.calls, t.calls);
    Assemble(s, t, c);
  }

  lemma {:induction false} RemoveGuardMembers(guards: seq<GuardId>, g: GuardId)
    ensures forall h :: h in RemoveGuard(guards, g) <==> h in guards && h != g
  {
    if guards != [] { RemoveGuardMembers(guards[1..], g); }
  }

  lemma FinishOthers(s: System, k: nat)
    requires Enabled(s, Finish(k))
    requires s.calls[k].id in s.records && OwnedBy(s, s.calls[k].id, s.calls[k].client)
    ensures OthersKept(s, AfterFinish(s, k), s.calls[k].client)
  {
    assert forall i :: Open(AfterFinish(s, k), i) == Open(s, i);
  }

  lemma FinishNode(s: System, k: nat)
    requires Enabled(s, Finish(k)) && NodeAt(s, s.calls[k].client) && CallAt(s, k) && IdAt(s, s.calls[k].id)
    requires ServerOk(s)
    ensures NodeAt(AfterFinish(s, k), s.calls[k].client)
  {
  }

  lemma FinishServer(s: System, k: nat)
    requires Enabled(s, Finish(k)) && NodeAt(s, s.calls[k].client) && CallAt(s, k) && IdAt(s, s.calls[k].id)
    requires ServerOk(s)
    ensures ServerOk(AfterFinish(s, k))
  {
  }

  /** What an OK does to the cell and the history of its activation. */
  lemma AfterOk(cell: ResultVal, cached: bool, h: Record, pending: seq<Event>, nextGuard: nat, g: Option<GuardId>)
    requires CellOk(cell, cached, h, nextGuard) && ChainOk(h, pending) && cell.hasNew
    ensures var after := if g.Some? then ConsumeNext(cell, g.value) else Consume(cell);
      var returned := h.(oks := h.oks + [cell.event]);
      CellOk(after, cached, returned, nextGuard) && ChainOk(returned, pending)
  {
    if g.Some? { RemoveGuardMembers(cell.guards, g.value); }
    SubseqSnoc(h.oks, Front(h.sets), Last(h.sets));
    assert Front(h.sets) + [Last(h.sets)] == h.sets;
  }

  lemma FinishId(s: System, k: nat, i: CorrelationId)
    requires Enabled(s, Finish(k)) && NodeAt(s, s.calls[k].client) && CallAt(s, k) && IdAt(s, s.calls[k].id)
    requires IdAt(s, i) && OwnedBy(AfterFinish(s, k), i, s.calls[k].client)
    ensures IdAt(AfterFinish(s, k), i)
  {
    if i == s.calls[k].id {
      var call := s.calls[k];
      var client, h := s.nodes[call.client].client, s.records[i];
      var cell := client.results[i];
      OkMeansNewEvent(cell, if call.guard.Some? then call.guard.value else 0, call.woken.value);
      if CallStatus(cell, call) == Ok {
        AfterOk(cell, i in client.cache, h, Pending(s.nodes[call.client].inbox, i), s.nextGuard, call.guard);
      }
    }
  }

  lemma FinishCall(s: System, k: nat, j: nat)
    requires Enabled(s, Finish(k)) && NodeAt(s, s.calls[k].client) && CallAt(s, k) && IdAt(s, s.calls[k].id)
    requires j in s.calls && j != k && s.calls[j].client == s.calls[k].client
    requires CallAt(s, j) && GuardsDiffer(s.calls, j, k)
    ensures CallAt(AfterFinish(s, k), j)
  {
    var call := s.calls[k];
    if call.guard.Some? {
      RemoveGuardMembers(s.nodes[call.client].client.results[call.id].guards, call.guard.value);
    }
  }

  lemma FinishKeepsInv(s: System, k: nat)
    requires Inv(s) && Enabled(s, Finish(k))
    ensures Inv(AfterFinish(s, k))
  {
    var t, c := AfterFinish(s, k), s.calls[k].client;
    assert NodeAt(s, c) && CallAt(s, k) && IdAt(s, s.calls[k].id);
    FinishOthers(s, k);
    FinishNode(s, k);
    FinishServer(s, k);
    forall i | OwnedBy(t, i, c) ensures IdAt(t, i) {
      assert IdAt(s, i);
      FinishId(s, k, i);
    }
    forall j | j in t.calls && t.calls[j].client == c ensures CallAt(t, j) {
      assert CallAt(s, j);
      assert GuardsDiffer(s.calls, j, k);
      FinishCall(s, k, j);
    }
    CallsStayApart(s.calls, t.calls);
    Assemble(s, t, c);
  }

  // ----- Steps of the server --------------------------------------------------

  lemma ServerStepKeepsInv(s: System, t: System)
    requires Inv(s) && ServerOk(t) && ChannelOk(t.up, t.server)
    requires t == s.(up := t.up, server := t.server, putAt := t.putAt)
    requires forall id :: Open(t, id) <= Open(s, id)
    ensures Inv(t)
  {
    forall c ensures NodeAt(t, c) { assert NodeAt(s, c); }
    forall id ensures IdAt(t, id) { assert IdAt(s, id); }
    forall k ensures CallAt(t, k) { assert CallAt(s, k); }
  }

  lemma LoseUpKeepsInv(s: System, k: nat)
    requires Inv(s) && Enabled(s, LoseUp(k))
    ensures Inv(Next(s, LoseUp(k)))
  {
    var t := Next(s, LoseUp(k));
    forall id ensures Open(t, id) <= Open(s, id) { UpRemove(s.up, k, id); }
    ChannelLoses(s.up, s.server, k);
    ServerStepKeepsInv(s, t);
  }

  lemma ReceiveKeepsInv(s: System, k: nat)
    requires Inv(s) && Enabled(s, ReceiveUp(k))
    ensures Inv(AfterReceive(s, k))
  {
    var t := AfterReceive(s, k);
    var u := s.up[k];
    assert u in s.up;
    forall id ensures Open(t, id) <= Open(s, id) {
      UpRemove(s.up, k, id);
      UnfiredErase(s.server, u.related, id);
      var a := Activation(u.id, u.mode, u.params, false);
      UnfiredConcat(s.server, [a], id);
      UnfiredOne(a, id);
    }
    UnfiredErase(s.server, u.related, u.related);
    ChannelReceives(s.up, s.server, k);
    ServerStepKeepsInv(s, t);
  }

  /** A turn of the put loop that writes nothing. */
  lemma QuietPutKeepsInv(s: System, result: Tested, throws: bool)
    requires Inv(s) && Enabled(s, PutEntry(result, throws))
    requires !Eligible(s.server[s.putAt.value]) || result.event.None? || throws
    ensures Inv(AfterPutEntry(s, result, throws))
  {
    var t := AfterPutEntry(s, result, throws);
    var i := s.putAt.value;
    var a := s.server[i];
    assert a in s.server;
    forall id ensures Open(t, id) <= Open(s, id) { UnfiredTested(s.server, i, result, id); }
    assert forall b | b in t.server :: b in s.server || b == AfterTest(a, result);
    ChannelMarks(s.up, s.server, i, AfterTest(a, result));
    ServerStepKeepsInv(s, t);
  }

  lemma PutEntryKeepsInv(s: System, result: Tested, throws: bool)
    requires Inv(s) && Enabled(s, PutEntry(result, throws))
    ensures Inv(AfterPutEntry(s, result, throws))
  {
    if !Eligible(s.server[s.putAt.value]) || result.event.None? || throws {
      QuietPutKeepsInv(s, result, throws);
    } else {
      WriteKeepsInv(s, result);
    }
  }

  /** Only the node whose connection wrote the activation gets the sample. */
  lemma BroadcastReaches(s: System, e: EventSample)
    requires forall c :: NodeAt(s, c)
    ensures Broadcast(s.nodes, e).Keys == s.nodes.Keys
    ensures forall c | c in s.nodes ::
      Broadcast(s.nodes, e)[c] ==
        if s.nodes[c].guid == Some(e.related.writer) && OwnedBy(s, e.related, c)
        then s.nodes[c].(inbox := s.nodes[c].inbox + [e]) else s.nodes[c]
  {
    forall c | c in s.nodes && s.nodes[c].guid.Some?
      ensures CorrelationIdFilter.Accepts(s.nodes[c].guid.value, e.related.writer) <==>
              s.nodes[c].guid == Some(e.related.writer)
      ensures NodeAt(s, c)
    {
      CorrelationIdFilter.Isolation(s.nodes[c].guid.value, e.related.writer);
    }
  }

  lemma WriteOthers(s: System, c: nat, result: Tested)
    requires ServerOk(s) && Enabled(s, PutEntry(result, false)) && result.event.Some?
    requires Eligible(s.server[s.putAt.value])
    requires c in s.nodes && (forall d :: NodeAt(s, d)) && s.server[s.putAt.value].id in s.records
    requires OwnedBy(s, s.server[s.putAt.value].id, c)
    ensures OthersKept(s, AfterPutEntry(s, result, false), c)
  {
    var t := AfterPutEntry(s, result, false);
    var a := s.server[s.putAt.value];
    BroadcastReaches(s, EventSample(a.id, result.event.value));
    forall id ensures Open(t, id) <= Open(s, id) { UnfiredTested(s.server, s.putAt.value, result, id); }
  }

  lemma WriteNode(s: System, c: nat, result: Tested)
    requires ServerOk(s) && Enabled(s, PutEntry(result, false)) && result.event.Some?
    requires Eligible(s.server[s.putAt.value])
    requires c in s.nodes && (forall d :: NodeAt(s, d)) && s.server[s.putAt.value].id in s.records
    requires OwnedBy(s, s.server[s.putAt.value].id, c)
    ensures NodeAt(AfterPutEntry(s, result, false), c)
    ensures var n := AfterPutEntry(s, result, false).nodes;
      var e := EventSample(s.server[s.putAt.value].id, result.event.value);
      && c in n
      && (n[c] == s.nodes[c] || n[c] == s.nodes[c].(inbox := s.nodes[c].inbox + [e]))
  {
    assert NodeAt(s, c);
    BroadcastReaches(s, EventSample(s.server[s.putAt.value].id, result.event.value));
  }

  lemma WriteServer(s: System, c: nat, result: Tested)
    requires ServerOk(s) && Enabled(s, PutEntry(result, false)) && result.event.Some?
    requires Eligible(s.server[s.putAt.value])
    requires c in s.nodes && (forall d :: NodeAt(s, d)) && s.server[s.putAt.value].id in s.records
    requires OwnedBy(s, s.server[s.putAt.value].id, c)
    ensures ServerOk(AfterPutEntry(s, result, false))
  {
    var t := AfterPutEntry(s, result, false);
    var a := s.server[s.putAt.value];
    assert a in s.server;
    assert forall b | b in t.server :: b in s.server || b == AfterTest(a, result);
  }

  lemma WriteCall(s: System, c: nat, result: Tested, k: nat)
    requires ServerOk(s) && Enabled(s, PutEntry(result, false)) && result.event.Some?
    requires Eligible(s.server[s.putAt.value])
    requires c in s.nodes && (forall d :: NodeAt(s, d)) && s.server[s.putAt.value].id in s.records
    requires k in s.calls && s.calls[k].client == c && CallAt(s, k)
    ensures CallAt(AfterPutEntry(s, result, false), k)
  {
    BroadcastReaches(s, EventSample(s.server[s.putAt.value].id, result.event.value));
  }

  lemma WriteKeepsInv(s: System, result: Tested)
    requires Inv(s) && Enabled(s, PutEntry(result, false)) && result.event.Some?
    requires Eligible(s.server[s.putAt.value])
    ensures Inv(AfterPutEntry(s, result, false))
  {
    var t := AfterPutEntry(s, result, false);
    var a := s.server[s.putAt.value];
    assert a in s.server && IdAt(s, a.id);
    var c := s.owner[a.id.writer];
    assert NodeAt(s, c);
    WriteOthers(s, c, result);
    WriteNode(s, c, result);
    WriteServer(s, c, result);
    forall id | OwnedBy(t, id, c) ensures IdAt(t, id) {
      assert IdAt(s, id);
      UnfiredTested(s.server, s.putAt.value, result, id);
      WriteKeepsId(s, t, a, result.event.value, id);
    }
    forall k | k in t.calls && t.calls[k].client == c ensures CallAt(t, k) {
      assert CallAt(s, k);
      WriteCall(s, c, result, k);
    }
    ChannelMarks(s.up, s.server, s.putAt.value, AfterTest(a, result));
    Assemble(s, t, c);
  }

  /** A written event may join the reader's queue, behind everything written before. */
  lemma ChainAfterWrite(h: Record, inbox: seq<EventSample>, e: EventSample, id: CorrelationId)
    requires ChainOk(h, Pending(inbox, id)) && e.related == id
    ensures ChainOk(h.(writes := h.writes + [e.event]), Pending(inbox, id))
    ensures ChainOk(h.(writes := h.writes + [e.event]), Pending(inbox + [e], id))
  {
    PendingAppend(inbox, e, id);
    var sofar := h.sets + Pending(inbox, id);
    SubseqSnoc(sofar, h.writes, e.event);
    assert sofar + [e.event] == h.sets + (Pending(inbox, id) + [e.event]);
  }

  lemma WriteKeepsId(s: System, t: System, a: Activation, event: Event, id: CorrelationId)
    requires ServerOk(s) && a in s.server && Eligible(a) && IdAt(s, id) && IdAt(s, a.id)
    requires a.id in s.records
    requires t.owner == s.owner && t.nextGuard == s.nextGuard
    requires OwnedBy(s, id, s.owner[a.id.writer])
    requires t.records == s.records[a.id := s.records[a.id].(writes := s.records[a.id].writes + [event])]
    requires var c := s.owner[a.id.writer];
      && c in t.nodes
      && (t.nodes[c] == s.nodes[c]
          || t.nodes[c] == s.nodes[c].(inbox := s.nodes[c].inbox + [EventSample(a.id, event)]))
    requires Open(t, id) == Open(s, id) - if id == a.id && !a.fired then 1 else 0
    ensures IdAt(t, id)
  {
    if id in s.records {
      var inbox := s.nodes[s.owner[id.writer]].inbox;
      PendingAppend(inbox, EventSample(a.id, event), id);
      assert Pending(inbox, id) + [] == Pending(inbox, id);
      if id == a.id {
        ChainAfterWrite(s.records[id], inbox, EventSample(a.id, event), id);
      }
    }
  }
}
