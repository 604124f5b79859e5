/** Clients, one event server and the channels between them as one transition system.
    Every step is what one thread does while it holds one mutex; blocked calls are split
    into enter, wake and finish, and `activate` into lock, write and insert. */
module EventSystem {
  import opened Common
  import opened ConnectionId
  import CorrelationIdFilter
  import opened CorrelationIds
  import opened EventClient
  import opened EventResults
  import opened EventServer
  import opened Subsequence

  /** An `activate` call that holds the client mutex, before or after its write. */
  datatype Activating = Activating(mode: Mode, id: Option<CorrelationId>)

  /** A client with its current connection: `guid` is the identity of its activation
      writer, and `inbox` what its filtered reader holds, in per-writer order. */
  datatype Node = Node(
    client: Client,
    guid: Option<Guid>,
    inbox: seq<EventSample>,
    activating: Option<Activating>)

  /** A blocked getEvent (no guard) or getNextEvent. `since` is the number of values its
      cell had received when the call entered; `woken` is what the wait returned. */
  datatype Call = Call(
    client: nat,
    id: CorrelationId,
    guard: Option<GuardId>,
    since: nat,
    woken: Option<seq<Cond>>)

  /** What has happened to one activation: the events the server wrote for it, the ones
      that reached its cell, and the ones returned with OK. */
  datatype Record = Record(
    mode: Mode, removed: bool, writes: seq<Event>, sets: seq<Event>, oks: seq<Event>)

  datatype System = System(
    nodes: map<nat, Node>,
    owner: map<Guid, nat>,
    up: seq<ActivationSample>,
    server: seq<Activation>,
    putAt: Option<nat>,
    calls: map<nat, Call>,
    nextGuard: nat,
    records: map<CorrelationId, Record>)

  const BLANK_RECORD := Record(Single, false, [], [], [])

  const INITIAL_NODE := Node(INITIAL_CLIENT, None, [], None)

  function Initial(clients: set<nat>): System {
    System(map c | c in clients :: INITIAL_NODE, map[], [], [], None, map[], 0, map[])
  }

  // ----- The event topic ------------------------------------------------------

  /** A written sample reaches every connected reader whose filter passes it. */
  function Broadcast(nodes: map<nat, Node>, s: EventSample): map<nat, Node> {
    map c | c in nodes ::
      if nodes[c].guid.Some? && CorrelationIdFilter.Accepts(nodes[c].guid.value, s.related.writer)
      then nodes[c].(inbox := nodes[c].inbox + [s])
      else nodes[c]
  }

  // ----- Steps ----------------------------------------------------------------

  datatype Step =
    | Connect(c: nat, g: Guid)
    | Guard(c: nat, disconnected: bool)
    | Disconnect(c: nat)
    | Block(c: nat, blocking: bool)
    | ActivateBegin(c: nat, mode: Mode)
    | ActivateWrite(c: nat, id: CorrelationId, params: int, throws: bool)
    | ActivateInsert(c: nat)
    | Deactivation(c: nat, id: CorrelationId, throws: bool)
    | LoseUp(k: nat)
    | ReceiveUp(k: nat)
    | PutBegin
    | PutEntry(result: Tested, throws: bool)
    | PutEnd
    | LoseEvent(c: nat, k: nat)
    | Take(c: nat)
    | EnterGet(t: nat, c: nat, id: CorrelationId)
    | EnterNext(t: nat, c: nat, id: CorrelationId)
    | Wake(t: nat, active: seq<Cond>)
    | Finish(t: nat)

  /** The client mutex is free. */
  predicate Unlocked(s: System, c: nat) {
    c in s.nodes && s.nodes[c].activating.None?
  }

  /** Which conditions of a blocked call's wait set are true. */
  predicate Holds(s: System, call: Call, cond: Cond)
    requires call.client in s.nodes
  {
    var client := s.nodes[call.client].client;
    var cell := CellOf(client, call.id);
    match cond
    case DisconnectedCond => client.disconnected
    case NonblockingCond => client.nonblocking
    case DeactivatedCond => cell.deactivated
    case EventCond => call.guard.None? && cell.eventGuard
    case NextCond(g) => call.guard == Some(g) && g in cell.triggered
  }

  predicate Enabled(s: System, step: Step) {
    match step
    case Connect(c, g) => Unlocked(s, c) && s.nodes[c].guid.None? && g !in s.owner
    case Guard(c, disconnected) => c in s.nodes && (disconnected || s.nodes[c].guid.Some?)
    case Disconnect(c) => Unlocked(s, c)
    case Block(c, _) => Unlocked(s, c)
    case ActivateBegin(c, _) => Unlocked(s, c) && !s.nodes[c].client.disconnected && s.nodes[c].guid.Some?
    case ActivateWrite(c, id, _, _) =>
      && c in s.nodes && s.nodes[c].activating.Some? && s.nodes[c].activating.value.id.None?
      && s.nodes[c].guid == Some(id.writer) && id !in s.records
    case ActivateInsert(c) =>
      c in s.nodes && s.nodes[c].activating.Some? && s.nodes[c].activating.value.id.Some?
    case Deactivation(c, id, _) => Unlocked(s, c) && id in s.nodes[c].client.cache
    case LoseUp(k) => k < |s.up|
    case ReceiveUp(k) => k < |s.up| && s.putAt.None?
    case PutBegin => s.putAt.None?
    case PutEntry(_, _) => s.putAt.Some? && s.putAt.value < |s.server|
    case PutEnd => s.putAt == Some(|s.server|)
    case LoseEvent(c, k) => c in s.nodes && k < |s.nodes[c].inbox|
    case Take(c) => Unlocked(s, c) && s.nodes[c].inbox != []
    case EnterGet(t, c, id) =>
      && Unlocked(s, c) && t !in s.calls
      && GetEntry(s.nodes[c].client.disconnected, CachedCell(s.nodes[c].client, id)).None?
    case EnterNext(t, c, id) =>
      && Unlocked(s, c) && t !in s.calls
      && NextEntry(s.nodes[c].client.disconnected, CachedCell(s.nodes[c].client, id)).None?
    case Wake(t, active) =>
      && t in s.calls && s.calls[t].woken.None? && s.calls[t].client in s.nodes
      && forall i | 0 <= i < |active| :: Holds(s, s.calls[t], active[i])
    case Finish(t) =>
      && t in s.calls && s.calls[t].woken.Some? && Unlocked(s, s.calls[t].client)
  }

  function CachedCell(c: Client, id: CorrelationId): Option<ResultVal> {
    if id in c.cache then Some(CellOf(c, id)) else None
  }

  function RecordOf(s: System, id: CorrelationId): Record {
    if id in s.records then s.records[id] else BLANK_RECORD
  }

  function SetClient(s: System, c: nat, client: Client): System
    requires c in s.nodes
  {
    s.(nodes := s.nodes[c := s.nodes[c].(client := client)])
  }

  function AfterConnect(s: System, c: nat, g: Guid): System
    requires c in s.nodes
  {
    s.(nodes := s.nodes[c := s.nodes[c].(
         client := s.nodes[c].client.(disconnected := false), guid := Some(g), inbox := [])],
       owner := s.owner[g := c])
  }

  function AfterDisconnect(s: System, c: nat): System
    requires c in s.nodes
  {
    var gone := s.nodes[c].client.cache;
    s.(nodes := s.nodes[c := Node(DropAll(s.nodes[c].client), None, [], None)],
       records := map id | id in s.records ::
         if id in gone then s.records[id].(removed := true) else s.records[id])
  }

  function AfterActivateWrite(s: System, c: nat, id: CorrelationId, params: int, throws: bool): System
    requires c in s.nodes && s.nodes[c].activating.Some?
  {
    var mode := s.nodes[c].activating.value.mode;
    if throws then s.(nodes := s.nodes[c := s.nodes[c].(activating := None)])
    else
      var sample := ActivationSample(
        true, id, id, if mode == Single then ActivateSingle else ActivateContinuous, params);
      s.(nodes := s.nodes[c := s.nodes[c].(activating := Some(Activating(mode, Some(id))))],
         up := s.up + [sample],
         records := s.records[id := Record(mode, false, [], [], [])])
  }

  function AfterActivateInsert(s: System, c: nat): System
    requires c in s.nodes && s.nodes[c].activating.Some? && s.nodes[c].activating.value.id.Some?
  {
    var a := s.nodes[c].activating.value;
    s.(nodes := s.nodes[c := s.nodes[c].(
         client := InsertResult(s.nodes[c].client, a.id.value, a.mode), activating := None)])
  }

  /** The deactivation sample is written only while the client counts as connected. */
  function AfterDeactivation(s: System, c: nat, id: CorrelationId, throws: bool): System
    requires c in s.nodes
  {
    var disconnected := s.nodes[c].client.disconnected;
    if !disconnected && throws then s
    else
      var sample := ActivationSample(true, id, id, DeactivateMode, 0);
      SetClient(s, c, RemoveResult(s.nodes[c].client, id)).(
        up := if disconnected then s.up else s.up + [sample],
        records := s.records[id := RecordOf(s, id).(removed := true)])
  }

  function AfterReceive(s: System, k: nat): System
    requires k < |s.up|
  {
    s.(up := RemoveAt(s.up, k), server := Receive(s.server, s.up[k]))
  }

  /** One turn of the loop of `put`; `result` is what the user's test does. */
  function AfterPutEntry(s: System, result: Tested, throws: bool): System
    requires s.putAt.Some? && s.putAt.value < |s.server|
  {
    var i := s.putAt.value;
    var a := s.server[i];
    if !Eligible(a) then s.(putAt := Some(i + 1))
    else
      var marked := s.(server := s.server[i := AfterTest(a, result)]);
      if result.event.None? then marked.(putAt := Some(i + 1))
      else if throws then marked.(putAt := None)
      else
        var r := RecordOf(s, a.id);
        marked.(putAt := Some(i + 1),
                nodes := Broadcast(s.nodes, EventSample(a.id, result.event.value)),
                records := s.records[a.id := r.(writes := r.writes + [result.event.value])])
  }

  function AfterTake(s: System, c: nat): System
    requires c in s.nodes && s.nodes[c].inbox != []
  {
    var n := s.nodes[c];
    var e := n.inbox[0];
    var r := RecordOf(s, e.related);
    s.(nodes := s.nodes[c := n.(client := Deliver(n.client, e), inbox := n.inbox[1..])],
       records := if e.related in n.client.cache
                  then s.records[e.related := r.(sets := r.sets + [e.event])]
                  else s.records)
  }

  function AfterEnterGet(s: System, t: nat, c: nat, id: CorrelationId): System
  {
    s.(calls := s.calls[t := Call(c, id, None, |RecordOf(s, id).sets|, None)])
  }

  function AfterEnterNext(s: System, t: nat, c: nat, id: CorrelationId): System
    requires c in s.nodes
  {
    var client := s.nodes[c].client;
    SetClient(s, c, client.(results := client.results[id := AddGuard(CellOf(client, id), s.nextGuard)])).(
      calls := s.calls[t := Call(c, id, Some(s.nextGuard), |RecordOf(s, id).sets|, None)],
      nextGuard := s.nextGuard + 1)
  }

  /** The status a woken call returns once it has the mutex again. */
  function CallStatus(r: ResultVal, call: Call): StatusCode
    requires call.woken.Some?
  {
    match call.guard
    case None => GetStatus(r, call.woken.value)
    case Some(g) => NextStatus(r, g, call.woken.value)
  }

  function AfterFinish(s: System, t: nat): System
    requires t in s.calls && s.calls[t].woken.Some? && s.calls[t].client in s.nodes
  {
    var call := s.calls[t];
    var client := s.nodes[call.client].client;
    var cell, r := CellOf(client, call.id), RecordOf(s, call.id);
    var left := s.(calls := s.calls - {t});
    if CallStatus(cell, call) == Ok then
      var after := if call.guard.Some? then ConsumeNext(cell, call.guard.value) else Consume(cell);
      SetClient(left, call.client, client.(results := client.results[call.id := after])).(
        records := s.records[call.id := r.(oks := r.oks + [cell.event])])
    else left
  }

  function Next(s: System, step: Step): System
    requires Enabled(s, step)
  {
    match step
    case Connect(c, g) => AfterConnect(s, c, g)
    case Guard(c, d) => SetClient(s, c, s.nodes[c].client.(disconnected := d))
    case Disconnect(c) => AfterDisconnect(s, c)
    case Block(c, b) => SetClient(s, c, s.nodes[c].client.(nonblocking := b))
    case ActivateBegin(c, mode) =>
      s.(nodes := s.nodes[c := s.nodes[c].(activating := Some(Activating(mode, None)))])
    case ActivateWrite(c, id, params, throws) => AfterActivateWrite(s, c, id, params, throws)
    case ActivateInsert(c) => AfterActivateInsert(s, c)
    case Deactivation(c, id, throws) =>
      AfterDeactivation(s, c, id, throws)
    case LoseUp(k) => s.(up := RemoveAt(s.up, k))
    case ReceiveUp(k) => AfterReceive(s, k)
    case PutBegin => s.(putAt := Some(0))
    case PutEntry(result, throws) => AfterPutEntry(s, result, throws)
    case PutEnd => s.(putAt := None)
    case LoseEvent(c, k) =>
      s.(nodes := s.nodes[c := s.nodes[c].(inbox := RemoveAt(s.nodes[c].inbox, k))])
    case Take(c) =>
      AfterTake(s, c)
    case EnterGet(t, c, id) =>
      AfterEnterGet(s, t, c, id)
    case EnterNext(t, c, id) =>
      AfterEnterNext(s, t, c, id)
    case Wake(t, active) => s.(calls := s.calls[t := s.calls[t].(woken := Some(active))])
    case Finish(t) =>
      AfterFinish(s, t)
  }

  // ----- Invariants -----------------------------------------------------------

  /** The events for `id` that wait in a reader. */
  function Pending(inbox: seq<EventSample>, id: CorrelationId): seq<Event> {
    if inbox == [] then []
    else Pending(Front(inbox), id) + if Last(inbox).related == id then [Last(inbox).event] else []
  }

  /** Activation samples for `id` that the server has not received. */
  function UpCount(up: seq<ActivationSample>, id: CorrelationId): nat {
    if up == [] then 0 else (if IsActivation(up[0]) && up[0].id == id then 1 else 0) + UpCount(up[1..], id)
  }

  /** Server entries for `id` that have not fired. */
  function Unfired(server: seq<Activation>, id: CorrelationId): nat {
    if server == [] then 0
    else (if server[0].id == id && !server[0].fired then 1 else 0) + Unfired(server[1..], id)
  }

  /** A node with its connection; every cell it holds is one of its own activations. */
  ghost predicate NodeOk(n: Node, c: nat, owner: map<Guid, nat>, records: map<CorrelationId, Record>) {
    && Wellformed(n.client)
    && (n.guid.Some? ==> n.guid.value in owner && owner[n.guid.value] == c)
    && (n.guid.None? ==>
          n.inbox == [] && n.client.disconnected && n.client.cache == {} && n.activating.None?)
    && (forall e | e in n.inbox :: n.guid == Some(e.related.writer) && e.related in records)
    && (forall id | id in n.client.cache :: n.guid == Some(id.writer))
    && (forall id | id in n.client.results ::
          id in records && id.writer in owner && owner[id.writer] == c)
    && (n.activating.Some? && n.activating.value.id.Some? ==>
          var id := n.activating.value.id.value;
          && n.guid == Some(id.writer) && id in records && id !in n.client.results
          && records[id].mode == n.activating.value.mode)
  }

  /** What the cell of an activation holds, in terms of its history. */
  ghost predicate CellOk(r: ResultVal, cached: bool, h: Record, nextGuard: nat) {
    && r.mode == h.mode
    && (cached <==> !r.deactivated)
    && (cached <==> !h.removed)
    && (r.hasNew ==> h.sets != [] && r.event == Last(h.sets) && Subseq(h.oks, Front(h.sets)))
    && (r.eventGuard <==> if r.mode == Single then h.sets != [] else r.hasNew)
    && (forall g | g in r.triggered :: g < nextGuard)
    && (forall g | g in r.guards :: g < nextGuard)
  }

  /** The chain of custody: returned values come from the cell in order, and the cell's
      values, followed by those still waiting, from the server's writes in order. */
  ghost predicate ChainOk(h: Record, pending: seq<Event>) {
    Subseq(h.oks, h.sets) && Subseq(h.sets + pending, h.writes)
  }

  /** Chances that the server still has to write a first event for this activation. */
  function Open(s: System, id: CorrelationId): nat {
    UpCount(s.up, id) + Unfired(s.server, id)
  }

  /** One activation at its client; until `activate` has inserted the cell, the client
      mutex is held on its behalf. */
  ghost predicate IdOk(id: CorrelationId, h: Record, n: Node, open: nat, nextGuard: nat) {
    && ChainOk(h, Pending(n.inbox, id))
    && (h.mode == Single ==> |h.writes| + open <= 1)
    && if id in n.client.results then
         CellOk(n.client.results[id], id in n.client.cache, h, nextGuard)
       else
         && n.activating == Some(Activating(h.mode, Some(id)))
         && h.sets == [] && h.oks == [] && !h.removed
  }

  /** A registered next-event guard is raised exactly if a value arrived since its call
      entered. */
  ghost predicate CallOk(call: Call, cell: ResultVal, sets: nat, nextGuard: nat) {
    && call.since <= sets
    && (call.guard.Some? ==>
          && call.guard.value < nextGuard && call.guard.value in cell.guards
          && (call.guard.value in cell.triggered <==> call.since < sets))
    && (call.woken.Some? ==> forall g: nat | NextCond(g) in call.woken.value ::
          call.guard == Some(g) && g in cell.triggered)
  }

  ghost predicate ServerOk(s: System) {
    && (forall u | u in s.up :: IsActivation(u) ==> u.id in s.records && SameMode(u.mode, s.records[u.id].mode))
    && (forall u | u in s.up :: u.valid && u.mode == DeactivateMode ==> u.related in s.records)
    && (forall a | a in s.server :: a.id in s.records && SameMode(a.mode, s.records[a.id].mode))
    && (s.putAt.Some? ==> s.putAt.value <= |s.server|)
  }

  predicate SameMode(sent: ActivationMode, mode: Mode) {
    sent == if mode == Single then ActivateSingle else ActivateContinuous
  }

  /** Server entries for `id`, fired or not. */
  function Entries(server: seq<Activation>, id: CorrelationId): nat {
    if server == [] then 0 else (if server[0].id == id then 1 else 0) + Entries(server[1..], id)
  }

  /** An activation is on its way to the server or stands there, but not both, and once. */
  ghost predicate SoleCopy(up: seq<ActivationSample>, server: seq<Activation>, id: CorrelationId) {
    UpCount(up, id) + Entries(server, id) <= 1
  }

  /** No activation is behind its own deactivation in the channel. */
  ghost predicate ChannelOk(up: seq<ActivationSample>, server: seq<Activation>) {
    && (forall id :: SoleCopy(up, server, id))
    && (forall i, j | 0 <= i < j < |up| && IsActivation(up[j]) :: !IsDeactivationOf(up[i], up[j].id))
  }

  /** Every getNextEvent call has a guard of its own. */
  ghost predicate GuardsDiffer(calls: map<nat, Call>, t: nat, u: nat) {
    t in calls && u in calls && t != u && calls[t].guard.Some? ==> calls[t].guard != calls[u].guard
  }

  ghost predicate OwnedBy(s: System, id: CorrelationId, c: nat) {
    id.writer in s.owner && s.owner[id.writer] == c
  }

  ghost predicate NodeAt(s: System, c: nat) {
    c in s.nodes ==> NodeOk(s.nodes[c], c, s.owner, s.records)
  }

  ghost predicate IdAt(s: System, id: CorrelationId) {
    id in s.records ==>
      && id.writer in s.owner && s.owner[id.writer] in s.nodes
      && IdOk(id, s.records[id], s.nodes[s.owner[id.writer]], Open(s, id), s.nextGuard)
  }

  ghost predicate CallAt(s: System, t: nat) {
    t in s.calls ==>
      var call := s.calls[t];
      && call.client in s.nodes && call.id in s.records
      && call.id in s.nodes[call.client].client.results
      && CallOk(call, s.nodes[call.client].client.results[call.id], |s.records[call.id].sets|, s.nextGuard)
  }

  ghost predicate Inv(s: System) {
    && (forall c :: NodeAt(s, c))
    && (forall id :: IdAt(s, id))
    && (forall t :: CallAt(s, t))
    && (forall t, u :: GuardsDiffer(s.calls, t, u))
    && ServerOk(s) && ChannelOk(s.up, s.server)
  }
}
