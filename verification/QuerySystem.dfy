/** Query clients, one query server and the channels between them as one transition
    system. The request is written under the connection mutex and its cell inserted under
    the answer mutex afterwards, so an answer may overtake the insertion. */
module QuerySystem {
  import opened Common
  import opened ConnectionId
  import CorrelationIdFilter
  import opened CorrelationIds
  import opened QueryClient
  import opened QueryServer

  /** `cells` holds every answer cell ever made; `writing` is a request that was written
      and whose cell is not inserted yet. */
  datatype Node = Node(
    cache: set<CorrelationId>,
    cells: map<CorrelationId, TriggerVal>,
    disconnected: bool,
    nonblocking: bool,
    guid: Option<Guid>,
    inbox: seq<Reply>,
    writing: Option<CorrelationId>)

  datatype Call = Call(client: nat, id: CorrelationId, woken: Option<seq<Cond>>)

  /** The history of one query: the replies the server sent for it, the request object
      they were given for, and the answers returned with OK. */
  datatype Record = Record(replies: seq<int>, via: Option<nat>, oks: seq<int>)

  /** `requests` maps every request object the server ever made to its query id; each is
      pending, answered, or was dropped when the server disconnected. */
  datatype System = System(
    nodes: map<nat, Node>,
    owner: map<Guid, nat>,
    up: seq<CorrelationId>,
    requests: map<nat, CorrelationId>,
    pending: set<nat>,
    answered: map<nat, int>,
    dropped: set<nat>,
    live: set<Guid>,
    calls: map<nat, Call>,
    records: map<CorrelationId, Record>)

  const INITIAL_NODE := Node({}, map[], true, false, None, [], None)

  function Initial(clients: set<nat>): System {
    System(map c | c in clients :: INITIAL_NODE, map[], [], map[], {}, map[], {}, {}, map[], map[])
  }

  datatype Step =
    | Connect(c: nat, g: Guid)
    | Guard(c: nat, disconnected: bool)
    | DiscardAll(c: nat)
    | ResetEndpoints(c: nat)
    | Block(c: nat, blocking: bool)
    | WriteRequest(c: nat, id: CorrelationId)
    | InsertRequest(c: nat)
    | LoseRequest(k: nat)
    | Arrive(k: nat, p: nat)
    | Liveness(g: Guid, alive: bool)
    | Answer(p: nat, answer: int)
    | ServerDisconnect
    | LoseReply(c: nat, k: nat)
    | Take(c: nat)
    | ReceiveOk(c: nat, id: CorrelationId)
    | EnterWait(t: nat, c: nat, id: CorrelationId)
    | Wake(t: nat, active: seq<Cond>)
    | Finish(t: nat)
    | Discard(c: nat, id: CorrelationId)

  /** As documented, no two receiving calls use the same id at the same time; a discard
      during a wait is allowed here. */
  predicate Unused(s: System, id: CorrelationId) {
    forall t | t in s.calls :: s.calls[t].id != id
  }

  function CellOf(n: Node, id: CorrelationId): TriggerVal {
    if id in n.cells then n.cells[id] else NEW_TRIGGER
  }

  function CachedCell(n: Node, id: CorrelationId): Option<TriggerVal> {
    if id in n.cache then Some(CellOf(n, id)) else None
  }

  predicate Holds(s: System, call: Call, cond: Cond)
    requires call.client in s.nodes
  {
    var n := s.nodes[call.client];
    match cond
    case DisconnectedCond => n.disconnected
    case NonblockingCond => n.nonblocking
    case DiscardCond => CellOf(n, call.id).discarded
    case ResultCond => CellOf(n, call.id).hasAnswer
  }

  /** Steps at one client that use nothing but its node. */
  predicate AtClient(step: Step) {
    step.Connect? || step.Guard? || step.DiscardAll? || step.ResetEndpoints? || step.Block? ||
    step.InsertRequest? || step.LoseReply? || step.Take? || step.Discard?
  }

  predicate NodeEnabled(n: Node, step: Step)
    requires AtClient(step)
  {
    match step
    case Connect(_, _) => n.guid.None?
    case ResetEndpoints(_) => n.writing.None?
    case InsertRequest(_) => n.writing.Some?
    case LoseReply(_, k) => k < |n.inbox|
    case Take(_) => n.inbox != []
    case Discard(_, id) => id in n.cache
    case _ => true
  }

  predicate Enabled(s: System, step: Step) {
    if AtClient(step) then
      && step.c in s.nodes && NodeEnabled(s.nodes[step.c], step)
      && (step.Connect? ==> step.g !in s.owner)
    else match step
      case WriteRequest(c, id) =>
        && c in s.nodes && s.nodes[c].writing.None? && s.nodes[c].guid == Some(id.writer)
        && id !in s.records
      case LoseRequest(k) => k < |s.up|
      case Arrive(k, p) => k < |s.up| && p !in s.requests
      case Answer(p, _) => p in s.pending && p in s.requests && s.requests[p].writer in s.live
      case ReceiveOk(c, id) =>
        && c in s.nodes && Unused(s, id)
        && ReceiveStatus(s.nodes[c].disconnected, CachedCell(s.nodes[c], id)) == Ok
      case EnterWait(t, c, id) =>
        && c in s.nodes && t !in s.calls && Unused(s, id)
        && WaitEntry(s.nodes[c].disconnected, CachedCell(s.nodes[c], id)).None?
      case Wake(t, active) =>
        && t in s.calls && s.calls[t].woken.None? && s.calls[t].client in s.nodes
        && forall i | 0 <= i < |active| :: Holds(s, s.calls[t], active[i])
      case Finish(t) => t in s.calls && s.calls[t].woken.Some? && s.calls[t].client in s.nodes
      case _ => true
  }

  function RecordOf(s: System, id: CorrelationId): Record {
    if id in s.records then s.records[id] else Record([], None, [])
  }

  function SetNode(s: System, c: nat, n: Node): System {
    s.(nodes := s.nodes[c := n])
  }

  function SetCell(n: Node, id: CorrelationId, v: TriggerVal): Node {
    n.(cells := n.cells[id := v])
  }

  /** OK takes the answer out of the cell and the entry out of the cache. */
  function Returned(s: System, c: nat, id: CorrelationId): System
    requires c in s.nodes
  {
    var n, r := s.nodes[c], RecordOf(s, id);
    SetNode(s, c, n.(cache := n.cache - {id})).(
      records := s.records[id := r.(oks := r.oks + [CellOf(n, id).answer])])
  }

  function Broadcast(nodes: map<nat, Node>, r: Reply): map<nat, Node> {
    map c | c in nodes ::
      if nodes[c].guid.Some? && CorrelationIdFilter.Accepts(nodes[c].guid.value, r.related.writer)
      then nodes[c].(inbox := nodes[c].inbox + [r])
      else nodes[c]
  }

  function CallStatus(s: System, call: Call): StatusCode
    requires call.client in s.nodes && call.woken.Some?
  {
    WaitStatus(s.nodes[call.client].disconnected, call.woken.value)
  }

  function NodeAfter(n: Node, step: Step): Node
    requires AtClient(step) && NodeEnabled(n, step)
  {
    match step
    case Connect(_, g) => n.(guid := Some(g), disconnected := false)
    case Guard(_, d) => n.(disconnected := d)
    case DiscardAll(_) =>
      n.(cache := {},
         cells := map id | id in n.cells :: if id in n.cache then SetDiscard(n.cells[id]) else n.cells[id],
         disconnected := true)
    case ResetEndpoints(_) => n.(guid := None, inbox := [], disconnected := true)
    case Block(_, b) => n.(nonblocking := b)
    case InsertRequest(_) =>
      var id := n.writing.value;
      SetCell(n, id, NEW_TRIGGER).(cache := n.cache + {id}, writing := None)
    case LoseReply(_, k) => n.(inbox := RemoveAt(n.inbox, k))
    case Take(_) =>
      var r := n.inbox[0];
      var m := n.(inbox := n.inbox[1..]);
      if r.related in n.cache then SetCell(m, r.related, SetAnswer(CellOf(n, r.related), r.answer)) else m
    case Discard(_, id) =>
      SetCell(n, id, SetDiscard(CellOf(n, id))).(cache := n.cache - {id})
  }

  function AfterWriteRequest(s: System, c: nat, id: CorrelationId): System
    requires c in s.nodes
  {
    SetNode(s, c, s.nodes[c].(writing := Some(id))).(
      up := s.up + [id], records := s.records[id := Record([], None, [])])
  }

  function AfterAnswer(s: System, p: nat, answer: int): System
    requires p in s.requests
  {
    var id := s.requests[p];
    var r := RecordOf(s, id);
    s.(pending := s.pending - {p},
       answered := s.answered[p := answer],
       nodes := Broadcast(s.nodes, Reply(id, answer)),
       records := s.records[id := r.(replies := r.replies + [answer], via := Some(p))])
  }

  function AfterFinish(s: System, t: nat): System
    requires t in s.calls && s.calls[t].woken.Some? && s.calls[t].client in s.nodes
  {
    var call := s.calls[t];
    var left := s.(calls := s.calls - {t});
    if CallStatus(s, call) == Ok then Returned(left, call.client, call.id) else left
  }

  function Next(s: System, step: Step): System
    requires Enabled(s, step)
  {
    if AtClient(step) then
      SetNode(s, step.c, NodeAfter(s.nodes[step.c], step)).(
        owner := if step.Connect? then s.owner[step.g := step.c] else s.owner)
    else match step
      case WriteRequest(c, id) => AfterWriteRequest(s, c, id)
      case LoseRequest(k) => s.(up := RemoveAt(s.up, k))
      case Arrive(k, p) =>
        s.(up := RemoveAt(s.up, k), requests := s.requests[p := s.up[k]], pending := s.pending + {p})
      case Liveness(g, alive) => s.(live := if alive then s.live + {g} else s.live - {g})
      case Answer(p, answer) => AfterAnswer(s, p, answer)
      case ServerDisconnect => s.(pending := {}, dropped := s.dropped + s.pending, live := {})
      case ReceiveOk(c, id) => Returned(s, c, id)
      case EnterWait(t, c, id) => s.(calls := s.calls[t := Call(c, id, None)])
      case Wake(t, active) => s.(calls := s.calls[t := s.calls[t].(woken := Some(active))])
      case Finish(t) => AfterFinish(s, t)
  }

  // ----- Invariant ------------------------------------------------------------

  /** A node with its connection: everything in it belongs to queries made there, and a
      reply that waits in its reader is the first news of its query. */
  ghost predicate NodeOk(n: Node, c: nat, owner: map<Guid, nat>, records: map<CorrelationId, Record>) {
    && n.cache <= n.cells.Keys
    && (n.guid.Some? ==> n.guid.value in owner && owner[n.guid.value] == c)
    && (n.guid.None? ==> n.inbox == [] && n.writing.None?)
    && Distinct(n.inbox)
    && (forall r | r in n.inbox :: ReplyOk(n, r, records))
    && (forall id | id in n.cells ::
          id in records && id.writer in owner && owner[id.writer] == c)
    && (n.writing.Some? ==>
          n.guid == Some(n.writing.value.writer) && n.writing.value in records
          && n.writing.value !in n.cells)
  }

  ghost predicate ReplyOk(n: Node, r: Reply, records: map<CorrelationId, Record>) {
    && n.guid == Some(r.related.writer)
    && r.related in records && records[r.related].replies == [r.answer]
    && !CellOf(n, r.related).hasAnswer && records[r.related].oks == []
  }

  ghost predicate NodeAt(s: System, c: nat) {
    c in s.nodes ==> NodeOk(s.nodes[c], c, s.owner, s.records)
  }

  /** One query: at most one reply, given by the recorded request object; at most one OK,
      with that reply; and no cell left the cache without being answered or discarded. */
  ghost predicate IdAt(s: System, id: CorrelationId) {
    id in s.records ==>
      && id.writer in s.owner && s.owner[id.writer] in s.nodes
      && var n := s.nodes[s.owner[id.writer]];
      && var h := s.records[id];
      && (h.via.None? ==> h.replies == [])
      && (h.via.Some? ==>
            && h.via.value in s.answered && h.via.value in s.requests
            && s.requests[h.via.value] == id && h.replies == [s.answered[h.via.value]])
      && (h.oks != [] ==> h.oks == h.replies)
      && if id in n.cells then
           && (n.cells[id].hasAnswer ==> h.replies == [n.cells[id].answer])
           && (id in n.cache ==> h.oks == [])
           && (id !in n.cache ==> n.cells[id].discarded || n.cells[id].hasAnswer)
         else n.writing == Some(id) && h.oks == []
  }

  ghost predicate CallAt(s: System, t: nat) {
    t in s.calls ==>
      var call := s.calls[t];
      && call.client in s.nodes && call.id in s.nodes[call.client].cells
      && call.id in s.records && s.records[call.id].oks == []
      && (call.woken.Some? && ResultCond in call.woken.value ==>
            s.nodes[call.client].cells[call.id].hasAnswer)
  }

  ghost predicate CallsDiffer(s: System, t: nat, u: nat) {
    t in s.calls && u in s.calls && t != u ==> s.calls[t].id != s.calls[u].id
  }

  ghost predicate RequestAt(s: System, p: nat) {
    && (p in s.requests <==> p in s.pending || p in s.answered || p in s.dropped)
    && !(p in s.pending && p in s.answered) && !(p in s.pending && p in s.dropped)
    && !(p in s.answered && p in s.dropped)
    && (p in s.requests ==>
          && s.requests[p] in s.records && s.requests[p] !in s.up
          && (p in s.answered <==> s.records[s.requests[p]].via == Some(p))
          && (p in s.pending ==> s.records[s.requests[p]].via == None))
  }

  ghost predicate RequestsDiffer(s: System, p: nat, q: nat) {
    p in s.requests && q in s.requests && p != q ==> s.requests[p] != s.requests[q]
  }

  ghost predicate UpOk(s: System) {
    && Distinct(s.up)
    && (forall id | id in s.up :: id in s.records && s.records[id].via == None)
  }

  ghost predicate Inv(s: System) {
    && (forall c :: NodeAt(s, c))
    && (forall id :: IdAt(s, id))
    && (forall t :: CallAt(s, t))
    && (forall t, u :: CallsDiffer(s, t, u))
    && (forall p :: RequestAt(s, p))
    && (forall p, q :: RequestsDiffer(s, p, q))
    && UpOk(s)
  }
}
