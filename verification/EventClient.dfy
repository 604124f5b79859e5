/** The event client: its cache of activations, the guards that release blocked callers,
    and the blocking calls split at the point where the mutex is given up. */
module EventClient {
  import opened Common
  import opened ConnectionId
  import opened Connectors
  import opened CorrelationIds
  import opened EventResults
  import opened EventServer

  /** The conditions in the wait set of a blocked call. */
  datatype Cond = DisconnectedCond | NonblockingCond | DeactivatedCond | EventCond | NextCond(g: GuardId)

  /** `results` holds every cell ever made, since a blocked call keeps its cell alive
      after the cache has let go of it. */
  datatype Client = Client(
    cache: set<CorrelationId>,
    results: map<CorrelationId, ResultVal>,
    disconnected: bool,
    nonblocking: bool)

  const INITIAL_CLIENT := Client({}, map[], true, false)

  ghost predicate Wellformed(c: Client) { c.cache <= c.results.Keys }

  // ----- Specification of the steps under the mutex ---------------------------

  function InsertResult(c: Client, id: CorrelationId, mode: Mode): Client {
    c.(cache := c.cache + {id}, results := c.results[id := NewResult(mode)])
  }

  function CellOf(c: Client, id: CorrelationId): ResultVal {
    if id in c.results then c.results[id] else NewResult(Single)
  }

  function RemoveResult(c: Client, id: CorrelationId): Client {
    c.(cache := c.cache - {id}, results := c.results[id := Deactivate(CellOf(c, id))])
  }

  function Deliver(c: Client, s: EventSample): Client {
    if s.related in c.cache
    then c.(results := c.results[s.related := SetNew(CellOf(c, s.related), s.event)])
    else c
  }

  /** What a batch of samples does to the cell of one activation; samples that carry no
      valid data are skipped. */
  function SetAll(r: ResultVal, id: CorrelationId, samples: seq<Option<EventSample>>): ResultVal {
    if samples == [] then r
    else
      var before := SetAll(r, id, samples[..|samples| - 1]);
      var s := samples[|samples| - 1];
      if s.Some? && s.value.related == id then SetNew(before, s.value.event) else before
  }

  /** A whole batch, sample by sample, as the event system delivers it. */
  function DeliverAll(c: Client, samples: seq<Option<EventSample>>): Client {
    if samples == [] then c
    else
      var before := DeliverAll(c, samples[..|samples| - 1]);
      var s := samples[|samples| - 1];
      if s.Some? then Deliver(before, s.value) else before
  }

  /** Delivering a batch one sample at a time changes no cell but the cached ones, and
      each of these as the upcall of the client object does. */
  lemma {:induction false} DeliverAllPerCell(c: Client, samples: seq<Option<EventSample>>, id: CorrelationId)
    ensures DeliverAll(c, samples).cache == c.cache
    ensures CellOf(DeliverAll(c, samples), id) ==
      if id in c.cache then SetAll(CellOf(c, id), id, samples) else CellOf(c, id)
  {
    if samples != [] { DeliverAllPerCell(c, samples[..|samples| - 1], id); }
  }

  function DeactivateIn(results: map<CorrelationId, ResultVal>, ids: set<CorrelationId>)
    : map<CorrelationId, ResultVal>
  {
    map id | id in results :: if id in ids then Deactivate(results[id]) else results[id]
  }

  function DropAll(c: Client): Client {
    c.(cache := {}, results := DeactivateIn(c.results, c.cache), disconnected := true)
  }

  /** What getEvent answers at once, given the cell the cache has for the id; `None`
      means that it blocks. */
  function GetEntry(disconnected: bool, cell: Option<ResultVal>): Option<StatusCode> {
    if disconnected then Some(Disconnected)
    else if cell.None? then Some(WrongId)
    else None
  }

  /** As above; in single mode an event that was fired before is missed. */
  function NextEntry(disconnected: bool, cell: Option<ResultVal>): Option<StatusCode> {
    if GetEntry(disconnected, cell).Some? then GetEntry(disconnected, cell)
    else if cell.value.mode == Single && cell.value.eventGuard then Some(Passive)
    else None
  }

  /** The loop over the active conditions after getEvent has taken the mutex again. */
  function ScanGet(r: ResultVal, active: seq<Cond>): StatusCode {
    if active == [] then Error
    else match active[0]
      case DisconnectedCond => Disconnected
      case NonblockingCond => Cancelled
      case DeactivatedCond => NotActivated
      case EventCond =>
        if r.hasNew then Ok else if r.mode == Single then Passive else ScanGet(r, active[1..])
      case NextCond(_) => ScanGet(r, active[1..])
  }

  function ScanNext(r: ResultVal, g: GuardId, active: seq<Cond>): StatusCode {
    if active == [] then Error
    else match active[0]
      case DisconnectedCond => Disconnected
      case NonblockingCond => Cancelled
      case DeactivatedCond => NotActivated
      case EventCond => ScanNext(r, g, active[1..])
      case NextCond(h) => if h == g && r.hasNew then Ok else ScanNext(r, g, active[1..])
  }

  function GetStatus(r: ResultVal, active: seq<Cond>): StatusCode {
    if active == [] then Timeout else ScanGet(r, active)
  }

  function NextStatus(r: ResultVal, g: GuardId, active: seq<Cond>): StatusCode {
    if active == [] then Timeout else ScanNext(r, g, active)
  }

  /** OK means that a new event is there and the call's own condition released it. */
  lemma {:induction false} OkMeansNewEvent(r: ResultVal, g: GuardId, active: seq<Cond>)
    ensures ScanGet(r, active) == Ok ==> r.hasNew && EventCond in active
    ensures ScanNext(r, g, active) == Ok ==> r.hasNew && NextCond(g) in active
  {
    if active != [] { OkMeansNewEvent(r, g, active[1..]); }
  }

  // ----- The client object ----------------------------------------------------

  class EventClient {
    var cache: map<CorrelationId, EventResult>
    var disconnectedGuard: bool
    var nonblockingGuard: bool
    var isBlocking: bool
    var shuttingDown: bool
    var activationWriter: Option<Guid>
    var eventReader: Option<Guid>
    const writerConnector: DDSWriterConnector
    const readerConnector: DDSReaderConnector

    /** Every activation has a cell of its own. */
    ghost predicate Valid()
      reads this
    {
      forall a, b | a in cache && b in cache && cache[a] == cache[b] :: a == b
    }

    /** The cell of an id, as far as the id is one of this library's and is cached. */
    ghost function Cell(id: Option<CorrelationId>): Option<ResultVal>
      reads this, cache.Values
    {
      if id.Some? && id.value in cache then Some(cache[id.value].View()) else None
    }

    constructor ()
      ensures Valid() && cache == map[] && disconnectedGuard && !nonblockingGuard
      ensures activationWriter == None && eventReader == None
    {
      cache := map[];
      disconnectedGuard, nonblockingGuard, isBlocking, shuttingDown := true, false, true, false;
      activationWriter, eventReader := None, None;
      writerConnector := new DDSWriterConnector();
      readerConnector := new DDSReaderConnector();
    }

    /** `written` is the id the middleware gave the activation sample, or `None` if the
        write threw; `sent` is the mode it was sent with. Existing cells are not touched. */
    method Activate(mode: Mode, written: Option<CorrelationId>)
      returns (status: StatusCode, id: Option<CorrelationId>, sent: Option<ActivationMode>)
      requires Valid()
      modifies this`cache
      ensures Valid()
      ensures status == if disconnectedGuard then Disconnected
                        else if written.Some? then Ok else ErrorCommunication
      ensures status != Ok ==> id == None && sent == None && cache == old(cache)
      ensures status == Ok ==> sent == Some(if mode == Continuous then ActivateContinuous else ActivateSingle)
      ensures status == Ok ==>
        && id == written && id.value in cache && cache == old(cache)[id.value := cache[id.value]]
        && fresh(cache[id.value]) && cache[id.value].View() == NewResult(mode)
    {
      if disconnectedGuard { return Disconnected, None, None; }
      var activationMode := ActivateSingle;
      if mode == Continuous { activationMode := ActivateContinuous; }
      if written.None? { return ErrorCommunication, None, None; }
      var cell := new EventResult(mode);
      cache := cache[written.value := cell];
      return Ok, written, Some(activationMode);
    }

    /** `sent` is the related id of the deactivation sample, if one was written. */
    method Deactivate(id: Option<CorrelationId>, writeThrows: bool)
      returns (status: StatusCode, sent: Option<CorrelationId>)
      requires Valid()
      modifies this`cache, if id.Some? && id.value in cache then {cache[id.value]} else {}
      ensures Valid()
      ensures status == if id.None? || id.value !in old(cache) then WrongId
                        else if !disconnectedGuard && writeThrows then ErrorCommunication else Ok
      ensures sent == if status == Ok && !disconnectedGuard then id else None
      ensures status == Ok ==>
        && cache == old(cache) - {id.value}
        && old(cache)[id.value].View() == EventResults.Deactivate(old(cache[id.value].View()))
      ensures status != Ok ==> cache == old(cache) && Cell(id) == old(Cell(id))
    {
      sent := None;
      if id.None? || id.value !in cache { return WrongId, sent; }
      if !disconnectedGuard {
        if writeThrows { return ErrorCommunication, sent; }
        sent := id;
      }
      cache[id.value].DeactivateEvent();
      cache := cache - {id.value};
      status := Ok;
    }

    method TryEvent(id: Option<CorrelationId>) returns (status: StatusCode)
      ensures status == if Cell(id).Some? then Try(Cell(id).value) else WrongId
    {
      if id.None? || id.value !in cache { return WrongId; }
      var cell := cache[id.value];
      if cell.hasNewEvent { return Ok; }
      status := if cell.hasEventGuard then Passive else Active;
    }

    /** getEvent up to the point where it releases the mutex and waits on `cell`. */
    method GetEventEnter(id: Option<CorrelationId>) returns (status: Option<StatusCode>, cell: EventResult?)
      ensures status == GetEntry(disconnectedGuard, Cell(id))
      ensures if status.None? then cell == cache[id.value] else cell == null
    {
      if disconnectedGuard { return Some(Disconnected), null; }
      if id.None? || id.value !in cache { return Some(WrongId), null; }
      return None, cache[id.value];
    }

    /** getEvent after the wait, with the mutex and the conditions found active; `cell`
        may have left the cache meanwhile. */
    method GetEventFinish(cell: EventResult, active: seq<Cond>)
      returns (status: StatusCode, event: Event)
      modifies cell
      ensures status == GetStatus(old(cell.View()), active)
      ensures status == Ok ==> event == old(cell.event)
      ensures cell.View() == if status == Ok then Consume(old(cell.View())) else old(cell.View())
    {
      event := DEFAULT_EVENT;
      if |active| == 0 { return Timeout, event; }
      var i := 0;
      while i < |active|
        invariant i <= |active| && cell.View() == old(cell.View())
        invariant ScanGet(cell.View(), active) == ScanGet(cell.View(), active[i..])
      {
        assert active[i..][1..] == active[i + 1..];
        match active[i] {
          case DisconnectedCond => return Disconnected, event;
          case NonblockingCond => return Cancelled, event;
          case DeactivatedCond => return NotActivated, event;
          case EventCond =>
            if cell.hasNewEvent {
              event := cell.ConsumeEvent();
              return Ok, event;
            } else if cell.mode == Single {
              return Passive, event;
            }
          case NextCond(_) =>
        }
        i := i + 1;
      }
      return Error, event;
    }

    /** getNextEvent up to the wait; `g` is the guard condition it creates. */
    method GetNextEventEnter(id: Option<CorrelationId>, g: GuardId)
      returns (status: Option<StatusCode>, cell: EventResult?)
      modifies if id.Some? && id.value in cache then {cache[id.value]} else {}
      ensures status == NextEntry(disconnectedGuard, old(Cell(id)))
      ensures if status.None? then cell == cache[id.value] else cell == null
      ensures Cell(id) == if status.None? then Some(AddGuard(old(Cell(id)).value, g)) else old(Cell(id))
    {
      if disconnectedGuard { return Some(Disconnected), null; }
      if id.None? || id.value !in cache { return Some(WrongId), null; }
      if cache[id.value].mode == Single && cache[id.value].hasEventGuard { return Some(Passive), null; }
      cell := cache[id.value];
      cell.AddNextEventGuard(g);
      status := None;
    }

    method GetNextEventFinish(cell: EventResult, g: GuardId, active: seq<Cond>)
      returns (status: StatusCode, event: Event)
      modifies cell
      ensures status == NextStatus(old(cell.View()), g, active)
      ensures status == Ok ==> event == old(cell.event)
      ensures cell.View() == if status == Ok then ConsumeNext(old(cell.View()), g) else old(cell.View())
    {
      event := DEFAULT_EVENT;
      if |active| == 0 { return Timeout, event; }
      var i := 0;
      while i < |active|
        invariant i <= |active| && cell.View() == old(cell.View())
        invariant ScanNext(cell.View(), g, active) == ScanNext(cell.View(), g, active[i..])
      {
        assert active[i..][1..] == active[i + 1..];
        match active[i] {
          case DisconnectedCond => return Disconnected, event;
          case NonblockingCond => return Cancelled, event;
          case DeactivatedCond => return NotActivated, event;
          case EventCond =>
          case NextCond(h) =>
            if h == g && cell.hasNewEvent {
              event := cell.ConsumeNextEvent(g);
              return Ok, event;
            }
        }
        i := i + 1;
      }
      return Error, event;
    }

    /** The upcall for incoming events: nothing is taken while the client is disconnected
        or the component shuts down. */
    method OnDataAvailable(samples: seq<Option<EventSample>>)
      requires Valid()
      modifies cache.Values
      ensures forall id | id in cache ::
        cache[id].View() == if shuttingDown || disconnectedGuard then old(cache[id].View())
                            else SetAll(old(cache[id].View()), id, samples)
    {
      if shuttingDown || disconnectedGuard { return; }
      for i := 0 to |samples|
        invariant forall id | id in cache ::
          cache[id].View() == SetAll(old(cache[id].View()), id, samples[..i])
      {
        assert samples[..i + 1][..i] == samples[..i];
        if samples[i].Some? && samples[i].value.related in cache {
          cache[samples[i].value.related].SetNewEvent(samples[i].value.event);
        }
      }
      assert samples[..|samples|] == samples;
    }

    /** The client counts as connected while a writer at the other end is alive. */
    method OnLivelinessChanged(aliveCount: nat)
      modifies this`disconnectedGuard
      ensures disconnectedGuard <==> aliveCount == 0
    {
      if aliveCount == 0 {
        disconnectedGuard := true;
      } else {
        disconnectedGuard := false;
      }
    }

    /** Sets the guard that releases blocked calls to the argument itself. */
    method Blocking(blocking: bool)
      modifies this`isBlocking, this`nonblockingGuard
      ensures isBlocking == blocking && nonblockingGuard == blocking
    {
      isBlocking := blocking;
      nonblockingGuard := blocking;
    }

    method Disconnect()
      requires Valid()
      modifies this`cache, this`disconnectedGuard, this`activationWriter, this`eventReader, cache.Values
      ensures Valid() && cache == map[] && disconnectedGuard
      ensures activationWriter == None && eventReader == None
      ensures forall id | id in old(cache) ::
        old(cache)[id].View() == EventResults.Deactivate(old(cache[id].View()))
    {
      disconnectedGuard := true;
      var ahead := cache.Keys;
      while ahead != {}
        invariant cache == old(cache) && ahead <= cache.Keys && disconnectedGuard
        invariant forall id | id in ahead :: cache[id].View() == old(cache[id].View())
        invariant forall id | id in cache.Keys - ahead ::
          cache[id].View() == EventResults.Deactivate(old(cache[id].View()))
        decreases ahead
      {
        var id :| id in ahead;
        cache[id].DeactivateEvent();
        ahead := ahead - {id};
      }
      cache := map[];
      activationWriter := None;
      eventReader := None;
      disconnectedGuard := true;
    }

    /** Connecting from the disconnected state: topics, writer, filter, reader. */
    method ConnectEndpoints(
      topicsThrow: bool, writerEnv: Environment, filterThrows: bool, readerEnv: Environment)
      returns (status: StatusCode)
      requires Valid() && cache == map[] && disconnectedGuard
      requires activationWriter == None && eventReader == None
      modifies this`cache, this`disconnectedGuard, this`activationWriter, this`eventReader
      ensures Valid() && cache == map[]
      ensures ConnectAnswers(topicsThrow, writerEnv, filterThrows, readerEnv, status)
      ensures status == Ok <==> !disconnectedGuard
      ensures activationWriter == if status == Ok then writerEnv.created else None
      ensures eventReader == if status == Ok then readerEnv.created else None
    {
      if topicsThrow {
        Disconnect();
        return ErrorCommunication;
      }
      status, activationWriter := writerConnector.Reconnect(writerEnv);
      if status != Ok {
        Disconnect();
        return status;
      }
      if filterThrows {
        Disconnect();
        return ErrorCommunication;
      }
      status, eventReader := readerConnector.Reconnect(readerEnv);
      if status != Ok {
        Disconnect();
      } else {
        disconnectedGuard := false;
      }
    }

    /** All or nothing: OK exactly if every step of the middleware went well, and then both
        endpoints exist and the client counts as connected; after any failure or exception
        neither endpoint exists. In both cases every earlier activation is dropped and its
        blocked callers are released. */
    method Connect(topicsThrow: bool, writerEnv: Environment, filterThrows: bool, readerEnv: Environment)
      returns (status: StatusCode)
      requires Valid()
      modifies this`cache, this`disconnectedGuard, this`activationWriter, this`eventReader, cache.Values
      ensures Valid() && cache == map[]
      ensures ConnectAnswers(topicsThrow, writerEnv, filterThrows, readerEnv, status)
      ensures status == Ok <==> !disconnectedGuard
      ensures activationWriter == if status == Ok then writerEnv.created else None
      ensures eventReader == if status == Ok then readerEnv.created else None
      ensures forall id | id in old(cache) ::
        old(cache)[id].View() == EventResults.Deactivate(old(cache[id].View()))
    {
      Disconnect();
      status := ConnectEndpoints(topicsThrow, writerEnv, filterThrows, readerEnv);
    }
  }
}
