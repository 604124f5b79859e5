/** The query client: pending queries, the cells their answers arrive in, and the blocking
    receive split at the point where the mutex is given up. */
module QueryClient {
  import opened Common
  import opened ConnectionId
  import opened Connectors
  import opened CorrelationIds
  import opened QueryServer

  datatype Cond = DisconnectedCond | NonblockingCond | DiscardCond | ResultCond

  datatype TriggerVal = TriggerVal(answer: int, hasAnswer: bool, discarded: bool)

  const NEW_TRIGGER := TriggerVal(0, false, false)

  function SetAnswer(v: TriggerVal, answer: int): TriggerVal {
    v.(answer := answer, hasAnswer := true)
  }

  function SetDiscard(v: TriggerVal): TriggerVal { v.(discarded := true) }

  /** What queryReceive answers, given the cell the cache has for the id. */
  function ReceiveStatus(disconnected: bool, cell: Option<TriggerVal>): StatusCode {
    if disconnected then Disconnected
    else if cell.None? then WrongId
    else if cell.value.hasAnswer then Ok else NoData
  }

  /** What queryReceiveWait answers at once; `None` means that it blocks. */
  function WaitEntry(disconnected: bool, cell: Option<TriggerVal>): Option<StatusCode> {
    if disconnected then Some(Disconnected) else if cell.None? then Some(WrongId) else None
  }

  /** The loop over the active conditions: the first one decides. */
  function WaitStatus(disconnected: bool, active: seq<Cond>): StatusCode {
    if active == [] then Timeout
    else match active[0]
      case DisconnectedCond => Disconnected
      case NonblockingCond => Cancelled
      case DiscardCond => if disconnected then Disconnected else Cancelled
      case ResultCond => Ok
  }

  // ----- The cell of one query ------------------------------------------------

  class QueryClientAnswerTrigger {
    var answer: int
    var hasAnswerGuard: bool
    var discardedGuard: bool

    constructor ()
      ensures View() == NEW_TRIGGER
    {
      answer, hasAnswerGuard, discardedGuard := 0, false, false;
    }

    function View(): TriggerVal
      reads this
    {
      TriggerVal(answer, hasAnswerGuard, discardedGuard)
    }

    method TriggerNewAnswerData(answer: int)
      modifies this
      ensures View() == SetAnswer(old(View()), answer)
    {
      this.answer := answer;
      hasAnswerGuard := true;
    }

    method TriggerDiscard()
      modifies this
      ensures View() == SetDiscard(old(View()))
    {
      discardedGuard := true;
    }
  }

  // ----- The client object ----------------------------------------------------

  class QueryClient {
    var cache: map<CorrelationId, QueryClientAnswerTrigger>
    var disconnectedGuard: bool
    var nonblockingGuard: bool
    var isBlocking: bool
    var requestWriter: Option<Guid>
    var replyReader: Option<Guid>
    const writerConnector: DDSWriterConnector
    const readerConnector: DDSReaderConnector

    /** Every pending query has a cell of its own. */
    ghost predicate Valid()
      reads this
    {
      forall a, b | a in cache && b in cache && cache[a] == cache[b] :: a == b
    }

    ghost function Cell(id: Option<CorrelationId>): Option<TriggerVal>
      reads this, cache.Values
    {
      if id.Some? && id.value in cache then Some(cache[id.value].View()) else None
    }

    constructor ()
      ensures Valid() && cache == map[] && disconnectedGuard && !nonblockingGuard
      ensures requestWriter == None && replyReader == None
    {
      cache := map[];
      disconnectedGuard, nonblockingGuard, isBlocking := true, false, true;
      requestWriter, replyReader := None, None;
      writerConnector := new DDSWriterConnector();
      readerConnector := new DDSReaderConnector();
    }

    /** The second half of queryRequest, after the write has returned id `id`. */
    method InsertRequest(id: CorrelationId)
      requires Valid()
      modifies this`cache
      ensures Valid()
      ensures id in cache && cache == old(cache)[id := cache[id]]
      ensures fresh(cache[id]) && cache[id].View() == NEW_TRIGGER
    {
      var cell := new QueryClientAnswerTrigger();
      cache := cache[id := cell];
    }

    /** A request that nothing interrupts; `written` is the id the middleware gave the
        request sample, or `None` if the write threw. */
    method QueryRequest(written: Option<CorrelationId>)
      returns (status: StatusCode, id: Option<CorrelationId>)
      requires Valid()
      modifies this`cache
      ensures Valid()
      ensures status == if disconnectedGuard then Disconnected
                        else if written.Some? then Ok else ErrorCommunication
      ensures status != Ok ==> id == None && cache == old(cache)
      ensures status == Ok ==>
        && id == written && id.value in cache && cache == old(cache)[id.value := cache[id.value]]
        && fresh(cache[id.value]) && cache[id.value].View() == NEW_TRIGGER
    {
      if disconnectedGuard { return Disconnected, None; }
      if written.None? { return ErrorCommunication, None; }
      InsertRequest(written.value);
      return Ok, written;
    }

    /** The client counts as connected while a writer at the other end is alive. */
    method OnLivelinessChanged(aliveCount: nat)
      modifies this`disconnectedGuard
      ensures disconnectedGuard <==> aliveCount == 0
    {
      if aliveCount == 0 {
        disconnectedGuard := true;
      } else {
        disconnectedGuard := false;
      }
    }

    /** Sets the guard that releases blocked calls to the argument itself. */
    method Blocking(blocking: bool)
      modifies this`isBlocking, this`nonblockingGuard
      ensures isBlocking == blocking && nonblockingGuard == blocking
    {
      isBlocking := blocking;
      nonblockingGuard := blocking;
    }

    method OnAnswer(reply: Reply)
      requires Valid()
      modifies cache.Values
      ensures forall id | id in cache ::
        cache[id].View() == if id == reply.related then SetAnswer(old(cache[id].View()), reply.answer)
                            else old(cache[id].View())
    {
      if reply.related in cache { cache[reply.related].TriggerNewAnswerData(reply.answer); }
    }

    method QueryReceive(id: Option<CorrelationId>) returns (status: StatusCode, answer: int)
      requires Valid()
      modifies this`cache
      ensures Valid() && status == ReceiveStatus(disconnectedGuard, old(Cell(id)))
      ensures status == Ok ==> answer == old(Cell(id)).value.answer && cache == old(cache) - {id.value}
      ensures status != Ok ==> cache == old(cache)
    {
      answer := 0;
      if disconnectedGuard { return Disconnected, answer; }
      if id.None? || id.value !in cache { return WrongId, answer; }
      if !cache[id.value].hasAnswerGuard { return NoData, answer; }
      answer := cache[id.value].answer;
      cache := cache - {id.value};
      status := Ok;
    }

    method QueryReceiveWaitEnter(id: Option<CorrelationId>)
      returns (status: Option<StatusCode>, cell: QueryClientAnswerTrigger?)
      ensures status == WaitEntry(disconnectedGuard, Cell(id))
      ensures if status.None? then cell == cache[id.value] else cell == null
    {
      if disconnectedGuard { return Some(Disconnected), null; }
      if id.None? || id.value !in cache { return Some(WrongId), null; }
      return None, cache[id.value];
    }

    /** After the wait; the entry is erased if it is still there. */
    method QueryReceiveWaitFinish(id: CorrelationId, cell: QueryClientAnswerTrigger, active: seq<Cond>)
      returns (status: StatusCode, answer: int)
      requires Valid()
      modifies this`cache
      ensures Valid() && status == WaitStatus(disconnectedGuard, active)
      ensures status == Ok ==> answer == cell.answer
      ensures cache == if status == Ok then old(cache) - {id} else old(cache)
    {
      answer := 0;
      if |active| == 0 { return Timeout, answer; }
      match active[0] {
        case DisconnectedCond => status := Disconnected;
        case NonblockingCond => status := Cancelled;
        case DiscardCond => status := if disconnectedGuard then Disconnected else Cancelled;
        case ResultCond =>
          answer := cell.answer;
          cache := cache - {id};
          status := Ok;
      }
    }

    method QueryDiscard(id: Option<CorrelationId>) returns (status: StatusCode)
      requires Valid()
      modifies this`cache, if id.Some? && id.value in cache then {cache[id.value]} else {}
      ensures Valid()
      ensures status == if id.Some? && id.value in old(cache) then Ok else WrongId
      ensures status == Ok ==>
        && cache == old(cache) - {id.value}
        && old(cache)[id.value].View() == SetDiscard(old(cache[id.value].View()))
      ensures status != Ok ==> cache == old(cache)
    {
      if id.None? || id.value !in cache { return WrongId; }
      cache[id.value].TriggerDiscard();
      cache := cache - {id.value};
      status := Ok;
    }

    /** The part of disconnect made under the answer mutex. */
    method DiscardAll()
      requires Valid()
      modifies this`cache, this`disconnectedGuard, cache.Values
      ensures Valid() && cache == map[] && disconnectedGuard
      ensures forall id | id in old(cache) ::
        old(cache)[id].View() == SetDiscard(old(cache[id].View()))
    {
      disconnectedGuard := true;
      var ahead := cache.Keys;
      while ahead != {}
        invariant cache == old(cache) && ahead <= cache.Keys && disconnectedGuard
        invariant forall id | id in ahead :: cache[id].View() == old(cache[id].View())
        invariant forall id | id in cache.Keys - ahead :: cache[id].View() == SetDiscard(old(cache[id].View()))
        decreases ahead
      {
        var id :| id in ahead;
        cache[id].TriggerDiscard();
        ahead := ahead - {id};
      }
      cache := map[];
    }

    method Disconnect()
      requires Valid()
      modifies this`cache, this`disconnectedGuard, this`requestWriter, this`replyReader, cache.Values
      ensures Valid() && cache == map[] && disconnectedGuard && requestWriter == None && replyReader == None
      ensures forall id | id in old(cache) ::
        old(cache)[id].View() == SetDiscard(old(cache[id].View()))
    {
      DiscardAll();
      requestWriter := None;
      replyReader := None;
      disconnectedGuard := true;
    }

    /** All or nothing, as for the event client, as long as no request is inserted and no
        liveliness upcall comes in between. */
    method Connect(topicsThrow: bool, writerEnv: Environment, filterThrows: bool, readerEnv: Environment)
      returns (status: StatusCode)
      requires Valid()
      modifies this`cache, this`disconnectedGuard, this`requestWriter, this`replyReader, cache.Values
      ensures Valid() && cache == map[]
      ensures ConnectAnswers(topicsThrow, writerEnv, filterThrows, readerEnv, status)
      ensures status == Ok <==> !disconnectedGuard
      ensures requestWriter == if status == Ok then writerEnv.created else None
      ensures replyReader == if status == Ok then readerEnv.created else None
      ensures forall id | id in old(cache) ::
        old(cache)[id].View() == SetDiscard(old(cache[id].View()))
    {
      Disconnect();
      if topicsThrow {
        Disconnect();
        return ErrorCommunication;
      }
      status, requestWriter := writerConnector.Reconnect(writerEnv);
      if status != Ok {
        Disconnect();
        return status;
      }
      if filterThrows {
        Disconnect();
        return ErrorCommunication;
      }
      status, replyReader := readerConnector.Reconnect(readerEnv);
      if status != Ok {
        Disconnect();
      } else {
        disconnectedGuard := false;
      }
    }
  }
}
