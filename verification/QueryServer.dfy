/** The query server: requests wait in a cache until they are answered. */
module QueryServer {
  import opened Common
  import opened ConnectionId
  import opened CorrelationIds

  /** The id object of one received request; the cache compares objects, not values. */
  class QueryId {
    const id: CorrelationId
    const writerHandle: nat

    constructor (id: CorrelationId, writerHandle: nat)
      ensures this.id == id && this.writerHandle == writerHandle
    {
      this.id, this.writerHandle := id, writerHandle;
    }
  }

  datatype Reply = Reply(related: CorrelationId, answer: int)

  /** `list::remove` of a handle. */
  function WithoutHandle(list: seq<nat>, handle: nat): seq<nat> {
    if list == [] then []
    else WithoutHandle(list[..|list| - 1], handle) +
         (if list[|list| - 1] == handle then [] else [list[|list| - 1]])
  }

  lemma {:induction false} WithoutHandleMembers(list: seq<nat>, handle: nat)
    ensures forall h :: h in WithoutHandle(list, handle) <==> h in list && h != handle
    ensures Distinct(list) ==> Distinct(WithoutHandle(list, handle))
  {
    if list != [] {
      var n := |list| - 1;
      WithoutHandleMembers(list[..n], handle);
      assert list == list[..n] + [list[n]];
      if Distinct(list) {
        var kept := WithoutHandle(list[..n], handle);
        assert list[n] !in list[..n] && list[n] !in kept;
        assert forall i | 0 <= i < |kept| :: kept[i] in kept;
      }
    }
  }

  class QueryServer {
    var requestCache: set<QueryId>
    var connectedClients: seq<nat>
    var shuttingDown: bool
    var requestReader: Option<Guid>
    var replyWriter: Option<Guid>

    ghost predicate Valid()
      reads this
    {
      Distinct(connectedClients)
    }

    /** The endpoints are as the middleware created them; `None` if that failed. */
    constructor (reader: Option<Guid>, writer: Option<Guid>)
      ensures Valid() && requestCache == {} && connectedClients == [] && !shuttingDown
      ensures requestReader == reader && replyWriter == writer
    {
      requestCache, connectedClients, shuttingDown := {}, [], false;
      requestReader, replyWriter := reader, writer;
    }

    /** The list holds exactly the handles whose writers are alive, each once. */
    method OnLivelinessChanged(handle: nat, aliveCountChange: int)
      requires Valid()
      modifies this`connectedClients
      ensures Valid()
      ensures shuttingDown || aliveCountChange == 0 ==> connectedClients == old(connectedClients)
      ensures forall h | h != handle :: h in connectedClients <==> h in old(connectedClients)
      ensures !shuttingDown && aliveCountChange > 0 ==> handle in connectedClients
      ensures !shuttingDown && aliveCountChange < 0 ==> handle !in connectedClients
    {
      if shuttingDown { return; }
      if aliveCountChange > 0 {
        if handle !in connectedClients { connectedClients := connectedClients + [handle]; }
      } else if aliveCountChange < 0 {
        WithoutHandleMembers(connectedClients, handle);
        connectedClients := WithoutHandle(connectedClients, handle);
      }
    }

    /** One valid request of a batch: it gets an id object of its own, and the handler is
        called with that object after unlocking. */
    method OnRequest(id: CorrelationId, writerHandle: nat) returns (query: QueryId)
      modifies this`requestCache
      ensures fresh(query) && query.id == id && query.writerHandle == writerHandle
      ensures requestCache == old(requestCache) + {query}
    {
      query := new QueryId(id, writerHandle);
      requestCache := requestCache + {query};
    }

    /** OK exactly if a reply was sent, and then the request has left the cache; every
        other status leaves the cache as it was, so the request can still be answered. */
    method Answer(query: QueryId, answer: int, writeThrows: bool)
      returns (status: StatusCode, sent: Option<Reply>)
      modifies this`requestCache
      ensures status ==
        if shuttingDown then Disconnected
        else if query !in old(requestCache) then WrongId
        else if query.writerHandle !in connectedClients then Disconnected
        else if writeThrows then ErrorCommunication else Ok
      ensures sent == if status == Ok then Some(Reply(query.id, answer)) else None
      ensures requestCache == if status == Ok then old(requestCache) - {query} else old(requestCache)
    {
      sent := None;
      if shuttingDown { return Disconnected, sent; }
      if query !in requestCache { return WrongId, sent; }
      if query.writerHandle !in connectedClients { return Disconnected, sent; }
      if writeThrows { return ErrorCommunication, sent; }
      sent := Some(Reply(query.id, answer));
      requestCache := requestCache - {query};
      status := Ok;
    }

    method ServerInitiatedDisconnect()
      modifies this`requestCache, this`connectedClients, this`requestReader, this`replyWriter
      ensures requestCache == {} && connectedClients == []
      ensures requestReader == None && replyWriter == None
    {
      requestCache, connectedClients := {}, [];
      requestReader := None;
      replyWriter := None;
    }
  }
}
