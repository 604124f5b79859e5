/** Sample identities: the identity of the writer and its sequence number. Two ids are
    equal exactly when both parts are. */
module CorrelationIds {
  import opened ConnectionId

  datatype CorrelationId = CorrelationId(writer: Guid, sequenceNumber: int)
}
