/** Shared small types: optional values and the status codes of the patterns. */
module Common {

  datatype Option<+T> = None | Some(value: T)

  datatype StatusCode =
    | Ok
    | Disconnected
    | WrongId
    | NotActivated
    | Cancelled
    | Timeout
    | Passive
    | Active
    | NoData
    | ServiceUnavailable
    | IncompatibleService
    | ErrorCommunication
    | Error

  /** White space as the C library classifies it. */
  predicate IsSpace(c: char) { c == ' ' || '\t' <= c <= '\r' }

  predicate Distinct<T(==)>(q: seq<T>) {
    forall i, j | 0 <= i < j < |q| :: q[i] != q[j]
  }

  function RemoveAt<T>(q: seq<T>, i: nat): seq<T>
    requires i < |q|
  {
    q[..i] + q[i + 1..]
  }

  lemma RemoveAtMembers<T>(q: seq<T>, i: nat)
    requires i < |q| && Distinct(q)
    ensures Distinct(RemoveAt(q, i))
    ensures forall x :: x in RemoveAt(q, i) <==> x in q && x != q[i]
  {
    var rest := RemoveAt(q, i);
    assert forall j | 0 <= j < |rest| :: rest[j] == q[if j < i then j else j + 1];
    forall x | x in q && x != q[i] ensures x in rest {
      var j :| 0 <= j < |q| && q[j] == x;
      assert rest[if j < i then j else j - 1] == x;
    }
  }
}
