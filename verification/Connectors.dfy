/** Connecting one endpoint: create it, wait until a remote endpoint answers, and leave
    no half-open endpoint behind. What the middleware does is an outcome per step. */
module Connectors {
  import opened Common
  import opened ConnectionId

  /** The conditions a connector waits for. */
  datatype Condition = ConnectionCondition | IncompatibleQosCondition

  datatype WaitOutcome =
    | WaitReturned(active: seq<Condition>)
    | WaitThrew

  /** What the middleware does during one `reconnect`: whether the endpoint is created
      (with its identity), how the wait ends, and whether handing over the listener throws. */
  datatype Environment = Environment(created: Option<Guid>, wait: WaitOutcome, listenerThrows: bool)

  /** The first condition the status loop acts on decides. */
  predicate Acknowledged(env: Environment, first: Condition) {
    && env.created.Some?
    && env.wait.WaitReturned?
    && env.wait.active != [] && env.wait.active[0] == first
  }

  /** Nothing answered before the timeout. */
  predicate TimedOut(env: Environment) { env.created.Some? && env.wait == WaitReturned([]) }

  /** When a reader comes up: the connection condition must be the first one reported. */
  predicate ReaderConnects(env: Environment) {
    Acknowledged(env, ConnectionCondition) && !env.listenerThrows
  }

  /** When a writer comes up: it looks for the connection condition in the whole report. */
  predicate WriterConnects(env: Environment) {
    && env.created.Some?
    && env.wait.WaitReturned?
    && ConnectionCondition in env.wait.active && !env.listenerThrows
  }

  /** What a client's `connect` answers, given whether making the topics throws, how its
      writer comes up, whether making the filter throws, and how its reader comes up. */
  predicate ConnectAnswers(
    topicsThrow: bool, writerEnv: Environment, filterThrows: bool, readerEnv: Environment, status: StatusCode)
  {
    && (status == Ok <==>
          !topicsThrow && WriterConnects(writerEnv) && !filterThrows && ReaderConnects(readerEnv))
    && (status == ServiceUnavailable <==>
          !topicsThrow && (TimedOut(writerEnv)
                           || (WriterConnects(writerEnv) && !filterThrows && TimedOut(readerEnv))))
    && (status == IncompatibleService <==>
          && !topicsThrow && WriterConnects(writerEnv) && !filterThrows
          && Acknowledged(readerEnv, IncompatibleQosCondition))
    && status in {Ok, ServiceUnavailable, IncompatibleService, ErrorCommunication}
  }

  function Reported(g: Guid, active: seq<Condition>, listenerThrows: bool): Environment {
    Environment(Some(g), WaitReturned(active), listenerThrows)
  }

  /** The course of a connect, case by case: which single answer it leaves. `w` and `r` are
      the endpoints that were created, `more` whatever else their waits reported. */
  lemma ConnectCases(
    w: Guid, r: Guid, more: seq<Condition>, writerEnv: Environment, readerEnv: Environment, status: StatusCode)
    ensures ConnectAnswers(true, writerEnv, false, readerEnv, status) <==> status == ErrorCommunication
    ensures ConnectAnswers(false, Environment(None, WaitThrew, false), false, readerEnv, status) <==>
      status == ErrorCommunication
    ensures ConnectAnswers(false, Environment(Some(w), WaitThrew, false), false, readerEnv, status) <==>
      status == ErrorCommunication
    ensures ConnectAnswers(false, Reported(w, [], false), false, readerEnv, status) <==>
      status == ServiceUnavailable
    ensures var up := Reported(w, more + [ConnectionCondition], false);
      && (ConnectAnswers(false, up, true, readerEnv, status) <==> status == ErrorCommunication)
      && (ConnectAnswers(false, up, false, Environment(None, WaitThrew, false), status) <==>
            status == ErrorCommunication)
      && (ConnectAnswers(false, up, false, Environment(Some(r), WaitThrew, false), status) <==>
            status == ErrorCommunication)
      && (ConnectAnswers(false, up, false, Reported(r, [], false), status) <==> status == ServiceUnavailable)
      && (ConnectAnswers(false, up, false, Reported(r, [IncompatibleQosCondition] + more, false), status) <==>
            status == IncompatibleService)
      && (ConnectAnswers(false, up, false, Reported(r, [ConnectionCondition] + more, true), status) <==>
            status == ErrorCommunication)
      && (ConnectAnswers(false, up, false, Reported(r, [ConnectionCondition] + more, false), status) <==>
            status == Ok)
    ensures ConnectAnswers(false, Reported(w, [ConnectionCondition] + more, true), false, readerEnv, status) <==>
      status == ErrorCommunication
  {
    assert (more + [ConnectionCondition])[|more|] == ConnectionCondition;
    assert ([IncompatibleQosCondition] + more)[0] == IncompatibleQosCondition;
    assert ([ConnectionCondition] + more)[0] == ConnectionCondition;
  }

  class DDSWriterConnector {
    constructor () {}

    method Reconnect(env: Environment) returns (status: StatusCode, writer: Option<Guid>)
      ensures status == Ok <==> writer.Some?
      ensures status == Ok <==> WriterConnects(env)
      ensures writer.Some? ==> env.created == writer
      ensures status == ServiceUnavailable <==> TimedOut(env)
      ensures status in {Ok, ServiceUnavailable, ErrorCommunication}
    {
      writer := env.created;
      if writer.None? { return ErrorCommunication, None; }
      match env.wait {
        case WaitThrew =>
        case WaitReturned(active) =>
          if |active| == 0 { return ServiceUnavailable, None; }
          var i := 0;
          while i < |active|
            invariant i <= |active|
            invariant forall j | 0 <= j < i :: active[j] != ConnectionCondition
          {
            if active[i] == ConnectionCondition {
              if env.listenerThrows { return ErrorCommunication, None; }
              return Ok, writer;
            }
            i := i + 1;
          }
      }
      return ErrorCommunication, None;
    }
  }

  class DDSReaderConnector {
    constructor () {}

    method Reconnect(env: Environment) returns (status: StatusCode, reader: Option<Guid>)
      ensures status == Ok <==> reader.Some?
      ensures status == Ok <==> ReaderConnects(env)
      ensures reader.Some? ==> env.created == reader
      ensures status == ServiceUnavailable <==> TimedOut(env)
      ensures status == IncompatibleService <==> Acknowledged(env, IncompatibleQosCondition)
      ensures status in {Ok, ServiceUnavailable, IncompatibleService, ErrorCommunication}
    {
      reader := env.created;
      if reader.None? { return ErrorCommunication, None; }
      match env.wait {
        case WaitThrew =>
        case WaitReturned(active) =>
          if |active| == 0 { return ServiceUnavailable, None; }
          match active[0] {
            case ConnectionCondition =>
              if env.listenerThrows { return ErrorCommunication, None; }
              return Ok, reader;
            case IncompatibleQosCondition =>
              return IncompatibleService, None;
          }
      }
      return ErrorCommunication, None;
    }
  }
}
