/** The client's two retry loops, and what their failures turn into on the scheduler's side. */
module Retry {
  import opened Wrappers
  import IpcDecoder
  import BlockStream
  import Errors

  /** The status of a failed call; only `Unknown`, which stands for IO trouble, is retried. */
  datatype Code = Unknown | OtherCode(number: nat)

  // ---------------------------------------------------------------------------
  // Which attempt decides
  // ---------------------------------------------------------------------------

  /** The first attempt from `i` on that is not to be repeated, or else the last of `n`. */
  function Decisive(n: nat, again: nat -> bool, i: nat): nat
    requires i < n
    decreases n - i
  {
    if i == n - 1 || !again(i) then i else Decisive(n, again, i + 1)
  }

  lemma {:induction false} DecisiveExact(n: nat, again: nat -> bool, i: nat, d: nat)
    requires i < n
    ensures d == Decisive(n, again, i) <==>
      i <= d < n && (forall j: nat | i <= j < d :: again(j)) && (d == n - 1 || !again(d))
    decreases n - i
  {
    if i != n - 1 && again(i) { DecisiveExact(n, again, i + 1, d); }
  }

  // ---------------------------------------------------------------------------
  // Block transport
  // ---------------------------------------------------------------------------

  datatype ActionReply = ActionFailed(code: Code, text: string) | Streaming(arrivals: seq<BlockStream.Arrival>)

  datatype Fetch<T> = Got(value: T) | Failed(error: Errors.BallistaError) | Unreachable

  predicate RetryAction(r: ActionReply) {
    r.ActionFailed? && r.code == Unknown
  }

  function ActionAgain(server: nat -> ActionReply): nat -> bool {
    (i: nat) => RetryAction(server(i))
  }

  function OpenErrorText(e: BlockStream.OpenError): string {
    match e
    case TooLong(_) => "Schema buffer length exceeded maximum buffer size"
    case Premature => "Premature end of the stream while decoding schema"
    case Transport(text) => text
  }

  /** The caller may put a header of its own in front of the stream. */
  function WithHeader(header: Option<seq<IpcDecoder.byte>>, a: seq<BlockStream.Arrival>): seq<BlockStream.Arrival> {
    if header.Some? then [BlockStream.Block(header.value)] + a else a
  }

  function ActionOutcome(c: IpcDecoder.Codec, header: Option<seq<IpcDecoder.byte>>, r: ActionReply): Fetch<BlockStream.Start> {
    match r
    case ActionFailed(_, text) => Failed(Errors.GrpcAction(text))
    case Streaming(a) =>
      var s := BlockStream.Opening(c, [], WithHeader(header, a));
      if s.Opened? then Got(s)
      else Failed(Errors.FromDataFusion(Errors.OnArrow(Errors.PlainArrow(OpenErrorText(s.error)))))
  }

  method ExecuteDoAction(c: IpcDecoder.Codec, n: nat, header: Option<seq<IpcDecoder.byte>>, server: nat -> ActionReply)
    returns (r: Fetch<BlockStream.Start>, requests: nat)
    ensures n == 0 ==> r == Unreachable && requests == 0
    ensures n > 0 ==>
      var d := Decisive(n, ActionAgain(server), 0);
      requests == d + 1 && r == ActionOutcome(c, header, server(d))
  {
    requests := 0;
    for i := 0 to n
      invariant requests == i
      invariant i < n ==> Decisive(n, ActionAgain(server), 0) == Decisive(n, ActionAgain(server), i)
      invariant i == n ==> n == 0
    {
      var reply := server(i);
      requests := requests + 1;
      match reply {
        case ActionFailed(code, text) =>
          if i == n - 1 || code != Unknown {
            return Failed(Errors.GrpcAction(text)), requests;
          }
        case Streaming(arrivals) =>
          var stream := BlockStream.Opening(c, [], WithHeader(header, arrivals));
          if stream.Opened? {
            return Got(stream), requests;
          }
          return Failed(Errors.FromDataFusion(Errors.OnArrow(Errors.PlainArrow(OpenErrorText(stream.error))))), requests;
      }
    }
    return Unreachable, requests;
  }

  // ---------------------------------------------------------------------------
  // Flight transport
  // ---------------------------------------------------------------------------

  /** The call may fail, or succeed and then fail, end, or deliver a first message. */
  datatype GetReply =
    | GetFailed(code: Code, text: string)
    | FirstFailed(code: Code, text: string)
    | NoMessage
    | FirstMessage(schema: Result<IpcDecoder.Schema, Errors.ArrowError>)

  predicate RetryGet(r: GetReply) {
    (r.GetFailed? || r.FirstFailed?) && r.code == Unknown
  }

  function GetAgain(server: nat -> GetReply): nat -> bool {
    (i: nat) => RetryGet(server(i))
  }

  function GetOutcome(r: GetReply): Fetch<IpcDecoder.Schema> {
    match r
    case GetFailed(_, text) => Failed(Errors.GrpcAction(text))
    case FirstFailed(_, text) => Failed(Errors.GrpcAction(text))
    case NoMessage => Failed(Errors.GrpcAction("Did not receive schema batch from flight server"))
    case FirstMessage(Ok(schema)) => Got(schema)
    case FirstMessage(Err(e)) => Failed(Errors.FromArrow(e))
  }

  method ExecuteDoGet(n: nat, server: nat -> GetReply) returns (r: Fetch<IpcDecoder.Schema>, requests: nat)
    ensures n == 0 ==> r == Unreachable && requests == 0
    ensures n > 0 ==>
      var d := Decisive(n, GetAgain(server), 0);
      requests == d + 1 && r == GetOutcome(server(d))
  {
    requests := 0;
    for i := 0 to n
      invariant requests == i
      invariant i < n ==> Decisive(n, GetAgain(server), 0) == Decisive(n, GetAgain(server), i)
      invariant i == n ==> n == 0
    {
      var reply := server(i);
      requests := requests + 1;
      match reply {
        case GetFailed(code, text) =>
          if i == n - 1 || code != Unknown {
            return Failed(Errors.GrpcAction(text)), requests;
          }
        case FirstFailed(code, text) =>
          if i == n - 1 || code != Unknown {
            return Failed(Errors.GrpcAction(text)), requests;
          }
        case NoMessage =>
          return Failed(Errors.GrpcAction("Did not receive schema batch from flight server")), requests;
        case FirstMessage(Ok(schema)) =>
          return Got(schema), requests;
        case FirstMessage(Err(e)) =>
          return Failed(Errors.FromArrow(e)), requests;
      }
    }
    return Unreachable, requests;
  }

  // ---------------------------------------------------------------------------
  // From a failed fetch to a verdict
  // ---------------------------------------------------------------------------

  datatype Partition = Partition(executor: string, stage: nat, partition: nat)

  function AsFetchFailed(p: Partition, e: Errors.BallistaError): Errors.BallistaError {
    match e
    case GrpcAction(text) => Errors.FetchFailed(p.executor, p.stage, p.partition, text)
    case _ => e
  }

  /** `e`, as it leaves the client and is then wrapped on its way through the executor. */
  function Reported(p: Partition, layers: seq<Errors.Layer>, e: Errors.BallistaError): Errors.BallistaError {
    Errors.InDataFusion(Errors.Wrap(layers, Errors.IntoDataFusion(AsFetchFailed(p, e))))
  }

  /** For any retry count and any sequence of replies, a failed block fetch is blamed on the
      partition asked for exactly when its deciding reply was a failed call: whatever layers
      the error passes through, the verdict names that executor, stage and partition. A stream
      that opens and then has no schema ends the task instead. */
  lemma ActionFailureVerdict(c: IpcDecoder.Codec, n: nat, header: Option<seq<IpcDecoder.byte>>, server: nat -> ActionReply,
                             p: Partition, layers: seq<Errors.Layer>)
    requires n > 0
    requires ActionOutcome(c, header, server(Decisive(n, ActionAgain(server), 0))).Failed?
    ensures var reply := server(Decisive(n, ActionAgain(server), 0));
      var e := ActionOutcome(c, header, reply).error;
      var verdict := Errors.Verdict(Reported(p, layers, e));
      if reply.ActionFailed? then
        verdict == Errors.FailedTask(Some(reply.text), false, false,
          Errors.FetchPartitionError(p.executor, p.stage % Errors.U32, p.partition % Errors.U32))
      else verdict.reason == Errors.ExecutionError
  {
    var reply := server(Decisive(n, ActionAgain(server), 0));
    var e := AsFetchFailed(p, ActionOutcome(c, header, reply).error);
    Errors.LayersAreTransparent(layers, Errors.IntoDataFusion(e));
    Errors.CarriedBallistaIsRoot(e);
  }

  /** A Ballista error reported under layers gets its own verdict, except that a cancellation is
      no longer bare and so is not a kill. */
  lemma ReportedVerdict(p: Partition, layers: seq<Errors.Layer>, e: Errors.BallistaError)
    ensures var b := AsFetchFailed(p, e);
      Errors.Verdict(Reported(p, layers, e)) ==
        if b == Errors.Cancelled then Errors.FailedTask(None, false, false, Errors.ExecutionError) else Errors.Verdict(b)
  {
    var b := AsFetchFailed(p, e);
    Errors.LayersAreTransparent(layers, Errors.IntoDataFusion(b));
    Errors.CarriedBallistaIsRoot(b);
  }

  /** The same for the Flight transport, for every failure: without a schema message, or with one
      that carries a failed call, the fetch is blamed on the partition asked for; any other
      schema error gets the verdict on the error it carries, a cancellation excepted. */
  lemma GetFailureVerdict(n: nat, server: nat -> GetReply, p: Partition, layers: seq<Errors.Layer>)
    requires n > 0
    requires GetOutcome(server(Decisive(n, GetAgain(server), 0))).Failed?
    ensures var reply := server(Decisive(n, GetAgain(server), 0));
      var e := GetOutcome(reply).error;
      var verdict := Errors.Verdict(Reported(p, layers, e));
      && (!reply.FirstMessage? ==> e.GrpcAction?)
      && verdict ==
        match e
        case GrpcAction(text) => Errors.FailedTask(Some(text), false, false,
          Errors.FetchPartitionError(p.executor, p.stage % Errors.U32, p.partition % Errors.U32))
        case Cancelled => Errors.FailedTask(None, false, false, Errors.ExecutionError)
        case _ => Errors.Verdict(Errors.FromArrow(reply.schema.error))
  {
    ReportedVerdict(p, layers, GetOutcome(server(Decisive(n, GetAgain(server), 0))).error);
  }
}
