/** Errors on their way from an executor to the scheduler's verdict, through any nest of the
    wrappers that the query engine puts around them. */
module Errors {
  import opened Wrappers

  /** Any error behind a `dyn Error`; a foreign one may have a source of its own. */
  datatype StdError =
    | OfDataFusion(df: DataFusionError)
    | OfBallista(ballista: BallistaError)
    | OfArrow(arrow: ArrowError)
    | Foreign(text: string, source: Option<StdError>)

  datatype DataFusionError =
    | Shared(inner: DataFusionError)
    | Context(text: string, inner: DataFusionError)
    | External(cause: StdError)
    | OnArrow(arrow: ArrowError)
    | OnIo(source: Option<StdError>)   // an IO error's source is that of the error it wraps
    | Plain(text: string)

  datatype ArrowError = ExternalError(cause: StdError) | PlainArrow(text: string)

  datatype BallistaError =
    | FetchFailed(executor: string, stage: nat, partition: nat, text: string)
    | InDataFusion(df: DataFusionError)
    | InArrow(arrow: ArrowError)
    | InIo(text: string)
    | Cancelled
    | GrpcAction(text: string)
    | Other(text: string)

  // ---------------------------------------------------------------------------
  // The root of an error: the last DataFusion error on the chain of sources.
  // A Ballista error has no source.
  // ---------------------------------------------------------------------------

  function Size(e: StdError): nat {
    match e
    case OfDataFusion(d) => 1 + SizeD(d)
    case OfBallista(b) => 1 + SizeB(b)
    case OfArrow(a) => 1 + SizeA(a)
    case Foreign(_, s) => if s.Some? then 1 + Size(s.value) else 1
  }

  function SizeD(d: DataFusionError): nat {
    match d
    case Shared(i) => 1 + SizeD(i)
    case Context(_, i) => 1 + SizeD(i)
    case External(c) => 1 + Size(c)
    case OnArrow(a) => 1 + SizeA(a)
    case OnIo(s) => if s.Some? then 1 + Size(s.value) else 1
    case Plain(_) => 1
  }

  function SizeA(a: ArrowError): nat {
    match a
    case ExternalError(c) => 1 + Size(c)
    case PlainArrow(_) => 1
  }

  function SizeB(b: BallistaError): nat {
    match b
    case InDataFusion(d) => 1 + SizeD(d)
    case InArrow(a) => 1 + SizeA(a)
    case _ => 1
  }

  function Root(d: DataFusionError): (r: DataFusionError)
    ensures SizeD(r) <= SizeD(d)
  {
    match d
    case Shared(i) => Root(i)
    case Context(_, i) => Root(i)
    case External(c) => RootBelow(c, d)
    case OnArrow(a) => RootBelowArrow(a, d)
    case OnIo(s) => if s.Some? then RootBelow(s.value, d) else d
    case Plain(_) => d
  }

  /** The root when `last` is the last DataFusion error seen and `e` comes next. */
  function RootBelow(e: StdError, last: DataFusionError): (r: DataFusionError)
    ensures r == last || SizeD(r) < Size(e)
  {
    match e
    case OfDataFusion(d) => Root(d)
    case OfBallista(_) => last
    case OfArrow(a) => RootBelowArrow(a, last)
    case Foreign(_, s) => if s.Some? then RootBelow(s.value, last) else last
  }

  function RootBelowArrow(a: ArrowError, last: DataFusionError): (r: DataFusionError)
    ensures r == last || SizeD(r) < SizeA(a)
  {
    match a
    case ExternalError(c) => RootBelow(c, last)
    case PlainArrow(_) => last
  }

  // ---------------------------------------------------------------------------
  // Classification
  // ---------------------------------------------------------------------------

  function FindFetchFailed(e: BallistaError): (r: Option<BallistaError>)
    ensures r.Some? ==> r.value.FetchFailed?
    decreases SizeB(e)
  {
    match e
    case FetchFailed(_, _, _, _) => Some(e)
    case InDataFusion(d) =>
      var root := Root(d);
      if root.External? && root.cause.OfBallista? then
        assert SizeD(root) == 1 + Size(root.cause) && Size(root.cause) == 1 + SizeB(root.cause.ballista);
        FindFetchFailed(root.cause.ballista)
      else None
    case _ => None
  }

  predicate IsRetryableIo(e: BallistaError)
    decreases SizeB(e)
  {
    match e
    case InIo(_) => true
    case InDataFusion(d) =>
      var root := Root(d);
      if root.External? && root.cause.OfBallista? then
        assert SizeD(root) == 1 + Size(root.cause) && Size(root.cause) == 1 + SizeB(root.cause.ballista);
        IsRetryableIo(root.cause.ballista)
      else root.OnIo?
    case _ => false
  }

  datatype Reason = FetchPartitionError(executor: string, stage: nat, partition: nat) | IoError | TaskKilled | ExecutionError

  /** `message` is the error's own text; `None` stands for a rendering of the whole error. */
  datatype FailedTask = FailedTask(message: Option<string>, retryable: bool, countToFailures: bool, reason: Reason)

  const U32: nat := 0x1_0000_0000

  function Verdict(e: BallistaError): FailedTask {
    match FindFetchFailed(e)
    case Some(f) => FailedTask(Some(f.text), false, false, FetchPartitionError(f.executor, f.stage % U32, f.partition % U32))
    case None =>
      if e.Cancelled? then FailedTask(Some("Task cancelled"), true, false, TaskKilled)
      else if IsRetryableIo(e) then FailedTask(None, true, true, IoError)
      else FailedTask(None, false, false, ExecutionError)
  }

  function FromArrow(a: ArrowError): BallistaError {
    match a
    case ExternalError(OfBallista(b)) => b
    case ExternalError(OfDataFusion(d)) => InDataFusion(d)
    case _ => InArrow(a)
  }

  function FromDataFusion(d: DataFusionError): BallistaError {
    match d
    case OnArrow(a) => FromArrow(a)
    case External(OfBallista(b)) => b
    case _ => InDataFusion(d)
  }

  function IntoDataFusion(b: BallistaError): DataFusionError {
    External(OfBallista(b))
  }

  // ---------------------------------------------------------------------------
  // Wrappers, as a reader would list them
  // ---------------------------------------------------------------------------

  datatype Hop = ByForeign(text: string) | ByArrow
  datatype Carrier = AsExternal | AsArrow | AsIo

  /** A layer around a DataFusion error: shared, with context, carried across as a Ballista
      error, or as the cause, however remote, of something else. */
  datatype Layer = InShared | InContext(text: string) | AcrossBallista | Carried(carrier: Carrier, hops: seq<Hop>)

  function Carry(hops: seq<Hop>, d: DataFusionError): StdError {
    if hops == [] then OfDataFusion(d)
    else
      match hops[0]
      case ByForeign(t) => Foreign(t, Some(Carry(hops[1..], d)))
      case ByArrow => OfArrow(ExternalError(Carry(hops[1..], d)))
  }

  function WrapOne(l: Layer, d: DataFusionError): DataFusionError {
    match l
    case InShared => Shared(d)
    case InContext(t) => Context(t, d)
    case AcrossBallista => External(OfBallista(InDataFusion(d)))
    case Carried(AsExternal, hops) => External(Carry(hops, d))
    case Carried(AsArrow, hops) => OnArrow(ExternalError(Carry(hops, d)))
    case Carried(AsIo, hops) => OnIo(Some(Carry(hops, d)))
  }

  function Wrap(layers: seq<Layer>, d: DataFusionError): DataFusionError {
    if layers == [] then d else WrapOne(layers[0], Wrap(layers[1..], d))
  }

  /** `e` is the Ballista error `core`, bare or under layers. */
  ghost predicate Holds(e: BallistaError, core: BallistaError) {
    e == core || exists layers :: e == InDataFusion(Wrap(layers, External(OfBallista(core))))
  }

  /** A DataFusion error with no other one below it. */
  predicate IsRoot(d: DataFusionError) {
    Root(d) == d
  }

  ghost predicate HoldsIo(e: BallistaError) {
    || (exists t :: Holds(e, InIo(t)))
    || (exists layers, d: DataFusionError :: d.OnIo? && IsRoot(d) && e == InDataFusion(Wrap(layers, d)))
  }

  // ---------------------------------------------------------------------------
  // Classification sees through every layer
  // ---------------------------------------------------------------------------

  lemma {:induction false} CarryKeepsRoot(hops: seq<Hop>, d: DataFusionError, last: DataFusionError)
    ensures RootBelow(Carry(hops, d), last) == Root(d)
  {
    if hops != [] { CarryKeepsRoot(hops[1..], d, last); }
  }

  lemma LayerIsTransparent(l: Layer, d: DataFusionError)
    ensures FindFetchFailed(InDataFusion(WrapOne(l, d))) == FindFetchFailed(InDataFusion(d))
    ensures IsRetryableIo(InDataFusion(WrapOne(l, d))) == IsRetryableIo(InDataFusion(d))
  {
    match l {
      case Carried(carrier, hops) =>
        CarryKeepsRoot(hops, d, WrapOne(l, d));
        if carrier.AsArrow? { assert RootBelowArrow(ExternalError(Carry(hops, d)), WrapOne(l, d)) == Root(d); }
      case AcrossBallista => CarriedBallistaIsRoot(InDataFusion(d));
      case _ =>
    }
  }

  lemma CarriedBallistaIsRoot(b: BallistaError)
    ensures IsRoot(External(OfBallista(b)))
    ensures FindFetchFailed(InDataFusion(External(OfBallista(b)))) == FindFetchFailed(b)
    ensures IsRetryableIo(InDataFusion(External(OfBallista(b)))) == IsRetryableIo(b)
  {
    var d := External(OfBallista(b));
    assert Root(d) == RootBelow(OfBallista(b), d) == d;
  }

  lemma {:induction false} LayersAreTransparent(layers: seq<Layer>, d: DataFusionError)
    ensures FindFetchFailed(InDataFusion(Wrap(layers, d))) == FindFetchFailed(InDataFusion(d))
    ensures IsRetryableIo(InDataFusion(Wrap(layers, d))) == IsRetryableIo(InDataFusion(d))
  {
    if layers != [] {
      LayersAreTransparent(layers[1..], d);
      LayerIsTransparent(layers[0], Wrap(layers[1..], d));
    }
  }

  // And conversely: whatever is recognised sits under layers.

  lemma {:induction false} WrapConcat(a: seq<Layer>, b: seq<Layer>, d: DataFusionError)
    ensures Wrap(a + b, d) == Wrap(a, Wrap(b, d))
  {
    if a == [] {
      assert a + b == b;
    } else {
      WrapConcat(a[1..], b, d);
      assert (a + b)[1..] == a[1..] + b;
    }
  }

  /** A chain either reaches a DataFusion error over some hops, or none. */
  lemma {:induction false} HopsToNext(e: StdError, last: DataFusionError) returns (hops: seq<Hop>, next: Option<DataFusionError>)
    ensures next.Some? ==> e == Carry(hops, next.value) && RootBelow(e, last) == Root(next.value) && SizeD(next.value) < Size(e)
    ensures next.None? ==> RootBelow(e, last) == last
    decreases Size(e)
  {
    hops, next := [], None;
    match e {
      case OfDataFusion(d) => next := Some(d);
      case OfBallista(_) =>
      case OfArrow(a) =>
        if a.ExternalError? {
          assert Size(e) == 1 + SizeA(a) && SizeA(a) == 1 + Size(a.cause);
          hops, next := HopsToNext(a.cause, last);
          ghost var further := hops;
          hops := [ByArrow] + hops;
          assert hops[1..] == further;
        }
      case Foreign(t, s) =>
        if s.Some? {
          hops, next := HopsToNext(s.value, last);
          ghost var further := hops;
          hops := [ByForeign(t)] + hops;
          assert hops[1..] == further;
        }
    }
  }

  lemma OneLayer(l: Layer, layers: seq<Layer>, d: DataFusionError)
    ensures Wrap([l] + layers, d) == WrapOne(l, Wrap(layers, d))
  {
    assert ([l] + layers)[1..] == layers;
  }

  /** Every DataFusion error is its root under layers. */
  lemma {:induction false} LayersAboveRoot(d: DataFusionError) returns (layers: seq<Layer>)
    ensures d == Wrap(layers, Root(d)) && IsRoot(Root(d))
    decreases SizeD(d)
  {
    layers := [];
    match d {
      case Shared(i) =>
        layers := LayersAboveRoot(i);
        OneLayer(InShared, layers, Root(i));
        layers := [InShared] + layers;
      case Context(t, i) =>
        layers := LayersAboveRoot(i);
        OneLayer(InContext(t), layers, Root(i));
        layers := [InContext(t)] + layers;
      case External(c) => layers := LayersBelow(AsExternal, c, d);
      case OnIo(s) => if s.Some? { layers := LayersBelow(AsIo, s.value, d); }
      case OnArrow(a) =>
        if a.ExternalError? {
          assert SizeD(d) == 1 + SizeA(a) && SizeA(a) == 1 + Size(a.cause);
          layers := LayersBelow(AsArrow, a.cause, d);
        }
      case Plain(_) =>
    }
  }

  lemma {:induction false} LayersBelow(carrier: Carrier, c: StdError, d: DataFusionError) returns (layers: seq<Layer>)
    requires d == match carrier case AsExternal => External(c) case AsArrow => OnArrow(ExternalError(c)) case AsIo => OnIo(Some(c))
    ensures d == Wrap(layers, Root(d)) && IsRoot(Root(d))
    decreases Size(c)
  {
    var hops, next := HopsToNext(c, d);
    layers := [];
    if next.Some? {
      layers := LayersAboveRoot(next.value);
      OneLayer(Carried(carrier, hops), layers, Root(next.value));
      layers := [Carried(carrier, hops)] + layers;
    }
  }

  lemma {:induction false} FetchFailedSitsUnderLayers(e: BallistaError)
    requires FindFetchFailed(e).Some?
    ensures Holds(e, FindFetchFailed(e).value)
    decreases SizeB(e)
  {
    if e.InDataFusion? {
      var f := FindFetchFailed(e).value;
      var layers := LayersAboveRoot(e.df);
      var b := Root(e.df).cause.ballista;
      assert SizeD(Root(e.df)) == 1 + Size(Root(e.df).cause) && Size(Root(e.df).cause) == 1 + SizeB(b);
      FetchFailedSitsUnderLayers(b);
      if b != f {
        var more :| b == InDataFusion(Wrap(more, External(OfBallista(f))));
        JoinLayers(layers, more, External(OfBallista(f)));
        assert e == InDataFusion(Wrap(layers + [AcrossBallista] + more, External(OfBallista(f))));
      } else {
        assert e == InDataFusion(Wrap(layers, External(OfBallista(f))));
      }
    }
  }

  lemma JoinLayers(layers: seq<Layer>, more: seq<Layer>, d: DataFusionError)
    ensures Wrap(layers, External(OfBallista(InDataFusion(Wrap(more, d))))) == Wrap(layers + [AcrossBallista] + more, d)
  {
    OneLayer(AcrossBallista, more, d);
    WrapConcat(layers, [AcrossBallista] + more, d);
    assert layers + [AcrossBallista] + more == layers + ([AcrossBallista] + more);
  }

  lemma {:induction false} IoSitsUnderLayers(e: BallistaError)
    requires IsRetryableIo(e)
    ensures HoldsIo(e)
    decreases SizeB(e)
  {
    if e.InIo? {
      assert Holds(e, InIo(e.text));
    } else {
      var layers := LayersAboveRoot(e.df);
      var root := Root(e.df);
      if root.External? {
        var b := root.cause.ballista;
        assert SizeD(root) == 1 + Size(root.cause) && Size(root.cause) == 1 + SizeB(b);
        IoSitsUnderLayers(b);
        if t :| Holds(b, InIo(t)) {
          var core := External(OfBallista(InIo(t)));
          if b == InIo(t) {
            assert e == InDataFusion(Wrap(layers, core));
          } else {
            var more :| b == InDataFusion(Wrap(more, core));
            JoinLayers(layers, more, core);
            assert e == InDataFusion(Wrap(layers + [AcrossBallista] + more, core));
          }
          assert Holds(e, InIo(t));
        } else {
          var more, d: DataFusionError :| d.OnIo? && IsRoot(d) && b == InDataFusion(Wrap(more, d));
          JoinLayers(layers, more, d);
          assert e == InDataFusion(Wrap(layers + [AcrossBallista] + more, d));
        }
      }
    }
  }

  lemma HeldFetchFailedIsFound(e: BallistaError, f: BallistaError)
    requires f.FetchFailed? && Holds(e, f)
    ensures FindFetchFailed(e) == Some(f)
  {
    if e != f {
      var layers :| e == InDataFusion(Wrap(layers, External(OfBallista(f))));
      LayersAreTransparent(layers, External(OfBallista(f)));
      CarriedBallistaIsRoot(f);
    }
  }

  lemma HeldIoIsFound(e: BallistaError)
    requires HoldsIo(e)
    ensures IsRetryableIo(e) && FindFetchFailed(e).None?
  {
    if t :| Holds(e, InIo(t)) {
      if e != InIo(t) {
        var layers :| e == InDataFusion(Wrap(layers, External(OfBallista(InIo(t)))));
        LayersAreTransparent(layers, External(OfBallista(InIo(t))));
        CarriedBallistaIsRoot(InIo(t));
      }
    } else {
      var layers, d: DataFusionError :| d.OnIo? && IsRoot(d) && e == InDataFusion(Wrap(layers, d));
      LayersAreTransparent(layers, d);
    }
  }

  /** The verdict on every error. A fetch failure under any nest of layers is reported with its
      own text and identifiers (as 32-bit numbers), and nothing else is; an IO error under any
      nest is retryable and counted, and nothing else is; only a bare cancellation is a kill. */
  lemma VerdictExact(e: BallistaError)
    ensures forall f: BallistaError | f.FetchFailed? :: Holds(e, f) ==>
      Verdict(e) == FailedTask(Some(f.text), false, false, FetchPartitionError(f.executor, f.stage % U32, f.partition % U32))
    ensures Verdict(e).reason.FetchPartitionError? <==> exists f: BallistaError :: f.FetchFailed? && Holds(e, f)
    ensures Verdict(e).reason == IoError <==> HoldsIo(e)
    ensures Verdict(e).reason == TaskKilled <==> e == Cancelled
    ensures Verdict(e).countToFailures <==> HoldsIo(e)
    ensures Verdict(e).retryable <==> HoldsIo(e) || e == Cancelled
  {
    forall f: BallistaError | f.FetchFailed? && Holds(e, f)
      ensures FindFetchFailed(e) == Some(f)
    {
      HeldFetchFailedIsFound(e, f);
    }
    if FindFetchFailed(e).Some? { FetchFailedSitsUnderLayers(e); }
    if HoldsIo(e) { HeldIoIsFound(e); }
    if IsRetryableIo(e) { IoSitsUnderLayers(e); }
  }

  /** Converting on arrival gives the verdict that plain wrapping would have given, except in
      three shapes: a cancellation carried across is recognised; so is what an Arrow error
      carries of Ballista's directly; but an Arrow error that carries anything else than a
      Ballista or DataFusion error hides what is below it. */
  lemma ConversionVerdict(d: DataFusionError)
    ensures var here, plain := Verdict(FromDataFusion(d)), Verdict(InDataFusion(d));
      here == plain <==>
        match d
        case External(OfBallista(b)) => b != Cancelled
        case OnArrow(ExternalError(OfBallista(b))) => Verdict(b).reason == ExecutionError
        case OnArrow(ExternalError(OfDataFusion(_))) => true
        case OnArrow(_) => plain.reason == ExecutionError
        case _ => true
  {
    match d {
      case External(OfBallista(b)) => CarriedBallistaIsRoot(b);
      case OnArrow(ExternalError(OfBallista(b))) =>
        assert RootBelowArrow(d.arrow, d) == RootBelow(OfBallista(b), d) == d;
      case OnArrow(ExternalError(OfDataFusion(x))) =>
        assert RootBelowArrow(d.arrow, d) == RootBelow(OfDataFusion(x), d) == Root(x);
      case _ =>
    }
  }

  lemma CarriedErrorComesBack(b: BallistaError)
    ensures FromDataFusion(IntoDataFusion(b)) == b
    ensures b != Cancelled ==> Verdict(InDataFusion(IntoDataFusion(b))) == Verdict(b)
  {
    ConversionVerdict(IntoDataFusion(b));
  }
}
