/** Error values and their classification into gRPC statuses (pkg/source/stream.go). */
module Errors {
  import opened Basics

  /** A Go error as errors.Is and errors.As see it: a tree whose inner nodes unwrap. */
  datatype Error =
    | Plain(text: string)
    | CtxCanceled
    | CtxDeadline
    | StreamError(kind: string, cause: Option<Error>)
    | Wrap(text: string, inner: Error)
    | Join(errs: seq<Error>)

  const INVALID_REQUEST := "invalid_request"
  const CANCELED := "canceled"
  const UPSTREAM_UNAVAILABLE := "upstream_unavailable"
  const DATA_INTEGRITY := "data_integrity"
  const DOWNSTREAM_UNAVAILABLE := "downstream_unavailable"
  const INTERNAL := "internal"

  datatype Code = Canceled | Unknown | InvalidArgument | DeadlineExceeded
                | FailedPrecondition | Internal | Unavailable | DataLoss

  /** A non-OK gRPC status.  OK is the absence of a status. */
  datatype Status = Status(code: Code, message: string)

  /** errors.As with a *StreamError target: the kind of the first match, depth first. */
  function AsStream(e: Error): (r: Option<string>)
    decreases e, 1
  {
    match e
    case StreamError(k, _) => Some(k)
    case Wrap(_, inner) => AsStream(inner)
    case Join(es) => AsStreamAny(es)
    case _ => None
  }

  function AsStreamAny(es: seq<Error>): (r: Option<string>)
    decreases es, 0
  {
    if es == [] then None
    else
      var first := AsStream(es[0]);
      if first.Some? then first else AsStreamAny(es[1..])
  }

  /** errors.Is for the two context sentinels. */
  predicate Is(e: Error, target: Error)
    decreases e, 1
  {
    e == target ||
    match e
    case StreamError(_, Some(c)) => Is(c, target)
    case Wrap(_, inner) => Is(inner, target)
    case Join(es) => IsAny(es, target)
    case _ => false
  }

  predicate IsAny(es: seq<Error>, target: Error)
    decreases es, 0
  {
    es != [] && (Is(es[0], target) || IsAny(es[1..], target))
  }

  function KindStatus(kind: string): (r: Option<Status>)
  {
    if kind == INVALID_REQUEST then Some(Status(InvalidArgument, "invalid source request"))
    else if kind == CANCELED then Some(Status(Canceled, "source stream canceled"))
    else if kind == UPSTREAM_UNAVAILABLE then Some(Status(Unavailable, "source upstream unavailable"))
    else if kind == DATA_INTEGRITY then Some(Status(DataLoss, "source data integrity failure"))
    else if kind == DOWNSTREAM_UNAVAILABLE then Some(Status(Unavailable, "source downstream unavailable"))
    else if kind == INTERNAL then Some(Status(Internal, "source internal failure"))
    else None
  }

  /** streamStatus for a non-nil error: a known kind decides, otherwise the context errors do. */
  function StreamStatus(e: Error): (r: Status)
  {
    var kind := AsStream(e);
    if kind.Some? && KindStatus(kind.value).Some? then KindStatus(kind.value).value
    else if Is(e, CtxCanceled) then Status(Canceled, "source stream canceled")
    else if Is(e, CtxDeadline) then Status(DeadlineExceeded, "source stream timed out")
    else Status(Internal, "source internal failure")
  }

  /** Whether failStream moves health to UNHEALTHY. */
  predicate MarksUnhealthy(e: Error)
  {
    match AsStream(e)
    case Some(k) => k != CANCELED && k != INVALID_REQUEST
    case None => !Is(e, CtxCanceled)
  }

  /** grpc's status.FromContextError for a non-nil error. */
  function FromContextError(e: Error): (r: Status)
  {
    if Is(e, CtxDeadline) then Status(DeadlineExceeded, "context deadline exceeded")
    else if Is(e, CtxCanceled) then Status(Canceled, "context canceled")
    else Status(Unknown, "unknown")
  }

  // ----- reference: the tree as its pre-order list of nodes

  function Nodes(e: Error): (r: seq<Error>)
    decreases e, 1
  {
    [e] + match e
          case StreamError(_, Some(c)) => Nodes(c)
          case Wrap(_, inner) => Nodes(inner)
          case Join(es) => NodesAll(es)
          case _ => []
  }

  function NodesAll(es: seq<Error>): (r: seq<Error>)
    decreases es, 0
  {
    if es == [] then [] else Nodes(es[0]) + NodesAll(es[1..])
  }

  /** The first StreamError of a list of nodes is at position i. */
  ghost predicate FirstStreamAt(ns: seq<Error>, i: nat)
  {
    i < |ns| && ns[i].StreamError? && forall j :: 0 <= j < i ==> !ns[j].StreamError?
  }

  ghost predicate NoStream(ns: seq<Error>)
  {
    forall j :: 0 <= j < |ns| ==> !ns[j].StreamError?
  }

  /** Kind found by errors.As, read off a list of nodes. */
  ghost predicate KindOf(ns: seq<Error>, k: Option<string>)
  {
    match k
    case None => NoStream(ns)
    case Some(kind) => exists i: nat :: FirstStreamAt(ns, i) && ns[i].kind == kind
  }

  lemma KindOfConcat(xs: seq<Error>, ys: seq<Error>, k: Option<string>, l: Option<string>)
    requires KindOf(xs, k) && KindOf(ys, l)
    ensures KindOf(xs + ys, if k.Some? then k else l)
  {
    var zs := xs + ys;
    if k.Some? {
      var i: nat :| FirstStreamAt(xs, i) && xs[i].kind == k.value;
      assert FirstStreamAt(zs, i) && zs[i].kind == k.value;
    } else if l.Some? {
      var i: nat :| FirstStreamAt(ys, i) && ys[i].kind == l.value;
      assert zs[|xs| + i] == ys[i];
      assert FirstStreamAt(zs, |xs| + i);
    }
  }

  lemma {:induction false} AsIsFirstNode(e: Error)
    ensures KindOf(Nodes(e), AsStream(e))
    decreases e, 1
  {
    match e
    case StreamError(k, _) =>
      assert FirstStreamAt(Nodes(e), 0);
    case Wrap(_, inner) =>
      AsIsFirstNode(inner);
      KindOfConcat([e], Nodes(inner), None, AsStream(inner));
    case Join(es) =>
      AsAnyIsFirstNode(es);
      KindOfConcat([e], NodesAll(es), None, AsStreamAny(es));
    case _ =>
  }

  lemma {:induction false} AsAnyIsFirstNode(es: seq<Error>)
    ensures KindOf(NodesAll(es), AsStreamAny(es))
    decreases es, 0
  {
    if es != [] {
      AsIsFirstNode(es[0]);
      AsAnyIsFirstNode(es[1..]);
      KindOfConcat(Nodes(es[0]), NodesAll(es[1..]), AsStream(es[0]), AsStreamAny(es[1..]));
    }
  }

  lemma {:induction false} IsIsMembership(e: Error, target: Error)
    ensures Is(e, target) <==> target in Nodes(e)
    decreases e, 1
  {
    match e
    case StreamError(_, Some(c)) => IsIsMembership(c, target);
    case Wrap(_, inner) => IsIsMembership(inner, target);
    case Join(es) => IsAnyIsMembership(es, target);
    case _ =>
  }

  lemma {:induction false} IsAnyIsMembership(es: seq<Error>, target: Error)
    ensures IsAny(es, target) <==> target in NodesAll(es)
    decreases es, 0
  {
    if es != [] {
      IsIsMembership(es[0], target);
      IsAnyIsMembership(es[1..], target);
    }
  }

  /** What a client sees for a list of nodes whose first StreamError, if any, has kind k. */
  ghost function StatusTable(ns: seq<Error>, k: Option<string>): (r: Status)
  {
    if k == Some("invalid_request") then Status(InvalidArgument, "invalid source request")
    else if k == Some("canceled") then Status(Canceled, "source stream canceled")
    else if k == Some("upstream_unavailable") then Status(Unavailable, "source upstream unavailable")
    else if k == Some("data_integrity") then Status(DataLoss, "source data integrity failure")
    else if k == Some("downstream_unavailable") then Status(Unavailable, "source downstream unavailable")
    else if k == Some("internal") then Status(Internal, "source internal failure")
    else if CtxCanceled in ns then Status(Canceled, "source stream canceled")
    else if CtxDeadline in ns then Status(DeadlineExceeded, "source stream timed out")
    else Status(Internal, "source internal failure")
  }

  lemma KindIsUnique(ns: seq<Error>, k: Option<string>, l: Option<string>)
    requires KindOf(ns, k) && KindOf(ns, l)
    ensures k == l
  {
    if k.Some? && l.Some? {
      var i: nat :| FirstStreamAt(ns, i) && ns[i].kind == k.value;
      var j: nat :| FirstStreamAt(ns, j) && ns[j].kind == l.value;
      assert i == j;
    }
  }

  /** The status depends only on the first StreamError of the tree or, failing a known kind,
      on which context errors the tree contains. */
  lemma StatusReadsFirstStreamThenContext(e: Error, k: Option<string>)
    requires KindOf(Nodes(e), k)
    ensures StreamStatus(e) == StatusTable(Nodes(e), k)
  {
    AsIsFirstNode(e);
    KindIsUnique(Nodes(e), AsStream(e), k);
    IsIsMembership(e, CtxCanceled);
    IsIsMembership(e, CtxDeadline);
  }

  /** Health suffers from every first StreamError but a cancelled or an invalid request and, without any
      StreamError, from every tree without a cancelled context. */
  lemma HealthReadsFirstStreamThenContext(e: Error, k: Option<string>)
    requires KindOf(Nodes(e), k)
    ensures MarksUnhealthy(e)
       <==> if k.Some? then k.value != "canceled" && k.value != "invalid_request" else CtxCanceled !in Nodes(e)
  {
    AsIsFirstNode(e);
    KindIsUnique(Nodes(e), AsStream(e), k);
    IsIsMembership(e, CtxCanceled);
  }

  /** What errors.New makes is an internal failure. */
  lemma PlainIsInternal(text: string)
    ensures StreamStatus(Plain(text)) == Status(Internal, "source internal failure") && MarksUnhealthy(Plain(text))
  {
  }

  /** A deadline anywhere in the tree outranks a cancellation. */
  lemma ContextStatusReadsNodes(e: Error)
    ensures FromContextError(e) ==
            if CtxDeadline in Nodes(e) then Status(DeadlineExceeded, "context deadline exceeded")
            else if CtxCanceled in Nodes(e) then Status(Canceled, "context canceled")
            else Status(Unknown, "unknown")
  {
    IsIsMembership(e, CtxCanceled);
    IsIsMembership(e, CtxDeadline);
  }

  // ----- wrapping and redaction

  /** Removes every wrapper and every free text from a tree, keeping kinds and sentinels. */
  function Redact(e: Error): (r: Error)
    decreases e, 1
  {
    match e
    case Plain(_) => Plain("")
    case StreamError(k, Some(c)) => StreamError(k, Some(Redact(c)))
    case Wrap(_, inner) => Redact(inner)
    case Join(es) => Join(RedactAll(es))
    case _ => e
  }

  function RedactAll(es: seq<Error>): (r: seq<Error>)
    decreases es, 0
  {
    if es == [] then [] else [Redact(es[0])] + RedactAll(es[1..])
  }

  lemma {:induction false} RedactKeepsMatches(e: Error, target: Error)
    requires target == CtxCanceled || target == CtxDeadline
    ensures AsStream(Redact(e)) == AsStream(e)
    ensures Is(Redact(e), target) == Is(e, target)
    decreases e, 1
  {
    match e
    case StreamError(_, Some(c)) => RedactKeepsMatches(c, target);
    case Wrap(_, inner) => RedactKeepsMatches(inner, target);
    case Join(es) => RedactAllKeepsMatches(es, target);
    case _ =>
  }

  lemma {:induction false} RedactAllKeepsMatches(es: seq<Error>, target: Error)
    requires target == CtxCanceled || target == CtxDeadline
    ensures AsStreamAny(RedactAll(es)) == AsStreamAny(es)
    ensures IsAny(RedactAll(es), target) == IsAny(es, target)
    decreases es, 0
  {
    if es != [] {
      RedactKeepsMatches(es[0], target);
      RedactAllKeepsMatches(es[1..], target);
      assert RedactAll(es)[1..] == RedactAll(es[1..]);
    }
  }

  /** Neither wrapping, at any depth, nor any error text reaches a client: trees that agree
      once wrappers and texts are removed have the same status and the same effect on health. */
  lemma StatusIsRedacted(e: Error, f: Error)
    requires Redact(e) == Redact(f)
    ensures StreamStatus(e) == StreamStatus(f)
    ensures MarksUnhealthy(e) == MarksUnhealthy(f)
  {
    RedactKeepsMatches(e, CtxCanceled);
    RedactKeepsMatches(e, CtxDeadline);
    RedactKeepsMatches(f, CtxCanceled);
    RedactKeepsMatches(f, CtxDeadline);
  }

  /** Adds one wrapper per text around e, innermost last. */
  function WrapAll(texts: seq<string>, e: Error): (r: Error)
  {
    if texts == [] then e else Wrap(texts[0], WrapAll(texts[1..], e))
  }

  lemma {:induction false} WrappingKeepsStatus(texts: seq<string>, e: Error)
    ensures StreamStatus(WrapAll(texts, e)) == StreamStatus(e)
    ensures MarksUnhealthy(WrapAll(texts, e)) == MarksUnhealthy(e)
  {
    if texts != [] {
      WrappingKeepsStatus(texts[1..], e);
      StatusIsRedacted(WrapAll(texts, e), WrapAll(texts[1..], e));
    }
  }

  // ----- health against status

  predicate UnknownKind(e: Error)
  {
    AsStream(e).Some? && KindStatus(AsStream(e).value).None?
  }

  predicate BenignCode(c: Code)
  {
    c == Canceled || c == InvalidArgument
  }

  /** failStream marks the component unhealthy exactly for the codes other than Canceled and
      InvalidArgument, save for one family: a StreamError of an unknown kind over a canceled
      context reports Canceled and still marks it unhealthy. */
  lemma HealthFollowsCode(e: Error)
    ensures (MarksUnhealthy(e) <==> !BenignCode(StreamStatus(e).code))
       <==> !(UnknownKind(e) && Is(e, CtxCanceled))
  {
    assert KindStatus(CANCELED).Some? && KindStatus(INVALID_REQUEST).Some?;
  }

  lemma UnknownKindWitness()
    ensures var e := StreamError("quota", Some(CtxCanceled));
            MarksUnhealthy(e) && StreamStatus(e).code == Canceled
  {
    var e := StreamError("quota", Some(CtxCanceled));
    assert AsStream(e) == Some("quota");
    assert "quota" != CANCELED && "quota" != INVALID_REQUEST;
    assert KindStatus("quota").None? by {
      assert |"quota"| == 5;
    }
    assert Is(CtxCanceled, CtxCanceled);
  }
}
