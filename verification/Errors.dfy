/** The error taxonomy of internal/domain/errors.go, over wrapped error trees. */
module Errors {
  import opened GoTypes

  datatype ErrorKind = KindTransient | KindPermanent

  // An error value. `Joined` is an error that unwraps to two others, as
  // fmt.Errorf builds it from two %w verbs.
  datatype Err =
    | Opaque(text: GoString)
    | Canceled
    | DeadlineExceeded
    | Processing(kind: ErrorKind, op: string, cause: Err)
    | Wrapped(cause: Err)
    | Joined(first: Err, second: Err)

  function Permanent(op: string, e: Err): Err { Processing(KindPermanent, op, e) }

  function Transient(op: string, e: Err): Err { Processing(KindTransient, op, e) }

  // errors.As with a *ProcessingError target: the first match in pre-order.
  function FirstTag(e: Err): Option<ErrorKind> {
    match e
    case Processing(kind, _, _) => Some(kind)
    case Wrapped(cause) => FirstTag(cause)
    case Joined(first, second) =>
      if FirstTag(first).Some? then FirstTag(first) else FirstTag(second)
    case _ => None
  }

  function Classify(e: Err): ErrorKind {
    match FirstTag(e)
    case Some(kind) => kind
    case None => KindTransient
  }

  predicate IsPermanent(e: Err) { Classify(e) == KindPermanent }

  // errors.Is against either context error: any node of the tree.
  predicate IsCancellation(e: Err) {
    match e
    case Canceled => true
    case DeadlineExceeded => true
    case Opaque(_) => false
    case Processing(_, _, cause) => IsCancellation(cause)
    case Wrapped(cause) => IsCancellation(cause)
    case Joined(first, second) => IsCancellation(first) || IsCancellation(second)
  }

  // Where runPipeline stopped, with the error it saw there.
  datatype RunFailure =
    | UnknownPipeline(e: Err)
    | InputMissing(e: Err)
    | InputUnreadable(e: Err)
    | Undecodable(e: Err)
    | StageFailed(e: Err)
    | EncodeFailed(e: Err)
    | OutputNotStored(e: Err)
    | ArtifactNotRecorded(e: Err)

  // The error runPipeline returns for that failure.
  function Tag(f: RunFailure): Err {
    match f
    case UnknownPipeline(e) => Permanent("resolve-pipeline", e)
    case InputMissing(e) => Permanent("load-input", e)
    case InputUnreadable(e) => Transient("load-input", e)
    case Undecodable(e) => Permanent("decode", e)
    case StageFailed(e) => if IsCancellation(e) then e else Transient("pipeline", e)
    case EncodeFailed(e) => Transient("encode", e)
    case OutputNotStored(e) => Transient("store-output", e)
    case ArtifactNotRecorded(e) => Transient("record-artifact", e)
  }

  /** Which failures end a job at once. An error tagged permanent inside a
      processor is not among them unless it also carries a cancellation: the
      pipeline tag that runPipeline wraps around it is found first. */
  lemma PermanentExactly(f: RunFailure)
    ensures IsPermanent(Tag(f)) <==>
              f.UnknownPipeline? || f.InputMissing? || f.Undecodable?
              || (f.StageFailed? && IsPermanent(f.e) && IsCancellation(f.e))
  {
  }

  // The error runPipeline saw is in the tree of the error it returns.
  lemma TagKeepsCause(f: RunFailure)
    ensures f.e in Nodes(Tag(f))
  {
    OwnNode(f.e);
  }

  lemma OwnNode(e: Err)
    ensures e in Nodes(e) && Nodes(e)[0] == e
  {
  }

  // The witness: a processor's own permanent error becomes retryable.
  lemma StagePermanenceIsLost(cause: Err)
    requires !IsCancellation(cause)
    ensures IsPermanent(Permanent("stage", cause)) && !IsPermanent(Tag(StageFailed(Wrapped(Permanent("stage", cause)))))
  {
    assert !IsCancellation(Wrapped(Permanent("stage", cause)));
  }

  // The nodes of an error tree in the order errors.As and errors.Is visit them.
  function Nodes(e: Err): seq<Err> {
    match e
    case Processing(_, _, cause) => [e] + Nodes(cause)
    case Wrapped(cause) => [e] + Nodes(cause)
    case Joined(first, second) => [e] + Nodes(first) + Nodes(second)
    case _ => [e]
  }

  function FirstKind(nodes: seq<Err>): Option<ErrorKind> {
    if nodes == [] then None
    else if nodes[0].Processing? then Some(nodes[0].kind)
    else FirstKind(nodes[1..])
  }

  lemma {:induction false} FirstKindOfBoth(a: seq<Err>, b: seq<Err>)
    ensures FirstKind(a + b) == if FirstKind(a).Some? then FirstKind(a) else FirstKind(b)
  {
    if a == [] {
      assert [] + b == b;
    } else {
      assert (a + b)[1..] == a[1..] + b;
      FirstKindOfBoth(a[1..], b);
    }
  }

  predicate EndsContext(e: Err) { e.Canceled? || e.DeadlineExceeded? }

  /** However an error is wrapped and joined, its retry kind is the tag nearest the
      front of its tree, an error without a tag is not permanent, and it is a
      cancellation exactly if some node is one. */
  lemma {:induction false} NodesDecide(e: Err)
    ensures FirstTag(e) == FirstKind(Nodes(e))
    ensures IsPermanent(e) <==> FirstKind(Nodes(e)) == Some(KindPermanent)
    ensures IsCancellation(e) <==> exists n :: n in Nodes(e) && EndsContext(n)
  {
    match e
    case Processing(_, _, cause) =>
      NodesDecide(cause);
    case Wrapped(cause) =>
      NodesDecide(cause);
      FirstKindOfBoth([e], Nodes(cause));
    case Joined(first, second) =>
      NodesDecide(first);
      NodesDecide(second);
      FirstKindOfBoth([e], Nodes(first));
      FirstKindOfBoth([e] + Nodes(first), Nodes(second));
    case _ =>
      assert e in Nodes(e);
  }

  // Any number of wrappers around an error.
  function Wraps(e: Err, n: nat): Err { if n == 0 then e else Wrapped(Wraps(e, n - 1)) }

  // Wrapping, as often as it may be, keeps both the retry kind and the cancellation mark.
  lemma {:induction false} WrappingKeepsKind(e: Err, n: nat)
    ensures Classify(Wraps(e, n)) == Classify(e) && IsCancellation(Wraps(e, n)) == IsCancellation(e)
  {
    if n == 0 {
    } else {
      WrappingKeepsKind(e, n - 1);
    }
  }
}
