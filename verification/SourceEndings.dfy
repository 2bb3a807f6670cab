/** Why a streamWithResult call ends, and what its client and the component's health then see: the errors the
    source raises itself (pkg/source/source.go:334-374), the producer's, a lost client and a cancellation. */
module SourceEndings {
  import opened Basics
  import opened Errors
  import opened SourceStream
  import Runs

  datatype Cause = Drained | ContextEnded | SendFailed | ProducerFailed(e: Error) | Breach

  /** The producer broke its contract: an incomplete stream, a nil event, no result before the events were
      closed, a second result, or an unbounded stream that ended without an error. */
  ghost predicate ContractBroken(c: Config, s: State)
  {
    || (s.pc == Started(Incomplete) && s.w.ctxErr.None?)
    || (s.pc.Checked? && s.held == [None])
    || (s.pc.TakeResult? && s.w.closed && s.w.buf == [] && s.w.queued == [])
    || (s.pc.LenCheck? && |s.w.queued| > 1)
    || (s.pc == Judge(None) && !c.bounded && s.judgedQueue == [None])
  }

  /** The statements at which the handler looks at its context and goes no further once it has ended. */
  predicate LooksAtContext(s: State)
  {
    s.pc.Started? || s.pc.Top? || s.pc.Got? || s.pc.Eof?
  }

  /** Taken in s, the handler's step h decides the ending for this cause. */
  ghost predicate CausedBy(c: Config, s: State, h: HandlerAction, cause: Cause)
  {
    match cause
    case Drained => h.Go? && s.pc == Judge(None) && c.bounded
    case ContextEnded =>
      s.w.ctxErr.Some?
      && ((h.PickDone? && s.pc.Select?)
          || (h.Go? && LooksAtContext(s))
          || (h.Go? && s.pc.Judge? && s.pc.t.Some? && CtxCanceled in Nodes(s.pc.t.value)))
    case SendFailed => s.pc.Sending? && h.SendReturns? && h.err.Some?
    case ProducerFailed(e) =>
      h.Go?
      && ((s.pc == Started(StartFailed(e)) && s.w.ctxErr.None?)
          || (s.pc == Judge(Some(e)) && (s.w.ctxErr.None? || CtxCanceled !in Nodes(e))))
    case Breach => h.Go? && ContractBroken(c, s)
  }

  /** The context ended on its own account: with the client's error or, after a stop, as cancelled. */
  ghost predicate ContextOrigin(s: State)
  {
    s.w.ctxErr.Some? ==>
      && s.w.ctxErr.value in {CtxCanceled, CtxDeadline}
      && (s.w.ctxErr == s.w.clientErr
          || (s.w.ctxErr == Some(CtxCanceled) && (s.w.stopped || s.pc.Joining? || s.pc.Done?)))
  }

  /** The status of an ended context. */
  function ContextStatus(e: Error): (st: Status)
  {
    if e == CtxDeadline then Status(DeadlineExceeded, "source stream timed out")
    else Status(Canceled, "source stream canceled")
  }

  /** What the client is told, what was counted and whether health suffered. */
  ghost predicate Report(cause: Cause, ctxErr: Option<Error>, st: Option<Status>, errors: nat, unhealthy: bool)
  {
    match cause
    case Drained => st.None? && errors == 0 && !unhealthy
    case ContextEnded => ctxErr.Some? && st == Some(ContextStatus(ctxErr.value)) && errors == 0 && !unhealthy
    case SendFailed => st == Some(Status(Unavailable, "source downstream unavailable")) && errors == 0 && !unhealthy
    case ProducerFailed(e) => st == Some(StreamStatus(e)) && errors == 1 && unhealthy == MarksUnhealthy(e)
    case Breach => st == Some(Status(Internal, "source internal failure")) && errors == 1 && unhealthy
  }

  /** The ending is decided: reported already, or about to go through failStream. */
  ghost predicate Decided(cause: Cause, ctxErr: Option<Error>, t: State)
  {
    && (t.pc.Failing? || Returning(t.pc))
    && (t.pc.Failing? ==>
          Report(cause, ctxErr, Some(StreamStatus(t.pc.e)), t.errors + 1, MarksUnhealthy(t.pc.e))
          && t.errors == 0 && !t.unhealthy)
    && (Returning(t.pc) ==> Report(cause, ctxErr, t.pc.st, t.errors, t.unhealthy))
  }

  lemma LostClient(e: Error)
    ensures StreamStatus(StreamError(DOWNSTREAM_UNAVAILABLE, Some(e)))
            == Status(Unavailable, "source downstream unavailable")
  {
    assert KindStatus(DOWNSTREAM_UNAVAILABLE) == Some(Status(Unavailable, "source downstream unavailable"));
  }

  lemma EndedContext(s: State)
    requires ContextOrigin(s) && s.w.ctxErr.Some?
    ensures StreamStatus(s.w.ctxErr.value) == ContextStatus(s.w.ctxErr.value)
  {
  }

  /** The handler's step does what the cause says. */
  lemma CauseDecides(c: Config, s: State, h: HandlerAction, cause: Cause, t: State)
    requires Inv(c, s) && ContextOrigin(s) && CausedBy(c, s, h, cause) && HandlerNext(c, s, h) == Some(t)
    ensures Decided(cause, s.w.ctxErr, t)
  {
    match cause
    case Drained =>
    case ContextEnded =>
      EndedContext(s);
      if s.pc.Judge? { IsIsMembership(s.pc.t.value, CtxCanceled); }
    case SendFailed => LostClient(h.err.value);
    case ProducerFailed(e) => IsIsMembership(e, CtxCanceled);
    case Breach => BreachDecides(c, s, t);
  }

  lemma BreachDecides(c: Config, s: State, t: State)
    requires Inv(c, s) && ContractBroken(c, s) && GoNext(c, s) == Some(t)
    ensures Decided(Breach, s.w.ctxErr, t)
  {
    assert t.pc.Failing? && t.pc.e.Plain? && t.errors == s.errors && t.unhealthy == s.unhealthy;
    PlainIsInternal(t.pc.e.text);
  }

  lemma ResultCause(c: Config, s: State) returns (cause: Cause)
    requires Inv(c, s) && (s.pc.Judge? || s.pc.TakeResult? || s.pc.LenCheck?) && GoNext(c, s).Some?
    requires GoNext(c, s).value.pc.Failing? || Returning(GoNext(c, s).value.pc)
    ensures CausedBy(c, s, Go, cause)
  {
    cause := Breach;
    if s.pc.Judge? && s.pc.t.Some? {
      var e := s.pc.t.value;
      IsIsMembership(e, CtxCanceled);
      cause := if s.w.ctxErr.Some? && CtxCanceled in Nodes(e) then ContextEnded else ProducerFailed(e);
    } else if s.pc.Judge? && c.bounded {
      cause := Drained;
    }
  }

  lemma GoCause(c: Config, s: State) returns (cause: Cause)
    requires Inv(c, s) && !(s.pc.Failing? || Returning(s.pc)) && GoNext(c, s).Some?
    requires GoNext(c, s).value.pc.Failing? || Returning(GoNext(c, s).value.pc)
    ensures CausedBy(c, s, Go, cause)
  {
    if s.pc.Judge? || s.pc.TakeResult? || s.pc.LenCheck? {
      cause := ResultCause(c, s);
    } else if s.w.ctxErr.Some? && LooksAtContext(s) {
      cause := ContextEnded;
    } else if s.pc.Started? && s.pc.r.StartFailed? {
      cause := ProducerFailed(s.pc.r.e);
    } else {
      assert s.pc.Checked? ==> s.held == [s.held[0]];
      cause := Breach;
    }
  }

  /** Every step that decides the ending has a cause. */
  lemma StepCause(c: Config, s: State, h: HandlerAction, t: State) returns (cause: Cause)
    requires Inv(c, s) && !(s.pc.Failing? || Returning(s.pc)) && HandlerNext(c, s, h) == Some(t)
    requires t.pc.Failing? || Returning(t.pc)
    ensures CausedBy(c, s, h, cause)
  {
    match h
    case Go => cause := GoCause(c, s);
    case PickDone => cause := ContextEnded;
    case _ => cause := SendFailed;
  }

  lemma StaysDecided(c: Config, cause: Cause, ctxErr: Option<Error>, s: State, a: Action)
    requires Decided(cause, ctxErr, s) && Next(c, s, a).Some?
    ensures Decided(cause, ctxErr, Next(c, s, a).value)
  {
  }

  lemma StaysDecidedOnRun(c: Config, cause: Cause, ctxErr: Option<Error>, s: State, acts: seq<Action>)
    requires Decided(cause, ctxErr, s) && Runs.Run(Step(c), s, acts).Some?
    ensures Decided(cause, ctxErr, Runs.Run(Step(c), s, acts).value)
  {
    var decided := t => Decided(cause, ctxErr, t);
    forall t, a | decided(t) && Step(c)(t, a).Some?
      ensures decided(Step(c)(t, a).value)
    {
      StaysDecided(c, cause, ctxErr, t, a);
    }
    Runs.Invariant(Step(c), decided, s, acts);
  }

  predicate ClientOrigin(w: World)
  {
    w.clientErr.Some? ==> w.clientErr.value in {CtxCanceled, CtxDeadline}
  }

  lemma GoKeepsContext(c: Config, s: State, t: State)
    requires !s.pc.Deferred? && GoNext(c, s) == Some(t)
    ensures t.w.ctxErr == s.w.ctxErr && t.w.clientErr == s.w.clientErr && t.w.stopped == s.w.stopped
    ensures s.pc.Joining? || s.pc.Done? ==> t.pc.Done?
  {
    if s.pc.TakeResult? || s.pc.LenCheck? || s.pc.Judge? {
    } else if s.pc.Failing? || Returning(s.pc) {
    } else {
    }
  }

  lemma GoKeepsOrigin(c: Config, s: State, t: State)
    requires ContextOrigin(s) && GoNext(c, s) == Some(t)
    ensures ContextOrigin(t) && t.w.clientErr == s.w.clientErr
  {
    if !s.pc.Deferred? {
      GoKeepsContext(c, s, t);
    }
  }

  lemma HandlerKeepsOrigin(c: Config, s: State, h: HandlerAction, t: State)
    requires ContextOrigin(s) && !h.Go? && HandlerNext(c, s, h) == Some(t)
    ensures ContextOrigin(t) && t.w.clientErr == s.w.clientErr
  {
    assert t.w.ctxErr == s.w.ctxErr && t.w.clientErr == s.w.clientErr && t.w.stopped == s.w.stopped;
    assert !(s.pc.Joining? || s.pc.Done?);
  }

  lemma EnvKeepsOrigin(c: Config, s: State, e: EnvAction, w: World)
    requires Lifecycle(s) && ContextOrigin(s) && ClientOrigin(s.w) && EnvNext(c, s.w, e) == Some(w)
    ensures ContextOrigin(s.(w := w)) && ClientOrigin(w)
  {
  }

  lemma StepKeepsOrigin(c: Config, s: State, a: Action, t: State)
    requires Lifecycle(s) && ContextOrigin(s) && ClientOrigin(s.w) && Next(c, s, a) == Some(t)
    ensures ContextOrigin(t) && ClientOrigin(t.w)
  {
    match a
    case Env(e) => EnvKeepsOrigin(c, s, e, t.w);
    case Handler(Go) => GoKeepsOrigin(c, s, t);
    case Handler(h) => HandlerKeepsOrigin(c, s, h, t);
  }

  lemma EveryRunKeepsOrigin(c: Config, acts: seq<Action>)
    requires Run(c, acts).Some?
    ensures Inv(c, Run(c, acts).value) && ContextOrigin(Run(c, acts).value)
  {
    var inv := (t: State) => Inv(c, t) && ContextOrigin(t) && ClientOrigin(t.w);
    forall t, a | inv(t) && Step(c)(t, a).Some?
      ensures inv(Step(c)(t, a).value)
    {
      StepKeepsInv(c, t, a);
      StepKeepsOrigin(c, t, a, Step(c)(t, a).value);
    }
    Runs.Invariant(Step(c), inv, INITIAL, acts);
  }

  /** The k-th action of the run is a step of the handler that decides the ending for this cause, and the report is
      the one of that cause. */
  ghost predicate EndsBecause(c: Config, acts: seq<Action>, k: nat, cause: Cause)
  {
    && k < |acts| && acts[k].Handler? && Run(c, acts[..k]).Some? && Run(c, acts).Some?
    && (var s, t := Run(c, acts[..k]).value, Run(c, acts).value;
        && ContextOrigin(s) && CausedBy(c, s, acts[k].h, cause)
        && (t.pc.Failing? || Returning(t.pc))
        && (Returning(t.pc) ==> Report(cause, s.w.ctxErr, t.pc.st, t.errors, t.unhealthy)))
  }

  /** In every run, a call that returns does so for one of the causes: the handler was at the statement that finds it,
      the world held it, and status, error count and health are the ones of that cause. */
  lemma EveryEndingHasItsCause(c: Config, acts: seq<Action>) returns (k: nat, cause: Cause)
    requires Run(c, acts).Some? && Returning(Run(c, acts).value.pc)
    ensures EndsBecause(c, acts, k, cause)
  {
    k := Runs.Crossing(Step(c), (t: State) => t.pc.Failing? || Returning(t.pc), INITIAL, acts);
    EveryRunKeepsOrigin(c, acts[..k]);
    var s := Run(c, acts[..k]).value;
    var t := Step(c)(s, acts[k]).value;
    cause := StepCause(c, s, acts[k].h, t);
    CauseDecides(c, s, acts[k].h, cause, t);
    StaysDecidedOnRun(c, cause, s.w.ctxErr, t, acts[k + 1..]);
  }

  /** Conversely, whenever a run reaches a statement that finds a cause and takes it, every continuation that returns
      reports that cause: a broken contract, in particular, is always an internal failure that marks health. */
  lemma EveryCauseIsReported(c: Config, acts: seq<Action>, k: nat, cause: Cause)
    requires Run(c, acts).Some? && k < |acts| && acts[k].Handler? && Run(c, acts[..k]).Some?
    requires CausedBy(c, Run(c, acts[..k]).value, acts[k].h, cause)
    ensures EndsBecause(c, acts, k, cause)
  {
    EveryRunKeepsOrigin(c, acts[..k]);
    var s := Run(c, acts[..k]).value;
    assert acts[..k] + acts[k..] == acts && acts[k..][0] == acts[k] && acts[k..][1..] == acts[k + 1..];
    Runs.RunConcat(Step(c), INITIAL, acts[..k], acts[k..]);
    var t := Step(c)(s, acts[k]).value;
    CauseDecides(c, s, acts[k].h, cause, t);
    StaysDecidedOnRun(c, cause, s.w.ctxErr, t, acts[k + 1..]);
  }

  /** Some run ends in s for one of the causes. */
  ghost predicate Explained(c: Config, s: State)
  {
    exists acts: seq<Action>, k: nat, cause: Cause :: Run(c, acts) == Some(s) && EndsBecause(c, acts, k, cause)
  }
}
