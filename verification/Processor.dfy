/** Any number of Process calls over one processor (pkg/processor/processor.go:221-301) with its shared metrics. */
module Processor {
  import opened Basics
  import opened Errors
  import opened HandlerRegistry

  /** What ends a call: nil, or one of the errors it can return. */
  datatype Result = Ok | Stopped | CtxEnded(e: Error) | RecvFailed(e: Error) | HandlerNotFound
                  | HandlerError(e: Error) | HandlerFailed | SendFailed(e: Error)

  /** One handler invocation and what it returned. */
  datatype Call = Call(h: Handler, ev: Event, out: Option<Event>, err: Option<Error>)

  /** The next statement of a call. */
  datatype Pc = Top | Receiving | Looking | CountUnmatched | Handling | Recording | CountProcessed
              | CountError | Failing | CountSuccess | Sending | Returned(r: Result)

  datatype Stream = Stream(pc: Pc, ctxErr: Option<Error>, received: seq<Event>, calls: seq<Call>,
                           sent: seq<Event>, failedSends: nat, unmatched: nat)

  const INITIAL := Stream(Top, None, [], [], [], 0, 0)

  datatype Input = Item(ev: Event) | Eof | Broken(e: Error)

  datatype Action =
    | CtxDone(e: Error) | PickDone | PickStop | PickDefault
    | RecvReturns(i: Input) | HandleReturns(out: Option<Event>, err: Option<Error>)
    | Record(ms: real) | Go | SendReturns(err: Option<Error>)

  function HandlersFor(table: Table, ev: Event): (r: seq<Handler>)
  {
    Lookup(table, ev.eventType)
  }

  predicate Emits(call: Call) { call.err.None? && call.out.Some? }

  /** Where a call goes once its invocation has been counted. */
  function Route(call: Call): (pc: Pc)
  {
    if call.err.Some? then CountError else if call.out.None? then Top else CountSuccess
  }

  function FailResult(ctxErr: Option<Error>, e: Error): (r: Result)
  {
    if ctxErr.Some? then CtxEnded(ctxErr.value)
    else if Is(e, CtxCanceled) || Is(e, CtxDeadline) then HandlerError(e)
    else HandlerFailed
  }

  function GoNext(table: Table, s: Stream): (r: Option<Stream>)
  {
    match s.pc
    case Looking =>
      if s.received == [] then None
      else Some(s.(pc := if HandlersFor(table, s.received[|s.received| - 1]) == [] then CountUnmatched else Handling))
    case CountUnmatched => Some(s.(unmatched := s.unmatched + 1, pc := Returned(HandlerNotFound)))
    case CountProcessed => if s.calls == [] then None else Some(s.(pc := Route(s.calls[|s.calls| - 1])))
    case CountError => Some(s.(pc := Failing))
    case Failing =>
      if s.calls == [] || s.calls[|s.calls| - 1].err.None? then None
      else Some(s.(pc := Returned(FailResult(s.ctxErr, s.calls[|s.calls| - 1].err.value))))
    case CountSuccess => Some(s.(pc := Sending))
    case _ => None
  }

  function Next(table: Table, stopped: bool, s: Stream, a: Action): (r: Option<Stream>)
  {
    match a
    case CtxDone(e) =>
      if s.ctxErr.None? && (e == CtxCanceled || e == CtxDeadline) then Some(s.(ctxErr := Some(e))) else None
    case PickDone => if s.pc.Top? && s.ctxErr.Some? then Some(s.(pc := Returned(CtxEnded(s.ctxErr.value)))) else None
    case PickStop => if s.pc.Top? && stopped then Some(s.(pc := Returned(Stopped))) else None
    case PickDefault => if s.pc.Top? && s.ctxErr.None? && !stopped then Some(s.(pc := Receiving)) else None
    case RecvReturns(i) =>
      if !s.pc.Receiving? then None
      else (match i
            case Item(ev) => Some(s.(received := s.received + [ev], pc := Looking))
            case Eof => Some(s.(pc := Returned(Ok)))
            case Broken(e) => Some(s.(pc := Returned(RecvFailed(e)))))
    case HandleReturns(out, err) =>
      if !s.pc.Handling? || s.received == [] || HandlersFor(table, s.received[|s.received| - 1]) == [] then None
      else
        var ev := s.received[|s.received| - 1];
        Some(s.(calls := s.calls + [Call(HandlersFor(table, ev)[0], ev, out, err)], pc := Recording))
    case Record(_) => if s.pc.Recording? then Some(s.(pc := CountProcessed)) else None
    case Go => GoNext(table, s)
    case SendReturns(err) =>
      if !s.pc.Sending? || s.calls == [] || !Emits(s.calls[|s.calls| - 1]) then None
      else
        match err
        case None => Some(s.(sent := s.sent + [s.calls[|s.calls| - 1].out.value], pc := Top))
        case Some(e) => Some(s.(failedSends := s.failedSends + 1, pc := Returned(SendFailed(e))))
  }

  // ----- the trace of one call

  /** The non-nil outputs of the invocations that returned no error, in order. */
  function Outputs(calls: seq<Call>): (r: seq<Event>)
  {
    if calls == [] then []
    else
      var last := calls[|calls| - 1];
      Outputs(calls[..|calls| - 1]) + if Emits(last) then [last.out.value] else []
  }

  lemma OutputsAppend(calls: seq<Call>, call: Call)
    ensures Outputs(calls + [call]) == Outputs(calls) + if Emits(call) then [call.out.value] else []
  {
    assert (calls + [call])[..|calls|] == calls;
  }

  ghost predicate NoErrors(calls: seq<Call>)
  {
    forall i :: 0 <= i < |calls| ==> calls[i].err.None?
  }

  /** The last invocation's output is still to be sent, or its Send failed. */
  predicate Unsent(s: Stream)
  {
    s.calls != [] && Emits(s.calls[|s.calls| - 1])
    && (s.pc.Recording? || s.pc.CountProcessed? || s.pc.CountSuccess? || s.pc.Sending? || s.failedSends > 0)
  }

  /** An input was received that has not been handed to a handler. */
  predicate Unhandled(pc: Pc)
  {
    pc.Looking? || pc.CountUnmatched? || pc.Handling? || pc == Returned(HandlerNotFound)
  }

  /** The last invocation failed or may have. */
  predicate AfterCall(pc: Pc)
  {
    pc.Recording? || pc.CountProcessed? || pc.CountError? || pc.Failing?
    || (pc.Returned? && (pc.r.CtxEnded? || pc.r.HandlerError? || pc.r.HandlerFailed?))
  }

  /** Between the return of the handler and the end of processAndSend. */
  predicate MidCall(pc: Pc)
  {
    pc.Recording? || pc.CountProcessed? || pc.CountError? || pc.Failing? || pc.CountSuccess? || pc.Sending?
  }

  ghost predicate Matched(table: Table, s: Stream)
  {
    && |s.received| == |s.calls| + (if Unhandled(s.pc) then 1 else 0)
    && (forall i :: 0 <= i < |s.calls| ==>
          && s.calls[i].ev == s.received[i]
          && HandlersFor(table, s.received[i]) != [] && s.calls[i].h == HandlersFor(table, s.received[i])[0])
  }

  ghost predicate Sends(s: Stream)
  {
    && Outputs(s.calls) == s.sent + (if Unsent(s) then [s.calls[|s.calls| - 1].out.value] else [])
    && (MidCall(s.pc) ==> s.calls != [])
    && (s.pc.CountSuccess? || s.pc.Sending? ==> Emits(s.calls[|s.calls| - 1]))
    && (s.pc.CountError? || s.pc.Failing? ==> s.calls[|s.calls| - 1].err.Some?)
    && s.failedSends == (if s.pc.Returned? && s.pc.r.SendFailed? then 1 else 0)
    && (s.failedSends > 0 ==> Unsent(s))
    && s.unmatched == (if s.pc == Returned(HandlerNotFound) then 1 else 0)
  }

  ghost predicate Clean(s: Stream)
  {
    if AfterCall(s.pc) && s.calls != [] then NoErrors(s.calls[..|s.calls| - 1]) else NoErrors(s.calls)
  }

  ghost predicate Inv(table: Table, s: Stream)
  {
    Matched(table, s) && Sends(s) && Clean(s)
  }

  lemma HandleKeepsMatched(table: Table, s: Stream, out: Option<Event>, err: Option<Error>)
    requires Matched(table, s) && Next(table, false, s, HandleReturns(out, err)).Some?
    ensures Matched(table, Next(table, false, s, HandleReturns(out, err)).value)
  {
  }

  lemma HandleKeepsSends(table: Table, s: Stream, out: Option<Event>, err: Option<Error>)
    requires Sends(s) && Next(table, false, s, HandleReturns(out, err)).Some?
    ensures Sends(Next(table, false, s, HandleReturns(out, err)).value)
  {
    var t := Next(table, false, s, HandleReturns(out, err)).value;
    OutputsAppend(s.calls, t.calls[|s.calls|]);
  }

  lemma HandleKeepsClean(s: Stream, call: Call, t: Stream)
    requires Clean(s) && s.pc.Handling? && t.calls == s.calls + [call] && t.pc.Recording?
    ensures Clean(t)
  {
    assert t.calls[..|t.calls| - 1] == s.calls;
  }

  lemma HandleKeepsInv(table: Table, s: Stream, out: Option<Event>, err: Option<Error>, t: Stream)
    requires Inv(table, s) && Next(table, false, s, HandleReturns(out, err)) == Some(t)
    ensures Inv(table, t)
  {
    HandleKeepsMatched(table, s, out, err);
    HandleKeepsSends(table, s, out, err);
    HandleKeepsClean(s, t.calls[|s.calls|], t);
  }

  lemma GoKeepsSends(table: Table, s: Stream)
    requires Matched(table, s) && Sends(s) && GoNext(table, s).Some?
    ensures Sends(GoNext(table, s).value)
  {
    if s.pc.CountProcessed? {
    } else if s.pc.Looking? || s.pc.CountUnmatched? {
    } else {
    }
  }

  lemma GoKeepsMatched(table: Table, s: Stream)
    requires Matched(table, s) && GoNext(table, s).Some?
    ensures Matched(table, GoNext(table, s).value)
  {
    var t := GoNext(table, s).value;
    assert t.received == s.received && t.calls == s.calls && Unhandled(t.pc) == Unhandled(s.pc);
  }

  lemma GoKeepsClean(table: Table, s: Stream)
    requires Clean(s) && GoNext(table, s).Some?
    ensures Clean(GoNext(table, s).value)
  {
    var t := GoNext(table, s).value;
    if s.pc.CountProcessed? {
      var n := |s.calls| - 1;
      assert forall i :: 0 <= i < n ==> s.calls[..n][i] == s.calls[i];
    } else {
      assert t.calls == s.calls && AfterCall(t.pc) == AfterCall(s.pc);
    }
  }

  lemma GoKeepsInv(table: Table, s: Stream)
    requires Inv(table, s) && GoNext(table, s).Some?
    ensures Inv(table, GoNext(table, s).value)
  {
    GoKeepsMatched(table, s);
    GoKeepsSends(table, s);
    GoKeepsClean(table, s);
  }

  lemma ReceiveKeepsInv(table: Table, s: Stream, i: Input)
    requires Inv(table, s) && Next(table, false, s, RecvReturns(i)).Some?
    ensures Inv(table, Next(table, false, s, RecvReturns(i)).value)
  {
    var t := Next(table, false, s, RecvReturns(i)).value;
    assert t.calls == s.calls && t.sent == s.sent && Unsent(t) == Unsent(s);
    assert Matched(table, t);
  }

  lemma SendKeepsInv(table: Table, s: Stream, err: Option<Error>)
    requires Inv(table, s) && Next(table, false, s, SendReturns(err)).Some?
    ensures Inv(table, Next(table, false, s, SendReturns(err)).value)
  {
    var t := Next(table, false, s, SendReturns(err)).value;
    assert t.calls == s.calls && t.received == s.received;
    assert Matched(table, t);
    assert Sends(t);
  }

  /** Steps between two statements that touch no event. */
  lemma MovesKeepInv(table: Table, s: Stream, pc: Pc)
    requires Inv(table, s)
    requires (s.pc.Recording? && pc.CountProcessed?)
          || (s.pc.Top? && (pc.Receiving? || pc == Returned(Stopped) || (pc.Returned? && pc.r.CtxEnded?)))
    ensures Inv(table, s.(pc := pc))
  {
    var t := s.(pc := pc);
    assert Matched(table, t);
    assert Sends(t);
    assert Clean(t);
  }

  lemma ContextKeepsInv(table: Table, s: Stream, ctxErr: Option<Error>)
    requires Inv(table, s)
    ensures Inv(table, s.(ctxErr := ctxErr))
  {
    var t := s.(ctxErr := ctxErr);
    assert Matched(table, t) && Unsent(t) == Unsent(s);
    assert Sends(t) && Clean(t);
  }

  lemma StepKeepsInv(table: Table, stopped: bool, s: Stream, a: Action)
    requires Inv(table, s) && Next(table, stopped, s, a).Some?
    ensures Inv(table, Next(table, stopped, s, a).value)
  {
    match a
    case HandleReturns(out, err) => HandleKeepsInv(table, s, out, err, Next(table, stopped, s, a).value);
    case Go => GoKeepsInv(table, s);
    case SendReturns(err) => SendKeepsInv(table, s, err);
    case RecvReturns(i) => ReceiveKeepsInv(table, s, i);
    case CtxDone(e) => ContextKeepsInv(table, s, Some(e));
    case _ => MovesKeepInv(table, s, Next(table, stopped, s, a).value.pc);
  }
}
