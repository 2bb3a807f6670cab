/** Why a Process call returns and with which error, what it sends, and what still happens after a stop or the end
    of its context (pkg/processor/processor.go:221-301). */
module ProcessorEndings {
  import opened Basics
  import opened Errors
  import opened HandlerRegistry
  import opened Processor
  import opened ProcessorWorld
  import Runs
  import opened Selections

  // ----- what is sent and counted, by position

  /** The output of an invocation that returned an event and no error. */
  function Output(): (f: Call -> Option<Event>) { (call: Call) => if call.err.None? then call.out else None }

  /** The two other kinds of invocation. */
  function HasError(): (keep: Call -> bool) { (call: Call) => call.err.Some? }
  function IsFiltered(): (keep: Call -> bool) { (call: Call) => call.err.None? && call.out.None? }

  /** The outputs are those, in order. */
  lemma {:induction false} OutputsAreSelected(calls: seq<Call>) returns (at: seq<nat>)
    ensures Collects(calls, Output(), Outputs(calls), at)
  {
    if calls == [] {
      at := [];
    } else {
      var n := |calls| - 1;
      at := OutputsAreSelected(calls[..n]);
      assert calls[..n] + [calls[n]] == calls;
      OutputsAppend(calls[..n], calls[n]);
      assert Outputs(calls[..n]) + [] == Outputs(calls[..n]);
      CollectsNext(calls[..n], Output(), Outputs(calls[..n]), at, calls[n]);
      at := if Output()(calls[n]).Some? then at + [n] else at;
    }
  }

  /** Failures are the invocations that returned an error, ... */
  lemma {:induction false} FailuresAreSelected(calls: seq<Call>) returns (at: seq<nat>)
    ensures Selects(calls, HasError(), at) && CountFailures(calls) == |at|
  {
    if calls == [] {
      at := [];
    } else {
      var n := |calls| - 1;
      at := FailuresAreSelected(calls[..n]);
      assert calls[..n] + [calls[n]] == calls;
      SelectsNext(calls[..n], HasError(), at, calls[n]);
      at := if HasError()(calls[n]) then at + [n] else at;
    }
  }

  /** ... and filtered ones those that returned neither an error nor an event. */
  lemma {:induction false} FilteredAreSelected(calls: seq<Call>) returns (at: seq<nat>)
    ensures Selects(calls, IsFiltered(), at) && CountFiltered(calls) == |at|
  {
    if calls == [] {
      at := [];
    } else {
      var n := |calls| - 1;
      at := FilteredAreSelected(calls[..n]);
      assert calls[..n] + [calls[n]] == calls;
      SelectsNext(calls[..n], IsFiltered(), at, calls[n]);
      at := if IsFiltered()(calls[n]) then at + [n] else at;
    }
  }

  /** In every run the k-th event sent is the output of the k-th invocation that returned an event and no error, and
      at most the last such output is missing. */
  lemma SendsAreSelected(table: Table, acts: seq<WorldAction>, i: nat) returns (at: seq<nat>)
    requires Run(table, acts).Some? && i < |Run(table, acts).value.streams|
    ensures var s := Run(table, acts).value.streams[i];
            && Collects(s.calls, Output(), Outputs(s.calls), at)
            && |s.sent| <= |at| <= |s.sent| + 1
            && (forall k :: 0 <= k < |s.sent| ==> Output()(s.calls[at[k]]) == Some(s.sent[k]))
  {
    EveryRunKeepsWorld(table, acts);
    var s := Run(table, acts).value.streams[i];
    assert Sends(s);
    at := OutputsAreSelected(s.calls);
  }

  // ----- why a call returns

  function LastError(s: Stream): (e: Option<Error>)
  {
    if s.calls == [] then None else s.calls[|s.calls| - 1].err
  }

  /** The error is, wraps or joins a context error. */
  ghost predicate OfContext(e: Error) { CtxCanceled in Nodes(e) || CtxDeadline in Nodes(e) }

  lemma IsOfContext(e: Error)
    ensures OfContext(e) <==> Is(e, CtxCanceled) || Is(e, CtxDeadline)
  {
    IsIsMembership(e, CtxCanceled);
    IsIsMembership(e, CtxDeadline);
  }

  predicate NoHandler(hs: seq<Handler>, t: string)
  {
    forall i :: 0 <= i < |hs| ==> t !in hs[i].inputTypes
  }

  /** Taken in s, step a ends the call with r.  After a handler's error an ended context is reported first, then an
      error of a context that the handler met; any other error is replaced by a fixed one. */
  ghost predicate ReturnsBecause(hs: seq<Handler>, stopped: bool, s: Stream, a: Action, r: Result)
  {
    match r
    case Ok => s.pc.Receiving? && a == RecvReturns(Eof)
    case Stopped => s.pc.Top? && a.PickStop? && stopped
    case CtxEnded(e) => s.ctxErr == Some(e) && ((s.pc.Top? && a.PickDone?) || (s.pc.Failing? && a.Go?))
    case RecvFailed(e) => s.pc.Receiving? && a == RecvReturns(Broken(e))
    case HandlerNotFound =>
      s.pc.CountUnmatched? && a.Go? && s.received != [] && NoHandler(hs, s.received[|s.received| - 1].eventType)
    case HandlerError(e) =>
      s.pc.Failing? && a.Go? && s.ctxErr.None? && LastError(s) == Some(e) && OfContext(e)
    case HandlerFailed =>
      s.pc.Failing? && a.Go? && s.ctxErr.None? && LastError(s).Some? && !OfContext(LastError(s).value)
    case SendFailed(e) => s.pc.Sending? && a == SendReturns(Some(e))
  }

  /** A call that looks for a handler has an input, and ends up unmatched only if none lists its type. */
  ghost predicate Looked(hs: seq<Handler>, s: Stream)
  {
    && (s.pc.Looking? || s.pc.CountUnmatched? ==> s.received != [])
    && (s.pc.CountUnmatched? ==> NoHandler(hs, s.received[|s.received| - 1].eventType))
  }

  lemma LookKeepsLooked(hs: seq<Handler>, table: Table, s: Stream, t: Stream)
    requires Holds(table, hs) && Looked(hs, s) && s.pc.Looking? && GoNext(table, s) == Some(t)
    ensures Looked(hs, t)
  {
    var eventType := s.received[|s.received| - 1].eventType;
    NoneRegistered(hs, eventType);
    assert HandlersFor(table, s.received[|s.received| - 1]) == Registered(hs, eventType);
  }

  lemma StepKeepsLooked(hs: seq<Handler>, table: Table, stopped: bool, s: Stream, a: Action, t: Stream)
    requires Holds(table, hs) && Looked(hs, s) && Next(table, stopped, s, a) == Some(t)
    ensures Looked(hs, t)
  {
    if a.Go? && s.pc.Looking? {
      LookKeepsLooked(hs, table, s, t);
    } else {
      assert t.pc.Looking? ==> t.received != [];
      assert t.pc.CountUnmatched? ==> s.pc.CountUnmatched? && t.received == s.received;
    }
  }

  lemma FailingReturns(hs: seq<Handler>, table: Table, stopped: bool, s: Stream, t: Stream)
    requires s.pc.Failing? && GoNext(table, s) == Some(t)
    ensures t.pc.Returned? && ReturnsBecause(hs, stopped, s, Go, t.pc.r)
  {
    IsOfContext(LastError(s).value);
  }

  /** A step returns with r exactly for the reason of r. */
  lemma StepReturnsBecause(hs: seq<Handler>, table: Table, stopped: bool, s: Stream, a: Action, r: Result)
    requires Looked(hs, s) && !s.pc.Returned? && Next(table, stopped, s, a).Some?
    ensures Next(table, stopped, s, a).value.pc == Returned(r) <==> ReturnsBecause(hs, stopped, s, a, r)
  {
    var t := Next(table, stopped, s, a).value;
    if a.Go? && s.pc.Failing? {
      FailingReturns(hs, table, stopped, s, t);
    }
  }

  ghost predicate AllLooked(hs: seq<Handler>, w: World)
  {
    forall i :: 0 <= i < |w.streams| ==> Looked(hs, w.streams[i])
  }

  lemma EveryRunLooks(hs: seq<Handler>, table: Table, acts: seq<WorldAction>)
    requires Holds(table, hs) && Run(table, acts).Some?
    ensures AllLooked(hs, Run(table, acts).value)
  {
    var inv := w => AllLooked(hs, w);
    var next := Step(table);
    forall w, a | inv(w) && next(w, a).Some?
      ensures inv(next(w, a).value)
    {
      if a.At? {
        StepKeepsLooked(hs, table, w.stopped, w.streams[a.i], a.a,
                        Next(table, w.stopped, w.streams[a.i], a.a).value);
      }
    }
    Runs.Invariant(next, inv, InitialWorld(), acts);
  }

  /** t is a later state of the returned call s. */
  predicate StillOver(s: Stream, t: Stream)
  {
    t.pc == s.pc && t.received == s.received && t.calls == s.calls && t.sent == s.sent
  }

  lemma ReturnedStep(table: Table, w: World, a: WorldAction, i: nat)
    requires i < |w.streams| && w.streams[i].pc.Returned? && WorldNext(table, w, a).Some?
    ensures i < |WorldNext(table, w, a).value.streams|
    ensures StillOver(w.streams[i], WorldNext(table, w, a).value.streams[i])
  {
  }

  lemma ReturnedStays(table: Table, w: World, acts: seq<WorldAction>, i: nat)
    requires i < |w.streams| && w.streams[i].pc.Returned? && Runs.Run(Step(table), w, acts).Some?
    ensures var v := Runs.Run(Step(table), w, acts).value;
            i < |v.streams| && StillOver(w.streams[i], v.streams[i])
  {
    var s := w.streams[i];
    var kept := (v: World) => i < |v.streams| && StillOver(s, v.streams[i]);
    forall v, a | kept(v) && Step(table)(v, a).Some?
      ensures kept(Step(table)(v, a).value)
    {
      ReturnedStep(table, v, a, i);
    }
    Runs.Invariant(Step(table), kept, w, acts);
  }

  /** The step at which a call returned, and what it has been since. */
  lemma ReturnStep(table: Table, acts: seq<WorldAction>, i: nat) returns (k: nat)
    requires Run(table, acts).Some? && i < |Run(table, acts).value.streams|
    requires Run(table, acts).value.streams[i].pc.Returned?
    ensures k < |acts| && acts[k].At? && acts[k].i == i && Run(table, acts[..k]).Some?
    ensures var w := Run(table, acts[..k]).value;
            && i < |w.streams| && !w.streams[i].pc.Returned?
            && var t := Next(table, w.stopped, w.streams[i], acts[k].a);
               t.Some? && t.value.pc.Returned? && StillOver(t.value, Run(table, acts).value.streams[i])
  {
    var returned := (w: World) => i < |w.streams| && w.streams[i].pc.Returned?;
    k := Runs.Crossing(Step(table), returned, InitialWorld(), acts);
    var v := Step(table)(Run(table, acts[..k]).value, acts[k]).value;
    ReturnedStays(table, v, acts[k + 1..], i);
  }

  lemma ReturnIsFinal(hs: seq<Handler>, table: Table, stopped: bool, s: Stream, a: Action, t: Stream, end: Stream)
    requires Looked(hs, s) && !s.pc.Returned? && Next(table, stopped, s, a) == Some(t)
    requires t.pc.Returned? && StillOver(t, end)
    ensures ReturnsBecause(hs, stopped, s, a, end.pc.r)
    ensures end.pc.r.HandlerError? ==> LastError(end) == Some(end.pc.r.e) && OfContext(end.pc.r.e)
    ensures end.pc.r.HandlerFailed? ==> LastError(end).Some? && !OfContext(LastError(end).value)
  {
    StepReturnsBecause(hs, table, stopped, s, a, t.pc.r);
    assert a.Go? ==> t.calls == s.calls;
  }

  /** Call i returned at the k-th action of the run, for the reason of its result; a handler's error is the one of its
      last invocation. */
  ghost predicate ReturnsAt(hs: seq<Handler>, table: Table, acts: seq<WorldAction>, i: nat, k: nat)
  {
    && Run(table, acts).Some? && i < |Run(table, acts).value.streams|
    && k < |acts| && acts[k].At? && acts[k].i == i && Run(table, acts[..k]).Some?
    && var w, end := Run(table, acts[..k]).value, Run(table, acts).value.streams[i];
       && i < |w.streams| && !w.streams[i].pc.Returned? && end.pc.Returned?
       && ReturnsBecause(hs, w.stopped, w.streams[i], acts[k].a, end.pc.r)
       && (end.pc.r.HandlerError? ==> LastError(end) == Some(end.pc.r.e) && OfContext(end.pc.r.e))
       && (end.pc.r.HandlerFailed? ==> LastError(end).Some? && !OfContext(LastError(end).value))
  }

  /** In every run of any number of calls, a call that has returned did so at some step and for the reason of its
      result: nil at the end of the input, the context's own error, the stop, a failed receive or Send, an input that
      no registered handler lists, the handler's error if and only if that is of a context and the call's own context
      had not ended, and otherwise the fixed failure. */
  lemma EveryReturnHasItsCause(hs: seq<Handler>, table: Table, acts: seq<WorldAction>, i: nat) returns (k: nat)
    requires Holds(table, hs) && Run(table, acts).Some? && i < |Run(table, acts).value.streams|
    requires Run(table, acts).value.streams[i].pc.Returned?
    ensures ReturnsAt(hs, table, acts, i, k)
  {
    k := ReturnStep(table, acts, i);
    EveryRunLooks(hs, table, acts[..k]);
    var w := Run(table, acts[..k]).value;
    ReturnIsFinal(hs, table, w.stopped, w.streams[i], acts[k].a,
                  Next(table, w.stopped, w.streams[i], acts[k].a).value, Run(table, acts).value.streams[i]);
  }

  /** Some run ends in w with its only call returned for the reason of its result. */
  ghost predicate Explained(hs: seq<Handler>, table: Table, w: World)
  {
    exists acts: seq<WorldAction>, k: nat :: Run(table, acts) == Some(w) && ReturnsAt(hs, table, acts, 0, k)
  }

  // ----- after a stop or the end of the context

  predicate Ended(w: World, i: nat)
    requires i < |w.streams|
  {
    w.stopped || w.streams[i].ctxErr.Some?
  }

  /** Inputs that may still be received, and invocations that may still start. */
  function InputAllowance(s: Stream): (n: nat) { if s.pc.Receiving? then 1 else 0 }
  function CallAllowance(s: Stream): (n: nat) { if s.pc.Receiving? || s.pc.Looking? || s.pc.Handling? then 1 else 0 }

  predicate NoLater(s: Stream, t: Stream)
  {
    && s.received <= t.received && |t.received| + InputAllowance(t) <= |s.received| + InputAllowance(s)
    && s.calls <= t.calls && |t.calls| + CallAllowance(t) <= |s.calls| + CallAllowance(s)
    && (s.ctxErr.Some? ==> t.ctxErr.Some?)
  }

  lemma EndedStep(table: Table, stopped: bool, s: Stream, a: Action)
    requires (stopped || s.ctxErr.Some?) && Next(table, stopped, s, a).Some?
    ensures NoLater(s, Next(table, stopped, s, a).value)
  {
  }

  /** From the moment the processor is stopped or the call's context has ended, only a receive that is already waiting
      can still bring an input, and at most one more invocation starts. */
  lemma AfterStopOrCancel(table: Table, w: World, acts: seq<WorldAction>, i: nat)
    requires i < |w.streams| && Ended(w, i) && Runs.Run(Step(table), w, acts).Some?
    ensures var v := Runs.Run(Step(table), w, acts).value;
            && i < |v.streams|
            && |v.streams[i].received| <= |w.streams[i].received| + (if w.streams[i].pc.Receiving? then 1 else 0)
            && |v.streams[i].calls| <= |w.streams[i].calls| + 1
  {
    var s := w.streams[i];
    var kept := (v: World) => i < |v.streams| && Ended(v, i) && NoLater(s, v.streams[i]);
    forall v, a | kept(v) && Step(table)(v, a).Some?
      ensures kept(Step(table)(v, a).value)
    {
      if a.At? && a.i == i {
        EndedStep(table, v.stopped, v.streams[i], a.a);
      }
    }
    Runs.Invariant(Step(table), kept, w, acts);
  }
}
