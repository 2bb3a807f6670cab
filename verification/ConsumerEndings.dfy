/** Which events reach the callback, and why a Consume call returns and with which answer
    (pkg/consumer/service.go:57-148). */
module ConsumerEndings {
  import opened Basics
  import opened ConsumerService
  import opened ConsumerStream
  import opened Errors
  import Runs
  import opened Selections

  // ----- the type filter

  /** Without input types everything passes, otherwise exactly the events of those types. */
  predicate Passes(c: Config, ev: Event) { c.types == {} || ev.eventType in c.types }

  /** The event itself, if it passes. */
  function Passed(c: Config): (f: Event -> Option<Event>)
  {
    (ev: Event) => if Passes(c, ev) then Some(ev) else None
  }

  lemma {:induction false} AcceptedIsSelected(c: Config, evs: seq<Event>) returns (at: seq<nat>)
    ensures Collects(evs, Passed(c), Accepted(c, evs), at)
  {
    if evs == [] {
      at := [];
    } else {
      var n := |evs| - 1;
      at := AcceptedIsSelected(c, evs[..n]);
      assert evs[..n] + [evs[n]] == evs;
      CollectsNext(evs[..n], Passed(c), Accepted(c, evs[..n]), at, evs[n]);
      at := if Passes(c, evs[n]) then at + [n] else at;
    }
  }

  lemma NoTypesPassAll(c: Config, dispatched: seq<Event>, called: seq<Event>, at: seq<nat>)
    requires c.types == {} && Collects(dispatched, Passed(c), called, at)
    ensures called == dispatched
  {
    CollectsAll(dispatched, Passed(c), called, at);
    forall k | 0 <= k < |dispatched|
      ensures called[k] == dispatched[k]
    {
      assert Passed(c)(dispatched[k]) == Some(called[k]);
    }
  }

  /** The dispatched events are the first that were received, and at most two items have been received beyond them. */
  ghost predicate DispatchedFirst(s: Stream)
  {
    && |s.dispatched| <= |s.received| <= |s.dispatched| + 2
    && forall j :: 0 <= j < |s.dispatched| ==> s.received[j] == RecvEvent(Some(s.dispatched[j]))
  }

  lemma ReceivedBeforeDispatch(s: Stream)
    requires Receives(s)
    ensures DispatchedFirst(s)
  {
  }

  lemma CalledArePassed(c: Config, s: Stream) returns (at: seq<nat>)
    requires Calls(c, s)
    ensures Collects(s.dispatched, Passed(c), s.called, at) && (c.types == {} ==> s.called == s.dispatched)
  {
    at := AcceptedIsSelected(c, s.dispatched);
    if c.types == {} {
      NoTypesPassAll(c, s.dispatched, s.called, at);
    }
  }

  /** In every run and for every stream: the callbacks were started on exactly those received events that pass the type
      filter, each once and in receive order; without input types, on all of them. */
  lemma CallbacksAreThePassedEvents(c: Config, acts: seq<WorldAction>, i: nat) returns (at: seq<nat>)
    requires Run(c, acts).Some? && i < |Run(c, acts).value.streams|
    ensures var s := Run(c, acts).value.streams[i];
            && Collects(s.dispatched, Passed(c), s.called, at)
            && (c.types == {} ==> s.called == s.dispatched) && DispatchedFirst(s)
  {
    EveryRunKeepsWorld(c, acts);
    var s := Run(c, acts).value.streams[i];
    assert Inv(c, s);
    ReceivedBeforeDispatch(s);
    at := CalledArePassed(c, s);
  }

  lemma {:induction false} CountOkIsSelected(results: seq<Option<Error>>) returns (ok: seq<nat>)
    ensures Selects(results, (e: Option<Error>) => e.None?, ok) && |ok| == CountOk(results)
  {
    ok := [];
    if results != [] {
      var n := |results| - 1;
      var front := CountOkIsSelected(results[..n]);
      assert results[..n] + [results[n]] == results;
      SelectsNext(results[..n], (e: Option<Error>) => e.None?, front, results[n]);
      ok := if results[n].None? then front + [n] else front;
    }
  }

  /** The answer counts the callbacks that returned nil and those that did not, and has one fixed text for each of the
      first eight that did not. */
  ghost predicate Reports(r: Response, finished: seq<Option<Error>>, ok: seq<nat>)
  {
    && Selects(finished, (e: Option<Error>) => e.None?, ok)
    && r.consumed == |ok| && r.failed == |finished| - |ok|
    && |r.errors| == (if r.failed < 8 then r.failed else 8)
    && forall k :: 0 <= k < |r.errors| ==> r.errors[k] == "consumer handler failed"
  }

  lemma AckReports(c: Config, s: Stream) returns (ok: seq<nat>)
    requires Inv(c, s) && s.pc.Returned? && s.pc.o.Acked?
    ensures |s.received| == |s.dispatched| + 1 && s.received[|s.dispatched|] == RecvEof
    ensures |s.finished| == |s.called| && s.callback.NoCallback? && (s.dispatched != [] ==> s.called != [])
    ensures Reports(s.pc.o.r, s.finished, ok)
  {
    AckMeansDrained(c, s);
    ok := CountOkIsSelected(s.settled);
    FoldCounts(c, s.dispatched, s.settled);
  }

  /** An acknowledgement follows the end of the input with nothing in flight, when every event that passes the filter
      has been called once and in order, and it reports those callbacks. */
  lemma AcknowledgementReportsCallbacks(c: Config, acts: seq<WorldAction>, i: nat)
    returns (at: seq<nat>, ok: seq<nat>)
    requires Run(c, acts).Some? && i < |Run(c, acts).value.streams|
    requires var s := Run(c, acts).value.streams[i]; s.pc.Returned? && s.pc.o.Acked?
    ensures var s := Run(c, acts).value.streams[i];
            && |s.received| == |s.dispatched| + 1 && s.received[|s.dispatched|] == RecvEof
            && Collects(s.dispatched, Passed(c), s.called, at) && (s.dispatched != [] ==> s.called != [])
            && |s.finished| == |s.called| && s.callback.NoCallback? && Reports(s.pc.o.r, s.finished, ok)
  {
    EveryRunKeepsWorld(c, acts);
    at := CallbacksAreThePassedEvents(c, acts, i);
    ok := AckReports(c, Run(c, acts).value.streams[i]);
  }

  // ----- why a call returns

  /** The status of an error of a context: a deadline outranks a cancellation. */
  ghost function ContextStatus(e: Error): (st: Status)
  {
    if CtxDeadline in Nodes(e) then Status(DeadlineExceeded, "context deadline exceeded")
    else if CtxCanceled in Nodes(e) then Status(Canceled, "context canceled")
    else Status(Unknown, "unknown")
  }

  ghost predicate OfContext(e: Error) { CtxCanceled in Nodes(e) || CtxDeadline in Nodes(e) }

  /** The check before each receive and after each select: the stream's context outranks the stop. */
  ghost predicate CheckRefuses(stopped: bool, s: Stream, st: Status)
  {
    && (s.pc.Top? || s.pc.GotRecv? || s.pc.GotCall?)
    && (if s.ctxErr.Some? then st == ContextStatus(s.ctxErr.value)
        else stopped && st == Status(Canceled, "consumer stopped"))
  }

  ghost predicate SelectRefuses(stopped: bool, s: Stream, a: Action, st: Status)
  {
    && (s.pc.AwaitRecv? || s.pc.AwaitCall?)
    && ((a.PickDone? && s.derivedErr.Some? && st == ContextStatus(s.derivedErr.value))
        || (a.PickStop? && stopped && st == Status(Canceled, "consumer stopped")))
  }

  /** The item in hand cannot be dispatched. */
  ghost predicate ItemRefuses(c: Config, s: Stream, st: Status)
  {
    && s.pc.Dispatch? && |s.pending| == 1
    && match s.pending[0]
       case RecvEof =>
         s.dispatched != [] && s.called == []
         && st == Status(FailedPrecondition, "no events matched consumer input types")
       case RecvErr(_) => st == Status(Unavailable, "consumer receive failed")
       case RecvEvent(None) => st == Status(InvalidArgument, "nil event")
       case RecvEvent(Some(ev)) =>
         Passes(c, ev) && !c.hasHandler && st == Status(FailedPrecondition, "consumer handler not configured")
  }

  /** The callback reported an error of a context. */
  ghost predicate CallbackRefuses(s: Stream, st: Status)
  {
    && s.pc.Settle? && |s.outcome| == 1 && s.outcome[0].Some?
    && OfContext(s.outcome[0].value) && st == ContextStatus(s.outcome[0].value)
  }

  /** Taken in s, step a ends the call with o. */
  ghost predicate ReturnsBecause(c: Config, stopped: bool, s: Stream, a: Action, o: Outcome)
  {
    match o
    case Refused(st) =>
      || SelectRefuses(stopped, s, a, st)
      || (a.Go? && (CheckRefuses(stopped, s, st) || ItemRefuses(c, s, st) || CallbackRefuses(s, st)))
    case Acked(r) =>
      s.pc.Dispatch? && s.pending == [RecvEof] && !(s.dispatched != [] && s.called == [])
      && a == Reply(None) && r == Response(s.consumed, s.failed, s.summaries)
    case AckFailed(e) =>
      s.pc.Dispatch? && s.pending == [RecvEof] && !(s.dispatched != [] && s.called == []) && a == Reply(Some(e))
  }

  /** At the end of the input, "nothing but filtered events" is "something dispatched and nothing called". */
  lemma FilteredMeansNoneCalled(c: Config, s: Stream)
    requires Inv(c, s) && s.pc.Dispatch?
    ensures s.filtered > 0 && s.consumed + s.failed == 0 <==> s.dispatched != [] && s.called == []
  {
    assert Calls(c, s) && Counts(s);
    assert |s.called| == |s.settled|;
  }

  lemma DispatchReturns(c: Config, stopped: bool, s: Stream, a: Action, o: Outcome)
    requires Inv(c, s) && s.pc.Dispatch? && (a.Go? || a.Reply?) && Next(c, stopped, s, a).Some?
    ensures Next(c, stopped, s, a).value.pc == Returned(o) <==> ReturnsBecause(c, stopped, s, a, o)
  {
    FilteredMeansNoneCalled(c, s);
    assert Receives(s);
    assert s.pending == [s.pending[0]];
  }

  lemma SettleReturns(c: Config, stopped: bool, s: Stream, o: Outcome)
    requires Inv(c, s) && s.pc.Settle? && Next(c, stopped, s, Go).Some?
    ensures Next(c, stopped, s, Go).value.pc == Returned(o) <==> ReturnsBecause(c, stopped, s, Go, o)
  {
    assert Calls(c, s);
    if s.outcome[0].Some? {
      var e := s.outcome[0].value;
      IsIsMembership(e, CtxCanceled);
      IsIsMembership(e, CtxDeadline);
      ContextStatusReadsNodes(e);
    }
  }

  lemma CheckReturns(c: Config, stopped: bool, s: Stream, o: Outcome)
    requires (s.pc.Top? || s.pc.GotRecv? || s.pc.GotCall?) && Next(c, stopped, s, Go).Some?
    ensures Next(c, stopped, s, Go).value.pc == Returned(o) <==> ReturnsBecause(c, stopped, s, Go, o)
  {
    if s.ctxErr.Some? { ContextStatusReadsNodes(s.ctxErr.value); }
  }

  lemma SelectReturns(c: Config, stopped: bool, s: Stream, a: Action, o: Outcome)
    requires (a.PickDone? || a.PickStop?) && Next(c, stopped, s, a).Some?
    ensures Next(c, stopped, s, a).value.pc == Returned(o) <==> ReturnsBecause(c, stopped, s, a, o)
  {
    if s.derivedErr.Some? { ContextStatusReadsNodes(s.derivedErr.value); }
  }

  /** A step returns with o exactly for the reason of o. */
  lemma StepReturnsBecause(c: Config, stopped: bool, s: Stream, a: Action, o: Outcome)
    requires Inv(c, s) && !s.pc.Returned? && Next(c, stopped, s, a).Some?
    ensures Next(c, stopped, s, a).value.pc == Returned(o) <==> ReturnsBecause(c, stopped, s, a, o)
  {
    if s.pc.Dispatch? && (a.Go? || a.Reply?) {
      DispatchReturns(c, stopped, s, a, o);
    } else if s.pc.Settle? && a.Go? {
      SettleReturns(c, stopped, s, o);
    } else if a.Go? && (s.pc.Top? || s.pc.GotRecv? || s.pc.GotCall?) {
      CheckReturns(c, stopped, s, o);
    } else if a.PickDone? || a.PickStop? {
      SelectReturns(c, stopped, s, a, o);
    } else {
      assert !Next(c, stopped, s, a).value.pc.Returned?;
    }
  }

  /** The step at which a call returned fixed its answer. */
  lemma ReturnIsFinal(c: Config, acts: seq<WorldAction>, i: nat, k: nat)
    requires Run(c, acts).Some? && i < |Run(c, acts).value.streams| && ReturnsAt(c, acts, i, k)
    ensures var w := Run(c, acts[..k]).value;
            var t := Next(c, Stopped(w), w.streams[i], acts[k].a);
            t.Some? && t.value.pc == Run(c, acts).value.streams[i].pc
  {
    var w := Run(c, acts[..k]).value;
    assert acts[..k] + [acts[k]] == acts[..k + 1] && acts[..k + 1] + acts[k + 1..] == acts;
    Runs.RunAppend(Step(c), InitialWorld(), acts[..k], acts[k]);
    Runs.RunConcat(Step(c), InitialWorld(), acts[..k + 1], acts[k + 1..]);
    ReturnedStreamIsOver(c, Run(c, acts[..k + 1]).value, acts[k + 1..], i);
  }

  /** In every run of any number of streams and stops, a call that has returned did so at some step and for the reason
      of its answer. */
  lemma EveryReturnHasItsCause(c: Config, acts: seq<WorldAction>, i: nat) returns (k: nat)
    requires Run(c, acts).Some? && i < |Run(c, acts).value.streams|
    requires Run(c, acts).value.streams[i].pc.Returned?
    ensures ReturnsAt(c, acts, i, k)
    ensures var w := Run(c, acts[..k]).value;
            ReturnsBecause(c, Stopped(w), w.streams[i], acts[k].a, Run(c, acts).value.streams[i].pc.o)
  {
    k := ReturnedSomewhere(c, acts, i);
    EveryRunKeepsWorld(c, acts[..k]);
    ReturnIsFinal(c, acts, i, k);
    var w := Run(c, acts[..k]).value;
    var s := w.streams[i];
    assert Inv(c, s);
    StepReturnsBecause(c, Stopped(w), s, acts[k].a, Next(c, Stopped(w), s, acts[k].a).value.pc.o);
  }
}
