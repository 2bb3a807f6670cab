/** The converse of the drain: when nothing fails and nobody stops, every interleaving of source, processor and
    consumer is finite, never gets stuck, and ends with the one outcome that the input determines. */
module PipelineSchedule {
  import opened Basics
  import opened Errors
  import opened HandlerRegistry
  import opened Pipeline
  import opened Selections
  import S = SourceStream
  import P = Processor
  import C = ConsumerStream
  import Sched = SourceSchedule
  import Runs

  /** What the producer is going to do and what the handlers answer. */
  datatype Plan = Plan(c: Config, p: Sched.Program, f: Behaviour)

  /** The i-th produced event is there and has a handler that takes it without error. */
  predicate Handled(n: Plan, i: nat)
    requires i < |n.p.events|
  {
    n.p.events[i].Some? &&
    var ev := n.p.events[i].value;
    var hs := Lookup(n.c.table, ev.eventType);
    hs != [] && n.f(hs[0], ev).1.None?
  }

  /** A bounded producer that ends without error, a handler for every event, and a consumer with a callback. */
  ghost predicate Succeeds(n: Plan)
  {
    && n.c.source.bounded && n.c.source.resultCap > 0 && n.p.result.None? && n.c.consumer.hasHandler
    && forall i: nat :: i < |n.p.events| ==> Handled(n, i)
  }

  // ----- the outcome

  function Inputs(n: Plan): (r: seq<Event>)
  {
    Sched.GoodPrefix(n.p.events)
  }

  function Accepted(n: Plan): (r: seq<Event>)
  {
    C.Accepted(n.c.consumer, Image(n.c.table, n.f, Inputs(n)))
  }

  /** The consumer's answer: a refusal if something reached it but nothing was accepted. */
  function Outcome(n: Plan): (o: C.Outcome)
  {
    if Image(n.c.table, n.f, Inputs(n)) != [] && Accepted(n) == [] then C.Refused(C.NO_MATCH)
    else C.Acked(C.Response(|Accepted(n)|, 0, []))
  }

  // ----- the runs considered

  predicate ProcAllowed(n: Plan, s: P.Stream, a: P.Action)
  {
    match a
    case CtxDone(_) => false
    case RecvReturns(i) => !i.Broken?
    case HandleReturns(out, err) =>
      s.received != [] &&
      var ev := s.received[|s.received| - 1];
      var hs := Lookup(n.c.table, ev.eventType);
      hs != [] && (out, err) == n.f(hs[0], ev)
    case SendReturns(err) => err.None?
    case _ => true
  }

  predicate ConsAllowed(a: C.Action)
  {
    match a
    case CtxDone(_) => false
    case RecvReturns(r) => !r.RecvErr?
    case CallReturns(err) => err.None?
    case Reply(err) => err.None?
    case _ => true
  }

  /** The producer follows its program, handlers and callbacks answer without error, no Send and no Recv fails,
      and nothing is stopped or cancelled. */
  predicate Allowed(n: Plan, x: Pipe, a: Action)
  {
    match a
    case Src(s) => Sched.Allowed(n.p, x.src, s)
    case Proc(p) => ProcAllowed(n, x.proc, p)
    case Cons(k) => ConsAllowed(k)
    case HalfClose1 => !x.eof1
    case HalfClose2 => !x.eof2
    case StopProc => false
    case StopCons => false
  }

  function AllowedStep(n: Plan): (step: (Pipe, Action) -> Option<Pipe>)
  {
    (x, a) => if Allowed(n, x, a) then Next(n.c, x, a) else None
  }

  // ----- what every allowed step keeps

  /** The processor has met no error. */
  ghost predicate ProcFine(n: Plan, s: P.Stream)
  {
    && s.ctxErr.None? && Behaves(n.f, s.calls) && P.NoErrors(s.calls)
    && !(s.pc.CountUnmatched? || s.pc.CountError? || s.pc.Failing?)
    && (s.pc.Returned? ==> s.pc.r == P.Ok)
  }

  ghost predicate AllNone(results: seq<Option<Error>>)
  {
    forall i :: 0 <= i < |results| ==> results[i].None?
  }

  function Verdict(s: C.Stream): (o: C.Outcome)
  {
    if s.dispatched != [] && s.called == [] then C.Refused(C.NO_MATCH)
    else C.Acked(C.Response(|s.called|, 0, []))
  }

  /** The consumer has met no error. */
  ghost predicate ConsFine(s: C.Stream)
  {
    && s.ctxErr.None? && s.derivedErr.None? && AllNone(s.finished)
    && (s.receiver.Received? ==> Clean(s.receiver.r))
    && (forall i :: 0 <= i < |s.pending| ==> Clean(s.pending[i]))
    && (s.pc.Returned? ==>
          && s.pending == [C.RecvEof] && s.receiver.NotReceiving? && s.callback.NoCallback? && s.outcome == []
          && s.pc.o == Verdict(s))
  }

  predicate Clean(r: C.Recv) { r.RecvEof? || (r.RecvEvent? && r.ev.Some?) }

  ghost predicate Good(n: Plan, x: Pipe)
  {
    && Inv(n.c, x) && Sched.Good(n.c.source, n.p, x.src)
    && ProcFine(n, x.proc) && ConsFine(x.cons) && !x.procStopped && !x.consStopped
  }

  /** What the processor has received was produced, so it has a handler that takes it. */
  lemma ReceivedIsHandled(n: Plan, x: Pipe, k: nat)
    requires Good(n, x) && k < |x.proc.received|
    ensures k < |n.p.events| && n.p.events[k] == Some(x.proc.received[k])
    ensures |x.src.delivered| <= |n.p.events|
  {
    var s := x.src;
    assert x.proc.received[k] == s.delivered[k];
    assert s.w.produced == Somes(s.delivered) + s.held + s.w.buf;
    assert s.w.produced[k] == Somes(s.delivered)[k] == Some(s.delivered[k]);
    assert s.w.produced <= n.p.events;
  }

  lemma SourceKept(n: Plan, s: S.State, a: S.Action, t: S.State)
    requires n.c.source.resultCap > 0 && Sched.Good(n.c.source, n.p, s) && Sched.Allowed(n.p, s, a)
    requires S.Next(n.c.source, s, a) == Some(t)
    ensures Sched.Good(n.c.source, n.p, t) && Sched.Remaining(n.p, t) + 1 <= Sched.Remaining(n.p, s)
  {
    Sched.KeepsGood(n.c.source, n.p, s, a);
    Sched.StepUsesUp(n.c.source, n.p, s, a);
  }

  lemma SrcKeepsGood(n: Plan, x: Pipe, a: S.Action, y: Pipe)
    requires Succeeds(n) && Good(n, x) && Sched.Allowed(n.p, x.src, a) && SrcNext(n.c, x, a) == Some(y)
    ensures Good(n, y)
  {
    SrcKeepsInv(n.c, x, a, y);
    SrcMoves(n.c, x, a, y);
    SourceKept(n, x.src, a, y.src);
  }

  /** The last input has a handler that takes it. */
  predicate LastHandled(n: Plan, s: P.Stream)
  {
    s.received != [] ==>
      var ev := s.received[|s.received| - 1];
      var hs := Lookup(n.c.table, ev.eventType);
      hs != [] && n.f(hs[0], ev).1.None?
  }

  lemma HandleFine(n: Plan, s: P.Stream, out: Option<Event>, err: Option<Error>, t: P.Stream)
    requires ProcFine(n, s) && LastHandled(n, s) && ProcAllowed(n, s, P.HandleReturns(out, err))
    requires P.Next(n.c.table, false, s, P.HandleReturns(out, err)) == Some(t)
    ensures ProcFine(n, t)
  {
    assert P.NoErrors(t.calls) && Behaves(n.f, t.calls);
  }

  lemma ProcGoFine(n: Plan, s: P.Stream, t: P.Stream)
    requires ProcFine(n, s) && LastHandled(n, s) && P.GoNext(n.c.table, s) == Some(t)
    ensures ProcFine(n, t)
  {
    assert t.calls == s.calls && t.ctxErr == s.ctxErr;
  }

  lemma ProcStepFine(n: Plan, s: P.Stream, a: P.Action, t: P.Stream)
    requires ProcFine(n, s) && LastHandled(n, s) && ProcAllowed(n, s, a)
    requires P.Next(n.c.table, false, s, a) == Some(t)
    ensures ProcFine(n, t)
  {
    if a.Go? {
      ProcGoFine(n, s, t);
    } else if a.HandleReturns? {
      HandleFine(n, s, a.out, a.err, t);
    } else {
      assert t.calls == s.calls && t.ctxErr == s.ctxErr;
    }
  }

  lemma ProcKeepsGood(n: Plan, x: Pipe, a: P.Action, y: Pipe)
    requires Succeeds(n) && Good(n, x) && ProcAllowed(n, x.proc, a) && ProcNext(n.c, x, a) == Some(y)
    ensures Good(n, y)
  {
    ProcKeepsInv(n.c, x, a, y);
    ProcMoves(n.c, x, a, y);
    if x.proc.received != [] {
      var k := |x.proc.received| - 1;
      ReceivedIsHandled(n, x, k);
      assert Handled(n, k);
    }
    ProcStepFine(n, x.proc, a, y.proc);
  }

  lemma {:induction false} AllNoneCount(results: seq<Option<Error>>)
    requires AllNone(results)
    ensures C.CountOk(results) == |results|
  {
    if results != [] {
      AllNoneCount(results[..|results| - 1]);
    }
  }

  /** At the end of the input everything called was completed and counted, so the answer is the verdict. */
  lemma EofCounts(c: C.Config, s: C.Stream)
    requires C.Inv(c, s) && ConsFine(s) && s.pc.Dispatch?
    ensures s.consumed == |s.called| && s.failed == 0 && s.summaries == []
    ensures s.filtered == |s.dispatched| - |s.called|
    ensures s.callback.NoCallback? && s.outcome == [] && s.receiver.NotReceiving?
  {
    assert C.Receives(s) && C.Calls(c, s) && C.Counts(s);
    assert s.finished == s.settled;
    AllNoneCount(s.settled);
  }

  lemma EofFine(c: C.Config, s: C.Stream, a: C.Action, t: C.Stream)
    requires C.Inv(c, s) && ConsFine(s) && s.pc.Dispatch? && s.pending == [C.RecvEof] && ConsAllowed(a)
    requires (a.Go? || a.Reply?) && C.Next(c, false, s, a) == Some(t)
    ensures ConsFine(t)
  {
    EofCounts(c, s);
  }

  lemma EventFine(c: C.Config, s: C.Stream, t: C.Stream)
    requires C.Inv(c, s) && ConsFine(s) && c.hasHandler && s.pc.Dispatch? && s.pending != [C.RecvEof]
    requires C.Next(c, false, s, C.Go) == Some(t)
    ensures ConsFine(t)
  {
    assert C.Receives(s);
    assert s.pending == [s.pending[0]];
  }

  lemma SettleFine(c: C.Config, s: C.Stream, t: C.Stream)
    requires C.Inv(c, s) && ConsFine(s) && s.pc.Settle? && C.Next(c, false, s, C.Go) == Some(t)
    ensures ConsFine(t)
  {
    assert C.Calls(c, s);
    assert s.outcome[0] in s.finished;
  }

  lemma AnswerFine(c: C.Config, s: C.Stream, a: C.Action, t: C.Stream)
    requires C.Inv(c, s) && ConsFine(s) && ConsAllowed(a) && C.Next(c, false, s, a) == Some(t)
    requires a.CallReturns? || (a.RecvReturns? && Clean(a.r)) || a.PickResult?
    ensures ConsFine(t)
  {
    assert C.Receives(s);
  }

  lemma ConsStepFine(c: C.Config, s: C.Stream, a: C.Action, t: C.Stream)
    requires C.Inv(c, s) && ConsFine(s) && c.hasHandler && ConsAllowed(a) && C.Next(c, false, s, a) == Some(t)
    requires a.RecvReturns? ==> Clean(a.r)
    ensures ConsFine(t)
  {
    match a
    case Go =>
      if s.pc.Dispatch? {
        if s.pending == [C.RecvEof] { EofFine(c, s, a, t); } else { EventFine(c, s, t); }
      } else if s.pc.Settle? {
        SettleFine(c, s, t);
      }
    case Reply(_) => EofFine(c, s, a, t);
    case CallReturns(_) => AnswerFine(c, s, a, t);
    case RecvReturns(_) => AnswerFine(c, s, a, t);
    case PickResult => AnswerFine(c, s, a, t);
    case _ =>
  }

  lemma ConsKeepsGood(n: Plan, x: Pipe, a: C.Action, y: Pipe)
    requires Succeeds(n) && Good(n, x) && ConsAllowed(a) && ConsNext(n.c, x, a) == Some(y)
    ensures Good(n, y)
  {
    ConsKeepsInv(n.c, x, a, y);
    ConsMoves(n.c, x, a, y);
    ConsStepFine(n.c.consumer, x.cons, a, y.cons);
  }

  lemma StepKeepsGood(n: Plan, x: Pipe, a: Action, y: Pipe)
    requires Succeeds(n) && Good(n, x) && Allowed(n, x, a) && Next(n.c, x, a) == Some(y)
    ensures Good(n, y)
  {
    match a
    case Src(s) => SrcKeepsGood(n, x, s, y);
    case Proc(p) => ProcKeepsGood(n, x, p, y);
    case Cons(k) => ConsKeepsGood(n, x, k, y);
    case _ => StepKeepsInv(n.c, x, a);
  }

  // ----- termination

  function ProcRank(pc: P.Pc): (r: int)
  {
    match pc
    case Looking => 8 case Handling => 7 case Recording => 6 case CountProcessed => 5
    case CountSuccess => 4 case Sending => 3 case Top => 2 case Receiving => 1
    case _ => 0
  }

  function ProcLeft(n: Plan, s: P.Stream): (r: int)
  {
    10 * (|n.p.events| - |s.received|) + ProcRank(s.pc)
  }

  function ConsRank(s: C.Stream): (r: int)
  {
    match s.pc
    case AwaitRecv => if s.receiver.Received? then 11 else 1
    case GotRecv => 10 case Dispatch => 9
    case AwaitCall => if s.callback.Running? then 8 else 7
    case GotCall => 6 case Settle => 5 case SecondAdd(_) => 4 case Top => 3 case Spawn => 2
    case Returned(_) => 0
  }

  /** One more receive than there are events: the end of the input. */
  function ConsLeft(n: Plan, s: C.Stream): (r: int)
  {
    14 * (|n.p.events| + 1 - |s.received|) + ConsRank(s)
  }

  /** Bounds the steps that remain, over all actors. */
  function Left(n: Plan, x: Pipe): (r: int)
  {
    Sched.Remaining(n.p, x.src) + ProcLeft(n, x.proc) + ConsLeft(n, x.cons)
    + (if x.eof1 then 0 else 1) + (if x.eof2 then 0 else 1)
  }

  lemma ProcUsesUp(n: Plan, s: P.Stream, a: P.Action, t: P.Stream)
    requires ProcFine(n, s) && ProcFine(n, t) && ProcAllowed(n, s, a) && P.Next(n.c.table, false, s, a) == Some(t)
    ensures ProcLeft(n, t) + 1 <= ProcLeft(n, s)
  {
  }

  lemma ConsGoUsesUp(n: Plan, s: C.Stream, t: C.Stream)
    requires C.GoNext(n.c.consumer, false, s) == Some(t)
    ensures ConsLeft(n, t) + 1 <= ConsLeft(n, s)
  {
    if s.pc.Dispatch? {
    } else if s.pc.Settle? {
    } else {
    }
  }

  lemma ConsUsesUp(n: Plan, s: C.Stream, a: C.Action, t: C.Stream)
    requires C.Receives(s) && C.Calls(n.c.consumer, s) && ConsFine(s) && ConsAllowed(a)
    requires C.Next(n.c.consumer, false, s, a) == Some(t)
    ensures ConsLeft(n, t) + 1 <= ConsLeft(n, s)
  {
    if a.Go? {
      ConsGoUsesUp(n, s, t);
    }
  }

  lemma SrcUsesUp(n: Plan, x: Pipe, a: S.Action, y: Pipe)
    requires n.c.source.resultCap > 0 && Sched.Good(n.c.source, n.p, x.src) && Sched.Allowed(n.p, x.src, a)
    requires SrcNext(n.c, x, a) == Some(y)
    ensures Left(n, y) + 1 <= Left(n, x)
  {
    SrcMoves(n.c, x, a, y);
    SourceKept(n, x.src, a, y.src);
  }

  lemma ProcStepUsesUp(n: Plan, x: Pipe, a: P.Action, y: Pipe)
    requires ProcFine(n, x.proc) && ProcFine(n, y.proc) && !x.procStopped && ProcAllowed(n, x.proc, a)
    requires ProcNext(n.c, x, a) == Some(y)
    ensures Left(n, y) + 1 <= Left(n, x)
  {
    ProcMoves(n.c, x, a, y);
    ProcUsesUp(n, x.proc, a, y.proc);
  }

  lemma ConsStepUsesUp(n: Plan, x: Pipe, a: C.Action, y: Pipe)
    requires C.Inv(n.c.consumer, x.cons) && ConsFine(x.cons) && !x.consStopped && ConsAllowed(a)
    requires ConsNext(n.c, x, a) == Some(y)
    ensures Left(n, y) + 1 <= Left(n, x)
  {
    ConsMoves(n.c, x, a, y);
    ConsUsesUp(n, x.cons, a, y.cons);
  }

  lemma StepUsesUp(n: Plan, x: Pipe, a: Action, y: Pipe)
    requires Succeeds(n) && Good(n, x) && Good(n, y) && Allowed(n, x, a) && Next(n.c, x, a) == Some(y)
    ensures Left(n, y) + 1 <= Left(n, x)
  {
    match a
    case Src(s) => SrcUsesUp(n, x, s, y);
    case Proc(p) => ProcStepUsesUp(n, x, p, y);
    case Cons(k) => ConsStepUsesUp(n, x, k, y);
    case _ =>
  }

  lemma EventsBound(evs: seq<Event>, rest: seq<C.Recv>)
    ensures |evs| <= |Events(C.AsRecv(evs) + rest)|
    decreases |rest|
  {
    if rest == [] {
      assert C.AsRecv(evs) + rest == C.AsRecv(evs);
      EventsOfAsRecv(evs);
    } else {
      var k := |rest| - 1;
      EventsBound(evs, rest[..k]);
      assert C.AsRecv(evs) + rest == C.AsRecv(evs) + rest[..k] + [rest[k]];
      EventsAppend(C.AsRecv(evs) + rest[..k], rest[k]);
    }
  }

  lemma {:induction false} OutputsBound(calls: seq<P.Call>)
    ensures |P.Outputs(calls)| <= |calls|
  {
    if calls != [] {
      OutputsBound(calls[..|calls| - 1]);
    }
  }

  lemma ProcBounds(n: Plan, x: Pipe)
    requires Good(n, x)
    ensures |x.proc.sent| <= |x.proc.calls| <= |x.proc.received| <= |n.p.events|
  {
    OutputsBound(x.proc.calls);
    if x.proc.received != [] {
      ReceivedIsHandled(n, x, |x.proc.received| - 1);
    }
  }

  lemma ConsBounds(n: Plan, x: Pipe)
    requires Good(n, x)
    ensures |x.cons.received| <= |n.p.events| + 1
  {
    var s := x.cons;
    ProcBounds(n, x);
    assert C.Receives(s);
    var rest := s.pending + C.Arrived(s);
    assert s.received == C.AsRecv(s.dispatched) + rest && |rest| <= 1;
    EventsBound(s.dispatched, rest);
  }

  lemma SourceLeft(n: Plan, s: S.State)
    requires Sched.OnProgram(n.p, s)
    ensures Sched.Remaining(n.p, s) >= 0
  {
    assert |s.w.produced| <= |n.p.events| && |s.w.queued| <= 1;
  }

  lemma LeftIsNatural(n: Plan, x: Pipe)
    requires Good(n, x)
    ensures Left(n, x) >= 0
  {
    SourceLeft(n, x.src);
    ProcBounds(n, x);
    ConsBounds(n, x);
  }

  // ----- never stuck

  function ProcContinue(n: Plan, x: Pipe): (a: P.Action)
  {
    match x.proc.pc
    case Top => P.PickDefault
    case Receiving => P.RecvReturns(if x.link1 != [] then P.Item(x.link1[0]) else P.Eof)
    case Handling =>
      if x.proc.received == [] then P.Go
      else
        var ev := x.proc.received[|x.proc.received| - 1];
        var hs := Lookup(n.c.table, ev.eventType);
        if hs == [] then P.Go else P.HandleReturns(n.f(hs[0], ev).0, n.f(hs[0], ev).1)
    case Recording => P.Record(0.0)
    case Sending => P.SendReturns(None)
    case _ => P.Go
  }

  function ConsContinue(x: Pipe): (a: C.Action)
  {
    match x.cons.pc
    case AwaitRecv =>
      if x.cons.receiver.Received? then C.PickResult
      else C.RecvReturns(if x.link2 != [] then C.RecvEvent(Some(x.link2[0])) else C.RecvEof)
    case AwaitCall => if x.cons.callback.Finished? then C.PickResult else C.CallReturns(None)
    case Dispatch =>
      if x.cons.pending == [C.RecvEof] && !(x.cons.filtered > 0 && x.cons.consumed + x.cons.failed == 0)
      then C.Reply(None) else C.Go
    case _ => C.Go
  }

  /** An allowed, enabled step while the consumer has not answered: the first of the three that has not ended. */
  function Continue(n: Plan, x: Pipe): (a: Action)
  {
    if !x.src.pc.Done? then Src(Sched.Continue(n.c.source, n.p, x.src))
    else if !x.eof1 then HalfClose1
    else if !x.proc.pc.Returned? then Proc(ProcContinue(n, x))
    else if !x.eof2 then HalfClose2
    else Cons(ConsContinue(x))
  }

  lemma {:induction false} AllGood(es: seq<Option<Event>>)
    requires forall i :: 0 <= i < |es| ==> es[i].Some?
    ensures |Sched.GoodPrefix(es)| == |es|
  {
    if es != [] {
      AllGood(es[1..]);
    }
  }

  lemma InputsAreComplete(n: Plan)
    requires Succeeds(n)
    ensures |Inputs(n)| == |n.p.events|
  {
    forall i: nat | i < |n.p.events|
      ensures n.p.events[i].Some?
    {
      assert Handled(n, i);
    }
    AllGood(n.p.events);
  }

  /** Under these conditions the source ends with OK. */
  lemma SourceEndsOk(n: Plan, x: Pipe)
    requires Succeeds(n) && Good(n, x) && x.src.pc.Done?
    ensures x.src.pc == S.Done(None) && x.src.delivered == Inputs(n)
  {
    InputsAreComplete(n);
  }

  lemma SrcContinues(n: Plan, x: Pipe)
    requires Succeeds(n) && Good(n, x) && !x.src.pc.Done?
    ensures var a := Sched.Continue(n.c.source, n.p, x.src);
            Sched.Allowed(n.p, x.src, a) && SrcNext(n.c, x, a).Some?
  {
    Sched.CanContinue(n.c.source, n.p, x.src);
  }

  /** The last input has a handler, so looking for one and running it are possible. */
  lemma LastInputIsHandled(n: Plan, x: Pipe)
    requires Succeeds(n) && Good(n, x) && (x.proc.pc.Looking? || x.proc.pc.Handling?)
    ensures x.proc.received != [] && Lookup(n.c.table, x.proc.received[|x.proc.received| - 1].eventType) != []
  {
    var s := x.proc;
    assert P.Matched(n.c.table, s);
    ReceivedIsHandled(n, x, |s.received| - 1);
    assert Handled(n, |s.received| - 1);
  }

  lemma HandlerContinues(n: Plan, x: Pipe)
    requires Succeeds(n) && Good(n, x) && (x.proc.pc.Looking? || x.proc.pc.Handling?)
    ensures ProcAllowed(n, x.proc, ProcContinue(n, x)) && ProcNext(n.c, x, ProcContinue(n, x)).Some?
  {
    LastInputIsHandled(n, x);
  }

  lemma ProcContinues(n: Plan, x: Pipe)
    requires Succeeds(n) && Good(n, x) && x.eof1 && !x.proc.pc.Returned?
    ensures ProcAllowed(n, x.proc, ProcContinue(n, x)) && ProcNext(n.c, x, ProcContinue(n, x)).Some?
  {
    if x.proc.pc.Looking? || x.proc.pc.Handling? {
      HandlerContinues(n, x);
    } else {
      assert P.Sends(x.proc);
    }
  }

  lemma ConsContinues(n: Plan, x: Pipe)
    requires Succeeds(n) && Good(n, x) && x.eof2 && !x.cons.pc.Returned?
    ensures ConsAllowed(ConsContinue(x)) && ConsNext(n.c, x, ConsContinue(x)).Some?
  {
    var s := x.cons;
    assert C.Receives(s) && C.Calls(n.c.consumer, s);
  }

  lemma CanContinue(n: Plan, x: Pipe)
    requires Succeeds(n) && Good(n, x) && !x.cons.pc.Returned?
    ensures AllowedStep(n)(x, Continue(n, x)).Some?
  {
    if !x.src.pc.Done? {
      SrcContinues(n, x);
    } else {
      SourceEndsOk(n, x);
      if x.eof1 && !x.proc.pc.Returned? {
        ProcContinues(n, x);
      } else if x.eof1 && x.eof2 {
        ConsContinues(n, x);
      }
    }
  }

  // ----- the end

  /** When the consumer has answered, everything upstream is over. */
  lemma AnswerIsLast(n: Plan, x: Pipe)
    requires Succeeds(n) && Good(n, x) && x.cons.pc.Returned?
    ensures x.src.pc == S.Done(None) && x.proc.pc == P.Returned(P.Ok)
    ensures x.src.delivered == x.proc.received == Inputs(n) && Events(x.cons.received) == x.proc.sent
  {
    assert C.Receives(x.cons);
    assert x.cons.received[|x.cons.dispatched|] == C.RecvEof;
    AckReachesBack(x);
    SourceEndsOk(n, x);
  }

  lemma DispatchedIsImage(n: Plan, x: Pipe)
    requires Succeeds(n) && Good(n, x) && x.cons.pc.Returned?
    ensures x.cons.dispatched == Image(n.c.table, n.f, Inputs(n))
  {
    var s := x.cons;
    AnswerIsLast(n, x);
    FinishedProcessor(n.c.table, x.proc);
    assert P.Matched(n.c.table, x.proc);
    OutputsAreTheImage(n.c.table, n.f, x.proc.received, x.proc.calls);
    assert C.Receives(s);
    assert s.received == C.AsRecv(s.dispatched) + [C.RecvEof];
    EventsAppend(C.AsRecv(s.dispatched), C.RecvEof);
    EventsOfAsRecv(s.dispatched);
  }

  lemma AnswerIsOutcome(n: Plan, x: Pipe)
    requires Succeeds(n) && Good(n, x) && x.cons.pc.Returned?
    ensures x.cons.pc.o == Outcome(n) && x.cons.called == Accepted(n)
    ensures |x.cons.finished| == |x.cons.called| && AllNone(x.cons.finished)
  {
    DispatchedIsImage(n, x);
    assert C.Calls(n.c.consumer, x.cons);
    assert x.cons.pc.o == Verdict(x.cons);
  }

  lemma InitialGood(n: Plan)
    requires Succeeds(n)
    ensures Good(n, Initial()) && Left(n, Initial()) == 34 * |n.p.events| + 39
  {
    InitialInv(n.c);
    Sched.InitialGood(n.c.source, n.p);
  }

  lemma AllowedStepIsGood(n: Plan, x: Pipe, a: Action, y: Pipe)
    requires Succeeds(n) && Good(n, x) && AllowedStep(n)(x, a) == Some(y)
    ensures Good(n, y) && Left(n, y) + 1 <= Left(n, x)
  {
    StepKeepsGood(n, x, a, y);
    StepUsesUp(n, x, a, y);
  }

  lemma AllowedRunIsGood(n: Plan, acts: seq<Action>)
    requires Succeeds(n) && Runs.Run(AllowedStep(n), Initial(), acts).Some?
    ensures var y := Runs.Run(AllowedStep(n), Initial(), acts).value;
            Good(n, y) && Left(n, y) + |acts| <= 34 * |n.p.events| + 39
  {
    var next, good, left := AllowedStep(n), x => Good(n, x), x => Left(n, x);
    forall x, a | good(x) && next(x, a).Some?
      ensures good(next(x, a).value) && left(next(x, a).value) < left(x)
    {
      AllowedStepIsGood(n, x, a, next(x, a).value);
    }
    InitialGood(n);
    Runs.Bounded(next, good, left, Initial(), acts);
  }

  /** With a producer that follows a succeeding program, handlers and callbacks that answer without error, and no
      stop, cancellation or transport failure, every interleaving of the three calls is finite and can go on until
      the consumer has answered; then source and processor have ended OK, the callbacks completed once each and in
      order on exactly the accepted image of the program, and the answer acknowledges all of them. */
  lemma EveryScheduleDrains(n: Plan, acts: seq<Action>)
    requires Succeeds(n) && Runs.Run(AllowedStep(n), Initial(), acts).Some?
    ensures var x := Runs.Run(AllowedStep(n), Initial(), acts).value;
            && |acts| <= 34 * |n.p.events| + 39
            && (!x.cons.pc.Returned? ==> AllowedStep(n)(x, Continue(n, x)).Some?)
            && (x.cons.pc.Returned? ==>
                  && x.src.pc == S.Done(None) && x.proc.pc == P.Returned(P.Ok)
                  && x.src.delivered == Inputs(n) && |Inputs(n)| == |n.p.events|
                  && x.cons.pc.o == Outcome(n) && x.cons.called == Accepted(n)
                  && |x.cons.finished| == |x.cons.called| && AllNone(x.cons.finished))
  {
    AllowedRunIsGood(n, acts);
    var x := Runs.Run(AllowedStep(n), Initial(), acts).value;
    LeftIsNatural(n, x);
    InputsAreComplete(n);
    if x.cons.pc.Returned? {
      AnswerIsLast(n, x);
      AnswerIsOutcome(n, x);
    } else {
      CanContinue(n, x);
    }
  }

  /** The same answer, event by event: every programmed event was delivered, the callbacks ran on what the first
      registered handlers made of exactly those whose result passes the consumer's type filter, and the answer
      acknowledges each of them, or refuses when something was made and nothing passed. */
  lemma ScheduledAnswer(n: Plan, hs: seq<Handler>, acts: seq<Action>) returns (at: seq<nat>)
    requires Succeeds(n) && Holds(n.c.table, hs) && Runs.Run(AllowedStep(n), Initial(), acts).Some?
    requires Runs.Run(AllowedStep(n), Initial(), acts).value.cons.pc.Returned?
    ensures var x := Runs.Run(AllowedStep(n), Initial(), acts).value;
            && n.p.events == Somes(x.src.delivered)
            && Collects(x.src.delivered, Reaching(n.c.consumer, hs, n.f), x.cons.called, at)
            && (forall k :: 0 <= k < |x.cons.finished| ==> x.cons.finished[k] == None)
            && x.cons.pc.o ==
               if at == [] && exists i :: 0 <= i < |x.src.delivered| && Made(hs, n.f, x.src.delivered[i]).Some?
               then C.Refused(Status(FailedPrecondition, "no events matched consumer input types"))
               else C.Acked(C.Response(|at|, 0, []))
  {
    EveryScheduleDrains(n, acts);
    var x := Runs.Run(AllowedStep(n), Initial(), acts).value;
    Sched.GoodPrefixEnds(n.p.events);
    at := AcceptedImageAt(n.c.consumer, n.c.table, hs, n.f, x.src.delivered);
    ImageIsEmpty(n.c.table, hs, n.f, x.src.delivered);
  }
}
