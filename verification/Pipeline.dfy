/** Source, processor and consumer joined by lossless FIFO links that forward the half-close only after
    an OK end: an acknowledgement from the consumer proves the whole drain (docs/bounded-drain-remediation.md). */
module Pipeline {
  import opened Basics
  import opened Errors
  import opened HandlerRegistry
  import S = SourceStream
  import P = Processor
  import C = ConsumerStream
  import Runs
  import opened Selections

  datatype Config = Config(source: S.Config, table: Table, consumer: C.Config)

  /** The three calls, the events in flight on the two links, and whether the links were half-closed. */
  datatype Pipe = Pipe(
    src: S.State, link1: seq<Event>, eof1: bool,
    proc: P.Stream, procStopped: bool, link2: seq<Event>, eof2: bool,
    cons: C.Stream, consStopped: bool)

  datatype Action = Src(s: S.Action) | Proc(p: P.Action) | Cons(c: C.Action)
                  | HalfClose1 | HalfClose2 | StopProc | StopCons

  function Initial(): (x: Pipe)
  {
    Pipe(S.INITIAL, [], false, P.INITIAL, false, [], false, C.INITIAL, false)
  }

  /** The link to the processor can produce this answer of Recv now. */
  predicate Offers1(x: Pipe, i: P.Input)
  {
    match i
    case Item(ev) => x.link1 != [] && x.link1[0] == ev
    case Eof => x.link1 == [] && x.eof1
    case Broken(_) => true
  }

  predicate Offers2(x: Pipe, r: C.Recv)
  {
    match r
    case RecvEvent(Some(ev)) => x.link2 != [] && x.link2[0] == ev
    case RecvEvent(None) => false
    case RecvEof => x.link2 == [] && x.eof2
    case RecvErr(_) => true
  }

  function SrcNext(c: Config, x: Pipe, a: S.Action): (r: Option<Pipe>)
  {
    var t := S.Next(c.source, x.src, a);
    if t.None? then None
    else if a == S.Handler(S.SendReturns(None)) && t.value.delivered != []
    then Some(x.(src := t.value, link1 := x.link1 + [t.value.delivered[|t.value.delivered| - 1]]))
    else Some(x.(src := t.value))
  }

  function ProcNext(c: Config, x: Pipe, a: P.Action): (r: Option<Pipe>)
  {
    var t := P.Next(c.table, x.procStopped, x.proc, a);
    if t.None? || (a.RecvReturns? && !Offers1(x, a.i)) then None
    else if a.RecvReturns? && a.i.Item? then Some(x.(proc := t.value, link1 := x.link1[1..]))
    else if a == P.SendReturns(None) && t.value.sent != []
    then Some(x.(proc := t.value, link2 := x.link2 + [t.value.sent[|t.value.sent| - 1]]))
    else Some(x.(proc := t.value))
  }

  function ConsNext(c: Config, x: Pipe, a: C.Action): (r: Option<Pipe>)
  {
    var t := C.Next(c.consumer, x.consStopped, x.cons, a);
    if t.None? || (a.RecvReturns? && !Offers2(x, a.r)) then None
    else if a.RecvReturns? && a.r.RecvEvent? then Some(x.(cons := t.value, link2 := x.link2[1..]))
    else Some(x.(cons := t.value))
  }

  function Next(c: Config, x: Pipe, a: Action): (r: Option<Pipe>)
  {
    match a
    case Src(s) => SrcNext(c, x, s)
    case Proc(p) => ProcNext(c, x, p)
    case Cons(k) => ConsNext(c, x, k)
    case HalfClose1 => if x.src.pc == S.Done(None) then Some(x.(eof1 := true)) else None
    case HalfClose2 => if x.proc.pc == P.Returned(P.Ok) then Some(x.(eof2 := true)) else None
    case StopProc => Some(x.(procStopped := true))
    case StopCons => Some(x.(consStopped := true))
  }

  function Step(c: Config): (f: (Pipe, Action) -> Option<Pipe>)
  {
    (x, a) => Next(c, x, a)
  }

  function Run(c: Config, acts: seq<Action>): (r: Option<Pipe>)
  {
    Runs.Run(Step(c), Initial(), acts)
  }

  // ----- what every step keeps

  function Events(rs: seq<C.Recv>): (r: seq<Event>)
  {
    if rs == [] then []
    else
      var last := rs[|rs| - 1];
      Events(rs[..|rs| - 1]) + if last.RecvEvent? && last.ev.Some? then [last.ev.value] else []
  }

  lemma EventsAppend(rs: seq<C.Recv>, r: C.Recv)
    ensures Events(rs + [r]) == Events(rs) + if r.RecvEvent? && r.ev.Some? then [r.ev.value] else []
  {
    assert (rs + [r])[..|rs|] == rs;
  }

  lemma {:induction false} EventsOfAsRecv(evs: seq<Event>)
    ensures Events(C.AsRecv(evs)) == evs
  {
    if evs != [] {
      var n := |evs| - 1;
      EventsOfAsRecv(evs[..n]);
      C.AsRecvAppend(evs[..n], evs[n]);
      assert evs[..n] + [evs[n]] == evs;
      EventsAppend(C.AsRecv(evs[..n]), C.RecvEvent(Some(evs[n])));
    }
  }

  ghost predicate Link1(x: Pipe)
  {
    && x.src.delivered == x.proc.received + x.link1
    && (x.eof1 ==> x.src.pc == S.Done(None))
    && (x.proc.pc == P.Returned(P.Ok) ==> x.link1 == [] && x.eof1)
  }

  ghost predicate Link2(x: Pipe)
  {
    && x.proc.sent == Events(x.cons.received) + x.link2
    && (x.eof2 ==> x.proc.pc == P.Returned(P.Ok))
    && (C.RecvEof in x.cons.received ==> x.link2 == [] && x.eof2)
  }

  ghost predicate Inv(c: Config, x: Pipe)
  {
    && S.Inv(c.source, x.src) && P.Inv(c.table, x.proc) && C.Inv(c.consumer, x.cons)
    && Link1(x) && Link2(x)
  }

  lemma SourceFrame(c: S.Config, s: S.State, a: S.Action)
    requires S.Next(c, s, a).Some?
    ensures var t := S.Next(c, s, a).value;
            && (s.pc.Done? ==> t.pc == s.pc && t.delivered == s.delivered)
            && (if a == S.Handler(S.SendReturns(None))
                then t.delivered != [] && t.delivered == s.delivered + [t.delivered[|t.delivered| - 1]]
                else t.delivered == s.delivered)
  {
    match a
    case Env(_) =>
    case Handler(Go) =>
    case Handler(_) =>
  }

  lemma SrcMoves(c: Config, x: Pipe, a: S.Action, y: Pipe)
    requires SrcNext(c, x, a) == Some(y)
    ensures S.Next(c.source, x.src, a) == Some(y.src)
    ensures y == x.(src := y.src, link1 := y.link1)
  {
  }

  lemma SrcKeepsLinks(c: Config, x: Pipe, a: S.Action, y: Pipe)
    requires Link1(x) && Link2(x) && SrcNext(c, x, a) == Some(y)
    ensures Link1(y) && Link2(y)
  {
    SourceFrame(c.source, x.src, a);
    SrcMoves(c, x, a, y);
  }

  lemma SourceInvKept(c: S.Config, s: S.State, a: S.Action, t: S.State)
    requires S.Inv(c, s) && S.Next(c, s, a) == Some(t)
    ensures S.Inv(c, t)
  {
    S.StepKeepsInv(c, s, a);
  }

  lemma SrcKeepsInv(c: Config, x: Pipe, a: S.Action, y: Pipe)
    requires Inv(c, x) && SrcNext(c, x, a) == Some(y)
    ensures Inv(c, y)
  {
    SrcKeepsLinks(c, x, a, y);
    SrcMoves(c, x, a, y);
    SourceInvKept(c.source, x.src, a, y.src);
  }

  lemma ProcessorFrame(table: Table, stopped: bool, s: P.Stream, a: P.Action)
    requires P.Next(table, stopped, s, a).Some?
    ensures var t := P.Next(table, stopped, s, a).value;
            && (s.pc.Returned? ==> t.pc == s.pc && t.sent == s.sent && t.received == s.received)
            && (t.received == if a.RecvReturns? && a.i.Item? then s.received + [a.i.ev] else s.received)
            && (t.pc == P.Returned(P.Ok) && s.pc != t.pc ==> a == P.RecvReturns(P.Eof))
            && (if a == P.SendReturns(None)
                then t.sent != [] && t.sent == s.sent + [t.sent[|t.sent| - 1]]
                else t.sent == s.sent)
  {
    match a
    case Go =>
    case _ =>
  }

  lemma ProcMoves(c: Config, x: Pipe, a: P.Action, y: Pipe)
    requires ProcNext(c, x, a) == Some(y)
    ensures P.Next(c.table, x.procStopped, x.proc, a) == Some(y.proc)
    ensures y == x.(proc := y.proc, link1 := y.link1, link2 := y.link2)
    ensures a.RecvReturns? ==> Offers1(x, a.i)
    ensures y.link1 == if a.RecvReturns? && a.i.Item? then x.link1[1..] else x.link1
    ensures y.link2 == if a == P.SendReturns(None) && y.proc.sent != []
                       then x.link2 + [y.proc.sent[|y.proc.sent| - 1]] else x.link2
  {
  }

  lemma ProcKeepsLinks(c: Config, x: Pipe, a: P.Action, y: Pipe)
    requires Link1(x) && Link2(x) && ProcNext(c, x, a) == Some(y)
    ensures Link1(y) && Link2(y)
  {
    ProcMoves(c, x, a, y);
    ProcessorFrame(c.table, x.procStopped, x.proc, a);
    assert Link1(y) by {
      assert a.RecvReturns? && a.i.Item? ==> x.link1 == [x.link1[0]] + x.link1[1..];
    }
    assert Link2(y);
  }

  lemma ProcessorKept(table: Table, stopped: bool, s: P.Stream, a: P.Action, t: P.Stream)
    requires P.Inv(table, s) && P.Next(table, stopped, s, a) == Some(t)
    ensures P.Inv(table, t)
  {
    P.StepKeepsInv(table, stopped, s, a);
  }

  lemma ConsumerKept(c: C.Config, stopped: bool, s: C.Stream, a: C.Action, t: C.Stream)
    requires C.Inv(c, s) && C.Next(c, stopped, s, a) == Some(t)
    ensures C.Inv(c, t)
  {
    C.StepKeepsInv(c, stopped, s, a);
  }

  lemma ProcKeepsInv(c: Config, x: Pipe, a: P.Action, y: Pipe)
    requires Inv(c, x) && ProcNext(c, x, a) == Some(y)
    ensures Inv(c, y)
  {
    ProcKeepsLinks(c, x, a, y);
    ProcMoves(c, x, a, y);
    ProcessorKept(c.table, x.procStopped, x.proc, a, y.proc);
  }

  lemma ConsumerFrame(c: C.Config, stopped: bool, s: C.Stream, a: C.Action)
    requires C.Next(c, stopped, s, a).Some?
    ensures C.Next(c, stopped, s, a).value.received == s.received + if a.RecvReturns? then [a.r] else []
  {
    match a
    case Go =>
    case _ =>
  }

  /** The link delivers its first event, or its half-close once it is empty. */
  lemma DeliveryKeepsLink2(x: Pipe, y: Pipe, r: C.Recv)
    requires Link2(x) && Offers2(x, r)
    requires y.proc == x.proc && y.eof2 == x.eof2 && y.cons.received == x.cons.received + [r]
    requires y.link2 == if r.RecvEvent? then x.link2[1..] else x.link2
    ensures Link2(y)
  {
    EventsAppend(x.cons.received, r);
    assert r.RecvEvent? ==> x.link2 == [x.link2[0]] + x.link2[1..];
  }

  lemma ConsMoves(c: Config, x: Pipe, a: C.Action, y: Pipe)
    requires ConsNext(c, x, a) == Some(y)
    ensures C.Next(c.consumer, x.consStopped, x.cons, a) == Some(y.cons)
    ensures y == x.(cons := y.cons, link2 := y.link2)
    ensures a.RecvReturns? ==> Offers2(x, a.r)
    ensures y.link2 == if a.RecvReturns? && a.r.RecvEvent? then x.link2[1..] else x.link2
  {
  }

  lemma ConsKeepsLinks(c: Config, x: Pipe, a: C.Action, y: Pipe)
    requires Link1(x) && Link2(x) && ConsNext(c, x, a) == Some(y)
    ensures Link1(y) && Link2(y)
  {
    ConsMoves(c, x, a, y);
    ConsumerFrame(c.consumer, x.consStopped, x.cons, a);
    if a.RecvReturns? {
      DeliveryKeepsLink2(x, y, a.r);
    } else {
      assert y.cons.received == x.cons.received;
    }
  }

  lemma ConsKeepsInv(c: Config, x: Pipe, a: C.Action, y: Pipe)
    requires Inv(c, x) && ConsNext(c, x, a) == Some(y)
    ensures Inv(c, y)
  {
    ConsKeepsLinks(c, x, a, y);
    ConsMoves(c, x, a, y);
    ConsumerKept(c.consumer, x.consStopped, x.cons, a, y.cons);
  }

  lemma StepKeepsInv(c: Config, x: Pipe, a: Action)
    requires Inv(c, x) && Next(c, x, a).Some?
    ensures Inv(c, Next(c, x, a).value)
  {
    match a
    case Src(s) => SrcKeepsInv(c, x, s, Next(c, x, a).value);
    case Proc(p) => ProcKeepsInv(c, x, p, Next(c, x, a).value);
    case Cons(k) => ConsKeepsInv(c, x, k, Next(c, x, a).value);
    case _ =>
  }

  lemma InitialInv(c: Config)
    ensures Inv(c, Initial())
  {
    assert S.Inv(c.source, S.INITIAL);
    assert P.Inv(c.table, P.INITIAL);
    assert C.Accepted(c.consumer, []) == [];
    assert C.Inv(c.consumer, C.INITIAL);
  }

  lemma EveryRunKeepsInv(c: Config, acts: seq<Action>)
    requires Run(c, acts).Some?
    ensures Inv(c, Run(c, acts).value)
  {
    var inv := x => Inv(c, x);
    var next := Step(c);
    forall x, a | inv(x) && next(x, a).Some?
      ensures inv(next(x, a).value)
    {
      StepKeepsInv(c, x, a);
    }
    InitialInv(c);
    Runs.Invariant(next, inv, Initial(), acts);
  }

  // ----- end to end

  lemma {:induction false} AllOk(results: seq<Option<Error>>)
    requires C.CountOk(results) == |results|
    ensures forall i :: 0 <= i < |results| ==> results[i].None?
  {
    if results != [] {
      var n := |results| - 1;
      CountOkBound(results[..n]);
      AllOk(results[..n]);
      assert forall i :: 0 <= i < n ==> results[..n][i] == results[i];
    }
  }

  lemma {:induction false} CountOkBound(results: seq<Option<Error>>)
    ensures C.CountOk(results) <= |results|
  {
    if results != [] {
      CountOkBound(results[..|results| - 1]);
    }
  }

  /** What an acknowledgement without failures says about the consumer alone. */
  lemma AcknowledgedConsumer(c: C.Config, s: C.Stream)
    requires C.Inv(c, s) && s.pc.Returned? && s.pc.o.Acked? && s.pc.o.r.failed == 0
    ensures C.RecvEof in s.received && Events(s.received) == s.dispatched
    ensures s.called == C.Accepted(c, s.dispatched)
    ensures |s.finished| == |s.called| == s.pc.o.r.consumed
    ensures forall k :: 0 <= k < |s.finished| ==> s.finished[k].None?
  {
    C.AckMeansDrained(c, s);
    assert s.received[|s.dispatched|] == C.RecvEof;
    EventsAppend(C.AsRecv(s.dispatched), C.RecvEof);
    EventsOfAsRecv(s.dispatched);
    C.FoldCounts(c, s.dispatched, s.settled);
    AllOk(s.settled);
  }

  lemma FinishedSource(c: S.Config, s: S.State)
    requires S.Inv(c, s) && s.pc == S.Done(None)
    ensures s.w.produced == Somes(s.delivered)
  {
  }

  lemma FinishedProcessor(table: Table, s: P.Stream)
    requires P.Inv(table, s) && s.pc == P.Returned(P.Ok)
    ensures |s.calls| == |s.received| && P.NoErrors(s.calls) && s.sent == P.Outputs(s.calls)
    ensures forall k :: 0 <= k < |s.calls| ==> s.calls[k].ev == s.received[k]
  {
  }

  lemma AckReachesBack(x: Pipe)
    requires Link1(x) && Link2(x) && C.RecvEof in x.cons.received
    ensures x.src.pc == S.Done(None) && x.proc.pc == P.Returned(P.Ok)
    ensures x.src.delivered == x.proc.received && x.proc.sent == Events(x.cons.received)
  {
  }

  /** In every run, whatever the interleaving: when the consumer acknowledges with zero failures, the
      source and the processor have both ended OK, every event the source's producer ever produced was
      handled without error, and the callbacks completed, once each and in order, on exactly the
      accepted outputs of those handlers. */
  lemma AcknowledgedRunIsDrained(c: Config, acts: seq<Action>)
    requires Run(c, acts).Some?
    requires var o := Run(c, acts).value.cons.pc; o.Returned? && o.o.Acked? && o.o.r.failed == 0
    ensures var x := Run(c, acts).value;
            && x.src.pc == S.Done(None) && x.proc.pc == P.Returned(P.Ok)
            && x.src.w.produced == Somes(x.proc.received)
            && |x.proc.calls| == |x.proc.received| && P.NoErrors(x.proc.calls)
            && (forall k :: 0 <= k < |x.proc.calls| ==> x.proc.calls[k].ev == x.proc.received[k])
            && x.cons.called == C.Accepted(c.consumer, P.Outputs(x.proc.calls))
            && |x.cons.finished| == |x.cons.called| == x.cons.pc.o.r.consumed
            && (forall k :: 0 <= k < |x.cons.finished| ==> x.cons.finished[k].None?)
  {
    EveryRunKeepsInv(c, acts);
    var x := Run(c, acts).value;
    AcknowledgedConsumer(c.consumer, x.cons);
    AckReachesBack(x);
    FinishedSource(c.source, x.src);
    FinishedProcessor(c.table, x.proc);
  }

  /** What a handler answers, when it is a function of the event. */
  type Behaviour = (Handler, Event) -> (Option<Event>, Option<Error>)

  /** The events a processor with these handlers makes of its inputs. */
  function Image(table: Table, f: Behaviour, evs: seq<Event>): (r: seq<Event>)
  {
    if evs == [] then []
    else
      var ev := evs[|evs| - 1];
      var hs := Lookup(table, ev.eventType);
      Image(table, f, evs[..|evs| - 1])
      + if hs != [] && f(hs[0], ev).1.None? && f(hs[0], ev).0.Some? then [f(hs[0], ev).0.value] else []
  }

  ghost predicate Behaves(f: Behaviour, calls: seq<P.Call>)
  {
    forall k :: 0 <= k < |calls| ==> (calls[k].out, calls[k].err) == f(calls[k].h, calls[k].ev)
  }

  lemma {:induction false} OutputsAreTheImage(table: Table, f: Behaviour, evs: seq<Event>, calls: seq<P.Call>)
    requires Behaves(f, calls) && |calls| == |evs|
    requires forall k :: 0 <= k < |calls| ==>
               calls[k].ev == evs[k] && Lookup(table, evs[k].eventType) != []
               && calls[k].h == Lookup(table, evs[k].eventType)[0]
    ensures P.Outputs(calls) == Image(table, f, evs)
  {
    if calls != [] {
      var n := |calls| - 1;
      assert forall k :: 0 <= k < n ==> calls[..n][k] == calls[k] && evs[..n][k] == evs[k];
      OutputsAreTheImage(table, f, evs[..n], calls[..n]);
      assert (calls[n].out, calls[n].err) == f(calls[n].h, calls[n].ev);
    }
  }

  /** With handlers that are functions of the event, the callbacks completed on exactly the accepted
      image of the produced sequence. */
  lemma AcknowledgedRunConsumesTheImage(c: Config, f: Behaviour, acts: seq<Action>)
    requires Run(c, acts).Some? && Behaves(f, Run(c, acts).value.proc.calls)
    requires var o := Run(c, acts).value.cons.pc; o.Returned? && o.o.Acked? && o.o.r.failed == 0
    ensures var x := Run(c, acts).value;
            && x.src.w.produced == Somes(x.src.delivered)
            && x.cons.called == C.Accepted(c.consumer, Image(c.table, f, x.src.delivered))
  {
    EveryRunKeepsInv(c, acts);
    AcknowledgedRunIsDrained(c, acts);
    var x := Run(c, acts).value;
    AcknowledgedConsumer(c.consumer, x.cons);
    assert P.Matched(c.table, x.proc);
    AckReachesBack(x);
    OutputsAreTheImage(c.table, f, x.proc.received, x.proc.calls);
  }

  // ----- the same, event by event

  /** What the first registered handler that lists the event's type makes of it; None if there is no such handler, it
      fails or it returns nothing. */
  ghost function Made(hs: seq<Handler>, f: Behaviour, ev: Event): (out: Option<Event>)
  {
    if j: int :| FirstFor(hs, ev.eventType, j) then
      if f(hs[j], ev).1.None? then f(hs[j], ev).0 else None
    else None
  }

  /** What reaches the callback of one event: what is made of it, if the consumer's input types let it through. */
  ghost function Reaching(c: C.Config, hs: seq<Handler>, f: Behaviour): (g: Event -> Option<Event>)
  {
    (ev: Event) =>
      var out := Made(hs, f, ev);
      if out.Some? && (c.types == {} || out.value.eventType in c.types) then out else None
  }

  lemma FirstIsUnique(hs: seq<Handler>, t: string, i: int, j: int)
    requires FirstFor(hs, t, i) && FirstFor(hs, t, j)
    ensures i == j
  {
  }

  /** What the processor makes of one event. */
  function Answer(table: Table, f: Behaviour, ev: Event): (out: Option<Event>)
  {
    var hs := Lookup(table, ev.eventType);
    if hs != [] && f(hs[0], ev).1.None? then f(hs[0], ev).0 else None
  }

  lemma AnswerIsMade(table: Table, hs: seq<Handler>, f: Behaviour, ev: Event)
    requires Holds(table, hs)
    ensures Answer(table, f, ev) == Made(hs, f, ev)
  {
    var t := ev.eventType;
    FirstRegisteredWins(hs, t);
    assert Lookup(table, t) == Registered(hs, t);
    if j: int :| FirstFor(hs, t, j) {
      assert Registered(hs, t) != [];
      var i: int :| FirstFor(hs, t, i) && Registered(hs, t)[0] == hs[i];
      forall k: int | FirstFor(hs, t, k)
        ensures k == i
      {
        FirstIsUnique(hs, t, i, k);
      }
    }
  }

  lemma ImageOfOne(table: Table, f: Behaviour, evs: seq<Event>, ev: Event)
    ensures Image(table, f, evs + [ev])
            == Image(table, f, evs) + match Answer(table, f, ev) case Some(out) => [out] case None => []
  {
    assert (evs + [ev])[..|evs|] == evs;
  }

  /** What the type filter lets through of one more event, if there is one. */
  lemma AcceptedMore(c: C.Config, front: seq<Event>, out: Option<Event>)
    ensures C.Accepted(c, front + match out case Some(ev) => [ev] case None => []) ==
            if out.Some? && (c.types == {} || out.value.eventType in c.types) then C.Accepted(c, front) + [out.value]
            else C.Accepted(c, front)
  {
    match out
    case Some(ev) =>
      C.AcceptedAppend(c, front, ev);
      assert C.Accepted(c, front) + [] == C.Accepted(c, front);
    case None =>
      assert front + [] == front;
  }

  lemma AcceptedImageOfOne(c: C.Config, table: Table, hs: seq<Handler>, f: Behaviour, evs: seq<Event>, ev: Event)
    requires Holds(table, hs)
    ensures var called := C.Accepted(c, Image(table, f, evs));
            C.Accepted(c, Image(table, f, evs + [ev]))
            == if Reaching(c, hs, f)(ev).Some? then called + [Reaching(c, hs, f)(ev).value] else called
  {
    ImageOfOne(table, f, evs, ev);
    AnswerIsMade(table, hs, f, ev);
    AcceptedMore(c, Image(table, f, evs), Answer(table, f, ev));
  }

  lemma {:induction false} AcceptedImageAt(c: C.Config, table: Table, hs: seq<Handler>, f: Behaviour, evs: seq<Event>)
    returns (at: seq<nat>)
    requires Holds(table, hs)
    ensures Collects(evs, Reaching(c, hs, f), C.Accepted(c, Image(table, f, evs)), at)
  {
    if evs == [] {
      at := [];
    } else {
      var n := |evs| - 1;
      at := AcceptedImageAt(c, table, hs, f, evs[..n]);
      assert evs[..n] + [evs[n]] == evs;
      AcceptedImageOfOne(c, table, hs, f, evs[..n], evs[n]);
      CollectsNext(evs[..n], Reaching(c, hs, f), C.Accepted(c, Image(table, f, evs[..n])), at, evs[n]);
      at := if Reaching(c, hs, f)(evs[n]).Some? then at + [n] else at;
    }
  }

  lemma {:induction false} ImageIsEmpty(table: Table, hs: seq<Handler>, f: Behaviour, evs: seq<Event>)
    requires Holds(table, hs)
    ensures Image(table, f, evs) == [] <==> forall i :: 0 <= i < |evs| ==> Made(hs, f, evs[i]).None?
  {
    if evs != [] {
      var n := |evs| - 1;
      ImageIsEmpty(table, hs, f, evs[..n]);
      assert evs[..n] + [evs[n]] == evs;
      ImageOfOne(table, f, evs[..n], evs[n]);
      AnswerIsMade(table, hs, f, evs[n]);
      assert forall i :: 0 <= i < n ==> evs[..n][i] == evs[i];
    }
  }

  /** When the consumer acknowledges without failures, the k-th callback ran on what the first registered handler made
      of the at[k]-th event that the producer ever produced; `at` runs, in order, over exactly the events that make one
      which the consumer's input types let through. */
  lemma AcknowledgedRunCallsEventByEvent(c: Config, hs: seq<Handler>, f: Behaviour, acts: seq<Action>)
    returns (at: seq<nat>)
    requires Holds(c.table, hs) && Run(c, acts).Some? && Behaves(f, Run(c, acts).value.proc.calls)
    requires var o := Run(c, acts).value.cons.pc; o.Returned? && o.o.Acked? && o.o.r.failed == 0
    ensures var x := Run(c, acts).value;
            && |x.src.w.produced| == |x.src.delivered|
            && (forall i :: 0 <= i < |x.src.delivered| ==> x.src.w.produced[i] == Some(x.src.delivered[i]))
            && Collects(x.src.delivered, Reaching(c.consumer, hs, f), x.cons.called, at)
            && |x.cons.finished| == |x.cons.called| == x.cons.pc.o.r.consumed
  {
    AcknowledgedRunIsDrained(c, acts);
    AcknowledgedRunConsumesTheImage(c, f, acts);
    at := AcceptedImageAt(c.consumer, c.table, hs, f, Run(c, acts).value.src.delivered);
  }
}
