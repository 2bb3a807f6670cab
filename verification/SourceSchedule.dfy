/** Schedule independence of streamWithResult: with a producer that keeps the ProducerStream
    contract, no cancellation and no send failure, every interleaving ends the same way. */
module SourceSchedule {
  import opened Basics
  import opened Errors
  import opened SourceStream
  import Runs

  /** What the producer is going to do: these events in this order, and this one result. */
  datatype Program = Program(events: seq<Option<Event>>, result: Option<Error>)

  // ----- the sequential meaning of a program

  function GoodPrefix(es: seq<Option<Event>>): (r: seq<Event>)
  {
    if es == [] || es[0].None? then [] else [es[0].value] + GoodPrefix(es[1..])
  }

  /** The error the stream fails with, or None when it ends with OK. */
  function Failure(c: Config, p: Program): (r: Option<Error>)
  {
    if |GoodPrefix(p.events)| < |p.events| then Some(NIL_EVENT)
    else if p.result.Some? then p.result
    else if c.bounded then None
    else Some(UNBOUNDED_END)
  }

  function FinalStatus(c: Config, p: Program): (r: Option<Status>)
  {
    match Failure(c, p)
    case None => None
    case Some(e) => Some(StreamStatus(e))
  }

  lemma {:induction false} GoodPrefixOf(ds: seq<Event>, rest: seq<Option<Event>>)
    requires rest == [] || rest[0].None?
    ensures GoodPrefix(Somes(ds) + rest) == ds
  {
    var es := Somes(ds) + rest;
    if ds != [] {
      assert es[0] == Some(ds[0]);
      assert es[1..] == Somes(ds[1..]) + rest;
      GoodPrefixOf(ds[1..], rest);
    }
  }

  // ----- the runs considered

  /** Steps allowed: the producer follows its program, the client stays, nobody stops the source
      and Send succeeds. */
  predicate Allowed(p: Program, s: State, a: Action)
  {
    match a
    case Env(Produce(ev)) => |s.w.produced| < |p.events| && ev == p.events[|s.w.produced|]
    case Env(QueueResult(t)) => s.w.queued == [] && t == p.result
    case Env(CloseEvents) => s.w.produced == p.events && s.w.queued == [p.result]
    case Env(CloseResults) => s.w.queued == [p.result]
    case Env(ClientGone(_)) => false
    case Env(Stop) => false
    case Handler(Handoff(ev)) => |s.w.produced| < |p.events| && ev == p.events[|s.w.produced|]
    case Handler(HandoffResult(_)) => false
    case Handler(Returns(r)) => r == Stream
    case Handler(SendReturns(err)) => err.None?
    case _ => true
  }

  function AllowedStep(c: Config, p: Program): (f: (State, Action) -> Option<State>)
  {
    (s, a) => if Allowed(p, s, a) then Next(c, s, a) else None
  }

  /** The producer is where its program says. */
  ghost predicate OnProgram(p: Program, s: State)
  {
    && s.w.produced <= p.events
    && s.w.queued <= [p.result]
    && (s.w.closed ==> s.w.produced == p.events && s.w.queued == [p.result])
    && (s.w.resultsClosed ==> s.w.queued == [p.result])
    && s.w.clientErr.None? && !s.w.stopped
    && (s.pc.Started? ==> s.pc.r == Stream)
  }

  /** The verdict reached so far is the sequential one. */
  ghost predicate OnVerdict(c: Config, p: Program, s: State)
  {
    && (s.pc.Failing? ==> Failure(c, p) == Some(s.pc.e))
    && (s.pc.Failing? || Returning(s.pc) ==> s.delivered == GoodPrefix(p.events))
    && (Returning(s.pc) ==>
          && s.pc.st == FinalStatus(c, p)
          && s.errors == (if Failure(c, p).Some? then 1 else 0)
          && s.unhealthy == (Failure(c, p).Some? && MarksUnhealthy(Failure(c, p).value)))
  }

  ghost predicate Good(c: Config, p: Program, s: State)
  {
    Inv(c, s) && OnProgram(p, s) && OnVerdict(c, p, s)
  }

  /** A statement of the handler leaves both channels' histories, the client and the stop alone. */
  lemma GoKeepsChannels(c: Config, s: State)
    requires GoNext(c, s).Some?
    ensures SameChannels(s, GoNext(c, s).value) && !GoNext(c, s).value.pc.Started?
  {
    if s.pc.Failing? || Returning(s.pc) {
    } else if s.pc.TakeResult? || s.pc.LenCheck? || s.pc.Judge? {
    } else {
    }
  }

  ghost predicate SameChannels(s: State, t: State)
  {
    && t.w.produced == s.w.produced && t.w.buf == s.w.buf && t.w.queued == s.w.queued
    && t.w.closed == s.w.closed && t.w.resultsClosed == s.w.resultsClosed
    && t.w.clientErr == s.w.clientErr && t.w.stopped == s.w.stopped
    && t.w.watcher == s.w.watcher && (s.w.ctxErr.Some? ==> t.w.ctxErr.Some?)
  }

  lemma EnvKeepsProgram(c: Config, p: Program, s: State, e: EnvAction)
    requires OnProgram(p, s) && Allowed(p, s, Env(e)) && EnvNext(c, s.w, e).Some?
    ensures OnProgram(p, s.(w := EnvNext(c, s.w, e).value))
  {
  }

  lemma HandlerKeepsProgram(c: Config, p: Program, s: State, h: HandlerAction)
    requires Inv(c, s) && OnProgram(p, s) && Allowed(p, s, Handler(h)) && HandlerNext(c, s, h).Some?
    requires !h.Go? && c.resultCap > 0
    ensures OnProgram(p, HandlerNext(c, s, h).value)
  {
    var t := HandlerNext(c, s, h).value;
    if h.Handoff? || h.Returns? {
    } else {
      assert t.w.(buf := s.w.buf) == s.w && !t.pc.Started?;
    }
  }

  lemma KeepsProgram(c: Config, p: Program, s: State, a: Action)
    requires Inv(c, s) && OnProgram(p, s) && Allowed(p, s, a) && Next(c, s, a).Some?
    requires c.resultCap > 0
    ensures OnProgram(p, Next(c, s, a).value)
  {
    if a.Env? {
      EnvKeepsProgram(c, p, s, a.e);
    } else if a.h.Go? {
      GoKeepsChannels(c, s);
    } else {
      HandlerKeepsProgram(c, p, s, a.h);
    }
  }

  lemma EventVerdict(c: Config, p: Program, s: State)
    requires Good(c, p, s) && GoNext(c, s).Some?
    requires !(s.pc.Failing? || Returning(s.pc) || s.pc.TakeResult? || s.pc.LenCheck? || s.pc.Judge?)
    ensures OnVerdict(c, p, GoNext(c, s).value)
  {
    if s.pc.Checked? && s.held[0].None? {
      var rest := p.events[|s.delivered|..];
      assert p.events == Somes(s.delivered) + rest;
      GoodPrefixOf(s.delivered, rest);
    }
  }

  lemma ResultVerdict(c: Config, p: Program, s: State)
    requires Good(c, p, s) && GoNext(c, s).Some? && (s.pc.TakeResult? || s.pc.LenCheck? || s.pc.Judge?)
    ensures OnVerdict(c, p, GoNext(c, s).value)
  {
    if s.pc.TakeResult? {
      assert s.w.results == [p.result];
    } else if s.pc.Judge? {
      assert s.w.queued[0] == s.pc.t;
      assert p.events == Somes(s.delivered) + [];
      GoodPrefixOf(s.delivered, []);
    }
  }

  lemma EndVerdict(c: Config, p: Program, s: State)
    requires Good(c, p, s) && GoNext(c, s).Some? && (s.pc.Failing? || Returning(s.pc))
    ensures OnVerdict(c, p, GoNext(c, s).value)
  {
  }

  lemma KeepsVerdict(c: Config, p: Program, s: State, a: Action)
    requires Good(c, p, s) && Allowed(p, s, a) && Next(c, s, a).Some?
    ensures OnVerdict(c, p, Next(c, s, a).value)
  {
    if a != Handler(Go) {
      assert Returning(s.pc) || s.w.ctxErr.None?;
    } else if s.pc.Failing? || Returning(s.pc) {
      EndVerdict(c, p, s);
    } else if s.pc.TakeResult? || s.pc.LenCheck? || s.pc.Judge? {
      ResultVerdict(c, p, s);
    } else {
      EventVerdict(c, p, s);
    }
  }

  lemma KeepsGood(c: Config, p: Program, s: State, a: Action)
    requires Good(c, p, s) && Allowed(p, s, a) && Next(c, s, a).Some? && c.resultCap > 0
    ensures Good(c, p, Next(c, s, a).value)
  {
    StepKeepsInv(c, s, a);
    KeepsProgram(c, p, s, a);
    KeepsVerdict(c, p, s, a);
  }

  // ----- termination

  function HandlerRank(pc: Pc): (r: nat)
  {
    match pc
    case Starting => 12 case Started(_) => 11
    case Top => 10 case Select => 9
    case Got => 15 case Checked => 14 case Sending => 13 case CountProcessed => 12 case CountSuccess => 11
    case Eof => 8 case TakeResult => 7 case LenCheck(_) => 6 case Judge(_) => 5
    case Failing(_) => 4 case Deferred(_) => 3 case Joining(_) => 2 case Done(_) => 1
  }

  /** Bounds the steps that remain, over all actors. */
  function Remaining(p: Program, s: State): (r: int)
  {
    10 * (|p.events| - |s.w.produced|) + 8 * |s.w.buf| + HandlerRank(s.pc)
    + (if s.w.closed then 0 else 1) + (if s.w.resultsClosed then 0 else 1) + (1 - |s.w.queued|)
    + (if s.w.ctxErr.Some? then 0 else 1)
    + match s.w.watcher case Watching => 2 case Cancelling => 1 case Exited => 0
  }

  lemma GoLowersRank(c: Config, s: State)
    requires GoNext(c, s).Some?
    ensures HandlerRank(GoNext(c, s).value.pc) < HandlerRank(s.pc)
  {
    if s.pc.Failing? || Returning(s.pc) {
    } else if s.pc.Started? || s.pc.Judge? {
    } else {
    }
  }

  lemma GoUsesUp(c: Config, p: Program, s: State)
    requires GoNext(c, s).Some?
    ensures Remaining(p, GoNext(c, s).value) + 1 <= Remaining(p, s)
  {
    GoLowersRank(c, s);
    GoKeepsChannels(c, s);
  }

  lemma StepUsesUp(c: Config, p: Program, s: State, a: Action)
    requires Good(c, p, s) && Allowed(p, s, a) && Next(c, s, a).Some? && c.resultCap > 0
    ensures Remaining(p, Next(c, s, a).value) < Remaining(p, s)
  {
    match a
    case Env(e) =>
    case Handler(Go) => GoUsesUp(c, p, s);
    case Handler(h) =>
  }

  /** A step that is allowed and enabled whenever the call has not returned. */
  function Continue(c: Config, p: Program, s: State): (a: Action)
  {
    match s.pc
    case Starting => Handler(Returns(Stream))
    case Sending => Handler(SendReturns(None))
    case Select =>
      if s.w.ctxErr.Some? then Handler(PickDone)
      else if s.w.buf != [] || s.w.closed then Handler(PickEvents)
      else if |s.w.produced| < |p.events| then
        var ev := p.events[|s.w.produced|];
        if c.eventCap == 0 then Handler(Handoff(ev)) else Env(Produce(ev))
      else if s.w.queued == [] then Env(QueueResult(p.result))
      else Env(CloseEvents)
    case Joining(_) =>
      if s.w.watcher.Exited? then Handler(Go) else Env(WatchCtx)
    case _ => Handler(Go)
  }

  lemma CanContinue(c: Config, p: Program, s: State)
    requires Good(c, p, s) && !s.pc.Done? && c.resultCap > 0
    ensures Allowed(p, s, Continue(c, p, s)) && Next(c, s, Continue(c, p, s)).Some?
  {
  }

  lemma InitialGood(c: Config, p: Program)
    ensures Good(c, p, INITIAL) && Remaining(p, INITIAL) == 10 * |p.events| + 18
  {
  }

  lemma AllowedRunIsGood(c: Config, p: Program, acts: seq<Action>)
    requires c.resultCap > 0
    requires Runs.Run(AllowedStep(c, p), INITIAL, acts).Some?
    ensures var s := Runs.Run(AllowedStep(c, p), INITIAL, acts).value;
            Good(c, p, s) && Remaining(p, s) + |acts| <= 10 * |p.events| + 18
  {
    var next := AllowedStep(c, p);
    var good := t => Good(c, p, t);
    var remaining := t => Remaining(p, t);
    forall t, a | good(t) && next(t, a).Some?
      ensures good(next(t, a).value) && remaining(next(t, a).value) < remaining(t)
    {
      KeepsGood(c, p, t, a);
      StepUsesUp(c, p, t, a);
    }
    InitialGood(c, p);
    assert good(INITIAL) && remaining(INITIAL) == 10 * |p.events| + 18;
    Runs.Bounded(next, good, remaining, INITIAL, acts);
    var s := Runs.Run(next, INITIAL, acts).value;
    assert good(s) && remaining(s) == Remaining(p, s);
  }

  /** Every interleaving of handler, watcher and producer is finite, never gets stuck before the
      call has returned, and returns the sequential outcome of the program: the delivered events,
      the status, the counters and the effect on health. */
  lemma ScheduleIndependence(c: Config, p: Program, acts: seq<Action>)
    requires c.resultCap > 0
    requires Runs.Run(AllowedStep(c, p), INITIAL, acts).Some?
    ensures var s := Runs.Run(AllowedStep(c, p), INITIAL, acts).value;
            && |acts| <= 10 * |p.events| + 18
            && (!s.pc.Done? ==> AllowedStep(c, p)(s, Continue(c, p, s)).Some?)
            && (s.pc.Done? ==>
                  && s.pc.st == FinalStatus(c, p)
                  && s.delivered == GoodPrefix(p.events)
                  && s.processed == s.succeeded == |s.delivered|
                  && s.errors == (if Failure(c, p).Some? then 1 else 0)
                  && s.unhealthy == (Failure(c, p).Some? && MarksUnhealthy(Failure(c, p).value)))
  {
    AllowedRunIsGood(c, p, acts);
    var s := Runs.Run(AllowedStep(c, p), INITIAL, acts).value;
    assert |s.w.produced| <= |p.events| && |s.w.queued| <= 1;
    if !s.pc.Done? {
      CanContinue(c, p, s);
    }
  }

  lemma {:induction false} GoodPrefixIsPrefix(es: seq<Option<Event>>)
    ensures Somes(GoodPrefix(es)) <= es
    ensures |GoodPrefix(es)| < |es| ==> es[|GoodPrefix(es)|].None?
  {
    if es != [] && es[0].Some? {
      GoodPrefixIsPrefix(es[1..]);
      var ds, rest := GoodPrefix(es), GoodPrefix(es[1..]);
      assert Somes(ds) == [es[0]] + Somes(rest);
      assert es == [es[0]] + es[1..];
    }
  }

  lemma GoodPrefixEnds(es: seq<Option<Event>>)
    ensures var ds := GoodPrefix(es);
            && Somes(ds) <= es && (|ds| < |es| ==> es[|ds|].None?) && (|ds| == |es| <==> None !in es)
  {
    var ds := GoodPrefix(es);
    GoodPrefixIsPrefix(es);
    if |ds| == |es| {
      assert es == Somes(ds);
    } else {
      assert es[|ds|] in es;
    }
  }

  /** The same outcome in the client's terms.  What is delivered is everything before the first nil event.  A nil event,
      or an unbounded stream without an error, is an internal failure that counts one error and marks health; a result
      with an error is reported as that error; and only a bounded stream of events with a nil result ends OK. */
  lemma ScheduledEnding(c: Config, p: Program, acts: seq<Action>)
    requires c.resultCap > 0 && Runs.Run(AllowedStep(c, p), INITIAL, acts).Some?
    requires Runs.Run(AllowedStep(c, p), INITIAL, acts).value.pc.Done?
    ensures var s := Runs.Run(AllowedStep(c, p), INITIAL, acts).value;
            && Somes(s.delivered) <= p.events
            && (|s.delivered| == |p.events| <==> None !in p.events)
            && (|s.delivered| < |p.events| ==> p.events[|s.delivered|] == None)
            && (None in p.events || (p.result.None? && !c.bounded) ==>
                  s.pc.st == Some(Status(Internal, "source internal failure")) && s.errors == 1 && s.unhealthy)
            && (None !in p.events && p.result.Some? ==>
                  && s.pc.st == Some(StreamStatus(p.result.value)) && s.errors == 1
                  && s.unhealthy == MarksUnhealthy(p.result.value))
            && (None !in p.events && p.result.None? && c.bounded ==>
                  s.pc.st.None? && s.errors == 0 && !s.unhealthy)
  {
    ScheduleIndependence(c, p, acts);
    GoodPrefixEnds(p.events);
    PlainIsInternal("nil producer event");
    PlainIsInternal("unbounded producer ended without cancellation");
  }
}
