/** The body of streamWithResult as a loop over shared memory (pkg/source/source.go:319-408), proved to
    take only steps of the machine in SourceStream, with the answers its environment gives it. */
module SourceLoop {
  import opened Basics
  import opened Errors
  import opened SourceEndings
  import opened SourceStream
  import opened Tape
  import Runs

  /** What the other actors do before the handler's next access to shared memory, and how the
      scheduler and the transport then answer the handler. */
  datatype Tick = Tick(env: seq<EnvAction>, pickDone: bool, sendErr: Option<Error>,
                       handoff: Option<Option<Event>>, handoffResult: Option<Option<Error>>)

  const NO_TICK := Tick([], false, None, None, None)

  /** The machine and the last tick. */
  datatype Loop = Loop(s: State, tick: Tick)

  type Step = Entry<Tick, HandlerAction>

  /** The enabled ones of some steps of the other actors, in order. */
  function Interfered(c: Config, w: World, env: seq<EnvAction>): (r: World)
  {
    if env == [] then w
    else
      var v := Interfered(c, w, env[..|env| - 1]);
      var u := EnvNext(c, v, env[|env| - 1]);
      if u.Some? then u.value else v
  }

  /** The select has something to receive; an unbuffered channel does when a sender is waiting. */
  predicate Ready(c: Config, w: World, t: Tick)
  {
    w.buf != [] || w.closed || (c.eventCap == 0 && t.handoff.Some?)
  }

  predicate ResultReady(c: Config, w: World, t: Tick)
  {
    w.results != [] || (c.resultCap == 0 && !w.resultsClosed && t.handoffResult.Some?)
  }

  /** The handler's step takes the producer's, the scheduler's and the transport's answers as they are. */
  predicate TakesAnswers(c: Config, r: StartResult, l: Loop, a: HandlerAction)
  {
    match a
    case Returns(x) => x == r
    case Go => l.s.pc.TakeResult? && ResultReady(c, l.s.w, l.tick) ==> l.s.w.results != []
    case PickDone => l.tick.pickDone || !Ready(c, l.s.w, l.tick)
    case PickEvents => l.tick.pickDone ==> l.s.w.ctxErr.None?
    case Handoff(ev) => l.tick.handoff == Some(ev) && (l.tick.pickDone ==> l.s.w.ctxErr.None?)
    case SendReturns(err) => err == l.tick.sendErr
    case HandoffResult(t) => l.tick.handoffResult == Some(t)
  }

  /** The handler waits: no branch of the select is ready, or the watcher has not finished. */
  predicate Blocked(c: Config, l: Loop)
  {
    (l.s.pc.Select? && l.s.w.ctxErr.None? && !Ready(c, l.s.w, l.tick))
    || (l.s.pc.Joining? && !l.s.w.watcher.Exited?)
  }

  function LoopNext(c: Config, r: StartResult, l: Loop, e: Step): (n: Option<Loop>)
  {
    match e
    case Begin(t) => Some(Loop(l.s.(w := Interfered(c, l.s.w, t.env)), t))
    case Do(a) =>
      var t := HandlerNext(c, l.s, a);
      if TakesAnswers(c, r, l, a) && t.Some? then Some(l.(s := t.value)) else None
    case Idle => if Blocked(c, l) then Some(l) else None
  }

  function LoopStep(c: Config, r: StartResult): (f: (Loop, Step) -> Option<Loop>)
  {
    (l, e) => LoopNext(c, r, l, e)
  }

  function InitialLoop(): (l: Loop)
  {
    Loop(INITIAL, NO_TICK)
  }

  function LoopRun(c: Config, r: StartResult, trace: seq<Step>): (l: Option<Loop>)
  {
    Runs.Run(LoopStep(c, r), InitialLoop(), trace)
  }

  // ----- a run of the loop is a run of the machine

  lemma {:induction false} InterferenceIsRun(c: Config, s: State, env: seq<EnvAction>) returns (acts: seq<Action>)
    ensures Runs.Run(SourceStream.Step(c), s, acts) == Some(s.(w := Interfered(c, s.w, env)))
  {
    if env == [] {
      acts := [];
    } else {
      var n := |env| - 1;
      acts := InterferenceIsRun(c, s, env[..n]);
      var v := Interfered(c, s.w, env[..n]);
      if EnvNext(c, v, env[n]).Some? {
        Runs.RunAppend(SourceStream.Step(c), s, acts, Env(env[n]));
        acts := acts + [Env(env[n])];
      }
    }
  }

  lemma {:induction false} LoopIsRun(c: Config, r: StartResult, l: Loop, trace: seq<Step>) returns (acts: seq<Action>)
    requires Runs.Run(LoopStep(c, r), l, trace).Some?
    ensures Runs.Run(SourceStream.Step(c), l.s, acts) == Some(Runs.Run(LoopStep(c, r), l, trace).value.s)
    decreases |trace|
  {
    if trace == [] {
      acts := [];
    } else {
      var m := LoopNext(c, r, l, trace[0]).value;
      var first := match trace[0] case Do(a) => [Handler(a)] case _ => [];
      if trace[0].Begin? {
        first := InterferenceIsRun(c, l.s, trace[0].t.env);
      } else {
        assert Runs.Run(SourceStream.Step(c), l.s, first) == Some(m.s) by {
          assert first != [] ==> first[1..] == [];
        }
      }
      var rest := LoopIsRun(c, r, m, trace[1..]);
      Runs.RunConcat(SourceStream.Step(c), l.s, first, rest);
      acts := first + rest;
    }
  }

  lemma EveryLoopKeepsInv(c: Config, r: StartResult, trace: seq<Step>)
    requires LoopRun(c, r, trace).Some?
    ensures Inv(c, LoopRun(c, r, trace).value.s)
  {
    var acts := LoopIsRun(c, r, InitialLoop(), trace);
    EveryRunKeepsInv(c, acts);
  }

  lemma EveryLoopEndsForACause(c: Config, r: StartResult, trace: seq<Step>)
    requires LoopRun(c, r, trace).Some? && LoopRun(c, r, trace).value.s.pc.Done?
    ensures Explained(c, LoopRun(c, r, trace).value.s)
  {
    var acts := LoopIsRun(c, r, InitialLoop(), trace);
    var k, cause := EveryEndingHasItsCause(c, acts);
    assert EndsBecause(c, acts, k, cause);
  }

  class StreamCall {
    const c: Config
    const started: StartResult
    const tape: seq<Tick>
    var next: nat
    var tick: Tick
    var w: World
    var held: seq<Option<Event>>
    var delivered: seq<Event>
    var sends: nat
    var taken: seq<Option<Error>>
    var judgedQueue: seq<Option<Error>>
    var processed: nat
    var succeeded: nat
    var errors: nat
    var unhealthy: bool
    ghost var trace: seq<Step>

    /** A call whose producer function will answer `started`, against a tape. */
    constructor (c: Config, started: StartResult, tape: seq<Tick>)
      ensures this.c == c && this.started == started && this.tape == tape
      ensures next == 0 && Valid(Starting)
    {
      this.c, this.started, this.tape, next := c, started, tape, 0;
      tick := NO_TICK;
      w, held, delivered, sends, taken, judgedQueue := INITIAL_WORLD, [], [], 0, [], [];
      processed, succeeded, errors, unhealthy := 0, 0, 0, false;
      trace := [];
    }

    function At(pc: Pc): State
      reads this
    {
      State(w, pc, held, delivered, sends, taken, judgedQueue, processed, succeeded, errors, unhealthy)
    }

    /** The handler stands at pc after a run of the machine against the consumed part of the tape. */
    ghost predicate OnTape(pc: Pc)
      reads this
    {
      && next <= |tape| && Ticks(trace) == tape[..next]
      && LoopRun(c, started, trace) == Some(Loop(At(pc), tick))
    }

    /** ... and at every tick so far it has moved, or could not. */
    ghost predicate Valid(pc: Pc)
      reads this
    {
      OnTape(pc) && Moved(trace)
    }

    /** ... save that it still has to move at the last tick. */
    ghost predicate Due(pc: Pc)
      reads this
    {
      OnTape(pc) && Prompt(trace)
    }

    ghost method Record(l: Loop, e: Step, pc: Pc)
      requires next <= |tape| && Prompt(trace) && Ticks(trace) == tape[..next]
      requires !e.Begin? && LoopRun(c, started, trace) == Some(l)
      requires LoopNext(c, started, l, e) == Some(Loop(At(pc), tick))
      modifies `trace
      ensures Valid(pc)
    {
      Runs.RunAppend(LoopStep(c, started), InitialLoop(), trace, e);
      Append(trace, e);
      trace := trace + [e];
    }

    ghost method RecordTick(l: Loop, pc: Pc)
      requires next < |tape| && Moved(trace) && Ticks(trace) == tape[..next] && tick == tape[next]
      requires LoopRun(c, started, trace) == Some(l) && At(pc) == l.s.(w := Interfered(c, l.s.w, tick.env))
      modifies `trace
      ensures LoopRun(c, started, trace) == Some(Loop(At(pc), tick))
      ensures Ticks(trace) == tape[..next + 1] && Prompt(trace)
    {
      Runs.RunAppend(LoopStep(c, started), InitialLoop(), trace, Begin(tick));
      Append(trace, Begin(tick));
      trace := trace + [Begin(tick)];
    }

    /** One step of another actor, if it is enabled. */
    method InterfereOnce(a: EnvAction)
      modifies `w
      ensures w == var u := EnvNext(c, old(w), a); if u.Some? then u.value else old(w)
    {
      var r := EnvNext(c, w, a);
      if r.Some? { w := r.value; }
    }

    /** The enabled steps of the tick, in order. */
    method Interfere()
      modifies `w
      ensures w == Interfered(c, old(w), tick.env)
    {
      var i := 0;
      while i < |tick.env|
        invariant 0 <= i <= |tick.env| && w == Interfered(c, old(w), tick.env[..i])
      {
        assert tick.env[..i + 1][..i] == tick.env[..i];
        InterfereOnce(tick.env[i]);
        i := i + 1;
      }
      assert tick.env[..i] == tick.env;
    }

    /** Lets the other actors run until the next tick. */
    method Pause(ghost pc: Pc)
      requires Valid(pc)
      modifies `w, `trace, `next, `tick
      ensures Due(pc)
      ensures next == if old(next) < |tape| then old(next) + 1 else old(next)
    {
      if next == |tape| { return; }
      ghost var l := Loop(At(pc), tick);
      tick := tape[next];
      Interfere();
      RecordTick(l, pc);
      next := next + 1;
    }

    /** failStream: one error counted, health marked unless the error is benign. */
    method FailStream(e: Error) returns (st: Option<Status>)
      requires Valid(Failing(e))
      modifies `errors, `unhealthy, `trace
      ensures Valid(Deferred(st))
      ensures st == Some(StreamStatus(e)) && errors == old(errors) + 1
      ensures unhealthy == (old(unhealthy) || MarksUnhealthy(e))
    {
      ghost var l := Loop(At(Failing(e)), tick);
      errors := errors + 1;
      if MarksUnhealthy(e) { unhealthy := true; }
      st := Some(StreamStatus(e));
      assert HandlerNext(c, l.s, Go) == Some(At(Deferred(st)));
      Record(l, Do(Go), Deferred(st));
    }

    /** The deferred cancel. */
    method CancelContext(ghost st: Option<Status>)
      requires Valid(Deferred(st))
      modifies `w, `trace, `next, `tick
      ensures Valid(Joining(st))
    {
      Pause(Deferred(st));
      ghost var l := Loop(At(Deferred(st)), tick);
      w := w.(ctxErr := Cancelled(w.ctxErr));
      Record(l, Do(Go), Joining(st));
    }

    /** The deferred cancel and the wait for the watcher. */
    method Finish(st: Option<Status>) returns (pc: Pc)
      requires Valid(Deferred(st))
      modifies `w, `trace, `next, `tick
      ensures Valid(pc)
      ensures pc == Done(st) || (pc == Joining(st) && next == |tape|)
    {
      CancelContext(st);
      pc := TryJoin(st);
      while pc.Joining? && next < |tape|
        invariant Valid(pc) && (pc == Done(st) || pc == Joining(st))
        decreases |tape| - next
      {
        Pause(Joining(st));
        pc := TryJoin(st);
      }
    }

    /** The call ends if the watcher has, and waits otherwise. */
    method TryJoin(st: Option<Status>) returns (pc: Pc)
      requires Due(Joining(st))
      modifies `trace
      ensures Valid(pc) && pc == if w.watcher.Exited? then Done(st) else Joining(st)
    {
      pc := if w.watcher.Exited? then Done(st) else Joining(st);
      Record(Loop(At(Joining(st)), tick), if w.watcher.Exited? then Do(Go) else Idle, pc);
    }

    /** A check for cancellation: its status, or None and on to `to`. */
    method CheckOr(from: Pc, ghost to: Pc) returns (st: Option<Status>)
      requires Due(from)
      requires (from.Eof? && to.TakeResult?) || (from.Got? && to.Checked?) || (from.Top? && to.Select?)
      modifies `trace
      ensures st.Some? <==> w.ctxErr.Some?
      ensures Valid(if st.Some? then Deferred(st) else to)
    {
      ghost var l := Loop(At(from), tick);
      if w.ctxErr.Some? {
        st := Some(StreamStatus(w.ctxErr.value));
        Record(l, Do(Go), Deferred(st));
      } else {
        st := None;
        Record(l, Do(Go), to);
      }
    }

    /** Lines 351-378: the events are closed and drained, so the result decides. */
    method ReadResult() returns (st: Option<Status>)
      requires Valid(Eof)
      modifies `w, `taken, `judgedQueue, `errors, `unhealthy, `trace, `next, `tick
      ensures Valid(Deferred(st)) && old(next) <= next
    {
      Pause(Eof);
      st := CheckOr(Eof, TakeResult);
      if st.Some? { return; }
      var terminal := ReceiveResult();
      if terminal.None? {
        st := FailStream(MISSING_RESULT);
        return;
      }
      var last := CheckLast(terminal.value);
      if last {
        st := JudgeResult(terminal.value);
      } else {
        st := FailStream(MULTIPLE_RESULTS);
      }
    }

    /** Lines 357-361 and 375-376: takes a result if one is ready, and never waits for one. */
    method ReceiveResult() returns (terminal: Option<Option<Error>>)
      requires Valid(TakeResult)
      modifies `w, `taken, `trace, `next, `tick
      ensures Valid(match terminal case None => Failing(MISSING_RESULT) case Some(t) => LenCheck(t))
      ensures old(next) <= next
    {
      Pause(TakeResult);
      if w.results != [] {
        TakeQueued();
        return Some(taken[|taken| - 1]);
      } else if c.resultCap == 0 && !w.resultsClosed && tick.handoffResult.Some? {
        TakeHandedOver(tick.handoffResult.value);
        return tick.handoffResult;
      }
      Record(Loop(At(TakeResult), tick), Do(Go), Failing(MISSING_RESULT));
      return None;
    }

    method TakeQueued()
      requires Due(TakeResult) && w.results != []
      modifies `w, `taken, `trace
      ensures taken == old(taken) + [old(w).results[0]]
      ensures Valid(LenCheck(taken[|taken| - 1]))
    {
      ghost var l := Loop(At(TakeResult), tick);
      var t := w.results[0];
      w, taken := w.(results := w.results[1..]), taken + [t];
      Record(l, Do(Go), LenCheck(t));
    }

    method TakeHandedOver(t: Option<Error>)
      requires Due(TakeResult) && w.results == [] && c.resultCap == 0 && !w.resultsClosed
      requires tick.handoffResult == Some(t)
      modifies `w, `taken, `trace
      ensures Valid(LenCheck(t))
    {
      ghost var l := Loop(At(TakeResult), tick);
      w, taken := w.(queued := w.queued + [t]), taken + [t];
      Record(l, Do(HandoffResult(t)), LenCheck(t));
    }

    /** Line 362: with a second result queued the stream is about to fail with that error. */
    method CheckLast(terminal: Option<Error>) returns (last: bool)
      requires Valid(LenCheck(terminal))
      modifies `w, `judgedQueue, `trace, `next, `tick
      ensures last <==> w.results == []
      ensures last ==> Valid(Judge(terminal)) && judgedQueue == w.queued
      ensures !last ==> Valid(Failing(MULTIPLE_RESULTS)) && judgedQueue == old(judgedQueue)
      ensures old(next) <= next
    {
      Pause(LenCheck(terminal));
      ghost var l := Loop(At(LenCheck(terminal)), tick);
      last := w.results == [];
      if last {
        judgedQueue := w.queued;
        Record(l, Do(Go), Judge(terminal));
      } else {
        Record(l, Do(Go), Failing(MULTIPLE_RESULTS));
      }
    }

    /** Lines 365-374. */
    method JudgeResult(terminal: Option<Error>) returns (st: Option<Status>)
      requires Valid(Judge(terminal))
      modifies `w, `errors, `unhealthy, `trace, `next, `tick
      ensures Valid(Deferred(st)) && old(next) <= next
      ensures terminal.None? && c.bounded ==> st.None? && errors == old(errors)
      ensures terminal.None? && !c.bounded ==>
                st == Some(Status(Internal, "source internal failure")) && errors == old(errors) + 1 && unhealthy
      ensures terminal.Some? && w.ctxErr.Some? && CtxCanceled in Nodes(terminal.value) ==>
                st == Some(StreamStatus(w.ctxErr.value)) && errors == old(errors)
      ensures terminal.Some? && (w.ctxErr.None? || CtxCanceled !in Nodes(terminal.value)) ==>
                st == Some(StreamStatus(terminal.value)) && errors == old(errors) + 1
    {
      Pause(Judge(terminal));
      ghost var l := Loop(At(Judge(terminal)), tick);
      if terminal.Some? {
        IsIsMembership(terminal.value, CtxCanceled);
        if Is(terminal.value, CtxCanceled) && w.ctxErr.Some? {
          st := Some(StreamStatus(w.ctxErr.value));
          Record(l, Do(Go), Deferred(st));
        } else {
          Record(l, Do(Go), Failing(terminal.value));
          st := FailStream(terminal.value);
        }
      } else if !c.bounded {
        PlainIsInternal("unbounded producer ended without cancellation");
        Record(l, Do(Go), Failing(UNBOUNDED_END));
        st := FailStream(UNBOUNDED_END);
      } else {
        st := None;
        Record(l, Do(Go), Deferred(st));
      }
    }

    /** Lines 379-391: one event taken from the channel.  None means it was sent and counted. */
    method Deliver() returns (stop: Option<Option<Status>>)
      requires Valid(Got) && |held| == 1
      modifies `w, `held, `delivered, `sends, `processed, `succeeded, `errors, `unhealthy, `trace, `next, `tick
      ensures old(next) <= next
      ensures stop.None? ==> Valid(Top)
      ensures stop.Some? ==> Valid(Deferred(stop.value))
      ensures old(held) == [None] && w.ctxErr.None? ==>
                stop == Some(Some(Status(Internal, "source internal failure")))
                && errors == old(errors) + 1 && unhealthy
    {
      Pause(Got);
      var cancelled := CheckOr(Got, Checked);
      if cancelled.Some? { return Some(cancelled); }
      if held[0].None? {
        var st := RejectNil();
        return Some(st);
      }
      stop := Send();
      if stop.None? {
        CountDelivered();
      }
    }

    /** Lines 382-384. */
    method RejectNil() returns (st: Option<Status>)
      requires Valid(Checked) && held == [None]
      modifies `errors, `unhealthy, `trace
      ensures Valid(Deferred(st)) && st == Some(Status(Internal, "source internal failure"))
      ensures errors == old(errors) + 1 && unhealthy
    {
      PlainIsInternal("nil producer event");
      Record(Loop(At(Checked), tick), Do(Go), Failing(NIL_EVENT));
      st := FailStream(NIL_EVENT);
    }

    /** Lines 385-389. */
    method Send() returns (stop: Option<Option<Status>>)
      requires Valid(Checked) && |held| == 1 && held[0].Some?
      modifies `w, `held, `delivered, `sends, `trace, `next, `tick
      ensures old(next) <= next
      ensures stop.None? <==> tick.sendErr.None?
      ensures stop.None? ==> Valid(CountProcessed)
      ensures stop.Some? ==> Valid(Deferred(stop.value))
    {
      ghost var l := Loop(At(Checked), tick);
      sends := sends + 1;
      Record(l, Do(Go), Sending);
      Pause(Sending);
      stop := FinishSend();
    }

    /** Send returns. */
    method FinishSend() returns (stop: Option<Option<Status>>)
      requires Due(Sending) && |held| == 1 && held[0].Some?
      modifies `held, `delivered, `trace
      ensures stop.None? <==> tick.sendErr.None?
      ensures stop.None? ==> Valid(CountProcessed)
      ensures stop.Some? ==> Valid(Deferred(stop.value))
    {
      ghost var l := Loop(At(Sending), tick);
      if tick.sendErr.Some? {
        var st := Some(StreamStatus(StreamError(DOWNSTREAM_UNAVAILABLE, tick.sendErr)));
        Record(l, Do(SendReturns(tick.sendErr)), Deferred(st));
        return Some(st);
      }
      delivered, held := delivered + [held[0].value], [];
      Record(l, Do(SendReturns(None)), CountProcessed);
      return None;
    }

    /** Lines 390-391. */
    method CountDelivered()
      requires Valid(CountProcessed)
      modifies `processed, `succeeded, `trace
      ensures Valid(Top)
      ensures processed == old(processed) + 1 && succeeded == old(succeeded) + 1
    {
      ghost var l := Loop(At(CountProcessed), tick);
      processed := processed + 1;
      Record(l, Do(Go), CountSuccess);
      l := Loop(At(CountSuccess), tick);
      succeeded := succeeded + 1;
      Record(l, Do(Go), Top);
    }

    /** Lines 347-350: waits until a branch of the select is ready and takes it. */
    method SelectBranch() returns (pc: Pc)
      requires Valid(Select)
      modifies `w, `held, `trace, `next, `tick
      ensures Valid(pc) && old(next) <= next
      ensures pc.Deferred? || (pc.Got? && |held| == 1) || pc.Eof? || (pc.Select? && next == |tape|)
    {
      while next < |tape|
        invariant Valid(Select) && old(next) <= next
        decreases |tape| - next
      {
        Pause(Select);
        pc := TryBranch();
        if !pc.Select? { return; }
      }
      return Select;
    }

    /** One look at the branches of the select. */
    method TryBranch() returns (pc: Pc)
      requires Due(Select)
      modifies `w, `held, `trace
      ensures Valid(pc) && (pc.Select? || pc.Deferred? || (pc.Got? && |held| == 1) || pc.Eof?)
    {
      ghost var l := Loop(At(Select), tick);
      if w.ctxErr.Some? && (tick.pickDone || !Ready(c, w, tick)) {
        pc := Deferred(Some(StreamStatus(w.ctxErr.value)));
        Record(l, Do(PickDone), pc);
      } else if w.buf != [] {
        held, w := [w.buf[0]], w.(buf := w.buf[1..]);
        pc := Got;
        Record(l, Do(PickEvents), pc);
      } else if w.closed {
        pc := Eof;
        Record(l, Do(PickEvents), pc);
      } else if c.eventCap == 0 && tick.handoff.Some? {
        held, w := [tick.handoff.value], w.(produced := w.produced + [tick.handoff.value]);
        pc := Got;
        Record(l, Do(Handoff(tick.handoff.value)), pc);
      } else {
        pc := Select;
        Record(l, Idle, pc);
      }
    }

    /** Lines 332-341: starts the producer and validates what it returned. */
    method Start() returns (stop: Option<Option<Status>>)
      requires Valid(Starting)
      modifies `w, `errors, `unhealthy, `trace, `next, `tick
      ensures old(next) <= next <= |tape|
      ensures stop.None? ==> Valid(Top)
      ensures stop.Some? ==> Valid(Deferred(stop.value))
      ensures stop.None? <==> started.Stream? && w.ctxErr.None?
      ensures started.Incomplete? && w.ctxErr.None? ==>
                stop == Some(Some(Status(Internal, "source internal failure")))
                && errors == old(errors) + 1 && unhealthy
    {
      Pause(Starting);
      Record(Loop(At(Starting), tick), Do(Returns(started)), Started(started));
      Pause(Started(started));
      if w.ctxErr.None? && !started.Stream? {
        var st := RejectStream();
        return Some(st);
      }
      stop := StartLoop();
    }

    /** Lines 333-335: an ended context ends the call, and otherwise the loop starts. */
    method StartLoop() returns (stop: Option<Option<Status>>)
      requires Due(Started(started)) && (w.ctxErr.Some? || started.Stream?)
      modifies `trace
      ensures stop.None? <==> w.ctxErr.None?
      ensures stop.None? ==> Valid(Top)
      ensures stop.Some? ==> Valid(Deferred(stop.value))
    {
      ghost var l := Loop(At(Started(started)), tick);
      if w.ctxErr.Some? {
        var st := Some(StreamStatus(w.ctxErr.value));
        Record(l, Do(Go), Deferred(st));
        return Some(st);
      }
      Record(l, Do(Go), Top);
      return None;
    }

    /** Lines 336-341. */
    method RejectStream() returns (st: Option<Status>)
      requires Due(Started(started)) && w.ctxErr.None? && !started.Stream?
      modifies `errors, `unhealthy, `trace
      ensures Valid(Deferred(st)) && errors == old(errors) + 1
      ensures started.StartFailed? ==> st == Some(StreamStatus(started.e))
      ensures started.Incomplete? ==> st == Some(Status(Internal, "source internal failure")) && unhealthy
    {
      ghost var l := Loop(At(Started(started)), tick);
      if started.StartFailed? {
        Record(l, Do(Go), Failing(started.e));
        st := FailStream(started.e);
      } else {
        PlainIsInternal("producer returned incomplete stream");
        Record(l, Do(Go), Failing(INCOMPLETE));
        st := FailStream(INCOMPLETE);
      }
    }

    /** One turn of the loop: the check for cancellation, the select and what it received.  `pc` is
        Select when the tape ended there. */
    method OneTurn() returns (stop: Option<Option<Status>>, pc: Pc)
      requires Valid(Top)
      modifies this
      ensures old(next) <= next && (old(next) < |tape| ==> old(next) < next)
      ensures stop.Some? ==> Valid(Deferred(stop.value))
      ensures stop.None? ==> Valid(pc) && (pc.Top? || (pc.Select? && next == |tape|))
    {
      Pause(Top);
      var cancelled := CheckOr(Top, Select);
      if cancelled.Some? { return Some(cancelled), Top; }
      pc := SelectBranch();
      stop := None;
      if pc.Deferred? {
        stop := Some(pc.st);
      } else if pc.Eof? {
        var st := ReadResult();
        stop := Some(st);
      } else if pc.Got? {
        stop := Deliver();
        pc := Top;
      }
    }

    method StreamLoop() returns (pc: Pc)
      requires Valid(Starting)
      modifies this
      ensures Valid(pc)
      ensures pc.Done? || (next == |tape| && (pc.Top? || pc.Select? || pc.Joining?))
    {
      var stop := Start();
      pc := Top;
      while stop.None? && pc.Top? && next < |tape|
        invariant next <= |tape|
        invariant stop.None? ==> Valid(pc) && (pc.Top? || (pc.Select? && next == |tape|))
        invariant stop.Some? ==> Valid(Deferred(stop.value))
        decreases |tape| - next, stop.None?
      {
        stop, pc := OneTurn();
      }
      if stop.Some? {
        pc := Finish(stop.value);
      }
    }

    /** streamWithResult.  It ends with a status, or is cut off where it waits when the tape ends.  Either way it
        has only taken steps of the machine, on exactly the interference and the answers of the tape, and it
        has moved at every tick at which it was able to; and when it has ended, it reports the cause of its end. */
    method StreamWithResult() returns (pc: Pc)
      requires Valid(Starting)
      modifies this
      ensures Valid(pc) && Inv(c, At(pc))
      ensures pc.Done? || (next == |tape| && (pc.Top? || pc.Select? || pc.Joining?))
      ensures pc.Done? ==> w.ctxErr.Some? && w.watcher.Exited?
      ensures pc.Done? ==> Explained(c, At(pc))
      ensures pc == Done(None) ==>
                c.bounded && w.closed && w.produced == Somes(delivered) && processed == succeeded == |delivered|
    {
      pc := StreamLoop();
      EveryLoopKeepsInv(c, started, trace);
      if pc.Done? {
        EveryLoopEndsForACause(c, started, trace);
      }
    }
  }
}
