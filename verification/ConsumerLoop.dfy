/** The body of Consume as a loop over shared memory (pkg/consumer/service.go:57-148), proved to take only
    steps of the machine in ConsumerStream, with the answers its environment gives it, and to move the service's
    atomic counters by its own tallies. */
module ConsumerLoop {
  import opened Basics
  import opened Errors
  import opened ConsumerStream
  import opened Tape
  import Endings = ConsumerEndings
  import opened Selections
  import Runs

  /** One stream beside the service's stop channel. */
  datatype Shared = Shared(stopped: bool, s: Stream)
  datatype CallAction = StopNow | Act(a: Action)

  function CallNext(c: Config, x: Shared, a: CallAction): (r: Option<Shared>)
  {
    match a
    case StopNow => Some(x.(stopped := true))
    case Act(sa) =>
      var t := Next(c, x.stopped, x.s, sa);
      if t.Some? then Some(x.(s := t.value)) else None
  }

  function CallStep(c: Config): (f: (Shared, CallAction) -> Option<Shared>)
  {
    (x, a) => CallNext(c, x, a)
  }

  function InitialCall(): (x: Shared)
  {
    Shared(false, INITIAL)
  }

  function CallRun(c: Config, acts: seq<CallAction>): (r: Option<Shared>)
  {
    Runs.Run(CallStep(c), InitialCall(), acts)
  }

  lemma EveryCallKeepsInv(c: Config, acts: seq<CallAction>)
    requires CallRun(c, acts).Some?
    ensures Inv(c, CallRun(c, acts).value.s)
  {
    var inv := (x: Shared) => Inv(c, x.s);
    var next := CallStep(c);
    forall x, a | inv(x) && next(x, a).Some?
      ensures inv(next(x, a).value)
    {
      if a.Act? {
        StepKeepsInv(c, x.stopped, x.s, a.a);
      }
    }
    assert Accepted(c, []) == [];
    Runs.Invariant(next, inv, InitialCall(), acts);
  }

  /** The call returned at the k-th action of the run, for the reason of its answer. */
  ghost predicate ReturnsAt(c: Config, acts: seq<CallAction>, k: nat)
  {
    && CallRun(c, acts).Some? && CallRun(c, acts).value.s.pc.Returned?
    && k < |acts| && acts[k].Act? && CallRun(c, acts[..k]).Some?
    && var x := CallRun(c, acts[..k]).value;
       !x.s.pc.Returned?
       && Endings.ReturnsBecause(c, x.stopped, x.s, acts[k].a, CallRun(c, acts).value.s.pc.o)
  }

  /** Some run ends in x with the call returned for the reason of its answer. */
  ghost predicate Explained(c: Config, x: Shared)
  {
    exists acts: seq<CallAction>, k: nat :: CallRun(c, acts) == Some(x) && ReturnsAt(c, acts, k)
  }

  lemma ReturnedCallStays(c: Config, x: Shared, acts: seq<CallAction>)
    requires x.s.pc.Returned? && Runs.Run(CallStep(c), x, acts).Some?
    ensures Runs.Run(CallStep(c), x, acts).value.s.pc == x.s.pc
  {
    var kept := (y: Shared) => y.s.pc == x.s.pc;
    forall y, a | kept(y) && CallStep(c)(y, a).Some?
      ensures kept(CallStep(c)(y, a).value)
    {
    }
    Runs.Invariant(CallStep(c), kept, x, acts);
  }

  lemma EveryCallReturnHasItsCause(c: Config, acts: seq<CallAction>) returns (k: nat)
    requires CallRun(c, acts).Some? && CallRun(c, acts).value.s.pc.Returned?
    ensures ReturnsAt(c, acts, k)
  {
    k := Runs.Crossing(CallStep(c), (x: Shared) => x.s.pc.Returned?, InitialCall(), acts);
    EveryCallKeepsInv(c, acts[..k]);
    var x := CallRun(c, acts[..k]).value;
    var y := CallStep(c)(x, acts[k]).value;
    Endings.StepReturnsBecause(c, x.stopped, x.s, acts[k].a, y.s.pc.o);
    ReturnedCallStays(c, y, acts[k + 1..]);
  }

  /** The four atomic counters of the service. */
  datatype Counters = Counters(consumed: int, failed: int, errors: int, successes: int)

  function Plus(x: Counters, y: Counters): (r: Counters)
  {
    Counters(x.consumed + y.consumed, x.failed + y.failed, x.errors + y.errors, x.successes + y.successes)
  }

  /** The adds of a call with these tallies: the success or error counter trails by one between the two adds. */
  function Adds(pc: Pc, consumed: int, failed: int): (r: Counters)
  {
    Counters(consumed, failed,
             failed - if pc == SecondAdd(false) then 1 else 0,
             consumed - if pc == SecondAdd(true) then 1 else 0)
  }

  /** What the other actors do before the handler's next look at shared memory (including adds by
      other streams), which ready branch a select takes, and what SendAndClose answers. */
  datatype Tick = Tick(env: seq<CallAction>, adds: Counters, pickDone: bool, pickStop: bool, replyErr: Option<Error>)

  const NOTHING := Counters(0, 0, 0, 0)
  const NO_TICK := Tick([], NOTHING, false, false, None)

  function AllAdds(ticks: seq<Tick>): (r: Counters)
  {
    if ticks == [] then NOTHING else Plus(AllAdds(ticks[..|ticks| - 1]), ticks[|ticks| - 1].adds)
  }

  lemma NextAdds(before: Counters, ticks: seq<Tick>, i: nat, own: Counters)
    requires i < |ticks|
    ensures Plus(Plus(before, AllAdds(ticks[..i + 1])), own)
            == Plus(Plus(Plus(before, AllAdds(ticks[..i])), own), ticks[i].adds)
  {
    assert ticks[..i + 1][..i] == ticks[..i];
  }

  predicate IsEnv(a: CallAction)
  {
    a.StopNow? || a.a.CtxDone? || a.a.Propagate? || a.a.RecvReturns? || a.a.CallReturns?
  }

  /** The machine and the last tick. */
  datatype Loop = Loop(x: Shared, tick: Tick)

  type Step = Entry<Tick, Action>

  /** One step of another actor, if it is enabled. */
  function Interfered(c: Config, x: Shared, a: CallAction): (r: Shared)
  {
    if IsEnv(a) && CallNext(c, x, a).Some? then CallNext(c, x, a).value else x
  }

  function AllInterfered(c: Config, x: Shared, env: seq<CallAction>): (r: Shared)
  {
    if env == [] then x else Interfered(c, AllInterfered(c, x, env[..|env| - 1]), env[|env| - 1])
  }

  /** The select can take the result it waits for. */
  predicate Ready(s: Stream)
  {
    (s.pc.AwaitRecv? && s.receiver.Received?) || (s.pc.AwaitCall? && s.callback.Finished?)
  }

  /** The handler's step takes the scheduler's and the transport's answers as they are. */
  predicate TakesAnswers(l: Loop, a: Action)
  {
    match a
    case PickDone => l.tick.pickDone || !Ready(l.x.s)
    case PickStop => l.tick.pickStop || !Ready(l.x.s)
    case PickResult => !(l.tick.pickDone && l.x.s.derivedErr.Some?) && !(l.tick.pickStop && l.x.stopped)
    case Reply(err) => err == l.tick.replyErr
    case _ => true
  }

  /** No branch of a select is ready. */
  predicate Blocked(l: Loop)
  {
    (l.x.s.pc.AwaitRecv? || l.x.s.pc.AwaitCall?) && l.x.s.derivedErr.None? && !l.x.stopped && !Ready(l.x.s)
  }

  function LoopNext(c: Config, l: Loop, e: Step): (n: Option<Loop>)
  {
    match e
    case Begin(t) => Some(Loop(AllInterfered(c, l.x, t.env), t))
    case Do(a) =>
      var y := CallNext(c, l.x, Act(a));
      if !IsEnv(Act(a)) && TakesAnswers(l, a) && y.Some? then Some(l.(x := y.value)) else None
    case Idle => if Blocked(l) then Some(l) else None
  }

  function LoopStep(c: Config): (f: (Loop, Step) -> Option<Loop>)
  {
    (l, e) => LoopNext(c, l, e)
  }

  function InitialLoop(): (l: Loop)
  {
    Loop(InitialCall(), NO_TICK)
  }

  function LoopRun(c: Config, trace: seq<Step>): (l: Option<Loop>)
  {
    Runs.Run(LoopStep(c), InitialLoop(), trace)
  }

  // ----- a run of the loop is a run of the machine

  lemma {:induction false} InterferenceIsRun(c: Config, x: Shared, env: seq<CallAction>) returns (acts: seq<CallAction>)
    ensures Runs.Run(CallStep(c), x, acts) == Some(AllInterfered(c, x, env))
  {
    if env == [] {
      acts := [];
    } else {
      var n := |env| - 1;
      acts := InterferenceIsRun(c, x, env[..n]);
      if IsEnv(env[n]) && CallNext(c, AllInterfered(c, x, env[..n]), env[n]).Some? {
        Runs.RunAppend(CallStep(c), x, acts, env[n]);
        acts := acts + [env[n]];
      }
    }
  }

  lemma {:induction false} LoopIsRun(c: Config, l: Loop, trace: seq<Step>) returns (acts: seq<CallAction>)
    requires Runs.Run(LoopStep(c), l, trace).Some?
    ensures Runs.Run(CallStep(c), l.x, acts) == Some(Runs.Run(LoopStep(c), l, trace).value.x)
    decreases |trace|
  {
    if trace == [] {
      acts := [];
    } else {
      var m := LoopNext(c, l, trace[0]).value;
      var first := match trace[0] case Do(a) => [Act(a)] case _ => [];
      if trace[0].Begin? {
        first := InterferenceIsRun(c, l.x, trace[0].t.env);
      } else {
        assert Runs.Run(CallStep(c), l.x, first) == Some(m.x) by {
          assert first != [] ==> first[1..] == [];
        }
      }
      var rest := LoopIsRun(c, m, trace[1..]);
      Runs.RunConcat(CallStep(c), l.x, first, rest);
      acts := first + rest;
    }
  }

  lemma EveryLoopKeepsInv(c: Config, trace: seq<Step>)
    requires LoopRun(c, trace).Some?
    ensures Inv(c, LoopRun(c, trace).value.x.s)
  {
    var acts := LoopIsRun(c, InitialLoop(), trace);
    EveryCallKeepsInv(c, acts);
  }

  lemma EveryLoopReturnsForACause(c: Config, trace: seq<Step>)
    requires LoopRun(c, trace).Some? && LoopRun(c, trace).value.x.s.pc.Returned?
    ensures Explained(c, LoopRun(c, trace).value.x)
  {
    var acts := LoopIsRun(c, InitialLoop(), trace);
    var k := EveryCallReturnHasItsCause(c, acts);
    assert ReturnsAt(c, acts, k);
  }

  class ConsumeCall {
    const c: Config
    const tape: seq<Tick>
    const before: Counters
    var next: nat
    var tick: Tick
    // the stream's context, the goroutines and the stop channel
    var stopped: bool
    var ctxErr: Option<Error>
    var derivedErr: Option<Error>
    var receiver: Receiver
    var received: seq<Recv>
    var callback: Callback
    var finished: seq<Option<Error>>
    // the handler
    var recvsStarted: nat
    var pending: seq<Recv>
    var dispatched: seq<Event>
    var called: seq<Event>
    var outcome: seq<Option<Error>>
    var settled: seq<Option<Error>>
    var consumed: nat
    var failed: nat
    var filtered: nat
    var summaries: seq<string>
    // the service
    var counters: Counters
    ghost var trace: seq<Step>

    constructor (c: Config, tape: seq<Tick>, counters: Counters)
      ensures this.c == c && this.tape == tape && this.before == counters
      ensures next == 0 && Valid(Top)
    {
      this.c, this.tape, this.before, next := c, tape, counters, 0;
      tick := NO_TICK;
      stopped, ctxErr, derivedErr, receiver, received := false, None, None, NotReceiving, [];
      callback, finished, recvsStarted, pending, dispatched, called := NoCallback, [], 0, [], [], [];
      outcome, settled, consumed, failed, filtered, summaries := [], [], 0, 0, 0, [];
      this.counters, trace := counters, [];
    }

    function At(pc: Pc): Shared
      reads this
    {
      Shared(stopped, Stream(pc, ctxErr, derivedErr, receiver, recvsStarted, received, pending, dispatched,
                             callback, called, finished, outcome, settled, consumed, failed, filtered, summaries))
    }

    /** The handler stands at pc after a run of the machine against the consumed part of the tape. */
    ghost predicate OnTape(pc: Pc)
      reads this
    {
      next <= |tape| && Ticks(trace) == tape[..next] && LoopRun(c, trace) == Some(Loop(At(pc), tick))
    }

    /** The service's counters have moved by the adds of the others and of this call. */
    ghost predicate Counted(pc: Pc)
      requires next <= |tape|
      reads this
    {
      counters == Plus(Plus(before, AllAdds(tape[..next])), Adds(pc, consumed, failed))
    }

    /** ... and at every tick so far the handler has moved, or could not. */
    ghost predicate Valid(pc: Pc)
      reads this
    {
      OnTape(pc) && Counted(pc) && Moved(trace)
    }

    /** ... save that it still has to move at the last tick. */
    ghost predicate Due(pc: Pc)
      reads this
    {
      OnTape(pc) && Counted(pc) && Prompt(trace)
    }

    ghost method Record(l: Loop, e: Step, pc: Pc)
      requires next <= |tape| && Prompt(trace) && Ticks(trace) == tape[..next]
      requires !e.Begin? && LoopRun(c, trace) == Some(l) && LoopNext(c, l, e) == Some(Loop(At(pc), tick))
      modifies `trace
      ensures OnTape(pc) && Moved(trace)
    {
      Runs.RunAppend(LoopStep(c), InitialLoop(), trace, e);
      Append(trace, e);
      trace := trace + [e];
    }

    ghost method RecordTick(l: Loop, pc: Pc)
      requires next < |tape| && Moved(trace) && Ticks(trace) == tape[..next] && tick == tape[next]
      requires LoopRun(c, trace) == Some(l) && At(pc) == AllInterfered(c, l.x, tick.env)
      modifies `trace
      ensures LoopRun(c, trace) == Some(Loop(At(pc), tick))
      ensures Ticks(trace) == tape[..next + 1] && Prompt(trace)
    {
      Runs.RunAppend(LoopStep(c), InitialLoop(), trace, Begin(tick));
      Append(trace, Begin(tick));
      trace := trace + [Begin(tick)];
    }

    /** Lets the other actors run until the next tick. */
    method Pause(ghost pc: Pc)
      requires Valid(pc)
      modifies `stopped, `ctxErr, `derivedErr, `receiver, `received, `callback, `finished
      modifies `next, `tick, `counters, `trace
      ensures Due(pc)
      ensures next == if old(next) < |tape| then old(next) + 1 else old(next)
    {
      if next == |tape| { return; }
      TakeTick(pc);
      CountTick(pc);
    }

    /** The adds of the tick just taken. */
    method CountTick(ghost pc: Pc)
      requires next < |tape| && tick == tape[next] && Counted(pc)
      modifies `next, `counters
      ensures next == old(next) + 1 && Counted(pc)
    {
      NextAdds(before, tape, next, Adds(pc, consumed, failed));
      counters, next := Plus(counters, tick.adds), next + 1;
    }

    method TakeTick(ghost pc: Pc)
      requires OnTape(pc) && next < |tape| && Moved(trace)
      modifies `stopped, `ctxErr, `derivedErr, `receiver, `received, `callback, `finished, `tick, `trace
      ensures LoopRun(c, trace) == Some(Loop(At(pc), tick)) && tick == tape[next]
      ensures Ticks(trace) == tape[..next + 1] && Prompt(trace)
    {
      ghost var l := Loop(At(pc), tick);
      tick := tape[next];
      InterfereAll(pc);
      RecordTick(l, pc);
    }

    /** The enabled steps of the tick, in order. */
    method InterfereAll(ghost pc: Pc)
      modifies `stopped, `ctxErr, `derivedErr, `receiver, `received, `callback, `finished
      ensures At(pc) == AllInterfered(c, old(At(pc)), tick.env)
    {
      var i := 0;
      while i < |tick.env|
        invariant 0 <= i <= |tick.env| && At(pc) == AllInterfered(c, old(At(pc)), tick.env[..i])
      {
        assert tick.env[..i + 1][..i] == tick.env[..i];
        Interfere(pc, tick.env[i]);
        i := i + 1;
      }
      assert tick.env[..i] == tick.env;
    }

    method Interfere(ghost pc: Pc, a: CallAction)
      modifies `stopped, `ctxErr, `derivedErr, `receiver, `received, `callback, `finished
      ensures At(pc) == Interfered(c, old(At(pc)), a)
    {
      match a {
        case StopNow => stopped := true;
        case Act(CtxDone(e)) =>
          if ctxErr.None? && (e == CtxCanceled || e == CtxDeadline) { ctxErr := Some(e); }
        case Act(Propagate) =>
          if ctxErr.Some? && derivedErr.None? { derivedErr := ctxErr; }
        case Act(RecvReturns(r)) => FinishReceive(pc, r);
        case Act(CallReturns(err)) => FinishCallback(pc, err);
        case _ =>
      }
    }

    /** The receive goroutine returns. */
    method FinishReceive(ghost pc: Pc, r: Recv)
      modifies `receiver, `received
      ensures At(pc) == Interfered(c, old(At(pc)), Act(RecvReturns(r)))
    {
      if receiver.Receiving? { receiver, received := Received(r), received + [r]; }
    }

    /** The callback goroutine returns. */
    method FinishCallback(ghost pc: Pc, err: Option<Error>)
      modifies `callback, `finished
      ensures At(pc) == Interfered(c, old(At(pc)), Act(CallReturns(err)))
    {
      if callback.Running? { callback, finished := Finished(err), finished + [err]; }
    }

    /** The `cancelled` closure. */
    method CancelledStatus(ghost pc: Pc) returns (st: Option<Status>)
      ensures st == Cancelled(At(pc).s, stopped)
    {
      if ctxErr.Some? { return Some(FromContextError(ctxErr.value)); }
      if stopped { return Some(STOPPED); }
      return None;
    }

    /** One look at the branches of a select; `to` is pc when none is ready. */
    method TryBranch(pc: Pc) returns (to: Pc)
      requires Due(pc) && (pc.AwaitRecv? || pc.AwaitCall?)
      modifies `receiver, `callback, `pending, `outcome, `trace
      ensures Valid(to) && (to == pc || Refusal(to) || to == (if pc.AwaitRecv? then GotRecv else GotCall))
    {
      ghost var l := Loop(At(pc), tick);
      var ready := if pc.AwaitRecv? then receiver.Received? else callback.Finished?;
      if derivedErr.Some? && (tick.pickDone || !ready) {
        to := Returned(Refused(FromContextError(derivedErr.value)));
        Record(l, Do(PickDone), to);
      } else if stopped && (tick.pickStop || !ready) {
        to := Returned(Refused(STOPPED));
        Record(l, Do(PickStop), to);
      } else if !ready {
        to := pc;
        Record(l, Idle, to);
      } else if pc.AwaitRecv? {
        to := GotRecv;
        TakeReceived();
      } else {
        to := GotCall;
        TakeOutcome();
      }
    }

    /** Line 92. */
    method TakeReceived()
      requires Due(AwaitRecv) && receiver.Received? && TakesAnswers(Loop(At(AwaitRecv), tick), PickResult)
      modifies `pending, `receiver, `trace
      ensures Valid(GotRecv)
    {
      ghost var l := Loop(At(AwaitRecv), tick);
      pending, receiver := [receiver.r], NotReceiving;
      assert CallNext(c, l.x, Act(PickResult)) == Some(At(GotRecv));
      Record(l, Do(PickResult), GotRecv);
    }

    /** Line 126. */
    method TakeOutcome()
      requires Due(AwaitCall) && callback.Finished? && TakesAnswers(Loop(At(AwaitCall), tick), PickResult)
      modifies `outcome, `callback, `trace
      ensures Valid(GotCall)
    {
      ghost var l := Loop(At(AwaitCall), tick);
      outcome, callback := [callback.err], NoCallback;
      assert CallNext(c, l.x, Act(PickResult)) == Some(At(GotCall));
      Record(l, Do(PickResult), GotCall);
    }

    /** One tick of waiting at a select. */
    method Look(pc: Pc) returns (to: Pc)
      requires Valid(pc) && (pc.AwaitRecv? || pc.AwaitCall?) && next < |tape|
      modifies `stopped, `ctxErr, `derivedErr, `receiver, `received, `callback, `finished
      modifies `next, `tick, `counters, `trace, `pending, `outcome
      ensures Valid(to) && next == old(next) + 1
      ensures to == pc || Refusal(to) || to == (if pc.AwaitRecv? then GotRecv else GotCall)
    {
      Pause(pc);
      to := TryBranch(pc);
    }

    /** Lines 86-93 and 120-127: waits until a branch of the select is ready and takes it; `to` is pc when
        the tape has ended. */
    method Await(pc: Pc) returns (to: Pc)
      requires Valid(pc) && (pc.AwaitRecv? || pc.AwaitCall?)
      modifies `stopped, `ctxErr, `derivedErr, `receiver, `received, `callback, `finished
      modifies `next, `tick, `counters, `trace, `pending, `outcome
      ensures Valid(to) && old(next) <= next
      ensures (to == pc && next == |tape|) || Refusal(to) || to == (if pc.AwaitRecv? then GotRecv else GotCall)
    {
      to := pc;
      while next < |tape|
        invariant Valid(pc) && old(next) <= next
        decreases |tape| - next
      {
        to := Look(pc);
        if to != pc { return; }
      }
      to := pc;
    }

    predicate Refusal(pc: Pc) { pc.Returned? && pc.o.Refused? }

    /** Lines 97-119, after the check that follows a receive. */
    method DispatchItem() returns (pc: Pc)
      requires Valid(Dispatch) && |pending| == 1
      modifies `pending, `dispatched, `called, `callback, `filtered, `trace
      ensures Valid(pc) && (pc.Returned? || pc.Top? || pc.AwaitCall?)
    {
      var item := pending[0];
      assert pending == [item];
      match item {
        case RecvEof => pc := Finish();
        case RecvEvent(Some(event)) => pc := DispatchEvent(event);
        case _ =>
          ghost var l := Loop(At(Dispatch), tick);
          pc := Returned(Refused(if item.RecvErr? then RECV_FAILED else NIL_EVENT));
          Record(l, Do(Go), pc);
      }
    }

    /** Lines 97-102: the end of the input. */
    method Finish() returns (pc: Pc)
      requires Valid(Dispatch) && pending == [RecvEof]
      modifies `trace
      ensures Valid(pc) && pc.Returned?
    {
      ghost var l := Loop(At(Dispatch), tick);
      if filtered > 0 && consumed + failed == 0 {
        pc := Returned(Refused(NO_MATCH));
        Record(l, Do(Go), pc);
      } else {
        pc := Returned(if tick.replyErr.None? then Acked(Response(consumed, failed, summaries))
                       else AckFailed(tick.replyErr.value));
        Record(l, Do(Reply(tick.replyErr)), pc);
      }
    }

    /** Lines 109-119: filters the event by type, then starts its callback. */
    method DispatchEvent(event: Event) returns (pc: Pc)
      requires Valid(Dispatch) && pending == [RecvEvent(Some(event))]
      modifies `pending, `dispatched, `called, `callback, `filtered, `trace
      ensures Valid(pc)
      ensures pc.Top? <==> c.types != {} && event.eventType !in c.types
      ensures pc.AwaitCall? <==> (c.types == {} || event.eventType in c.types) && c.hasHandler
      ensures pc.Top? || pc.AwaitCall? ||
              pc == Returned(Refused(Status(FailedPrecondition, "consumer handler not configured")))
      ensures called == if pc.AwaitCall? then old(called) + [event] else old(called)
    {
      if |c.types| > 0 && event.eventType !in c.types {
        SkipEvent(event);
        pc := Top;
      } else if !c.hasHandler {
        ghost var l := Loop(At(Dispatch), tick);
        pc := Returned(Refused(NO_HANDLER));
        Record(l, Do(Go), pc);
      } else {
        StartCallback(event);
        pc := AwaitCall;
      }
    }

    /** Lines 109-114. */
    method SkipEvent(event: Event)
      requires Valid(Dispatch) && pending == [RecvEvent(Some(event))] && !Accepts(c, event)
      modifies `pending, `dispatched, `filtered, `trace
      ensures Valid(Top)
    {
      ghost var l := Loop(At(Dispatch), tick);
      Filter(event);
      assert CallNext(c, l.x, Act(Go)) == Some(At(Top));
      Record(l, Do(Go), Top);
    }

    method Filter(event: Event)
      modifies `pending, `dispatched, `filtered
      ensures pending == [] && dispatched == old(dispatched) + [event] && filtered == old(filtered) + 1
    {
      filtered, dispatched, pending := filtered + 1, dispatched + [event], [];
    }

    /** Lines 118-119. */
    method StartCallback(event: Event)
      requires Valid(Dispatch) && pending == [RecvEvent(Some(event))] && Accepts(c, event) && c.hasHandler
      modifies `pending, `dispatched, `called, `callback, `trace
      ensures Valid(AwaitCall) && called == old(called) + [event]
    {
      ghost var l := Loop(At(Dispatch), tick);
      StartGoroutine(event);
      assert CallNext(c, l.x, Act(Go)) == Some(At(AwaitCall));
      Record(l, Do(Go), AwaitCall);
    }

    method StartGoroutine(event: Event)
      modifies `pending, `dispatched, `called, `callback
      ensures pending == [] && dispatched == old(dispatched) + [event]
      ensures called == old(called) + [event] && callback == Running
    {
      called, dispatched, pending, callback := called + [event], dispatched + [event], [], Running;
    }

    /** Lines 131-146, after the check that follows a callback. */
    method Count() returns (pc: Pc)
      requires Valid(Settle) && |outcome| == 1
      modifies `outcome, `settled, `consumed, `failed, `summaries, `counters, `trace, `next, `tick
      modifies `stopped, `ctxErr, `derivedErr, `receiver, `received, `callback, `finished
      ensures Valid(pc) && (Refusal(pc) || pc.Top?) && old(next) <= next
    {
      var err := outcome[0];
      if err.Some? && (Is(err.value, CtxCanceled) || Is(err.value, CtxDeadline)) {
        ghost var l := Loop(At(Settle), tick);
        pc := Returned(Refused(FromContextError(err.value)));
        Record(l, Do(Go), pc);
        return;
      }
      if err.Some? {
        CountFailure(err.value);
      } else {
        CountConsumed();
      }
      CountAgain(err.None?);
      return Top;
    }

    /** The tallies and the first of the two atomic adds; at most eight failures are summarised. */
    method Tally(err: Option<Error>)
      modifies `outcome, `settled, `consumed, `failed, `summaries, `counters
      ensures outcome == [] && settled == old(settled) + [err]
      ensures consumed == old(consumed) + if err.None? then 1 else 0
      ensures failed == old(failed) + if err.Some? then 1 else 0
      ensures summaries == if err.Some? && |old(summaries)| < 8 then old(summaries) + [SUMMARY] else old(summaries)
      ensures counters == old(counters).(consumed := old(counters).consumed + if err.None? then 1 else 0,
                                         failed := old(counters).failed + if err.Some? then 1 else 0)
    {
      settled, outcome := settled + [err], [];
      if err.None? {
        consumed := consumed + 1;
        counters := counters.(consumed := counters.consumed + 1);
      } else {
        failed := failed + 1;
        counters := counters.(failed := counters.failed + 1);
        if |summaries| < 8 { summaries := summaries + [SUMMARY]; }
      }
    }

    /** Lines 136-141: the first atomic add of a failed callback, and its summary. */
    method CountFailure(e: Error)
      requires Valid(Settle) && outcome == [Some(e)] && !IsContextError(e)
      modifies `outcome, `settled, `consumed, `failed, `summaries, `counters, `trace
      ensures Valid(SecondAdd(false))
    {
      ghost var l := Loop(At(Settle), tick);
      Tally(Some(e));
      assert CallNext(c, l.x, Act(Go)) == Some(At(SecondAdd(false)));
      Record(l, Do(Go), SecondAdd(false));
    }

    /** Lines 143-145: the first atomic add of a completed callback. */
    method CountConsumed()
      requires Valid(Settle) && outcome == [None]
      modifies `outcome, `settled, `consumed, `failed, `summaries, `counters, `trace
      ensures Valid(SecondAdd(true))
    {
      ghost var l := Loop(At(Settle), tick);
      Tally(None);
      assert CallNext(c, l.x, Act(Go)) == Some(At(SecondAdd(true)));
      Record(l, Do(Go), SecondAdd(true));
    }

    /** The second atomic add, of the error or success counter. */
    method CountAgain(ok: bool)
      requires Valid(SecondAdd(ok))
      modifies `counters, `trace, `next, `tick
      modifies `stopped, `ctxErr, `derivedErr, `receiver, `received, `callback, `finished
      ensures Valid(Top) && old(next) <= next
    {
      Pause(SecondAdd(ok));
      AddAgain(ok);
    }

    method AddAgain(ok: bool)
      requires Due(SecondAdd(ok))
      modifies `counters, `trace
      ensures Valid(Top)
      ensures counters == if ok then old(counters).(successes := old(counters).successes + 1)
                          else old(counters).(errors := old(counters).errors + 1)
    {
      ghost var l := Loop(At(SecondAdd(ok)), tick);
      if ok {
        counters := counters.(successes := counters.successes + 1);
      } else {
        counters := counters.(errors := counters.errors + 1);
      }
      Record(l, Do(Go), Top);
    }

    /** Consume.  It returns an outcome, or is cut off where it waits when the tape ends.  Either way it has only
        taken steps of the machine, on exactly the interference and the answers of the tape, and has moved at
        every tick at which it was able to; its tallies are the sequential fold of what it counted, and the
        service's counters have moved by exactly those tallies beside what the others added. */
    method Consume() returns (pc: Pc)
      requires Valid(Top)
      modifies this
      ensures Valid(pc) && Inv(c, At(pc).s)
      ensures pc.Returned? || (next == |tape| && (pc.Top? || pc.AwaitRecv? || pc.AwaitCall?))
      ensures counters == Plus(Plus(before, AllAdds(tape[..next])), Counters(consumed, failed, failed, consumed))
      ensures pc.Returned? ==> Explained(c, At(pc))
      ensures exists at :: Collects(dispatched, Endings.Passed(c), called, at)
      ensures pc.Returned? && pc.o.Acked? ==>
                && received == AsRecv(dispatched) + [RecvEof]
                && called == Accepted(c, dispatched) && |settled| == |called|
                && pc.o.r == (var t := Fold(c, dispatched, settled);
                              Response(t.consumed, t.failed, Summaries(t.failed)))
    {
      pc := ConsumeLoop();
      EveryLoopKeepsInv(c, trace);
      assert Calls(c, At(pc).s);
      var at := Endings.AcceptedIsSelected(c, dispatched);
      if pc.Returned? {
        EveryLoopReturnsForACause(c, trace);
        if pc.o.Acked? {
          AckMeansDrained(c, At(pc).s);
        }
      }
    }

    method ConsumeLoop() returns (pc: Pc)
      requires Valid(Top)
      modifies this
      ensures Valid(pc)
      ensures pc.Returned? || (next == |tape| && (pc.Top? || pc.AwaitRecv? || pc.AwaitCall?))
    {
      pc := Top;
      while pc.Top? && next < |tape|
        invariant Valid(Top) && pc == Top
        decreases |tape| - next
      {
        pc := CheckThen(Top, Spawn);
        if pc.Returned? { break; }
        pc := HandleOne();
        if !pc.Top? { break; }
      }
    }

    /** Lines 84-85: the receive goroutine is started. */
    method StartReceive()
      requires Valid(Spawn)
      modifies `receiver, `recvsStarted, `trace
      ensures Valid(AwaitRecv)
    {
      ghost var l := Loop(At(Spawn), tick);
      receiver, recvsStarted := Receiving, recvsStarted + 1;
      assert CallNext(c, l.x, Act(Go)) == Some(At(AwaitRecv));
      Record(l, Do(Go), AwaitRecv);
    }

    /** One receive. */
    method ReceiveOne() returns (pc: Pc)
      requires Valid(Spawn)
      modifies this
      ensures Valid(pc) && old(next) <= next
      ensures Refusal(pc) || (pc.Dispatch? && |pending| == 1) || (next == |tape| && pc.AwaitRecv?)
    {
      StartReceive();
      pc := Await(AwaitRecv);
      if !pc.GotRecv? { return; }
      pc := CheckThen(GotRecv, Dispatch);
      EveryLoopKeepsInv(c, trace);
    }

    /** One receive and, for an accepted event, its callback. */
    method HandleOne() returns (pc: Pc)
      requires Valid(Spawn)
      modifies this
      ensures Valid(pc) && old(next) <= next
      ensures pc.Returned? || pc.Top? || (next == |tape| && (pc.AwaitRecv? || pc.AwaitCall?))
    {
      pc := ReceiveOne();
      if !pc.Dispatch? { return; }
      pc := DispatchItem();
      if !pc.AwaitCall? { return; }
      pc := Await(AwaitCall);
      if !pc.GotCall? { return; }
      pc := CheckThen(GotCall, Settle);
      if pc.Returned? { return; }
      EveryLoopKeepsInv(c, trace);
      pc := Count();
    }

    predicate Checks(from: Pc, to: Pc)
    {
      (from.Top? && to.Spawn?) || (from.GotRecv? && to.Dispatch?) || (from.GotCall? && to.Settle?)
    }

    /** The check made before each receive and after each select. */
    method CheckThen(from: Pc, to: Pc) returns (pc: Pc)
      requires Valid(from) && Checks(from, to)
      modifies `stopped, `ctxErr, `derivedErr, `receiver, `received, `callback, `finished
      modifies `next, `tick, `counters, `trace
      ensures Valid(pc) && (pc == to || Refusal(pc)) && old(next) <= next
      ensures old(next) < |tape| ==> old(next) < next
    {
      Pause(from);
      pc := CheckNow(from, to);
    }

    method CheckNow(from: Pc, to: Pc) returns (pc: Pc)
      requires Due(from) && Checks(from, to)
      modifies `trace
      ensures Valid(pc) && (pc == to || Refusal(pc))
    {
      var st := CancelledStatus(from);
      pc := if st.Some? then Returned(Refused(st.value)) else to;
      Record(Loop(At(from), tick), Do(Go), pc);
    }
  }
}
