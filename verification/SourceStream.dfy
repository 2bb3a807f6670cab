/** One streamWithResult call of a source and everything that runs beside it (pkg/source/source.go):
    the handler, the watcher goroutine, the producer, the client and Stop, as labelled steps. */
module SourceStream {
  import opened Basics
  import opened Errors
  import Runs
  import Sums

  /** Bounded flag and channel capacities of the producer's stream. */
  datatype Config = Config(bounded: bool, eventCap: nat, resultCap: nat)

  datatype Watcher = Watching | Cancelling | Exited

  /** What the producer function hands back. */
  datatype StartResult = StartFailed(e: Error) | Incomplete | Stream

  /** Memory shared between the handler and the other actors.  `produced` and `queued` record
      everything ever sent into the two channels. */
  datatype World = World(
    clientErr: Option<Error>, ctxErr: Option<Error>, stopped: bool, watcher: Watcher,
    buf: seq<Option<Event>>, closed: bool, produced: seq<Option<Event>>,
    results: seq<Option<Error>>, resultsClosed: bool, queued: seq<Option<Error>>)

  /** The handler's next statement. */
  datatype Pc =
    | Starting | Started(r: StartResult)
    | Top | Select | Got | Checked | Sending | CountProcessed | CountSuccess
    | Eof | TakeResult | LenCheck(t: Option<Error>) | Judge(t: Option<Error>)
    | Failing(e: Error)
    | Deferred(st: Option<Status>) | Joining(st: Option<Status>) | Done(st: Option<Status>)

  /** `held` is the event taken from the channel and not yet sent; `judgedQueue` is `queued` as it
      was when the handler had seen no second result. */
  datatype State = State(
    w: World, pc: Pc, held: seq<Option<Event>>, delivered: seq<Event>, sends: nat,
    taken: seq<Option<Error>>, judgedQueue: seq<Option<Error>>,
    processed: nat, succeeded: nat, errors: nat, unhealthy: bool)

  datatype EnvAction =
    | ClientGone(e: Error) | Propagate | Stop
    | WatchStop | WatchCtx | WatchCancel
    | Produce(ev: Option<Event>) | CloseEvents
    | QueueResult(t: Option<Error>) | CloseResults

  /** The last two hand a value over directly, as an unbuffered channel does. */
  datatype HandlerAction =
    | Returns(r: StartResult) | Go | PickDone | PickEvents | SendReturns(err: Option<Error>)
    | Handoff(ev: Option<Event>) | HandoffResult(t: Option<Error>)

  datatype Action = Env(e: EnvAction) | Handler(h: HandlerAction)

  const INCOMPLETE := Plain("producer returned incomplete stream")
  const NIL_EVENT := Plain("nil producer event")
  const MISSING_RESULT := Plain("missing terminal result")
  const MULTIPLE_RESULTS := Plain("multiple terminal results")
  const UNBOUNDED_END := Plain("unbounded producer ended without cancellation")

  function Cancelled(err: Option<Error>): (r: Option<Error>)
  {
    if err.Some? then err else Some(CtxCanceled)
  }

  function EnvNext(c: Config, w: World, a: EnvAction): (r: Option<World>)
  {
    match a
    case ClientGone(e) =>
      if w.clientErr.None? && (e == CtxCanceled || e == CtxDeadline) then Some(w.(clientErr := Some(e))) else None
    case Propagate =>
      if w.clientErr.Some? && w.ctxErr.None? then Some(w.(ctxErr := w.clientErr)) else None
    case Stop => if !w.stopped then Some(w.(stopped := true)) else None
    case WatchStop => if w.watcher.Watching? && w.stopped then Some(w.(watcher := Cancelling)) else None
    case WatchCtx => if w.watcher.Watching? && w.ctxErr.Some? then Some(w.(watcher := Exited)) else None
    case WatchCancel =>
      if w.watcher.Cancelling? then Some(w.(ctxErr := Cancelled(w.ctxErr), watcher := Exited)) else None
    case Produce(ev) =>
      if !w.closed && |w.buf| < c.eventCap then Some(w.(buf := w.buf + [ev], produced := w.produced + [ev])) else None
    case CloseEvents => if !w.closed then Some(w.(closed := true)) else None
    case QueueResult(t) =>
      if !w.resultsClosed && |w.results| < c.resultCap
      then Some(w.(results := w.results + [t], queued := w.queued + [t])) else None
    case CloseResults => if !w.resultsClosed then Some(w.(resultsClosed := true)) else None
  }

  /** Return with the status of the context error, if there is one. */
  function OrCancelled(s: State, next: Pc): (r: State)
  {
    if s.w.ctxErr.Some? then s.(pc := Deferred(Some(StreamStatus(s.w.ctxErr.value)))) else s.(pc := next)
  }

  function GoNext(c: Config, s: State): (r: Option<State>)
  {
    match s.pc
    case Started(StartFailed(e)) => Some(OrCancelled(s, Failing(e)))
    case Started(Incomplete) => Some(OrCancelled(s, Failing(INCOMPLETE)))
    case Started(Stream) => Some(OrCancelled(s, Top))
    case Top => Some(OrCancelled(s, Select))
    case Got => Some(OrCancelled(s, Checked))
    case Checked =>
      if s.held == [] then None
      else if s.held[0].None? then Some(s.(pc := Failing(NIL_EVENT)))
      else Some(s.(pc := Sending, sends := s.sends + 1))
    case CountProcessed => Some(s.(processed := s.processed + 1, pc := CountSuccess))
    case CountSuccess => Some(s.(succeeded := s.succeeded + 1, pc := Top))
    case Eof => Some(OrCancelled(s, TakeResult))
    case TakeResult =>
      if s.w.results != []
      then Some(s.(w := s.w.(results := s.w.results[1..]), taken := s.taken + [s.w.results[0]],
                   pc := LenCheck(s.w.results[0])))
      else Some(s.(pc := Failing(MISSING_RESULT)))
    case LenCheck(t) =>
      if s.w.results != [] then Some(s.(pc := Failing(MULTIPLE_RESULTS)))
      else Some(s.(judgedQueue := s.w.queued, pc := Judge(t)))
    case Judge(Some(e)) =>
      if Is(e, CtxCanceled) && s.w.ctxErr.Some? then Some(s.(pc := Deferred(Some(StreamStatus(s.w.ctxErr.value)))))
      else Some(s.(pc := Failing(e)))
    case Judge(None) => Some(s.(pc := if c.bounded then Deferred(None) else Failing(UNBOUNDED_END)))
    case Failing(e) =>
      Some(s.(errors := s.errors + 1, unhealthy := s.unhealthy || MarksUnhealthy(e),
              pc := Deferred(Some(StreamStatus(e)))))
    case Deferred(st) => Some(s.(w := s.w.(ctxErr := Cancelled(s.w.ctxErr)), pc := Joining(st)))
    case Joining(st) => if s.w.watcher.Exited? then Some(s.(pc := Done(st))) else None
    case _ => None
  }

  function HandlerNext(c: Config, s: State, a: HandlerAction): (r: Option<State>)
  {
    match a
    case Returns(r) => if s.pc.Starting? then Some(s.(pc := Started(r))) else None
    case Go => GoNext(c, s)
    case PickDone =>
      if s.pc.Select? && s.w.ctxErr.Some? then Some(s.(pc := Deferred(Some(StreamStatus(s.w.ctxErr.value))))) else None
    case PickEvents =>
      if !s.pc.Select? then None
      else if s.w.buf != [] then Some(s.(w := s.w.(buf := s.w.buf[1..]), held := [s.w.buf[0]], pc := Got))
      else if s.w.closed then Some(s.(pc := Eof))
      else None
    case SendReturns(None) =>
      if s.pc.Sending? && s.held != [] && s.held[0].Some?
      then Some(s.(delivered := s.delivered + [s.held[0].value], held := [], pc := CountProcessed)) else None
    case SendReturns(Some(e)) =>
      if s.pc.Sending?
      then Some(s.(pc := Deferred(Some(StreamStatus(StreamError(DOWNSTREAM_UNAVAILABLE, Some(e))))))) else None
    case Handoff(ev) =>
      if s.pc.Select? && c.eventCap == 0 && !s.w.closed && s.w.buf == []
      then Some(s.(w := s.w.(produced := s.w.produced + [ev]), held := [ev], pc := Got)) else None
    case HandoffResult(t) =>
      if s.pc.TakeResult? && c.resultCap == 0 && !s.w.resultsClosed && s.w.results == []
      then Some(s.(w := s.w.(queued := s.w.queued + [t]), taken := s.taken + [t], pc := LenCheck(t))) else None
  }

  function Next(c: Config, s: State, a: Action): (r: Option<State>)
  {
    match a
    case Env(e) =>
      var w := EnvNext(c, s.w, e);
      if w.Some? then Some(s.(w := w.value)) else None
    case Handler(h) => HandlerNext(c, s, h)
  }

  const INITIAL_WORLD := World(None, None, false, Watching, [], false, [], [], false, [])
  const INITIAL := State(INITIAL_WORLD, Starting, [], [], 0, [], [], 0, 0, 0, false)

  function Step(c: Config): (f: (State, Action) -> Option<State>)
  {
    (s, a) => Next(c, s, a)
  }

  /** The state after a list of actions from the start of the call. */
  function Run(c: Config, acts: seq<Action>): (r: Option<State>)
  {
    Runs.Run(Step(c), INITIAL, acts)
  }

  // ----- what every step keeps

  predicate Returning(pc: Pc) { pc.Deferred? || pc.Joining? || pc.Done? }

  /** Before the return value is fixed. */
  predicate Active(pc: Pc) { !Returning(pc) }

  predicate AfterEof(pc: Pc) { pc.Eof? || pc.TakeResult? || pc.LenCheck? || pc.Judge? }

  /** Everything that must be true for the stream to end with OK. */
  ghost predicate Drained(c: Config, s: State)
  {
    && c.bounded && s.w.closed && s.w.buf == [] && s.held == []
    && s.taken == [None] && s.judgedQueue == [None]
  }

  /** The two channels against what was taken from them. */
  ghost predicate Queues(s: State)
  {
    && s.w.produced == Somes(s.delivered) + s.held + s.w.buf
    && |s.held| <= 1
    && (s.pc.Got? || s.pc.Checked? || s.pc.Sending? ==> |s.held| == 1)
    && (s.pc.Sending? ==> s.held[0].Some?)
    && (Active(s.pc) && !(s.pc.Got? || s.pc.Checked? || s.pc.Sending? || s.pc.Failing?) ==> s.held == [])
    && s.w.queued == s.taken + s.w.results
    && (AfterEof(s.pc) ==> s.w.closed && s.w.buf == [])
  }

  ghost predicate Results(c: Config, s: State)
  {
    && (s.pc.LenCheck? || s.pc.Judge? ==> s.taken == [s.pc.t])
    && (s.pc.Judge? ==> s.judgedQueue == [s.pc.t])
    && (Active(s.pc) && !(s.pc.LenCheck? || s.pc.Judge? || s.pc.Failing?) ==> s.taken == [])
    && (Returning(s.pc) && s.pc.st.None? ==> Drained(c, s))
  }

  ghost predicate Counts(s: State)
  {
    && s.processed == |s.delivered| - (if s.pc.CountProcessed? then 1 else 0)
    && s.succeeded == |s.delivered| - (if s.pc.CountProcessed? || s.pc.CountSuccess? then 1 else 0)
    && |s.delivered| <= s.sends <= |s.delivered| + 1
    && (Active(s.pc) ==> s.sends == |s.delivered| + if s.pc.Sending? then 1 else 0)
    && (Active(s.pc) ==> s.errors == 0 && !s.unhealthy)
    && (s.unhealthy ==> s.errors == 1)
  }

  ghost predicate Lifecycle(s: State)
  {
    && (s.w.watcher.Cancelling? ==> s.w.stopped)
    && (s.w.watcher.Exited? ==> s.w.ctxErr.Some?)
    && (s.pc.Joining? || s.pc.Done? ==> s.w.ctxErr.Some?)
    && (s.pc.Done? ==> s.w.watcher.Exited?)
    && (s.w.ctxErr.Some? && (Active(s.pc) || s.pc.Deferred?) ==> s.w.stopped || s.w.clientErr.Some?)
  }

  ghost predicate Inv(c: Config, s: State)
  {
    Queues(s) && Results(c, s) && Counts(s) && Lifecycle(s)
  }

  lemma EnvKeepsInv(c: Config, s: State, a: EnvAction)
    requires Inv(c, s) && Next(c, s, Env(a)).Some?
    ensures Inv(c, Next(c, s, Env(a)).value)
  {
    var t := Next(c, s, Env(a)).value;
    match a
    case Produce(ev) => assert t.w.produced == Somes(t.delivered) + t.held + t.w.buf;
    case QueueResult(r) => assert t.w.queued == t.taken + t.w.results;
    case _ =>
  }

  lemma ResultKeepsQueues(c: Config, s: State)
    requires Queues(s) && (s.pc.TakeResult? || s.pc.LenCheck? || s.pc.Judge?) && GoNext(c, s).Some?
    ensures Queues(GoNext(c, s).value)
  {
    assert s.pc.TakeResult? && s.w.results != [] ==> s.w.results == [s.w.results[0]] + s.w.results[1..];
  }

  lemma GoKeepsQueues(c: Config, s: State)
    requires Queues(s) && GoNext(c, s).Some?
    ensures Queues(GoNext(c, s).value)
  {
    if s.pc.TakeResult? || s.pc.LenCheck? || s.pc.Judge? {
      ResultKeepsQueues(c, s);
    } else if s.pc.Failing? || Returning(s.pc) {
    } else {
    }
  }

  lemma SendKeepsQueues(c: Config, s: State)
    requires Queues(s) && HandlerNext(c, s, SendReturns(None)).Some?
    ensures Queues(HandlerNext(c, s, SendReturns(None)).value)
  {
    SomesAppend(s.delivered, s.held[0].value);
    assert s.held == [Some(s.held[0].value)];
  }

  lemma HandlerKeepsQueues(c: Config, s: State, a: HandlerAction)
    requires Queues(s) && HandlerNext(c, s, a).Some?
    requires a.HandoffResult? ==> s.taken == []
    ensures Queues(HandlerNext(c, s, a).value)
  {
    var t := HandlerNext(c, s, a).value;
    match a
    case Go => GoKeepsQueues(c, s);
    case PickEvents => assert s.w.buf != [] ==> s.w.buf == [s.w.buf[0]] + s.w.buf[1..];
    case SendReturns(None) => SendKeepsQueues(c, s);
    case Handoff(ev) => assert t.w.produced == Somes(t.delivered) + t.held + t.w.buf;
    case _ =>
  }

  lemma GoKeepsResults(c: Config, s: State)
    requires Queues(s) && Results(c, s) && GoNext(c, s).Some?
    ensures Results(c, GoNext(c, s).value)
  {
    match s.pc
    case Started(_) =>
    case TakeResult =>
    case Judge(_) =>
    case _ =>
  }

  lemma HandlerKeepsResults(c: Config, s: State, a: HandlerAction)
    requires Queues(s) && Results(c, s) && HandlerNext(c, s, a).Some?
    ensures Results(c, HandlerNext(c, s, a).value)
  {
    match a
    case Go => GoKeepsResults(c, s);
    case SendReturns(e) =>
    case Handoff(ev) =>
    case HandoffResult(t) =>
    case _ =>
  }

  lemma EventGoKeepsCounts(c: Config, s: State)
    requires !(s.pc.Failing? || Returning(s.pc)) && Counts(s) && GoNext(c, s).Some?
    ensures Counts(GoNext(c, s).value)
  {
    if s.pc.TakeResult? || s.pc.LenCheck? || s.pc.Judge? {
    } else {
    }
  }

  lemma EndGoKeepsCounts(c: Config, s: State)
    requires (s.pc.Failing? || Returning(s.pc)) && Counts(s) && GoNext(c, s).Some?
    ensures Counts(GoNext(c, s).value)
  {
  }

  lemma HandlerKeepsCounts(c: Config, s: State, a: HandlerAction)
    requires Counts(s) && HandlerNext(c, s, a).Some?
    ensures Counts(HandlerNext(c, s, a).value)
  {
    if a.Go? {
      if s.pc.Failing? || Returning(s.pc) {
        EndGoKeepsCounts(c, s);
      } else {
        EventGoKeepsCounts(c, s);
      }
    }
  }

  lemma HandlerKeepsLifecycle(c: Config, s: State, a: HandlerAction)
    requires Lifecycle(s) && HandlerNext(c, s, a).Some?
    ensures Lifecycle(HandlerNext(c, s, a).value)
  {
    if a.Go? {
      if s.pc.Failing? || Returning(s.pc) {
      } else if s.pc.Started? || s.pc.Judge? {
      } else {
      }
    }
  }

  lemma StepKeepsInv(c: Config, s: State, a: Action)
    requires Inv(c, s) && Next(c, s, a).Some?
    ensures Inv(c, Next(c, s, a).value)
  {
    match a
    case Env(e) => EnvKeepsInv(c, s, e);
    case Handler(h) =>
      HandlerKeepsQueues(c, s, h);
      HandlerKeepsResults(c, s, h);
      HandlerKeepsCounts(c, s, h);
      HandlerKeepsLifecycle(c, s, h);
  }

  lemma EveryRunKeepsInv(c: Config, acts: seq<Action>)
    requires Run(c, acts).Some?
    ensures Inv(c, Run(c, acts).value)
  {
    forall s, a | Inv(c, s) && Step(c)(s, a).Some?
      ensures Inv(c, Step(c)(s, a).value)
    {
      StepKeepsInv(c, s, a);
    }
    Runs.Invariant(Step(c), s => Inv(c, s), INITIAL, acts);
  }

  /** In every reachable state what was produced is what was delivered, then at most one event in
      the handler's hand, then the channel's buffer; the counters trail the deliveries. */
  lemma Conservation(c: Config, acts: seq<Action>)
    requires Run(c, acts).Some?
    ensures var s := Run(c, acts).value;
            && s.w.produced == Somes(s.delivered) + s.held + s.w.buf && |s.held| <= 1
            && s.w.queued == s.taken + s.w.results
            && |s.delivered| - 1 <= s.succeeded <= s.processed <= |s.delivered|
            && |s.delivered| <= s.sends <= |s.delivered| + 1
  {
    EveryRunKeepsInv(c, acts);
  }

  /** OK means: a bounded producer closed its channel, everything it produced was delivered in
      order and counted, and exactly one result, nil, had been queued. */
  lemma OkMeansDrained(c: Config, acts: seq<Action>)
    requires Run(c, acts).Some? && Run(c, acts).value.pc == Done(None)
    ensures var s := Run(c, acts).value;
            && c.bounded && s.w.closed && s.w.buf == []
            && s.w.produced == Somes(s.delivered)
            && s.taken == [None] && s.judgedQueue == [None]
            && s.processed == s.succeeded == |s.delivered|
  {
    EveryRunKeepsInv(c, acts);
    var s := Run(c, acts).value;
    assert s.w.produced == Somes(s.delivered);
  }

  // ----- reasons for ending without OK

  predicate ContextError(e: Error) { e == CtxCanceled || e == CtxDeadline }

  /** A call that ends without OK has failed once, or was cancelled, or lost its client while sending. */
  ghost predicate Reasons(s: State)
  {
    && (s.w.clientErr.Some? ==> ContextError(s.w.clientErr.value))
    && (s.w.ctxErr.Some? ==> ContextError(s.w.ctxErr.value))
    && (Returning(s.pc) && s.pc.st.Some? && s.errors == 0 ==>
          || (s.pc.st.value.code in {Code.Canceled, Code.DeadlineExceeded} && (s.w.stopped || s.w.clientErr.Some?))
          || (s.pc.st.value.code == Unavailable && s.sends == |s.delivered| + 1))
  }

  lemma ContextStatus(e: Error)
    requires ContextError(e)
    ensures StreamStatus(e).code in {Code.Canceled, Code.DeadlineExceeded}
  {
  }

  lemma SendFailureStatus(e: Error)
    ensures StreamStatus(StreamError(DOWNSTREAM_UNAVAILABLE, Some(e))).code == Unavailable
  {
  }

  lemma EndKeepsReasons(c: Config, s: State)
    requires (s.pc.Failing? || Returning(s.pc)) && Reasons(s) && GoNext(c, s).Some?
    ensures Reasons(GoNext(c, s).value)
  {
  }

  lemma ResultKeepsReasons(c: Config, s: State)
    requires (s.pc.TakeResult? || s.pc.LenCheck? || s.pc.Judge?) && Lifecycle(s) && Reasons(s) && GoNext(c, s).Some?
    ensures Reasons(GoNext(c, s).value)
  {
    if s.w.ctxErr.Some? {
      ContextStatus(s.w.ctxErr.value);
    }
  }

  lemma GoKeepsReasons(c: Config, s: State)
    requires Lifecycle(s) && Reasons(s) && GoNext(c, s).Some?
    ensures Reasons(GoNext(c, s).value)
  {
    if s.pc.Failing? || Returning(s.pc) {
      EndKeepsReasons(c, s);
    } else if s.pc.TakeResult? || s.pc.LenCheck? || s.pc.Judge? {
      ResultKeepsReasons(c, s);
    } else if s.w.ctxErr.Some? {
      ContextStatus(s.w.ctxErr.value);
    } else {
    }
  }

  lemma HandlerKeepsReasons(c: Config, s: State, h: HandlerAction)
    requires Counts(s) && Lifecycle(s) && Reasons(s) && !h.Go? && HandlerNext(c, s, h).Some?
    ensures Reasons(HandlerNext(c, s, h).value)
  {
    if h.PickDone? {
      ContextStatus(s.w.ctxErr.value);
    } else if h.SendReturns? && h.err.Some? {
      SendFailureStatus(h.err.value);
    } else {
      assert Active(HandlerNext(c, s, h).value.pc) && HandlerNext(c, s, h).value.w.ctxErr == s.w.ctxErr;
    }
  }

  lemma EnvKeepsReasons(c: Config, s: State, e: EnvAction)
    requires Reasons(s) && EnvNext(c, s.w, e).Some?
    ensures Reasons(s.(w := EnvNext(c, s.w, e).value))
  {
  }

  lemma StepKeepsReasons(c: Config, s: State, a: Action)
    requires Queues(s) && Counts(s) && Lifecycle(s) && Reasons(s) && Next(c, s, a).Some?
    ensures Reasons(Next(c, s, a).value)
  {
    if a.Env? {
      EnvKeepsReasons(c, s, a.e);
    } else if a.h.Go? {
      GoKeepsReasons(c, s);
    } else {
      HandlerKeepsReasons(c, s, a.h);
    }
  }

  /** A call that counts no error leaves health alone, and then it ended OK, or it was cancelled by a
      stop or by its client, or its client went away during a Send. */
  lemma QuietEndings(c: Config, acts: seq<Action>)
    requires Run(c, acts).Some? && Returning(Run(c, acts).value.pc) && Run(c, acts).value.errors == 0
    ensures var s := Run(c, acts).value;
            && !s.unhealthy
            && (s.pc.st.None?
                || (s.pc.st.value.code in {Code.Canceled, Code.DeadlineExceeded}
                    && (s.w.stopped || s.w.clientErr.Some?))
                || (s.pc.st.value.code == Unavailable && s.sends == |s.delivered| + 1))
  {
    var inv := t => Inv(c, t) && Reasons(t);
    forall t, a | inv(t) && Step(c)(t, a).Some?
      ensures inv(Step(c)(t, a).value)
    {
      StepKeepsInv(c, t, a);
      StepKeepsReasons(c, t, a);
    }
    Runs.Invariant(Step(c), inv, INITIAL, acts);
  }

  // ----- cancellation and cleanup

  /** Sends that may still start once the context is cancelled. */
  function SendAllowance(pc: Pc): (r: nat)
  {
    if pc.Checked? then 1 else 0
  }

  /** A step that the call itself can take: handler, watcher, or the derived context noticing its parent. */
  predicate Own(a: Action)
  {
    a.Handler? || a.e.WatchStop? || a.e.WatchCtx? || a.e.WatchCancel? || a.e.Propagate?
  }

  /** Steps the handler and the watcher still have once the context is cancelled. */
  function StepsLeft(s: State): (r: int)
    ensures 0 <= r <= 9
  {
    (match s.pc
     case Done(_) => 0 case Joining(_) => 1 case Deferred(_) => 2
     case Failing(_) => 3 case Judge(_) => 4 case LenCheck(_) => 5 case TakeResult => 6
     case Top => 3 case CountSuccess => 4 case CountProcessed => 5 case Sending => 6 case Checked => 7
     case Got => 3 case Eof => 3 case Select => 4 case Started(_) => 3 case Starting => 4)
    + match s.w.watcher case Watching => 2 case Cancelling => 1 case Exited => 0
  }

  function OwnWeight(a: Action): (r: int)
  {
    if Own(a) then 1 else 0
  }

  /** t follows s by a step of a cancelled call that costs it `spent` of its steps. */
  ghost predicate Closer(s: State, t: State, spent: int)
  {
    && t.w.ctxErr == s.w.ctxErr && s.sends <= t.sends
    && t.sends + SendAllowance(t.pc) <= s.sends + SendAllowance(s.pc)
    && StepsLeft(t) + spent <= StepsLeft(s)
  }

  lemma CancelledEndGo(c: Config, s: State)
    requires s.w.ctxErr.Some? && (s.pc.Failing? || Returning(s.pc)) && GoNext(c, s).Some?
    ensures Closer(s, GoNext(c, s).value, 1)
  {
  }

  lemma CancelledResultGo(c: Config, s: State)
    requires s.w.ctxErr.Some? && (s.pc.TakeResult? || s.pc.LenCheck? || s.pc.Judge?) && GoNext(c, s).Some?
    ensures Closer(s, GoNext(c, s).value, 1)
  {
  }

  lemma CancelledEventGo(c: Config, s: State)
    requires s.w.ctxErr.Some? && !(s.pc.TakeResult? || s.pc.LenCheck? || s.pc.Judge?)
    requires !(s.pc.Failing? || Returning(s.pc)) && GoNext(c, s).Some?
    ensures Closer(s, GoNext(c, s).value, 1)
  {
  }

  lemma CancelledEnv(c: Config, s: State, e: EnvAction)
    requires s.w.ctxErr.Some? && EnvNext(c, s.w, e).Some?
    ensures Closer(s, s.(w := EnvNext(c, s.w, e).value), OwnWeight(Env(e)))
  {
  }

  lemma CancelledHandler(c: Config, s: State, h: HandlerAction)
    requires s.w.ctxErr.Some? && !h.Go? && HandlerNext(c, s, h).Some?
    ensures Closer(s, HandlerNext(c, s, h).value, 1)
  {
  }

  lemma CancelledStep(c: Config, s: State, a: Action)
    requires s.w.ctxErr.Some? && Next(c, s, a).Some?
    ensures Closer(s, Next(c, s, a).value, OwnWeight(a))
  {
    if a.Env? {
      CancelledEnv(c, s, a.e);
    } else if !a.h.Go? {
      CancelledHandler(c, s, a.h);
    } else if s.pc.Failing? || Returning(s.pc) {
      CancelledEndGo(c, s);
    } else if s.pc.TakeResult? || s.pc.LenCheck? || s.pc.Judge? {
      CancelledResultGo(c, s);
    } else {
      CancelledEventGo(c, s);
    }
  }

  /** From any state whose context is cancelled, at most one more Send starts. */
  lemma AtMostOneSendAfterCancel(c: Config, s: State, acts: seq<Action>)
    requires s.w.ctxErr.Some? && Runs.Run(Step(c), s, acts).Some?
    ensures var t := Runs.Run(Step(c), s, acts).value;
            t.w.ctxErr == s.w.ctxErr && s.sends <= t.sends <= s.sends + 1
  {
    var kept := (t: State) =>
      t.w.ctxErr == s.w.ctxErr && s.sends <= t.sends
      && t.sends + SendAllowance(t.pc) <= s.sends + SendAllowance(s.pc);
    forall t, a | kept(t) && Step(c)(t, a).Some?
      ensures kept(Step(c)(t, a).value)
    {
      CancelledStep(c, t, a);
    }
    Runs.Invariant(Step(c), kept, s, acts);
  }

  /** On every return path the context is cancelled and the watcher has finished; and nothing but
      a stop, the client or the return itself cancels the context. */
  lemma ReturnCleansUp(c: Config, acts: seq<Action>)
    requires Run(c, acts).Some?
    ensures var s := Run(c, acts).value;
            && (s.pc.Done? ==> s.w.ctxErr.Some? && s.w.watcher.Exited?)
            && (s.w.ctxErr.Some? ==> s.w.stopped || s.w.clientErr.Some? || s.pc.Joining? || s.pc.Done?)
  {
    EveryRunKeepsInv(c, acts);
  }

  /** A step that unblocks the call once it has been stopped or its client has gone. */
  function Wake(c: Config, s: State): (a: Action)
  {
    match s.pc
    case Starting => Handler(Returns(Incomplete))
    case Sending => Handler(SendReturns(Some(CtxCanceled)))
    case Select =>
      if s.w.ctxErr.Some? then Handler(PickDone)
      else if s.w.clientErr.Some? then Env(Propagate)
      else if s.w.watcher.Cancelling? then Env(WatchCancel)
      else Env(WatchStop)
    case Joining(_) =>
      if s.w.watcher.Exited? then Handler(Go)
      else if s.w.watcher.Cancelling? then Env(WatchCancel)
      else Env(WatchCtx)
    case _ => Handler(Go)
  }

  /** With stop requested or the client gone, a call that has not returned can always move; it
      only ever waits for the producer function or for Send, both of which get the context. */
  lemma NeverStuckAfterStop(c: Config, acts: seq<Action>)
    requires Run(c, acts).Some?
    ensures var s := Run(c, acts).value;
            (s.w.stopped || s.w.clientErr.Some?) && !s.pc.Done? ==>
              Own(Wake(c, s)) && Next(c, s, Wake(c, s)).Some?
  {
    EveryRunKeepsInv(c, acts);
  }

  /** Once the context is cancelled the call is over after at most nine steps of its own, whatever
      the producer and the client do meanwhile. */
  lemma CancelledCallEndsSoon(c: Config, s: State, acts: seq<Action>)
    requires s.w.ctxErr.Some? && Runs.Run(Step(c), s, acts).Some?
    ensures Sums.Total(OwnWeight, acts) <= StepsLeft(s) <= 9
  {
    var cancelled := (t: State) => t.w.ctxErr.Some?;
    forall t, a | cancelled(t) && Step(c)(t, a).Some?
      ensures cancelled(Step(c)(t, a).value)
      ensures StepsLeft(Step(c)(t, a).value) + OwnWeight(a) <= StepsLeft(t)
    {
      CancelledStep(c, t, a);
    }
    Runs.Potential(Step(c), cancelled, StepsLeft, OwnWeight, s, acts);
  }
}
