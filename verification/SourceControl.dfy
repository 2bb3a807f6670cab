/** Producer registration and the exclusive streaming flag (pkg/source/source.go:111-137, 259-280),
    for any number of concurrent calls. */
module SourceControl {
  import opened Basics
  import Runs
  import Sums

  datatype ControlError = ProducerNotSet | ProducerConflict | AlreadyStreaming

  /** The fields guarded by the source's mutex. */
  datatype Control<P> = Control(streaming: bool, producer: Option<P>, streamProducer: Option<P>)

  /** How an admitted RPC is served, fixed by the producers it read under the lock. */
  datatype Mode<P> = WithResult(p: P) | Legacy(p: P) | NoProducer

  function ModeOf<P>(g: Control<P>): (m: Mode<P>)
  {
    if g.streamProducer.Some? then WithResult(g.streamProducer.value)
    else if g.producer.Some? then Legacy(g.producer.value)
    else NoProducer
  }

  function AfterOnProduce<P>(g: Control<P>, p: Option<P>): (r: (Control<P>, Option<ControlError>))
  {
    if p.None? then (g, Some(ProducerNotSet))
    else if g.streamProducer.Some? then (g, Some(ProducerConflict))
    else (g.(producer := p), None)
  }

  function AfterOnProduceStream<P>(g: Control<P>, p: Option<P>): (r: (Control<P>, Option<ControlError>))
  {
    if p.None? then (g, Some(ProducerNotSet))
    else if g.producer.Some? then (g, Some(ProducerConflict))
    else (g.(streamProducer := p), None)
  }

  /** Entering StreamEvents: no mode means the RPC is rejected. */
  function AfterBegin<P>(g: Control<P>): (r: (Control<P>, Option<Mode<P>>))
  {
    if g.streaming then (g, None) else (g.(streaming := true), Some(ModeOf(g)))
  }

  /** The mutex-guarded part of StandardSource; every method body runs under the lock. */
  class StandardSource<P(==)> {
    var streaming: bool
    var producer: Option<P>
    var streamProducer: Option<P>

    constructor ()
      ensures Guarded() == Control(false, None, None)
    {
      streaming, producer, streamProducer := false, None, None;
    }

    function Guarded(): Control<P>
      reads this
    {
      Control(streaming, producer, streamProducer)
    }

    method OnProduce(p: Option<P>) returns (err: Option<ControlError>)
      modifies this
      ensures (Guarded(), err) == AfterOnProduce(old(Guarded()), p)
      ensures err == Some(ProducerNotSet) <==> p.None?
      ensures err == Some(ProducerConflict) <==> p.Some? && old(streamProducer).Some?
      ensures err.None? ==> Guarded() == Control(old(streaming), p, None)
      ensures err.Some? ==> Guarded() == old(Guarded())
    {
      if p.None? { return Some(ProducerNotSet); }
      if streamProducer.Some? { return Some(ProducerConflict); }
      producer := p;
      return None;
    }

    method OnProduceStream(p: Option<P>) returns (err: Option<ControlError>)
      modifies this
      ensures (Guarded(), err) == AfterOnProduceStream(old(Guarded()), p)
      ensures err == Some(ProducerNotSet) <==> p.None?
      ensures err == Some(ProducerConflict) <==> p.Some? && old(producer).Some?
      ensures err.None? ==> Guarded() == Control(old(streaming), None, p)
      ensures err.Some? ==> Guarded() == old(Guarded())
    {
      if p.None? { return Some(ProducerNotSet); }
      if producer.Some? { return Some(ProducerConflict); }
      streamProducer := p;
      return None;
    }

    /** The locked entry of StreamEvents: None rejects the RPC and changes nothing. */
    method Begin() returns (mode: Option<Mode<P>>)
      modifies this
      ensures (Guarded(), mode) == AfterBegin(old(Guarded()))
      ensures Guarded() == Control(true, old(producer), old(streamProducer))
      ensures mode.None? <==> old(streaming)
      ensures forall p :: mode == Some(WithResult(p)) <==> !old(streaming) && streamProducer == Some(p)
      ensures forall p :: mode == Some(Legacy(p)) <==> !old(streaming) && streamProducer.None? && producer == Some(p)
    {
      if streaming { return None; }
      streaming := true;
      var legacy, withResult := producer, streamProducer;
      if withResult.Some? { return Some(WithResult(withResult.value)); }
      if legacy.None? { return Some(NoProducer); }
      return Some(Legacy(legacy.value));
    }

    /** The deferred exit of an admitted RPC. */
    method End()
      modifies this
      ensures Guarded() == old(Guarded()).(streaming := false)
    {
      streaming := false;
    }
  }

  // ----- any number of RPCs and registrations

  datatype Rpc<P> = Arrived | Rejected | Serving(mode: Mode<P>) | Returned

  datatype State<P> = State(g: Control<P>, rpcs: seq<Rpc<P>>)

  datatype Action<P> = Arrive | Enter(i: nat) | Leave(i: nat)
                     | Register(p: Option<P>) | RegisterStream(p: Option<P>)

  function Next<P>(s: State<P>, a: Action<P>): (r: Option<State<P>>)
  {
    match a
    case Arrive => Some(s.(rpcs := s.rpcs + [Arrived]))
    case Enter(i) =>
      if i >= |s.rpcs| || !s.rpcs[i].Arrived? then None
      else
        var (g, mode) := AfterBegin(s.g);
        Some(State(g, s.rpcs[i := if mode.Some? then Serving(mode.value) else Rejected]))
    case Leave(i) =>
      if i >= |s.rpcs| || !s.rpcs[i].Serving? then None
      else Some(State(s.g.(streaming := false), s.rpcs[i := Returned]))
    case Register(p) => Some(s.(g := AfterOnProduce(s.g, p).0))
    case RegisterStream(p) => Some(s.(g := AfterOnProduceStream(s.g, p).0))
  }

  function Step<P>(): (f: (State<P>, Action<P>) -> Option<State<P>>)
  {
    (t: State<P>, a: Action<P>) => Next(t, a)
  }

  function Initial<P>(): (s: State<P>)
  {
    State(Control(false, None, None), [])
  }

  /** One for an RPC that owns the stream. */
  function Owns<P>(): (weight: Rpc<P> -> int)
  {
    (x: Rpc<P>) => if x.Serving? then 1 else 0
  }

  function Owners<P>(rpcs: seq<Rpc<P>>): (n: int)
  {
    Sums.Total(Owns<P>(), rpcs)
  }

  lemma OwnersUpdate<P(!new)>(rpcs: seq<Rpc<P>>, i: nat, x: Rpc<P>)
    requires i < |rpcs|
    ensures Owners(rpcs[i := x]) >= 0
    ensures Owners(rpcs[i := x]) ==
            Owners(rpcs) - (if rpcs[i].Serving? then 1 else 0) + (if x.Serving? then 1 else 0)
  {
    Sums.TotalUpdate(Owns<P>(), rpcs, i, x);
    Sums.TotalNatural(Owns<P>(), rpcs[i := x]);
  }

  lemma OwnersAppend<P>(rpcs: seq<Rpc<P>>, x: Rpc<P>)
    ensures Owners(rpcs + [x]) == Owners(rpcs) + (if x.Serving? then 1 else 0)
  {
    Sums.TotalAppend(Owns<P>(), rpcs, x);
  }

  ghost predicate Exclusive<P>(s: State<P>)
  {
    && Owners(s.rpcs) == (if s.g.streaming then 1 else 0)
    && !(s.g.producer.Some? && s.g.streamProducer.Some?)
    && forall i :: 0 <= i < |s.rpcs| ==>
         (s.rpcs[i] == Serving(NoProducer) || s.rpcs[i].Arrived? || s.rpcs[i].Rejected? || s.rpcs[i].Returned?
          || (s.rpcs[i].mode.WithResult? && s.g.streamProducer.Some?)
          || (s.rpcs[i].mode.Legacy? && s.g.producer.Some?))
  }

  lemma StepKeepsExclusive<P(!new)>(s: State<P>, a: Action<P>)
    requires Exclusive(s) && Next(s, a).Some?
    ensures Exclusive(Next(s, a).value)
  {
    match a
    case Arrive => OwnersAppend(s.rpcs, Arrived);
    case Enter(i) =>
      OwnersUpdate(s.rpcs, i, Rejected);
      OwnersUpdate(s.rpcs, i, Serving(ModeOf(s.g)));
    case Leave(i) => OwnersUpdate(s.rpcs, i, Returned);
    case _ =>
  }

  /** In every reachable state the flag is set exactly when one RPC owns the stream (there is never
      a second), the two producer kinds are never registered together, and an owner is served by
      the kind that is registered. */
  lemma StreamingIsExclusive<P(!new)>(acts: seq<Action<P>>)
    requires Runs.Run(Step<P>(), Initial<P>(), acts).Some?
    ensures Exclusive(Runs.Run(Step<P>(), Initial<P>(), acts).value)
  {
    var next := Step<P>();
    forall t: State<P>, a: Action<P> | Exclusive(t) && next(t, a).Some?
      ensures Exclusive(next(t, a).value)
    {
      StepKeepsExclusive(t, a);
    }
    Runs.Invariant(next, (t: State<P>) => Exclusive(t), Initial<P>(), acts);
  }

  // ----- which producer serves

  /** A registration that is not rejected for being nil. */
  predicate Registers<P>(a: Action<P>) { (a.Register? || a.RegisterStream?) && a.p.Some? }

  ghost predicate NoneRegistered<P(!new)>(acts: seq<Action<P>>)
  {
    forall i :: 0 <= i < |acts| ==> !Registers(acts[i])
  }

  /** The first registration is of the given kind. */
  ghost predicate FirstIs<P(!new)>(acts: seq<Action<P>>, stream: bool)
  {
    exists j :: 0 <= j < |acts| && Registers(acts[j]) && acts[j].RegisterStream? == stream && NoneRegistered(acts[..j])
  }

  /** p is the last producer registered as the given kind. */
  ghost predicate LastIs<P(!new)>(acts: seq<Action<P>>, stream: bool, p: P)
  {
    exists j :: 0 <= j < |acts| && Registers(acts[j]) && acts[j].RegisterStream? == stream && acts[j].p == Some(p)
                && forall i :: j < i < |acts| && Registers(acts[i]) ==> acts[i].RegisterStream? != stream
  }

  /** How an RPC that enters after these actions is served: the first registration has fixed the kind of producer,
      and the last one of that kind is used. */
  ghost predicate ServedAfter<P(!new)>(acts: seq<Action<P>>, m: Mode<P>)
  {
    match m
    case WithResult(p) => FirstIs(acts, true) && LastIs(acts, true, p)
    case Legacy(p) => FirstIs(acts, false) && LastIs(acts, false, p)
    case NoProducer => NoneRegistered(acts)
  }

  /** The guarded producers against the registrations made so far. */
  ghost predicate History<P(!new)>(g: Control<P>, acts: seq<Action<P>>)
  {
    && (g.streamProducer.None? || g.producer.None?)
    && (if g.streamProducer.Some? then FirstIs(acts, true) && LastIs(acts, true, g.streamProducer.value)
        else if g.producer.Some? then FirstIs(acts, false) && LastIs(acts, false, g.producer.value)
        else NoneRegistered(acts))
  }

  lemma LastStays<P(!new)>(acts: seq<Action<P>>, a: Action<P>, stream: bool, p: P)
    requires FirstIs(acts, stream) && LastIs(acts, stream, p)
    ensures FirstIs(acts + [a], stream)
    ensures LastIs(acts + [a], stream, if Registers(a) && a.RegisterStream? == stream then a.p.value else p)
  {
    var all := acts + [a];
    var j :| 0 <= j < |acts| && Registers(acts[j]) && acts[j].RegisterStream? == stream && NoneRegistered(acts[..j]);
    assert all[j] == acts[j] && all[..j] == acts[..j];
    if Registers(a) && a.RegisterStream? == stream {
      assert all[|acts|] == a;
    } else {
      var k :| 0 <= k < |acts| && Registers(acts[k]) && acts[k].RegisterStream? == stream && acts[k].p == Some(p)
               && forall i :: k < i < |acts| && Registers(acts[i]) ==> acts[i].RegisterStream? != stream;
      assert all[k] == acts[k];
    }
  }

  lemma FirstOne<P(!new)>(acts: seq<Action<P>>, a: Action<P>)
    requires NoneRegistered(acts) && Registers(a)
    ensures FirstIs(acts + [a], a.RegisterStream?) && LastIs(acts + [a], a.RegisterStream?, a.p.value)
  {
    var all := acts + [a];
    assert all[|acts|] == a && all[..|acts|] == acts;
  }

  lemma StepKeepsHistory<P(!new)>(s: State<P>, acts: seq<Action<P>>, a: Action<P>, t: State<P>)
    requires History(s.g, acts) && Next(s, a) == Some(t)
    ensures History(t.g, acts + [a])
  {
    if s.g.streamProducer.Some? {
      LastStays(acts, a, true, s.g.streamProducer.value);
    } else if s.g.producer.Some? {
      LastStays(acts, a, false, s.g.producer.value);
    } else if Registers(a) {
      FirstOne(acts, a);
    }
  }

  lemma {:induction false} EveryRunKeepsHistory<P(!new)>(acts: seq<Action<P>>)
    requires Runs.Run(Step<P>(), Initial<P>(), acts).Some?
    ensures History(Runs.Run(Step<P>(), Initial<P>(), acts).value.g, acts)
    decreases |acts|
  {
    if acts != [] {
      var n := |acts| - 1;
      assert acts[..n] + [acts[n]] == acts;
      Runs.RunAppend(Step<P>(), Initial<P>(), acts[..n], acts[n]);
      EveryRunKeepsHistory(acts[..n]);
      var s := Runs.Run(Step<P>(), Initial<P>(), acts[..n]).value;
      StepKeepsHistory(s, acts[..n], acts[n], Next(s, acts[n]).value);
    }
  }

  lemma EnterFixesMode<P(!new)>(s: State<P>, a: Action<P>, acts: seq<Action<P>>, i: nat, t: State<P>)
    requires History(s.g, acts) && Next(s, a) == Some(t) && i < |t.rpcs| && t.rpcs[i].Serving?
    requires i >= |s.rpcs| || !s.rpcs[i].Serving?
    ensures a == Enter(i) && ServedAfter(acts, t.rpcs[i].mode)
  {
  }

  /** An RPC that is served keeps its mode until it returns. */
  lemma ModeStays<P(!new)>(s: State<P>, acts: seq<Action<P>>, i: nat)
    requires i < |s.rpcs| && s.rpcs[i].Serving? && Runs.Run(Step<P>(), s, acts).Some?
    ensures var t := Runs.Run(Step<P>(), s, acts).value;
            i < |t.rpcs| && (t.rpcs[i] == s.rpcs[i] || t.rpcs[i].Returned?)
  {
    var kept := (u: State<P>) => i < |u.rpcs| && (u.rpcs[i] == s.rpcs[i] || u.rpcs[i].Returned?);
    forall u: State<P>, a: Action<P> | kept(u) && Step<P>()(u, a).Some?
      ensures kept(Step<P>()(u, a).value)
    {
    }
    Runs.Invariant(Step<P>(), kept, s, acts);
  }

  /** In every run an RPC that owns the stream is served by what had been registered when it entered: the kind of the
      first registration and the last producer of that kind, or no producer if nothing had been registered.  Later
      registrations do not change how it is served. */
  lemma ServedByRegistrations<P(!new)>(acts: seq<Action<P>>, i: nat) returns (k: nat)
    requires Runs.Run(Step<P>(), Initial<P>(), acts).Some?
    requires var s := Runs.Run(Step<P>(), Initial<P>(), acts).value; i < |s.rpcs| && s.rpcs[i].Serving?
    ensures k < |acts| && acts[k] == Enter(i)
    ensures ServedAfter(acts[..k], Runs.Run(Step<P>(), Initial<P>(), acts).value.rpcs[i].mode)
  {
    var serving := (t: State<P>) => i < |t.rpcs| && t.rpcs[i].Serving?;
    k := Runs.Crossing(Step<P>(), serving, Initial<P>(), acts);
    var s := Runs.Run(Step<P>(), Initial<P>(), acts[..k]).value;
    EveryRunKeepsHistory(acts[..k]);
    var t := Next(s, acts[k]).value;
    EnterFixesMode(s, acts[k], acts[..k], i, t);
    ModeStays(t, acts[k + 1..], i);
  }

  /** Only the owner's exit clears the flag, and it always does: a rejected RPC, a registration or
      a newcomer leaves it as it was. */
  lemma OnlyOwnerReleases<P(!new)>(s: State<P>, a: Action<P>)
    requires Exclusive(s) && Next(s, a).Some?
    ensures (s.g.streaming && !Next(s, a).value.g.streaming) <==> a.Leave?
  {
    if a.Leave? {
      OwnersUpdate(s.rpcs, a.i, Returned);
    }
  }
}
