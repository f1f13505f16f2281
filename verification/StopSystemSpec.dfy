/** Sequencer, emergency worker, gateway, callers and the command topic put together. Any number of threads run stop
    bursts (for an emergency stop, a cancellation or a fault) while others submit activations, publish from running
    commands, close things, and the two workers make progress. */
module StopSystemSpec {
  import opened SafetyTypes
  import S = SequencerSpec
  import W = CommandWorkerSpec
  import G = GatewaySpec

  /** What is seen on the velocity topic. */
  datatype Wire = Zero | NonZero

  datatype Kind = Estop | Cancel | Fault

  /** Where things stood when the first shot of a burst returned quiesced. */
  datatype Mark = Mark(trace: nat, wire: nat, zeros: nat)

  /** A thread inside one stop: between shots, waiting for quiescence in a shot, or done with it. */
  datatype Caller =
    | Bursting(kind: Kind, results: seq<G.CallbackOutcome>, mark: Option<Mark>)
    | Waiting(kind: Kind, results: seq<G.CallbackOutcome>, mark: Option<Mark>, zeroAccepted: bool)
    | Finished(kind: Kind, results: seq<G.CallbackOutcome>, mark: Option<Mark>, success: bool)

  datatype State = State(
    sequencer: S.State,
    emergency: W.State,
    gateway: G.Timed,
    callers: map<nat, Caller>,
    wire: seq<Wire>)

  function Init(mode: G.Mode, heartbeatTimeout: Option<real>, clock: real): State {
    State(S.INIT, W.INIT, G.Timed(G.Init(mode, heartbeatTimeout), clock), map[], [])
  }

  datatype Step =
    | Activation(action: S.Step)             // anything at the sequencer except a stop
    | Emergency(work: W.Step)              // anything at the emergency worker except a submission
    | Authorize(request: G.Step)              // anything at the gateway except committing a stop
    | PublishFromCommand                    // the running activation command publishes a velocity
    | PublishZero                           // an ordinary stop publishes a zero
    | StrayStop                             // an adapter stops on its own, outside any burst
    | Begin(caller: nat, kind: Kind)
    | Shot(caller: nat)
    | ShotReturns(caller: nat, confirmed: bool)
    | ShotRaises(caller: nat)
    | Commit(caller: nat, audited: bool)

  /** Latch, and hand a zero to the emergency worker while holding the sequencer's condition. */
  function LatchWithZero(s: State): (State, bool) {
    var (em, taken) := W.Submit(s.emergency);
    (s.(sequencer := S.LatchAndZero(s.sequencer, taken), emergency := em), taken)
  }

  /** The answer of one shot. `confirmed` is the extra demand of the hospital channel, that the zero command itself has
      come back without an error; the plain channel does not ask. */
  function ShotAnswer(quiesced: bool, zeroAccepted: bool, confirmed: bool): StopResult {
    if zeroAccepted && !confirmed then StopResult(true, quiesced, false, SafetyCommandFailed)
    else S.StopOutcome(quiesced, zeroAccepted)
  }

  function MarkOf(s: State): Mark {
    Mark(|s.sequencer.trace|, |s.wire|, s.emergency.accepted)
  }

  function Returns(s: State, c: nat, confirmed: bool): State
    requires c in s.callers && s.callers[c].Waiting?
  {
    var w := s.callers[c];
    var (seq', quiesced) := S.Sample(s.sequencer);
    var t := s.(sequencer := seq');
    var mark := if w.results == [] && quiesced then Some(MarkOf(t)) else w.mark;
    t.(callers := s.callers[c := Bursting(w.kind, w.results + [G.Returned(ShotAnswer(quiesced, w.zeroAccepted, confirmed))], mark)])
  }

  function Committed(gateway: G.State, kind: Kind, stop: StopResult): G.State {
    match kind
    case Estop => G.CommitEstop(gateway, stop)
    case Cancel => G.CommitCancel(gateway, stop).0
    case Fault => G.CommitFault(gateway, stop)
  }

  /** Whether the commit makes a transition, which is then put on record. */
  predicate Moves(gateway: G.State, kind: Kind) {
    if kind.Estop? then gateway.state != ESTOPPED else gateway.state == RUNNING
  }

  /** Whether the stop answers success: all of it went well, and what there was to record is on record. A cancellation
      that comes too late is an error; an emergency stop of a gateway stopped already has nothing to record. */
  predicate Answers(gateway: G.State, kind: Kind, stop: StopResult, audited: bool) {
    stop.Successful() && if Moves(gateway, kind) then audited else !kind.Cancel?
  }

  function IsStopStep(step: S.Step): bool {
    step.DoLatchAndZero? || step.DoSample?
  }

  function IsCommitStep(step: G.Step): bool {
    step.DoCommitCancel? || step.DoCommitFault? || step.DoCommitEstop?
  }

  function Next(s: State, step: Step): State {
    match step
    case Activation(a) => if IsStopStep(a) then s else s.(sequencer := S.Next(s.sequencer, a))
    case Emergency(w) =>
      if w.DoSubmit? then s
      else
        var published := w.DoAdvance? && !w.raised && s.emergency.thread.Alive? && s.emergency.pc.Calling?;
        s.(emergency := W.Next(s.emergency, w), wire := if published then s.wire + [Zero] else s.wire)
    case Authorize(g) => if IsCommitStep(g) then s else s.(gateway := G.Next(s.gateway, g))
    case PublishFromCommand =>
      if s.sequencer.thread.Alive? && s.sequencer.worker.Calling? then s.(wire := s.wire + [NonZero]) else s
    case PublishZero => s.(wire := s.wire + [Zero])
    case StrayStop => LatchWithZero(s).0
    case Begin(c, kind) => if c in s.callers then s else s.(callers := s.callers[c := Bursting(kind, [], None)])
    case Shot(c) =>
      if c in s.callers && s.callers[c].Bursting? && |s.callers[c].results| < G.STOP_BURST_COUNT then
        var (t, taken) := LatchWithZero(s);
        var b := s.callers[c];
        t.(callers := s.callers[c := Waiting(b.kind, b.results, b.mark, taken)])
      else s
    case ShotReturns(c, confirmed) => if c in s.callers && s.callers[c].Waiting? then Returns(s, c, confirmed) else s
    case ShotRaises(c) =>
      if c in s.callers && s.callers[c].Bursting? && |s.callers[c].results| < G.STOP_BURST_COUNT then
        var b := s.callers[c];
        s.(callers := s.callers[c := Bursting(b.kind, b.results + [G.Raised], b.mark)])
      else s
    case Commit(c, audited) =>
      if c in s.callers && s.callers[c].Bursting? && |s.callers[c].results| == G.STOP_BURST_COUNT then
        var b := s.callers[c];
        var stop := G.Combined(b.results);
        s.(gateway := s.gateway.(gateway := Committed(s.gateway.gateway, b.kind, stop)),
           callers := s.callers[c := Finished(b.kind, b.results, b.mark, Answers(s.gateway.gateway, b.kind, stop, audited))])
      else s
  }

  function Run(s: State, steps: seq<Step>): State
    decreases |steps|
  {
    if steps == [] then s else Run(Next(s, steps[0]), steps[1..])
  }

  // ----- counting -----

  function ZerosTaken(t: seq<S.Event>): nat {
    if t == [] then 0 else ZerosTaken(t[..|t| - 1]) + (if t[|t| - 1] == S.ZeroTried(true) then 1 else 0)
  }

  function ZerosSeen(w: seq<Wire>): nat {
    if w == [] then 0 else ZerosSeen(w[..|w| - 1]) + (if w[|w| - 1].Zero? then 1 else 0)
  }

  predicate IsMotion(e: S.Event) {
    e.Started? || e.Ended? || e.OwnedRan?
  }

  ghost predicate StillFrom(t: seq<S.Event>, from: nat) {
    forall j :: from <= j < |t| ==> !IsMotion(t[j])
  }

  ghost predicate OnlyZerosFrom(w: seq<Wire>, from: nat) {
    forall j :: from <= j < |w| ==> w[j].Zero?
  }

  // ----- the inductive invariant -----

  /** Activation is over: latched, and nothing in the worker's hands. */
  predicate Over(s: S.State) {
    s.latched && s.inFlight.None?
  }

  ghost predicate MarkHolds(s: State, m: Mark) {
    && m.trace <= |s.sequencer.trace| && m.wire <= |s.wire|
    && Over(s.sequencer)
    && S.OpenCommands(s.sequencer.trace[..m.trace]) == {}
    && StillFrom(s.sequencer.trace, m.trace)
    && OnlyZerosFrom(s.wire, m.wire)
    && m.zeros == ZerosTaken(s.sequencer.trace[..m.trace]) && m.zeros <= s.emergency.accepted
    && (!s.emergency.failed ==> m.zeros + ZerosSeen(s.wire[m.wire..]) >= |s.emergency.executed|)
  }

  predicate Good(o: G.CallbackOutcome) {
    o.Returned? && o.result.Successful()
  }

  ghost predicate CallerHolds(s: State, c: Caller) {
    && |c.results| <= G.STOP_BURST_COUNT
    && (c.Waiting? ==> s.sequencer.latched && |c.results| < G.STOP_BURST_COUNT)
    && (c.Finished? ==> |c.results| == G.STOP_BURST_COUNT && (c.success ==> G.Combined(c.results).Successful()))
    && ((exists o :: o in c.results && o.Returned? && o.result.quiesced) ==> Over(s.sequencer))
    && (c.mark.Some? ==> MarkHolds(s, c.mark.value) && c.results != [])
    && (c.results != [] && Good(c.results[0]) ==> c.mark.Some?)
    && (c.mark.Some? && (forall o :: o in c.results ==> Good(o)) ==>
          s.emergency.accepted >= c.mark.value.zeros + |c.results| - 1 + (if c.Waiting? && c.zeroAccepted then 1 else 0))
  }

  ghost predicate Inv(s: State) {
    && S.Inv(s.sequencer)
    && W.Inv(s.emergency)
    && G.Inv(s.gateway.gateway)
    && s.emergency.accepted == ZerosTaken(s.sequencer.trace)
    && (forall c :: c in s.callers ==> CallerHolds(s, s.callers[c]))
    && ((exists t :: t in s.gateway.gateway.log && t.stop.Some? && t.stop.value.quiesced) ==> Over(s.sequencer))
  }
}
