/** The Twist transport on top of the whole stop system. A timer proposes velocity commands and hands them to the
    activation sequencer, whose worker runs them one at a time; starts go the same way; stops of either kind disable the
    stage, publish zeros and forget the last command at any moment in between. */
module TwistSpec {
  import opened SafetyTypes
  import opened MissionGeometry
  import S = SequencerSpec
  import W = CommandWorkerSpec
  import G = GatewaySpec
  import Y = StopSystemSpec

  datatype Velocity = Velocity(linear: real, angular: real)

  const ZERO_VELOCITY: Velocity := Velocity(0.0, 0.0)

  datatype Limits = Limits(maxLinear: real, maxAngular: real, maxLinearAcceleration: real, maxAngularAcceleration: real, period: real)

  predicate ValidLimits(l: Limits) {
    l.maxLinear >= 0.0 && l.maxAngular >= 0.0 && l.maxLinearAcceleration >= 0.0 && l.maxAngularAcceleration >= 0.0 && l.period >= 0.0
  }

  datatype Waypoint = Waypoint(position: Point, tolerance: real)

  /** What goes over the wire: motion, with the command it was computed from, or a zero. */
  datatype Event = Motion(command: Velocity, base: Velocity) | Zero

  /** A command computed from `base` for the stage of `generation`. */
  datatype Proposal = Proposal(command: Velocity, base: Velocity, generation: nat)

  /** The timer callback: idle, holding what it read, holding a proposal, waiting in its submit, or refused and about to
      disable the stage. */
  datatype Timer = Resting | HasRead(stage: Waypoint, generation: nat) | Proposes(proposal: Proposal) | Waiting(id: nat) | Refused

  /** How far the sequencer's worker is inside the command it called. A start bumps the generation, notes it and sets the
      stage; a velocity command checks, publishes and remembers. */
  datatype Body = Entered | Bumped | Noted | Passed | Sent | Done

  /** What a submitted command does when it is called. */
  datatype Work = StartStage(stage: Waypoint) | SendVelocity(proposal: Proposal) | OtherWork

  /** The fields of the transport, and what it has published. */
  datatype Local = Local(
    generation: nat,
    stageGeneration: nat,
    stage: Option<Waypoint>,
    last: Velocity,
    timer: Timer,
    body: Body,
    wire: seq<Event>)

  /** `work` says what each receipt's command does, `called` is the receipt whose command was called last. */
  datatype State = State(system: Y.State, work: map<nat, Work>, called: Option<nat>, local: Local)

  const IDLE: Local := Local(0, 0, None, ZERO_VELOCITY, Resting, Done, [])

  function Init(mode: G.Mode, heartbeatTimeout: Option<real>, clock: real): State {
    State(Y.Init(mode, heartbeatTimeout, clock), map[], None, IDLE)
  }

  // ----- velocities -----

  function Within(x: real, base: real, delta: real): real {
    Max(base - delta, Min(base + delta, x))
  }

  /** The heading error, folded into one turn. */
  function HeadingError(g: Trig, pose: Pose, target: Point): real {
    var heading := g.atan2(target.y - pose.y, target.x - pose.x);
    g.atan2(g.sin(heading - pose.yaw), g.cos(heading - pose.yaw))
  }

  function Desired(g: Trig, l: Limits, pose: Pose, stage: Waypoint): Velocity {
    var error := HeadingError(g, pose, stage.position);
    var distance := Distance(g, Point(pose.x, pose.y), stage.position);
    Velocity(if Abs(error) <= g.pi / 2.0 then Min(l.maxLinear, distance) else 0.0, Clamp(error, l.maxAngular))
  }

  /** The desired velocity, as far as the accelerations allow in one period. */
  function Reachable(l: Limits, base: Velocity, desired: Velocity): Velocity {
    Velocity(Within(desired.linear, base.linear, Times(l.maxLinearAcceleration, l.period)),
             Within(desired.angular, base.angular, Times(l.maxAngularAcceleration, l.period)))
  }

  predicate InLimits(l: Limits, v: Velocity) {
    0.0 <= v.linear <= l.maxLinear && Abs(v.angular) <= l.maxAngular
  }

  predicate OnePeriodApart(l: Limits, v: Velocity, base: Velocity) {
    && Abs(v.linear - base.linear) <= Times(l.maxLinearAcceleration, l.period)
    && Abs(v.angular - base.angular) <= Times(l.maxAngularAcceleration, l.period)
  }

  // ----- the transport's own actions -----

  function Bump(s: Local): Local {
    s.(generation := s.generation + 1, body := Bumped)
  }

  function Note(s: Local): Local {
    s.(stageGeneration := s.generation, body := Noted)
  }

  function SetStage(s: Local, stage: Waypoint): Local {
    s.(stage := Some(stage), body := Done)
  }

  /** What every kind of stop does first. */
  function Disable(s: Local): Local {
    s.(generation := s.generation + 1, stage := None)
  }

  function PublishZero(s: Local): Local {
    s.(wire := s.wire + [Zero])
  }

  function ForgetLast(s: Local): Local {
    s.(last := ZERO_VELOCITY)
  }

  /** The stop burst. */
  function Burst(s: Local, count: nat): Local
    decreases count
  {
    if count == 0 then ForgetLast(s) else Burst(PublishZero(s), count - 1)
  }

  /** The timer reads the stage; with no stage it rests. */
  function Read(s: Local): Local {
    if s.stage.None? then s else s.(timer := HasRead(s.stage.value, s.stageGeneration))
  }

  /** The timer computes a command from a fresh pose, or gives up on a stale one, an arrival, or missing limits. */
  function Propose(g: Trig, l: Option<Limits>, s: Local, pose: Option<Pose>): Local
    requires s.timer.HasRead?
  {
    var stage := s.timer.stage;
    if pose.None? || Distance(g, Point(pose.value.x, pose.value.y), stage.position) <= stage.tolerance || l.None?
    then s.(timer := Resting)
    else
      var command := Reachable(l.value, s.last, Desired(g, l.value, pose.value, stage));
      s.(timer := Proposes(Proposal(command, s.last, s.timer.generation)))
  }

  /** The check at the head of a velocity command. */
  function Check(s: Local, p: Proposal): Local {
    s.(body := if p.generation != s.generation || s.stage.None? then Done else Passed)
  }

  function Publish(s: Local, p: Proposal): Local {
    s.(wire := s.wire + [Motion(p.command, p.base)], body := Sent)
  }

  function Remember(s: Local, p: Proposal): Local {
    s.(last := p.command, body := Done)
  }

  // ----- runs -----

  datatype Step =
    | DoSystem(step: Y.Step)
    | DoSubmitWork(work: Work, finite: bool, callable: bool, permit: S.Permit)
    | DoRead
    | DoPropose(pose: Option<Pose>)
    | DoSubmitProposal(permit: S.Permit)
    | DoReject
    | DoWake
    | DoRefuse
    | DoCall
    | DoBump
    | DoNote
    | DoSetStage
    | DoCheck
    | DoPublish
    | DoRemember
    | DoEnds(raised: bool)
    | DoDisable
    | DoPublishZero
    | DoForgetLast

  /** Steps of the stop system that the transport itself takes, below. */
  predicate Reserved(step: Y.Step) {
    || step.PublishFromCommand? || step.PublishZero?
    || (step.Activation? && (step.action.DoSubmit? || step.action.DoCall? || step.action.DoCommandEnds?))
  }

  function Sequencer(s: State): S.State {
    s.system.sequencer
  }

  /** The worker is inside the command `id`. */
  predicate InCommand(s: State, id: nat) {
    Sequencer(s).thread.Alive? && Sequencer(s).worker == S.Calling(id) && s.called == Some(id) && id in s.work
  }

  predicate InStart(s: State) {
    s.called.Some? && InCommand(s, s.called.value) && s.work[s.called.value].StartStage?
  }

  predicate InVelocity(s: State) {
    s.called.Some? && InCommand(s, s.called.value) && s.work[s.called.value].SendVelocity?
  }

  function Sending(s: State): Proposal
    requires InVelocity(s)
  {
    s.work[s.called.value].proposal
  }

  /** Submit `work` to the sequencer; its receipt, or the refusal. */
  function Submit(s: State, work: Work, finite: bool, callable: bool, permit: S.Permit): (State, Result<nat, S.Refusal>) {
    var (q, receipt) := S.Submit(Sequencer(s), finite, callable, permit);
    var t := s.(system := Y.Next(s.system, Y.Activation(S.DoSubmit(finite, callable, permit))));
    (if receipt.Ok? then t.(work := s.work[receipt.value := work]) else t, receipt)
  }

  /** A waiting timer whose receipt has its outcome: a rejection is caught, anything else ends the callback. */
  function Woken(outcome: S.Outcome): Timer {
    if outcome.Rejected? then Refused else Resting
  }

  function OnWire(s: State, step: Y.Step): State {
    var t := Y.Next(s.system, step);
    s.(system := t, local := if |t.wire| > |s.system.wire| then PublishZero(s.local) else s.local)
  }

  function Next(g: Trig, l: Option<Limits>, s: State, step: Step): State {
    match step
    case DoSystem(y) => if Reserved(y) then s else OnWire(s, y)
    case DoSubmitWork(work, finite, callable, permit) =>
      if work.SendVelocity? then s else Submit(s, work, finite, callable, permit).0
    case DoRead => if s.local.timer.Resting? then s.(local := Read(s.local)) else s
    case DoPropose(pose) => if s.local.timer.HasRead? then s.(local := Propose(g, l, s.local, pose)) else s
    case DoSubmitProposal(permit) =>
      if s.local.timer.Proposes? then
        var (t, receipt) := Submit(s, SendVelocity(s.local.timer.proposal), true, true, permit);
        t.(local := s.local.(timer := if receipt.Ok? then Waiting(receipt.value) else Refused))
      else s
    case DoReject => if s.local.timer.Proposes? then s.(local := s.local.(timer := Refused)) else s
    case DoWake =>
      if s.local.timer.Waiting? && s.local.timer.id in Sequencer(s).outcomes then
        s.(local := s.local.(timer := Woken(Sequencer(s).outcomes[s.local.timer.id])))
      else s
    case DoRefuse => if s.local.timer.Refused? then s.(local := Disable(s.local).(timer := Resting)) else s
    case DoCall =>
      if Sequencer(s).thread.Alive? && Sequencer(s).worker.Taken? then
        s.(system := Y.Next(s.system, Y.Activation(S.DoCall)), called := Some(Sequencer(s).worker.id), local := s.local.(body := Entered))
      else s
    case DoBump => if InStart(s) && s.local.body.Entered? then s.(local := Bump(s.local)) else s
    case DoNote => if InStart(s) && s.local.body.Bumped? then s.(local := Note(s.local)) else s
    case DoSetStage =>
      if InStart(s) && s.local.body.Noted? then s.(local := SetStage(s.local, s.work[s.called.value].stage)) else s
    case DoCheck => if InVelocity(s) && s.local.body.Entered? then s.(local := Check(s.local, Sending(s))) else s
    case DoPublish =>
      if InVelocity(s) && s.local.body.Passed? then
        s.(system := Y.Next(s.system, Y.PublishFromCommand), local := Publish(s.local, Sending(s)))
      else s
    case DoRemember => if InVelocity(s) && s.local.body.Sent? then s.(local := Remember(s.local, Sending(s))) else s
    case DoEnds(raised) =>
      if s.called.Some? && InCommand(s, s.called.value) && !s.local.body.Sent?
         && (raised || s.local.body.Done? || s.work[s.called.value].OtherWork?)
      then s.(system := Y.Next(s.system, Y.Activation(S.DoCommandEnds(raised))), local := s.local.(body := Done))
      else s
    case DoDisable => s.(local := Disable(s.local))
    case DoPublishZero => s.(system := Y.Next(s.system, Y.PublishZero), local := PublishZero(s.local))
    case DoForgetLast => s.(local := ForgetLast(s.local))
  }

  function Run(g: Trig, l: Option<Limits>, s: State, steps: seq<Step>): State
    decreases |steps|
  {
    if steps == [] then s else Run(g, l, Next(g, l, s, steps[0]), steps[1..])
  }

  // ----- the wire -----

  function Motions(wire: seq<Event>): nat
    decreases |wire|
  {
    if wire == [] then 0 else Motions(wire[..|wire| - 1]) + (if wire[|wire| - 1].Motion? then 1 else 0)
  }

  /** The last motion command published. */
  function LastMotion(wire: seq<Event>): Option<Velocity>
    decreases |wire|
  {
    if wire == [] then None
    else if wire[|wire| - 1].Motion? then Some(wire[|wire| - 1].command)
    else LastMotion(wire[..|wire| - 1])
  }

  /** Standstill, or the last motion command published. */
  predicate Fresh(wire: seq<Event>, v: Velocity) {
    v == ZERO_VELOCITY || LastMotion(wire) == Some(v)
  }

  ghost predicate Sound(l: Option<Limits>, wire: seq<Event>, command: Velocity, base: Velocity) {
    l.Some? && InLimits(l.value, command) && OnePeriodApart(l.value, command, base) && Fresh(wire, base)
  }

  ghost predicate WireSound(l: Option<Limits>, wire: seq<Event>) {
    forall k :: 0 <= k < |wire| && wire[k].Motion? ==> Sound(l, wire[..k], wire[k].command, wire[k].base)
  }

  /** The transport's wire is the stop system's, in more detail. */
  predicate SameWire(wire: seq<Event>, seen: seq<Y.Wire>) {
    |wire| == |seen| && forall k :: 0 <= k < |wire| ==> (wire[k].Zero? <==> seen[k].Zero?)
  }

  // ----- the inductive invariant -----

  predicate IsVelocity(s: State, id: nat) {
    id in s.work && s.work[id].SendVelocity?
  }

  /** The velocity command called is under way: called, and not yet through. */
  predicate UnderWay(s: State) {
    s.called.Some? && IsVelocity(s, s.called.value) && (s.local.body.Entered? || s.local.body.Passed? || s.local.body.Sent?)
  }

  predicate InHand(s: State) {
    Sequencer(s).worker.Taken? && IsVelocity(s, Sequencer(s).worker.id)
  }

  /** Whoever waits for the velocity command `id` is the timer, or it gave up waiting and the stage is gone for good. */
  predicate Awaited(s: State, id: nat) {
    && (s.local.timer == Waiting(id)
        || (Sequencer(s).latched && (s.local.timer.Refused? || (s.local.timer.Resting? && s.local.stage.None?))))
    && (id in Sequencer(s).outcomes ==> Sequencer(s).outcomes[id].Rejected? && Sequencer(s).latched)
  }

  ghost predicate ProposalSound(l: Option<Limits>, s: State, id: nat) {
    IsVelocity(s, id) ==> Sound(l, s.local.wire, s.work[id].proposal.command, s.work[id].proposal.base)
  }

  ghost predicate Commands(s: State) {
    && (forall id :: id in s.work <==> 0 <= id < |Sequencer(s).issued|)
    && (forall id :: id in Sequencer(s).queue && IsVelocity(s, id) ==> s.local.timer == Waiting(id))
    && (s.local.timer.Waiting? ==> IsVelocity(s, s.local.timer.id))
    && (Sequencer(s).worker.Calling? ==> s.called == Some(Sequencer(s).worker.id))
    && (UnderWay(s) ==> Sequencer(s).worker.Calling? || Sequencer(s).worker.Gone?)
    && (UnderWay(s) ==> Awaited(s, s.called.value))
    && (InHand(s) ==> Awaited(s, Sequencer(s).worker.id))
    && (s.called.Some? ==> s.called.value < Sequencer(s).taken)
  }

  ghost predicate Velocities(l: Option<Limits>, s: State) {
    && WireSound(l, s.local.wire)
    && (l.Some? ==> InLimits(l.value, s.local.last))
    && (Fresh(s.local.wire, s.local.last) || (UnderWay(s) && s.local.body.Sent?))
    && (UnderWay(s) && s.local.body.Sent? ==> LastMotion(s.local.wire) == Some(s.work[s.called.value].proposal.command))
    && (s.local.timer.Proposes? ==> Sound(l, s.local.wire, s.local.timer.proposal.command, s.local.timer.proposal.base))
    && (forall id :: id in Sequencer(s).queue ==> ProposalSound(l, s, id))
    && (InHand(s) ==> ProposalSound(l, s, Sequencer(s).worker.id))
    && (UnderWay(s) && !s.local.body.Sent? ==> ProposalSound(l, s, s.called.value))
    && (UnderWay(s) ==> l.Some? && InLimits(l.value, s.work[s.called.value].proposal.command))
  }

  ghost predicate Inv(l: Option<Limits>, s: State) {
    && Y.Inv(s.system)
    && SameWire(s.local.wire, s.system.wire)
    && Commands(s)
    && Velocities(l, s)
  }
}
