/** The safety gateway as a transition system. Each function is one region under the gateway lock; the stop bursts
    run outside the lock, so any other region may happen between a burst and the region that commits its result.
    `log` is every transition ever made, `history` the bounded part the gateway retains. */
module GatewaySpec {
  import opened SafetyTypes

  const STOP_BURST_COUNT: nat := 3
  const HISTORY_CAPACITY: nat := 256

  datatype Mode = Simulation | Hardware

  datatype GatewayError =
    | EstopLatchedError
    | UnsafeState
    | DiscoveryUnsafe
    | ProfileUnsupported
    | HardwareChallenge
    | MotionLimit
    | HeartbeatUnconfigured
    | HeartbeatExpired
    | OperatorRequired

  datatype Transition = Transition(sequence: nat, before: SafetyState, after: SafetyState, stop: Option<StopResult>)

  /** What one call of the stop callback does: raise, return something that is not a stop result, or return one. */
  datatype CallbackOutcome = Raised | NotAResult | Returned(result: StopResult)

  datatype State = State(
    mode: Mode,
    heartbeatTimeout: Option<real>,
    state: SafetyState,
    nextSequence: nat,
    history: seq<Transition>,
    reported: bool,
    deadline: Option<real>,
    log: seq<Transition>)

  function Init(mode: Mode, heartbeatTimeout: Option<real>): State {
    State(mode, heartbeatTimeout, NEW, 0, [], false, None, [])
  }

  // ----- the burst -----

  function Normalized(outcome: CallbackOutcome): StopResult {
    if outcome.Returned? then outcome.result else StopResult(true, false, false, SafetyCommandRejected)
  }

  /** The result a burst is reduced to. */
  function Combined(burst: seq<CallbackOutcome>): StopResult {
    var latched := forall i :: 0 <= i < |burst| ==> Normalized(burst[i]).latched;
    var quiesced := forall i :: 0 <= i < |burst| ==> Normalized(burst[i]).quiesced;
    var accepted := forall i :: 0 <= i < |burst| ==> Normalized(burst[i]).accepted;
    StopResult(latched, quiesced, accepted,
      if !quiesced then TransportUnquiesced
      else if !accepted || !latched then SafetyCommandRejected
      else EstopLatched)
  }

  // ----- regions -----

  function Appended(history: seq<Transition>, t: Transition): seq<Transition> {
    if |history| < HISTORY_CAPACITY then history + [t] else history[1..] + [t]
  }

  function Move(s: State, after: SafetyState, stop: Option<StopResult>): State {
    var t := Transition(s.nextSequence, s.state, after, stop);
    s.(state := after, nextSequence := s.nextSequence + 1, history := Appended(s.history, t), log := s.log + [t])
  }

  /** The error the gateway raises when it is not in the expected state. */
  function Require(s: State, expected: SafetyState): Option<GatewayError> {
    if s.state == ESTOPPED then Some(EstopLatchedError)
    else if s.state != expected then Some(UnsafeState)
    else None
  }

  function Discover(s: State, reportSafe: bool): (State, Option<GatewayError>) {
    var error := Require(s, NEW);
    if error.Some? then (s, error)
    else if !reportSafe then (s, Some(DiscoveryUnsafe))
    else (Move(s.(reported := true), DISCOVERED, None), None)
  }

  function Validate(s: State, supported: bool): (State, Option<GatewayError>) {
    var error := Require(s, DISCOVERED);
    if error.Some? then (s, error)
    else if !supported then (s, Some(ProfileUnsupported))
    else (Move(s, if s.mode.Simulation? then ARMED else VALIDATED, None), None)
  }

  function Arm(s: State, challengeGood: bool): (State, Option<GatewayError>) {
    if s.mode.Simulation? && s.state == ARMED then (s, None)
    else
      var error := Require(s, VALIDATED);
      if error.Some? then (s, error)
      else if s.mode.Simulation? || !challengeGood then (s, Some(HardwareChallenge))
      else (Move(s, ARMED, None), None)
  }

  function StartTask(s: State, withinLimits: bool, now: real): (State, Option<GatewayError>) {
    var error := Require(s, ARMED);
    if error.Some? then (s, error)
    else if !withinLimits then (s, Some(MotionLimit))
    else
      var deadline := if s.heartbeatTimeout.None? then None else Some(now + s.heartbeatTimeout.value);
      (Move(s.(deadline := deadline), RUNNING, None), None)
  }

  /** The locked part of a heartbeat. An expired or unconfigured one changes nothing here: the fault follows outside. */
  function Heartbeat(s: State, now: real): (State, Option<GatewayError>) {
    var error := Require(s, RUNNING);
    if error.Some? then (s, error)
    else if s.heartbeatTimeout.None? then (s, Some(HeartbeatUnconfigured))
    else if s.deadline.Some? && now > s.deadline.value then (s, Some(HeartbeatExpired))
    else (Move(s.(deadline := Some(now + s.heartbeatTimeout.value)), RUNNING, None), None)
  }

  function CommitCancel(s: State, stop: StopResult): (State, Option<GatewayError>) {
    var error := Require(s, RUNNING);
    if error.Some? then (s, error) else (Move(s, STOPPED, Some(stop)).(deadline := None), None)
  }

  function CommitFault(s: State, stop: StopResult): State {
    if s.state != RUNNING then s else Move(s, FAULTED, Some(stop)).(deadline := None)
  }

  function CommitEstop(s: State, stop: StopResult): State {
    if s.state == ESTOPPED then s else Move(s, ESTOPPED, Some(stop)).(deadline := None)
  }

  function OperatorReset(s: State): (State, Option<GatewayError>) {
    if s.state != ESTOPPED then (s, Some(UnsafeState))
    else if s.mode.Hardware? then (s, Some(OperatorRequired))
    else (Move(s, NEW, None).(reported := false, deadline := None), None)
  }

  // ----- runs; `clock` never goes backwards -----

  datatype Timed = Timed(gateway: State, clock: real)

  datatype Step =
    | Tick(elapsed: real)
    | DoDiscover(reportSafe: bool)
    | DoValidate(supported: bool)
    | DoArm(challengeGood: bool)
    | DoStartTask(withinLimits: bool)
    | DoHeartbeat
    | DoCommitCancel(burst: seq<CallbackOutcome>)
    | DoCommitFault(burst: seq<CallbackOutcome>)
    | DoCommitEstop(burst: seq<CallbackOutcome>)
    | DoOperatorReset

  function Act(s: State, step: Step, now: real): State {
    match step
    case Tick(_) => s
    case DoDiscover(reportSafe) => Discover(s, reportSafe).0
    case DoValidate(supported) => Validate(s, supported).0
    case DoArm(challengeGood) => Arm(s, challengeGood).0
    case DoStartTask(withinLimits) => StartTask(s, withinLimits, now).0
    case DoHeartbeat => Heartbeat(s, now).0
    case DoCommitCancel(burst) => CommitCancel(s, Combined(burst)).0
    case DoCommitFault(burst) => CommitFault(s, Combined(burst))
    case DoCommitEstop(burst) => CommitEstop(s, Combined(burst))
    case DoOperatorReset => OperatorReset(s).0
  }

  function Next(s: Timed, step: Step): Timed {
    Timed(Act(s.gateway, step, s.clock), if step.Tick? && step.elapsed > 0.0 then s.clock + step.elapsed else s.clock)
  }

  function Run(s: Timed, steps: seq<Step>): Timed
    decreases |steps|
  {
    if steps == [] then s else Run(Next(s, steps[0]), steps[1..])
  }

  // ----- what the log must look like -----

  /** A stop result the audit schema admits, whose code tells success from failure. */
  predicate Sanitized(stop: StopResult) {
    AuditableCode(stop.code) && (stop.Successful() <==> stop.code == EstopLatched)
  }

  predicate LegalMove(t: Transition, mode: Mode) {
    && (t.before in {STOPPED, FAULTED} ==> t.after == ESTOPPED)
    && (t.before == ESTOPPED ==> t.after == NEW && mode.Simulation?)
    && (t.after == RUNNING ==> t.before in {ARMED, RUNNING})
    && (t.after in {STOPPED, FAULTED} ==> t.before == RUNNING)
    && (t.after == ARMED ==> t.before == (if mode.Simulation? then DISCOVERED else VALIDATED))
    && (t.after == VALIDATED ==> t.before == DISCOVERED && mode.Hardware?)
    && (t.after == DISCOVERED ==> t.before == NEW)
    && (t.after == NEW ==> t.before == ESTOPPED)
    && (t.after in {STOPPED, FAULTED, ESTOPPED} <==> t.stop.Some?)
    && (t.stop.Some? ==> Sanitized(t.stop.value))
  }

  ghost predicate Chained(log: seq<Transition>) {
    && (forall i :: 0 <= i < |log| ==> log[i].sequence == i)
    && (|log| > 0 ==> log[0].before == NEW)
    && (forall i :: 0 < i < |log| ==> log[i].before == log[i - 1].after)
  }

  function Retained(log: seq<Transition>): seq<Transition> {
    if |log| <= HISTORY_CAPACITY then log else log[|log| - HISTORY_CAPACITY..]
  }

  /** The state is the end of a legal, gap-free log, of which the history is the newest part. */
  ghost predicate Recorded(s: State) {
    && s.nextSequence == |s.log|
    && Chained(s.log)
    && s.state == (if s.log == [] then NEW else s.log[|s.log| - 1].after)
    && s.history == Retained(s.log)
    && (forall i :: 0 <= i < |s.log| ==> LegalMove(s.log[i], s.mode))
  }

  ghost predicate Inv(s: State) {
    && Recorded(s)
    && (s.state == DISCOVERED ==> s.reported)
    && (s.state != RUNNING ==> s.deadline.None?)
    && (s.state == RUNNING && s.heartbeatTimeout.Some? ==> s.deadline.Some?)
  }
}
