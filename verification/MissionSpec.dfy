/** The hospital mission controller: what each of its operations does to the mission state. Clocks, poses and ranges
    are inputs; a range that is not finite is `None`. */
module MissionSpec {
  import opened SafetyTypes
  import opened MissionGeometry
  import LookaheadCarrot

  datatype Stage = Stage(id: string, name: string, endpoint: Point, waypoints: seq<Point>)

  datatype Config = Config(
    waypointTolerance: real,
    maxLinear: real,
    maxAngular: real,
    angularKp: real,
    lookahead: real,
    rotateMinAngle: real,
    finalSlowDistance: real,
    missionTimeout: real,
    odomTimeout: real,
    obstacleStopDistance: real,
    obstacleFailAfter: real,
    progressTimeout: real,
    progressEpsilon: real,
    headingEpsilon: real)

  const DEFAULTS: Config :=
    Config(0.35, 0.22, 1.0, 1.6, 0.6, 0.785, 0.6, 180.0, 0.5, 0.35, 5.0, 12.0, 0.05, 0.05)

  /** What a controller is built from. */
  datatype Setup = Setup(trig: Trig, start: Pose, stages: seq<Stage>, config: Config)

  const ENDPOINT_TOLERANCE: real := 0.000001

  const CURVATURE_FLOOR: real := 0.000000000001

  predicate ValidConfig(c: Config) {
    && c.waypointTolerance >= 0.0 && c.maxLinear >= 0.0 && c.maxAngular >= 0.0
    && c.lookahead > 0.0 && c.finalSlowDistance > 0.0
    && c.progressTimeout >= 0.0 && c.progressEpsilon > 0.0 && c.headingEpsilon > 0.0
  }

  /** What loading a route guarantees of one stage. */
  predicate ValidStage(g: Trig, stage: Stage) {
    && stage.waypoints != []
    && Distance(g, stage.endpoint, stage.waypoints[|stage.waypoints| - 1]) <= ENDPOINT_TOLERANCE
  }

  ghost predicate ValidSetup(m: Setup) {
    && Lawful(m.trig) && ValidConfig(m.config) && m.stages != []
    && forall k :: 0 <= k < |m.stages| ==> ValidStage(m.trig, m.stages[k])
  }

  datatype Phase = Idle | Running | Succeeded | Failed | Cancelled | EStopped

  datatype FailureCode = MissionTimeout | OdomStale | ObstacleBlocked | WaypointNoProgress

  datatype StageResult = StageResult(id: string, name: string, endpointError: real, elapsed: real)

  /** The watchdog: what it watches, the best distance and heading error so far, and when either last improved. */
  datatype Progress = Progress(stage: nat, waypoint: nat, bestDistance: real, bestHeading: real, at: real)

  datatype State = State(
    phase: Phase,
    failure: Option<FailureCode>,
    startedAt: Option<real>,
    startedWatchdogAt: Option<real>,
    stageIndex: nat,
    waypointIndex: nat,
    results: seq<StageResult>,
    lastOdomAt: Option<real>,
    lastUpdateAt: Option<real>,
    obstacleSince: Option<real>,
    progress: Option<Progress>,
    failedStage: Option<string>,
    failedWaypoint: Option<nat>)

  const INIT: State := State(Idle, None, None, None, 0, 0, [], None, None, None, None, None, None)

  datatype Command = Command(linear: real, angular: real)

  const HALT: Command := Command(0.0, 0.0)

  datatype Input = Input(
    pose: Option<Pose>,
    now: real,
    front: Option<real>,
    odomReceivedAt: Option<real>,
    watchdogNow: Option<real>)

  function OrElse<T>(o: Option<T>, default: T): T {
    if o.Some? then o.value else default
  }

  // ----- lifecycle -----

  function Start(s: State, now: real, watchdogNow: Option<real>): (State, bool) {
    if s.phase.Running? || s.phase.EStopped? then (s, false)
    else (INIT.(phase := Running, startedAt := Some(now), startedWatchdogAt := Some(OrElse(watchdogNow, now)),
                lastUpdateAt := Some(now)), true)
  }

  function Cancel(s: State): (State, bool) {
    if s.phase.Running? then (s.(phase := Cancelled), true) else (s, false)
  }

  function EStop(s: State): State {
    s.(phase := EStopped)
  }

  function Reset(s: State): (State, bool) {
    if s.phase.Running? then (s, false) else (INIT, true)
  }

  function Fail(m: Setup, s: State, code: FailureCode): State {
    var t := s.(phase := Failed, failure := Some(code));
    if s.stageIndex < |m.stages|
    then t.(failedStage := Some(m.stages[s.stageIndex].id), failedWaypoint := Some(s.waypointIndex))
    else t
  }

  // ----- one control update -----

  predicate Indexed(m: Setup, s: State) {
    s.stageIndex < |m.stages| && s.waypointIndex < |m.stages[s.stageIndex].waypoints|
  }

  predicate TimedOut(m: Setup, s: State, now: real) {
    s.startedAt.Some? && now - s.startedAt.value > m.config.missionTimeout
  }

  predicate Obstructed(m: Setup, front: Option<real>) {
    front.Some? && front.value < m.config.obstacleStopDistance
  }

  /** The age of the odometry this update goes by; without a pose, since the last one or since the start. */
  function OdomAge(s: State, i: Input): real {
    var watchdog := OrElse(i.watchdogNow, i.now);
    if i.pose.Some? then watchdog - OrElse(i.odomReceivedAt, watchdog)
    else if s.lastOdomAt.Some? then watchdog - s.lastOdomAt.value
    else if s.startedWatchdogAt.Some? then watchdog - s.startedWatchdogAt.value
    else 0.0
  }

  /** Everything checked before the controller looks at its route; the flag says whether it gets that far. */
  function Screen(m: Setup, s: State, i: Input): (State, bool) {
    var s1 := s.(lastUpdateAt := Some(i.now));
    if !s.phase.Running? then (s1, false)
    else if TimedOut(m, s, i.now) then (Fail(m, s1, MissionTimeout), false)
    else
      var watchdog := OrElse(i.watchdogNow, i.now);
      var s2 := if i.pose.Some? then s1.(lastOdomAt := Some(OrElse(i.odomReceivedAt, watchdog))) else s1;
      if OdomAge(s, i) > m.config.odomTimeout && (i.pose.Some? || s.lastOdomAt.Some? || s.startedWatchdogAt.Some?)
      then (Fail(m, s2, OdomStale), false)
      else if i.pose.None? then (s2, false)
      else if Obstructed(m, i.front) then
        if s.obstacleSince.None? then (s2.(obstacleSince := Some(i.now)), false)
        else if i.now - s.obstacleSince.value > m.config.obstacleFailAfter then (Fail(m, s2, ObstacleBlocked), false)
        else (s2, false)
      else (s2.(obstacleSince := None), true)
  }

  /** A point of the route in the frame of the odometry. */
  function Odom(m: Setup, p: Point): Point {
    InFrame(m.trig, m.start, p)
  }

  function Target(m: Setup, i: nat, j: nat): Point
    requires i < |m.stages| && j < |m.stages[i].waypoints|
  {
    Odom(m, m.stages[i].waypoints[j])
  }

  predicate Near(m: Setup, p: Point, i: nat, j: nat)
    requires i < |m.stages| && j < |m.stages[i].waypoints|
  {
    Distance(m.trig, p, Target(m, i, j)) <= m.config.waypointTolerance
  }

  function Completed(m: Setup, s: State, p: Point, now: real): StageResult
    requires s.stageIndex < |m.stages|
  {
    var stage := m.stages[s.stageIndex];
    StageResult(stage.id, stage.name, Distance(m.trig, p, Odom(m, stage.endpoint)),
                if s.startedAt.Some? then now - s.startedAt.value else 0.0)
  }

  /** The current waypoint is reached. */
  function Pass(m: Setup, s: State, p: Point, now: real): State
    requires Indexed(m, s)
  {
    var t := s.(waypointIndex := s.waypointIndex + 1, progress := None);
    if t.waypointIndex < |m.stages[s.stageIndex].waypoints| then t
    else
      var u := t.(results := t.results + [Completed(m, s, p, now)], stageIndex := t.stageIndex + 1, waypointIndex := 0);
      if u.stageIndex == |m.stages| then u.(phase := Succeeded) else u
  }

  /** Pass every waypoint reached, until one is out of reach or the mission is done. */
  function Advance(m: Setup, s: State, p: Point, now: real): State
    requires Indexed(m, s) && forall k :: 0 <= k < |m.stages| ==> m.stages[k].waypoints != []
    decreases |m.stages| - s.stageIndex, |m.stages[s.stageIndex].waypoints| - s.waypointIndex
  {
    if !Near(m, p, s.stageIndex, s.waypointIndex) then s
    else
      var t := Pass(m, s, p, now);
      if t.stageIndex == |m.stages| then t else Advance(m, t, p, now)
  }

  function HeadingError(g: Trig, pose: Pose, target: Point): real
    requires g.pi > 0.0
  {
    Abs(NormalizeAngle(g, g.atan2(target.y - pose.y, target.x - pose.x) - pose.yaw))
  }

  /** The watchdog looks at one update; it may end the mission. */
  function Watch(m: Setup, s: State, distance: real, heading: real, now: real): State {
    var renewed := Progress(s.stageIndex, s.waypointIndex, distance, heading, now);
    if s.progress.None? || s.progress.value.stage != s.stageIndex || s.progress.value.waypoint != s.waypointIndex
    then s.(progress := Some(renewed))
    else
      var best := s.progress.value;
      if distance <= best.bestDistance - m.config.progressEpsilon then s.(progress := Some(renewed))
      else if heading <= best.bestHeading - m.config.headingEpsilon
      then s.(progress := Some(best.(bestHeading := heading, at := now)))
      else if now - best.at > m.config.progressTimeout then Fail(m, s, WaypointNoProgress)
      else s
  }

  function RemainingPath(m: Setup, s: State): seq<Point>
    requires Indexed(m, s)
  {
    seq(|m.stages[s.stageIndex].waypoints| - s.waypointIndex,
        k requires 0 <= k < |m.stages[s.stageIndex].waypoints| - s.waypointIndex => Target(m, s.stageIndex, s.waypointIndex + k))
  }

  function Curvature(p: Point): real {
    var squared := Square(p.x) + Square(p.y);
    if squared <= CURVATURE_FLOOR then 0.0 else 2.0 * p.y / squared
  }

  predicate OnFinalWaypoint(m: Setup, s: State)
    requires Indexed(m, s)
  {
    s.stageIndex == |m.stages| - 1 && s.waypointIndex == |m.stages[s.stageIndex].waypoints| - 1
  }

  /** The forward speed along an arc of the given curvature; `slowdown` scales it near the end of the route. */
  function Speed(c: Config, curvature: real, slowdown: real): real {
    Times(if Abs(curvature) > CURVATURE_FLOOR then Min(c.maxLinear, c.maxAngular / Abs(curvature)) else c.maxLinear, slowdown)
  }

  function Slowdown(m: Setup, s: State, distance: real): real
    requires Indexed(m, s) && m.config.finalSlowDistance > 0.0
  {
    if OnFinalWaypoint(m, s) then Min(1.0, distance / m.config.finalSlowDistance) else 1.0
  }

  function Pursue(c: Config, curvature: real, slowdown: real): Command {
    var linear := Speed(c, curvature, slowdown);
    Command(linear, Clamp(Times(linear, curvature), c.maxAngular))
  }

  /** The command for a carrot given in the frame of the base. */
  function Steer(m: Setup, s: State, carrot: Point, distance: real): Command
    requires Indexed(m, s) && m.config.finalSlowDistance > 0.0
  {
    var angle := m.trig.atan2(carrot.y, carrot.x);
    if Abs(angle) > m.config.rotateMinAngle
    then Command(0.0, Clamp(Times(m.config.angularKp, angle), m.config.maxAngular))
    else Pursue(m.config, Curvature(carrot), Slowdown(m, s, distance))
  }

  /** Watch the progress towards the current target and steer for it. */
  function Follow(m: Setup, s: State, pose: Pose, now: real): (State, Command)
    requires ValidSetup(m) && Indexed(m, s) && s.phase.Running?
  {
    var p, target := Point(pose.x, pose.y), Target(m, s.stageIndex, s.waypointIndex);
    var distance := Distance(m.trig, p, target);
    var t := Watch(m, s, distance, HeadingError(m.trig, pose, target), now);
    if t.phase.Failed? then (t, HALT)
    else
      var carrot := LookaheadCarrot.Carrot(m.trig, p, RemainingPath(m, s), m.config.lookahead);
      (t, Steer(m, s, InFrame(m.trig, pose, carrot), distance))
  }

  /** The part of an update that moves along the route. */
  function Drive(m: Setup, s: State, pose: Pose, now: real): (State, Command)
    requires ValidSetup(m) && Indexed(m, s) && s.phase.Running?
  {
    var p := Point(pose.x, pose.y);
    AdvanceIsIndexed(m, s, p, now);
    var t := Advance(m, s, p, now);
    if t.phase.Succeeded? then (t, HALT) else Follow(m, t, pose, now)
  }

  function Update(m: Setup, s: State, i: Input): (State, Command)
    requires ValidSetup(m) && (s.phase.Running? ==> Indexed(m, s))
  {
    var (t, clear) := Screen(m, s, i);
    if clear then Drive(m, t, i.pose.value, i.now) else (t, HALT)
  }

  lemma {:induction false} AdvanceIsIndexed(m: Setup, s: State, p: Point, now: real)
    requires Indexed(m, s) && s.phase.Running? && forall k :: 0 <= k < |m.stages| ==> m.stages[k].waypoints != []
    ensures var t := Advance(m, s, p, now);
      if t.phase.Succeeded? then t.stageIndex == |m.stages| && t.waypointIndex == 0
      else t.phase.Running? && Indexed(m, t) && !Near(m, p, t.stageIndex, t.waypointIndex)
    decreases |m.stages| - s.stageIndex, |m.stages[s.stageIndex].waypoints| - s.waypointIndex
  {
    if !Near(m, p, s.stageIndex, s.waypointIndex) {
    } else {
      var t := Pass(m, s, p, now);
      if t.stageIndex < |m.stages| {
        AdvanceIsIndexed(m, t, p, now);
      }
    }
  }

  // ----- runs -----

  datatype Step =
    | DoStart(now: real, watchdogNow: Option<real>)
    | DoCancel
    | DoEStop
    | DoReset
    | DoUpdate(input: Input)

  function Next(m: Setup, s: State, step: Step): State
    requires ValidSetup(m) && (s.phase.Running? ==> Indexed(m, s))
  {
    match step
    case DoStart(now, watchdogNow) => Start(s, now, watchdogNow).0
    case DoCancel => Cancel(s).0
    case DoEStop => EStop(s)
    case DoReset => Reset(s).0
    case DoUpdate(input) => Update(m, s, input).0
  }

  // ----- the inductive invariant -----

  /** A recorded result is honest: the right stage, close to its endpoint, within the time of the mission. */
  predicate Honest(m: Setup, r: StageResult, k: nat)
    requires k < |m.stages|
  {
    && r.id == m.stages[k].id && r.name == m.stages[k].name
    && r.endpointError <= m.config.waypointTolerance + ENDPOINT_TOLERANCE
    && r.elapsed <= m.config.missionTimeout
  }

  ghost predicate Recorded(m: Setup, s: State) {
    && |s.results| == s.stageIndex <= |m.stages|
    && forall k :: 0 <= k < |s.results| ==> Honest(m, s.results[k], k)
  }

  predicate Watching(m: Setup, s: State) {
    s.progress.Some? ==>
      && s.progress.value.stage == s.stageIndex && s.progress.value.waypoint == s.waypointIndex
      && 0.0 <= s.progress.value.bestDistance && 0.0 <= s.progress.value.bestHeading <= m.trig.pi
  }

  predicate Phased(m: Setup, s: State) {
    && (s.phase.Running? || s.phase.Failed? || s.phase.Cancelled? ==> Indexed(m, s))
    && (s.phase.Running? ==> s.startedAt.Some?)
    && (s.phase.Succeeded? ==> s.stageIndex == |m.stages|)
    && (s.phase.Failed? ==>
          s.failure.Some? && s.failedStage == Some(m.stages[s.stageIndex].id) && s.failedWaypoint == Some(s.waypointIndex))
  }

  ghost predicate Inv(m: Setup, s: State) {
    Recorded(m, s) && Watching(m, s) && Phased(m, s)
  }
}
