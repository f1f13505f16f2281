/** The mission controller over every run: honest stage results, bounded commands, guarded motion, and a watchdog that
    cannot be fed for ever. */
module MissionProofs {
  import opened SafetyTypes
  import opened MissionGeometry
  import opened MissionSpec

  // ----- stages -----

  /** Whoever is near the last waypoint of a stage is near its endpoint. */
  lemma LastWaypointIsEndpoint(m: Setup, p: Point, k: nat)
    requires ValidSetup(m) && k < |m.stages| && Near(m, p, k, |m.stages[k].waypoints| - 1)
    ensures Distance(m.trig, p, Odom(m, m.stages[k].endpoint)) <= m.config.waypointTolerance + ENDPOINT_TOLERANCE
  {
    var stage := m.stages[k];
    assert ValidStage(m.trig, stage);
    var w, e := stage.waypoints[|stage.waypoints| - 1], stage.endpoint;
    Triangle(m.trig, p, Odom(m, w), Odom(m, e));
    FrameKeepsDistances(m.trig, m.start, w, e);
    DistanceIsSymmetric(m.trig, w, e);
  }

  lemma PassKeepsInv(m: Setup, s: State, p: Point, now: real)
    requires ValidSetup(m) && Inv(m, s) && s.phase.Running? && Near(m, p, s.stageIndex, s.waypointIndex)
    requires !TimedOut(m, s, now)
    ensures var t := Pass(m, s, p, now);
      && Inv(m, t) && t.startedAt == s.startedAt && s.results <= t.results
      && (t.phase.Running? || (t.phase.Succeeded? && t.stageIndex == |m.stages|))
  {
    if s.waypointIndex + 1 == |m.stages[s.stageIndex].waypoints| {
      LastWaypointIsEndpoint(m, p, s.stageIndex);
    }
    hide Near, Lawful, Odom;
    assert s.stageIndex + 1 < |m.stages| ==> ValidStage(m.trig, m.stages[s.stageIndex + 1]);
  }

  lemma {:induction false} AdvanceKeepsInv(m: Setup, s: State, p: Point, now: real)
    requires ValidSetup(m) && Inv(m, s) && s.phase.Running? && !TimedOut(m, s, now)
    ensures Inv(m, Advance(m, s, p, now))
    decreases |m.stages| - s.stageIndex, |m.stages[s.stageIndex].waypoints| - s.waypointIndex
  {
    if !Near(m, p, s.stageIndex, s.waypointIndex) {
    } else {
      PassKeepsInv(m, s, p, now);
      var t := Pass(m, s, p, now);
      if t.stageIndex < |m.stages| {
        AdvanceKeepsInv(m, t, p, now);
      }
    }
  }

  predicate Precedes(i: nat, j: nat, i': nat, j': nat) {
    i < i' || (i == i' && j < j')
  }

  /** A position moves past exactly the waypoints it is near to: everything from the old place up to the new one was
      near, and unless the mission is over the new one is not. */
  lemma {:induction false} AdvancePassesExactlyTheNear(m: Setup, s: State, p: Point, now: real)
    requires Indexed(m, s) && s.phase.Running? && forall k :: 0 <= k < |m.stages| ==> m.stages[k].waypoints != []
    ensures var t := Advance(m, s, p, now);
      && (t.phase.Succeeded? <==> t.stageIndex == |m.stages|)
      && (t.phase.Succeeded? || (Indexed(m, t) && !Near(m, p, t.stageIndex, t.waypointIndex)))
      && (forall i: nat, j: nat :: i < |m.stages| && j < |m.stages[i].waypoints|
                   && !Precedes(i, j, s.stageIndex, s.waypointIndex) && Precedes(i, j, t.stageIndex, t.waypointIndex)
            ==> Near(m, p, i, j))
    decreases |m.stages| - s.stageIndex, |m.stages[s.stageIndex].waypoints| - s.waypointIndex
  {
    hide Distance, Target, Completed;
    AdvanceIsIndexed(m, s, p, now);
    if !Near(m, p, s.stageIndex, s.waypointIndex) {
    } else {
      var t := Pass(m, s, p, now);
      if t.stageIndex < |m.stages| {
        AdvancePassesExactlyTheNear(m, t, p, now);
      }
    }
  }

  lemma StagesHaveWaypoints(m: Setup)
    requires ValidSetup(m)
    ensures forall k :: 0 <= k < |m.stages| ==> m.stages[k].waypoints != []
  {
    assert forall k :: 0 <= k < |m.stages| ==> ValidStage(m.trig, m.stages[k]);
  }

  // ----- updates -----

  lemma HeadingErrorRange(g: Trig, pose: Pose, target: Point)
    requires Lawful(g)
    ensures 0.0 <= HeadingError(g, pose, target) <= g.pi
  {
    NormalizeAngleIsCongruent(g, g.atan2(target.y - pose.y, target.x - pose.x) - pose.yaw);
  }

  lemma WatchKeepsInv(m: Setup, s: State, distance: real, heading: real, now: real)
    requires ValidConfig(m.config) && Inv(m, s) && s.phase.Running? && 0.0 <= distance && 0.0 <= heading <= m.trig.pi
    ensures var t := Watch(m, s, distance, heading, now);
      Inv(m, t) && (t.phase.Running? || t.phase.Failed?) && t.stageIndex == s.stageIndex && t.waypointIndex == s.waypointIndex
  {
  }

  lemma ScreenKeepsInv(m: Setup, s: State, i: Input)
    requires Inv(m, s)
    ensures var (t, clear) := Screen(m, s, i);
      && Inv(m, t) && t.progress == s.progress
      && (clear ==> s.phase.Running? && t.phase.Running? && i.pose.Some? && t.startedAt == s.startedAt && !TimedOut(m, s, i.now))
  {
  }

  lemma DriveKeepsInv(m: Setup, s: State, pose: Pose, now: real)
    requires ValidSetup(m) && Inv(m, s) && s.phase.Running? && !TimedOut(m, s, now)
    ensures Inv(m, Drive(m, s, pose, now).0)
  {
    var p := Point(pose.x, pose.y);
    StagesHaveWaypoints(m);
    AdvanceIsIndexed(m, s, p, now);
    AdvanceKeepsInv(m, s, p, now);
    var t := Advance(m, s, p, now);
    if t.phase.Running? {
      var target := Target(m, t.stageIndex, t.waypointIndex);
      HeadingErrorRange(m.trig, pose, target);
      assert Distance(m.trig, p, target) >= 0.0;
      hide Inv, Watch, Lawful;
      WatchKeepsInv(m, t, Distance(m.trig, p, target), HeadingError(m.trig, pose, target), now);
    }
  }

  lemma NextKeepsInv(m: Setup, s: State, step: Step)
    requires ValidSetup(m) && Inv(m, s)
    ensures Inv(m, Next(m, s, step))
  {
    match step
    case DoUpdate(i) =>
      ScreenKeepsInv(m, s, i);
      hide Screen, Drive, Recorded, Watching;
      var (t, clear) := Screen(m, s, i);
      if clear { DriveKeepsInv(m, t, i.pose.value, i.now); }
    case DoStart(_, _) => StagesHaveWaypoints(m);
    case _ =>
  }

  ghost function Run(m: Setup, s: State, steps: seq<Step>): State
    requires ValidSetup(m) && Inv(m, s)
    decreases |steps|
  {
    hide Recorded, Watching, Next, ValidSetup;
    if steps == [] then s else NextKeepsInv(m, s, steps[0]); Run(m, Next(m, s, steps[0]), steps[1..])
  }

  lemma {:induction false} RunKeepsInv(m: Setup, s: State, steps: seq<Step>)
    requires ValidSetup(m) && Inv(m, s)
    ensures Inv(m, Run(m, s, steps))
    decreases |steps|
  {
    hide Recorded, Watching, Next, ValidStage, Lawful;
    if steps == [] {
    } else {
      NextKeepsInv(m, s, steps[0]);
      RunKeepsInv(m, Next(m, s, steps[0]), steps[1..]);
    }
  }

  lemma InitInv(m: Setup)
    requires ValidSetup(m)
    ensures Inv(m, INIT)
  {
  }

  /** Whatever happens to a controller: its results are the stages done so far, in order, each within tolerance of the
      stage's endpoint and in time; success means all of them; and failure names where the mission stood. */
  lemma StageResultsAreHonest(m: Setup, steps: seq<Step>)
    requires ValidSetup(m)
    ensures Inv(m, INIT)
    ensures var s := Run(m, INIT, steps);
      && |s.results| == s.stageIndex <= |m.stages|
      && (forall k :: 0 <= k < |s.results| ==> Honest(m, s.results[k], k))
      && (s.phase.Succeeded? ==> |s.results| == |m.stages|)
      && (s.phase.Running? ==> Indexed(m, s))
      && (s.phase.Failed? ==> Indexed(m, s) && s.failedStage == Some(m.stages[s.stageIndex].id))
  {
    InitInv(m);
    RunKeepsInv(m, INIT, steps);
  }

  // ----- commands -----

  lemma ClampBounds(x: real, bound: real)
    requires bound >= 0.0
    ensures Abs(Clamp(x, bound)) <= bound && (Clamp(x, bound) == x <==> Abs(x) <= bound)
  {
  }

  lemma SpeedBounds(c: Config, curvature: real, slowdown: real)
    requires ValidConfig(c) && 0.0 <= slowdown <= 1.0
    ensures 0.0 <= Speed(c, curvature, slowdown) <= c.maxLinear
    ensures Abs(curvature) > CURVATURE_FLOOR ==> Speed(c, curvature, slowdown) <= c.maxAngular / Abs(curvature)
  {
    if Abs(curvature) > CURVATURE_FLOOR {
      QuotientBounds(c.maxAngular, Abs(curvature), 0.0);
      QuotientNonNegative(c.maxAngular, Abs(curvature));
      ScaledDown(Min(c.maxLinear, c.maxAngular / Abs(curvature)), slowdown);
    } else {
      ScaledDown(c.maxLinear, slowdown);
    }
  }

  lemma QuotientNonNegative(a: real, b: real)
    requires a >= 0.0 && b > 0.0
    ensures a / b >= 0.0
  {
    QuotientBounds(a, b, 0.0);
  }

  lemma ScaledDown(a: real, r: real)
    requires a >= 0.0 && 0.0 <= r <= 1.0
    ensures 0.0 <= Times(a, r) <= a
  {
    assert Times(a, 1.0 - r) == a - Times(a, r);
    assert a == 0.0 || r == 0.0 ==> Times(a, r) == 0.0;
    assert r == 1.0 ==> Times(a, r) == a;
    hide Times;
    if a > 0.0 && r > 0.0 { PositiveTimes(a, r); }
    if a > 0.0 && r < 1.0 { PositiveTimes(a, 1.0 - r); }
  }

  lemma SlowdownRange(m: Setup, s: State, distance: real)
    requires Indexed(m, s) && m.config.finalSlowDistance > 0.0 && distance >= 0.0
    ensures 0.0 <= Slowdown(m, s, distance) <= 1.0
  {
    QuotientNonNegative(distance, m.config.finalSlowDistance);
  }

  lemma AbsTimes(a: real, b: real)
    requires a >= 0.0
    ensures Abs(Times(a, b)) == Times(a, Abs(b))
  {
    assert Times(a, -b) == -Times(a, b);
    assert b == 0.0 || a == 0.0 ==> Times(a, b) == 0.0;
    hide Times;
    if a > 0.0 && b > 0.0 { PositiveTimes(a, b); }
    if a > 0.0 && b < 0.0 { PositiveTimes(a, -b); }
  }

  lemma TimesGrows(a: real, a': real, b: real)
    requires a <= a' && b >= 0.0
    ensures Times(a, b) <= Times(a', b)
  {
    assert Times(a' - a, b) == Times(a', b) - Times(a, b);
    assert a' == a || b == 0.0 ==> Times(a' - a, b) == 0.0;
    hide Times;
    if a < a' && b > 0.0 { PositiveTimes(a' - a, b); }
  }

  /** On an arc the forward speed already respects the turning limit, except on an arc so flat that it is not reduced. */
  lemma ArcIsFeasible(c: Config, curvature: real, slowdown: real)
    requires ValidConfig(c) && 0.0 <= slowdown <= 1.0
    requires Abs(curvature) > CURVATURE_FLOOR || Times(c.maxLinear, CURVATURE_FLOOR) <= c.maxAngular
    ensures Abs(Times(Speed(c, curvature, slowdown), curvature)) <= c.maxAngular
  {
    var k, v := Abs(curvature), Speed(c, curvature, slowdown);
    SpeedBounds(c, curvature, slowdown);
    AbsTimes(v, curvature);
    if k > CURVATURE_FLOOR {
      QuotientBounds(c.maxAngular, k, v);
      TimesGrows(v, c.maxAngular / k, k);
      assert Times(c.maxAngular / k, k) == c.maxAngular;
    } else {
      TimesGrows(v, c.maxLinear, k);
      assert Times(c.maxLinear, k) == Times(k, c.maxLinear) && Times(c.maxLinear, CURVATURE_FLOOR) == Times(CURVATURE_FLOOR, c.maxLinear);
      TimesGrows(k, CURVATURE_FLOOR, c.maxLinear);
    }
  }

  /** The arc of the commanded curvature, tangent to the heading at the robot, passes through the carrot. */
  lemma PursuitArcMeetsCarrot(p: Point)
    requires Curvature(p) != 0.0
    ensures var radius := 1.0 / Curvature(p); Square(p.x) + Square(p.y - radius) == Square(radius)
  {
    var k, squared := Curvature(p), Square(p.x) + Square(p.y);
    var radius := 1.0 / k;
    assert k * squared == 2.0 * p.y;
    assert radius * k == 1.0;
    assert 2.0 * p.y * radius == squared by {
      assert 2.0 * p.y * radius == (radius * k) * squared;
    }
    assert Square(p.y - radius) == Square(p.y) - 2.0 * p.y * radius + Square(radius);
  }

  predicate ClampIsIdle(c: Config, curvature: real, slowdown: real) {
    Pursue(c, curvature, slowdown).angular == Times(Speed(c, curvature, slowdown), curvature)
  }

  /** The last clamp of the turning rate never changes anything exactly when full speed on the flattest arc that is
      treated as straight stays within the turning limit; the default configuration is of that kind. */
  lemma LastClampIsIdleIff(c: Config)
    requires ValidConfig(c)
    ensures (forall curvature, slowdown :: 0.0 <= slowdown <= 1.0 ==> ClampIsIdle(c, curvature, slowdown))
      <==> Times(c.maxLinear, CURVATURE_FLOOR) <= c.maxAngular
    ensures ValidConfig(DEFAULTS) && Times(DEFAULTS.maxLinear, CURVATURE_FLOOR) <= DEFAULTS.maxAngular
  {
    if Times(c.maxLinear, CURVATURE_FLOOR) <= c.maxAngular {
      forall curvature, slowdown | 0.0 <= slowdown <= 1.0 ensures ClampIsIdle(c, curvature, slowdown) {
        ArcIsFeasible(c, curvature, slowdown);
        ClampBounds(Times(Speed(c, curvature, slowdown), curvature), c.maxAngular);
      }
    } else {
      assert Speed(c, CURVATURE_FLOOR, 1.0) == c.maxLinear;
      SpeedBounds(c, CURVATURE_FLOOR, 1.0);
      ClampBounds(Times(c.maxLinear, CURVATURE_FLOOR), c.maxAngular);
      assert !ClampIsIdle(c, CURVATURE_FLOOR, 1.0);
    }
  }

  ghost predicate Bounded(c: Config, command: Command) {
    0.0 <= command.linear <= c.maxLinear && Abs(command.angular) <= c.maxAngular
  }

  lemma SteerIsBounded(m: Setup, s: State, carrot: Point, distance: real)
    requires ValidConfig(m.config) && Indexed(m, s) && distance >= 0.0
    ensures Bounded(m.config, Steer(m, s, carrot, distance))
  {
    var curvature, slowdown := Curvature(carrot), Slowdown(m, s, distance);
    SlowdownRange(m, s, distance);
    SpeedBounds(m.config, curvature, slowdown);
    ClampBounds(Times(Speed(m.config, curvature, slowdown), curvature), m.config.maxAngular);
    ClampBounds(Times(m.config.angularKp, m.trig.atan2(carrot.y, carrot.x)), m.config.maxAngular);
    hide Times, Clamp, Speed, Slowdown;
  }

  /** Steering looks at the state only for where the mission stands. */
  lemma PlaceIsEnough(m: Setup, s: State, t: State)
    requires ValidSetup(m) && Indexed(m, s) && t.stageIndex == s.stageIndex && t.waypointIndex == s.waypointIndex
    ensures RemainingPath(m, s) == RemainingPath(m, t) && RemainingPath(m, s) != []
    ensures forall carrot, distance :: Steer(m, s, carrot, distance) == Steer(m, t, carrot, distance)
  {
    hide Lawful, Target, Pursue;
  }

  /** What must be true for a command to move the robot: the mission is and stays running, in time, with fresh odometry,
      no obstacle, its target out of reach, and progress made recently enough. */
  ghost predicate MotionJustified(m: Setup, s: State, i: Input, t: State)
    requires ValidSetup(m)
  {
    && s.phase.Running? && t.phase.Running? && Indexed(m, t)
    && !TimedOut(m, s, i.now)
    && i.pose.Some? && OdomAge(s, i) <= m.config.odomTimeout
    && !Obstructed(m, i.front)
    && !Near(m, Point(i.pose.value.x, i.pose.value.y), t.stageIndex, t.waypointIndex)
    && t.progress.Some? && i.now - t.progress.value.at <= m.config.progressTimeout
  }

  lemma WatchIsRecent(m: Setup, s: State, distance: real, heading: real, now: real)
    requires ValidConfig(m.config) && s.phase.Running?
    ensures var t := Watch(m, s, distance, heading, now);
      t.phase.Running? ==> t.progress.Some? && now - t.progress.value.at <= m.config.progressTimeout
  {
  }

  lemma DriveIsJustified(m: Setup, s: State, pose: Pose, now: real)
    requires ValidSetup(m) && Indexed(m, s) && s.phase.Running?
    ensures var (t, command) := Drive(m, s, pose, now);
      && Bounded(m.config, command)
      && (command != HALT ==>
            && t.phase.Running? && Indexed(m, t) && !Near(m, Point(pose.x, pose.y), t.stageIndex, t.waypointIndex)
            && t.progress.Some? && now - t.progress.value.at <= m.config.progressTimeout)
  {
    var p := Point(pose.x, pose.y);
    StagesHaveWaypoints(m);
    AdvanceIsIndexed(m, s, p, now);
    var t := Advance(m, s, p, now);
    if t.phase.Running? {
      var target := Target(m, t.stageIndex, t.waypointIndex);
      var distance := Distance(m.trig, p, target);
      assert distance >= 0.0;
      var carrot := LookaheadCarrot.Carrot(m.trig, p, RemainingPath(m, t), m.config.lookahead);
      SteerIsBounded(m, t, InFrame(m.trig, pose, carrot), distance);
      WatchIsRecent(m, t, distance, HeadingError(m.trig, pose, target), now);
      hide Lawful, Steer, InFrame, HeadingError, Distance, Target;
    }
  }

  /** Every command is within the limits, and a command that is not a halt is justified. */
  lemma MotionIsJustified(m: Setup, s: State, i: Input)
    requires ValidSetup(m) && Inv(m, s)
    ensures var (t, command) := Update(m, s, i);
      Bounded(m.config, command) && (command != HALT ==> MotionJustified(m, s, i, t))
  {
    var (t, clear) := Screen(m, s, i);
    if clear {
      DriveIsJustified(m, t, i.pose.value, i.now);
    }
    hide Drive;
  }

  /** An emergency stop stays until it is reset: nothing else leaves it, and every command is a halt. */
  lemma {:induction false} EmergencyStopLatches(m: Setup, s: State, steps: seq<Step>)
    requires ValidSetup(m) && Inv(m, s) && s.phase.EStopped? && forall step :: step in steps ==> !step.DoReset?
    ensures Run(m, s, steps).phase.EStopped?
    ensures forall i :: Update(m, Run(m, s, steps), i).1 == HALT
    decreases |steps|
  {
    if steps == [] {
    } else {
      NextKeepsInv(m, s, steps[0]);
      EmergencyStopLatches(m, Next(m, s, steps[0]), steps[1..]);
    }
  }

  // ----- the watchdog -----

  predicate On(s: State, i: nat, j: nat) {
    s.progress.Some? && s.progress.value.stage == i && s.progress.value.waypoint == j
  }

  /** Every state of the run has the watchdog on the same waypoint. */
  ghost predicate StaysOn(m: Setup, s: State, steps: seq<Step>, i: nat, j: nat)
    requires ValidSetup(m) && Inv(m, s)
    decreases |steps|
  {
    On(s, i, j) && if steps == [] then true else NextKeepsInv(m, s, steps[0]); StaysOn(m, Next(m, s, steps[0]), steps[1..], i, j)
  }

  /** How often the watchdog was fed along a run. */
  ghost function Refreshes(m: Setup, s: State, steps: seq<Step>): nat
    requires ValidSetup(m) && Inv(m, s)
    decreases |steps|
  {
    if steps == [] then 0
    else
      NextKeepsInv(m, s, steps[0]);
      var t := Next(m, s, steps[0]);
      (if t.progress != s.progress then 1 else 0) + Refreshes(m, t, steps[1..])
  }

  function Buckets(x: real, epsilon: real): (n: int)
    requires epsilon > 0.0
  {
    (x / epsilon).Floor
  }

  lemma BucketsDrop(x: real, y: real, epsilon: real)
    requires epsilon > 0.0
    ensures 0.0 <= x ==> 0 <= Buckets(x, epsilon)
    ensures x <= y ==> Buckets(x, epsilon) <= Buckets(y, epsilon)
    ensures x <= y - epsilon ==> Buckets(x, epsilon) < Buckets(y, epsilon)
  {
    var n, k := Buckets(x, epsilon), Buckets(y, epsilon);
    if 0.0 <= x { QuotientNonNegative(x, epsilon); }
    if x <= y { QuotientOrder(x, y, epsilon); }
    if x <= y - epsilon {
      QuotientOrder(x, y - epsilon, epsilon);
      QuotientStep(y, epsilon);
    }
  }

  lemma QuotientOrder(x: real, y: real, b: real)
    requires b > 0.0 && x <= y
    ensures x / b <= y / b
  {
    QuotientBounds(x, b, y / b);
    QuotientBounds(y, b, x / b);
  }

  lemma QuotientStep(y: real, b: real)
    requires b > 0.0
    ensures (y - b) / b == y / b - 1.0
  {
    QuotientBounds(y, b, 0.0);
    QuotientBounds(y - b, b, y / b - 1.0);
    assert (y / b - 1.0) * b == y / b * b - b;
  }

  /** How often the watchdog can still be fed: lexicographic in the best distance and the best heading error. */
  function Budget(m: Setup, p: Progress): int
    requires ValidConfig(m.config)
  {
    Buckets(p.bestDistance, m.config.progressEpsilon) * (Buckets(m.trig.pi, m.config.headingEpsilon) + 1)
    + Buckets(p.bestHeading, m.config.headingEpsilon)
  }

  lemma BudgetRange(m: Setup, p: Progress)
    requires ValidSetup(m) && 0.0 <= p.bestDistance && 0.0 <= p.bestHeading <= m.trig.pi
    ensures 0 <= Budget(m, p)
    ensures Budget(m, p) < (Buckets(p.bestDistance, m.config.progressEpsilon) + 1) * (Buckets(m.trig.pi, m.config.headingEpsilon) + 1)
  {
    BucketsDrop(p.bestDistance, p.bestDistance, m.config.progressEpsilon);
    BucketsDrop(p.bestHeading, m.trig.pi, m.config.headingEpsilon);
    var d, h := Buckets(p.bestDistance, m.config.progressEpsilon), Buckets(m.trig.pi, m.config.headingEpsilon);
    assert (d + 1) * (h + 1) == d * (h + 1) + h + 1;
  }

  lemma LexicographicDrop(d: int, d': int, n: int, h: int, h': int)
    requires 0 <= d' < d && 0 <= h && 0 <= h' <= n
    ensures d' * (n + 1) + h' < d * (n + 1) + h
  {
    assert (d - 1 - d') * (n + 1) >= 0;
  }

  /** Feeding the watchdog costs budget. */
  lemma RefreshCosts(m: Setup, p: Progress, q: Progress)
    requires ValidSetup(m) && 0.0 <= p.bestDistance && 0.0 <= p.bestHeading && 0.0 <= q.bestDistance && 0.0 <= q.bestHeading <= m.trig.pi
    requires q.bestDistance <= p.bestDistance - m.config.progressEpsilon
      || (q.bestDistance == p.bestDistance && q.bestHeading <= p.bestHeading - m.config.headingEpsilon)
    ensures Budget(m, q) < Budget(m, p)
  {
    var n := Buckets(m.trig.pi, m.config.headingEpsilon);
    hide Buckets;
    BucketsDrop(q.bestHeading, m.trig.pi, m.config.headingEpsilon);
    BucketsDrop(q.bestHeading, p.bestHeading, m.config.headingEpsilon);
    BucketsDrop(p.bestHeading, p.bestHeading, m.config.headingEpsilon);
    BucketsDrop(q.bestDistance, p.bestDistance, m.config.progressEpsilon);
    if q.bestDistance <= p.bestDistance - m.config.progressEpsilon {
      LexicographicDrop(Buckets(p.bestDistance, m.config.progressEpsilon), Buckets(q.bestDistance, m.config.progressEpsilon), n,
                        Buckets(p.bestHeading, m.config.headingEpsilon), Buckets(q.bestHeading, m.config.headingEpsilon));
    }
  }

  /** What one step does to a watchdog that stays on its waypoint: nothing, or feed it at the price of some budget. */
  lemma StepCosts(m: Setup, s: State, step: Step)
    requires ValidSetup(m) && Inv(m, s) && s.progress.Some?
    requires On(Next(m, s, step), s.progress.value.stage, s.progress.value.waypoint)
    ensures var t := Next(m, s, step);
      && Inv(m, t)
      && Budget(m, t.progress.value) <= Budget(m, s.progress.value) - (if t.progress != s.progress then 1 else 0)
  {
    NextKeepsInv(m, s, step);
    if step.DoUpdate? {
      ScreenKeepsInv(m, s, step.input);
      var (t, clear) := Screen(m, s, step.input);
      if clear {
        DriveCosts(m, t, step.input.pose.value, step.input.now);
      }
      hide Screen, Drive, Budget;
    }
  }

  lemma DriveCosts(m: Setup, s: State, pose: Pose, now: real)
    requires ValidSetup(m) && Inv(m, s) && s.phase.Running? && s.progress.Some? && !TimedOut(m, s, now)
    requires On(Drive(m, s, pose, now).0, s.progress.value.stage, s.progress.value.waypoint)
    ensures var t := Drive(m, s, pose, now).0;
      Budget(m, t.progress.value) <= Budget(m, s.progress.value) - (if t.progress != s.progress then 1 else 0)
  {
    var p := Point(pose.x, pose.y);
    StagesHaveWaypoints(m);
    AdvanceIsIndexed(m, s, p, now);
    AdvanceKeepsInv(m, s, p, now);
    AdvanceMovesOn(m, s, p, now);
    var t := Advance(m, s, p, now);
    if t.phase.Running? && t == s {
      var target := Target(m, s.stageIndex, s.waypointIndex);
      HeadingErrorRange(m.trig, pose, target);
      assert Distance(m.trig, p, target) >= 0.0;
      WatchCosts(m, s, Distance(m.trig, p, target), HeadingError(m.trig, pose, target), now);
    }
    hide Advance, Budget;
  }

  lemma WatchCosts(m: Setup, s: State, distance: real, heading: real, now: real)
    requires ValidSetup(m) && Inv(m, s) && s.phase.Running? && s.progress.Some? && 0.0 <= distance && 0.0 <= heading <= m.trig.pi
    ensures var t := Watch(m, s, distance, heading, now);
      && t.progress.Some?
      && Budget(m, t.progress.value) <= Budget(m, s.progress.value) - (if t.progress != s.progress then 1 else 0)
  {
    var t := Watch(m, s, distance, heading, now);
    if t.progress != s.progress {
      RefreshCosts(m, s.progress.value, t.progress.value);
    }
    hide Budget;
  }

  /** An advance either moves nowhere or leaves its waypoint behind for good. */
  lemma {:induction false} AdvanceMovesOn(m: Setup, s: State, p: Point, now: real)
    requires ValidSetup(m) && Indexed(m, s)
    ensures var t := Advance(m, s, p, now);
      t == s || Precedes(s.stageIndex, s.waypointIndex, t.stageIndex, t.waypointIndex)
    decreases |m.stages| - s.stageIndex, |m.stages[s.stageIndex].waypoints| - s.waypointIndex
  {
    StagesHaveWaypoints(m);
    hide ValidSetup, Near, Completed;
    if !Near(m, p, s.stageIndex, s.waypointIndex) {
    } else {
      var t := Pass(m, s, p, now);
      if t.stageIndex < |m.stages| {
        AdvanceMovesOn(m, t, p, now);
      }
    }
  }

  lemma {:induction false} RefreshesAreBudgeted(m: Setup, s: State, steps: seq<Step>, i: nat, j: nat)
    requires ValidSetup(m) && Inv(m, s) && StaysOn(m, s, steps, i, j)
    ensures Refreshes(m, s, steps) <= Budget(m, s.progress.value)
    decreases |steps|
  {
    BudgetRange(m, s.progress.value);
    if steps == [] {
    } else {
      NextKeepsInv(m, s, steps[0]);
      RefreshesAreBudgeted(m, Next(m, s, steps[0]), steps[1..], i, j);
      StepCosts(m, s, steps[0]);
    }
  }

  /** The watchdog cannot be fed for ever: along a run that stays on one waypoint it is fed fewer than
      (floor(d / eps) + 1) * (floor(pi / eps_h) + 1) times, where d is the best distance at the beginning. */
  lemma WatchdogRunsDry(m: Setup, s: State, steps: seq<Step>, i: nat, j: nat)
    requires ValidSetup(m) && Inv(m, s) && StaysOn(m, s, steps, i, j)
    ensures Refreshes(m, s, steps)
      < (Buckets(s.progress.value.bestDistance, m.config.progressEpsilon) + 1) * (Buckets(m.trig.pi, m.config.headingEpsilon) + 1)
  {
    RefreshesAreBudgeted(m, s, steps, i, j);
    BudgetRange(m, s.progress.value);
  }

  /** A run of updates that see the robot and no obstacle, come at most `gap` apart, and keep the mission going on one
      waypoint. */
  ghost predicate Watched(m: Setup, s: State, inputs: seq<Input>, i: nat, j: nat, before: real, gap: real)
    requires ValidSetup(m) && Inv(m, s)
    decreases |inputs|
  {
    && s.phase.Running? && On(s, i, j)
    && if inputs == [] then true
       else
         NextKeepsInv(m, s, DoUpdate(inputs[0]));
         && inputs[0].pose.Some? && !Obstructed(m, inputs[0].front) && inputs[0].now <= before + gap
         && Watched(m, Next(m, s, DoUpdate(inputs[0])), inputs[1..], i, j, inputs[0].now, gap)
  }

  /** An update that comes later than the watchdog allows, and shows no improvement worth the name. */
  predicate Overdue(m: Setup, s: State, pose: Pose, now: real)
    requires Indexed(m, s) && m.trig.pi > 0.0
  {
    var target := Target(m, s.stageIndex, s.waypointIndex);
    && s.progress.Some? && now - s.progress.value.at > m.config.progressTimeout
    && Distance(m.trig, Point(pose.x, pose.y), target) > s.progress.value.bestDistance - m.config.progressEpsilon
    && HeadingError(m.trig, pose, target) > s.progress.value.bestHeading - m.config.headingEpsilon
  }

  /** The watchdog ends a mission exactly at an update that passes every check before it, has its target out of reach, and
      is overdue: one that comes late, however late, and shows an improvement feeds it instead. */
  lemma WatchdogEndsIff(m: Setup, s: State, i: Input)
    requires ValidSetup(m) && Inv(m, s) && s.phase.Running?
    ensures var t := Next(m, s, DoUpdate(i));
      t.phase.Failed? && t.failure == Some(WaypointNoProgress) <==>
        && Screen(m, s, i).1 && !Near(m, Point(i.pose.value.x, i.pose.value.y), s.stageIndex, s.waypointIndex)
        && Overdue(m, s, i.pose.value, i.now)
  {
    ScreenKeepsInv(m, s, i);
    var (t, clear) := Screen(m, s, i);
    if clear { DriveEndsIff(m, t, i.pose.value, i.now); }
    hide Drive, Distance, HeadingError, Target, Recorded, Lawful;
  }

  lemma DriveEndsIff(m: Setup, s: State, pose: Pose, now: real)
    requires ValidSetup(m) && Inv(m, s) && s.phase.Running?
    ensures Drive(m, s, pose, now).0.phase.Failed? ==> Drive(m, s, pose, now).0.failure == Some(WaypointNoProgress)
    ensures Drive(m, s, pose, now).0.phase.Failed? <==>
      !Near(m, Point(pose.x, pose.y), s.stageIndex, s.waypointIndex) && Overdue(m, s, pose, now)
  {
    var p := Point(pose.x, pose.y);
    StagesHaveWaypoints(m);
    AdvanceIsIndexed(m, s, p, now);
    if Near(m, p, s.stageIndex, s.waypointIndex) {
      var t := Pass(m, s, p, now);
      if t.stageIndex < |m.stages| { AdvanceClearsProgress(m, t, p, now); }
    }
    hide Near, Distance, HeadingError, Target, Recorded, Lawful, Steer, ValidStage;
  }

  lemma UpdateIsRecent(m: Setup, s: State, i: Input)
    requires ValidSetup(m) && Inv(m, s) && i.pose.Some? && !Obstructed(m, i.front)
    ensures var t := Next(m, s, DoUpdate(i));
      t.phase.Running? ==> t.progress.Some? && i.now - t.progress.value.at <= m.config.progressTimeout
  {
    ScreenKeepsInv(m, s, i);
    var (t, clear) := Screen(m, s, i);
    if clear { DriveIsRecent(m, t, i.pose.value, i.now); }
    hide Drive, Fail;
  }

  lemma DriveIsRecent(m: Setup, s: State, pose: Pose, now: real)
    requires ValidSetup(m) && Indexed(m, s) && s.phase.Running?
    ensures var t := Drive(m, s, pose, now).0;
      t.phase.Running? ==> t.progress.Some? && now - t.progress.value.at <= m.config.progressTimeout
  {
    var p := Point(pose.x, pose.y);
    StagesHaveWaypoints(m);
    AdvanceIsIndexed(m, s, p, now);
    var t := Advance(m, s, p, now);
    if t.phase.Running? {
      var target := Target(m, t.stageIndex, t.waypointIndex);
      WatchIsRecent(m, t, Distance(m.trig, p, target), HeadingError(m.trig, pose, target), now);
    }
  }

  lemma WatchStampsRefreshes(m: Setup, s: State, distance: real, heading: real, now: real)
    ensures var t := Watch(m, s, distance, heading, now);
      (t.progress == s.progress && s.progress.Some?) || (t.progress.Some? && t.progress.value.at == now)
  {
  }

  lemma DriveStampsRefreshes(m: Setup, s: State, pose: Pose, now: real)
    requires ValidSetup(m) && Indexed(m, s) && s.phase.Running?
    ensures var t := Drive(m, s, pose, now).0;
      t.phase.Running? ==> t.progress == s.progress || (t.progress.Some? && t.progress.value.at == now)
  {
    var p := Point(pose.x, pose.y);
    StagesHaveWaypoints(m);
    AdvanceIsIndexed(m, s, p, now);
    AdvanceClearsProgress(m, s, p, now);
    var t := Advance(m, s, p, now);
    if t.phase.Running? {
      var target := Target(m, t.stageIndex, t.waypointIndex);
      WatchStampsRefreshes(m, t, Distance(m.trig, p, target), HeadingError(m.trig, pose, target), now);
    }
    hide Watch, Advance, Distance, HeadingError, Target;
  }

  lemma UpdateStampsRefreshes(m: Setup, s: State, i: Input)
    requires ValidSetup(m) && Inv(m, s)
    ensures var t := Next(m, s, DoUpdate(i));
      t.phase.Running? ==> t.progress == s.progress || (t.progress.Some? && t.progress.value.at == i.now)
  {
    ScreenKeepsInv(m, s, i);
    var (t, clear) := Screen(m, s, i);
    if clear { DriveStampsRefreshes(m, t, i.pose.value, i.now); }
    hide Drive, Screen;
  }

  lemma {:induction false} AdvanceClearsProgress(m: Setup, s: State, p: Point, now: real)
    requires ValidSetup(m) && Indexed(m, s)
    ensures Advance(m, s, p, now) == s || Advance(m, s, p, now).progress.None?
    decreases |m.stages| - s.stageIndex, |m.stages[s.stageIndex].waypoints| - s.waypointIndex
  {
    StagesHaveWaypoints(m);
    hide ValidSetup, Near, Completed;
    if !Near(m, p, s.stageIndex, s.waypointIndex) {
    } else {
      var t := Pass(m, s, p, now);
      if t.stageIndex < |m.stages| {
        AdvanceClearsProgress(m, t, p, now);
      }
    }
  }

  /** Time spent on one waypoint is bounded once the updates are: with at most `gap` between them, no run stays on a
      waypoint longer than `progressTimeout` for each feed of the watchdog, a gap, and one last `progressTimeout`. */
  lemma {:induction false} StuckMissionEndsInTime(m: Setup, s: State, inputs: seq<Input>, i: nat, j: nat, before: real, gap: real)
    requires ValidSetup(m) && Inv(m, s) && Watched(m, s, inputs, i, j, before, gap) && inputs != [] && gap >= 0.0
    requires before <= s.progress.value.at + m.config.progressTimeout
    ensures inputs[|inputs| - 1].now <= s.progress.value.at + m.config.progressTimeout
      + Times(Budget(m, s.progress.value) as real, m.config.progressTimeout + gap)
    decreases |inputs|
  {
    hide Recorded, Watching, Next, Buckets, ValidStage, Lawful;
    var step, spare := DoUpdate(inputs[0]), m.config.progressTimeout + gap;
    NextKeepsInv(m, s, step);
    var t := Next(m, s, step);
    WatchedStep(m, s, inputs, i, j, before, gap);
    SpareGrows(Budget(m, s.progress.value), Budget(m, t.progress.value), spare);
    hide Times, Budget;
    if |inputs| == 1 {
    } else {
      assert inputs[1..][|inputs| - 2] == inputs[|inputs| - 1];
      StuckMissionEndsInTime(m, t, inputs[1..], i, j, inputs[0].now, gap);
    }
  }

  /** One watched update: recent, and if it fed the watchdog then at the price of budget and at its own time. */
  lemma WatchedStep(m: Setup, s: State, inputs: seq<Input>, i: nat, j: nat, before: real, gap: real)
    requires ValidSetup(m) && Inv(m, s) && Watched(m, s, inputs, i, j, before, gap) && inputs != []
    ensures var t := Next(m, s, DoUpdate(inputs[0]));
      && t.progress.Some?
      && inputs[0].now <= t.progress.value.at + m.config.progressTimeout
      && 0 <= Budget(m, t.progress.value) <= Budget(m, s.progress.value)
      && (t.progress.value.at == s.progress.value.at
          || (t.progress.value.at == inputs[0].now && Budget(m, t.progress.value) < Budget(m, s.progress.value)))
      && 0.0 <= m.config.progressTimeout
  {
    var step := DoUpdate(inputs[0]);
    NextKeepsInv(m, s, step);
    UpdateIsRecent(m, s, inputs[0]);
    UpdateStampsRefreshes(m, s, inputs[0]);
    StepCosts(m, s, step);
    BudgetRange(m, Next(m, s, step).progress.value);
    hide Next, Budget, Recorded, Phased, Lawful;
  }

  lemma SpareGrows(b: int, b': int, spare: real)
    requires 0 <= b' <= b && 0.0 <= spare
    ensures 0.0 <= Times(b' as real, spare) <= Times(b as real, spare)
    ensures b' < b ==> Times(b' as real, spare) + spare <= Times(b as real, spare)
  {
    TimesNonNegative(b' as real, spare);
    TimesGrows(b' as real, b as real, spare);
    if b' < b {
      assert Times(b' as real + 1.0, spare) == Times(b' as real, spare) + spare;
      TimesGrows(b' as real + 1.0, b as real, spare);
    }
  }

  lemma TimesNonNegative(a: real, b: real)
    requires a >= 0.0 && b >= 0.0
    ensures Times(a, b) >= 0.0
  {
    TimesGrows(0.0, a, b);
    assert Times(0.0, b) == 0.0;
  }
}
