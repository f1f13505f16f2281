/** What a command of the mission controller does: it turns towards the carrot, or drives the arc through it as fast as
    the limits allow, and the carrot is the point of the remaining route at lookahead distance. */
module MissionSteering {
  import opened SafetyTypes
  import opened MissionGeometry
  import opened MissionSpec
  import LookaheadCarrot
  import P = MissionProofs

  /** The turn goes to the side of `q`: positive is left. A point straight behind is turned to over the left. */
  predicate Towards(q: Point, turn: real) {
    && (q.y > 0.0 ==> turn > 0.0) && (q.y < 0.0 ==> turn < 0.0)
    && (q.y == 0.0 ==> if q.x < 0.0 then turn > 0.0 else turn == 0.0)
  }

  /** On the spot, in proportion to the bearing of the point up to the turning limit. With no gain or no limit to turn
      with, and only then, it does not turn towards it. */
  predicate Turns(m: Setup, q: Point, command: Command) {
    && command.linear == 0.0
    && Abs(command.angular) == Min(m.config.maxAngular, Times(Abs(m.config.angularKp), Abs(m.trig.atan2(q.y, q.x))))
    && (Towards(q, command.angular) <==>
          (m.config.angularKp > 0.0 && m.config.maxAngular > 0.0) || m.trig.atan2(q.y, q.x) == 0.0)
  }

  predicate Flat(q: Point) {
    Abs(Curvature(q)) <= CURVATURE_FLOOR
  }

  /** `v` is the highest speed at which the arc through `q` can be driven within the limits. */
  predicate Fastest(c: Config, q: Point, v: real) {
    && 0.0 <= v <= c.maxLinear
    && (!Flat(q) ==> Times(v, Abs(Curvature(q))) <= c.maxAngular)
    && (v == c.maxLinear || (!Flat(q) && Times(v, Abs(Curvature(q))) == c.maxAngular))
  }

  /** No waypoint of the route comes after the current one. */
  ghost predicate LastStretch(m: Setup, s: State) {
    forall i: nat, j: nat :: i < |m.stages| && j < |m.stages[i].waypoints| ==> !P.Precedes(s.stageIndex, s.waypointIndex, i, j)
  }

  lemma FinalIsLast(m: Setup, s: State)
    requires Indexed(m, s) && forall k :: 0 <= k < |m.stages| ==> m.stages[k].waypoints != []
    ensures OnFinalWaypoint(m, s) <==> LastStretch(m, s)
  {
    if s.waypointIndex + 1 < |m.stages[s.stageIndex].waypoints| {
      assert P.Precedes(s.stageIndex, s.waypointIndex, s.stageIndex, s.waypointIndex + 1);
    } else if s.stageIndex + 1 < |m.stages| {
      assert P.Precedes(s.stageIndex, s.waypointIndex, s.stageIndex + 1, 0);
    }
  }

  /** Full speed, but in proportion to the distance on the last stretch to the final waypoint. */
  ghost predicate Eases(m: Setup, s: State, distance: real, r: real)
    requires Indexed(m, s)
  {
    if LastStretch(m, s) then Times(r, m.config.finalSlowDistance) == Min(m.config.finalSlowDistance, distance) else r == 1.0
  }

  /** The circle that these two speeds drive, tangent to the heading, goes through `q`. */
  predicate Through(q: Point, command: Command) {
    var squared := Square(q.x) + Square(q.y);
    if squared <= CURVATURE_FLOOR then command.angular == 0.0
    else Times(command.angular, squared) == Times(2.0 * command.linear, q.y)
  }

  ghost predicate Drives(m: Setup, s: State, q: Point, distance: real, command: Command)
    requires Indexed(m, s)
  {
    && (exists v, r :: Fastest(m.config, q, v) && Eases(m, s, distance, r) && command.linear == Times(v, r))
    && (command.linear > 0.0 <==>
          && m.config.maxLinear > 0.0 && (Flat(q) || m.config.maxAngular > 0.0)
          && (LastStretch(m, s) ==> distance > 0.0))
    && (!Flat(q) || Times(m.config.maxLinear, CURVATURE_FLOOR) <= m.config.maxAngular ==> Through(q, command))
    && (m.config.rotateMinAngle <= m.trig.pi / 2.0 ==> q.x >= 0.0)
  }

  /** What is commanded for a carrot at `q` in the frame of the base. */
  ghost predicate Steers(m: Setup, s: State, q: Point, distance: real, command: Command)
    requires Indexed(m, s)
  {
    if Abs(m.trig.atan2(q.y, q.x)) > m.config.rotateMinAngle then Turns(m, q, command) else Drives(m, s, q, distance, command)
  }

  // ----- the heading error -----

  /** The heading error is the size of a bearing of the target, as seen from the pose, to within the rounding of the
      boundary. */
  lemma HeadingErrorIsBearing(g: Trig, pose: Pose, target: Point)
    requires Lawful(g)
    ensures exists a :: -g.pi <= a <= g.pi && Bears(g, InFrame(g, pose, target), a)
                        && Abs(HeadingError(g, pose, target) - Abs(a)) <= 0.000000001 * g.pi
  {
    var raw := g.atan2(target.y - pose.y, target.x - pose.x) - pose.yaw;
    HeadingIsBearing(g, pose, target);
    var k, a := NormalizedTurn(g, raw);
    TurnsKeepBearing(g, raw, k);
    hide Lawful, InFrame, Turned, NormalizeAngle;
    assert Bears(g, InFrame(g, pose, target), a);
  }

  /** The turn that normalizing an angle rounds, if it rounds at all. */
  lemma NormalizedTurn(g: Trig, angle: real) returns (k: int, a: real)
    requires Lawful(g)
    ensures a == Turned(g, angle, k) && -g.pi <= a <= g.pi
    ensures Abs(Abs(NormalizeAngle(g, angle)) - Abs(a)) <= 0.000000001 * g.pi
  {
    var q := ((angle + g.pi) / (2.0 * g.pi)).Floor;
    a := FlooredMod(angle + g.pi, 2.0 * g.pi) - g.pi;
    k := -q;
    TurnedBack(g, angle, q);
    FlooredModRange(angle + g.pi, 2.0 * g.pi);
    hide FlooredMod, Turned;
  }

  // ----- turning -----

  lemma ClampKeepsSide(x: real, bound: real)
    requires bound >= 0.0
    ensures Abs(Clamp(x, bound)) == Min(bound, Abs(x))
    ensures bound > 0.0 ==> (Clamp(x, bound) > 0.0 <==> x > 0.0) && (Clamp(x, bound) < 0.0 <==> x < 0.0)
  {
  }

  lemma TimesSides(a: real, b: real)
    ensures Abs(Times(a, b)) == Times(Abs(a), Abs(b))
    ensures Times(a, b) > 0.0 <==> (a > 0.0 && b > 0.0) || (a < 0.0 && b < 0.0)
    ensures Times(a, b) < 0.0 <==> (a > 0.0 && b < 0.0) || (a < 0.0 && b > 0.0)
  {
    assert Times(-a, b) == -Times(a, b) && Times(a, -b) == -Times(a, b) && Times(-a, -b) == Times(a, b);
    assert a == 0.0 || b == 0.0 ==> Times(a, b) == 0.0;
    hide Times;
    if a > 0.0 && b > 0.0 { PositiveTimes(a, b); }
    if a < 0.0 && b < 0.0 { PositiveTimes(-a, -b); }
    if a > 0.0 && b < 0.0 { PositiveTimes(a, -b); }
    if a < 0.0 && b > 0.0 { PositiveTimes(-a, b); }
  }

  lemma SteerTurns(m: Setup, s: State, q: Point, distance: real)
    requires Lawful(m.trig) && ValidConfig(m.config) && Indexed(m, s)
    requires Abs(m.trig.atan2(q.y, q.x)) > m.config.rotateMinAngle
    ensures Turns(m, q, Steer(m, s, q, distance))
  {
    var angle := m.trig.atan2(q.y, q.x);
    assert IsPolar(m.trig, q.y, q.x);
    TimesSides(m.config.angularKp, angle);
    ClampKeepsSide(Times(m.config.angularKp, angle), m.config.maxAngular);
    hide Lawful, Times, Clamp;
  }

  // ----- driving -----

  lemma SpeedIsFastest(c: Config, q: Point) returns (v: real)
    requires ValidConfig(c)
    ensures Fastest(c, q, v) && forall r :: Speed(c, Curvature(q), r) == Times(v, r)
    ensures v > 0.0 <==> c.maxLinear > 0.0 && (Flat(q) || c.maxAngular > 0.0)
  {
    var k := Abs(Curvature(q));
    hide Curvature;
    if k > CURVATURE_FLOOR {
      var u := c.maxAngular / k;
      QuotientBounds(c.maxAngular, k, 0.0);
      assert Times(u, k) == c.maxAngular;
      TimesSides(u, k);
      if c.maxLinear <= u { P.TimesGrows(c.maxLinear, u, k); }
      v := Min(c.maxLinear, u);
    } else {
      v := c.maxLinear;
    }
  }

  lemma SlowdownEases(m: Setup, s: State, distance: real)
    requires ValidSetup(m) && Indexed(m, s) && distance >= 0.0
    ensures var r := Slowdown(m, s, distance);
      Eases(m, s, distance, r) && 0.0 <= r <= 1.0 && (r > 0.0 <==> (LastStretch(m, s) ==> distance > 0.0))
  {
    var slow := m.config.finalSlowDistance;
    P.StagesHaveWaypoints(m);
    FinalIsLast(m, s);
    hide LastStretch, Lawful, ValidStage;
    P.SlowdownRange(m, s, distance);
    QuotientBounds(distance, slow, 0.0);
    QuotientBounds(distance, slow, 1.0);
    assert Times(distance / slow, slow) == distance && Times(1.0, slow) == slow;
  }

  lemma ArcGoesThrough(q: Point, v: real)
    ensures Through(q, Command(v, Times(v, Curvature(q))))
  {
    var k, squared := Curvature(q), Square(q.x) + Square(q.y);
    if squared > CURVATURE_FLOOR {
      assert k * squared == 2.0 * q.y;
      assert Times(Times(v, k), squared) == v * (k * squared);
      assert v * (2.0 * q.y) == Times(2.0 * v, q.y);
    } else {
      assert Times(v, k) == 0.0;
    }
  }

  lemma SteerDrives(m: Setup, s: State, q: Point, distance: real)
    requires ValidSetup(m) && Indexed(m, s) && distance >= 0.0
    requires Abs(m.trig.atan2(q.y, q.x)) <= m.config.rotateMinAngle
    ensures Drives(m, s, q, distance, Steer(m, s, q, distance))
  {
    var c, k, r := m.config, Curvature(q), Slowdown(m, s, distance);
    assert IsPolar(m.trig, q.y, q.x);
    var v := SpeedIsFastest(c, q);
    SlowdownEases(m, s, distance);
    TimesSides(v, r);
    var linear := Speed(c, k, r);
    ArcGoesThrough(q, linear);
    if !Flat(q) || Times(c.maxLinear, CURVATURE_FLOOR) <= c.maxAngular {
      P.ArcIsFeasible(c, k, r);
      P.ClampBounds(Times(linear, k), c.maxAngular);
    }
    assert Fastest(c, q, v) && Eases(m, s, distance, r) && linear == Times(v, r);
    hide Lawful, ValidStage, LastStretch, Times, Clamp, Speed, Slowdown, Fastest, Eases, Through, Curvature;
  }

  lemma SteerSteers(m: Setup, s: State, q: Point, distance: real)
    requires ValidSetup(m) && Indexed(m, s) && distance >= 0.0
    ensures Steers(m, s, q, distance, Steer(m, s, q, distance))
  {
    if Abs(m.trig.atan2(q.y, q.x)) > m.config.rotateMinAngle {
      SteerTurns(m, s, q, distance);
    } else {
      SteerDrives(m, s, q, distance);
    }
  }

  // ----- an update -----

  /** The rest of the stage, from the current waypoint on, as seen from where the odometry began. */
  ghost predicate IsRest(m: Setup, s: State, path: seq<Point>)
    requires Indexed(m, s)
  {
    var waypoints := m.stages[s.stageIndex].waypoints;
    && |path| == |waypoints| - s.waypointIndex
    && forall k :: 0 <= k < |path| ==> path[k] == InFrame(m.trig, m.start, waypoints[s.waypointIndex + k])
  }

  /** The command is for the point at lookahead distance along the rest of the stage, or for its end. */
  ghost predicate SteersAlong(m: Setup, s: State, pose: Pose, command: Command)
    requires Indexed(m, s)
  {
    var here := Point(pose.x, pose.y);
    var vs := [here] + RemainingPath(m, s);
    && IsRest(m, s, RemainingPath(m, s))
    && exists carrot ::
      && LookaheadCarrot.OnPolyline(m.trig, vs, carrot, Min(m.config.lookahead, LookaheadCarrot.ArcTo(m.trig, vs, |vs| - 1)))
      && Steers(m, s, InFrame(m.trig, pose, carrot), Distance(m.trig, here, Target(m, s.stageIndex, s.waypointIndex)), command)
  }

  lemma RemainingIsRest(m: Setup, s: State)
    requires Indexed(m, s)
    ensures IsRest(m, s, RemainingPath(m, s))
  {
    hide InFrame;
    var path := RemainingPath(m, s);
    forall k | 0 <= k < |path| ensures path[k] == InFrame(m.trig, m.start, m.stages[s.stageIndex].waypoints[s.waypointIndex + k]) {
      assert path[k] == Target(m, s.stageIndex, s.waypointIndex + k);
    }
  }

  lemma CommandSteers(m: Setup, s: State, pose: Pose)
    requires ValidSetup(m) && Indexed(m, s)
    ensures var here := Point(pose.x, pose.y);
      var carrot := LookaheadCarrot.Carrot(m.trig, here, RemainingPath(m, s), m.config.lookahead);
      SteersAlong(m, s, pose,
        Steer(m, s, InFrame(m.trig, pose, carrot), Distance(m.trig, here, Target(m, s.stageIndex, s.waypointIndex))))
  {
    var g, here, target := m.trig, Point(pose.x, pose.y), Target(m, s.stageIndex, s.waypointIndex);
    var distance, path := Distance(g, here, target), RemainingPath(m, s);
    var carrot := LookaheadCarrot.Carrot(g, here, path, m.config.lookahead);
    LookaheadCarrot.CarrotFromPose(g, here, path, m.config.lookahead);
    assert distance >= 0.0;
    SteerSteers(m, s, InFrame(g, pose, carrot), distance);
    RemainingIsRest(m, s);
    hide Lawful, InFrame, Distance, Target, RemainingPath, IsRest, Steer, Steers, LookaheadCarrot.OnPolyline, LookaheadCarrot.ArcTo, LookaheadCarrot.Carrot;
  }

  lemma FollowSteers(m: Setup, s: State, pose: Pose, now: real)
    requires ValidSetup(m) && Indexed(m, s) && s.phase.Running?
    ensures var (t, command) := Follow(m, s, pose, now);
      && (t.phase.Running? || t.phase.Failed?) && Indexed(m, t)
      && if t.phase.Running? then SteersAlong(m, t, pose, command) else command == HALT
  {
    CommandSteers(m, s, pose);
    var t := Follow(m, s, pose, now).0;
    if t.phase.Running? { SameSteering(m, s, t, pose, Follow(m, s, pose, now).1); }
    hide Lawful, ValidStage, InFrame, Distance, HeadingError, Target, RemainingPath, Steer, SteersAlong;
  }

  lemma SameSteering(m: Setup, s: State, t: State, pose: Pose, command: Command)
    requires ValidSetup(m) && Indexed(m, s) && t.stageIndex == s.stageIndex && t.waypointIndex == s.waypointIndex
    requires SteersAlong(m, s, pose, command)
    ensures SteersAlong(m, t, pose, command)
  {
    P.PlaceIsEnough(m, s, t);
    hide Lawful, ValidStage, Fastest, Through, Turns, RemainingPath, Target, LookaheadCarrot.OnPolyline, LookaheadCarrot.ArcTo, Distance, InFrame;
    forall q, distance, c | Steers(m, s, q, distance, c) ensures Steers(m, t, q, distance, c) {
      assert forall r :: Eases(m, t, distance, r) == Eases(m, s, distance, r);
    }
  }

  /** An update that gets past its checks, has waypoints left and is not ended by the watchdog steers along the rest of
      the route; every other update commands a halt. */
  lemma UpdateSteers(m: Setup, s: State, i: Input)
    requires ValidSetup(m) && Inv(m, s)
    ensures var (t, command) := Update(m, s, i);
      if Screen(m, s, i).1 && t.phase.Running? then Indexed(m, t) && SteersAlong(m, t, i.pose.value, command)
      else command == HALT
  {
    P.ScreenKeepsInv(m, s, i);
    var (u, clear) := Screen(m, s, i);
    if clear {
      var p := Point(i.pose.value.x, i.pose.value.y);
      P.StagesHaveWaypoints(m);
      AdvanceIsIndexed(m, u, p, i.now);
      var v := Advance(m, u, p, i.now);
      if v.phase.Running? { FollowSteers(m, v, i.pose.value, i.now); }
    }
    hide Screen, Inv, Advance, SteersAlong, Follow, ValidSetup;
  }
}
