/** How missions end, over runs of updates: blocked, silent, arrived or steadily approaching; and what the results of
    the stages and the watchdog remember. */
module MissionOutcomes {
  import opened SafetyTypes
  import opened MissionGeometry
  import opened MissionSpec
  import opened MissionProofs

  // ----- runs of updates -----

  function Updates(inputs: seq<Input>): seq<Step>
    decreases |inputs|
  {
    if inputs == [] then [] else [DoUpdate(inputs[0])] + Updates(inputs[1..])
  }

  lemma RunUpdates(m: Setup, s: State, inputs: seq<Input>)
    requires ValidSetup(m) && Inv(m, s) && inputs != []
    ensures var t := Next(m, s, DoUpdate(inputs[0]));
      Inv(m, t) && Run(m, s, Updates(inputs)) == Run(m, t, Updates(inputs[1..]))
  {
    NextKeepsInv(m, s, DoUpdate(inputs[0]));
    assert Updates(inputs)[0] == DoUpdate(inputs[0]) && Updates(inputs)[1..] == Updates(inputs[1..]);
    hide Next, Recorded, Watching, ValidSetup;
  }

  lemma {:induction false} EndedStays(m: Setup, s: State, inputs: seq<Input>)
    requires ValidSetup(m) && Inv(m, s) && !s.phase.Running?
    ensures var t := Run(m, s, Updates(inputs)); t.phase == s.phase && t.failure == s.failure
    decreases |inputs|
  {
    if inputs == [] {
    } else {
      RunUpdates(m, s, inputs);
      EndedStays(m, Next(m, s, DoUpdate(inputs[0])), inputs[1..]);
    }
    hide ValidSetup, Recorded, Watching, Drive;
  }

  predicate FailedWith(s: State, code: FailureCode) {
    s.phase.Failed? && s.failure == Some(code)
  }

  /** The mission goes on, and stands where it stood. */
  predicate GoesOn(s: State, t: State) {
    && t.phase.Running? && t.startedAt == s.startedAt
    && t.stageIndex == s.stageIndex && t.waypointIndex == s.waypointIndex && t.results == s.results && t.progress == s.progress
  }

  // ----- obstacles -----

  /** An update in time, with fresh odometry, and an obstacle in front. */
  predicate Blocked(m: Setup, s: State, i: Input) {
    && !TimedOut(m, s, i.now) && i.pose.Some? && Obstructed(m, i.front)
    && OrElse(i.watchdogNow, i.now) - OrElse(i.odomReceivedAt, OrElse(i.watchdogNow, i.now)) <= m.config.odomTimeout
  }

  lemma BlockedStep(m: Setup, s: State, i: Input)
    requires ValidSetup(m) && Inv(m, s) && s.phase.Running? && Blocked(m, s, i)
    ensures var (t, command) := Update(m, s, i);
      && command == HALT
      && if s.obstacleSince.Some? && i.now - s.obstacleSince.value > m.config.obstacleFailAfter then FailedWith(t, ObstacleBlocked)
         else GoesOn(s, t) && t.obstacleSince == Some(OrElse(s.obstacleSince, i.now))
  {
    hide Recorded, Watching, ValidSetup, Drive;
  }

  /** A mission that has been blocked since `since` ends at the first update more than `obstacleFailAfter` later, and not
      before; meanwhile it stands still. */
  lemma {:induction false} ObstructionEndsIff(m: Setup, s: State, inputs: seq<Input>)
    requires ValidSetup(m) && Inv(m, s) && s.phase.Running? && s.obstacleSince.Some?
    requires forall i :: i in inputs ==> Blocked(m, s, i)
    ensures var t := Run(m, s, Updates(inputs));
      if exists i :: i in inputs && i.now - s.obstacleSince.value > m.config.obstacleFailAfter then FailedWith(t, ObstacleBlocked)
      else GoesOn(s, t) && t.obstacleSince == s.obstacleSince
    decreases |inputs|
  {
    hide ValidSetup, Recorded, Watching;
    if inputs == [] {
    } else {
      BlockedStep(m, s, inputs[0]);
      RunUpdates(m, s, inputs);
      var t := Next(m, s, DoUpdate(inputs[0]));
      hide Update;
      if t.phase.Running? {
        assert forall i :: i in inputs[1..] ==> i in inputs && (Blocked(m, s, i) ==> Blocked(m, t, i));
        ObstructionEndsIff(m, t, inputs[1..]);
        assert forall i :: i in inputs ==> i == inputs[0] || i in inputs[1..];
      } else {
        EndedStays(m, t, inputs[1..]);
      }
    }
  }

  /** The first update that sees an obstacle only starts the clock; one that sees none stops it. */
  lemma ClockOfObstacle(m: Setup, s: State, i: Input)
    requires ValidSetup(m) && Inv(m, s) && s.phase.Running? && i.pose.Some? && !TimedOut(m, s, i.now)
    requires OdomAge(s, i) <= m.config.odomTimeout
    ensures var t := Update(m, s, i).0;
      && (Obstructed(m, i.front) && s.obstacleSince.None? ==> GoesOn(s, t) && t.obstacleSince == Some(i.now))
      && (!Obstructed(m, i.front) ==> t.obstacleSince.None?)
  {
    if !Obstructed(m, i.front) {
      ScreenKeepsInv(m, s, i);
      DriveKeepsClocks(m, Screen(m, s, i).0, i.pose.value, i.now);
    }
    hide Recorded, Watching, ValidSetup, Drive;
  }

  lemma {:induction false} AdvanceKeepsClocks(m: Setup, s: State, p: Point, now: real)
    requires ValidSetup(m) && Indexed(m, s)
    ensures var t := Advance(m, s, p, now);
      && t.obstacleSince == s.obstacleSince && t.startedAt == s.startedAt && t.lastOdomAt == s.lastOdomAt && t.failure == s.failure
    decreases |m.stages| - s.stageIndex, |m.stages[s.stageIndex].waypoints| - s.waypointIndex
  {
    StagesHaveWaypoints(m);
    hide ValidSetup, Near, Completed;
    if Near(m, p, s.stageIndex, s.waypointIndex) {
      var t := Pass(m, s, p, now);
      if t.stageIndex < |m.stages| { AdvanceKeepsClocks(m, t, p, now); }
    }
  }

  lemma DriveKeepsClocks(m: Setup, s: State, pose: Pose, now: real)
    requires ValidSetup(m) && Indexed(m, s) && s.phase.Running?
    ensures var t := Drive(m, s, pose, now).0;
      t.obstacleSince == s.obstacleSince && t.startedAt == s.startedAt && t.lastOdomAt == s.lastOdomAt
  {
    var p := Point(pose.x, pose.y);
    StagesHaveWaypoints(m);
    AdvanceIsIndexed(m, s, p, now);
    AdvanceKeepsClocks(m, s, p, now);
    hide Advance, Distance, HeadingError, Target, Steer;
  }

  // ----- odometry -----

  /** When odometry was last heard of: at the last pose, or else at the start. */
  function Heard(s: State): Option<real> {
    if s.lastOdomAt.Some? then s.lastOdomAt else s.startedWatchdogAt
  }

  lemma SilentStep(m: Setup, s: State, i: Input)
    requires ValidSetup(m) && Inv(m, s) && s.phase.Running? && Heard(s).Some? && i.pose.None? && !TimedOut(m, s, i.now)
    ensures var (t, command) := Update(m, s, i);
      && command == HALT && Heard(t) == Heard(s)
      && if OrElse(i.watchdogNow, i.now) - Heard(s).value > m.config.odomTimeout then FailedWith(t, OdomStale) else GoesOn(s, t)
  {
    hide Recorded, Watching, ValidSetup, Drive;
  }

  /** A mission that gets no pose ends at the first update more than `odomTimeout` after odometry was last heard of, and not
      before; meanwhile it stands still. */
  lemma {:induction false} SilenceEndsIff(m: Setup, s: State, inputs: seq<Input>)
    requires ValidSetup(m) && Inv(m, s) && s.phase.Running? && Heard(s).Some?
    requires forall i :: i in inputs ==> i.pose.None? && !TimedOut(m, s, i.now)
    ensures var t := Run(m, s, Updates(inputs));
      if exists i :: i in inputs && OrElse(i.watchdogNow, i.now) - Heard(s).value > m.config.odomTimeout then FailedWith(t, OdomStale)
      else GoesOn(s, t)
    decreases |inputs|
  {
    hide ValidSetup, Recorded, Watching;
    if inputs == [] {
    } else {
      SilentStep(m, s, inputs[0]);
      RunUpdates(m, s, inputs);
      var t := Next(m, s, DoUpdate(inputs[0]));
      hide Update;
      if t.phase.Running? {
        SilenceEndsIff(m, t, inputs[1..]);
        assert forall i :: i in inputs ==> i == inputs[0] || i in inputs[1..];
      } else {
        EndedStays(m, t, inputs[1..]);
      }
    }
  }

  /** A pose is as old as its stamp says, and from then on odometry was heard of at that stamp. */
  lemma PoseIsAsOldAsItsStamp(m: Setup, s: State, i: Input)
    requires ValidSetup(m) && Inv(m, s) && s.phase.Running? && i.pose.Some? && !TimedOut(m, s, i.now)
    ensures var t, watchdog := Update(m, s, i).0, OrElse(i.watchdogNow, i.now);
      && Heard(t) == Some(OrElse(i.odomReceivedAt, watchdog))
      && (FailedWith(t, OdomStale) <==> watchdog - OrElse(i.odomReceivedAt, watchdog) > m.config.odomTimeout)
  {
    ScreenKeepsInv(m, s, i);
    var (u, clear) := Screen(m, s, i);
    if clear {
      DriveKeepsClocks(m, u, i.pose.value, i.now);
      DriveEndsIff(m, u, i.pose.value, i.now);
    }
    hide Recorded, Watching, ValidSetup, Drive;
  }

  // ----- the time of the mission -----

  /** A running mission ends for its time exactly at an update more than `missionTimeout` after its start, whatever that
      update sees. */
  lemma LateUpdateEndsIff(m: Setup, s: State, i: Input)
    requires ValidSetup(m) && Inv(m, s) && s.phase.Running?
    ensures s.startedAt.Some?
    ensures FailedWith(Update(m, s, i).0, MissionTimeout) <==> i.now - s.startedAt.value > m.config.missionTimeout
  {
    ScreenKeepsInv(m, s, i);
    var (u, clear) := Screen(m, s, i);
    if clear { DriveEndsIff(m, u, i.pose.value, i.now); }
    hide Recorded, Watching, ValidSetup, Drive;
  }

  // ----- stage results -----

  /** What an update that sees the robot at `p` records of stage `k`. */
  function Seen(m: Setup, s: State, p: Point, now: real, k: nat): StageResult
    requires k < |m.stages|
  {
    StageResult(m.stages[k].id, m.stages[k].name, Distance(m.trig, p, Odom(m, m.stages[k].endpoint)),
                now - OrElse(s.startedAt, now))
  }

  /** The stages completed by one update are recorded with the distance and the time that this update saw. */
  lemma {:induction false} AdvanceRecordsWhatItSees(m: Setup, s: State, p: Point, now: real)
    requires ValidSetup(m) && Indexed(m, s) && |s.results| == s.stageIndex
    ensures var t := Advance(m, s, p, now);
      && |t.results| == t.stageIndex <= |m.stages| && s.results <= t.results
      && forall k: nat :: |s.results| <= k < |t.results| ==> t.results[k] == Seen(m, s, p, now, k)
    decreases |m.stages| - s.stageIndex, |m.stages[s.stageIndex].waypoints| - s.waypointIndex
  {
    StagesHaveWaypoints(m);
    hide ValidSetup, Near, Distance, Odom;
    if Near(m, p, s.stageIndex, s.waypointIndex) {
      var t := Pass(m, s, p, now);
      if t.stageIndex < |m.stages| { AdvanceRecordsWhatItSees(m, t, p, now); }
    }
  }

  // ----- arriving -----

  /** The waypoints still to be passed, from waypoint `j` of stage `i` on. */
  function Left(m: Setup, i: nat, j: nat): int
    decreases |m.stages| - i
  {
    if i >= |m.stages| then 0 else |m.stages[i].waypoints| - j + Left(m, i + 1, 0)
  }

  lemma {:induction false} AdvanceLeavesFewer(m: Setup, s: State, p: Point, now: real)
    requires ValidSetup(m) && Indexed(m, s)
    ensures var t := Advance(m, s, p, now);
      Left(m, t.stageIndex, t.waypointIndex)
      <= Left(m, s.stageIndex, s.waypointIndex) - (if Near(m, p, s.stageIndex, s.waypointIndex) then 1 else 0)
    decreases |m.stages| - s.stageIndex, |m.stages[s.stageIndex].waypoints| - s.waypointIndex
  {
    StagesHaveWaypoints(m);
    hide ValidSetup, Near, Completed;
    if Near(m, p, s.stageIndex, s.waypointIndex) {
      var t := Pass(m, s, p, now);
      assert Left(m, t.stageIndex, t.waypointIndex) == Left(m, s.stageIndex, s.waypointIndex) - 1;
      if t.stageIndex < |m.stages| { AdvanceLeavesFewer(m, t, p, now); }
    }
  }

  lemma {:induction false} SomeLeft(m: Setup, i: nat, j: nat)
    requires ValidSetup(m)
    ensures i < |m.stages| && j < |m.stages[i].waypoints| ==> Left(m, i, j) > 0
    ensures Left(m, i, 0) >= 0
    decreases |m.stages| - i
  {
    if i < |m.stages| { SomeLeft(m, i + 1, 0); }
  }

  /** Each update passes its checks and sees the robot at the waypoint that the mission then stands at. */
  ghost predicate Arrives(m: Setup, s: State, inputs: seq<Input>)
    requires ValidSetup(m) && Inv(m, s)
    decreases |inputs|
  {
    if !s.phase.Running? || inputs == [] then true
    else
      NextKeepsInv(m, s, DoUpdate(inputs[0]));
      && Screen(m, s, inputs[0]).1
      && Near(m, Point(inputs[0].pose.value.x, inputs[0].pose.value.y), s.stageIndex, s.waypointIndex)
      && Arrives(m, Next(m, s, DoUpdate(inputs[0])), inputs[1..])
  }

  lemma ArrivalStep(m: Setup, s: State, i: Input)
    requires ValidSetup(m) && Inv(m, s) && s.phase.Running? && Screen(m, s, i).1
    requires Near(m, Point(i.pose.value.x, i.pose.value.y), s.stageIndex, s.waypointIndex)
    ensures var t := Next(m, s, DoUpdate(i));
      && (t.phase.Succeeded? || t.phase.Running?)
      && Left(m, t.stageIndex, t.waypointIndex) < Left(m, s.stageIndex, s.waypointIndex)
  {
    ScreenKeepsInv(m, s, i);
    var u := Screen(m, s, i).0;
    var p := Point(i.pose.value.x, i.pose.value.y);
    StagesHaveWaypoints(m);
    AdvanceIsIndexed(m, u, p, i.now);
    AdvanceLeavesFewer(m, u, p, i.now);
    DriveEndsIff(m, u, i.pose.value, i.now);
    hide Screen, Advance, Near, Left, Recorded, Watching, ValidSetup, Steer, HeadingError, Distance, Target;
  }

  /** A robot that keeps arriving completes the mission, with at most one update for each waypoint that was left. */
  lemma {:induction false} ArrivingSucceeds(m: Setup, s: State, inputs: seq<Input>)
    requires ValidSetup(m) && Inv(m, s) && s.phase.Running? && Arrives(m, s, inputs)
    requires |inputs| >= Left(m, s.stageIndex, s.waypointIndex)
    ensures Run(m, s, Updates(inputs)).phase.Succeeded? && |Run(m, s, Updates(inputs)).results| == |m.stages|
    decreases |inputs|
  {
    SomeLeft(m, s.stageIndex, s.waypointIndex);
    RunUpdates(m, s, inputs);
    ArrivalStep(m, s, inputs[0]);
    var t := Next(m, s, DoUpdate(inputs[0]));
    if t.phase.Running? {
      ArrivingSucceeds(m, t, inputs[1..]);
    } else {
      EndedStays(m, t, inputs[1..]);
      RunKeepsInv(m, t, Updates(inputs[1..]));
    }
    hide Next, Left, ValidSetup, Watching;
  }

  // ----- feeding the watchdog -----

  /** What the watchdog of the current waypoint remembers after one more look: a look that is near enough or well enough
      turned feeds it, and the best distance moves only when the robot came nearer. */
  lemma WatchRemembers(m: Setup, s: State, distance: real, heading: real, now: real)
    requires ValidConfig(m.config) && Watching(m, s) && s.phase.Running? && Watch(m, s, distance, heading, now).phase.Running?
    ensures var t := Watch(m, s, distance, heading, now);
      && t.progress.Some? && On(t, s.stageIndex, s.waypointIndex)
      && var first, best := s.progress.None?, t.progress.value;
      && var nearer := first || distance <= s.progress.value.bestDistance - m.config.progressEpsilon;
      && var fed := nearer || heading <= s.progress.value.bestHeading - m.config.headingEpsilon;
      && best.bestDistance == (if nearer then distance else s.progress.value.bestDistance)
      && best.bestHeading == (if fed then heading else s.progress.value.bestHeading)
      && best.at == (if fed then now else s.progress.value.at)
  {
  }

  /** A look at the current waypoint from clear ground, out of its reach. */
  predicate Looks(m: Setup, s: State, i: Input)
    requires Indexed(m, s)
  {
    && i.pose.Some? && !TimedOut(m, s, i.now) && !Obstructed(m, i.front) && OdomAge(s, i) <= m.config.odomTimeout
    && !Near(m, Point(i.pose.value.x, i.pose.value.y), s.stageIndex, s.waypointIndex)
  }

  function Range(m: Setup, s: State, i: Input): real
    requires Indexed(m, s) && i.pose.Some?
  {
    Distance(m.trig, Point(i.pose.value.x, i.pose.value.y), Target(m, s.stageIndex, s.waypointIndex))
  }

  /** Every look finds the robot nearer by at least the progress the watchdog asks for. */
  predicate Approaches(m: Setup, s: State, inputs: seq<Input>)
    requires Indexed(m, s)
  {
    && (forall k :: 0 <= k < |inputs| ==> Looks(m, s, inputs[k]))
    && (forall k :: 0 <= k < |inputs| - 1 ==> Range(m, s, inputs[k + 1]) <= Range(m, s, inputs[k]) - m.config.progressEpsilon)
  }

  lemma ApproachStep(m: Setup, s: State, i: Input)
    requires ValidSetup(m) && Inv(m, s) && s.phase.Running? && Looks(m, s, i)
    requires s.progress.Some? ==> Range(m, s, i) <= s.progress.value.bestDistance - m.config.progressEpsilon
    ensures var t := Next(m, s, DoUpdate(i));
      && t.phase.Running? && t.startedAt == s.startedAt && On(t, s.stageIndex, s.waypointIndex)
      && t.stageIndex == s.stageIndex && t.waypointIndex == s.waypointIndex
      && t.progress.value.at == i.now && t.progress.value.bestDistance == Range(m, s, i)
  {
    ScreenKeepsInv(m, s, i);
    var u := Screen(m, s, i).0;
    assert Screen(m, s, i).1;
    var target := Target(m, s.stageIndex, s.waypointIndex);
    StagesHaveWaypoints(m);
    WatchRemembersIfRunning(m, u, Range(m, s, i), HeadingError(m.trig, i.pose.value, target), i.now);
    hide Near, Lawful, Distance, HeadingError, Target, Steer, Recorded, ValidStage, Watching;
  }

  lemma WatchRemembersIfRunning(m: Setup, s: State, distance: real, heading: real, now: real)
    requires ValidConfig(m.config) && Watching(m, s) && s.phase.Running?
    requires s.progress.Some? ==> distance <= s.progress.value.bestDistance - m.config.progressEpsilon
    ensures var t := Watch(m, s, distance, heading, now);
      && t.phase.Running? && t.startedAt == s.startedAt && On(t, s.stageIndex, s.waypointIndex)
      && t.stageIndex == s.stageIndex && t.waypointIndex == s.waypointIndex
      && t.progress.value.at == now && t.progress.value.bestDistance == distance
  {
  }

  /** A robot that keeps approaching is never given up on, however long the updates are apart: the watchdog has been fed
      by the last of them. */
  lemma {:induction false} ApproachKeepsGoing(m: Setup, s: State, inputs: seq<Input>)
    requires ValidSetup(m) && Inv(m, s) && s.phase.Running? && inputs != [] && Approaches(m, s, inputs)
    requires s.progress.Some? ==> Range(m, s, inputs[0]) <= s.progress.value.bestDistance - m.config.progressEpsilon
    ensures var t := Run(m, s, Updates(inputs));
      t.phase.Running? && On(t, s.stageIndex, s.waypointIndex) && t.progress.value.at == inputs[|inputs| - 1].now
    decreases |inputs|
  {
    RunUpdates(m, s, inputs);
    assert Looks(m, s, inputs[0]);
    ApproachStep(m, s, inputs[0]);
    var t := Next(m, s, DoUpdate(inputs[0]));
    hide Next, ValidSetup, Inv, Looks, Range;
    if |inputs| > 1 {
      ApproachGoesOn(m, s, t, inputs);
      ApproachKeepsGoing(m, t, inputs[1..]);
    }
  }

  lemma ApproachGoesOn(m: Setup, s: State, t: State, inputs: seq<Input>)
    requires Indexed(m, s) && t.stageIndex == s.stageIndex && t.waypointIndex == s.waypointIndex && t.startedAt == s.startedAt
    requires Approaches(m, s, inputs) && |inputs| > 1
    ensures Approaches(m, t, inputs[1..]) && inputs[0].pose.Some? && inputs[1].pose.Some?
    ensures Range(m, t, inputs[1]) <= Range(m, s, inputs[0]) - m.config.progressEpsilon
  {
    hide Near, Distance, Target;
    assert forall k :: 0 <= k < |inputs| ==> Looks(m, s, inputs[k]) ==> Looks(m, t, inputs[k]) && Range(m, t, inputs[k]) == Range(m, s, inputs[k]);
  }

  // ----- lifecycle -----

  /** A start is refused exactly while a mission runs or an emergency stop is latched, and what it begins has no trace of
      what was before. */
  lemma StartIsFresh(s: State, t: State, now: real, watchdogNow: Option<real>)
    ensures Start(s, now, watchdogNow).1 <==> !s.phase.Running? && !s.phase.EStopped?
    ensures Start(s, now, watchdogNow).1 && Start(t, now, watchdogNow).1 ==> Start(s, now, watchdogNow).0 == Start(t, now, watchdogNow).0
    ensures Start(s, now, watchdogNow).1 ==> var u := Start(s, now, watchdogNow).0;
      u.phase.Running? && u.stageIndex == 0 && u.waypointIndex == 0 && u.startedAt == Some(now) && Heard(u) == Some(OrElse(watchdogNow, now))
    ensures !Start(s, now, watchdogNow).1 ==> Start(s, now, watchdogNow).0 == s
  {
  }
}
