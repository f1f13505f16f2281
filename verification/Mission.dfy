/** The hospital mission controller as an object: its methods change its fields as the specification says. */
module Missions {
  import opened SafetyTypes
  import opened MissionGeometry
  import LookaheadCarrot
  import M = MissionSpec
  import P = MissionProofs
  import Q = MissionSteering

  class MissionControllerCore {
    const setup: M.Setup
    var phase: M.Phase
    var failure: Option<M.FailureCode>
    var startedAt: Option<real>
    var startedWatchdogAt: Option<real>
    var stageIndex: nat
    var waypointIndex: nat
    var results: seq<M.StageResult>
    var lastOdomAt: Option<real>
    var lastUpdateAt: Option<real>
    var obstacleSince: Option<real>
    var progress: Option<M.Progress>
    var failedStage: Option<string>
    var failedWaypoint: Option<nat>

    function Abs(): M.State
      reads this
    {
      M.State(phase, failure, startedAt, startedWatchdogAt, stageIndex, waypointIndex, results, lastOdomAt, lastUpdateAt,
              obstacleSince, progress, failedStage, failedWaypoint)
    }

    ghost predicate Valid()
      reads this
    {
      M.ValidSetup(setup) && M.Inv(setup, Abs())
    }

    constructor (s: M.Setup)
      requires M.ValidSetup(s)
      ensures Valid() && setup == s && Abs() == M.INIT
    {
      setup := s;
      phase, failure, startedAt, startedWatchdogAt := M.Idle, None, None, None;
      stageIndex, waypointIndex, results := 0, 0, [];
      lastOdomAt, lastUpdateAt, obstacleSince, progress := None, None, None, None;
      failedStage, failedWaypoint := None, None;
      new;
      P.InitInv(s);
    }

    method ResetProgress()
      modifies this`progress
      ensures progress == None
    {
      progress := None;
    }

    /** What a start and a reset have in common. */
    method Clear()
      modifies this
      ensures Abs() == M.INIT
    {
      phase, failure := M.Idle, None;
      startedAt, startedWatchdogAt := None, None;
      stageIndex, waypointIndex, results := 0, 0, [];
      lastOdomAt, lastUpdateAt, obstacleSince := None, None, None;
      ResetProgress();
      failedStage, failedWaypoint := None, None;
    }

    method Start(now: real, watchdogNow: Option<real>) returns (accepted: bool)
      requires Valid()
      modifies this
      ensures Valid() && (Abs(), accepted) == M.Start(old(Abs()), now, watchdogNow)
      ensures accepted <==> !old(phase).Running? && !old(phase).EStopped?
      ensures accepted ==> phase.Running? && stageIndex == 0 && waypointIndex == 0 && results == [] && startedAt == Some(now)
    {
      P.NextKeepsInv(setup, Abs(), M.DoStart(now, watchdogNow));
      hide M.Inv, M.ValidSetup, M.Update;
      if phase.Running? { return false; }
      if phase.EStopped? { return false; }
      Clear();
      phase := M.Running;
      startedAt := Some(now);
      startedWatchdogAt := if watchdogNow.None? then Some(now) else watchdogNow;
      lastUpdateAt := Some(now);
      return true;
    }

    method Cancel() returns (accepted: bool)
      requires Valid()
      modifies this
      ensures Valid() && (Abs(), accepted) == M.Cancel(old(Abs()))
      ensures accepted <==> old(phase).Running?
      ensures phase == if accepted then M.Cancelled else old(phase)
    {
      P.NextKeepsInv(setup, Abs(), M.DoCancel);
      hide M.Inv, M.ValidSetup, M.Update;
      if !phase.Running? { return false; }
      phase := M.Cancelled;
      return true;
    }

    method EStop()
      requires Valid()
      modifies this
      ensures Valid() && Abs() == M.EStop(old(Abs()))
      ensures phase.EStopped?
    {
      P.NextKeepsInv(setup, Abs(), M.DoEStop);
      hide M.Inv, M.ValidSetup, M.Update;
      phase := M.EStopped;
    }

    method Reset() returns (accepted: bool)
      requires Valid()
      modifies this
      ensures Valid() && (Abs(), accepted) == M.Reset(old(Abs()))
      ensures accepted <==> !old(phase).Running?
      ensures Abs() == if accepted then M.INIT else old(Abs())
    {
      P.NextKeepsInv(setup, Abs(), M.DoReset);
      hide M.Inv, M.ValidSetup, M.Update;
      if phase.Running? { return false; }
      Clear();
      return true;
    }

    method Fail(code: M.FailureCode)
      modifies this
      ensures Abs() == M.Fail(setup, old(Abs()), code)
    {
      phase, failure := M.Failed, Some(code);
      if stageIndex < |setup.stages| {
        failedStage := Some(setup.stages[stageIndex].id);
        failedWaypoint := Some(waypointIndex);
      }
    }

    /** The checks made before the route is looked at. */
    method Screen(i: M.Input) returns (clear: bool)
      requires Valid()
      modifies this
      ensures Valid() && (Abs(), clear) == M.Screen(setup, old(Abs()), i)
      ensures clear <==>
        && old(phase).Running? && !M.TimedOut(setup, old(Abs()), i.now)
        && i.pose.Some? && M.OdomAge(old(Abs()), i) <= setup.config.odomTimeout && !M.Obstructed(setup, i.front)
      ensures clear ==> phase.Running? && obstacleSince.None? && !M.TimedOut(setup, Abs(), i.now)
      ensures old(phase).Running? && !phase.Running? ==>
        && phase.Failed? && failedWaypoint == Some(waypointIndex)
        && (failure == Some(M.MissionTimeout) <==> M.TimedOut(setup, old(Abs()), i.now))
        && (failure == Some(M.ObstacleBlocked) ==>
              M.Obstructed(setup, i.front) && old(obstacleSince).Some?
              && i.now - old(obstacleSince).value > setup.config.obstacleFailAfter)
      ensures old(phase).Running? && M.TimedOut(setup, old(Abs()), i.now) ==> phase.Failed?
      ensures stageIndex == old(stageIndex) && waypointIndex == old(waypointIndex) && results == old(results)
        && progress == old(progress)
    {
      P.ScreenKeepsInv(setup, Abs(), i);
      clear := ScreenChecks(i);
      hide M.Recorded, M.Watching, M.ValidSetup;
    }

    method ScreenChecks(i: M.Input) returns (clear: bool)
      modifies this
      ensures (Abs(), clear) == M.Screen(setup, old(Abs()), i)
    {
      var watchdog := if i.watchdogNow.None? then i.now else i.watchdogNow.value;
      lastUpdateAt := Some(i.now);
      if !phase.Running? { return false; }
      if startedAt.Some? && i.now - startedAt.value > setup.config.missionTimeout {
        Fail(M.MissionTimeout);
        return false;
      }
      if i.pose.Some? {
        var seen := if i.odomReceivedAt.None? then watchdog else i.odomReceivedAt.value;
        lastOdomAt := Some(seen);
        if watchdog - seen > setup.config.odomTimeout {
          Fail(M.OdomStale);
          return false;
        }
      } else {
        var reference := if lastOdomAt.None? then startedWatchdogAt else lastOdomAt;
        if reference.Some? && watchdog - reference.value > setup.config.odomTimeout {
          Fail(M.OdomStale);
        }
        return false;
      }
      if i.front.Some? && i.front.value < setup.config.obstacleStopDistance {
        if obstacleSince.None? {
          obstacleSince := Some(i.now);
        } else if i.now - obstacleSince.value > setup.config.obstacleFailAfter {
          Fail(M.ObstacleBlocked);
        }
        return false;
      }
      obstacleSince := None;
      return true;
    }

    /** The current waypoint is reached: on to the next, or to the next stage, or to the end. */
    method Pass(p: Point, now: real)
      requires M.Indexed(setup, Abs()) && phase.Running?
      modifies this
      ensures Abs() == M.Pass(setup, old(Abs()), p, now)
    {
      hide Lawful, InFrame;
      var stage := setup.stages[stageIndex];
      waypointIndex := waypointIndex + 1;
      ResetProgress();
      if waypointIndex < |stage.waypoints| { return; }
      var endpoint := M.Odom(setup, stage.endpoint);
      var endpointError := setup.trig.hypot(endpoint.x - p.x, endpoint.y - p.y);
      var elapsed := if startedAt.Some? then now - startedAt.value else 0.0;
      results := results + [M.StageResult(stage.id, stage.name, endpointError, elapsed)];
      stageIndex := stageIndex + 1;
      waypointIndex := 0;
      if stageIndex == |setup.stages| {
        phase := M.Succeeded;
      }
    }

    /** The loop that moves past every waypoint in reach. */
    method Advance(p: Point, now: real)
      requires M.ValidSetup(setup) && M.Indexed(setup, Abs()) && phase.Running?
      modifies this
      ensures Abs() == M.Advance(setup, old(Abs()), p, now)
      ensures phase.Running? ==> M.Indexed(setup, Abs())
    {
      P.StagesHaveWaypoints(setup);
      hide Lawful, M.ValidStage, M.Odom, M.Completed;
      ghost var goal := M.Advance(setup, Abs(), p, now);
      while phase.Running?
        invariant phase.Running? ==> M.Indexed(setup, Abs()) && M.Advance(setup, Abs(), p, now) == goal
        invariant !phase.Running? ==> Abs() == goal
        decreases phase.Running?, |setup.stages| - stageIndex,
          if phase.Running? then |setup.stages[stageIndex].waypoints| - waypointIndex else 0
      {
        var target := M.Target(setup, stageIndex, waypointIndex);
        if setup.trig.hypot(target.x - p.x, target.y - p.y) > setup.config.waypointTolerance { break; }
        Pass(p, now);
      }
    }

    /** The no-progress watchdog; `false` when it ended the mission. */
    method Watch(distance: real, heading: real, now: real) returns (alive: bool)
      requires Valid() && phase.Running? && 0.0 <= distance && 0.0 <= heading <= setup.trig.pi
      modifies this
      ensures Valid() && Abs() == M.Watch(setup, old(Abs()), distance, heading, now)
      ensures stageIndex == old(stageIndex) && waypointIndex == old(waypointIndex) && results == old(results)
      ensures !alive <==>
        && old(progress).Some? && now - old(progress).value.at > setup.config.progressTimeout
        && distance > old(progress).value.bestDistance - setup.config.progressEpsilon
        && heading > old(progress).value.bestHeading - setup.config.headingEpsilon
      ensures alive ==> phase.Running? && progress.Some? && now - progress.value.at <= setup.config.progressTimeout
      ensures alive && old(progress).Some? ==> progress.value.bestDistance <= old(progress).value.bestDistance
      ensures !alive ==> phase.Failed? && failure == Some(M.WaypointNoProgress) && failedWaypoint == Some(waypointIndex)
    {
      P.WatchKeepsInv(setup, Abs(), distance, heading, now);
      if progress.None? || progress.value.stage != stageIndex || progress.value.waypoint != waypointIndex {
        progress := Some(M.Progress(stageIndex, waypointIndex, distance, heading, now));
      } else if distance <= progress.value.bestDistance - setup.config.progressEpsilon {
        progress := Some(M.Progress(stageIndex, waypointIndex, distance, heading, now));
      } else if heading <= progress.value.bestHeading - setup.config.headingEpsilon {
        progress := Some(progress.value.(bestHeading := heading, at := now));
      } else if now - progress.value.at > setup.config.progressTimeout {
        Fail(M.WaypointNoProgress);
        return false;
      }
      return true;
    }

    /** The steering law for a carrot in the frame of the base. */
    method Steer(carrot: Point, distance: real) returns (command: M.Command)
      requires M.ValidSetup(setup) && M.Indexed(setup, Abs())
      ensures command == M.Steer(setup, Abs(), carrot, distance)
      ensures distance >= 0.0 ==> Q.Steers(setup, Abs(), carrot, distance, command)
    {
      if distance >= 0.0 { Q.SteerSteers(setup, Abs(), carrot, distance); }
      hide Q.Steers, Lawful;
      var config := setup.config;
      var angle := setup.trig.atan2(carrot.y, carrot.x);
      var angular := Max(-config.maxAngular, Min(config.maxAngular, Times(config.angularKp, angle)));
      if MissionGeometry.Abs(angle) > config.rotateMinAngle {
        return M.Command(0.0, angular);
      }
      var curvature := M.Curvature(carrot);
      var linear := config.maxLinear;
      if MissionGeometry.Abs(curvature) > M.CURVATURE_FLOOR {
        linear := Min(linear, config.maxAngular / MissionGeometry.Abs(curvature));
      }
      assert Times(linear, 1.0) == linear;
      if stageIndex == |setup.stages| - 1 && waypointIndex == |setup.stages[stageIndex].waypoints| - 1 {
        linear := Times(linear, Min(1.0, distance / config.finalSlowDistance));
      }
      return M.Command(linear, Max(-config.maxAngular, Min(config.maxAngular, Times(linear, curvature))));
    }

    method Update(i: M.Input) returns (command: M.Command)
      requires Valid()
      modifies this
      ensures Valid() && (Abs(), command) == M.Update(setup, old(Abs()), i)
      ensures P.Bounded(setup.config, command)
      ensures if M.Screen(setup, old(Abs()), i).1 && phase.Running?
        then M.Indexed(setup, Abs()) && Q.SteersAlong(setup, Abs(), i.pose.value, command) else command == M.HALT
    {
      ghost var before := Abs();
      P.MotionIsJustified(setup, before, i);
      Q.UpdateSteers(setup, before, i);
      var clear := Screen(i);
      hide M.Screen, M.Drive, M.Inv, M.ValidSetup, M.Phased, M.OdomAge, Q.SteersAlong;
      if !clear { return M.HALT; }
      command := Drive(i.pose.value, i.now);
    }

    method Follow(pose: Pose, now: real) returns (command: M.Command)
      requires Valid() && phase.Running?
      modifies this
      ensures Valid() && (Abs(), command) == M.Follow(setup, old(Abs()), pose, now)
    {
      assert setup.trig.pi > 0.0 && M.ValidConfig(setup.config) && Lawful(setup.trig);
      hide M.Watch, M.Steer, M.ValidStage, M.RemainingPath, M.HeadingError, M.Target, M.ValidSetup, Lawful, Distance, InFrame, LookaheadCarrot.OnPolyline;
      ghost var before := Abs();
      var target := M.Target(setup, stageIndex, waypointIndex);
      var distance := Distance(setup.trig, Point(pose.x, pose.y), target);
      var heading := M.HeadingError(setup.trig, pose, target);
      P.HeadingErrorRange(setup.trig, pose, target);
      var alive := Watch(distance, heading, now);
      if !alive { return M.HALT; }
      var path := M.RemainingPath(setup, Abs());
      P.PlaceIsEnough(setup, before, Abs());
      var carrot := LookaheadCarrot.Interpolate(setup.trig, pose, path, setup.config.lookahead);
      command := Steer(InFrame(setup.trig, pose, carrot.value), distance);
    }

    method Drive(pose: Pose, now: real) returns (command: M.Command)
      requires Valid() && phase.Running? && !M.TimedOut(setup, Abs(), now)
      modifies this
      ensures Valid() && (Abs(), command) == M.Drive(setup, old(Abs()), pose, now)
    {
      var p := Point(pose.x, pose.y);
      P.StagesHaveWaypoints(setup);
      M.AdvanceIsIndexed(setup, Abs(), p, now);
      P.AdvanceKeepsInv(setup, Abs(), p, now);
      hide M.Advance, M.Follow, M.ValidStage, Lawful, M.Recorded, M.Watching;
      Advance(p, now);
      if !phase.Running? { return M.HALT; }
      command := Follow(pose, now);
    }
  }
}
