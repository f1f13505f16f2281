/** The Twist transport as an object: the regions that start, propose, send and stop. */
module Twists {
  import opened SafetyTypes
  import opened MissionGeometry
  import T = TwistSpec
  import P = TwistProofs

  const ZERO_BURST_COUNT: nat := 3

  class RclpyTwistTransport {
    const trig: Trig
    const limits: Option<T.Limits>
    var generation: nat
    var stageGeneration: nat
    var stage: Option<T.Waypoint>
    var lastCommand: T.Velocity
    var timer: T.Timer
    ghost var body: T.Body
    ghost var wire: seq<T.Event>

    ghost function Abs(): T.Local
      reads this
    {
      T.Local(generation, stageGeneration, stage, lastCommand, timer, body, wire)
    }

    /** Every motion command published was within the limits and one period from the one before it or from standstill, and
        so is the one the timer holds, from the command it was computed from. */
    ghost predicate Valid()
      reads this
    {
      && Lawful(trig)
      && T.WireSound(limits, wire)
      && (limits.Some? ==> T.ValidLimits(limits.value) && T.InLimits(limits.value, lastCommand))
      && (timer.Proposes? ==> limits.Some? && Bounded(timer.proposal))
    }

    ghost predicate Bounded(p: T.Proposal)
      requires limits.Some?
    {
      T.InLimits(limits.value, p.command) && T.OnePeriodApart(limits.value, p.command, p.base)
    }

    constructor (trig: Trig, limits: Option<T.Limits>)
      requires Lawful(trig) && (limits.Some? ==> T.ValidLimits(limits.value))
      ensures Valid() && Abs() == T.IDLE && this.trig == trig && this.limits == limits
    {
      this.trig, this.limits := trig, limits;
      generation, stageGeneration, stage := 0, 0, None;
      lastCommand, timer, body, wire := T.ZERO_VELOCITY, T.Resting, T.Done, [];
    }

    /** The three assignments of a start, in order. */
    method StartWaypoint(s: T.Waypoint)
      requires Valid()
      modifies this`generation, this`stageGeneration, this`stage, this`body
      ensures Valid() && Abs() == T.SetStage(T.Note(T.Bump(old(Abs()))), s)
      ensures generation == stageGeneration == old(generation) + 1 && stage == Some(s)
    {
      generation, body := generation + 1, T.Bumped;
      stageGeneration, body := generation, T.Noted;
      stage, body := Some(s), T.Done;
    }

    /** Every proposal made so far is for an older generation from here on. */
    method Disable()
      requires Valid()
      modifies this`generation, this`stage
      ensures Valid() && Abs() == T.Disable(old(Abs()))
      ensures stage.None? && generation > old(generation)
    {
      generation := generation + 1;
      stage := None;
    }

    method PublishZero()
      requires Valid()
      modifies this`wire
      ensures Valid() && Abs() == T.PublishZero(old(Abs()))
    {
      P.ZeroGrows(limits, wire);
      wire := wire + [T.Zero];
    }

    /** A plain stop: disable the stage, then a burst of zeros. */
    method ZeroAndDisable()
      requires Valid()
      modifies this`generation, this`stage, this`wire, this`lastCommand
      ensures Valid() && Abs() == T.Burst(T.Disable(old(Abs())), ZERO_BURST_COUNT)
      ensures wire == old(wire) + [T.Zero, T.Zero, T.Zero] && lastCommand == T.ZERO_VELOCITY && stage.None?
    {
      Disable();
      ghost var goal := T.Burst(Abs(), ZERO_BURST_COUNT);
      for k := 0 to ZERO_BURST_COUNT
        invariant Valid() && T.Burst(Abs(), ZERO_BURST_COUNT - k) == goal && stage.None?
        invariant |wire| == |old(wire)| + k && old(wire) <= wire
        invariant forall j :: |old(wire)| <= j < |wire| ==> wire[j].Zero?
      {
        PublishZero();
      }
      lastCommand := T.ZERO_VELOCITY;
    }

    /** The emergency path: the same, with a single zero. */
    method EnqueueEmergencyZero()
      requires Valid()
      modifies this`generation, this`stage, this`wire, this`lastCommand
      ensures Valid() && Abs() == T.ForgetLast(T.PublishZero(T.Disable(old(Abs()))))
      ensures wire == old(wire) + [T.Zero] && lastCommand == T.ZERO_VELOCITY && stage.None?
    {
      Disable();
      PublishZero();
      lastCommand := T.ZERO_VELOCITY;
    }

    method Read()
      requires Valid() && timer.Resting?
      modifies this`timer
      ensures Valid() && Abs() == T.Read(old(Abs()))
      ensures timer == (if stage.None? then T.Resting else T.HasRead(stage.value, stageGeneration))
    {
      if stage.Some? {
        timer := T.HasRead(stage.value, stageGeneration);
      }
    }

    predicate Arrived(pose: Pose, goal: T.Waypoint) {
      Distance(trig, Point(pose.x, pose.y), goal.position) <= goal.tolerance
    }

    /** The control law; a pose too old or from the future is `None`. The proposal is within the limits, one period of
        acceleration from the last command, and for the generation that was read. */
    method Propose(pose: Option<Pose>)
      requires Valid() && timer.HasRead?
      modifies this`timer
      ensures Valid() && Abs() == T.Propose(trig, limits, old(Abs()), pose)
      ensures timer.Proposes? <==> pose.Some? && !Arrived(pose.value, old(timer).stage) && limits.Some?
      ensures !timer.Proposes? ==> timer.Resting?
      ensures timer.Proposes? ==>
        timer.proposal.base == lastCommand && Bounded(timer.proposal) && timer.proposal.generation == old(timer).generation
      ensures timer.Proposes? && old(timer).stage.tolerance >= 0.0 ==>
        P.ProposesTowards(trig, limits.value, pose.value, old(timer).stage, lastCommand, timer.proposal.command)
    {
      hide Distance, T.HeadingError, T.WireSound, Lawful, Times, P.ProposesTowards;
      var goal := timer.stage;
      if pose.None? {
        timer := T.Resting;
        return;
      }
      var here := Point(pose.value.x, pose.value.y);
      var distance := Distance(trig, here, goal.position);
      if distance <= goal.tolerance || limits.None? {
        timer := T.Resting;
        return;
      }
      var command := Command(limits.value, pose.value, goal, distance);
      timer := T.Proposes(T.Proposal(command, lastCommand, timer.generation));
    }

    method Command(l: T.Limits, pose: Pose, goal: T.Waypoint, distance: real) returns (command: T.Velocity)
      requires Lawful(trig) && T.ValidLimits(l) && T.InLimits(l, lastCommand)
      requires distance == Distance(trig, Point(pose.x, pose.y), goal.position)
      ensures command == T.Reachable(l, lastCommand, T.Desired(trig, l, pose, goal))
      ensures T.InLimits(l, command) && T.OnePeriodApart(l, command, lastCommand)
      ensures distance > 0.0 ==> P.ProposesTowards(trig, l, pose, goal, lastCommand, command)
    {
      P.ReachableIsSound(trig, l, lastCommand, pose, goal);
      if distance > 0.0 { P.ReachableProposes(trig, l, lastCommand, pose, goal); }
      hide Distance, T.HeadingError, Times, T.InLimits, T.OnePeriodApart, Lawful, P.ProposesTowards;
      var error := T.HeadingError(trig, pose, goal.position);
      var desiredLinear := if MissionGeometry.Abs(error) <= trig.pi / 2.0 then Min(l.maxLinear, distance) else 0.0;
      var desiredAngular := Max(-l.maxAngular, Min(l.maxAngular, error));
      var linearDelta := Times(l.maxLinearAcceleration, l.period);
      var angularDelta := Times(l.maxAngularAcceleration, l.period);
      command := T.Velocity(
        Max(lastCommand.linear - linearDelta, Min(lastCommand.linear + linearDelta, desiredLinear)),
        Max(lastCommand.angular - angularDelta, Min(lastCommand.angular + angularDelta, desiredAngular)));
    }

    /** The timer callback up to its submission: with no stage it does nothing, with a fresh pose short of the goal it
        proposes, and otherwise it stops. */
    method ControlStep(pose: Option<Pose>)
      requires Valid() && timer.Resting?
      modifies this`generation, this`stage, this`wire, this`lastCommand, this`timer
      ensures Valid()
      ensures timer.Proposes? <==>
        old(stage).Some? && pose.Some? && !Arrived(pose.value, old(stage).value) && limits.Some?
      ensures timer.Proposes? ==>
        && Bounded(timer.proposal) && timer.proposal.base == lastCommand && timer.proposal.generation == stageGeneration
        && (old(stage).value.tolerance >= 0.0 ==>
              P.ProposesTowards(trig, limits.value, pose.value, old(stage).value, lastCommand, timer.proposal.command))
      ensures old(stage).None? || timer.Proposes? ==> Abs() == old(Abs()).(timer := timer)
      ensures old(stage).Some? && !timer.Proposes? ==> Abs() == T.Burst(T.Disable(old(Abs())), ZERO_BURST_COUNT)
    {
      hide Distance, T.WireSound, Lawful, T.InLimits, T.OnePeriodApart, T.Reachable, T.Desired, P.ProposesTowards;
      Read();
      if timer.HasRead? {
        Propose(pose);
        if timer.Resting? { ZeroAndDisable(); }
      }
    }

    /** The head of a velocity command: it goes on only for the stage it was computed for. */
    method Check(p: T.Proposal) returns (passed: bool)
      requires Valid()
      modifies this`body
      ensures Valid() && Abs() == T.Check(old(Abs()), p)
      ensures passed <==> p.generation == generation && stage.Some?
    {
      passed := p.generation == generation && stage.Some?;
      body := if passed then T.Passed else T.Done;
    }

    /** Its publication, sound when the base is still the last motion on the wire, or standstill. */
    method Publish(p: T.Proposal)
      requires Valid() && T.Sound(limits, wire, p.command, p.base)
      modifies this`wire, this`body
      ensures Valid() && Abs() == T.Publish(old(Abs()), p)
      ensures T.LastMotion(wire) == Some(p.command)
    {
      P.WireGrows(limits, wire, T.Motion(p.command, p.base));
      wire := wire + [T.Motion(p.command, p.base)];
      body := T.Sent;
    }

    /** Its end: the next proposal starts from here. */
    method Remember(p: T.Proposal)
      requires Valid() && limits.Some? && T.InLimits(limits.value, p.command) && T.LastMotion(wire) == Some(p.command)
      modifies this`lastCommand, this`body
      ensures Valid() && Abs() == T.Remember(old(Abs()), p)
      ensures T.Fresh(wire, lastCommand)
    {
      lastCommand := p.command;
      body := T.Done;
    }
  }
}
