/** The Twist transport over every run of the whole stop system: velocities within limits, what a stop does and does
    not exclude, and that zeros have the last word after a successful one. */
module TwistProofs {
  import opened SafetyTypes
  import opened MissionGeometry
  import opened TwistSpec
  import S = SequencerSpec
  import SP = SequencerProofs
  import W = CommandWorkerSpec
  import G = GatewaySpec
  import Y = StopSystemSpec
  import YP = StopSystemProofs

  // ----- velocities -----

  lemma WithinRange(x: real, base: real, delta: real, lo: real, hi: real)
    requires lo <= x <= hi && lo <= base <= hi && delta >= 0.0
    ensures lo <= Within(x, base, delta) <= hi
    ensures Abs(Within(x, base, delta) - base) <= delta
  {
  }

  lemma AccelerationNonNegative(a: real, period: real)
    requires a >= 0.0 && period >= 0.0
    ensures Times(a, period) >= 0.0
  {
    assert a == 0.0 || period == 0.0 ==> Times(a, period) == 0.0;
    hide Times;
    if a > 0.0 && period > 0.0 { PositiveTimes(a, period); }
  }

  /** A command computed from one within limits is within limits, and one period of acceleration away from it. */
  lemma ReachableIsSound(g: Trig, l: Limits, base: Velocity, pose: Pose, stage: Waypoint)
    requires Lawful(g) && ValidLimits(l) && InLimits(l, base)
    ensures var v := Reachable(l, base, Desired(g, l, pose, stage)); InLimits(l, v) && OnePeriodApart(l, v, base)
  {
    var desired := Desired(g, l, pose, stage);
    assert 0.0 <= desired.linear <= l.maxLinear && -l.maxAngular <= desired.angular <= l.maxAngular by {
      assert Distance(g, Point(pose.x, pose.y), stage.position) >= 0.0;
    }
    AccelerationNonNegative(l.maxLinearAcceleration, l.period);
    AccelerationNonNegative(l.maxAngularAcceleration, l.period);
    hide Desired, Times, Within;
    WithinRange(desired.linear, base.linear, Times(l.maxLinearAcceleration, l.period), 0.0, l.maxLinear);
    WithinRange(desired.angular, base.angular, Times(l.maxAngularAcceleration, l.period), -l.maxAngular, l.maxAngular);
  }

  /** `v` gets from `base` as far towards `goal` as `delta` allows. */
  predicate Approaches(v: real, base: real, goal: real, delta: real) {
    if Abs(goal - base) <= delta then v == goal
    else Abs(v - base) == delta && Abs(goal - v) == Abs(goal - base) - delta
  }

  /** The control law in the frame of the robot: `q` is where the goal is, `error` its bearing. It turns towards the goal
      as fast as the bearing says and the limit allows, and drives only at a goal that is not behind. */
  predicate Aims(g: Trig, l: Limits, q: Point, v: Velocity) {
    var distance := g.hypot(q.x, q.y);
    && v.linear == (if q.x >= 0.0 then Min(l.maxLinear, distance) else 0.0)
    && (l.maxAngular > 0.0 ==> (v.angular > 0.0 <==> q.y > 0.0 || (q.y == 0.0 && q.x < 0.0)) && (v.angular < 0.0 <==> q.y < 0.0))
  }

  /** The heading error is a bearing of the goal in the frame of the robot, on the same side and within a quarter turn
      exactly when the goal is not behind. */
  lemma HeadingErrorIsBearing(g: Trig, pose: Pose, goal: Point)
    requires Lawful(g) && Distance(g, Point(pose.x, pose.y), goal) > 0.0
    ensures var q, error := InFrame(g, pose, goal), HeadingError(g, pose, goal);
      && Bears(g, q, error) && -g.pi <= error <= g.pi
      && (error > 0.0 <==> q.y > 0.0 || (q.y == 0.0 && q.x < 0.0)) && (error < 0.0 <==> q.y < 0.0)
      && (Abs(error) <= g.pi / 2.0 <==> q.x >= 0.0)
  {
    var q, d := InFrame(g, pose, goal), Distance(g, Point(pose.x, pose.y), goal);
    var a := g.atan2(goal.y - pose.y, goal.x - pose.x) - pose.yaw;
    var x, y := g.cos(a), g.sin(a);
    HeadingIsBearing(g, pose, goal);
    assert IsPolar(g, y, x);
    assert g.hypot(x, y) == 1.0 by {
      SquareOrder(g.hypot(x, y), 1.0);
      SquareOrder(1.0, g.hypot(x, y));
    }
    var error := g.atan2(y, x);
    assert error == HeadingError(g, pose, goal);
    hide InFrame, Distance, HeadingError, Lawful;
    assert Times(1.0, g.cos(error)) == g.cos(error) && Times(1.0, g.sin(error)) == g.sin(error);
    ScaledSign(d, x);
    ScaledSign(d, y);
  }

  lemma ScaledSign(d: real, x: real)
    requires d > 0.0
    ensures (Times(d, x) > 0.0 <==> x > 0.0) && (Times(d, x) < 0.0 <==> x < 0.0)
  {
    assert Times(d, -x) == -Times(d, x);
    assert x == 0.0 ==> Times(d, x) == 0.0;
    hide Times;
    if x > 0.0 { PositiveTimes(d, x); }
    if x < 0.0 { PositiveTimes(d, -x); }
  }

  lemma DesiredAims(g: Trig, l: Limits, pose: Pose, stage: Waypoint)
    requires Lawful(g) && ValidLimits(l) && Distance(g, Point(pose.x, pose.y), stage.position) > 0.0
    ensures var v, error := Desired(g, l, pose, stage), HeadingError(g, pose, stage.position);
      && Aims(g, l, InFrame(g, pose, stage.position), v)
      && Abs(v.angular) == Min(l.maxAngular, Abs(error)) && 0.0 <= v.linear <= l.maxLinear
  {
    HeadingErrorIsBearing(g, pose, stage.position);
    HeadingIsBearing(g, pose, stage.position);
    hide InFrame, HeadingError, Distance, Lawful, Bears;
  }

  lemma WithinApproaches(goal: real, base: real, delta: real)
    requires delta >= 0.0
    ensures Approaches(Within(goal, base, delta), base, goal, delta)
  {
  }

  /** What is proposed for a robot short of its goal: from the last command, as far as one period of acceleration goes
      towards a velocity that aims at the goal. */
  ghost predicate ProposesTowards(g: Trig, l: Limits, pose: Pose, stage: Waypoint, base: Velocity, command: Velocity) {
    exists aim: Velocity ::
      && Aims(g, l, InFrame(g, pose, stage.position), aim)
      && Abs(aim.angular) == Min(l.maxAngular, Abs(HeadingError(g, pose, stage.position)))
      && Approaches(command.linear, base.linear, aim.linear, Times(l.maxLinearAcceleration, l.period))
      && Approaches(command.angular, base.angular, aim.angular, Times(l.maxAngularAcceleration, l.period))
  }

  lemma ReachableProposes(g: Trig, l: Limits, base: Velocity, pose: Pose, stage: Waypoint)
    requires Lawful(g) && ValidLimits(l) && Distance(g, Point(pose.x, pose.y), stage.position) > 0.0
    ensures ProposesTowards(g, l, pose, stage, base, Reachable(l, base, Desired(g, l, pose, stage)))
  {
    var aim := Desired(g, l, pose, stage);
    DesiredAims(g, l, pose, stage);
    AccelerationNonNegative(l.maxLinearAcceleration, l.period);
    AccelerationNonNegative(l.maxAngularAcceleration, l.period);
    WithinApproaches(aim.linear, base.linear, Times(l.maxLinearAcceleration, l.period));
    WithinApproaches(aim.angular, base.angular, Times(l.maxAngularAcceleration, l.period));
    hide Desired, HeadingError, InFrame, Distance, Lawful, Times, Within, Approaches, Aims;
  }

  // ----- the wire -----

  lemma WireGrows(l: Option<Limits>, wire: seq<Event>, e: Event)
    requires WireSound(l, wire) && (e.Motion? ==> Sound(l, wire, e.command, e.base))
    ensures WireSound(l, wire + [e])
    ensures LastMotion(wire + [e]) == if e.Motion? then Some(e.command) else LastMotion(wire)
    ensures Motions(wire + [e]) == Motions(wire) + (if e.Motion? then 1 else 0)
  {
    hide Sound;
    var longer := wire + [e];
    assert longer[..|wire|] == wire;
    assert forall k :: 0 <= k < |wire| ==> longer[..k] == wire[..k] && longer[k] == wire[k];
  }

  lemma MotionsGrow(wire: seq<Event>, e: Event)
    ensures Motions(wire + [e]) == Motions(wire) + (if e.Motion? then 1 else 0)
  {
    assert (wire + [e])[..|wire|] == wire;
  }

  lemma ZeroGrows(l: Option<Limits>, wire: seq<Event>)
    requires WireSound(l, wire)
    ensures WireSound(l, wire + [Zero]) && LastMotion(wire + [Zero]) == LastMotion(wire)
  {
    WireGrows(l, wire, Zero);
  }

  // ----- what the stop system does to the sequencer behind the transport's back -----

  /** Latches stay, commands leave the queue only to be taken or refused, and nobody gets an outcome but by a refusal
      that latches. */
  ghost predicate Mild(q: S.State, r: S.State) {
    && r.issued == q.issued && q.taken <= r.taken && (q.latched ==> r.latched)
    && (forall id :: id in r.queue ==> id in q.queue)
    && (r.worker == q.worker || r.worker.Gone? || (q.worker.Settling? && r.worker.AtTop?) || Takes(q, r))
    && (forall id :: id in q.outcomes ==> id in r.outcomes && r.outcomes[id] == q.outcomes[id])
    && (forall id :: id in r.outcomes && id !in q.outcomes ==> r.outcomes[id].Rejected? && r.latched)
  }

  predicate Takes(q: S.State, r: S.State) {
    q.worker.AtTop? && q.queue != [] && r.worker == S.Taken(q.queue[0])
  }

  lemma LatchIsMild(q: S.State, code: S.Refusal)
    ensures Mild(q, S.Latch(q, code)) && S.Latch(q, code).worker == q.worker && S.Latch(q, code).latched
  {
  }

  lemma CheckIsMild(q: S.State)
    ensures Mild(q, S.CheckWorker(q).0) && S.CheckWorker(q).0.worker == q.worker
  {
    LatchIsMild(q.(failed := true, accepting := false), S.UnsafeState);
    hide S.Latch;
  }

  lemma TimeOutIsMild(q: S.State, id: nat)
    requires id < |q.issued|
    ensures Mild(q, S.TimeOut(q, id))
  {
    var t := S.Complete(q, id, S.Rejected(S.Timeout));
    LatchIsMild(t, S.Refusal.Latched);
    hide S.Latch;
  }

  lemma WorkerIsMild(q: S.State, a: S.Step)
    requires S.Inv(q) && (a.DoTake? || a.DoExit? || a.DoSettle? || a.DoDie?)
    ensures Mild(q, S.Next(q, a))
  {
    hide S.Observed, S.OpenCommands, S.InHand;
  }

  lemma ActivationIsMild(q: S.State, a: S.Step)
    requires S.Inv(q) && !a.DoSubmit? && !a.DoCall? && !a.DoCommandEnds?
    ensures Mild(q, S.Next(q, a))
  {
    hide S.Inv, S.Latch, S.CheckWorker, S.TimeOut, S.Take, S.RefuseAll;
    match a
    case DoStart(_) => CheckIsMild(q);
    case DoIssue => CheckIsMild(q);
    case DoOwned(_, _) => CheckIsMild(q);
    case DoTimeOut(id) => if id < |q.issued| { TimeOutIsMild(q, id); }
    case DoLatchAndZero(_) => LatchIsMild(q, S.Refusal.Latched);
    case DoBeginClose => CloseIsMild(q);
    case DoSample =>
    case DoTake => WorkerIsMild(q, a);
    case DoExit => WorkerIsMild(q, a);
    case DoSettle => WorkerIsMild(q, a);
    case DoDie => WorkerIsMild(q, a);
    case _ =>
  }

  lemma SplitInv(q: S.State)
    requires S.Inv(q)
    ensures S.Queued(q) && S.Worker(q) && S.Accounted(q)
  {
  }

  lemma CloseIsMild(q: S.State)
    ensures Mild(q, S.BeginClose(q))
  {
  }

  /** So does every step of the stop system that is not the transport's own; and it publishes at most a zero. */
  lemma SystemIsMild(y: Y.State, step: Y.Step)
    requires Y.Inv(y) && !Reserved(step)
    ensures var z := Y.Next(y, step);
      Mild(y.sequencer, z.sequencer) && (z.wire == y.wire || z.wire == y.wire + [Y.Zero])
  {
    hide S.Inv, S.Next, S.LatchAndZero, S.Sample, Mild, Y.CallerHolds;
    MildIsReflexive(y.sequencer);
    LatchAndSampleAreMild(y.sequencer);
    if step.Activation? { ActivationIsMild(y.sequencer, step.action); }
  }

  lemma MildIsReflexive(q: S.State)
    ensures Mild(q, q)
  {
  }

  lemma LatchAndSampleAreMild(q: S.State)
    ensures forall taken :: Mild(q, S.LatchAndZero(q, taken))
    ensures Mild(q, S.Sample(q).0)
  {
    LatchIsMild(q, S.Refusal.Latched);
    hide S.Latch;
  }

  // ----- the stop system's steps that are the transport's own -----

  lemma SystemActs(y: Y.State, a: S.Step)
    requires Y.Inv(y) && !Y.IsStopStep(a)
    ensures var z := Y.Next(y, Y.Activation(a));
      Y.Inv(z) && z == y.(sequencer := S.Next(y.sequencer, a))
    ensures S.Inv(y.sequencer) && S.Queued(y.sequencer) && S.Accounted(y.sequencer) && S.Worker(y.sequencer)
  {
    YP.NextKeepsInv(y, Y.Activation(a));
    SplitInv(y.sequencer);
    hide S.Inv, S.Next, S.Queued, S.Accounted, S.Worker, Y.CallerHolds;
  }

  lemma SystemPublishes(y: Y.State)
    requires Y.Inv(y)
    ensures var z := Y.Next(y, Y.PublishZero); Y.Inv(z) && z == y.(wire := y.wire + [Y.Zero])
    ensures y.sequencer.thread.Alive? && y.sequencer.worker.Calling? ==>
      var z := Y.Next(y, Y.PublishFromCommand); Y.Inv(z) && z == y.(wire := y.wire + [Y.NonZero])
    ensures S.Inv(y.sequencer) && S.Queued(y.sequencer) && S.Accounted(y.sequencer) && S.Worker(y.sequencer)
  {
    hide S.Inv, S.Queued, S.Accounted, S.Worker, Y.CallerHolds;
    YP.NextKeepsInv(y, Y.PublishZero);
    YP.NextKeepsInv(y, Y.PublishFromCommand);
    SplitInv(y.sequencer);
    hide Y.Inv;
  }

  // ----- single steps -----

  lemma SameWireGrows(wire: seq<Event>, seen: seq<Y.Wire>, e: Event, f: Y.Wire)
    requires SameWire(wire, seen) && (e.Zero? <==> f.Zero?)
    ensures SameWire(wire + [e], seen + [f])
  {
  }

  lemma CommandsUnderMild(s: State, t: State)
    requires Commands(s) && S.Inv(Sequencer(s)) && Mild(Sequencer(s), Sequencer(t))
    requires t.work == s.work && t.called == s.called && t.local == s.local.(wire := t.local.wire)
    ensures Commands(t)
    ensures InHand(t) ==> (InHand(s) && Sequencer(t).worker == Sequencer(s).worker) || Sequencer(t).worker.id in Sequencer(s).queue
    ensures UnderWay(t) <==> UnderWay(s)
  {
    SplitInv(Sequencer(s));
    hide S.Inv, S.Worker;
  }

  lemma VelocitiesUnderMild(l: Option<Limits>, s: State, t: State)
    requires Commands(s) && Velocities(l, s) && S.Inv(Sequencer(s)) && Mild(Sequencer(s), Sequencer(t))
    requires t.work == s.work && t.called == s.called && t.local == s.local.(wire := t.local.wire)
    requires t.local.wire == s.local.wire || t.local.wire == s.local.wire + [Zero]
    ensures Velocities(l, t)
  {
    CommandsUnderMild(s, t);
    ZeroGrows(l, s.local.wire);
    hide S.Inv, Commands, WireSound, LastMotion, InLimits, OnePeriodApart, Mild;
    assert forall id :: id in Sequencer(t).queue ==> id in Sequencer(s).queue by { MildQueue(Sequencer(s), Sequencer(t)); }
    assert forall id :: ProposalSound(l, s, id) ==> ProposalSound(l, t, id);
    if InHand(t) && !(InHand(s) && Sequencer(t).worker == Sequencer(s).worker) {
      assert ProposalSound(l, s, Sequencer(t).worker.id);
    }
  }

  lemma MildQueue(q: S.State, r: S.State)
    requires Mild(q, r)
    ensures forall id :: id in r.queue ==> id in q.queue
  {
  }

  lemma SystemKeepsInv(g: Trig, l: Option<Limits>, s: State, y: Y.Step)
    requires Inv(l, s)
    ensures Inv(l, Next(g, l, s, DoSystem(y)))
  {
    hide Y.Inv, Y.Next, Commands, Velocities, SameWire, Mild, S.Inv;
    if !Reserved(y) {
      var t := OnWire(s, y);
      YP.NextKeepsInv(s.system, y);
      SystemIsMild(s.system, y);
      SameWireGrows(s.local.wire, s.system.wire, Zero, Y.Zero);
      assert S.Inv(Sequencer(s)) by { SystemPublishes(s.system); }
      CommandsUnderMild(s, t);
      VelocitiesUnderMild(l, s, t);
    }
  }

  /** `r` is `q` with the fresh receipt `id` at the end of the queue. */
  predicate Queues(q: S.State, r: S.State, id: nat) {
    && id == |q.issued| && !q.latched && |r.issued| == |q.issued| + 1
    && r == q.(queue := q.queue + [id], unfinished := r.unfinished, issued := r.issued)
  }

  /** What a submission does: refused, it is as mild as any stop; accepted, it queues its command and nothing else. */
  lemma SubmitIsMild(q: S.State, finite: bool, callable: bool, permit: S.Permit)
    requires S.Inv(q)
    ensures var (r, receipt) := S.Submit(q, finite, callable, permit);
      && (receipt.Err? ==> Mild(q, r) && r.worker == q.worker)
      && (receipt.Ok? ==> Queues(q, r, receipt.value))
  {
    SP.AdmitKeepsInv(q, permit);
    CheckIsMild(q);
    LatchIsMild(q, S.Refusal.Latched);
    MildIsReflexive(q);
    hide S.Inv, Mild, S.Latch, S.CheckWorker;
  }

  lemma RefusedKeepsInv(l: Option<Limits>, s: State, work: Work, finite: bool, callable: bool, permit: S.Permit)
    requires Inv(l, s) && Submit(s, work, finite, callable, permit).1.Err?
    ensures var t := Submit(s, work, finite, callable, permit).0;
      Inv(l, t) && t == s.(system := t.system) && Mild(Sequencer(s), Sequencer(t))
  {
    hide Y.Inv, Y.Next, Commands, Velocities, SameWire, Mild, S.Inv, S.Submit, S.Queued, S.Accounted, S.Worker;
    var t := Submit(s, work, finite, callable, permit).0;
    SystemActs(s.system, S.DoSubmit(finite, callable, permit));
    SubmitIsMild(Sequencer(s), finite, callable, permit);
    CommandsUnderMild(s, t);
    VelocitiesUnderMild(l, s, t);
  }

  /** An accepted command joins the queue. The timer moves on to wait for its own; nobody else's needs waiting for. */
  lemma AcceptedKeepsInv(l: Option<Limits>, s: State, work: Work, finite: bool, callable: bool, permit: S.Permit)
    requires Inv(l, s) && Submit(s, work, finite, callable, permit).1.Ok?
    requires work.SendVelocity? ==> s.local.timer == Proposes(work.proposal)
    ensures var (t, receipt) := Submit(s, work, finite, callable, permit);
      Inv(l, if work.SendVelocity? then t.(local := s.local.(timer := Waiting(receipt.value))) else t)
  {
    hide Y.Inv, Y.Next, SameWire, Commands, Velocities, Mild, S.Inv, S.Submit, S.Worker, S.Queued, S.Accounted, Queues;
    var (t, receipt) := Submit(s, work, finite, callable, permit);
    SystemActs(s.system, S.DoSubmit(finite, callable, permit));
    SubmitIsMild(Sequencer(s), finite, callable, permit);
    var u := if work.SendVelocity? then t.(local := s.local.(timer := Waiting(receipt.value))) else t;
    AcceptedKeepsCommands(s, u, work, receipt.value);
    AcceptedKeepsVelocities(l, s, u, work, receipt.value);
  }

  /** The state after `work` was queued under `id`. */
  predicate Accepts(s: State, u: State, work: Work, id: nat) {
    && Queues(Sequencer(s), Sequencer(u), id) && u.work == s.work[id := work] && u.called == s.called
    && u.local == (if work.SendVelocity? then s.local.(timer := Waiting(id)) else s.local)
    && (work.SendVelocity? ==> s.local.timer == Proposes(work.proposal))
  }

  lemma AcceptedKeepsCommands(s: State, u: State, work: Work, id: nat)
    requires Commands(s) && S.Queued(Sequencer(s)) && S.Accounted(Sequencer(s)) && S.Worker(Sequencer(s)) && Accepts(s, u, work, id)
    ensures Commands(u) && UnderWay(u) == UnderWay(s) && InHand(u) == InHand(s)
  {
    hide S.OpenCommands, S.InHand;
  }

  lemma AcceptedKeepsVelocities(l: Option<Limits>, s: State, u: State, work: Work, id: nat)
    requires Commands(s) && S.Queued(Sequencer(s)) && S.Accounted(Sequencer(s)) && S.Worker(Sequencer(s)) && Accepts(s, u, work, id)
    requires Velocities(l, s)
    ensures Velocities(l, u)
  {
    AcceptedKeepsCommands(s, u, work, id);
    hide WireSound, Sound, Fresh, S.Worker, S.Accounted;
    forall k | k in Sequencer(u).queue ensures ProposalSound(l, u, k) {
      if k != id { assert k in Sequencer(s).queue && ProposalSound(l, s, k); }
    }
  }

  lemma SubmitsKeepInv(g: Trig, l: Option<Limits>, s: State, work: Work, finite: bool, callable: bool, permit: S.Permit)
    requires Inv(l, s)
    ensures Inv(l, Next(g, l, s, DoSubmitWork(work, finite, callable, permit)))
    ensures Inv(l, Next(g, l, s, DoSubmitProposal(permit)))
  {
    hide Inv, Submit;
    if !work.SendVelocity? {
      if Submit(s, work, finite, callable, permit).1.Ok? {
        AcceptedKeepsInv(l, s, work, finite, callable, permit);
      } else {
        RefusedKeepsInv(l, s, work, finite, callable, permit);
      }
    }
    if s.local.timer.Proposes? {
      var mine := SendVelocity(s.local.timer.proposal);
      if Submit(s, mine, true, true, permit).1.Ok? {
        AcceptedKeepsInv(l, s, mine, true, true, permit);
      } else {
        RefusedKeepsInv(l, s, mine, true, true, permit);
        RestKeepsInv(l, Submit(s, mine, true, true, permit).0, Refused);
      }
    }
  }

  /** A timer that holds a proposal, or has none and awaits nothing, may give up or rest. */
  lemma RestKeepsInv(l: Option<Limits>, s: State, timer: Timer)
    requires Inv(l, s) && (s.local.timer.Proposes? || s.local.timer.HasRead?) && (timer.Refused? || timer.Resting?)
    ensures Inv(l, s.(local := s.local.(timer := timer)))
  {
    hide Y.Inv, SameWire, WireSound, Sound;
  }

  // ----- the timer -----

  lemma ReadKeepsInv(g: Trig, l: Option<Limits>, s: State)
    requires Inv(l, s)
    ensures Inv(l, Next(g, l, s, DoRead)) && Inv(l, Next(g, l, s, DoReject))
  {
    hide Y.Inv, SameWire, WireSound, Sound;
  }

  lemma ProposeKeepsInv(g: Trig, l: Option<Limits>, s: State, pose: Option<Pose>)
    requires Lawful(g) && (l.Some? ==> ValidLimits(l.value)) && Inv(l, s) && s.local.timer.HasRead?
    ensures Inv(l, s.(local := Propose(g, l, s.local, pose)))
  {
    if pose.Some? && l.Some? {
      ReachableIsSound(g, l.value, s.local.last, pose.value, s.local.timer.stage);
    }
    hide Y.Inv, SameWire, WireSound, Fresh, InLimits, OnePeriodApart, Reachable, Desired, Distance, Lawful;
  }

  lemma WakeKeepsInv(g: Trig, l: Option<Limits>, s: State)
    requires Inv(l, s)
    ensures Inv(l, Next(g, l, s, DoWake))
  {
    SplitInv(Sequencer(s));
    hide Y.Inv, SameWire, WireSound, Sound, S.Worker, S.Queued;
  }

  lemma RefuseKeepsInv(g: Trig, l: Option<Limits>, s: State)
    requires Inv(l, s)
    ensures Inv(l, Next(g, l, s, DoRefuse))
  {
    hide Y.Inv, SameWire, WireSound, Sound, Fresh, LastMotion, InLimits;
  }

  lemma DisableKeepsInv(g: Trig, l: Option<Limits>, s: State)
    requires Inv(l, s)
    ensures Inv(l, Next(g, l, s, DoDisable)) && Inv(l, Next(g, l, s, DoForgetLast))
  {
    hide Y.Inv, SameWire, Commands, Velocities;
    DisableKeepsCommands(s);
    DisableKeepsVelocities(l, s);
  }

  lemma DisableKeepsVelocities(l: Option<Limits>, s: State)
    requires Velocities(l, s)
    ensures Velocities(l, s.(local := Disable(s.local))) && Velocities(l, s.(local := ForgetLast(s.local)))
  {
    hide WireSound, Sound, LastMotion;
    assert forall id :: ProposalSound(l, s, id) ==> ProposalSound(l, s.(local := Disable(s.local)), id);
    assert forall id :: ProposalSound(l, s, id) ==> ProposalSound(l, s.(local := ForgetLast(s.local)), id);
  }

  lemma DisableKeepsCommands(s: State)
    requires Commands(s)
    ensures Commands(s.(local := Disable(s.local))) && Commands(s.(local := ForgetLast(s.local)))
  {
  }

  lemma PublishZeroKeepsInv(g: Trig, l: Option<Limits>, s: State)
    requires Inv(l, s)
    ensures Inv(l, Next(g, l, s, DoPublishZero))
  {
    hide Y.Inv, Y.Next, SameWire, Commands, Velocities, Mild, S.Inv, S.Queued, S.Accounted, S.Worker;
    SystemPublishes(s.system);
    SameWireGrows(s.local.wire, s.system.wire, Zero, Y.Zero);
    MildIsReflexive(Sequencer(s));
    CommandsUnderMild(s, Next(g, l, s, DoPublishZero));
    VelocitiesUnderMild(l, s, Next(g, l, s, DoPublishZero));
  }

  // ----- the worker -----

  lemma CallKeepsInv(g: Trig, l: Option<Limits>, s: State)
    requires Inv(l, s)
    ensures Inv(l, Next(g, l, s, DoCall))
  {
    hide Y.Inv, Y.Next, SameWire, Commands, Velocities, S.Inv, S.Queued, S.Accounted, S.Worker;
    if Sequencer(s).thread.Alive? && Sequencer(s).worker.Taken? {
      var t := Next(g, l, s, DoCall);
      SystemActs(s.system, S.DoCall);
      CallKeepsCommands(s, t);
      CallKeepsVelocities(l, s, t);
    }
  }

  predicate Calls(s: State, t: State) {
    && Sequencer(s).worker.Taken? && Sequencer(t) == S.Call(Sequencer(s), Sequencer(s).worker.id)
    && t.work == s.work && t.called == Some(Sequencer(s).worker.id) && t.local == s.local.(body := Entered)
  }

  lemma CallKeepsCommands(s: State, t: State)
    requires Commands(s) && S.Queued(Sequencer(s)) && S.Worker(Sequencer(s)) && Calls(s, t)
    ensures Commands(t) && !InHand(t) && (UnderWay(t) <==> InHand(s))
  {
    hide S.OpenCommands, S.InHand;
  }

  lemma CallKeepsVelocities(l: Option<Limits>, s: State, t: State)
    requires Commands(s) && S.Queued(Sequencer(s)) && S.Worker(Sequencer(s)) && Calls(s, t) && Velocities(l, s)
    ensures Velocities(l, t)
  {
    CallKeepsCommands(s, t);
    assert !UnderWay(s);
    hide Commands, WireSound, Fresh, LastMotion, OnePeriodApart, S.Worker, S.Queued, S.OpenCommands, S.InHand;
  }

  lemma StartBodyKeepsInv(g: Trig, l: Option<Limits>, s: State)
    requires Inv(l, s)
    ensures Inv(l, Next(g, l, s, DoBump)) && Inv(l, Next(g, l, s, DoNote)) && Inv(l, Next(g, l, s, DoSetStage))
  {
    hide Y.Inv, SameWire, WireSound, Sound;
  }

  lemma VelocityBodyKeepsInv(g: Trig, l: Option<Limits>, s: State)
    requires Inv(l, s)
    ensures Inv(l, Next(g, l, s, DoCheck)) && Inv(l, Next(g, l, s, DoRemember))
  {
    hide Y.Inv, SameWire, WireSound, InLimits, OnePeriodApart;
  }

  lemma PublishKeepsInv(g: Trig, l: Option<Limits>, s: State)
    requires Inv(l, s)
    ensures Inv(l, Next(g, l, s, DoPublish))
  {
    hide Y.Inv, Y.Next, SameWire, Commands, Velocities, S.Inv, S.Queued, S.Accounted, S.Worker;
    if InVelocity(s) && s.local.body.Passed? {
      var p, t := Sending(s), Next(g, l, s, DoPublish);
      SystemPublishes(s.system);
      SameWireGrows(s.local.wire, s.system.wire, Motion(p.command, p.base), Y.NonZero);
      PublishKeepsCommands(s, t);
      PublishKeepsVelocities(l, s, t);
    }
  }

  predicate Publishes(s: State, t: State) {
    && InVelocity(s) && s.local.body.Passed? && Sequencer(t) == Sequencer(s) && t.work == s.work && t.called == s.called
    && t.local == Publish(s.local, Sending(s))
  }

  lemma PublishKeepsCommands(s: State, t: State)
    requires Commands(s) && Publishes(s, t)
    ensures Commands(t) && UnderWay(s) && UnderWay(t)
  {
  }

  lemma PublishKeepsVelocities(l: Option<Limits>, s: State, t: State)
    requires Commands(s) && Publishes(s, t) && Velocities(l, s) && S.Queued(Sequencer(s))
    ensures Velocities(l, t)
  {
    PublishKeepsCommands(s, t);
    NothingElsePending(s);
    var p := Sending(s);
    assert ProposalSound(l, s, s.called.value);
    WireGrows(l, s.local.wire, Motion(p.command, p.base));
    hide Commands, S.Queued, WireSound, LastMotion, InLimits, OnePeriodApart;
  }

  /** While a velocity command is under way no other is proposed or queued. */
  lemma NothingElsePending(s: State)
    requires Commands(s) && S.Queued(Sequencer(s)) && UnderWay(s)
    ensures !s.local.timer.Proposes? && !InHand(s)
    ensures forall id :: id in Sequencer(s).queue ==> !IsVelocity(s, id)
  {
  }

  lemma EndsKeepsInv(g: Trig, l: Option<Limits>, s: State, raised: bool)
    requires Inv(l, s)
    ensures Inv(l, Next(g, l, s, DoEnds(raised)))
  {
    hide Y.Inv, Y.Next, SameWire, Commands, Velocities, S.CommandEnds, S.Inv, S.Queued, S.Accounted, S.Worker;
    var t := Next(g, l, s, DoEnds(raised));
    if t != s {
      SystemActs(s.system, S.DoCommandEnds(raised));
      EndingFacts(Sequencer(s), raised);
      EndKeepsCommands(s, t);
      EndKeepsVelocities(l, s, t);
    }
  }

  predicate Ending(s: State, t: State) {
    && Sequencer(s).worker.Calling? && !s.local.body.Sent?
    && Sequencer(t).issued == Sequencer(s).issued && Sequencer(t).taken == Sequencer(s).taken
    && (Sequencer(s).latched ==> Sequencer(t).latched) && Sequencer(t).worker == S.Settling(Sequencer(s).worker.id)
    && (Sequencer(t).queue == Sequencer(s).queue || Sequencer(t).queue == [])
    && t.work == s.work && t.called == s.called && t.local == s.local.(body := Done)
  }

  lemma EndKeepsCommands(s: State, t: State)
    requires Commands(s) && Ending(s, t)
    ensures Commands(t) && !InHand(t) && !UnderWay(t)
  {
  }

  lemma EndKeepsVelocities(l: Option<Limits>, s: State, t: State)
    requires Commands(s) && Ending(s, t) && Velocities(l, s)
    ensures Velocities(l, t)
  {
    EndKeepsCommands(s, t);
    hide Commands, WireSound, Sound, Fresh, LastMotion, InLimits;
  }

  lemma EndingFacts(q: S.State, raised: bool)
    requires q.worker.Calling?
    ensures var r := S.CommandEnds(q, q.worker.id, raised);
      && r.issued == q.issued && r.taken == q.taken && (q.latched ==> r.latched) && r.worker == S.Settling(q.worker.id)
      && (r.queue == q.queue || r.queue == [])
  {
  }

  lemma NextKeepsInv(g: Trig, l: Option<Limits>, s: State, step: Step)
    requires Lawful(g) && (l.Some? ==> ValidLimits(l.value)) && Inv(l, s)
    ensures Inv(l, Next(g, l, s, step))
  {
    hide Inv, Next;
    match step
    case DoSystem(y) => SystemKeepsInv(g, l, s, y);
    case DoSubmitWork(work, finite, callable, permit) => SubmitsKeepInv(g, l, s, work, finite, callable, permit);
    case DoSubmitProposal(permit) => SubmitsKeepInv(g, l, s, OtherWork, true, true, permit);
    case DoRead => ReadKeepsInv(g, l, s);
    case DoReject => ReadKeepsInv(g, l, s);
    case DoPropose(pose) => ProposesKeepsInv(g, l, s, pose);
    case DoWake => WakeKeepsInv(g, l, s);
    case DoRefuse => RefuseKeepsInv(g, l, s);
    case DoDisable => DisableKeepsInv(g, l, s);
    case DoForgetLast => DisableKeepsInv(g, l, s);
    case DoPublishZero => PublishZeroKeepsInv(g, l, s);
    case DoCall => CallKeepsInv(g, l, s);
    case DoBump => StartBodyKeepsInv(g, l, s);
    case DoNote => StartBodyKeepsInv(g, l, s);
    case DoSetStage => StartBodyKeepsInv(g, l, s);
    case DoCheck => VelocityBodyKeepsInv(g, l, s);
    case DoRemember => VelocityBodyKeepsInv(g, l, s);
    case DoPublish => PublishKeepsInv(g, l, s);
    case DoEnds(raised) => EndsKeepsInv(g, l, s, raised);
  }

  lemma ProposesKeepsInv(g: Trig, l: Option<Limits>, s: State, pose: Option<Pose>)
    requires Lawful(g) && (l.Some? ==> ValidLimits(l.value)) && Inv(l, s)
    ensures Inv(l, Next(g, l, s, DoPropose(pose)))
  {
    hide Inv;
    if s.local.timer.HasRead? { ProposeKeepsInv(g, l, s, pose); }
  }

  lemma InitInv(l: Option<Limits>, mode: G.Mode, heartbeatTimeout: Option<real>, clock: real)
    requires l.Some? ==> ValidLimits(l.value)
    ensures Inv(l, Init(mode, heartbeatTimeout, clock))
  {
    var s := Init(mode, heartbeatTimeout, clock);
    SystemInitInv(mode, heartbeatTimeout, clock);
    assert SameWire(s.local.wire, s.system.wire) && WireSound(l, s.local.wire);
    hide Y.Inv, SameWire, WireSound, Times, OnePeriodApart;
  }

  lemma SystemInitInv(mode: G.Mode, heartbeatTimeout: Option<real>, clock: real)
    ensures Y.Inv(Y.Init(mode, heartbeatTimeout, clock))
  {
    SP.InitInv();
    assert W.Inv(W.INIT) && G.Inv(G.Init(mode, heartbeatTimeout));
    hide S.Inv, W.Inv, G.Inv, Y.CallerHolds, Y.Over;
  }

  lemma {:induction false} RunKeepsInv(g: Trig, l: Option<Limits>, s: State, steps: seq<Step>)
    requires Lawful(g) && (l.Some? ==> ValidLimits(l.value)) && Inv(l, s)
    ensures Inv(l, Run(g, l, s, steps))
    decreases |steps|
  {
    hide Inv, Next, Lawful;
    if steps == [] {
    } else {
      NextKeepsInv(g, l, s, steps[0]);
      RunKeepsInv(g, l, Next(g, l, s, steps[0]), steps[1..]);
    }
  }

  /** Whatever races the timer, the sequencer, the workers and the stops get into: every motion command on the wire is
      within the limits, and one period of acceleration away from the last one before it, or from standstill. */
  lemma MotionIsLimited(g: Trig, l: Option<Limits>, mode: G.Mode, heartbeatTimeout: Option<real>, clock: real, steps: seq<Step>)
    requires Lawful(g) && (l.Some? ==> ValidLimits(l.value))
    ensures WireSound(l, Run(g, l, Init(mode, heartbeatTimeout, clock), steps).local.wire)
  {
    InitInv(l, mode, heartbeatTimeout, clock);
    RunKeepsInv(g, l, Init(mode, heartbeatTimeout, clock), steps);
  }

  // ----- the transport inside the stop system -----

  // ----- where the robot is sent -----

  /** Computed for some pose short of some goal, towards that goal. */
  ghost predicate Aimed(g: Trig, l: Option<Limits>, command: Velocity, base: Velocity) {
    exists pose: Pose, stage: Waypoint ::
      && l.Some? && Distance(g, Point(pose.x, pose.y), stage.position) > stage.tolerance
      && (stage.tolerance >= 0.0 ==> ProposesTowards(g, l.value, pose, stage, base, command))
  }

  ghost predicate AllAimed(g: Trig, l: Option<Limits>, s: State) {
    && (s.local.timer.Proposes? ==> Aimed(g, l, s.local.timer.proposal.command, s.local.timer.proposal.base))
    && (forall id :: id in s.work && s.work[id].SendVelocity? ==> Aimed(g, l, s.work[id].proposal.command, s.work[id].proposal.base))
    && (forall k :: 0 <= k < |s.local.wire| && s.local.wire[k].Motion? ==> Aimed(g, l, s.local.wire[k].command, s.local.wire[k].base))
  }

  lemma ProposalIsAimed(g: Trig, l: Option<Limits>, s: Local, pose: Option<Pose>)
    requires Lawful(g) && (l.Some? ==> ValidLimits(l.value)) && s.timer.HasRead?
    ensures var t := Propose(g, l, s, pose).timer; t.Proposes? ==> Aimed(g, l, t.proposal.command, t.proposal.base)
  {
    if Propose(g, l, s, pose).timer.Proposes? {
      var p, stage := pose.value, s.timer.stage;
      if stage.tolerance >= 0.0 { ReachableProposes(g, l.value, s.last, p, stage); }
      hide ProposesTowards, Reachable, Desired, Distance, Lawful;
      assert Aimed(g, l, Reachable(l.value, s.last, Desired(g, l.value, p, stage)), s.last);
    }
  }

  lemma StepAims(g: Trig, l: Option<Limits>, s: State, step: Step)
    requires Lawful(g) && (l.Some? ==> ValidLimits(l.value)) && AllAimed(g, l, s)
    ensures AllAimed(g, l, Next(g, l, s, step))
  {
    if step.DoPropose? && s.local.timer.HasRead? { ProposalIsAimed(g, l, s.local, step.pose); }
    hide Aimed, Propose, Lawful, Y.Next, S.Submit;
  }

  lemma {:induction false} RunAims(g: Trig, l: Option<Limits>, s: State, steps: seq<Step>)
    requires Lawful(g) && (l.Some? ==> ValidLimits(l.value)) && AllAimed(g, l, s)
    ensures AllAimed(g, l, Run(g, l, s, steps))
    decreases |steps|
  {
    if steps == [] {
    } else {
      StepAims(g, l, s, steps[0]);
      RunAims(g, l, Next(g, l, s, steps[0]), steps[1..]);
    }
    hide Aimed, Next, Lawful;
  }

  /** Whatever happens, every motion on the wire was computed for a robot short of its goal, towards that goal. */
  lemma MotionIsAimed(g: Trig, l: Option<Limits>, mode: G.Mode, heartbeatTimeout: Option<real>, clock: real, steps: seq<Step>)
    requires Lawful(g) && (l.Some? ==> ValidLimits(l.value))
    ensures var wire := Run(g, l, Init(mode, heartbeatTimeout, clock), steps).local.wire;
      forall k :: 0 <= k < |wire| && wire[k].Motion? ==> Aimed(g, l, wire[k].command, wire[k].base)
  {
    RunAims(g, l, Init(mode, heartbeatTimeout, clock), steps);
    hide Run, Aimed, Lawful;
  }

  /** Every step of the transport is one step of the stop system, or none. */
  lemma StepProjects(g: Trig, l: Option<Limits>, s: State, step: Step)
    ensures Next(g, l, s, step).system == s.system || exists y :: Next(g, l, s, step).system == Y.Next(s.system, y)
  {
    hide Y.Next, S.Submit, Propose;
  }

  /** So every run of the transport is, seen from the stop system, a run of the stop system. */
  lemma {:induction false} RunProjects(g: Trig, l: Option<Limits>, s: State, steps: seq<Step>) returns (moves: seq<Y.Step>)
    ensures Run(g, l, s, steps).system == Y.Run(s.system, moves)
    decreases |steps|
  {
    hide Next, Y.Next;
    if steps == [] {
      moves := [];
    } else {
      var t := Next(g, l, s, steps[0]);
      var rest := RunProjects(g, l, t, steps[1..]);
      StepProjects(g, l, s, steps[0]);
      if t.system == s.system {
        moves := rest;
      } else {
        var y :| t.system == Y.Next(s.system, y);
        moves := [y] + rest;
        assert moves[1..] == rest;
      }
    }
  }

  ghost predicate Occurs(g: Trig, l: Option<Limits>, s: State) {
    exists mode, timeout, clock, steps :: s == Run(g, l, Init(mode, timeout, clock), steps)
  }

  lemma ReachableInv(g: Trig, l: Option<Limits>, s: State)
    requires Lawful(g) && (l.Some? ==> ValidLimits(l.value)) && Occurs(g, l, s)
    ensures Inv(l, s) && Y.Inv(s.system) && SameWire(s.local.wire, s.system.wire) && YP.Reachable(s.system)
  {
    var mode, timeout, clock, steps :| s == Run(g, l, Init(mode, timeout, clock), steps);
    InitInv(l, mode, timeout, clock);
    RunKeepsInv(g, l, Init(mode, timeout, clock), steps);
    var moves := RunProjects(g, l, Init(mode, timeout, clock), steps);
    hide Run, Y.Run, Y.Inv, Commands, Velocities;
    assert s.system == Y.Run(Y.Init(mode, timeout, clock), moves);
  }

  /** A stop that samples quiescence ends motion: whatever runs on, and in whatever order, only zeros reach the wire from
      then on. */
  lemma OnlyZerosAfterQuiescence(g: Trig, l: Option<Limits>, s: State, more: seq<Step>)
    requires Lawful(g) && (l.Some? ==> ValidLimits(l.value)) && Occurs(g, l, s)
    requires Sequencer(s).latched && S.Sample(Sequencer(s)).1
    ensures var t := Run(g, l, s, more);
      |s.local.wire| <= |t.local.wire| && forall k :: |s.local.wire| <= k < |t.local.wire| ==> t.local.wire[k].Zero?
  {
    ReachableInv(g, l, s);
    RunKeepsInv(g, l, s, more);
    var moves := RunProjects(g, l, s, more);
    YP.RunKeepsInv(s.system, moves);
    YP.OverRun(s.system, moves);
    hide Run, Y.Run, Y.Inv, Commands, Velocities;
  }

  /** A zero has the last word after a successful emergency stop: from the moment its first shot returned, everything on
      the wire is a zero, whatever anybody does later; and once the emergency worker has caught up without a failure,
      there are at least two. */
  lemma ZeroIsLastOnTheWire(g: Trig, l: Option<Limits>, s: State, c: nat, more: seq<Step>)
    requires Lawful(g) && (l.Some? ==> ValidLimits(l.value)) && Occurs(g, l, s)
    requires c in s.system.callers && s.system.callers[c].Finished? && s.system.callers[c].success
    ensures var m, t := s.system.callers[c].mark, Run(g, l, s, more);
      && m.Some? && m.value.wire <= |t.local.wire|
      && (forall k :: m.value.wire <= k < |t.local.wire| ==> t.local.wire[k].Zero?)
      && (!t.system.emergency.failed && |t.system.emergency.executed| == t.system.emergency.accepted ==>
            m.value.wire + 2 <= |t.local.wire|)
  {
    ReachableInv(g, l, s);
    RunKeepsInv(g, l, s, more);
    var moves := RunProjects(g, l, s, more);
    YP.SuccessfulStopIsFinal(s.system, c, moves);
    var m, t := s.system.callers[c].mark.value, Run(g, l, s, more);
    hide Run, Y.Run, Y.Inv, Commands, Velocities;
    assert YP.FinalFrom(t.system, m);
    ZerosAreMany(t.system.wire[m.wire..]);
  }

  lemma {:induction false} ZerosAreMany(w: seq<Y.Wire>)
    ensures Y.ZerosSeen(w) <= |w|
    decreases |w|
  {
    if w == [] {
    } else {
      ZerosAreMany(w[..|w| - 1]);
    }
  }

  // ----- what a plain stop excludes -----

  /** The motion still owed by a command that is past its check. */
  function Owed(s: State): nat {
    if InVelocity(s) && s.local.body.Passed? then 1 else 0
  }

  predicate NoStart(steps: seq<Step>) {
    forall k :: 0 <= k < |steps| ==> !steps[k].DoSetStage?
  }

  /** A sequencer step that calls nothing, or no step at all, leaves nobody newly past the check. */
  lemma OwedFalls(s: State, t: State)
    requires S.Worker(Sequencer(s)) && (Sequencer(t).worker == Sequencer(s).worker || !Sequencer(t).worker.Calling?)
    requires t.called == s.called && t.local.body == s.local.body
    requires s.called.Some? ==> s.called.value in s.work
    requires forall id :: id in s.work ==> id in t.work && t.work[id] == s.work[id]
    ensures Owed(t) <= Owed(s)
  {
    hide S.OpenCommands, S.InHand;
  }

  predicate AfterDisable(s: State, t: State) {
    t.local.stage.None? && Motions(t.local.wire) + Owed(t) <= Motions(s.local.wire) + Owed(s)
  }

  lemma SystemAfterDisable(g: Trig, l: Option<Limits>, s: State, y: Y.Step)
    requires Inv(l, s) && s.local.stage.None?
    ensures AfterDisable(s, Next(g, l, s, DoSystem(y)))
  {
    hide Y.Inv, Y.Next, Velocities, SameWire, S.Inv, S.Worker, Motions, Owed;
    if !Reserved(y) {
      var t := OnWire(s, y);
      SystemIsMild(s.system, y);
      SystemPublishes(s.system);
      MotionsGrow(s.local.wire, Zero);
      OwedFalls(s, t);
    }
  }

  lemma SubmitOwesNothing(l: Option<Limits>, s: State, work: Work, finite: bool, callable: bool, permit: S.Permit)
    requires Inv(l, s)
    ensures var t := Submit(s, work, finite, callable, permit).0; t.local == s.local && Owed(t) <= Owed(s)
  {
    hide Y.Inv, Y.Next, Velocities, SameWire, S.Inv, S.Submit, S.Worker, Mild, Owed;
    SystemActs(s.system, S.DoSubmit(finite, callable, permit));
    SubmitIsMild(Sequencer(s), finite, callable, permit);
    OwedFalls(s, Submit(s, work, finite, callable, permit).0);
  }

  lemma ZeroAfterDisable(g: Trig, l: Option<Limits>, s: State)
    requires s.local.stage.None?
    ensures AfterDisable(s, Next(g, l, s, DoPublishZero))
  {
    MotionsGrow(s.local.wire, Zero);
    hide Motions;
  }

  lemma PublishAfterDisable(g: Trig, l: Option<Limits>, s: State)
    requires s.local.stage.None?
    ensures AfterDisable(s, Next(g, l, s, DoPublish))
  {
    if InVelocity(s) { MotionsGrow(s.local.wire, Motion(Sending(s).command, Sending(s).base)); }
    hide Motions, Y.Next;
  }

  /** What the worker and the timer do besides publishing, submitting, and setting a stage. */
  lemma OwnStepAfterDisable(g: Trig, l: Option<Limits>, s: State, step: Step)
    requires s.local.stage.None? && !step.DoSystem? && !step.DoSetStage? && !step.DoSubmitWork? && !step.DoSubmitProposal?
    requires !step.DoPublish? && !step.DoPublishZero?
    ensures AfterDisable(s, Next(g, l, s, step))
  {
    hide Motions, Reachable, Desired, Distance, Submit, OnWire, Y.Next;
  }

  lemma SubmitAfterDisable(g: Trig, l: Option<Limits>, s: State, work: Work, finite: bool, callable: bool, permit: S.Permit)
    requires Inv(l, s) && s.local.stage.None?
    ensures AfterDisable(s, Next(g, l, s, DoSubmitWork(work, finite, callable, permit)))
    ensures AfterDisable(s, Next(g, l, s, DoSubmitProposal(permit)))
  {
    hide Inv, Submit, Motions;
    SubmitOwesNothing(l, s, work, finite, callable, permit);
    if s.local.timer.Proposes? { SubmitOwesNothing(l, s, SendVelocity(s.local.timer.proposal), true, true, permit); }
  }

  lemma StepAfterDisable(g: Trig, l: Option<Limits>, s: State, step: Step)
    requires Inv(l, s) && s.local.stage.None? && !step.DoSetStage?
    ensures AfterDisable(s, Next(g, l, s, step))
  {
    hide Next, AfterDisable;
    match step
    case DoSystem(y) => SystemAfterDisable(g, l, s, y);
    case DoSubmitWork(work, finite, callable, permit) => SubmitAfterDisable(g, l, s, work, finite, callable, permit);
    case DoSubmitProposal(permit) => SubmitAfterDisable(g, l, s, OtherWork, true, true, permit);
    case DoPublish => PublishAfterDisable(g, l, s);
    case DoPublishZero => ZeroAfterDisable(g, l, s);
    case _ => OwnStepAfterDisable(g, l, s, step);
  }

  /** Once the stage is disabled, and until the next start, at most one more motion command reaches the wire: the one
      that had passed its check already. */
  lemma {:induction false} DisabledStageOwesAtMostOne(g: Trig, l: Option<Limits>, s: State, steps: seq<Step>)
    requires Lawful(g) && (l.Some? ==> ValidLimits(l.value)) && Inv(l, s) && s.local.stage.None? && NoStart(steps)
    ensures Motions(Run(g, l, s, steps).local.wire) <= Motions(s.local.wire) + Owed(s)
    decreases |steps|
  {
    hide Inv, Next, Motions, Lawful;
    if steps == [] {
    } else {
      NextKeepsInv(g, l, s, steps[0]);
      StepAfterDisable(g, l, s, steps[0]);
      DisabledStageOwesAtMostOne(g, l, Next(g, l, s, steps[0]), steps[1..]);
    }
  }

  /** A motion command may still follow without another start. */
  ghost predicate MayMove(g: Trig, l: Option<Limits>, s: State) {
    exists more :: NoStart(more) && Motions(Run(g, l, s, more).local.wire) > Motions(s.local.wire)
  }

  lemma PassedPublishes(g: Trig, l: Option<Limits>, s: State)
    requires InVelocity(s) && s.local.body.Passed?
    ensures Run(g, l, s, [DoPublish]).local.wire == s.local.wire + [Motion(Sending(s).command, Sending(s).base)]
  {
    hide Y.Next, Submit, Propose;
    RunStep(g, l, s, [DoPublish]);
  }

  lemma PassedMoves(g: Trig, l: Option<Limits>, s: State)
    requires InVelocity(s) && s.local.body.Passed?
    ensures MayMove(g, l, s)
  {
    hide Motions, Run;
    MotionsGrow(s.local.wire, Motion(Sending(s).command, Sending(s).base));
    PassedPublishes(g, l, s);
    assert NoStart([DoPublish]);
  }

  /** With the stage disabled, that is exactly when the worker is past the check of a velocity command. */
  lemma MotionAfterDisableIff(g: Trig, l: Option<Limits>, s: State)
    requires Lawful(g) && (l.Some? ==> ValidLimits(l.value)) && Occurs(g, l, s) && s.local.stage.None?
    ensures MayMove(g, l, s) <==> InVelocity(s) && s.local.body.Passed?
  {
    ReachableInv(g, l, s);
    hide Occurs, Inv, Motions, Next, Run;
    if InVelocity(s) && s.local.body.Passed? {
      PassedMoves(g, l, s);
    } else {
      forall more | NoStart(more) ensures Motions(Run(g, l, s, more).local.wire) <= Motions(s.local.wire) {
        DisabledStageOwesAtMostOne(g, l, s, more);
      }
    }
  }

  /** A plain stop, burst and all. */
  const STOP: seq<Step> := [DoDisable, DoPublishZero, DoPublishZero, DoPublishZero, DoForgetLast]

  lemma RunStep(g: Trig, l: Option<Limits>, s: State, steps: seq<Step>)
    requires steps != []
    ensures Run(g, l, s, steps) == Run(g, l, Next(g, l, s, steps[0]), steps[1..])
  {
  }

  lemma {:induction false} RunAppend(g: Trig, l: Option<Limits>, s: State, first: seq<Step>, second: seq<Step>)
    ensures Run(g, l, s, first + second) == Run(g, l, Run(g, l, s, first), second)
    decreases |first|
  {
    hide Next;
    if first == [] {
      assert first + second == second;
    } else {
      assert (first + second)[1..] == first[1..] + second;
      RunAppend(g, l, Next(g, l, s, first[0]), first[1..], second);
    }
  }

  lemma StopRuns(g: Trig, l: Option<Limits>, s: State)
    ensures var u := Run(g, l, s, STOP);
      && u == s.(system := u.system, local := Burst(Disable(s.local), 3))
      && u.system == s.system.(wire := s.system.wire + [Y.Zero, Y.Zero, Y.Zero])
    ensures Burst(Disable(s.local), 3) == Disable(s.local).(wire := s.local.wire + [Zero, Zero, Zero], last := ZERO_VELOCITY)
  {
    var s1 := Next(g, l, s, STOP[0]);
    var s2 := Next(g, l, s1, STOP[1]);
    var s3 := Next(g, l, s2, STOP[2]);
    var s4 := Next(g, l, s3, STOP[3]);
    RunStep(g, l, s, STOP);
    RunStep(g, l, s1, STOP[1..]);
    RunStep(g, l, s2, STOP[1..][1..]);
    RunStep(g, l, s3, STOP[1..][1..][1..]);
    RunStep(g, l, s4, STOP[1..][1..][1..][1..]);
    assert Burst(s4.local, 0) == ForgetLast(s4.local) && Burst(s3.local, 1) == Burst(s4.local, 0);
    assert Burst(s2.local, 2) == Burst(s3.local, 1) && Burst(s1.local, 3) == Burst(s2.local, 2);
    assert s4.local.wire == s.local.wire + [Zero, Zero, Zero];
    assert s4.system.wire == s.system.wire + [Y.Zero, Y.Zero, Y.Zero];
  }

  /** In every reachable state: after a stop, and without another start, a motion command may still reach the wire if and
      only if the worker was past the check of one when the stop began. */
  lemma MotionAfterStopIff(g: Trig, l: Option<Limits>, s: State)
    requires Lawful(g) && (l.Some? ==> ValidLimits(l.value)) && Occurs(g, l, s)
    ensures MayMove(g, l, Run(g, l, s, STOP)) <==> InVelocity(s) && s.local.body.Passed?
  {
    StopRuns(g, l, s);
    var mode, timeout, clock, steps :| s == Run(g, l, Init(mode, timeout, clock), steps);
    RunAppend(g, l, Init(mode, timeout, clock), steps, STOP);
    MotionAfterDisableIff(g, l, Run(g, l, s, STOP));
  }

  // ----- generations -----

  /** A worker that is not dead is past the check of a velocity command computed for a generation up to `n`. */
  predicate SendsOld(s: State, n: nat) {
    && s.called.Some? && IsVelocity(s, s.called.value) && s.local.body.Passed? && !Sequencer(s).thread.Dead?
    && s.work[s.called.value].proposal.generation <= n
  }

  /** No proposal is ahead of the generation of the stage. */
  ghost predicate Aged(s: State) {
    && s.local.stageGeneration <= s.local.generation
    && (s.local.timer.HasRead? ==> s.local.timer.generation <= s.local.generation)
    && (s.local.timer.Proposes? ==> s.local.timer.proposal.generation <= s.local.generation)
    && (forall id :: IsVelocity(s, id) ==> s.work[id].proposal.generation <= s.local.generation)
  }

  lemma StepAges(g: Trig, l: Option<Limits>, s: State, step: Step)
    requires Aged(s)
    ensures Aged(Next(g, l, s, step)) && s.local.generation <= Next(g, l, s, step).local.generation
  {
    hide Y.Next, S.Submit, Distance, Reachable, Desired;
  }

  lemma CalledIsOld(l: Option<Limits>, s: State)
    requires Inv(l, s)
    ensures s.called.Some? ==> s.called.value < |Sequencer(s).issued|
    ensures InVelocity(s) && s.local.body.Passed? <==> UnderWay(s) && s.local.body.Passed? && !Sequencer(s).thread.Dead?
  {
    SystemActs(s.system, S.DoCall);
    hide S.Observed, S.OpenCommands, S.InHand, WireSound, Sound, Velocities, Y.Inv, Y.Next;
  }

  lemma DeadSequencerStays(q: S.State, a: S.Step, accepted: bool)
    requires q.thread.Dead?
    ensures S.Next(q, a).thread.Dead? && S.LatchAndZero(q, accepted).thread.Dead? && S.Sample(q).0.thread.Dead?
  {
    hide S.RefuseAll;
  }

  lemma DeadStays(y: Y.State, step: Y.Step)
    requires y.sequencer.thread.Dead?
    ensures Y.Next(y, step).sequencer.thread.Dead?
  {
    if step.Activation? {
      DeadSequencerStays(y.sequencer, step.action, true);
    } else {
      DeadSequencerStays(y.sequencer, S.DoTake, true);
      DeadSequencerStays(y.sequencer, S.DoTake, false);
    }
    hide S.Next, S.LatchAndZero, S.Sample, G.Combined, Y.Committed, Y.Answers, G.Next, W.Next;
  }

  /** Only the check takes the worker past it, and then only for the current generation. */
  lemma StepSendsNoOld(g: Trig, l: Option<Limits>, s: State, step: Step, n: nat)
    requires s.called.Some? ==> s.called.value < |Sequencer(s).issued|
    requires n < s.local.generation && !SendsOld(s, n)
    ensures !SendsOld(Next(g, l, s, step), n)
  {
    if Sequencer(s).thread.Dead? { forall y ensures Y.Next(s.system, y).sequencer.thread.Dead? { DeadStays(s.system, y); } }
    hide Y.Next, Propose;
  }

  lemma {:induction false} RunSendsNoOld(g: Trig, l: Option<Limits>, s: State, steps: seq<Step>, n: nat)
    requires Lawful(g) && (l.Some? ==> ValidLimits(l.value)) && Inv(l, s) && Aged(s) && n < s.local.generation && !SendsOld(s, n)
    ensures !SendsOld(Run(g, l, s, steps), n) && Aged(Run(g, l, s, steps))
    decreases |steps|
  {
    if steps == [] {
    } else {
      StepAges(g, l, s, steps[0]);
      CalledIsOld(l, s);
      StepSendsNoOld(g, l, s, steps[0], n);
      NextKeepsInv(g, l, s, steps[0]);
      hide Inv, Next, Aged, SendsOld, Lawful;
      RunSendsNoOld(g, l, Next(g, l, s, steps[0]), steps[1..], n);
    }
  }

  lemma {:induction false} ReachableAged(g: Trig, l: Option<Limits>, s: State, steps: seq<Step>)
    requires Aged(s)
    ensures Aged(Run(g, l, s, steps))
    decreases |steps|
  {
    if steps == [] {
    } else {
      StepAges(g, l, s, steps[0]);
      hide Next, Aged;
      ReachableAged(g, l, Next(g, l, s, steps[0]), steps[1..]);
    }
  }

  lemma StopLeavesNoOld(g: Trig, l: Option<Limits>, s: State)
    requires Lawful(g) && (l.Some? ==> ValidLimits(l.value)) && Inv(l, s) && Aged(s) && !(InVelocity(s) && s.local.body.Passed?)
    ensures var u := Run(g, l, s, STOP);
      Inv(l, u) && Aged(u) && u.local.generation == s.local.generation + 1 && !SendsOld(u, s.local.generation)
  {
    CalledIsOld(l, s);
    ReachableAged(g, l, s, STOP);
    RunKeepsInv(g, l, s, STOP);
    StopRuns(g, l, s);
    hide Inv, Aged, Run, Lawful, InVelocity;
  }

  /** A stop outdates everything proposed before it: unless the worker was past the check of a velocity command when the stop
      began, no command computed up to then is ever sent, not even after another stage has been started. */
  lemma StopOutdatesProposals(g: Trig, l: Option<Limits>, s: State, more: seq<Step>)
    requires Lawful(g) && (l.Some? ==> ValidLimits(l.value)) && Occurs(g, l, s) && !(InVelocity(s) && s.local.body.Passed?)
    ensures Aged(s)
    ensures var t := Run(g, l, Run(g, l, s, STOP), more);
      InVelocity(t) && t.local.body.Passed? ==> Sending(t).generation > s.local.generation
  {
    ReachableInv(g, l, s);
    OccursAged(g, l, s);
    hide Inv, Aged, Run, Occurs, Lawful;
    StopLeavesNoOld(g, l, s);
    RunSendsNoOld(g, l, Run(g, l, s, STOP), more, s.local.generation);
  }

  lemma OccursAged(g: Trig, l: Option<Limits>, s: State)
    requires Occurs(g, l, s)
    ensures Aged(s)
  {
    var mode, timeout, clock, steps :| s == Run(g, l, Init(mode, timeout, clock), steps);
    assert Aged(Init(mode, timeout, clock));
    hide Aged, Run;
    ReachableAged(g, l, Init(mode, timeout, clock), steps);
  }

  function Acts(a: S.Step): Step {
    DoSystem(Y.Activation(a))
  }

  lemma ActsAlone(y: Y.State, a: S.Step)
    requires !Y.IsStopStep(a)
    ensures Y.Next(y, Y.Activation(a)) == y.(sequencer := S.Next(y.sequencer, a))
  {
  }

  /** Nothing queued, nothing in hand, nothing ever stopped. */
  predicate Idle(q: S.State) {
    && q.thread.Alive? && q.worker.AtTop? && q.accepting && !q.closed && !q.failed && q.queue == []
    && !q.latched && q.generation == 0
  }

  /** The worker is inside the command `id`, and nothing was ever stopped. */
  predicate Busy(q: S.State, id: nat) {
    && q.thread.Alive? && q.worker == S.Calling(id) && q.accepting && !q.closed && !q.failed && q.queue == []
    && !q.latched && q.generation == 0 && q.inFlight == Some(id)
  }

  /** A stage is set and undisturbed, and the sequencer behind it is idle. */
  predicate Cruising(s: State, stage: Waypoint) {
    && Idle(Sequencer(s)) && (forall id :: id in Sequencer(s).outcomes ==> id < |Sequencer(s).issued|)
    && s.local.timer.Resting? && s.local.stage == Some(stage) && s.local.stageGeneration == s.local.generation
  }

  lemma IdleAccepts(q: S.State)
    requires Idle(q)
    ensures S.Submit(q, true, true, S.Owned(0))
      == (q.(queue := [|q.issued|], unfinished := q.unfinished + 1, issued := q.issued + [0]), Ok(|q.issued|))
  {
    assert q.queue + [|q.issued|] == [|q.issued|];
  }

  predicate SameReceipts(q: S.State, r: S.State) {
    r.issued == q.issued && r.outcomes == q.outcomes
  }

  /** The one command in the queue of a sequencer never stopped is called, two steps later. */
  lemma QueuedCalls(g: Trig, l: Option<Limits>, s: State, id: nat)
    requires Idle(Sequencer(s).(queue := [])) && Sequencer(s).queue == [id]
    requires id < |Sequencer(s).issued| && Sequencer(s).issued[id] == 0
    ensures var t := Run(g, l, s, [Acts(S.DoTake), DoCall]);
      && Busy(Sequencer(t), id) && t.called == Some(id) && t.work == s.work && t.local == s.local.(body := Entered)
      && SameReceipts(Sequencer(s), Sequencer(t))
  {
    hide Y.Next, Propose, Submit, S.Complete;
    var steps := [Acts(S.DoTake), DoCall];
    var s1 := Next(g, l, s, steps[0]);
    ActsAlone(s.system, S.DoTake);
    assert [id][1..] == [];
    ActsAlone(s1.system, S.DoCall);
    RunStep(g, l, s, steps);
    RunStep(g, l, s1, steps[1..]);
  }

  /** A command submitted to an idle sequencer is called. */
  lemma IdleCalls(g: Trig, l: Option<Limits>, s: State, work: Work, submits: Step)
    requires Idle(Sequencer(s))
    requires if work.SendVelocity?
             then submits == DoSubmitProposal(S.Owned(0)) && s.local.timer == Proposes(work.proposal)
             else submits == DoSubmitWork(work, true, true, S.Owned(0))
    ensures var t, id := Run(g, l, s, [submits, Acts(S.DoTake), DoCall]), |Sequencer(s).issued|;
      && Busy(Sequencer(t), id) && t.called == Some(id) && id in t.work && t.work[id] == work
      && t.local == s.local.(body := Entered, timer := t.local.timer)
      && t.local.timer == (if work.SendVelocity? then Waiting(id) else s.local.timer)
      && |Sequencer(t).issued| == id + 1 && Sequencer(t).outcomes == Sequencer(s).outcomes
  {
    hide Y.Next, Propose, S.Submit, Busy;
    IdleAccepts(Sequencer(s));
    var steps := [submits, Acts(S.DoTake), DoCall];
    var s1 := Next(g, l, s, submits);
    ActsAlone(s.system, S.DoSubmit(true, true, S.Owned(0)));
    RunStep(g, l, s, steps);
    assert steps[1..] == [Acts(S.DoTake), DoCall];
    QueuedCalls(g, l, s1, |Sequencer(s).issued|);
  }

  /** The body of a start. */
  lemma StartBodyRuns(g: Trig, l: Option<Limits>, s: State, stage: Waypoint)
    requires InStart(s) && s.work[s.called.value] == StartStage(stage) && s.local.body.Entered?
    ensures Run(g, l, s, [DoBump, DoNote, DoSetStage])
      == s.(local := s.local.(generation := s.local.generation + 1, stageGeneration := s.local.generation + 1,
                              stage := Some(stage), body := Done))
  {
    hide Y.Next, Propose, Submit;
    var steps := [DoBump, DoNote, DoSetStage];
    var s1 := Next(g, l, s, steps[0]);
    var s2 := Next(g, l, s1, steps[1]);
    RunStep(g, l, s, steps);
    RunStep(g, l, s1, steps[1..]);
    RunStep(g, l, s2, steps[1..][1..]);
  }

  /** A command that is through leaves the sequencer idle. */
  lemma BusyEnds(g: Trig, l: Option<Limits>, s: State, id: nat)
    requires Busy(Sequencer(s), id) && s.called == Some(id) && id in s.work && s.local.body.Done?
    ensures var t := Run(g, l, s, [DoEnds(false), Acts(S.DoSettle)]);
      && Idle(Sequencer(t)) && t.local == s.local
      && Sequencer(t).issued == Sequencer(s).issued
      && Sequencer(t).outcomes == (if id in Sequencer(s).outcomes then Sequencer(s).outcomes else Sequencer(s).outcomes[id := S.Returned])
  {
    hide Y.Next, Propose, Submit, S.RefuseAll;
    var steps := [DoEnds(false), Acts(S.DoSettle)];
    var s1 := Next(g, l, s, steps[0]);
    ActsAlone(s.system, S.DoCommandEnds(false));
    ActsAlone(s1.system, S.DoSettle);
    RunStep(g, l, s, steps);
    RunStep(g, l, s1, steps[1..]);
  }

  /** From the very first state to the stage of a start being set. */
  function Starting(stage: Waypoint): seq<Step> {
    [Acts(S.DoStart(S.Runs))] + [DoSubmitWork(StartStage(stage), true, true, S.Owned(0)), Acts(S.DoTake), DoCall]
    + [DoBump, DoNote, DoSetStage] + [DoEnds(false), Acts(S.DoSettle)]
  }

  /** From there to a velocity command past its check. */
  function Driving(pose: Pose): seq<Step> {
    [DoRead, DoPropose(Some(pose))] + [DoSubmitProposal(S.Owned(0)), Acts(S.DoTake), DoCall] + [DoCheck]
  }

  /** A start given to an idle sequencer sets its stage. */
  lemma IdleStarts(g: Trig, l: Option<Limits>, s: State, stage: Waypoint)
    requires Idle(Sequencer(s)) && Sequencer(s).outcomes == map[] && s.local == IDLE
    ensures var t := Run(g, l, s, Starting(stage)[1..]);
      Cruising(t, stage) && t.local == IDLE.(generation := 1, stageGeneration := 1, stage := Some(stage))
  {
    var second := [DoSubmitWork(StartStage(stage), true, true, S.Owned(0)), Acts(S.DoTake), DoCall];
    var third, fourth := [DoBump, DoNote, DoSetStage], [DoEnds(false), Acts(S.DoSettle)];
    assert Starting(stage)[1..] == second + third + fourth;
    RunAppend(g, l, s, second, third);
    RunAppend(g, l, s, second + third, fourth);
    hide Run, Next, Y.Next, Idle, Busy, Starting;
    IdleCalls(g, l, s, StartStage(stage), second[0]);
    CalledStarts(g, l, Run(g, l, s, second), stage, |Sequencer(s).issued|);
  }

  lemma CalledStarts(g: Trig, l: Option<Limits>, s: State, stage: Waypoint, id: nat)
    requires Busy(Sequencer(s), id) && s.called == Some(id) && id in s.work && s.work[id] == StartStage(stage)
    requires s.local == IDLE.(body := Entered) && |Sequencer(s).issued| == id + 1 && Sequencer(s).outcomes == map[]
    ensures var t := Run(g, l, Run(g, l, s, [DoBump, DoNote, DoSetStage]), [DoEnds(false), Acts(S.DoSettle)]);
      Cruising(t, stage) && t.local == IDLE.(generation := 1, stageGeneration := 1, stage := Some(stage))
  {
    StartBodyRuns(g, l, s, stage);
    hide Run, Idle, Busy;
    BusyEnds(g, l, Run(g, l, s, [DoBump, DoNote, DoSetStage]), id);
  }

  lemma StartingRuns(g: Trig, l: Option<Limits>, s: State, stage: Waypoint)
    requires s.system.sequencer == S.INIT && s.local == IDLE
    ensures var t := Run(g, l, s, Starting(stage));
      Cruising(t, stage) && t.local == IDLE.(generation := 1, stageGeneration := 1, stage := Some(stage))
  {
    ActsAlone(s.system, S.DoStart(S.Runs));
    RunStep(g, l, s, Starting(stage));
    hide Run, Y.Next;
    IdleStarts(g, l, Next(g, l, s, Acts(S.DoStart(S.Runs))), stage);
  }

  lemma ProposalRuns(g: Trig, l: Limits, s: State, stage: Waypoint, pose: Pose)
    requires s.local.timer.Resting? && s.local.stage == Some(stage)
    requires Distance(g, Point(pose.x, pose.y), stage.position) > stage.tolerance
    ensures Run(g, Some(l), s, [DoRead, DoPropose(Some(pose))])
      == s.(local := s.local.(timer := Proposes(
              Proposal(Reachable(l, s.local.last, Desired(g, l, pose, stage)), s.local.last, s.local.stageGeneration))))
  {
    hide Distance, Reachable, Desired, Y.Next, Submit;
    var steps := [DoRead, DoPropose(Some(pose))];
    RunStep(g, Some(l), s, steps);
    RunStep(g, Some(l), Next(g, Some(l), s, steps[0]), steps[1..]);
  }

  lemma DrivingRuns(g: Trig, l: Limits, s: State, stage: Waypoint, pose: Pose)
    requires Cruising(s, stage) && Distance(g, Point(pose.x, pose.y), stage.position) > stage.tolerance
    ensures var t, id := Run(g, Some(l), s, Driving(pose)), |Sequencer(s).issued|;
      && Busy(Sequencer(t), id) && t.called == Some(id) && id in t.work
      && |Sequencer(t).issued| == id + 1 && Sequencer(t).outcomes == Sequencer(s).outcomes
      && t.local == s.local.(body := Passed, timer := Waiting(id))
      && t.work[id] == SendVelocity(Proposal(Reachable(l, s.local.last, Desired(g, l, pose, stage)), s.local.last, s.local.generation))
  {
    hide Distance, Reachable, Desired, Run, Y.Next, Propose, Submit;
    var first := [DoRead, DoPropose(Some(pose))];
    var second := [DoSubmitProposal(S.Owned(0)), Acts(S.DoTake), DoCall];
    var p := Proposal(Reachable(l, s.local.last, Desired(g, l, pose, stage)), s.local.last, s.local.generation);
    ProposalRuns(g, l, s, stage, pose);
    var s2 := Run(g, Some(l), s, first);
    IdleCalls(g, Some(l), s2, SendVelocity(p), second[0]);
    var s3 := Run(g, Some(l), s2, second);
    CheckPasses(g, Some(l), s3, p);
    RunAppend(g, Some(l), s, first, second);
    RunAppend(g, Some(l), s, first + second, [DoCheck]);
  }

  /** One period of the timer, up to the outcome of its command. */
  function Cycle(pose: Pose): seq<Step> {
    Driving(pose) + [DoPublish, DoRemember] + [DoEnds(false), Acts(S.DoSettle)] + [DoWake]
  }

  lemma PassedRemembers(g: Trig, l: Option<Limits>, s: State)
    requires InVelocity(s) && s.local.body.Passed?
    ensures var t, p := Run(g, l, s, [DoPublish, DoRemember]), Sending(s);
      && t.local == s.local.(wire := s.local.wire + [Motion(p.command, p.base)], last := p.command, body := Done)
      && Sequencer(t) == Sequencer(s) && t.called == s.called && t.work == s.work
  {
    hide Propose, Submit;
    var steps := [DoPublish, DoRemember];
    RunStep(g, l, s, steps);
    RunStep(g, l, Next(g, l, s, steps[0]), steps[1..]);
  }

  lemma ReturnedWakes(g: Trig, l: Option<Limits>, s: State, id: nat)
    requires s.local.timer == Waiting(id) && id in Sequencer(s).outcomes && Sequencer(s).outcomes[id].Returned?
    ensures Run(g, l, s, [DoWake]) == s.(local := s.local.(timer := Resting))
  {
    hide Y.Next, Propose, Submit;
    RunStep(g, l, s, [DoWake]);
  }

  /** One undisturbed period sends one motion, and leaves everything ready for the next. */
  lemma CycleRuns(g: Trig, l: Limits, s: State, stage: Waypoint, pose: Pose)
    requires Cruising(s, stage) && Distance(g, Point(pose.x, pose.y), stage.position) > stage.tolerance
    ensures var t, v := Run(g, Some(l), s, Cycle(pose)), Reachable(l, s.local.last, Desired(g, l, pose, stage));
      && Cruising(t, stage)
      && t.local == s.local.(wire := s.local.wire + [Motion(v, s.local.last)], last := v, body := Done)
  {
    hide Distance, Reachable, Desired, Run, Driving, Idle, Busy, Y.Next, Propose, Submit;
    var first, second, third, fourth := Driving(pose), [DoPublish, DoRemember], [DoEnds(false), Acts(S.DoSettle)], [DoWake];
    DrivingRuns(g, l, s, stage, pose);
    var id, s1 := |Sequencer(s).issued|, Run(g, Some(l), s, first);
    BusyIsCalling(s1, id);
    PassedRemembers(g, Some(l), s1);
    var s2 := Run(g, Some(l), s1, second);
    BusyEnds(g, Some(l), s2, id);
    var s3 := Run(g, Some(l), s2, third);
    ReturnedWakes(g, Some(l), s3, id);
    RunAppend(g, Some(l), s, first, second);
    RunAppend(g, Some(l), s, first + second, third);
    RunAppend(g, Some(l), s, first + second + third, fourth);
  }

  lemma BusyIsCalling(s: State, id: nat)
    requires Busy(Sequencer(s), id) && s.called == Some(id) && id in s.work
    ensures InCommand(s, id)
  {
  }

  function Cycles(poses: seq<Pose>): seq<Step>
    decreases |poses|
  {
    if poses == [] then [] else Cycle(poses[0]) + Cycles(poses[1..])
  }

  /** What the control law sends for these poses, one after the other, starting from the command `last`. */
  function Sent(g: Trig, l: Limits, last: Velocity, stage: Waypoint, poses: seq<Pose>): seq<Event>
    decreases |poses|
  {
    if poses == [] then []
    else
      var v := Reachable(l, last, Desired(g, l, poses[0], stage));
      [Motion(v, last)] + Sent(g, l, v, stage, poses[1..])
  }

  /** An undisturbed stage drives: every period short of the goal sends its motion, each from the one before it. */
  lemma {:induction false} UndisturbedStageDrives(g: Trig, l: Limits, s: State, stage: Waypoint, poses: seq<Pose>)
    requires Cruising(s, stage)
    requires forall k :: 0 <= k < |poses| ==> Distance(g, Point(poses[k].x, poses[k].y), stage.position) > stage.tolerance
    ensures var t := Run(g, Some(l), s, Cycles(poses));
      && Cruising(t, stage) && t.local.wire == s.local.wire + Sent(g, l, s.local.last, stage, poses)
      && |Sent(g, l, s.local.last, stage, poses)| == |poses|
    decreases |poses|
  {
    hide Cruising, Next, Cycle, Distance, Reachable, Desired;
    if poses == [] {
    } else {
      CycleRuns(g, l, s, stage, poses[0]);
      var t, rest := Run(g, Some(l), s, Cycle(poses[0])), poses[1..];
      RunAppend(g, Some(l), s, Cycle(poses[0]), Cycles(rest));
      SentFirst(g, l, s.local.last, stage, poses, s.local.wire);
      assert Cycles(poses) == Cycle(poses[0]) + Cycles(rest);
      hide Run, Sent, Cycles;
      UndisturbedStageDrives(g, l, t, stage, rest);
    }
  }

  lemma SentFirst(g: Trig, l: Limits, last: Velocity, stage: Waypoint, poses: seq<Pose>, wire: seq<Event>)
    requires poses != []
    ensures var v := Reachable(l, last, Desired(g, l, poses[0], stage));
      && wire + Sent(g, l, last, stage, poses) == wire + [Motion(v, last)] + Sent(g, l, v, stage, poses[1..])
      && |Sent(g, l, last, stage, poses)| == 1 + |Sent(g, l, v, stage, poses[1..])|
  {
    hide Reachable, Desired;
  }

  lemma CheckPasses(g: Trig, l: Option<Limits>, s: State, p: Proposal)
    requires InVelocity(s) && Sending(s) == p && s.local.body.Entered?
    requires p.generation == s.local.generation && s.local.stage.Some?
    ensures Run(g, l, s, [DoCheck]) == s.(local := s.local.(body := Passed))
  {
    hide Y.Next, Propose, Submit;
    RunStep(g, l, s, [DoCheck]);
  }

  /** So a stop alone does not have the last word: in this run the motion command comes after all of its zeros. */
  lemma StopAloneIsNotLast(g: Trig, l: Limits, mode: G.Mode, heartbeatTimeout: Option<real>, clock: real, stage: Waypoint, pose: Pose)
    requires Distance(g, Point(pose.x, pose.y), stage.position) > stage.tolerance
    ensures var s := Run(g, Some(l), Init(mode, heartbeatTimeout, clock), Starting(stage) + Driving(pose));
      && s.local.wire == []
      && Run(g, Some(l), Run(g, Some(l), s, STOP), [DoPublish]).local.wire
         == [Zero, Zero, Zero, Motion(Reachable(l, ZERO_VELOCITY, Desired(g, l, pose, stage)), ZERO_VELOCITY)]
  {
    hide Distance, Reachable, Desired, Run, Starting, Driving;
    var s0 := Init(mode, heartbeatTimeout, clock);
    StartingRuns(g, Some(l), s0, stage);
    DrivingRuns(g, l, Run(g, Some(l), s0, Starting(stage)), stage, pose);
    RunAppend(g, Some(l), s0, Starting(stage), Driving(pose));
    var s := Run(g, Some(l), s0, Starting(stage) + Driving(pose));
    StopRuns(g, Some(l), s);
    var u := Run(g, Some(l), s, STOP);
    assert u.local.wire == [Zero, Zero, Zero] && InVelocity(u) && Sending(u) == Sending(s);
    PassedPublishes(g, Some(l), u);
  }
}
