/** The gateway over all runs. */
module GatewayProofs {
  import opened SafetyTypes
  import opened GatewaySpec

  lemma MoveKeepsInv(s: State, after: SafetyState, stop: Option<StopResult>, reported: bool, deadline: Option<real>)
    requires Inv(s)
    requires LegalMove(Transition(s.nextSequence, s.state, after, stop), s.mode)
    requires after == DISCOVERED ==> reported
    requires deadline.Some? <==> after == RUNNING && s.heartbeatTimeout.Some?
    ensures Inv(Move(s, after, stop).(reported := reported, deadline := deadline))
  {
    hide Recorded;
    MoveIsRecorded(s, after, stop);
    assert Recorded(Move(s, after, stop).(reported := reported, deadline := deadline)) by { RecordedDependsOn(Move(s, after, stop), reported, deadline); }
  }

  lemma RecordedDependsOn(s: State, reported: bool, deadline: Option<real>)
    requires Recorded(s)
    ensures Recorded(s.(reported := reported, deadline := deadline))
  {
  }

  lemma MoveIsRecorded(s: State, after: SafetyState, stop: Option<StopResult>)
    requires Recorded(s) && LegalMove(Transition(s.nextSequence, s.state, after, stop), s.mode)
    ensures Recorded(Move(s, after, stop))
  {
    hide Chained, Retained, Appended;
    LogGrows(s, Move(s, after, stop), Transition(s.nextSequence, s.state, after, stop));
  }

  lemma LogGrows(s: State, t: State, move: Transition)
    requires Recorded(s) && t.log == s.log + [move] && t.history == Appended(s.history, move)
    requires move.sequence == |s.log| && move.before == s.state
    ensures Chained(t.log) && t.history == Retained(t.log)
  {
  }

  lemma StopMoveKeepsInv(s: State, after: SafetyState, stop: StopResult)
    requires Inv(s) && Sanitized(stop)
    requires if after == ESTOPPED then s.state != ESTOPPED else after in {STOPPED, FAULTED} && s.state == RUNNING
    ensures Inv(Move(s, after, Some(stop)).(deadline := None))
  {
    MoveKeepsInv(s, after, Some(stop), s.reported, None);
  }

  lemma BurstIsSanitized()
    ensures forall burst :: Sanitized(Combined(burst))
  {
  }

  lemma ActKeepsInv(s: State, step: Step, now: real)
    requires Inv(s)
    ensures Inv(Act(s, step, now))
  {
    BurstIsSanitized();
    hide Recorded, Combined, Appended;
    var renewed := if s.heartbeatTimeout.None? then None else Some(now + s.heartbeatTimeout.value);
    match step
    case Tick(_) =>
    case DoDiscover(_) => if s.state == NEW { MoveKeepsInv(s, DISCOVERED, None, true, None); }
    case DoValidate(_) =>
      if s.state == DISCOVERED { MoveKeepsInv(s, if s.mode.Simulation? then ARMED else VALIDATED, None, s.reported, None); }
    case DoArm(_) => if s.state == VALIDATED && s.mode.Hardware? { MoveKeepsInv(s, ARMED, None, s.reported, None); }
    case DoStartTask(_) => if s.state == ARMED { MoveKeepsInv(s, RUNNING, None, s.reported, renewed); }
    case DoHeartbeat => if s.state == RUNNING && renewed.Some? { MoveKeepsInv(s, RUNNING, None, s.reported, renewed); }
    case DoCommitCancel(burst) => if s.state == RUNNING { StopMoveKeepsInv(s, STOPPED, Combined(burst)); }
    case DoCommitFault(burst) => if s.state == RUNNING { StopMoveKeepsInv(s, FAULTED, Combined(burst)); }
    case DoCommitEstop(burst) => if s.state != ESTOPPED { StopMoveKeepsInv(s, ESTOPPED, Combined(burst)); }
    case DoOperatorReset => if s.state == ESTOPPED && s.mode.Simulation? { MoveKeepsInv(s, NEW, None, false, None); }
  }

  /** Committing a sanitized result, whatever the gateway has done meanwhile. */
  lemma CommitKeepsInv(s: State, stop: StopResult)
    requires Inv(s) && Sanitized(stop)
    ensures Inv(CommitCancel(s, stop).0) && Inv(CommitFault(s, stop)) && Inv(CommitEstop(s, stop))
  {
    hide Recorded, Move;
    if s.state == RUNNING {
      StopMoveKeepsInv(s, STOPPED, stop);
      StopMoveKeepsInv(s, FAULTED, stop);
    }
    if s.state != ESTOPPED { StopMoveKeepsInv(s, ESTOPPED, stop); }
  }

  lemma ActExtends(s: State, step: Step, now: real)
    ensures s.log <= Act(s, step, now).log && |Act(s, step, now).log| <= |s.log| + 1
    ensures Act(s, step, now).mode == s.mode && Act(s, step, now).heartbeatTimeout == s.heartbeatTimeout
  {
  }

  lemma {:induction false} RunKeepsInv(s: Timed, steps: seq<Step>)
    requires Inv(s.gateway)
    ensures Inv(Run(s, steps).gateway) && s.gateway.log <= Run(s, steps).gateway.log && s.clock <= Run(s, steps).clock
    ensures Run(s, steps).gateway.mode == s.gateway.mode
    decreases |steps|
  {
    hide Inv, Act;
    if steps == [] {
    } else {
      ActKeepsInv(s.gateway, steps[0], s.clock);
      ActExtends(s.gateway, steps[0], s.clock);
      RunKeepsInv(Next(s, steps[0]), steps[1..]);
    }
  }

  /** Over every run, with bursts committed at any later moment: the log is contiguous and chained, every move is
      legal, entries to STOPPED, FAULTED and ESTOPPED (and only they) carry a burst result the audit schema admits,
      and the retained history is the newest part of the log. */
  lemma EveryRunIsLegal(mode: Mode, heartbeatTimeout: Option<real>, clock: real, steps: seq<Step>)
    ensures var s := Run(Timed(Init(mode, heartbeatTimeout), clock), steps).gateway;
      && Chained(s.log)
      && s.history == Retained(s.log)
      && s.state == (if s.log == [] then NEW else s.log[|s.log| - 1].after)
      && forall i :: 0 <= i < |s.log| ==> LegalMove(s.log[i], mode)
  {
    RunKeepsInv(Timed(Init(mode, heartbeatTimeout), clock), steps);
  }

  /** The combined result of a burst says of each flag that all calls had it, and its code is determined by the flags;
      a callback that raises, or answers with something else, counts as unquiesced and rejected. */
  lemma BurstResult(burst: seq<CallbackOutcome>)
    ensures var r := Combined(burst);
      && Sanitized(r)
      && (r.latched <==> forall i :: 0 <= i < |burst| ==> burst[i].Returned? ==> burst[i].result.latched)
      && (r.quiesced <==> forall i :: 0 <= i < |burst| ==> burst[i].Returned? && burst[i].result.quiesced)
      && (r.accepted <==> forall i :: 0 <= i < |burst| ==> burst[i].Returned? && burst[i].result.accepted)
      && (r.code == TransportUnquiesced <==> !r.quiesced)
      && (r.code == EstopLatched <==> r.Successful())
      && (r.Successful() <==> forall o :: o in burst ==> o.Returned? && o.result.Successful())
  {
    var r := Combined(burst);
    if r.Successful() {
      forall o | o in burst ensures o.Returned? && o.result.Successful() {
        var i :| 0 <= i < |burst| && burst[i] == o;
        assert Normalized(burst[i]).quiesced && Normalized(burst[i]).accepted && Normalized(burst[i]).latched;
      }
    }
    if forall o :: o in burst ==> o.Returned? && o.result.Successful() {
      assert forall i :: 0 <= i < |burst| ==> burst[i] in burst && Normalized(burst[i]).Successful();
    }
  }

  ghost predicate Overdue(s: Timed) {
    s.gateway.state == RUNNING && s.gateway.deadline.Some? && s.clock > s.gateway.deadline.value
  }

  /** The first thing to happen to an overdue gateway is a stop. */
  lemma OverdueStep(s: Timed, step: Step)
    requires Inv(s.gateway) && Overdue(s)
    ensures var u := Next(s, step);
      if u.gateway == s.gateway then Overdue(u)
      else exists t :: u.gateway.log == s.gateway.log + [t] && t.before == RUNNING && t.after in {STOPPED, FAULTED, ESTOPPED} && t.stop.Some?
  {
    var u := Next(s, step).gateway;
    if u != s.gateway {
      var t := u.log[|s.gateway.log|];
      assert u.log == s.gateway.log + [t];
    }
  }

  ghost predicate LeavesByStop(before: seq<Transition>, after: seq<Transition>) {
    && before < after
    && after[|before|].before == RUNNING
    && after[|before|].after in {STOPPED, FAULTED, ESTOPPED}
    && after[|before|].stop.Some?
  }

  /** Once the deadline of a running task has passed, no later heartbeat renews it: the next transition, if there ever
      is one, leaves RUNNING with a stop result. */
  lemma {:induction false} PassedDeadlineIsNeverRenewed(s: Timed, steps: seq<Step>)
    requires Inv(s.gateway) && Overdue(s)
    ensures var t := Run(s, steps);
      (t.gateway == s.gateway && Overdue(t)) || LeavesByStop(s.gateway.log, t.gateway.log)
    decreases |steps|
  {
    hide Inv, Act;
    if steps == [] {
    } else {
      var u := Next(s, steps[0]);
      ActKeepsInv(s.gateway, steps[0], s.clock);
      OverdueStep(s, steps[0]);
      if u.gateway == s.gateway {
        PassedDeadlineIsNeverRenewed(u, steps[1..]);
      } else {
        RunKeepsInv(u, steps[1..]);
      }
    }
  }

  // ----- what each operation answers -----

  /** An operation that answers without an error makes exactly one transition, from one state to the other. */
  ghost predicate Makes(s: State, t: State, before: SafetyState, after: SafetyState, stop: Option<StopResult>) {
    && s.state == before && t.state == after
    && t.log == s.log + [Transition(|s.log|, before, after, stop)]
  }

  /** When the operations on the way to a task succeed, and what they then do; an operation that fails changes nothing. */
  lemma WayToATask(s: State, given: bool, now: real)
    requires Inv(s)
    ensures var (t, error) := Discover(s, given);
      && (error.None? <==> s.state == NEW && given)
      && (if error.None? then Makes(s, t, NEW, DISCOVERED, None) && t.reported else t == s)
    ensures var (t, error) := Validate(s, given);
      && (error.None? <==> s.state == DISCOVERED && given)
      && (if error.None? then Makes(s, t, DISCOVERED, if s.mode.Simulation? then ARMED else VALIDATED, None) else t == s)
    ensures var (t, error) := Arm(s, given);
      && (error.None? <==> if s.mode.Simulation? then s.state == ARMED else s.state == VALIDATED && given)
      && (if error.None? && s.mode.Hardware? then Makes(s, t, VALIDATED, ARMED, None) else t == s)
    ensures var (t, error) := StartTask(s, given, now);
      && (error.None? <==> s.state == ARMED && given)
      && (if error.None? then Makes(s, t, ARMED, RUNNING, None) else t == s)
      && (error.None? ==> t.deadline == if s.heartbeatTimeout.None? then None else Some(now + s.heartbeatTimeout.value))
  {
    assert s.nextSequence == |s.log|;
    assert s.state == VALIDATED ==> s.log != [] && LegalMove(s.log[|s.log| - 1], s.mode);
    hide Recorded, Appended;
  }

  /** When the operations that end a task or a stop succeed, and what they then do. */
  lemma WayOut(s: State, stop: StopResult)
    requires Inv(s)
    ensures var (t, error) := CommitCancel(s, stop);
      && (error.None? <==> s.state == RUNNING)
      && (if error.None? then Makes(s, t, RUNNING, STOPPED, Some(stop)) && t.deadline.None? else t == s)
    ensures var t := CommitFault(s, stop);
      if s.state == RUNNING then Makes(s, t, RUNNING, FAULTED, Some(stop)) && t.deadline.None? else t == s
    ensures var t := CommitEstop(s, stop);
      if s.state == ESTOPPED then t == s else Makes(s, t, s.state, ESTOPPED, Some(stop)) && t.deadline.None?
    ensures var (t, error) := OperatorReset(s);
      && (error.None? <==> s.state == ESTOPPED && s.mode.Simulation?)
      && (error == Some(OperatorRequired) <==> s.state == ESTOPPED && s.mode.Hardware?)
      && (if error.None? then Makes(s, t, ESTOPPED, NEW, None) && !t.reported && t.deadline.None? else t == s)
  {
    assert s.nextSequence == |s.log|;
    hide Recorded, Appended;
  }

  /** A heartbeat succeeds exactly on a running task with a timeout whose deadline has not passed, and puts the deadline a
      full timeout off; each way of failing has its own error. */
  lemma HeartbeatRenewsIff(s: State, now: real)
    requires Inv(s)
    ensures var (t, error) := Heartbeat(s, now);
      && (error.None? <==>
            s.state == RUNNING && s.heartbeatTimeout.Some? && s.deadline.Some? && now <= s.deadline.value)
      && (error.None? ==> Makes(s, t, RUNNING, RUNNING, None) && t.deadline == Some(now + s.heartbeatTimeout.value))
      && (error.Some? ==> t == s)
      && (error == Some(HeartbeatExpired) <==>
            s.state == RUNNING && s.heartbeatTimeout.Some? && s.deadline.Some? && now > s.deadline.value)
      && (error == Some(HeartbeatUnconfigured) <==> s.state == RUNNING && s.heartbeatTimeout.None?)
      && (error == Some(EstopLatchedError) <==> s.state == ESTOPPED)
  {
    assert s.nextSequence == |s.log|;
    hide Recorded, Appended;
  }

  // ----- deadlines over runs -----

  /** The time of the last start or heartbeat that succeeded, if `beat` was the last one before. */
  function LastBeat(s: Timed, steps: seq<Step>, beat: real): real
    decreases |steps|
  {
    if steps == [] then beat
    else
      var t := Next(s, steps[0]);
      LastBeat(t, steps[1..], if t.gateway.log != s.gateway.log && t.gateway.state == RUNNING then s.clock else beat)
  }

  /** The deadline of a running task counts from `beat`. */
  predicate DueFrom(s: Timed, beat: real) {
    s.gateway.state == RUNNING && s.gateway.heartbeatTimeout.Some? ==>
      s.gateway.deadline == Some(beat + s.gateway.heartbeatTimeout.value)
  }

  lemma StepIsDue(s: Timed, step: Step, beat: real)
    requires Inv(s.gateway) && DueFrom(s, beat)
    ensures var t := Next(s, step);
      && t.gateway.heartbeatTimeout == s.gateway.heartbeatTimeout
      && DueFrom(t, if t.gateway.log != s.gateway.log && t.gateway.state == RUNNING then s.clock else beat)
  {
    assert |Next(s, step).gateway.log| >= |s.gateway.log|;
    hide Recorded, Appended, Combined;
  }

  lemma {:induction false} RunIsDue(s: Timed, steps: seq<Step>, beat: real)
    requires Inv(s.gateway) && DueFrom(s, beat)
    ensures DueFrom(Run(s, steps), LastBeat(s, steps, beat))
    ensures Run(s, steps).gateway.heartbeatTimeout == s.gateway.heartbeatTimeout
    decreases |steps|
  {
    if steps == [] {
    } else {
      ActKeepsInv(s.gateway, steps[0], s.clock);
      StepIsDue(s, steps[0], beat);
      hide Inv, Act, DueFrom;
      var t := Next(s, steps[0]);
      RunIsDue(t, steps[1..], if t.gateway.log != s.gateway.log && t.gateway.state == RUNNING then s.clock else beat);
    }
  }

  /** In every run a running task is overdue exactly when more than the timeout has gone by since its start or its last
      heartbeat that succeeded. */
  lemma OverdueIff(mode: Mode, timeout: real, clock: real, steps: seq<Step>)
    ensures var s := Timed(Init(mode, Some(timeout)), clock);
      var t := Run(s, steps);
      Overdue(t) <==> t.gateway.state == RUNNING && t.clock - LastBeat(s, steps, clock) > timeout
  {
    var s := Timed(Init(mode, Some(timeout)), clock);
    RunKeepsInv(s, steps);
    RunIsDue(s, steps, clock);
  }

  /** Never more than the timeout goes by from the start, or from one heartbeat, to the next heartbeat tried. */
  predicate Punctual(s: Timed, steps: seq<Step>, timeout: real, beat: real)
    decreases |steps|
  {
    && (s.gateway.state == RUNNING ==> s.clock - beat <= timeout)
    && (steps == []
        || Punctual(Next(s, steps[0]), steps[1..], timeout,
                    if steps[0].DoHeartbeat? || (steps[0].DoStartTask? && s.gateway.state == ARMED) then s.clock else beat))
  }

  /** So punctual heartbeats all succeed: the task never gets overdue, and no heartbeat of a running task ever fails. */
  lemma {:induction false} PunctualIsNeverOverdue(s: Timed, steps: seq<Step>, timeout: real, beat: real)
    requires Inv(s.gateway) && s.gateway.heartbeatTimeout == Some(timeout) && timeout >= 0.0
    requires DueFrom(s, beat) && Punctual(s, steps, timeout, beat)
    ensures !Overdue(Run(s, steps))
    ensures var t := Run(s, steps); t.gateway.state == RUNNING ==> Heartbeat(t.gateway, t.clock).1.None?
    decreases |steps|
  {
    if steps == [] {
      HeartbeatRenewsIff(s.gateway, s.clock);
    } else {
      ActKeepsInv(s.gateway, steps[0], s.clock);
      PunctualStep(s, steps[0], timeout, beat);
      hide Inv, Act, DueFrom, Heartbeat;
      PunctualIsNeverOverdue(Next(s, steps[0]), steps[1..], timeout,
        if steps[0].DoHeartbeat? || (steps[0].DoStartTask? && s.gateway.state == ARMED) then s.clock else beat);
    }
  }

  lemma PunctualStep(s: Timed, step: Step, timeout: real, beat: real)
    requires Inv(s.gateway) && s.gateway.heartbeatTimeout == Some(timeout) && DueFrom(s, beat)
    requires s.gateway.state == RUNNING ==> s.clock - beat <= timeout
    ensures var t := Next(s, step);
      && t.gateway.heartbeatTimeout == Some(timeout)
      && DueFrom(t, if step.DoHeartbeat? || (step.DoStartTask? && s.gateway.state == ARMED) then s.clock else beat)
  {
    hide Recorded, Appended, Combined;
  }
}
