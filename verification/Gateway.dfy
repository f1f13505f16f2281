/** The gateway as the object the program uses. Each method is one locked region, except the burst, which runs
    unlocked; all keep the invariant of the run theorems and say what a caller may rely on. */
module Gateways {
  import opened SafetyTypes
  import G = GatewaySpec
  import P = GatewayProofs

  class SafetyGateway {
    const mode: G.Mode
    const heartbeatTimeout: Option<real>
    var state: SafetyState
    var nextSequence: nat
    var history: seq<G.Transition>
    var reported: bool
    var deadline: Option<real>
    var lastStop: StopResult
    ghost var log: seq<G.Transition>

    ghost function Abs(): G.State
      reads this
    {
      G.State(mode, heartbeatTimeout, state, nextSequence, history, reported, deadline, log)
    }

    ghost predicate Valid()
      reads this
    {
      G.Inv(Abs())
    }

    constructor (mode: G.Mode, heartbeatTimeout: Option<real>)
      ensures Valid() && Abs() == G.Init(mode, heartbeatTimeout)
    {
      this.mode, this.heartbeatTimeout := mode, heartbeatTimeout;
      state, nextSequence, history, reported, deadline := NEW, 0, [], false, None;
      lastStop := StopResult(true, true, true, EstopLatched);
      log := [];
    }

    /** Extends the log by one transition, numbered and chained; if that is a legal one, the log stays legal and the
        history its newest part. */
    method Transition(after: SafetyState, stop: Option<StopResult>) returns (t: G.Transition)
      modifies this`state, this`nextSequence, this`history, this`log
      ensures Abs() == G.Move(old(Abs()), after, stop)
      ensures log == old(log) + [t] && t.before == old(state) && t.after == state && t.stop == stop
      ensures old(G.Recorded(Abs())) && G.LegalMove(t, mode) ==>
        G.Recorded(Abs()) && t.sequence == |old(log)| && history == G.Retained(log)
    {
      ghost var before := Abs();
      if G.Recorded(before) && G.LegalMove(G.Transition(nextSequence, state, after, stop), mode) {
        P.MoveIsRecorded(before, after, stop);
        assert G.Move(before, after, stop).history == G.Retained(G.Move(before, after, stop).log);
      }
      hide G.Recorded, G.LegalMove;
      t := G.Transition(nextSequence, state, after, stop);
      nextSequence := nextSequence + 1;
      state := after;
      history := if |history| < G.HISTORY_CAPACITY then history + [t] else history[1..] + [t];
      log := log + [t];
    }

    function Require(expected: SafetyState): (error: Option<G.GatewayError>)
      reads this
      ensures error == G.Require(Abs(), expected)
    {
      if state == ESTOPPED then Some(G.EstopLatchedError) else if state != expected then Some(G.UnsafeState) else None
    }

    method Discover(reportSafe: bool) returns (error: Option<G.GatewayError>)
      requires Valid()
      modifies this
      ensures (Abs(), error) == G.Discover(old(Abs()), reportSafe)
      ensures Valid() && (error.None? <==> old(state) == NEW && reportSafe) && (error.None? ==> state == DISCOVERED)
      ensures error.Some? ==> Abs() == old(Abs())
    {
      P.ActKeepsInv(Abs(), G.DoDiscover(reportSafe), 0.0);
      hide G.Inv, G.Recorded, G.LegalMove, G.Move;
      error := Require(NEW);
      if error.Some? { return; }
      if !reportSafe { return Some(G.DiscoveryUnsafe); }
      reported := true;
      var _ := Transition(DISCOVERED, None);
    }

    method Validate(supported: bool) returns (error: Option<G.GatewayError>)
      requires Valid()
      modifies this
      ensures (Abs(), error) == G.Validate(old(Abs()), supported)
      ensures Valid() && (error.None? <==> old(state) == DISCOVERED && supported)
      ensures error.None? ==> state == (if mode.Simulation? then ARMED else VALIDATED)
      ensures error.Some? ==> Abs() == old(Abs())
    {
      P.ActKeepsInv(Abs(), G.DoValidate(supported), 0.0);
      hide G.Inv, G.Recorded, G.LegalMove, G.Move;
      error := Require(DISCOVERED);
      if error.Some? { return; }
      if !supported { return Some(G.ProfileUnsupported); }
      var _ := Transition(if mode.Simulation? then ARMED else VALIDATED, None);
    }

    method Arm(challengeGood: bool) returns (error: Option<G.GatewayError>)
      requires Valid()
      modifies this
      ensures (Abs(), error) == G.Arm(old(Abs()), challengeGood)
      ensures Valid() && (error.None? <==> if mode.Simulation? then old(state) == ARMED else old(state) == VALIDATED && challengeGood)
      ensures error.None? ==> state == ARMED
      ensures error.Some? ==> Abs() == old(Abs())
    {
      P.ActKeepsInv(Abs(), G.DoArm(challengeGood), 0.0);
      P.WayToATask(Abs(), challengeGood, 0.0);
      hide G.Inv, G.Recorded, G.LegalMove, G.Move;
      if mode.Simulation? && state == ARMED { return None; }
      error := Require(VALIDATED);
      if error.Some? { return; }
      if mode.Simulation? || !challengeGood { return Some(G.HardwareChallenge); }
      var _ := Transition(ARMED, None);
    }

    method StartTaskLocked(withinLimits: bool, now: real) returns (error: Option<G.GatewayError>)
      modifies this
      ensures (Abs(), error) == G.StartTask(old(Abs()), withinLimits, now)
    {
      hide G.Recorded, G.LegalMove, G.Move;
      error := Require(ARMED);
      if error.Some? { return; }
      if !withinLimits { return Some(G.MotionLimit); }
      var renewed := if heartbeatTimeout.None? then None else Some(now + heartbeatTimeout.value);
      deadline := renewed;
      var _ := Transition(RUNNING, None);

    }

    method StartTask(withinLimits: bool, now: real) returns (error: Option<G.GatewayError>)
      requires Valid()
      modifies this
      ensures (Abs(), error) == G.StartTask(old(Abs()), withinLimits, now)
      ensures Valid() && (error.None? <==> old(state) == ARMED && withinLimits) && (error.None? ==> state == RUNNING)
      ensures error.None? && heartbeatTimeout.Some? ==> deadline == Some(now + heartbeatTimeout.value)
      ensures error.Some? ==> Abs() == old(Abs())
    {
      P.ActKeepsInv(Abs(), G.DoStartTask(withinLimits), now);
      hide G.Inv, G.Recorded, G.LegalMove, G.Move;
      error := StartTaskLocked(withinLimits, now);
    }

    /** Without the fault that follows an error outside the lock. */
    method HeartbeatLocked(now: real) returns (error: Option<G.GatewayError>)
      requires Valid()
      modifies this
      ensures (Abs(), error) == G.Heartbeat(old(Abs()), now)
      ensures Valid() && (error.None? <==>
        old(state) == RUNNING && heartbeatTimeout.Some? && old(deadline).Some? && now <= old(deadline).value)
      ensures error.None? ==> state == RUNNING && deadline == Some(now + heartbeatTimeout.value)
      ensures error.Some? ==> Abs() == old(Abs())
    {
      P.ActKeepsInv(Abs(), G.DoHeartbeat, now);
      P.HeartbeatRenewsIff(Abs(), now);
      hide G.Inv, G.Recorded, G.LegalMove, G.Move, P.Makes;
      error := Require(RUNNING);
      if error.Some? { return; }
      if heartbeatTimeout.None? { return Some(G.HeartbeatUnconfigured); }
      if deadline.Some? && now > deadline.value { return Some(G.HeartbeatExpired); }
      deadline := Some(now + heartbeatTimeout.value);
      var _ := Transition(RUNNING, None);
    }

    /** The three-shot burst; `callbacks` are what the stop callback does each time. */
    method StopRepeatedly(callbacks: seq<G.CallbackOutcome>) returns (combined: StopResult)
      requires |callbacks| == G.STOP_BURST_COUNT
      modifies this`lastStop
      ensures combined == G.Combined(callbacks) && lastStop == combined && G.Sanitized(combined)
      ensures combined.Successful() <==> forall c :: c in callbacks ==> c.Returned? && c.result.Successful()
    {
      P.BurstResult(callbacks);
      var results: seq<StopResult> := [];
      for i := 0 to G.STOP_BURST_COUNT
        invariant |results| == i
        invariant forall j :: 0 <= j < i ==> results[j] == G.Normalized(callbacks[j])
      {
        var result := StopResult(true, false, false, SafetyCommandRejected);
        if callbacks[i].Returned? {
          result := callbacks[i].result;
        }
        results := results + [result];
      }
      var latched := forall r :: r in results ==> r.latched;
      var quiesced := forall r :: r in results ==> r.quiesced;
      var accepted := forall r :: r in results ==> r.accepted;
      var code := EstopLatched;
      if !quiesced {
        code := TransportUnquiesced;
      } else if !accepted || !latched {
        code := SafetyCommandRejected;
      }
      assert forall j :: 0 <= j < |results| ==> results[j] in results && results[j] == G.Normalized(callbacks[j]);
      combined := StopResult(latched, quiesced, accepted, code);
      lastStop := combined;
    }

    method CommitCancel(stop: StopResult) returns (error: Option<G.GatewayError>)
      requires Valid() && G.Sanitized(stop)
      modifies this
      ensures (Abs(), error) == G.CommitCancel(old(Abs()), stop)
      ensures Valid() && (error.None? <==> old(state) == RUNNING) && (error.None? ==> state == STOPPED && deadline.None?)
      ensures error.Some? ==> Abs() == old(Abs())
    {
      P.CommitKeepsInv(Abs(), stop);
      hide G.Inv, G.Recorded, G.LegalMove, G.Move;
      error := Require(RUNNING);
      if error.Some? { return; }
      var _ := Transition(STOPPED, Some(stop));
      deadline := None;
    }

    method CommitFault(stop: StopResult) returns (t: Option<G.Transition>)
      requires Valid() && G.Sanitized(stop)
      modifies this
      ensures Abs() == G.CommitFault(old(Abs()), stop)
      ensures t.Some? <==> old(state) == RUNNING
      ensures t.Some? ==> t.value == log[|log| - 1]
      ensures Valid() && (t.Some? ==> state == FAULTED && t.value.stop == Some(stop) && deadline.None?)
      ensures t.None? ==> Abs() == old(Abs())
    {
      P.CommitKeepsInv(Abs(), stop);
      hide G.Inv, G.Recorded, G.LegalMove, G.Move;
      if state != RUNNING { return None; }
      var made := Transition(FAULTED, Some(stop));
      deadline := None;
      return Some(made);
    }

    method CommitEstop(stop: StopResult) returns (t: Option<G.Transition>)
      requires Valid() && G.Sanitized(stop)
      modifies this
      ensures Abs() == G.CommitEstop(old(Abs()), stop)
      ensures t.Some? <==> old(state) != ESTOPPED
      ensures t.Some? ==> t.value == log[|log| - 1]
      ensures Valid() && state == ESTOPPED && (t.Some? ==> t.value.before == old(state) && t.value.stop == Some(stop))
      ensures t.None? ==> Abs() == old(Abs())
    {
      P.CommitKeepsInv(Abs(), stop);
      hide G.Inv, G.Recorded, G.LegalMove, G.Move;
      if state == ESTOPPED { return None; }
      var made := Transition(ESTOPPED, Some(stop));
      deadline := None;
      return Some(made);
    }

    method OperatorReset() returns (error: Option<G.GatewayError>)
      requires Valid()
      modifies this
      ensures (Abs(), error) == G.OperatorReset(old(Abs()))
      ensures Valid() && (error.None? <==> old(state) == ESTOPPED && mode.Simulation?) && (error.None? ==> state == NEW && !reported)
      ensures error.Some? ==> Abs() == old(Abs())
    {
      P.ActKeepsInv(Abs(), G.DoOperatorReset, 0.0);
      hide G.Inv, G.Recorded, G.LegalMove, G.Move;
      if state != ESTOPPED { return Some(G.UnsafeState); }
      if mode.Hardware? { return Some(G.OperatorRequired); }
      var _ := Transition(NEW, None);
      reported := false;
      deadline := None;
      return None;
    }
  }
}
