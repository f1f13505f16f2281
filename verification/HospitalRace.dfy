/** The hospital lifecycle client as an object: its lock-protected fields, and the worker executing one start. */
module HospitalRaces {
  import opened SafetyTypes
  import R = HospitalRaceSpec
  import P = HospitalRaceProofs

  class HospitalLifecycleClient {
    const hasTransport: bool
    var cancellationGeneration: nat
    var stopLatched: bool
    var starts: nat
    var startProcess: Option<nat>
    var pc: R.Pc
    ghost var trace: seq<R.Event>

    ghost function Abs(): R.State
      reads this
    {
      R.State(hasTransport, cancellationGeneration, stopLatched, starts, startProcess, pc, trace)
    }

    ghost predicate Valid()
      reads this
    {
      R.Inv(Abs()) && R.Earned(Abs())
    }

    constructor (transport: bool)
      ensures Valid() && Abs() == R.Init(transport)
    {
      hasTransport := transport;
      cancellationGeneration, stopLatched, starts, startProcess, pc, trace := 0, false, 0, None, R.Idle, [];
      new;
      P.InitInv(transport);
    }

    method LatchStop()
      requires Valid()
      modifies this
      ensures Valid() && Abs() == R.LatchStop(old(Abs()))
    {
      P.LatchKeepsInv(Abs());
      P.OtherStepsEarn(Abs(), true);
      hide R.Inv, R.Earned;
      Latch();
    }

    method Latch()
      modifies this
      ensures Abs() == R.LatchStop(old(Abs()))
    {
      cancellationGeneration := cancellationGeneration + 1;
      stopLatched := true;
      trace := trace + [R.Latched];
    }

    method StartNowait(submitted: bool) returns (ok: bool)
      requires Valid()
      modifies this
      ensures Valid() && (Abs(), ok) == R.StartNowait(old(Abs()), submitted)
      ensures ok <==> !old(stopLatched) && old(pc).Idle? && submitted
      ensures if ok then pc == R.Queued(cancellationGeneration) && starts == old(starts) + 1 else Abs() == old(Abs())
    {
      P.StartNowaitKeepsInv(Abs(), submitted);
      P.OtherStepsEarn(Abs(), submitted);
      hide R.Inv, R.Earned;
      if stopLatched { return false; }
      if !pc.Idle? { return false; }
      if !submitted { return false; }
      pc := R.Queued(cancellationGeneration);
      starts := starts + 1;
      return true;
    }

    method StartWasCancelled(generation: nat) returns (cancelled: bool)
      ensures cancelled == R.WasCancelled(Abs(), generation)
    {
      return stopLatched || generation != cancellationGeneration;
    }

    ghost method Issue(command: R.Command)
      modifies this`trace
      ensures Abs() == R.Issue(old(Abs()), command)
    {
      trace := trace + [R.Issued(R.Current(Abs()), command)];
    }

    /** The region in which the latch is checked and the process is spawned and, for a start, registered. Nothing is
        spawned after the latch, and nobody who latches can miss a start process. */
    method SpawnUnlessCancelled(generation: nat, initialStart: bool) returns (spawned: bool)
      modifies this
      ensures (Abs(), spawned) == R.SpawnUnlessCancelled(old(Abs()), generation, if initialStart then R.Start else R.MissionStart)
      ensures spawned <==> !stopLatched && generation == cancellationGeneration
      ensures !spawned ==> Abs() == old(Abs())
      ensures spawned && initialStart ==> startProcess == Some(R.Current(Abs()))
      ensures old(R.NoSpawnAfterLatch(trace)) && (old(stopLatched) <==> R.Latched in old(trace)) ==>
        R.NoSpawnAfterLatch(trace) && (stopLatched <==> R.Latched in trace)
    {
      if stopLatched || generation != cancellationGeneration { return false; }
      Issue(if initialStart then R.Start else R.MissionStart);
      if initialStart {
        startProcess := Some(if starts == 0 then 0 else starts - 1);
      }
      return true;
    }

    /** One step of the worker through the body of a start. */
    method Work(outcome: R.Outcome)
      requires Valid()
      modifies this
      ensures Valid() && Abs() == R.Work(old(Abs()), outcome)
      ensures pc == R.Leaving(R.IsRunning) ==> R.CommandsOf(trace, R.Current(Abs())) == R.Path(hasTransport)
    {
      ghost var s := Abs();
      P.WorkKeepsInv(s, outcome);
      P.WorkEarns(s, outcome);
      P.RunningHasMade(R.Work(s, outcome));
      hide R.Inv, R.Earned, R.Path, R.CommandsOf;
      Step(outcome);
    }

    method Step(outcome: R.Outcome)
      modifies this
      ensures Abs() == R.Work(old(Abs()), outcome)
    {
      if pc.GiveUp? {
        Latch();
        pc := R.GiveUpStop;
        return;
      }
      match pc {
        case Idle =>
        case Queued(g) => Spawn(g, true, outcome);
        case MissionReady(g) => Spawn(g, false, outcome);
        case StartWait(g) => StartEnds(g, outcome);
        case StartDone(g) => CheckThen(g, if hasTransport then R.Listening(g) else R.MissionReady(g));
        case MissionWait(g) => MissionEnds(g, outcome);
        case Listening(g) =>
          if outcome.Raises? || outcome.TimedOut? {
            pc := R.Leaving(R.Raised);
          } else {
            CheckThen(g, if outcome.Fine? then R.TriggerReady(g) else R.Listening(g));
          }
        case TriggerReady(g) =>
          Issue(R.Trigger);
          pc := R.TriggerWait(g);
        case TriggerWait(g) => pc := if outcome.Fine? then R.FinalCheck(g) else R.Leaving(R.Raised);
        case FinalCheck(g) => LastCheck(g);
        case Compensate =>
          Issue(R.Stop);
          pc := R.CompensateWait;
        case CompensateWait => pc := R.Leaving(if outcome.Fine? then R.IsCancelled else R.Raised);
        case GiveUp =>
        case GiveUpStop =>
          Issue(R.Stop);
          pc := R.GiveUpWait;
        case GiveUpWait =>
          startProcess := None;
          pc := R.Leaving(R.Raised);
        case Leaving(result) =>
          trace := trace + [R.Returned(R.Current(Abs()), result)];
          pc := R.Idle;
      }
    }

    method Spawn(g: nat, initialStart: bool, outcome: R.Outcome)
      requires pc == if initialStart then R.Queued(g) else R.MissionReady(g)
      modifies this
      ensures Abs() == R.Work(old(Abs()), outcome)
    {
      var spawned := SpawnUnlessCancelled(g, initialStart);
      if !spawned {
        pc := R.Compensate;
      } else if outcome.Raises? {
        if initialStart { startProcess := None; }
        pc := R.Leaving(R.Raised);
      } else {
        pc := if initialStart then R.StartWait(g) else R.MissionWait(g);
      }
    }

    method StartEnds(g: nat, outcome: R.Outcome)
      requires pc == R.StartWait(g)
      modifies this
      ensures Abs() == R.Work(old(Abs()), outcome)
    {
      if outcome.TimedOut? {
        pc := R.GiveUp;
        return;
      }
      startProcess := None;
      if outcome.Raises? {
        pc := R.Leaving(R.Raised);
        return;
      }
      var cancelled := StartWasCancelled(g);
      pc := if cancelled then R.Compensate else if outcome.Bad? then R.Leaving(R.Raised) else R.StartDone(g);
    }

    method MissionEnds(g: nat, outcome: R.Outcome)
      requires pc == R.MissionWait(g)
      modifies this
      ensures Abs() == R.Work(old(Abs()), outcome)
    {
      if outcome.TimedOut? || outcome.Raises? {
        pc := R.Leaving(R.Raised);
        return;
      }
      var cancelled := StartWasCancelled(g);
      pc := if cancelled then R.Compensate else if outcome.Bad? then R.Leaving(R.Raised) else R.FinalCheck(g);
    }

    method CheckThen(g: nat, next: R.Pc)
      modifies this`pc
      ensures Abs() == R.CheckThen(old(Abs()), g, next)
    {
      var cancelled := StartWasCancelled(g);
      pc := if cancelled then R.Compensate else next;
    }

    method LastCheck(g: nat)
      requires pc == R.FinalCheck(g)
      modifies this
      ensures forall outcome :: Abs() == R.Work(old(Abs()), outcome)
    {
      var cancelled := StartWasCancelled(g);
      trace := trace + [R.Checked(R.Current(Abs()), cancelled)];
      pc := if cancelled then R.Compensate else R.Leaving(R.IsRunning);
    }
  }
}
