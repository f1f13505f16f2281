/** The start and stop race over every run. */
module HospitalRaceProofs {
  import opened SafetyTypes
  import opened HospitalRaceSpec

  lemma TraceGrows(t: seq<Event>, e: Event)
    ensures (t + [e])[..|t|] == t && (t + [e])[|t|] == e
    ensures forall id :: CommandsOf(t + [e], id) == if e.Issued? && e.id == id then CommandsOf(t, id) + [e.command] else CommandsOf(t, id)
  {
    assert (t + [e])[..|t|] == t;
  }

  lemma PassedGrows(t: seq<Event>, e: Event, id: nat)
    requires Passed(t, id)
    ensures Passed(t + [e], id)
  {
    var i :| 0 <= i < |t| && t[i] == Checked(id, false) && Latched !in t[..i];
    assert (t + [e])[..i] == t[..i] && (t + [e])[i] == t[i];
  }

  /** One more event, unless it is a dishonest return, leaves the outcomes honest. */
  lemma HonestGrows(t: seq<Event>, e: Event)
    requires HonestOutcomes(t)
    requires e.Returned? && e.result.IsCancelled? ==> EndsInStop(CommandsOf(t, e.id))
    requires e.Returned? && e.result.IsRunning? ==> Passed(t, e.id)
    ensures HonestOutcomes(t + [e])
  {
    hide EndsInStop, Passed, CommandsOf;
    var u := t + [e];
    forall j | 0 <= j < |u|
      ensures u[..j] == (if j < |t| then t[..j] else t) && u[j] == (if j < |t| then t[j] else e)
    {
    }
  }

  lemma SpawnGrows(t: seq<Event>, e: Event, n: nat)
    requires NoSpawnAfterLatch(t) && Numbered(t, n) && ChecksAreLast(t)
    requires e.Latched? || e.id < n
    requires e.Issued? && (e.command.Start? || e.command.MissionStart?) ==> Latched !in t
    requires e.Issued? && !e.command.Stop? ==> Unchecked(t, e.id)
    ensures NoSpawnAfterLatch(t + [e]) && Numbered(t + [e], n) && ChecksAreLast(t + [e])
    ensures forall id :: Unchecked(t, id) && !(e.Checked? && e.id == id) ==> Unchecked(t + [e], id)
    ensures Latched in t + [e] <==> Latched in t || e.Latched?
  {
  }

  /** What every event added by a step owes to the trace. */
  lemma EventKeepsInv(s: State, e: Event, t: State)
    requires Inv(s) && t.trace == s.trace + [e] && t.starts == s.starts
    requires t.latched == (s.latched || e.Latched?) && (t.latched <==> t.generation > 0) && (t.pc.Idle? || t.starts > 0)
    requires e.Latched? || e.id < s.starts
    requires e.Issued? && (e.command.Start? || e.command.MissionStart?) ==> !s.latched
    requires e.Issued? && !e.command.Stop? ==> Unchecked(s.trace, e.id)
    requires MayStillStart(t.pc) ==> MayStillStart(s.pc) && !e.Checked?
    requires e.Returned? && e.result.IsCancelled? ==> EndsInStop(CommandsOf(s.trace, e.id))
    requires e.Returned? && e.result.IsRunning? ==> Passed(s.trace, e.id)
    requires Stands(t) && Registered(t) && OnPath(t)
    ensures Inv(t)
  {
    HonestGrows(s.trace, e);
    SpawnGrows(s.trace, e, s.starts);
    hide HonestOutcomes, NoSpawnAfterLatch, Numbered, ChecksAreLast, Unchecked, Stands, EndsInStop, Passed;
  }

  lemma LatchKeepsInv(s: State)
    requires Inv(s)
    ensures Inv(LatchStop(s))
  {
    TraceGrows(s.trace, Latched);
    if s.pc == Leaving(IsRunning) { PassedGrows(s.trace, Latched, Current(s)); }
    assert Stands(LatchStop(s));
    EventKeepsInv(s, Latched, LatchStop(s));
  }

  /** Steps that only move the worker. */
  lemma MoveKeepsInv(s: State, t: State)
    requires Inv(s) && t == s.(pc := t.pc, process := t.process) && Stands(t) && Registered(t) && OnPath(t) && (t.pc.Idle? || s.starts > 0)
    requires MayStillStart(t.pc) ==> MayStillStart(s.pc)
    ensures Inv(t)
  {
    hide HonestOutcomes, NoSpawnAfterLatch, Numbered, ChecksAreLast, Unchecked, Stands;
  }

  lemma IssueKeepsInv(s: State, command: Command, pc: Pc, process: Option<nat>)
    requires Inv(s) && s.starts > 0 && (command.Start? || command.MissionStart? ==> !s.latched)
    requires !pc.Leaving? || pc.result.Raised?
    requires pc.CompensateWait? ==> command.Stop?
    requires !command.Stop? || MayStillStart(pc) ==> MayStillStart(s.pc)
    requires Registered(s.(pc := pc, process := process)) && OnPath(s.(pc := pc))
    ensures Inv(Issue(s, command).(pc := pc, process := process))
  {
    var e := Issued(Current(s), command);
    TraceGrows(s.trace, e);
    var t := Issue(s, command).(pc := pc, process := process);
    assert Stands(t);
    hide HonestOutcomes, NoSpawnAfterLatch, Numbered, ChecksAreLast, Unchecked, Stands, CommandsOf;
    EventKeepsInv(s, e, t);
  }

  lemma CheckedPasses(s: State, cancelled: bool)
    requires Inv(s) && !cancelled ==> !s.latched
    ensures !cancelled && Inv(s) ==> Passed(s.trace + [Checked(Current(s), cancelled)], Current(s))
  {
    if !cancelled && Inv(s) {
      var t := s.trace + [Checked(Current(s), cancelled)];
      assert t[..|s.trace|] == s.trace && t[|s.trace|] == Checked(Current(s), false);
    }
  }

  /** A wait is over, or a check is made: nothing is added to the trace. */
  lemma WaitKeepsInv(s: State, outcome: Outcome)
    requires Inv(s) && Work(s, outcome).trace == s.trace && !s.pc.Idle? && !s.pc.GiveUp?
    ensures Inv(Work(s, outcome))
  {
    var t := Work(s, outcome);
    assert t == s.(pc := t.pc, process := t.process);
    assert Stands(t);
    hide Work, Stands, EndsInStop, Passed, CommandsOf, HonestOutcomes, NoSpawnAfterLatch, Numbered, ChecksAreLast, Unchecked;
    MoveKeepsInv(s, t);
  }

  lemma CheckKeepsInv(s: State, outcome: Outcome)
    requires Inv(s) && s.pc.FinalCheck?
    ensures Inv(Work(s, outcome))
  {
    hide EndsInStop, CommandsOf, HonestOutcomes, NoSpawnAfterLatch, Numbered, ChecksAreLast, Unchecked;
    var t, cancelled := Work(s, outcome), WasCancelled(s, s.pc.generation);
    CheckedPasses(s, cancelled);
    hide Passed;
    EventKeepsInv(s, Checked(Current(s), cancelled), t);
  }

  lemma ReturnKeepsInv(s: State, outcome: Outcome)
    requires Inv(s) && s.pc.Leaving?
    ensures Inv(Work(s, outcome))
  {
    hide EndsInStop, Passed, CommandsOf, HonestOutcomes, NoSpawnAfterLatch, Numbered, ChecksAreLast, Unchecked;
    EventKeepsInv(s, Returned(Current(s), s.pc.result), Work(s, outcome));
  }

  lemma GiveUpKeepsInv(s: State, outcome: Outcome)
    requires Inv(s) && s.pc.GiveUp?
    ensures Inv(Work(s, outcome))
  {
    hide EndsInStop, Passed, CommandsOf, HonestOutcomes, NoSpawnAfterLatch, Numbered, ChecksAreLast, Unchecked;
    LatchKeepsInv(s);
    MoveKeepsInv(LatchStop(s), Work(s, outcome));
  }

  lemma OrderKeepsInv(s: State, outcome: Outcome)
    requires Inv(s) && (s.pc.TriggerReady? || s.pc.Compensate? || s.pc.GiveUpStop?)
    ensures Inv(Work(s, outcome))
  {
    hide EndsInStop, Passed, CommandsOf, HonestOutcomes, NoSpawnAfterLatch, Numbered, ChecksAreLast, Unchecked;
    var t := Work(s, outcome);
    IssueKeepsInv(s, if s.pc.TriggerReady? then Trigger else Stop, t.pc, t.process);
  }

  lemma WorkKeepsInv(s: State, outcome: Outcome)
    requires Inv(s)
    ensures Inv(Work(s, outcome))
  {
    match s.pc
    case Idle =>
    case Queued(_) => SpawnKeepsInv(s, outcome);
    case MissionReady(_) => SpawnKeepsInv(s, outcome);
    case TriggerReady(_) => OrderKeepsInv(s, outcome);
    case Compensate => OrderKeepsInv(s, outcome);
    case GiveUpStop => OrderKeepsInv(s, outcome);
    case GiveUp => GiveUpKeepsInv(s, outcome);
    case FinalCheck(_) => CheckKeepsInv(s, outcome);
    case Leaving(_) => ReturnKeepsInv(s, outcome);
    case _ =>
      assert Work(s, outcome).trace == s.trace by { hide Inv; }
      hide Work, Inv;
      WaitKeepsInv(s, outcome);
  }

  lemma SpawnKeepsInv(s: State, outcome: Outcome)
    requires Inv(s) && (s.pc.Queued? || s.pc.MissionReady?)
    ensures Inv(Work(s, outcome))
  {
    var t := Work(s, outcome);
    if WasCancelled(s, s.pc.generation) {
      MoveKeepsInv(s, t);
    } else {
      IssueKeepsInv(s, if s.pc.Queued? then Start else MissionStart, t.pc, t.process);
    }
  }

  lemma StartNowaitKeepsInv(s: State, submitted: bool)
    requires Inv(s)
    ensures Inv(StartNowait(s, submitted).0)
  {
    hide HonestOutcomes, NoSpawnAfterLatch, ChecksAreLast, CommandsOf;
  }

  lemma {:induction false} RunKeepsInv(s: State, steps: seq<Step>)
    requires Inv(s)
    ensures Inv(Run(s, steps))
    decreases |steps|
  {
    hide Inv, Work, LatchStop, StartNowait;
    if steps == [] {
    } else {
      match steps[0] {
        case DoStartNowait(submitted) => StartNowaitKeepsInv(s, submitted);
        case DoLatch => LatchKeepsInv(s);
        case DoWork(outcome) => WorkKeepsInv(s, outcome);
      }
      RunKeepsInv(Next(s, steps[0]), steps[1..]);
    }
  }

  lemma InitInv(hasTransport: bool)
    ensures Inv(Init(hasTransport))
  {
  }

  /** Over every run: no start or mission-start process is spawned after the stop latch, "cancelled" is answered only
      after a stop as the last command, and "running" only after a check that came before any latch. */
  lemma StopWinsTheRace(hasTransport: bool, steps: seq<Step>)
    ensures var t := Run(Init(hasTransport), steps).trace; NoSpawnAfterLatch(t) && HonestOutcomes(t)
  {
    InitInv(hasTransport);
    RunKeepsInv(Init(hasTransport), steps);
  }

  /** A running start process is never out of a stopper's sight: it is registered from the region that spawns it. */
  lemma StartProcessIsVisible(hasTransport: bool, steps: seq<Step>)
    ensures var s := Run(Init(hasTransport), steps); s.pc.StartWait? ==> s.process == Some(Current(s))
    ensures var s := Run(Init(hasTransport), steps); s.latched ==> forall outcome :: Work(s, outcome).pc.StartWait? ==> s.pc.StartWait?
  {
    InitInv(hasTransport);
    RunKeepsInv(Init(hasTransport), steps);
  }

  /** A start that triggered after the latch never answers "running". */
  lemma LateTriggerNeverRuns(hasTransport: bool, steps: seq<Step>, i: nat, j: nat, k: nat)
    requires var t := Run(Init(hasTransport), steps).trace;
      && i < j < k < |t| && t[i].Latched? && t[j].Issued? && t[j].command.Trigger? && t[k].Returned? && t[k].id == t[j].id
    ensures !Run(Init(hasTransport), steps).trace[k].result.IsRunning?
  {
    var t := Run(Init(hasTransport), steps).trace;
    InitInv(hasTransport);
    RunKeepsInv(Init(hasTransport), steps);
    forall n | 0 <= n < k && t[..k][n] == Checked(t[k].id, false) ensures Latched in t[..k][..n] {
      assert j < n;
      assert t[..k][..n][i] == Latched;
    }
    assert !Passed(t[..k], t[k].id);
  }

  // ----- the trigger after the latch -----

  /** The trigger still owed by a start that is past its last look at the latch. */
  function OwedTrigger(s: State): nat {
    if s.pc.TriggerReady? then 1 else 0
  }

  lemma TriggersGrow(t: seq<Event>, e: Event)
    ensures Triggers(t + [e]) == Triggers(t) + (if e.Issued? && e.command.Trigger? then 1 else 0)
  {
    assert (t + [e])[..|t|] == t;
  }

  lemma StepAfterLatch(s: State, step: Step)
    requires s.latched
    ensures var t := Next(s, step); t.latched && Triggers(t.trace) + OwedTrigger(t) <= Triggers(s.trace) + OwedTrigger(s)
  {
    hide Triggers;
    match step
    case DoStartNowait(_) =>
    case DoLatch => TriggersGrow(s.trace, Latched);
    case DoWork(outcome) => WorkAfterLatch(s, outcome);
  }

  lemma WorkAfterLatch(s: State, outcome: Outcome)
    requires s.latched
    ensures var t := Work(s, outcome); t.latched && Triggers(t.trace) + OwedTrigger(t) <= Triggers(s.trace) + OwedTrigger(s)
  {
    hide Triggers;
    match s.pc
    case TriggerReady(_) => TriggersGrow(s.trace, Issued(Current(s), Trigger));
    case FinalCheck(_) => TriggersGrow(s.trace, Checked(Current(s), true));
    case Compensate => TriggersGrow(s.trace, Issued(Current(s), Stop));
    case GiveUp => TriggersGrow(s.trace, Latched);
    case GiveUpStop => TriggersGrow(s.trace, Issued(Current(s), Stop));
    case Leaving(result) => TriggersGrow(s.trace, Returned(Current(s), result));
    case _ =>
  }

  /** After the latch the triggers issued and owed never grow: so at most the owed one is ever issued. */
  lemma {:induction false} LatchBoundsTriggers(s: State, steps: seq<Step>)
    requires s.latched
    ensures Triggers(Run(s, steps).trace) <= Triggers(s.trace) + OwedTrigger(s)
    decreases |steps|
  {
    hide Next, Triggers;
    if steps == [] {
    } else {
      StepAfterLatch(s, steps[0]);
      LatchBoundsTriggers(Next(s, steps[0]), steps[1..]);
    }
  }

  ghost predicate MayStillTrigger(s: State) {
    exists more :: Triggers(Run(s, more).trace) > Triggers(s.trace)
  }

  /** Exactly when a start service call can follow the latch: the start has looked at the latch for the last time before
      the call and not made it yet. Then it can be made once; and only ever with a transport. */
  lemma TriggerFollowsLatchIff(hasTransport: bool, steps: seq<Step>)
    requires Run(Init(hasTransport), steps).latched
    ensures var s := Run(Init(hasTransport), steps);
      && (MayStillTrigger(s) <==> s.pc.TriggerReady?)
      && (s.pc.TriggerReady? ==> s.hasTransport)
      && forall more :: Triggers(Run(s, more).trace) <= Triggers(s.trace) + 1
  {
    var s := Run(Init(hasTransport), steps);
    InitInv(hasTransport);
    RunKeepsInv(Init(hasTransport), steps);
    forall more ensures Triggers(Run(s, more).trace) <= Triggers(s.trace) + OwedTrigger(s) {
      LatchBoundsTriggers(s, more);
    }
    if s.pc.TriggerReady? {
      TriggersGrow(s.trace, Issued(Current(s), Trigger));
      RunsTo(s, Next(s, DoWork(Fine)), [DoWork(Fine)]);
      assert Run(s, [DoWork(Fine)]) == Next(s, DoWork(Fine));
      assert Triggers(Run(s, [DoWork(Fine)]).trace) > Triggers(s.trace);
    }
  }

  /** The trigger of the transport path is not under the lock, so it can indeed follow the latch. */
  lemma TriggerMayFollowLatch()
    ensures var steps := [DoStartNowait(true), DoWork(Fine), DoWork(Fine), DoWork(Fine), DoWork(Fine), DoLatch, DoWork(Fine)];
      Run(Init(true), steps).trace == [Issued(0, Start), Latched, Issued(0, Trigger)]
  {
    var steps := [DoStartNowait(true), DoWork(Fine), DoWork(Fine), DoWork(Fine), DoWork(Fine), DoLatch, DoWork(Fine)];
    var s1 := Next(Init(true), steps[0]);
    var s2 := Next(s1, steps[1]);
    var s3 := Next(s2, steps[2]);
    var s4 := Next(s3, steps[3]);
    var s5 := Next(s4, steps[4]);
    var s6 := Next(s5, steps[5]);
    var s7 := Next(s6, steps[6]);
    assert s2.pc == StartWait(0) && s3.pc == StartDone(0) && s4.pc == Listening(0) && s5.pc == TriggerReady(0);
    assert s7.trace == [Issued(0, Start), Latched, Issued(0, Trigger)];
    RunsTo(Init(true), s1, steps);
    RunsTo(s1, s2, steps[1..]);
    RunsTo(s2, s3, steps[1..][1..]);
    RunsTo(s3, s4, steps[1..][1..][1..]);
    RunsTo(s4, s5, steps[1..][1..][1..][1..]);
    RunsTo(s5, s6, steps[1..][1..][1..][1..][1..]);
    RunsTo(s6, s7, steps[1..][1..][1..][1..][1..][1..]);
  }

  lemma RunsTo(s: State, t: State, steps: seq<Step>)
    requires steps != [] && t == Next(s, steps[0])
    ensures Run(s, steps) == Run(t, steps[1..])
  {
  }

  // ----- what an answer means -----

  lemma ServedGrows(t: seq<Event>, e: Event, id: nat, hasTransport: bool)
    requires Served(t, id, hasTransport) && !(e.Issued? && e.id == id)
    ensures Served(t + [e], id, hasTransport)
  {
    TraceGrows(t, e);
    var i :| 0 <= i < |t| && t[i] == Checked(id, false) && CommandsOf(t[..i], id) == Path(hasTransport) && Latched !in t[..i];
    assert (t + [e])[..i] == t[..i] && (t + [e])[i] == t[i];
  }

  lemma EarnedGrows(t: seq<Event>, e: Event, hasTransport: bool)
    requires EarnedOutcomes(t, hasTransport)
    requires e.Returned? && e.result.IsRunning? ==> Served(t, e.id, hasTransport)
    requires e.Returned? && e.result.IsCancelled? ==> Latched in t
    ensures EarnedOutcomes(t + [e], hasTransport)
  {
    hide Served;
    var u := t + [e];
    forall j | 0 <= j < |u|
      ensures u[..j] == (if j < |t| then t[..j] else t) && u[j] == (if j < |t| then t[j] else e)
    {
    }
  }

  lemma {:induction false} NoCommandsYet(t: seq<Event>, n: nat, id: nat)
    requires Numbered(t, n) && n <= id
    ensures CommandsOf(t, id) == []
    decreases |t|
  {
    if t == [] {
    } else {
      assert Numbered(t[..|t| - 1], n);
      NoCommandsYet(t[..|t| - 1], n, id);
    }
  }

  /** The worker's step adds this event, if it adds one. */
  function Adds(s: State, outcome: Outcome): Option<Event> {
    var t := Work(s, outcome).trace;
    if |t| > |s.trace| then Some(t[|s.trace|]) else None
  }

  /** One step of the worker adds at most one event. */
  ghost predicate AddsOne(s: State, outcome: Outcome) {
    var t := Work(s, outcome);
    && t.trace == (if Adds(s, outcome).None? then s.trace else s.trace + [Adds(s, outcome).value])
    && t.hasTransport == s.hasTransport && t.starts == s.starts
    && (s.latched ==> t.latched) && (t.latched ==> s.latched || s.pc.GiveUp?)
    && (MayStillStart(t.pc) ==> MayStillStart(s.pc) && t.pc.generation == s.pc.generation)
  }

  lemma SpawnAdds(s: State, outcome: Outcome)
    requires s.pc.Queued? || s.pc.MissionReady? || s.pc.TriggerReady? || s.pc.Compensate? || s.pc.GiveUpStop? || s.pc.FinalCheck?
    ensures AddsOne(s, outcome)
  {
  }

  lemma OtherAdds(s: State, outcome: Outcome)
    requires !s.pc.Queued? && !s.pc.MissionReady? && !s.pc.TriggerReady? && !s.pc.Compensate? && !s.pc.GiveUpStop? && !s.pc.FinalCheck?
    ensures AddsOne(s, outcome)
  {
  }

  lemma WorkAdds(s: State, outcome: Outcome)
    ensures AddsOne(s, outcome)
  {
    if s.pc.Queued? || s.pc.MissionReady? || s.pc.TriggerReady? || s.pc.Compensate? || s.pc.GiveUpStop? || s.pc.FinalCheck? {
      SpawnAdds(s, outcome);
    } else {
      OtherAdds(s, outcome);
    }
    hide AddsOne;
  }

  lemma WorkKeepsOutcomes(s: State, outcome: Outcome)
    requires Inv(s) && Earned(s)
    ensures EarnedOutcomes(Work(s, outcome).trace, s.hasTransport)
  {
    WorkAdds(s, outcome);
    var e := Adds(s, outcome);
    assert e.Some? && e.value.Returned? ==> s.pc.Leaving? && e.value == Returned(Current(s), s.pc.result);
    hide Work, Served, HonestOutcomes, NoSpawnAfterLatch, ChecksAreLast, Numbered, Stands;
    if e.Some? { EarnedGrows(s.trace, e.value, s.hasTransport); }
  }

  lemma CheckServes(s: State, outcome: Outcome)
    requires Inv(s) && Earned(s) && s.pc.FinalCheck? && !WasCancelled(s, s.pc.generation)
    ensures Made(Work(s, outcome))
  {
    var e := Checked(Current(s), false);
    TraceGrows(s.trace, e);
    assert (s.trace + [e])[..|s.trace|] == s.trace && Latched !in s.trace;
  }

  /** With nothing latched the generation a start was admitted under is still current. */
  lemma CancelledMeansLatched(s: State)
    requires Inv(s) && MayStillStart(s.pc) && s.pc.generation == 0
    ensures WasCancelled(s, s.pc.generation) <==> s.latched
  {
  }

  lemma WaitIsMade(s: State, outcome: Outcome)
    requires Made(s) && (MayStillStart(s.pc) ==> (WasCancelled(s, s.pc.generation) <==> s.latched))
    requires s.pc.StartWait? || s.pc.StartDone? || s.pc.MissionWait? || s.pc.Listening? || s.pc.TriggerWait? || s.pc.CompensateWait?
    ensures Made(Work(s, outcome))
  {
    hide CommandsOf, Served;
    assert Work(s, outcome).trace == s.trace;
  }

  lemma OrderIsMade(s: State, outcome: Outcome)
    requires Made(s) && (MayStillStart(s.pc) ==> (WasCancelled(s, s.pc.generation) <==> s.latched)) && OnPath(s)
    requires s.pc.Queued? || s.pc.MissionReady? || s.pc.TriggerReady? || s.pc.Compensate?
    ensures Made(Work(s, outcome))
  {
    TraceGrows(s.trace, Issued(Current(s), Start));
    TraceGrows(s.trace, Issued(Current(s), MissionStart));
    TraceGrows(s.trace, Issued(Current(s), Trigger));
    hide CommandsOf, Served;
  }

  lemma WorkIsMade(s: State, outcome: Outcome)
    requires Inv(s) && Earned(s)
    ensures Made(Work(s, outcome))
  {
    if MayStillStart(s.pc) { CancelledMeansLatched(s); }
    hide Inv, EarnedOutcomes;
    match s.pc
    case FinalCheck(_) => if !WasCancelled(s, s.pc.generation) { CheckServes(s, outcome); }
    case Queued(_) => OrderIsMade(s, outcome);
    case MissionReady(_) => OrderIsMade(s, outcome);
    case TriggerReady(_) => OrderIsMade(s, outcome);
    case Compensate => OrderIsMade(s, outcome);
    case Idle =>
    case GiveUp =>
    case GiveUpStop =>
    case GiveUpWait =>
    case Leaving(_) =>
    case _ => WaitIsMade(s, outcome);
  }

  lemma WorkEarns(s: State, outcome: Outcome)
    requires Inv(s) && Earned(s)
    ensures Earned(Work(s, outcome))
  {
    WorkAdds(s, outcome);
    WorkKeepsOutcomes(s, outcome);
    WorkIsMade(s, outcome);
    hide Inv, Work, EarnedOutcomes, Made;
  }

  /** Whoever is about to answer "running" has commanded the whole path. */
  lemma RunningHasMade(s: State)
    requires Earned(s)
    ensures s.pc == Leaving(IsRunning) ==> CommandsOf(s.trace, Current(s)) == Path(s.hasTransport)
  {}

  lemma OtherStepsEarn(s: State, submitted: bool)
    requires Inv(s) && Earned(s)
    ensures Earned(LatchStop(s)) && Earned(StartNowait(s, submitted).0)
  {
    TraceGrows(s.trace, Latched);
    EarnedGrows(s.trace, Latched, s.hasTransport);
    if s.pc == Leaving(IsRunning) { ServedGrows(s.trace, Latched, Current(s), s.hasTransport); }
    NoCommandsYet(s.trace, s.starts, s.starts);
    hide CommandsOf, Served, HonestOutcomes, NoSpawnAfterLatch, ChecksAreLast, Stands, Unchecked, EarnedOutcomes;
  }

  lemma {:induction false} RunEarns(s: State, steps: seq<Step>)
    requires Inv(s) && Earned(s)
    ensures Inv(Run(s, steps)) && Earned(Run(s, steps)) && Run(s, steps).hasTransport == s.hasTransport
    decreases |steps|
  {
    if steps == [] {
    } else {
      match steps[0] {
        case DoStartNowait(submitted) => StartNowaitKeepsInv(s, submitted); OtherStepsEarn(s, submitted);
        case DoLatch => LatchKeepsInv(s); OtherStepsEarn(s, true);
        case DoWork(outcome) =>
          WorkKeepsInv(s, outcome);
          WorkEarns(s, outcome);
          WorkAdds(s, outcome);
      }
      hide Inv, Work, Earned;
      RunEarns(Next(s, steps[0]), steps[1..]);
    }
  }

  /** In every run: a start answers "running" only after exactly the commands that start the mission, in order, both of
      them before its last look at the latch, and that look before any latch; and it answers "cancelled" only after a
      latch. */
  lemma AnswersAreEarned(hasTransport: bool, steps: seq<Step>)
    ensures EarnedOutcomes(Run(Init(hasTransport), steps).trace, hasTransport)
  {
    InitInv(hasTransport);
    RunEarns(Init(hasTransport), steps);
  }

  // ----- how a start goes -----

  function FineSteps(n: nat): seq<Step> {
    if n == 0 then [] else [DoWork(Fine)] + FineSteps(n - 1)
  }

  /** `n` steps of the worker in which everything goes well. */
  function WorkOn(s: State, n: nat): State
    decreases n
  {
    if n == 0 then s else WorkOn(Work(s, Fine), n - 1)
  }

  lemma {:induction false} RunFine(s: State, n: nat)
    ensures Run(s, FineSteps(n)) == WorkOn(s, n)
    decreases n
  {
    hide Work;
    if n == 0 {
    } else {
      assert FineSteps(n)[1..] == FineSteps(n - 1) && FineSteps(n)[0] == DoWork(Fine);
      RunFine(Work(s, Fine), n - 1);
    }
  }

  lemma WorkOnStep(s: State, n: nat)
    requires n > 0
    ensures WorkOn(s, n) == WorkOn(Work(s, Fine), n - 1)
  {
  }

  lemma {:induction false} WorkOnMore(s: State, n: nat, m: nat)
    ensures WorkOn(s, n + m) == WorkOn(WorkOn(s, n), m)
    decreases n
  {
    hide Work;
    if n == 0 {
    } else {
      WorkOnMore(Work(s, Fine), n - 1, m);
    }
  }

  lemma {:induction false} IdleStays(s: State, n: nat)
    requires s.pc.Idle?
    ensures WorkOn(s, n) == s
    decreases n
  {
    if n == 0 {
    } else {
      IdleStays(s, n - 1);
    }
  }

  /** The start command, up to where the two ways part. */
  lemma FineBeginning(s: State)
    requires s.pc.Queued? && !s.latched && s.pc.generation == s.generation
    ensures WorkOn(s, 3) == s.(process := None, trace := s.trace + [Issued(Current(s), Start)],
      pc := if s.hasTransport then Listening(s.generation) else MissionReady(s.generation))
  {
    var s1 := Work(s, Fine);
    var s2 := Work(s1, Fine);
    WorkOnStep(s, 3);
    WorkOnStep(s1, 2);
    WorkOnStep(s2, 1);
  }

  lemma FineMission(s: State)
    requires s.pc.MissionReady? && !s.latched && s.pc.generation == s.generation
    ensures WorkOn(s, 2) == s.(trace := s.trace + [Issued(Current(s), MissionStart)], pc := FinalCheck(s.generation))
  {
    WorkOnStep(s, 2);
    WorkOnStep(Work(s, Fine), 1);
  }

  lemma FineTrigger(s: State)
    requires s.pc.Listening? && !s.latched && s.pc.generation == s.generation
    ensures WorkOn(s, 3) == s.(trace := s.trace + [Issued(Current(s), Trigger)], pc := FinalCheck(s.generation))
  {
    var s1 := Work(s, Fine);
    WorkOnStep(s, 3);
    WorkOnStep(s1, 2);
    WorkOnStep(Work(s1, Fine), 1);
  }

  lemma FineEnd(s: State)
    requires s.pc.FinalCheck? && !s.latched && s.pc.generation == s.generation
    ensures WorkOn(s, 2) == s.(trace := s.trace + [Checked(Current(s), false), Returned(Current(s), IsRunning)], pc := Idle)
  {
    var s1 := Work(s, Fine);
    WorkOnStep(s, 2);
    WorkOnStep(s1, 1);
    assert s.trace + [Checked(Current(s), false)] + [Returned(Current(s), IsRunning)]
      == s.trace + [Checked(Current(s), false), Returned(Current(s), IsRunning)];
  }

  /** A start that nothing stops and in which everything goes well answers "running". */
  lemma FineStartRuns(s: State)
    requires s.pc.Idle? && !s.latched
    ensures var t, id := Run(StartNowait(s, true).0, FineSteps(8)), s.starts;
      && t.pc.Idle? && t.starts == s.starts + 1 && !t.latched && t.process == None
      && t.trace == s.trace + [Issued(id, Start), Issued(id, Path(s.hasTransport)[1]), Checked(id, false), Returned(id, IsRunning)]
  {
    var s0 := StartNowait(s, true).0;
    hide Work, WorkOn;
    RunFine(s0, 8);
    FineBeginning(s0);
    var s1 := WorkOn(s0, 3);
    var n := if s.hasTransport then 3 else 2;
    if s.hasTransport { FineTrigger(s1); } else { FineMission(s1); }
    var s2 := WorkOn(s1, n);
    FineEnd(s2);
    var s3 := WorkOn(s2, 2);
    IdleStays(s3, 3 - n);
    WorkOnMore(s0, 3, 5);
    WorkOnMore(s1, n, 5 - n);
    WorkOnMore(s2, 2, 3 - n);
    assert s3.trace == s.trace + [Issued(s.starts, Start), Issued(s.starts, Path(s.hasTransport)[1]), Checked(s.starts, false), Returned(s.starts, IsRunning)];
  }

  /** Undoing a start that was found latched. */
  lemma FineCompensation(s: State)
    requires s.pc.Compensate?
    ensures WorkOn(s, 3) == s.(trace := s.trace + [Issued(Current(s), Stop), Returned(Current(s), IsCancelled)], pc := Idle)
  {
    var s1 := Work(s, Fine);
    WorkOnStep(s, 3);
    WorkOnStep(s1, 2);
    WorkOnStep(Work(s1, Fine), 1);
    assert s.trace + [Issued(Current(s), Stop)] + [Returned(Current(s), IsCancelled)]
      == s.trace + [Issued(Current(s), Stop), Returned(Current(s), IsCancelled)];
  }

  /** How far a latched start is from finding out. */
  function ToCompensate(pc: Pc): nat {
    if pc.TriggerReady? then 3 else if pc.TriggerWait? then 2 else 1
  }

  lemma FindsTheLatch(s: State)
    requires s.latched && MayStillStart(s.pc)
    ensures var t := WorkOn(s, ToCompensate(s.pc));
      && t.pc.Compensate? && t.starts == s.starts && s.trace <= t.trace
      && forall j :: |s.trace| <= j < |t.trace| ==> t.trace[j] == Issued(Current(s), Trigger) || t.trace[j] == Checked(Current(s), true)
  {
    var s1 := Work(s, Fine);
    WorkOnStep(s, ToCompensate(s.pc));
    if s.pc.TriggerReady? {
      WorkOnStep(s1, 2);
      WorkOnStep(Work(s1, Fine), 1);
    } else if s.pc.TriggerWait? {
      WorkOnStep(s1, 1);
    }
  }

  /** A start that is latched before its last look at the latch issues a stop as its last command and answers "cancelled",
      if that stop goes well. */
  lemma LatchedStartIsCancelled(s: State)
    requires s.latched && MayStillStart(s.pc)
    ensures var t, id := Run(s, FineSteps(6)), Current(s);
      && t.pc.Idle? && |t.trace| >= |s.trace| + 2 && s.trace <= t.trace
      && t.trace[|t.trace| - 2..] == [Issued(id, Stop), Returned(id, IsCancelled)]
      && (forall j :: |s.trace| <= j < |t.trace| - 2 ==> t.trace[j] == Issued(id, Trigger) || t.trace[j] == Checked(id, true))
  {
    hide Work, WorkOn;
    var n := ToCompensate(s.pc);
    RunFine(s, 6);
    FindsTheLatch(s);
    var s1 := WorkOn(s, n);
    FineCompensation(s1);
    IdleStays(WorkOn(s1, 3), 3 - n);
    WorkOnMore(s, n, 6 - n);
    WorkOnMore(s1, 3, 3 - n);
  }

  /** A start whose start process is not done in time latches, stops, and answers with an error. */
  lemma LateStartGivesUp(s: State)
    requires s.pc.StartWait?
    ensures var t, id := WorkOn(Work(s, TimedOut), 4), Current(s);
      && t.pc.Idle? && t.latched && t.process == None
      && t.trace == s.trace + [Latched, Issued(id, Stop), Returned(id, Raised)]
  {
    var s1 := Work(s, TimedOut);
    var s2 := Work(s1, Fine);
    var s3 := Work(s2, Fine);
    var s4 := Work(s3, Fine);
    WorkOnStep(s1, 4);
    WorkOnStep(s2, 3);
    WorkOnStep(s3, 2);
    WorkOnStep(s4, 1);
  }

  /** Any other command or wait that goes wrong before anything is latched ends the start with an error, and without a
      stop. */
  lemma FailedStartRaises(s: State, outcome: Outcome)
    requires !s.latched && s.generation == 0 && MayStillStart(s.pc) && s.pc.generation == 0
    requires match s.pc
      case Queued(_) => outcome.Raises?
      case StartWait(_) => outcome.Raises? || outcome.Bad?
      case MissionReady(_) => outcome.Raises?
      case MissionWait(_) => !outcome.Fine?
      case Listening(_) => outcome.Raises? || outcome.TimedOut?
      case TriggerWait(_) => !outcome.Fine?
      case _ => false
    ensures var t, id := WorkOn(Work(s, outcome), 1), Current(s);
      && t.pc.Idle? && !t.latched && t.trace != [] && t.trace[|t.trace| - 1] == Returned(id, Raised)
      && forall j :: |s.trace| <= j < |t.trace| && t.trace[j].Issued? ==> !t.trace[j].command.Stop?
  {
    WorkOnStep(Work(s, outcome), 1);
  }
}
