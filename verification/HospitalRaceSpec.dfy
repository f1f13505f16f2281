/** Starting the hospital mission while it may be stopped. Each step is a region under the client's lock, or one external
    command of the single lifecycle worker; stops come from other threads at any time. */
module HospitalRaceSpec {
  import opened SafetyTypes

  /** `Start` and `MissionStart` spawn a process, `Trigger` calls the start service, `Stop` undoes them all. */
  datatype Command = Start | MissionStart | Trigger | Stop

  datatype Result = IsRunning | IsCancelled | Raised

  /** Events of the start numbered `id`, and the latch. `Checked` is the last look at the latch before "running". */
  datatype Event = Latched | Issued(id: nat, command: Command) | Checked(id: nat, cancelled: bool) | Returned(id: nat, result: Result)

  /** How a command or a wait turns out. */
  datatype Outcome = Fine | Bad | TimedOut | Raises

  /** Where the worker stands in a start that was admitted under `generation`. */
  datatype Pc =
    | Idle
    | Queued(generation: nat)
    | StartWait(generation: nat)
    | StartDone(generation: nat)
    | MissionReady(generation: nat)
    | MissionWait(generation: nat)
    | Listening(generation: nat)
    | TriggerReady(generation: nat)
    | TriggerWait(generation: nat)
    | FinalCheck(generation: nat)
    | Compensate
    | CompensateWait
    | GiveUp
    | GiveUpStop
    | GiveUpWait
    | Leaving(result: Result)

  datatype State = State(
    hasTransport: bool,
    generation: nat,
    latched: bool,
    starts: nat,
    process: Option<nat>,
    pc: Pc,
    trace: seq<Event>)

  function Init(hasTransport: bool): State {
    State(hasTransport, 0, false, 0, None, Idle, [])
  }

  // ----- regions under the lock -----

  function LatchStop(s: State): State {
    s.(generation := s.generation + 1, latched := true, trace := s.trace + [Latched])
  }

  function WasCancelled(s: State, generation: nat): bool {
    s.latched || generation != s.generation
  }

  /** Admit a start unless stopped, or unless the last one is still at work. */
  function StartNowait(s: State, submitted: bool): (State, bool) {
    if s.latched || !s.pc.Idle? || !submitted then (s, false)
    else (s.(pc := Queued(s.generation), starts := s.starts + 1), true)
  }

  function Current(s: State): nat {
    if s.starts == 0 then 0 else s.starts - 1
  }

  function Issue(s: State, command: Command): State {
    s.(trace := s.trace + [Issued(Current(s), command)])
  }

  /** The check and the spawn of a start or mission-start process are one region; a start is registered in it too. */
  function SpawnUnlessCancelled(s: State, generation: nat, command: Command): (State, bool) {
    if WasCancelled(s, generation) then (s, false)
    else
      var t := Issue(s, command);
      (if command.Start? then t.(process := Some(Current(s))) else t, true)
  }

  // ----- the worker -----

  function CheckThen(s: State, generation: nat, next: Pc): State {
    if WasCancelled(s, generation) then s.(pc := Compensate) else s.(pc := next)
  }

  /** One step of the worker; `outcome` is what the command or the wait it is in comes to. */
  function Work(s: State, outcome: Outcome): State {
    match s.pc
    case Idle => s
    case Queued(g) =>
      var (t, spawned) := SpawnUnlessCancelled(s, g, Start);
      if !spawned then t.(pc := Compensate) else if outcome.Raises? then t.(process := None, pc := Leaving(Raised)) else t.(pc := StartWait(g))
    case StartWait(g) =>
      if outcome.TimedOut? then s.(pc := GiveUp)
      else
        var t := s.(process := None);
        if outcome.Raises? then t.(pc := Leaving(Raised))
        else if WasCancelled(t, g) then t.(pc := Compensate)
        else if outcome.Bad? then t.(pc := Leaving(Raised))
        else t.(pc := StartDone(g))
    case StartDone(g) => CheckThen(s, g, if s.hasTransport then Listening(g) else MissionReady(g))
    case MissionReady(g) =>
      var (t, spawned) := SpawnUnlessCancelled(s, g, MissionStart);
      if !spawned then t.(pc := Compensate) else if outcome.Raises? then t.(pc := Leaving(Raised)) else t.(pc := MissionWait(g))
    case MissionWait(g) =>
      if outcome.TimedOut? || outcome.Raises? then s.(pc := Leaving(Raised))
      else if WasCancelled(s, g) then s.(pc := Compensate)
      else if outcome.Bad? then s.(pc := Leaving(Raised))
      else s.(pc := FinalCheck(g))
    case Listening(g) =>
      if outcome.Raises? || outcome.TimedOut? then s.(pc := Leaving(Raised))
      else CheckThen(s, g, if outcome.Fine? then TriggerReady(g) else Listening(g))
    case TriggerReady(g) => Issue(s, Trigger).(pc := TriggerWait(g))
    case TriggerWait(g) => if outcome.Fine? then s.(pc := FinalCheck(g)) else s.(pc := Leaving(Raised))
    case FinalCheck(g) =>
      var cancelled := WasCancelled(s, g);
      s.(trace := s.trace + [Checked(Current(s), cancelled)], pc := if cancelled then Compensate else Leaving(IsRunning))
    case Compensate => Issue(s, Stop).(pc := CompensateWait)
    case CompensateWait => s.(pc := Leaving(if outcome.Fine? then IsCancelled else Raised))
    case GiveUp => LatchStop(s).(pc := GiveUpStop)
    case GiveUpStop => Issue(s, Stop).(pc := GiveUpWait)
    case GiveUpWait => s.(process := None, pc := Leaving(Raised))
    case Leaving(result) => s.(trace := s.trace + [Returned(Current(s), result)], pc := Idle)
  }

  datatype Step = DoStartNowait(submitted: bool) | DoLatch | DoWork(outcome: Outcome)

  function Next(s: State, step: Step): State {
    match step
    case DoStartNowait(submitted) => StartNowait(s, submitted).0
    case DoLatch => LatchStop(s)
    case DoWork(outcome) => Work(s, outcome)
  }

  function Run(s: State, steps: seq<Step>): State
    decreases |steps|
  {
    if steps == [] then s else Run(Next(s, steps[0]), steps[1..])
  }

  // ----- what an observer may conclude from a trace -----

  /** The commands of one start, oldest first. */
  function CommandsOf(t: seq<Event>, id: nat): seq<Command> {
    if t == [] then []
    else
      var before, last := CommandsOf(t[..|t| - 1], id), t[|t| - 1];
      if last.Issued? && last.id == id then before + [last.command] else before
  }

  function Triggers(t: seq<Event>): nat {
    if t == [] then 0
    else Triggers(t[..|t| - 1]) + (if t[|t| - 1].Issued? && t[|t| - 1].command.Trigger? then 1 else 0)
  }

  predicate EndsInStop(commands: seq<Command>) {
    commands != [] && commands[|commands| - 1] == Stop
  }

  /** No process that starts something is spawned after the latch. */
  ghost predicate NoSpawnAfterLatch(t: seq<Event>) {
    forall i, j :: 0 <= i < j < |t| && t[i].Latched? && t[j].Issued? ==> t[j].command.Stop? || t[j].command.Trigger?
  }

  /** The outcome of a start is honest: "cancelled" only when its last command was a stop, "running" only when its last
      check came before any latch. */
  ghost predicate HonestOutcomes(t: seq<Event>) {
    && (forall j :: 0 <= j < |t| && t[j].Returned? && t[j].result.IsCancelled? ==> EndsInStop(CommandsOf(t[..j], t[j].id)))
    && (forall j :: 0 <= j < |t| && t[j].Returned? && t[j].result.IsRunning? ==> Passed(t[..j], t[j].id))
  }

  ghost predicate Passed(t: seq<Event>, id: nat) {
    exists i :: 0 <= i < |t| && t[i] == Checked(id, false) && Latched !in t[..i]
  }

  /** After its last check a start can only stop. */
  ghost predicate ChecksAreLast(t: seq<Event>) {
    forall i, j :: 0 <= i < j < |t| && t[i].Checked? && t[j].Issued? && t[i].id == t[j].id ==> t[j].command.Stop?
  }

  ghost predicate Unchecked(t: seq<Event>, id: nat) {
    forall i :: 0 <= i < |t| && t[i].Checked? ==> t[i].id != id
  }

  /** Events never run ahead of the starts admitted. */
  ghost predicate Numbered(t: seq<Event>, n: nat) {
    forall j :: 0 <= j < |t| ==> t[j].Latched? || t[j].id < n
  }

  // ----- the inductive invariant -----

  ghost predicate Stands(s: State) {
    match s.pc
    case Leaving(result) =>
      && (result.IsCancelled? ==> EndsInStop(CommandsOf(s.trace, Current(s))))
      && (result.IsRunning? ==> Passed(s.trace, Current(s)))
    case CompensateWait => EndsInStop(CommandsOf(s.trace, Current(s)))
    case _ => true
  }

  predicate MayStillStart(pc: Pc) {
    pc.Queued? || pc.StartWait? || pc.StartDone? || pc.MissionReady? || pc.MissionWait? || pc.Listening? || pc.TriggerReady?
    || pc.TriggerWait? || pc.FinalCheck?
  }

  /** Only a client with a transport waits for odometry or triggers. */
  predicate OnPath(s: State) {
    s.pc.Listening? || s.pc.TriggerReady? || s.pc.TriggerWait? ==> s.hasTransport
  }

  predicate Registered(s: State) {
    s.process == (if s.pc.StartWait? || s.pc.GiveUp? || s.pc.GiveUpStop? || s.pc.GiveUpWait? then Some(Current(s)) else None)
  }

  ghost predicate Inv(s: State) {
    && (s.latched <==> Latched in s.trace) && (s.latched <==> s.generation > 0)
    && (s.pc.Idle? || s.starts > 0)
    && OnPath(s)
    && Numbered(s.trace, s.starts) && NoSpawnAfterLatch(s.trace) && HonestOutcomes(s.trace) && ChecksAreLast(s.trace)
    && (MayStillStart(s.pc) ==> Unchecked(s.trace, Current(s)))
    && Stands(s) && Registered(s)
  }

  // ----- a second invariant: what a start has done by the time it answers -----

  /** The commands that start the mission. */
  function Path(hasTransport: bool): seq<Command> {
    [Start, if hasTransport then Trigger else MissionStart]
  }

  /** The whole path was commanded, and then the last look at the latch passed. */
  ghost predicate Served(t: seq<Event>, id: nat, hasTransport: bool) {
    && CommandsOf(t, id) == Path(hasTransport)
    && exists i :: 0 <= i < |t| && t[i] == Checked(id, false) && CommandsOf(t[..i], id) == Path(hasTransport) && Latched !in t[..i]
  }

  /** "Running" is answered only by a start that was served, "cancelled" only after a latch. */
  ghost predicate EarnedOutcomes(t: seq<Event>, hasTransport: bool) {
    && (forall j :: 0 <= j < |t| && t[j].Returned? && t[j].result.IsRunning? ==> Served(t[..j], t[j].id, hasTransport))
    && (forall j :: 0 <= j < |t| && t[j].Returned? && t[j].result.IsCancelled? ==> Latched in t[..j])
  }

  /** The commands given so far, by where the worker stands. */
  ghost predicate Made(s: State) {
    var commands := CommandsOf(s.trace, Current(s));
    match s.pc
    case Queued(_) => commands == []
    case StartWait(_) => commands == [Start]
    case StartDone(_) => commands == [Start]
    case MissionReady(_) => commands == [Start] && !s.hasTransport
    case MissionWait(_) => commands == Path(s.hasTransport) && !s.hasTransport
    case Listening(_) => commands == [Start]
    case TriggerReady(_) => commands == [Start]
    case TriggerWait(_) => commands == Path(s.hasTransport)
    case FinalCheck(_) => commands == Path(s.hasTransport)
    case Compensate => s.latched
    case CompensateWait => s.latched
    case Leaving(result) =>
      (result.IsRunning? ==> Served(s.trace, Current(s), s.hasTransport)) && (result.IsCancelled? ==> s.latched)
    case _ => true
  }

  ghost predicate Earned(s: State) {
    EarnedOutcomes(s.trace, s.hasTransport) && Made(s) && (MayStillStart(s.pc) ==> s.pc.generation == 0)
  }
}
