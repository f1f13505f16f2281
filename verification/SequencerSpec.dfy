/** The activation sequencer as a transition system. Every function below is one region executed under the
    sequencer's condition; threads interleave only between them. Receipts are numbered in the order they enter
    the queue, and `trace` records what an outside observer sees. */
module SequencerSpec {
  import opened SafetyTypes

  const QUEUE_CAPACITY: nat := 16

  datatype Refusal = ProfileInvalid | UnsafeState | Latched | Timeout

  datatype Outcome = Returned | CommandRaised | Rejected(code: Refusal)

  datatype Thread = Absent | Alive | Dead

  /** Where the worker loop stands: at the top, with a command in its hands but not yet called (the call is outside the
      condition), inside it, after it but before the closing region that clears the in-flight slot, or terminated. */
  datatype WorkerPc = AtTop | Taken(id: nat) | Calling(id: nat) | Settling(id: nat) | Gone

  /** A capability; only the sequencer itself can make an owned one. */
  datatype Permit = Owned(generation: nat) | Foreign

  datatype Spawn = Raises | StillDead | Runs

  datatype Event =
    | LatchSet
    | Took(id: nat)
    | Started(id: nat)
    | Ended(id: nat)
    | OwnedRan
    | ZeroTried(accepted: bool)
    | StopSampled(quiesced: bool)

  datatype State = State(
    thread: Thread,
    worker: WorkerPc,
    accepting: bool,
    closed: bool,
    failed: bool,
    generation: nat,
    latched: bool,
    queue: seq<nat>,
    inFlight: Option<nat>,
    unfinished: int,
    issued: seq<nat>,
    outcomes: map<nat, Outcome>,
    taken: nat,
    invoked: seq<nat>,
    trace: seq<Event>)

  const INIT: State := State(Absent, AtTop, false, false, false, 0, false, [], None, 0, [], map[], 0, [], [])

  // ----- regions -----

  function Complete(s: State, id: nat, outcome: Outcome): State {
    if id in s.outcomes then s else s.(outcomes := s.outcomes[id := outcome])
  }

  /** `outcomes` after every receipt in `queue` that has no outcome yet is refused with `code`. */
  function RefuseAll(outcomes: map<nat, Outcome>, queue: seq<nat>, code: Refusal): map<nat, Outcome> {
    map id | id in outcomes.Keys + (set q | q in queue) :: if id in outcomes then outcomes[id] else Rejected(code)
  }

  function RejectQueued(s: State, code: Refusal): State {
    s.(queue := [], unfinished := s.unfinished - |s.queue|, outcomes := RefuseAll(s.outcomes, s.queue, code))
  }

  function Latch(s: State, code: Refusal): State {
    RejectQueued(s.(generation := s.generation + 1, latched := true, trace := s.trace + [LatchSet]), code)
  }

  /** Whether the worker may take commands; finding it dead is itself a failure that latches. */
  function CheckWorker(s: State): (State, bool) {
    if s.thread.Absent? || !s.accepting || s.closed || s.failed || s.thread.Dead? then
      (if s.thread.Dead? && !s.closed then Latch(s.(failed := true, accepting := false), UnsafeState) else s, false)
    else (s, true)
  }

  function Start(s: State, spawn: Spawn): (State, bool) {
    if !s.thread.Absent? then CheckWorker(s)
    else if s.closed || s.failed then (s, false)
    else if spawn.Runs? then (s.(thread := Alive, accepting := true), true)
    else (s.(failed := true), false)
  }

  function Issue(s: State): (State, Result<Permit, Refusal>) {
    if s.closed || s.failed then (s, Err(UnsafeState))
    else
      var (t, ready) := if s.thread.Absent? then (s, true) else CheckWorker(s);
      if !ready then (t, Err(UnsafeState))
      else if t.latched then (t, Err(Latched))
      else (t, Ok(Owned(t.generation)))
  }

  /** The common gate of a queued and of an inline activation. */
  function Admit(s: State, permit: Permit): (State, Result<nat, Refusal>) {
    if permit.Foreign? then (s, Err(ProfileInvalid))
    else
      var (t, ready) := CheckWorker(s);
      if !ready then (t, Err(UnsafeState))
      else if t.latched || permit.generation != t.generation then (t, Err(Latched))
      else (t, Ok(permit.generation))
  }

  function Submit(s: State, finite: bool, callable: bool, permit: Permit): (State, Result<nat, Refusal>) {
    if !finite || !callable then (s, Err(ProfileInvalid))
    else
      var (t, admitted) := Admit(s, permit);
      if admitted.Err? then (t, admitted)
      else if |t.queue| >= QUEUE_CAPACITY then (Latch(t, Refusal.Latched), Err(UnsafeState))
      else
        var id := |t.issued|;
        (t.(queue := t.queue + [id], unfinished := t.unfinished + 1, issued := t.issued + [admitted.value]), Ok(id))
  }

  /** The submitter of `id` gave up waiting. */
  function TimeOut(s: State, id: nat): State {
    if id in s.outcomes then s else Latch(Complete(s, id, Rejected(Timeout)), Refusal.Latched)
  }

  function SubmitOwned(s: State, callable: bool, permit: Permit): (State, Result<nat, Refusal>) {
    if !callable then (s, Err(ProfileInvalid))
    else
      var (t, admitted) := Admit(s, permit);
      if admitted.Err? then (t, admitted) else (t.(trace := t.trace + [OwnedRan]), admitted)
  }

  /** First region of a stop: latch, then hand the zero command over while still holding the condition. */
  function LatchAndZero(s: State, zeroAccepted: bool): State {
    var t := Latch(s, Refusal.Latched);
    t.(trace := t.trace + [ZeroTried(zeroAccepted)])
  }

  /** Last region of a stop: whether anything is still in flight when the wait is over. */
  function Sample(s: State): (State, bool) {
    (s.(trace := s.trace + [StopSampled(s.inFlight.None?)]), s.inFlight.None?)
  }

  function StopOutcome(quiesced: bool, zeroAccepted: bool): StopResult {
    StopResult(true, quiesced, zeroAccepted,
      if !quiesced then TransportUnquiesced else if zeroAccepted then EstopLatched else SafetyCommandRejected)
  }

  /** What a stop answers when the zero command it is given cannot be called: nothing at all is latched. */
  const UNCALLABLE_ZERO: StopResult := StopResult(true, true, false, SafetyCommandRejected)

  function BeginClose(s: State): State {
    if s.closed then s
    else
      RejectQueued(
        s.(closed := true, accepting := false, generation := s.generation + 1, latched := true,
           trace := s.trace + [LatchSet]),
        UnsafeState)
  }

  /** One pass of the worker through its top region, with work in the queue. */
  function Take(s: State): State
    requires s.queue != []
  {
    var id := s.queue[0];
    var popped := s.(queue := s.queue[1..]);
    if s.latched || (id < |s.issued| && s.issued[id] != s.generation) then
      var done := Complete(popped, id, Rejected(Refusal.Latched));
      done.(unfinished := done.unfinished - 1)
    else
      popped.(inFlight := Some(id), worker := Taken(id), taken := s.taken + 1, trace := s.trace + [Took(id)])
  }

  /** The call of the command taken, outside the condition: anything may have happened since. */
  function Call(s: State, id: nat): State {
    s.(worker := Calling(id), invoked := s.invoked + [id], trace := s.trace + [Started(id)])
  }

  /** A command that raises takes the whole sequencer down with it. */
  function FailClosed(s: State): State {
    RejectQueued(
      s.(failed := true, accepting := false, generation := s.generation + 1, latched := true,
         trace := s.trace + [LatchSet]),
      UnsafeState)
  }

  /** The command `id` came back, with a value or by raising. */
  function CommandEnds(s: State, id: nat, raised: bool): State {
    var t := s.(worker := Settling(id), trace := s.trace + [Ended(id)]);
    if raised then FailClosed(Complete(t, id, CommandRaised)) else Complete(t, id, Returned)
  }

  function Settle(s: State, id: nat): State {
    s.(worker := AtTop, inFlight := if s.inFlight == Some(id) then None else s.inFlight, unfinished := s.unfinished - 1)
  }

  // ----- runs -----

  datatype Step =
    | DoStart(spawn: Spawn)
    | DoIssue
    | DoSubmit(finite: bool, callable: bool, permit: Permit)
    | DoTimeOut(id: nat)
    | DoOwned(callable: bool, permit: Permit)
    | DoLatchAndZero(zeroAccepted: bool)
    | DoSample
    | DoBeginClose
    | DoTake
    | DoCall
    | DoExit
    | DoCommandEnds(raised: bool)
    | DoSettle
    | DoDie

  /** One atomic step; a step that is not enabled leaves the state alone. `DoDie` is an abnormal end of the worker
      thread at any point. A stop is sampled only by a thread that latched before. */
  function Next(s: State, step: Step): State {
    match step
    case DoStart(spawn) => Start(s, spawn).0
    case DoIssue => Issue(s).0
    case DoSubmit(finite, callable, permit) => Submit(s, finite, callable, permit).0
    case DoTimeOut(id) => if id < |s.issued| then TimeOut(s, id) else s
    case DoOwned(callable, permit) => SubmitOwned(s, callable, permit).0
    case DoLatchAndZero(zeroAccepted) => LatchAndZero(s, zeroAccepted)
    case DoSample => if s.latched then Sample(s).0 else s
    case DoBeginClose => BeginClose(s)
    case DoTake => if s.thread.Alive? && s.worker.AtTop? && s.queue != [] then Take(s) else s
    case DoCall => if s.thread.Alive? && s.worker.Taken? then Call(s, s.worker.id) else s
    case DoExit =>
      if s.thread.Alive? && s.worker.AtTop? && s.queue == [] && !s.accepting then s.(thread := Dead, worker := Gone)
      else s
    case DoCommandEnds(raised) => if s.thread.Alive? && s.worker.Calling? then CommandEnds(s, s.worker.id, raised) else s
    case DoSettle => if s.thread.Alive? && s.worker.Settling? then Settle(s, s.worker.id) else s
    case DoDie => if s.thread.Alive? then s.(thread := Dead, worker := Gone) else s
  }

  function Run(s: State, steps: seq<Step>): State
    decreases |steps|
  {
    if steps == [] then s else Run(Next(s, steps[0]), steps[1..])
  }

  // ----- what observers may conclude from a trace -----

  predicate IsActivation(e: Event) {
    e.Started? || e.OwnedRan?
  }

  /** Commands that have been started and have not come back. */
  function OpenCommands(t: seq<Event>): set<nat> {
    if t == [] then {}
    else
      var before := OpenCommands(t[..|t| - 1]);
      match t[|t| - 1]
      case Started(id) => before + {id}
      case Ended(id) => before - {id}
      case _ => before
  }

  /** The command that has been taken and not yet started. */
  function InHand(t: seq<Event>): Option<nat> {
    if t == [] then None
    else
      match t[|t| - 1]
      case Took(id) => Some(id)
      case Started(_) => None
      case _ => InHand(t[..|t| - 1])
  }

  ghost predicate NoActivationFrom(t: seq<Event>, from: nat) {
    forall j :: from <= j < |t| ==> !IsActivation(t[j])
  }

  /** An activation after a latch is the start of the one command that was in hand at the latch, and the last one. */
  ghost predicate LateStarts(t: seq<Event>) {
    forall i, j :: 0 <= i < j < |t| && t[i] == LatchSet && IsActivation(t[j]) ==>
      t[j].Started? && InHand(t[..i]) == Some(t[j].id) && NoActivationFrom(t, j + 1)
  }

  ghost predicate QuiescedIsFinal(t: seq<Event>) {
    forall i :: 0 <= i < |t| && t[i] == StopSampled(true) ==>
      OpenCommands(t[..i]) == {} && InHand(t[..i]) == None && NoActivationFrom(t, i)
  }

  /** The command in hand was in hand at every latch, and nothing was activated since. */
  ghost predicate Pinned(t: seq<Event>, id: nat) {
    && StopSampled(true) !in t
    && forall i :: 0 <= i < |t| && t[i] == LatchSet ==> InHand(t[..i]) == Some(id) && NoActivationFrom(t, i)
  }

  // ----- the inductive invariant -----

  ghost predicate Queued(s: State) {
    && |s.queue| <= QUEUE_CAPACITY
    && |s.invoked| <= s.taken <= |s.issued|
    && s.taken <= |s.invoked| + 1
    && (forall k :: 0 <= k < |s.invoked| ==> s.invoked[k] == k)
    && (s.latched ==> s.queue == [])
    && (!s.latched ==> |s.queue| == |s.issued| - s.taken)
    && (forall k :: 0 <= k < |s.queue| ==> s.queue[k] == s.taken + k)
    && (forall k :: 0 <= k < |s.issued| ==> s.issued[k] == 0)
    && (s.latched <==> s.generation > 0)
  }

  ghost predicate Accounted(s: State) {
    && (forall id :: id in s.outcomes ==> id < |s.issued|)
    && (forall id :: id in s.queue ==> id !in s.outcomes)
    && (forall id: nat :: id < |s.issued| && id !in s.outcomes ==> id in s.queue || s.inFlight == Some(id))
    && s.unfinished == |s.queue| + (if s.inFlight.Some? then 1 else 0)
  }

  ghost predicate Worker(s: State) {
    && (s.thread.Absent? ==> s.worker.AtTop? && !s.accepting && s.issued == [])
    && (s.thread.Dead? <==> s.worker.Gone?)
    && (s.worker.AtTop? ==> s.inFlight == None)
    && (s.worker.Taken? ==> s.inFlight == Some(s.worker.id) && InHand(s.trace) == Some(s.worker.id) && OpenCommands(s.trace) == {})
    && (s.worker.Taken? || s.worker.Gone? || (s.taken == |s.invoked| && InHand(s.trace) == None))
    && (s.worker.Taken? ==> s.taken == |s.invoked| + 1)
    && (s.worker.Calling? ==> s.inFlight == Some(s.worker.id))
    && (s.worker.Settling? ==> s.inFlight == Some(s.worker.id) && s.worker.id in s.outcomes && OpenCommands(s.trace) == {})
    && (s.inFlight.Some? ==> s.taken > 0 && s.inFlight.value == s.taken - 1)
  }

  ghost predicate Observed(s: State) {
    && (s.latched <==> LatchSet in s.trace)
    && LateStarts(s.trace)
    && QuiescedIsFinal(s.trace)
    && (s.inFlight.None? ==> OpenCommands(s.trace) == {} && InHand(s.trace) == None)
    && (InHand(s.trace).Some? ==> Pinned(s.trace, InHand(s.trace).value))
    && (s.inFlight.Some? ==> OpenCommands(s.trace) <= {s.inFlight.value})
    && (forall i :: 0 <= i < |s.trace| && s.trace[i].StopSampled? ==> s.latched)
  }

  ghost predicate Inv(s: State) {
    Queued(s) && Accounted(s) && Worker(s) && Observed(s)
  }
}
