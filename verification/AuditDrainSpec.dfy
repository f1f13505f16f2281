/** How the controller turns gateway transitions into an ordered log. Many threads register transitions in any order
    and race to drain them; one at a time owns the drain and appends through the audit worker, whose writer may write all
    of a record, none of it, or part. Each function on `Shared` is one region under the transition condition. */
module AuditDrainSpec {
  import opened SafetyTypes
  import opened AuditRecords
  import F = AuditFile
  import G = GatewaySpec

  /** What the regions read and write. `owner` is the thread that set the draining flag. */
  datatype Shared = Shared(
    log: seq<G.Transition>,
    next: nat,
    pending: map<nat, Item>,
    failure: bool,
    owner: Option<nat>)

  /** Register a transition: `false` is the error the call raises. */
  function Register(s: Shared, sequence: nat, item: Item): (Shared, bool) {
    if s.failure then (s, false)
    else if sequence < s.next then (s, true)
    else if sequence in s.pending && s.pending[sequence] != item then (s, false)
    else (s.(pending := s.pending[sequence := item]), true)
  }

  /** The gateway hands out only what its bounded history still holds. */
  predicate Retained(s: Shared, sequence: nat) {
    sequence < |s.log| && |s.log| - sequence <= G.HISTORY_CAPACITY
  }

  function NextItem(s: Shared): Option<Item> {
    if s.next in s.pending then Some(s.pending[s.next])
    else if Retained(s, s.next) then InferredFault(s.log[s.next])
    else None
  }

  datatype Decision = Fail | Return | Append(item: Item) | GiveUp | Wait

  /** What a draining thread does when it has the condition. */
  function Decide(s: Shared, waitFor: Option<nat>, owns: bool, timedOut: bool): Decision {
    var item := NextItem(s);
    if s.failure then Fail
    else if waitFor.Some? && waitFor.value < s.next && (!owns || item.None?) then Return
    else if item.Some? && (owns || s.owner.None?) then Append(item.value)
    else if waitFor.None? && s.pending == map[] && (owns || s.owner.None?) then Return
    else if timedOut then GiveUp
    else Wait
  }

  function Committed(s: Shared): Shared {
    s.(pending := s.pending - {s.next}, next := s.next + 1)
  }

  // ----- threads -----

  datatype Ending = Normally | Raising | TimingOut

  /** The writer at work on one record: how long it is when encoded, and what the system calls do. */
  datatype Attempt = Attempt(item: Item, length: nat, script: F.Script)

  predicate Whole(a: Attempt) {
    F.Left(a.length, a.script) == a.length
  }

  predicate Torn(a: Attempt) {
    F.Tears(a.length, a.script)
  }

  /** The writer reports the record as appended. */
  predicate Done(a: Attempt) {
    F.Outcome(a.length, a.script).Appended?
  }

  datatype Thread =
    | Draining(waitFor: Option<nat>, owns: bool)
    | Appending(waitFor: Option<nat>, item: Item, attempt: Option<Attempt>)
    | Releasing(waitFor: Option<nat>, owns: bool, ending: Ending)
    | RecordingFailure
    | Returned(waitFor: Option<nat>)
    | Raised

  /** What happens outside, in order: a whole record reaches the file, or the adapter is started for a transition. */
  datatype Event = Wrote(sequence: nat) | AdapterStarted(sequence: nat)

  /** `attempts` is what the writer has worked on, `written` the records it has put into the file whole; `doubt` is an
      append that was reported as failed while the worker may still carry it out. */
  datatype State = State(
    mode: G.Mode,
    shared: Shared,
    attempts: seq<Attempt>,
    written: seq<Item>,
    doubt: Option<Item>,
    threads: map<nat, Thread>,
    events: seq<Event>)

  function Init(mode: G.Mode): State {
    State(mode, Shared([], 0, map[], false, None), [], [], None, map[], [])
  }

  datatype Step =
    | GatewayMoves(after: SafetyState, stop: Option<StopResult>)
    | Registers(sequence: nat)
    | Enters(thread: nat, waitFor: Option<nat>)
    | Decides(thread: nat, timedOut: bool)
    | WriterRuns(thread: nat, length: nat, script: F.Script)
    | AppendReturns(thread: nat)
    | AppendFails(thread: nat)
    | WriterRunsLate(length: nat, script: F.Script)
    | Releases(thread: nat)
    | RecordsFailure(thread: nat)
    | StartsAdapter(thread: nat)

  function StateAfter(log: seq<G.Transition>): SafetyState {
    if log == [] then NEW else log[|log| - 1].after
  }

  function Decided(s: State, c: nat, waitFor: Option<nat>, owns: bool, timedOut: bool): State {
    match Decide(s.shared, waitFor, owns, timedOut)
    case Fail => s.(threads := s.threads[c := Releasing(waitFor, owns, Raising)])
    case Return => s.(threads := s.threads[c := Releasing(waitFor, owns, Normally)])
    case Append(item) =>
      s.(shared := s.shared.(owner := Some(c)), threads := s.threads[c := Appending(waitFor, item, None)])
    case GiveUp => s.(threads := s.threads[c := Releasing(waitFor, owns, TimingOut)])
    case Wait => s
  }

  function Released(s: State, c: nat, waitFor: Option<nat>, owns: bool, ending: Ending): State {
    var after := match ending case Normally => Returned(waitFor) case Raising => Raised case TimingOut => RecordingFailure;
    s.(shared := if owns then s.shared.(owner := None) else s.shared, threads := s.threads[c := after])
  }

  /** The writer's work on a record, to its end or the end of the process. */
  function Write(s: State, a: Attempt): State {
    var t := s.(attempts := s.attempts + [a]);
    if Whole(a) then t.(written := s.written + [a.item], events := s.events + [Wrote(|s.written|)]) else t
  }

  /** The thread has appended the transition into RUNNING and goes on to start the adapter. */
  predicate MayStartAdapter(s: State, c: nat) {
    && c in s.threads && s.threads[c].Returned? && s.threads[c].waitFor.Some?
    && s.threads[c].waitFor.value < |s.shared.log|
    && s.shared.log[s.threads[c].waitFor.value].before == ARMED && s.shared.log[s.threads[c].waitFor.value].after == RUNNING
  }

  function Next(s: State, step: Step): State {
    match step
    case GatewayMoves(after, stop) =>
      var t := G.Transition(|s.shared.log|, StateAfter(s.shared.log), after, stop);
      if G.LegalMove(t, s.mode) then s.(shared := s.shared.(log := s.shared.log + [t])) else s
    case Registers(i) =>
      if Retained(s.shared, i) then s.(shared := Register(s.shared, i, ItemFor(s.shared.log[i])).0) else s
    case Enters(c, waitFor) => if c in s.threads then s else s.(threads := s.threads[c := Draining(waitFor, false)])
    case Decides(c, timedOut) =>
      if c in s.threads && s.threads[c].Draining? then Decided(s, c, s.threads[c].waitFor, s.threads[c].owns, timedOut) else s
    case WriterRuns(c, length, script) =>
      if c in s.threads && s.threads[c].Appending? && s.threads[c].attempt.None? && length > 0 then
        var a := Attempt(s.threads[c].item, length, script);
        Write(s, a).(threads := s.threads[c := s.threads[c].(attempt := Some(a))])
      else s
    case AppendReturns(c) =>
      if c in s.threads && s.threads[c].Appending? && s.threads[c].attempt.Some? && Done(s.threads[c].attempt.value) then
        s.(shared := Committed(s.shared), threads := s.threads[c := Draining(s.threads[c].waitFor, true)])
      else s
    case AppendFails(c) =>
      if c in s.threads && s.threads[c].Appending? then
        s.(shared := s.shared.(failure := true),
           doubt := if s.threads[c].attempt.Some? then None else Some(s.threads[c].item),
           threads := s.threads[c := Releasing(s.threads[c].waitFor, true, Raising)])
      else s
    case WriterRunsLate(length, script) =>
      if s.doubt.Some? && length > 0 then Write(s, Attempt(s.doubt.value, length, script)).(doubt := None) else s
    case Releases(c) =>
      if c in s.threads && s.threads[c].Releasing? then
        Released(s, c, s.threads[c].waitFor, s.threads[c].owns, s.threads[c].ending)
      else s
    case RecordsFailure(c) =>
      if c in s.threads && s.threads[c].RecordingFailure? then
        s.(shared := s.shared.(failure := true), threads := s.threads[c := Raised])
      else s
    case StartsAdapter(c) =>
      if MayStartAdapter(s, c) then s.(events := s.events + [AdapterStarted(s.threads[c].waitFor.value)]) else s
  }

  function Run(s: State, steps: seq<Step>): State
    decreases |steps|
  {
    if steps == [] then s else Run(Next(s, steps[0]), steps[1..])
  }

  // ----- the inductive invariant -----

  predicate Owns(t: Thread) {
    t.Appending? || ((t.Draining? || t.Releasing?) && t.owns)
  }

  ghost predicate LogHolds(s: State) {
    && G.Chained(s.shared.log)
    && (forall i :: 0 <= i < |s.shared.log| ==> G.LegalMove(s.shared.log[i], s.mode))
  }

  ghost predicate PendingHolds(s: Shared) {
    && s.next <= |s.log|
    && (forall i :: i in s.pending ==> s.next <= i < |s.log| && s.pending[i] == ItemFor(s.log[i]))
  }

  ghost predicate OwnerHolds(s: State) {
    && (forall c :: c in s.threads ==> (Owns(s.threads[c]) <==> s.shared.owner == Some(c)))
    && (s.shared.owner.Some? ==> s.shared.owner.value in s.threads)
  }

  predicate AppendUnderWay(s: State) {
    s.shared.owner.Some? && s.shared.owner.value in s.threads && s.threads[s.shared.owner.value].Appending?
  }

  /** The attempts are at the gateway's transitions in order, and all that are behind the drain were reported done. */
  ghost predicate AttemptsHold(s: State) {
    && s.shared.next <= |s.attempts| <= s.shared.next + 1 && |s.attempts| <= |s.shared.log|
    && (forall k :: 0 <= k < |s.attempts| ==> s.attempts[k].item == ItemFor(s.shared.log[k]) && s.attempts[k].length > 0)
    && (forall k :: 0 <= k < s.shared.next ==> Done(s.attempts[k]))
  }

  /** What is written whole is what was attempted, but for a last attempt that is not whole. */
  ghost predicate RecordsHold(s: State) {
    && AttemptsHold(s)
    && |s.written| <= |s.shared.log|
    && (forall i :: 0 <= i < |s.written| ==> s.written[i] == ItemFor(s.shared.log[i]))
    && |s.written| == s.shared.next + (if |s.attempts| > s.shared.next && Whole(s.attempts[s.shared.next]) then 1 else 0)
  }

  ghost predicate WrittenHolds(s: State) {
    && RecordsHold(s)
    && (if AppendUnderWay(s) then
          var t := s.threads[s.shared.owner.value];
          && s.shared.next < |s.shared.log| && t.item == ItemFor(s.shared.log[s.shared.next]) && s.doubt.None?
          && (t.attempt.Some? <==> |s.attempts| > s.shared.next)
          && (t.attempt.Some? ==> s.attempts[s.shared.next] == t.attempt.value)
        else if s.shared.failure then
          s.doubt.Some? ==>
            |s.attempts| == s.shared.next < |s.shared.log| && s.doubt.value == ItemFor(s.shared.log[s.shared.next])
        else |s.attempts| == s.shared.next && s.doubt.None?)
  }

  ghost predicate ReturnsHold(s: State) {
    forall c :: c in s.threads ==>
      (s.threads[c].Returned? || (s.threads[c].Releasing? && s.threads[c].ending.Normally?)) ==>
        s.threads[c].waitFor.Some? ==> s.threads[c].waitFor.value < s.shared.next
  }

  ghost predicate StartOnRecord(written: seq<Item>, before: seq<Event>, n: nat) {
    n < |written| && written[n].operation.StartTask? && Wrote(n) in before
  }

  /** Every record written has its event, and an adapter is only started once the start is on record. */
  ghost predicate EventsHold(written: seq<Item>, events: seq<Event>) {
    && (forall n: nat :: n < |written| ==> Wrote(n) in events)
    && (forall j :: 0 <= j < |events| && events[j].AdapterStarted? ==> StartOnRecord(written, events[..j], events[j].sequence))
  }

  ghost predicate Inv(s: State) {
    EventsHold(s.written, s.events) && LogHolds(s) && PendingHolds(s.shared) && OwnerHolds(s) && WrittenHolds(s) && ReturnsHold(s)
  }
}
