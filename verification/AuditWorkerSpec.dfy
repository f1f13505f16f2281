/** The prestarted worker that owns all calls into the audit writer. Each function is one region under its lock, or
    the blocking fetch the worker does outside it. */
module AuditWorkerSpec {
  import opened SafetyTypes

  const QUEUE_CAPACITY: nat := 256

  datatype Thread = Absent | Alive | Dead

  datatype Entry = Receipt(id: nat) | Sentinel

  /** Between the fetch and the locked region that follows it, the worker holds an entry nobody else can see. */
  datatype Pc = Fetching | Holding(entry: Entry) | Writing(id: nat) | Leaving

  datatype Outcome = Written | WriteFailed | TimedOut

  datatype State = State(
    thread: Thread,
    pc: Pc,
    accepting: bool,
    failed: bool,
    stopSet: bool,
    sentinelQueued: bool,
    queue: seq<Entry>,
    inFlight: Option<nat>,
    issued: nat,
    outcomes: map<nat, Outcome>,
    handed: seq<Entry>,
    overflowed: bool)

  const INIT: State := State(Absent, Fetching, false, false, false, false, [], None, 0, map[], [], false)

  predicate Healthy(s: State) {
    s.accepting && !s.failed && s.thread.Alive?
  }

  /** `put_nowait` on a queue of one slot more than the capacity for receipts. */
  function Put(s: State, e: Entry): State {
    if |s.queue| >= QUEUE_CAPACITY + 1 then s.(overflowed := true) else s.(queue := s.queue + [e])
  }

  function RequestStop(s: State): State {
    var t := s.(stopSet := true);
    if t.sentinelQueued then t else Put(t, Sentinel).(sentinelQueued := true)
  }

  function Refuse(outcomes: map<nat, Outcome>, queue: seq<Entry>): map<nat, Outcome> {
    map id | id in outcomes.Keys + (set e | e in queue && e.Receipt? :: e.id) ::
      if id in outcomes then outcomes[id] else WriteFailed
  }

  /** Everything queued refused, a queued stop marker included. */
  function Emptied(s: State): State {
    s.(failed := true, accepting := false, queue := [], outcomes := Refuse(s.outcomes, s.queue),
       sentinelQueued := s.sentinelQueued && Sentinel !in s.queue)
  }

  function Fail(s: State): State {
    RequestStop(Emptied(s))
  }

  function Start(s: State, runs: bool): (State, bool) {
    if !s.thread.Absent? then (s, Healthy(s))
    else if s.failed then (s, false)
    else if !runs then (s.(failed := true, accepting := false), false)
    else (s.(thread := Alive, accepting := true), true)
  }

  function Append(s: State): (State, Option<nat>) {
    if !Healthy(s) then (s, None)
    else if |s.queue| >= QUEUE_CAPACITY then (Fail(s), None)
    else (Put(s, Receipt(s.issued)).(issued := s.issued + 1), Some(s.issued))
  }

  /** The appender of `id` gave up waiting. */
  function TimeOut(s: State, id: nat): State {
    if id in s.outcomes then s else Fail(s.(outcomes := s.outcomes[id := TimedOut]))
  }

  function BeginClose(s: State): State {
    var t := s.(accepting := false);
    if t.thread.Dead? && t.queue == [] && t.inFlight.None? then t else RequestStop(t)
  }

  /** What a close answers after its wait, having found the worker `unstarted` or not when it began. */
  function CloseAnswer(s: State, unstarted: bool): bool {
    unstarted || (s.thread.Dead? && s.queue == [] && s.inFlight.None?)
  }

  function Fetch(s: State): State
    requires s.queue != []
  {
    s.(queue := s.queue[1..], pc := Holding(s.queue[0]))
  }

  function Take(s: State, e: Entry): State {
    match e
    case Sentinel => s.(sentinelQueued := false, pc := Leaving)
    case Receipt(id) => s.(inFlight := Some(id), pc := Writing(id), handed := s.handed + [e])
  }

  function WriteEnds(s: State, id: nat, failed: bool): State {
    var t := if id in s.outcomes then s else s.(outcomes := s.outcomes[id := if failed then WriteFailed else Written]);
    (if failed then Fail(t) else t).(inFlight := None, pc := Fetching)
  }

  datatype Step =
    | DoStart(runs: bool)
    | DoAppend
    | DoTimeOut(id: nat)
    | DoBeginClose
    | DoFetch
    | DoTake
    | DoWriteEnds(failed: bool)
    | DoEnd

  function Next(s: State, step: Step): State {
    match step
    case DoStart(runs) => Start(s, runs).0
    case DoAppend => Append(s).0
    case DoTimeOut(id) => if id < s.issued then TimeOut(s, id) else s
    case DoBeginClose => BeginClose(s)
    case DoFetch => if s.thread.Alive? && s.pc.Fetching? && s.queue != [] then Fetch(s) else s
    case DoTake => if s.thread.Alive? && s.pc.Holding? then Take(s, s.pc.entry) else s
    case DoWriteEnds(failed) => if s.thread.Alive? && s.pc.Writing? then WriteEnds(s, s.pc.id, failed) else s
    case DoEnd => if s.thread.Alive? && s.pc.Leaving? then s.(thread := Dead) else s
  }

  function Run(s: State, steps: seq<Step>): State
    decreases |steps|
  {
    if steps == [] then s else Run(Next(s, steps[0]), steps[1..])
  }

  // ----- the inductive invariant -----

  function Fetched(s: State): seq<Entry> {
    if s.pc.Holding? then [s.pc.entry] else []
  }

  /** Everything that ever entered the queue and was not refused out of it, oldest first. */
  function Line(s: State): seq<Entry> {
    s.handed + Fetched(s) + s.queue
  }

  /** Queued, fetched, or being written. */
  predicate Pending(s: State, e: Entry) {
    e in s.queue || (s.pc.Holding? && s.pc.entry == e) || (s.pc.Writing? && Receipt(s.pc.id) == e)
  }

  predicate Before(e: Entry, f: Entry) {
    if e.Receipt? && f.Receipt? then e.id < f.id else e.Receipt? || f.Receipt?
  }

  /** Receipts in submission order, and at most one stop marker. */
  ghost predicate Sorted(line: seq<Entry>) {
    forall i, j :: 0 <= i < j < |line| ==> Before(line[i], line[j])
  }

  ghost predicate Lined(s: State) {
    && Sorted(Line(s))
    && (forall e :: e in Line(s) && e.Receipt? ==> e.id < s.issued)
    && Sentinel !in s.handed
    && (s.sentinelQueued <==> Sentinel in Fetched(s) + s.queue)
    && (s.pc.Writing? ==> s.handed != [] && s.handed[|s.handed| - 1] == Receipt(s.pc.id))
  }

  /** Once a stop is requested the marker is queued or in the worker's hands until the worker leaves. */
  ghost predicate StopStands(s: State) {
    && (s.stopSet && !s.pc.Leaving? ==> s.sentinelQueued)
    && (s.pc.Leaving? || s.sentinelQueued ==> s.stopSet)
  }

  ghost predicate Roomy(s: State) {
    && !s.overflowed
    && |s.queue| <= QUEUE_CAPACITY + (if Sentinel in s.queue then 1 else 0)
  }

  ghost predicate Accounted(s: State) {
    && (forall id :: id in s.outcomes ==> id < s.issued)
    && (forall id: nat :: id < s.issued && id !in s.outcomes ==> Pending(s, Receipt(id)))
    && s.inFlight == (if s.pc.Writing? then Some(s.pc.id) else None)
    && (s.thread.Absent? ==> s.pc.Fetching? && s.issued == 0)
    && (s.thread.Dead? ==> s.pc.Leaving?)
  }

  ghost predicate Inv(s: State) {
    Lined(s) && StopStands(s) && Roomy(s) && Accounted(s)
  }

  // ----- receipts nobody will serve -----

  predicate Waits(s: State, e: Entry) {
    e.Receipt? && e.id !in s.outcomes
  }

  /** A receipt without an outcome is left in the queue of a worker that has ended. */
  predicate Stranded(s: State) {
    s.thread.Dead? && exists e :: e in s.queue && Waits(s, e)
  }

  /** The worker has the stop marker in its hands, or has taken it. */
  predicate PastMarker(s: State) {
    s.pc.Leaving? || s.pc == Holding(Sentinel)
  }

  /** A receipt without an outcome stands behind the stop marker. */
  predicate Behind(s: State) {
    exists k :: 0 <= k < |s.queue| && Waits(s, s.queue[k]) && (PastMarker(s) || Sentinel in s.queue[..k])
  }

  /** Not started and able to be; or started, told to stop before that, and accepting still; or with a receipt behind the
      stop marker already; or ended with one. */
  predicate CanStrand(s: State) {
    match s.thread
    case Absent => !s.failed
    case Alive => (s.accepting && !s.failed && s.stopSet) || Behind(s)
    case Dead => Stranded(s)
  }

  ghost predicate MayStrand(s: State) {
    exists more :: Stranded(Run(s, more))
  }

  // ----- a second invariant: what a stop requested before the start does -----

  /** The stop marker is the next thing the worker takes, or it has taken it. */
  predicate AtMarker(s: State) {
    PastMarker(s) || (s.pc.Fetching? && s.queue != [] && s.queue[0] == Sentinel)
  }

  ghost predicate Unsettled(s: State) {
    && (forall e :: e in s.queue && e.Receipt? ==> e.id !in s.outcomes)
    && (s.pc.Holding? && s.pc.entry.Receipt? ==> s.pc.entry.id !in s.outcomes)
  }

  ghost predicate Early(s: State) {
    && (s.thread.Alive? && s.stopSet && ((s.accepting && !s.failed) || Behind(s)) ==> AtMarker(s))
    && (!s.failed ==> Unsettled(s))
  }
}
