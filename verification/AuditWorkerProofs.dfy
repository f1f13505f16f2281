/** The audit worker over every run. */
module AuditWorkerProofs {
  import opened SafetyTypes
  import opened AuditWorkerSpec

  // ----- lines -----

  lemma SortedPrefix(a: seq<Entry>, b: seq<Entry>)
    requires Sorted(a + b)
    ensures Sorted(a)
  {
    assert forall i :: 0 <= i < |a| ==> (a + b)[i] == a[i];
  }

  lemma SortedGrows(a: seq<Entry>, e: Entry)
    requires Sorted(a) && forall f :: f in a ==> Before(f, e)
    ensures Sorted(a + [e])
  {
  }

  lemma SortedWithout(a: seq<Entry>, e: Entry, b: seq<Entry>)
    requires Sorted(a + [e] + b)
    ensures Sorted(a + b)
  {
    var whole, part := a + [e] + b, a + b;
    forall i, j | 0 <= i < j < |part| ensures Before(part[i], part[j]) {
      var i', j' := if i < |a| then i else i + 1, if j < |a| then j else j + 1;
      assert whole[i'] == part[i] && whole[j'] == part[j];
      assert Before(whole[i'], whole[j']);
    }
  }

  lemma OneSentinel(a: seq<Entry>, b: seq<Entry>)
    requires Sorted(a + [Sentinel] + b)
    ensures Sentinel !in b
  {
    forall k | 0 <= k < |b| ensures b[k] != Sentinel {
      var whole := a + [Sentinel] + b;
      assert whole[|a|] == Sentinel && whole[|a| + 1 + k] == b[k];
      assert Before(whole[|a|], whole[|a| + 1 + k]);
    }
  }

  // ----- single steps -----

  lemma RequestStopKeepsLine(s: State)
    requires Lined(s) && Roomy(s)
    ensures Lined(RequestStop(s)) && Roomy(RequestStop(s)) && StopStands(RequestStop(s))
  {
    var t := RequestStop(s);
    if !s.sentinelQueued {
      assert Sentinel !in s.queue && Sentinel !in Line(s) && |s.queue| <= QUEUE_CAPACITY;
      SortedGrows(Line(s), Sentinel);
      assert Line(t) == Line(s) + [Sentinel];
      assert t.queue[|s.queue|] == Sentinel;
      assert Sentinel in Fetched(t) + t.queue;
    }
  }

  lemma RequestStopKeepsInv(s: State)
    requires Lined(s) && Roomy(s) && Accounted(s)
    ensures Inv(RequestStop(s))
  {
    RequestStopKeepsLine(s);
    hide Lined, Roomy, StopStands;
  }

  lemma EmptiedKeepsLine(s: State)
    requires Lined(s)
    ensures Lined(Emptied(s))
  {
    var t := Emptied(s);
    SortedPrefix(s.handed + Fetched(s), s.queue);
    assert Line(t) == s.handed + Fetched(s);
    if s.pc == Holding(Sentinel) {
      OneSentinel(s.handed, s.queue);
    }
    assert forall e :: e in Line(t) ==> e in Line(s);
  }

  lemma FailKeepsInv(s: State)
    requires Inv(s)
    ensures Inv(Fail(s))
  {
    EmptiedKeepsLine(s);
    hide Lined;
    assert Accounted(Emptied(s));
    RequestStopKeepsInv(Emptied(s));
  }

  lemma PutKeepsInv(s: State)
    requires Inv(s) && s.thread.Alive? && |s.queue| < QUEUE_CAPACITY
    ensures Inv(Put(s, Receipt(s.issued)).(issued := s.issued + 1))
  {
    var e := Receipt(s.issued);
    var t := Put(s, e).(issued := s.issued + 1);
    SortedGrows(Line(s), e);
    assert Line(t) == Line(s) + [e];
    assert forall f :: f in t.queue <==> f in s.queue || f == e;
    assert forall f :: f in Fetched(t) + t.queue <==> f in Fetched(s) + s.queue || f == e;
    hide Sorted;
  }

  lemma AppendKeepsInv(s: State)
    requires Inv(s)
    ensures Inv(Append(s).0)
  {
    hide Inv;
    if Healthy(s) {
      if |s.queue| >= QUEUE_CAPACITY { FailKeepsInv(s); } else { PutKeepsInv(s); }
    }
  }

  lemma TimeOutKeepsInv(s: State, id: nat)
    requires Inv(s) && id < s.issued
    ensures Inv(TimeOut(s, id))
  {
    if id !in s.outcomes {
      hide Lined, Roomy, StopStands;
      LineDependsOn(s, s.(outcomes := s.outcomes[id := TimedOut]));
      FailKeepsInv(s.(outcomes := s.outcomes[id := TimedOut]));
    }
  }

  /** Outcomes play no part in what the line looks like. */
  lemma LineDependsOn(s: State, t: State)
    requires Lined(s) && Roomy(s) && StopStands(s) && t == s.(outcomes := t.outcomes, accepting := t.accepting)
    ensures Lined(t) && Roomy(t) && StopStands(t)
  {
    assert Line(t) == Line(s);
  }

  lemma BeginCloseKeepsInv(s: State)
    requires Inv(s)
    ensures Inv(BeginClose(s))
  {
    var t := s.(accepting := false);
    LineDependsOn(s, t);
    hide Lined, Roomy, StopStands;
    RequestStopKeepsInv(t);
  }

  lemma FetchKeepsLine(s: State)
    requires Lined(s) && s.pc.Fetching? && s.queue != []
    ensures Lined(Fetch(s))
  {
    var t := Fetch(s);
    assert s.queue == [s.queue[0]] + t.queue;
    assert Line(t) == Line(s);
    assert Fetched(t) + t.queue == Fetched(s) + s.queue;
    hide Sorted;
  }

  lemma FetchKeepsInv(s: State)
    requires Inv(s) && s.thread.Alive? && s.pc.Fetching? && s.queue != []
    ensures Inv(Fetch(s))
  {
    FetchKeepsLine(s);
    hide Lined;
    var t := Fetch(s);
    assert s.queue == [s.queue[0]] + t.queue;
    assert forall f :: f in s.queue ==> f == s.queue[0] || f in t.queue;
  }

  lemma TakeSentinelKeepsInv(s: State)
    requires Inv(s) && s.thread.Alive? && s.pc == Holding(Sentinel)
    ensures Inv(Take(s, Sentinel))
  {
    var t := Take(s, Sentinel);
    assert Line(t) == s.handed + s.queue;
    SortedWithout(s.handed, Sentinel, s.queue);
    OneSentinel(s.handed, s.queue);
    assert forall e :: e in Line(t) ==> e in Line(s);
    hide Sorted;
  }

  lemma TakeReceiptKeepsInv(s: State, id: nat)
    requires Inv(s) && s.thread.Alive? && s.pc == Holding(Receipt(id))
    ensures Inv(Take(s, Receipt(id)))
  {
    var t := Take(s, Receipt(id));
    assert Line(t) == Line(s);
    assert Sentinel in Fetched(s) + s.queue <==> Sentinel in s.queue;
    hide Sorted;
  }

  lemma WriteEndsKeepsInv(s: State, failed: bool)
    requires Inv(s) && s.thread.Alive? && s.pc.Writing?
    ensures Inv(WriteEnds(s, s.pc.id, failed))
  {
    var id := s.pc.id;
    var t := if id in s.outcomes then s else s.(outcomes := s.outcomes[id := if failed then WriteFailed else Written]);
    assert id < s.issued by { assert Line(s)[|s.handed| - 1] == Receipt(id) && Receipt(id) in Line(s); }
    LineDependsOn(s, t);
    hide Lined, Roomy, StopStands, Fail;
    assert Inv(t);
    FailKeepsInv(t);
    FailKeepsPlace(t);
    SettledKeepsInv(if failed then Fail(t) else t);
  }

  lemma FailKeepsPlace(s: State)
    ensures Fail(s).thread == s.thread && Fail(s).pc == s.pc && Fail(s).inFlight == s.inFlight
    ensures s.outcomes.Keys <= Fail(s).outcomes.Keys
  {
  }

  lemma SettledKeepsInv(s: State)
    requires Inv(s) && s.thread.Alive? && s.pc.Writing? && s.pc.id in s.outcomes
    ensures Inv(s.(inFlight := None, pc := Fetching))
  {
    var t := s.(inFlight := None, pc := Fetching);
    assert Line(t) == Line(s) && Fetched(t) == Fetched(s);
    hide Sorted;
  }

  lemma StartAndEndKeepInv(s: State, runs: bool)
    requires Inv(s)
    ensures Inv(Start(s, runs).0) && Inv(Next(s, DoEnd))
  {
  }

  lemma NextKeepsInv(s: State, step: Step)
    requires Inv(s)
    ensures Inv(Next(s, step))
  {
    hide Inv, Start, Append, TimeOut, BeginClose, Fetch, Take, WriteEnds;
    match step
    case DoStart(runs) => StartAndEndKeepInv(s, runs);
    case DoAppend => AppendKeepsInv(s);
    case DoTimeOut(id) => if id < s.issued { TimeOutKeepsInv(s, id); }
    case DoBeginClose => BeginCloseKeepsInv(s);
    case DoFetch => if s.thread.Alive? && s.pc.Fetching? && s.queue != [] { FetchKeepsInv(s); }
    case DoTake =>
      if s.thread.Alive? && s.pc.Holding? {
        if s.pc.entry.Sentinel? { TakeSentinelKeepsInv(s); } else { TakeReceiptKeepsInv(s, s.pc.entry.id); }
      }
    case DoWriteEnds(failed) => if s.thread.Alive? && s.pc.Writing? { WriteEndsKeepsInv(s, failed); }
    case DoEnd => StartAndEndKeepInv(s, true);
  }

  lemma InitInv()
    ensures Inv(INIT)
  {
  }

  lemma {:induction false} RunKeepsInv(s: State, steps: seq<Step>)
    requires Inv(s)
    ensures Inv(Run(s, steps))
    decreases |steps|
  {
    if steps == [] {
    } else {
      hide Inv, Next;
      NextKeepsInv(s, steps[0]);
      RunKeepsInv(Next(s, steps[0]), steps[1..]);
    }
  }

  // ----- what a caller may rely on after one region -----

  /** What failing does: nothing is accepted or left queued but the stop marker, and every queued receipt is refused. */
  lemma FailFacts(s: State)
    requires Lined(s)
    ensures var t := Fail(s);
      && t.failed && !t.accepting && t.stopSet
      && (forall id :: Receipt(id) in s.queue ==> id in t.outcomes)
      && (forall id :: id in s.outcomes ==> id in t.outcomes && t.outcomes[id] == s.outcomes[id])
      && t.queue == (if s.pc == Holding(Sentinel) then [] else [Sentinel])
  {
    if s.pc == Holding(Sentinel) { OneSentinel(s.handed, s.queue); }
    assert Sentinel in Fetched(s) + s.queue <==> s.pc == Holding(Sentinel) || Sentinel in s.queue;
    hide Sorted;
  }

  lemma AppendFacts(s: State)
    requires Inv(s)
    ensures var (t, receipt) := Append(s);
      && (receipt.Some? ==> t.queue == s.queue + [Receipt(receipt.value)] && receipt.value == s.issued && t.failed == s.failed)
      && (receipt.None? ==> t.issued == s.issued && (Healthy(s) ==> t.failed))
      && (t.failed && !s.failed ==> forall id :: Receipt(id) in s.queue ==> id in t.outcomes)
  {
    FailFacts(s);
    hide Fail, Lined, Accounted;
  }

  lemma TimeOutFacts(s: State, id: nat)
    requires Inv(s) && id < s.issued
    ensures var t := TimeOut(s, id);
      && id in t.outcomes && (id in s.outcomes ==> t == s)
      && (id !in s.outcomes ==> t.outcomes[id] == TimedOut && t.failed && !t.accepting)
  {
    if id !in s.outcomes {
      var t := s.(outcomes := s.outcomes[id := TimedOut]);
      LineDependsOn(s, t);
      FailFacts(t);
    }
    hide Fail, Lined;
  }

  lemma CloseFacts(s: State)
    requires Inv(s)
    ensures var t := BeginClose(s); !t.accepting && (t.thread.Alive? && !t.pc.Leaving? ==> Pending(t, Sentinel))
  {
    BeginCloseKeepsInv(s);
    var t := BeginClose(s);
    assert t.sentinelQueued ==> Sentinel in Fetched(t) + t.queue;
    hide Accounted;
  }

  lemma TakeFacts(s: State, e: Entry)
    requires Inv(s) && s.pc == Holding(e)
    ensures var t := Take(s, e); e.Sentinel? ==> t.pc.Leaving? && t.stopSet && Sentinel !in t.queue
  {
    if e.Sentinel? {
      OneSentinel(s.handed, s.queue);
      assert Sentinel in Fetched(s) + s.queue by { assert (Fetched(s) + s.queue)[0] == Sentinel; }
    }
  }

  lemma WriteEndsFacts(s: State, failed: bool)
    requires Inv(s) && s.thread.Alive? && s.pc.Writing?
    ensures var id, t := s.pc.id, WriteEnds(s, s.pc.id, failed);
      && t.pc.Fetching? && t.inFlight.None? && id in t.outcomes
      && t.outcomes[id] == (if id in s.outcomes then s.outcomes[id] else if failed then WriteFailed else Written)
      && (failed ==> t.failed && !t.accepting && t.queue == [Sentinel])
      && (failed ==> forall q :: Receipt(q) in s.queue ==> q in t.outcomes)
  {
    var id := s.pc.id;
    var t := if id in s.outcomes then s else s.(outcomes := s.outcomes[id := if failed then WriteFailed else Written]);
    LineDependsOn(s, t);
    FailFacts(t);
    hide Fail, Lined, Accounted;
  }

  // ----- the theorems -----

  /** Once a stop is requested, and until the worker has taken it, the stop marker is queued or in the worker's hands,
      even after failures that drained the queue; there is never a second one, and the slot reserved for it was
      always free. */
  lemma StopMarkerIsNeverLost(steps: seq<Step>)
    ensures var s := Run(INIT, steps);
      && !s.overflowed
      && (s.stopSet && !s.pc.Leaving? ==> Pending(s, Sentinel))
      && Sorted(Line(s))
  {
    InitInv();
    RunKeepsInv(INIT, steps);
  }

  /** Every receipt without an outcome is queued, in the worker's hands or being written; and records are handed to the
      writer in the order they were submitted, each at most once. */
  lemma ReceiptsAreNeverLost(steps: seq<Step>)
    ensures var s := Run(INIT, steps);
      && (forall id: nat :: id < s.issued ==> id in s.outcomes || Pending(s, Receipt(id)))
      && Sorted(s.handed) && Sentinel !in s.handed
  {
    InitInv();
    RunKeepsInv(INIT, steps);
    var s := Run(INIT, steps);
    assert s.handed + (Fetched(s) + s.queue) == Line(s);
    SortedPrefix(s.handed, Fetched(s) + s.queue);
  }

  /** What no step undoes. */
  ghost predicate Sticks(s: State, t: State) {
    && (forall id :: id in s.outcomes ==> id in t.outcomes && t.outcomes[id] == s.outcomes[id])
    && (s.failed ==> t.failed && t.issued == s.issued)
  }

  lemma FailSticks(s: State)
    ensures Sticks(s, Fail(s))
  {
  }

  lemma TimeOutSticks(s: State, id: nat)
    ensures Sticks(s, TimeOut(s, id))
  {
    var t := if id in s.outcomes then s else s.(outcomes := s.outcomes[id := TimedOut]);
    assert Sticks(s, t);
    FailSticks(t);
    hide Fail;
  }

  lemma WriteEndsSticks(s: State, id: nat, failed: bool)
    ensures Sticks(s, WriteEnds(s, id, failed))
  {
    var t := if id in s.outcomes then s else s.(outcomes := s.outcomes[id := if failed then WriteFailed else Written]);
    assert Sticks(s, t);
    FailSticks(t);
    hide Fail;
  }

  lemma NextSticks(s: State, step: Step)
    ensures Sticks(s, Next(s, step))
  {
    hide Fail, TimeOut, WriteEnds;
    match step
    case DoAppend => FailSticks(s);
    case DoTimeOut(id) => TimeOutSticks(s, id);
    case DoWriteEnds(failed) => if s.pc.Writing? { WriteEndsSticks(s, s.pc.id, failed); }
    case _ =>
  }

  /** A receipt gets one outcome: later writes, timeouts and failures leave it as it is. */
  lemma {:induction false} OutcomeIsWrittenOnce(s: State, steps: seq<Step>, id: nat)
    requires id in s.outcomes
    ensures id in Run(s, steps).outcomes && Run(s, steps).outcomes[id] == s.outcomes[id]
    decreases |steps|
  {
    if steps == [] {
    } else {
      NextSticks(s, steps[0]);
      hide Next;
      OutcomeIsWrittenOnce(Next(s, steps[0]), steps[1..], id);
    }
  }

  /** A failed worker never takes another receipt. */
  lemma {:induction false} FailureIsFinal(s: State, steps: seq<Step>)
    requires s.failed
    ensures Run(s, steps).failed && Run(s, steps).issued == s.issued
    decreases |steps|
  {
    if steps == [] {
    } else {
      NextSticks(s, steps[0]);
      hide Next;
      FailureIsFinal(Next(s, steps[0]), steps[1..]);
    }
  }

  // ----- a worker that works -----

  /** A receipt is taken exactly by a healthy worker with room for it; a full queue fails the worker. */
  lemma AppendIff(s: State)
    requires Inv(s)
    ensures var (t, receipt) := Append(s);
      && (receipt.Some? <==> Healthy(s) && |s.queue| < QUEUE_CAPACITY)
      && (receipt.Some? ==> t == s.(queue := s.queue + [Receipt(s.issued)], issued := s.issued + 1) && receipt.value == s.issued)
      && (receipt.None? ==> if Healthy(s) then t.failed && !t.accepting && t.issued == s.issued else t == s)
    ensures Start(s, true).1 <==> if s.thread.Absent? then !s.failed else Healthy(s)
  {
    hide Inv, Refuse;
  }

  /** A close that found the worker started and answers true leaves no receipt without its outcome. */
  lemma CloseLeavesNobodyWaiting(s: State)
    requires Inv(s)
    ensures CloseAnswer(s, false) ==> forall id: nat :: id < s.issued ==> id in s.outcomes
    ensures s.thread.Absent? ==> s.issued == 0
  {
  }

  /** Closing an ended worker that has nothing left changes only that it accepts no more, and answers true, however often. */
  lemma ClosedStaysClosed(s: State)
    requires Inv(s) && s.thread.Dead? && s.queue == []
    ensures BeginClose(s) == s.(accepting := false) && CloseAnswer(BeginClose(s), false)
  {
  }

  const SERVE: seq<Step> := [DoFetch, DoTake, DoWriteEnds(false)]

  /** The queue holds receipts only, and all of them still wait. */
  ghost predicate AllWait(s: State) {
    && s.thread.Alive? && s.pc.Fetching?
    && forall e :: e in s.queue ==> Waits(s, e)
  }

  /** The head of the queue is written. */
  lemma HeadIsWritten(s: State)
    requires Inv(s) && AllWait(s) && s.queue != []
    ensures var t := Run(s, SERVE);
      && Inv(t) && AllWait(t) && t.queue == s.queue[1..] && t.outcomes == s.outcomes[s.queue[0].id := Written]
      && t.failed == s.failed && t.accepting == s.accepting && t.handed == s.handed + [s.queue[0]]
  {
    RunKeepsInv(s, SERVE);
    var e, rest := s.queue[0], s.queue[1..];
    HeadIsDistinct(s);
    assert e in s.queue && forall f :: f in rest ==> f in s.queue;
    hide Inv, Fail;
    var s1 := Next(s, SERVE[0]);
    var s2 := Next(s1, SERVE[1]);
    RunStep(s, SERVE);
    RunStep(s1, SERVE[1..]);
    RunStep(s2, SERVE[1..][1..]);
  }

  lemma HeadIsDistinct(s: State)
    requires Inv(s) && s.pc.Fetching? && s.queue != []
    ensures s.queue[0] !in s.queue[1..]
  {
    var n := |s.handed|;
    assert Line(s)[n] == s.queue[0];
    assert forall k :: 0 < k < |s.queue| ==> Line(s)[n + k] == s.queue[k] && Before(s.queue[0], s.queue[k]);
  }

  function Serves(n: nat): seq<Step> {
    if n == 0 then [] else SERVE + Serves(n - 1)
  }

  /** From `s` to `t` the whole queue was written, in order. */
  ghost predicate Served(s: State, t: State) {
    && t.queue == [] && t.failed == s.failed && t.handed == s.handed + s.queue
    && (forall e :: e in s.queue && e.Receipt? ==> e.id in t.outcomes && t.outcomes[e.id] == Written)
    && (forall id :: id in s.outcomes ==> id in t.outcomes && t.outcomes[id] == s.outcomes[id])
  }

  lemma ServedMore(s: State, t: State, u: State)
    requires s.queue != [] && Waits(s, s.queue[0]) && t.queue == s.queue[1..] && t.failed == s.failed
    requires t.outcomes == s.outcomes[s.queue[0].id := Written] && t.handed == s.handed + [s.queue[0]] && Served(t, u)
    ensures Served(s, u)
  {
    assert s.queue == [s.queue[0]] + t.queue;
    assert s.handed + s.queue == t.handed + t.queue;
  }

  /** A worker whose writer works writes everything in its queue, in order. */
  lemma {:induction false} QueueIsWritten(s: State)
    requires Inv(s) && AllWait(s)
    ensures Served(s, Run(s, Serves(|s.queue|)))
    decreases |s.queue|
  {
    if s.queue == [] {
    } else {
      var t := Run(s, SERVE);
      HeadIsWritten(s);
      assert s.queue[0] in s.queue && Waits(s, s.queue[0]);
      RunConcat(s, SERVE, Serves(|t.queue|));
      assert Serves(|s.queue|) == SERVE + Serves(|t.queue|);
      hide Inv, AllWait, Run, Serves, Served, Waits;
      QueueIsWritten(t);
      ServedMore(s, t, Run(t, Serves(|t.queue|)));
    }
  }

  /** So a worker that is served and then closed ends, and its close answers true. */
  lemma ServedWorkerCloses(s: State)
    requires Inv(s) && AllWait(s) && s.queue == [] && !s.stopSet
    ensures var t := Run(s, [DoBeginClose, DoFetch, DoTake, DoEnd]);
      && t.thread.Dead? && t.queue == [] && CloseAnswer(t, false) && t.outcomes == s.outcomes && t.failed == s.failed
  {
    var steps := [DoBeginClose, DoFetch, DoTake, DoEnd];
    ClosingQueuesMarker(s);
    MarkerAloneEnds(BeginClose(s));
    assert steps[1..] == [DoFetch, DoTake, DoEnd] && Next(s, DoBeginClose) == BeginClose(s);
    hide Inv, AllWait, Next;
    RunStep(s, steps);
  }

  lemma MarkerAloneEnds(s: State)
    requires s.thread.Alive? && s.pc.Fetching? && s.queue == [Sentinel]
    ensures Run(s, [DoFetch, DoTake, DoEnd])
      == s.(queue := [], sentinelQueued := false, pc := Leaving, thread := Dead)
  {
    var steps := [DoFetch, DoTake, DoEnd];
    var s1 := s.(queue := [], pc := Holding(Sentinel));
    var s2 := s1.(sentinelQueued := false, pc := Leaving);
    assert Next(s, DoFetch) == s1 && Next(s1, DoTake) == s2;
    assert Next(s2, DoEnd) == s2.(thread := Dead);
    hide Next;
    RunStep(s, steps);
    RunStep(s1, steps[1..]);
    RunStep(s2, steps[1..][1..]);
  }

  lemma ClosingQueuesMarker(s: State)
    requires Inv(s) && AllWait(s) && s.queue == [] && !s.stopSet
    ensures BeginClose(s) == s.(accepting := false, stopSet := true, sentinelQueued := true, queue := [Sentinel])
    ensures s.inFlight.None? && s.thread.Alive? && s.pc.Fetching?
  {
  }

  // ----- when a receipt is stranded -----

  /** After a failure nothing is behind the marker. */
  lemma FailedIsEarly(s: State)
    requires Lined(s)
    ensures Early(Fail(s)) && !Behind(Fail(s))
  {
    FailFacts(s);
    hide Lined, Fail;
  }

  lemma StartIsEarly(s: State, runs: bool)
    requires Inv(s) && Early(s)
    ensures Early(Start(s, runs).0)
  {
    assert forall e :: e in s.queue ==> e in Line(s);
    hide Sorted, Roomy;
  }

  lemma AppendIsEarly(s: State)
    requires Inv(s) && Early(s)
    ensures Early(Append(s).0)
  {
    if Healthy(s) && |s.queue| >= QUEUE_CAPACITY {
      FailedIsEarly(s);
    } else if Healthy(s) {
      var t := Append(s).0;
      assert t.queue == s.queue + [Receipt(s.issued)];
    }
    hide Fail, Lined, Behind;
  }

  lemma TimeOutIsEarly(s: State, id: nat)
    requires Inv(s) && Early(s) && id < s.issued
    ensures Early(TimeOut(s, id))
  {
    var t := s.(outcomes := s.outcomes[id := TimedOut]);
    if id !in s.outcomes {
      LineDependsOn(s, t);
      FailedIsEarly(t);
    }
    hide Fail, Lined;
  }

  lemma CloseLeavesBehind(s: State)
    requires StopStands(s)
    ensures Behind(BeginClose(s)) ==> Behind(s)
  {
    var t := BeginClose(s);
    if t.queue != s.queue {
      assert t.queue == s.queue + [Sentinel];
      assert forall k :: 0 <= k < |s.queue| ==> t.queue[k] == s.queue[k] && t.queue[..k] == s.queue[..k];
    }
  }

  lemma CloseIsEarly(s: State)
    requires Inv(s) && Early(s)
    ensures Early(BeginClose(s)) && (Behind(BeginClose(s)) ==> Behind(s))
  {
    CloseLeavesBehind(s);
    var t := BeginClose(s);
    if t.queue != s.queue { assert t.queue == s.queue + [Sentinel]; }
    assert Behind(s) ==> s.queue != [];
    if Behind(s) { BehindMeansStop(s); }
    hide Lined, Roomy, Accounted, Waits, Behind;
  }

  lemma BehindMeansStop(s: State)
    requires Lined(s) && StopStands(s) && Behind(s)
    ensures s.stopSet
  {
    var k :| 0 <= k < |s.queue| && Waits(s, s.queue[k]) && (PastMarker(s) || Sentinel in s.queue[..k]);
    assert Sentinel in s.queue[..k] ==> Sentinel in s.queue;
    MarkerMeansStop(s);
  }

  lemma FetchIsEarly(s: State)
    requires Inv(s) && Early(s) && s.thread.Alive? && s.pc.Fetching? && s.queue != []
    ensures Early(Fetch(s)) && (Behind(Fetch(s)) ==> Behind(s))
  {
    var t := Fetch(s);
    assert forall k :: 0 <= k < |t.queue| ==> t.queue[k] == s.queue[k + 1] && s.queue[..k + 1] == [s.queue[0]] + t.queue[..k];
    hide Lined, Roomy;
  }

  lemma TakeIsEarly(s: State, e: Entry)
    requires Inv(s) && Early(s) && s.thread.Alive? && s.pc == Holding(e)
    ensures Early(Take(s, e)) && (Behind(Take(s, e)) ==> Behind(s))
  {
    hide Lined, Roomy;
  }

  lemma WriteEndsIsEarly(s: State, failed: bool)
    requires Inv(s) && Early(s) && s.thread.Alive? && s.pc.Writing?
    ensures Early(WriteEnds(s, s.pc.id, failed)) && (Behind(WriteEnds(s, s.pc.id, failed)) ==> Behind(s))
  {
    var id := s.pc.id;
    var t := if id in s.outcomes then s else s.(outcomes := s.outcomes[id := if failed then WriteFailed else Written]);
    if failed {
      LineDependsOn(s, t);
      FailedIsEarly(t);
    } else {
      WrittenIsNotQueued(s);
    }
    hide Fail, Lined, Roomy;
  }

  /** The record being written is not queued any more. */
  lemma WrittenIsNotQueued(s: State)
    requires Lined(s) && s.pc.Writing?
    ensures Receipt(s.pc.id) !in s.queue
  {
    var n := |s.handed| - 1;
    forall k | 0 <= k < |s.queue| ensures s.queue[k] != Receipt(s.pc.id) {
      assert Line(s)[n] == Receipt(s.pc.id) && Line(s)[|s.handed| + k] == s.queue[k];
      assert Before(Line(s)[n], Line(s)[|s.handed| + k]);
    }
  }

  lemma NextIsEarly(s: State, step: Step)
    requires Inv(s) && Early(s)
    ensures Early(Next(s, step))
  {
    hide Inv, Early, Start, Append, TimeOut, BeginClose, Fetch, Take, WriteEnds;
    match step
    case DoStart(runs) => StartIsEarly(s, runs);
    case DoAppend => AppendIsEarly(s);
    case DoTimeOut(id) => if id < s.issued { TimeOutIsEarly(s, id); }
    case DoBeginClose => CloseIsEarly(s);
    case DoFetch => if s.thread.Alive? && s.pc.Fetching? && s.queue != [] { FetchIsEarly(s); }
    case DoTake => if s.thread.Alive? && s.pc.Holding? { TakeIsEarly(s, s.pc.entry); }
    case DoWriteEnds(failed) => if s.thread.Alive? && s.pc.Writing? { WriteEndsIsEarly(s, failed); }
    case DoEnd => EndIsEarly(s);
  }

  lemma EndIsEarly(s: State)
    requires Early(s)
    ensures Early(Next(s, DoEnd))
  {
  }

  lemma {:induction false} RunIsEarly(s: State, steps: seq<Step>)
    requires Inv(s) && Early(s)
    ensures Inv(Run(s, steps)) && Early(Run(s, steps))
    decreases |steps|
  {
    if steps == [] {
    } else {
      hide Inv, Early, Next;
      NextKeepsInv(s, steps[0]);
      NextIsEarly(s, steps[0]);
      RunIsEarly(Next(s, steps[0]), steps[1..]);
    }
  }

  lemma RunStep(s: State, steps: seq<Step>)
    requires steps != []
    ensures Run(s, steps) == Run(Next(s, steps[0]), steps[1..])
  {
  }

  /** `t` is `s` with no receipt or outcome lost. */
  predicate LosesNothing(s: State, t: State) {
    t.outcomes == s.outcomes && forall e :: e in s.queue && e.Receipt? ==> e in t.queue
  }

  lemma FetchesMarker(s: State)
    requires s.thread.Alive? && AtMarker(s)
    ensures var t := Next(s, DoFetch); t.thread.Alive? && PastMarker(t) && LosesNothing(s, t)
  {
    assert s.queue != [] ==> s.queue == [s.queue[0]] + s.queue[1..];
  }

  lemma TakesMarker(s: State)
    requires s.thread.Alive? && PastMarker(s)
    ensures var t := Next(s, DoTake); t.thread.Alive? && t.pc.Leaving? && LosesNothing(s, t)
  {
  }

  /** A living worker at its stop marker ends without looking at what is behind. */
  lemma EndsAtMarker(s: State)
    requires s.thread.Alive? && AtMarker(s)
    ensures var t := Run(s, [DoFetch, DoTake, DoEnd]); t.thread.Dead? && LosesNothing(s, t)
  {
    var steps := [DoFetch, DoTake, DoEnd];
    var s1 := Next(s, steps[0]);
    var s2 := Next(s1, steps[1]);
    FetchesMarker(s);
    TakesMarker(s1);
    assert Next(s2, DoEnd).thread.Dead? && LosesNothing(s2, Next(s2, DoEnd));
    hide Next;
    RunStep(s, steps);
    RunStep(s1, steps[1..]);
    RunStep(s2, steps[1..][1..]);
  }

  lemma MarkerMeansStop(s: State)
    requires Lined(s) && StopStands(s) && (PastMarker(s) || Sentinel in s.queue)
    ensures s.stopSet
  {
    assert s.pc == Holding(Sentinel) ==> Fetched(s) == [Sentinel] && Sentinel in Fetched(s);
    assert Sentinel in Fetched(s) || Sentinel in s.queue ==> Sentinel in Fetched(s) + s.queue;
    hide Sorted;
  }

  lemma BehindStrands(s: State)
    requires Inv(s) && Early(s) && s.thread.Alive? && Behind(s)
    ensures Stranded(Run(s, [DoFetch, DoTake, DoEnd]))
  {
    MarkerMeansStop(s);
    EndsAtMarker(s);
    var k :| 0 <= k < |s.queue| && Waits(s, s.queue[k]) && (PastMarker(s) || Sentinel in s.queue[..k]);
    assert s.queue[k] in s.queue;
    hide Inv, Run;
  }

  /** An accepting worker told to stop takes one more receipt, if none is behind the marker yet. */
  lemma AcceptsBehind(s: State)
    requires Inv(s) && Early(s) && s.thread.Alive? && s.accepting && !s.failed && s.stopSet && !Behind(s)
    ensures var t := Next(s, DoAppend); t.thread.Alive? && Behind(t)
  {
    OneMarker(s);
    NoneBehind(s);
    assert |s.queue| <= 1;
    var t := Next(s, DoAppend);
    assert t.queue == s.queue + [Receipt(s.issued)] && Waits(t, t.queue[|s.queue|]);
    assert t.queue[..|s.queue|] == s.queue;
    if !PastMarker(s) { assert s.queue[0] == Sentinel; }
  }

  /** There is only one stop marker. */
  lemma OneMarker(s: State)
    requires Lined(s)
    ensures |s.queue| > 1 ==> s.queue[0].Receipt? || s.queue[1].Receipt?
  {
    var n := |s.handed + Fetched(s)|;
    if |s.queue| > 1 {
      assert Line(s)[n] == s.queue[0] && Line(s)[n + 1] == s.queue[1];
      assert Before(Line(s)[n], Line(s)[n + 1]);
    }
  }

  lemma NoneBehind(s: State)
    requires AtMarker(s) && Unsettled(s) && !Behind(s)
    ensures forall k :: 0 <= k < |s.queue| ==> s.queue[k].Sentinel?
  {
    forall k | 0 <= k < |s.queue| ensures s.queue[k].Sentinel? {
      assert s.queue[k] in s.queue;
      if !PastMarker(s) && k > 0 { assert s.queue[..k][0] == Sentinel; }
    }
  }

  lemma {:induction false} RunConcat(s: State, steps: seq<Step>, more: seq<Step>)
    ensures Run(s, steps + more) == Run(Run(s, steps), more)
    decreases |steps|
  {
    hide Next;
    if steps == [] {
      assert [] + more == more;
    } else {
      assert (steps + more)[1..] == steps[1..] + more;
      RunConcat(Next(s, steps[0]), steps[1..], more);
    }
  }

  /** A living worker that was told to stop before it was started, and accepts, or has a receipt behind the marker. */
  lemma LivingStrands(s: State) returns (steps: seq<Step>)
    requires Inv(s) && Early(s) && s.thread.Alive? && CanStrand(s)
    ensures Stranded(Run(s, steps))
  {
    hide Inv, Early, Stranded, Next;
    var ending := [DoFetch, DoTake, DoEnd];
    if Behind(s) {
      BehindStrands(s);
      steps := ending;
    } else {
      AcceptsBehind(s);
      NextKeepsInv(s, DoAppend);
      NextIsEarly(s, DoAppend);
      BehindStrands(Next(s, DoAppend));
      steps := [DoAppend] + ending;
      assert steps[1..] == ending;
    }
  }

  lemma AbsentStrands(s: State) returns (steps: seq<Step>)
    requires Inv(s) && Early(s) && s.thread.Absent? && !s.failed
    ensures Stranded(Run(s, steps))
  {
    var first := [DoBeginClose, DoStart(true)];
    var s1 := Next(s, first[0]);
    var s2 := Next(s1, first[1]);
    RunStep(s, first);
    RunStep(s1, first[1..]);
    RunIsEarly(s, first);
    assert s2.thread.Alive? && CanStrand(s2);
    hide Inv, Early, Stranded, Next, Behind;
    var rest := LivingStrands(s2);
    RunConcat(s, first, rest);
    steps := first + rest;
  }

  lemma FailedCannotStrand(s: State)
    requires Lined(s) && !s.thread.Dead?
    ensures !CanStrand(Fail(s))
  {
    FailFacts(s);
    FailedIsEarly(s);
    hide Lined, Fail, Behind;
  }

  lemma DeadCannotStrand(s: State, step: Step)
    requires Inv(s) && s.thread.Dead? && !Stranded(s)
    ensures !CanStrand(Next(s, step))
  {
    hide Lined, Roomy, Refuse;
  }

  lemma TimeOutCannotStrand(s: State, id: nat)
    requires Inv(s) && !CanStrand(s) && !s.thread.Dead? && id < s.issued
    ensures !CanStrand(TimeOut(s, id))
  {
    if id !in s.outcomes {
      var t := s.(outcomes := s.outcomes[id := TimedOut]);
      LineDependsOn(s, t);
      FailedCannotStrand(t);
    }
    hide Fail, Lined, Behind;
  }

  lemma AppendCannotStrand(s: State)
    requires Inv(s) && !CanStrand(s) && s.thread.Alive?
    ensures !CanStrand(Append(s).0)
  {
    if Healthy(s) && |s.queue| >= QUEUE_CAPACITY {
      FailedCannotStrand(s);
    } else if Healthy(s) {
      var t := Append(s).0;
      if PastMarker(s) || Sentinel in s.queue { MarkerMeansStop(s); }
      assert t.queue == s.queue + [Receipt(s.issued)] && Sentinel !in t.queue;
    }
    hide Fail, Lined;
  }

  lemma CannotStrandStep(s: State, step: Step)
    requires Inv(s) && Early(s) && !CanStrand(s)
    ensures !CanStrand(Next(s, step))
  {
    hide Inv, Early, Append, TimeOut, BeginClose, Fetch, Take, WriteEnds, Behind, Stranded;
    if s.thread.Dead? {
      DeadCannotStrand(s, step);
    } else {
      match step
      case DoAppend => if s.thread.Alive? { AppendCannotStrand(s); } else { AbsentAppends(s); }
      case DoTimeOut(id) => if id < s.issued { TimeOutCannotStrand(s, id); }
      case DoBeginClose => CloseIsEarly(s); CloseKeepsThread(s);
      case DoFetch => if s.thread.Alive? && s.pc.Fetching? && s.queue != [] { FetchIsEarly(s); FetchKeepsThread(s); }
      case DoTake => if s.thread.Alive? && s.pc.Holding? { TakeIsEarly(s, s.pc.entry); TakeKeepsThread(s, s.pc.entry); }
      case DoWriteEnds(failed) => if s.thread.Alive? && s.pc.Writing? { WriteEndsIsEarly(s, failed); WriteKeepsThread(s, failed); }
      case DoEnd => EndCannotStrand(s);
      case DoStart(_) =>
    }
  }

  lemma AbsentAppends(s: State)
    requires s.thread.Absent?
    ensures Append(s).0 == s
  {
  }

  lemma CloseKeepsThread(s: State)
    ensures var t := BeginClose(s); t.thread == s.thread && t.failed == s.failed && !t.accepting
  {
  }

  lemma FetchKeepsThread(s: State)
    requires s.queue != []
    ensures var t := Fetch(s); t.thread == s.thread && t.failed == s.failed && t.accepting == s.accepting && t.stopSet == s.stopSet
  {
  }

  lemma TakeKeepsThread(s: State, e: Entry)
    ensures var t := Take(s, e); t.thread == s.thread && t.failed == s.failed && t.accepting == s.accepting && t.stopSet == s.stopSet
  {
  }

  lemma WriteKeepsThread(s: State, failed: bool)
    requires s.pc.Writing?
    ensures var t := WriteEnds(s, s.pc.id, failed);
      && t.thread == s.thread && (s.failed ==> t.failed) && (t.accepting ==> s.accepting) && (!t.failed ==> t.stopSet == s.stopSet)
  {
  }

  lemma EndCannotStrand(s: State)
    requires Inv(s) && !CanStrand(s) && !s.thread.Dead?
    ensures !CanStrand(Next(s, DoEnd))
  {
    hide Inv;
    if s.thread.Alive? && s.pc.Leaving? {
      forall e | e in s.queue ensures !Waits(s, e) {
        var k :| 0 <= k < |s.queue| && s.queue[k] == e;
      }
    }
  }

  lemma {:induction false} CannotStrandStays(s: State, steps: seq<Step>)
    requires Inv(s) && Early(s) && !CanStrand(s)
    ensures !Stranded(Run(s, steps))
    decreases |steps|
  {
    hide Inv, Early, Next, Behind;
    if steps == [] {
    } else {
      NextKeepsInv(s, steps[0]);
      NextIsEarly(s, steps[0]);
      CannotStrandStep(s, steps[0]);
      CannotStrandStays(Next(s, steps[0]), steps[1..]);
    }
  }

  /** Exactly when a receipt can be stranded: left without an outcome in the queue of a worker that has ended. */
  lemma ReceiptIsStrandedIff(steps: seq<Step>)
    ensures var s := Run(INIT, steps);
      MayStrand(s) <==> CanStrand(s)
  {
    InitInv();
    RunIsEarly(INIT, steps);
    var s := Run(INIT, steps);
    hide Inv, Early, Stranded, Behind, Next;
    if CanStrand(s) {
      var more := [];
      if s.thread.Absent? { more := AbsentStrands(s); } else if s.thread.Alive? { more := LivingStrands(s); }
      assert Stranded(Run(s, more));
    } else {
      forall more ensures !Stranded(Run(s, more)) { CannotStrandStays(s, more); }
    }
  }

  lemma StrandedStep(s: State, id: nat, step: Step)
    requires s.thread.Dead? && Receipt(id) in s.queue && id !in s.outcomes && !step.DoTimeOut?
    ensures var t := Next(s, step); t.thread.Dead? && Receipt(id) in t.queue && id !in t.outcomes
  {
  }

  /** A stranded receipt gets no outcome until somebody's wait runs out; then every stranded receipt is settled. */
  lemma {:induction false} StrandedUntilTimeOut(s: State, id: nat, steps: seq<Step>)
    requires s.thread.Dead? && Receipt(id) in s.queue && id !in s.outcomes
    requires forall k :: 0 <= k < |steps| ==> !steps[k].DoTimeOut?
    ensures var t := Run(s, steps);
      && t.thread.Dead? && Receipt(id) in t.queue && id !in t.outcomes
      && forall q :: q !in t.outcomes ==> id in TimeOut(t, q).outcomes
    decreases |steps|
  {
    if steps == [] {
    } else {
      StrandedStep(s, id, steps[0]);
      hide Next;
      StrandedUntilTimeOut(Next(s, steps[0]), id, steps[1..]);
    }
  }
}
