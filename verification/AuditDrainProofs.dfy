/** The ordered, durable log over every interleaving. */
module AuditDrainProofs {
  import opened SafetyTypes
  import opened AuditRecords
  import opened AuditDrainSpec
  import F = AuditFile
  import G = GatewaySpec

  /** Whatever the drain takes next is the record of the next transition, registered or inferred. */
  lemma NextItemIsCanonical(s: Shared, mode: G.Mode)
    requires PendingHolds(s) && NextItem(s).Some? && forall i :: 0 <= i < |s.log| ==> G.LegalMove(s.log[i], mode)
    ensures s.next < |s.log| && NextItem(s).value == ItemFor(s.log[s.next])
  {
    if s.next !in s.pending {
      TransitionsAreAuditable(s.log[s.next], mode);
    }
  }

  lemma MoveKeepsInv(s: State, after: SafetyState, stop: Option<StopResult>)
    requires Inv(s)
    ensures Inv(Next(s, GatewayMoves(after, stop)))
  {
    hide G.LegalMove, ItemFor, EventsHold, Whole, Done;
  }

  lemma RegisterKeepsInv(s: State, i: nat)
    requires Inv(s)
    ensures Inv(Next(s, Registers(i)))
  {
    hide G.LegalMove, ItemFor, G.Chained, EventsHold, Whole, Done;
  }

  lemma EnterKeepsInv(s: State, c: nat, waitFor: Option<nat>)
    requires Inv(s)
    ensures Inv(Next(s, Enters(c, waitFor)))
  {
    hide G.LegalMove, ItemFor, G.Chained, EventsHold, Whole, Done;
  }

  /** Every decision, exactly. A drain that waits for a transition is through once that is behind it, but one that owns
      the drain goes on while anything is ready; a drain that waits for none is through only when nothing is pending and
      nothing can be inferred. */
  lemma DecisionIff(s: Shared, waitFor: Option<nat>, owns: bool, timedOut: bool)
    ensures var d, item, mayOwn := Decide(s, waitFor, owns, timedOut), NextItem(s), owns || s.owner.None?;
      var through := if waitFor.Some? then waitFor.value < s.next && (!owns || item.None?)
                     else item.None? && s.pending == map[] && mayOwn;
      && (d.Fail? <==> s.failure)
      && (d.Return? <==> !s.failure && through)
      && (d.Append? <==> !s.failure && !through && item.Some? && mayOwn)
      && (d.Append? ==> item == Some(d.item))
      && (d.GiveUp? <==> timedOut && !s.failure && !through && !(item.Some? && mayOwn))
      && (d.Wait? <==> !timedOut && !s.failure && !through && !(item.Some? && mayOwn))
  {
  }

  lemma BeginAppendKeepsInv(s: State, c: nat, item: Item)
    requires Inv(s) && c in s.threads && s.threads[c].Draining?
    requires !s.shared.failure && NextItem(s.shared) == Some(item) && (s.threads[c].owns || s.shared.owner.None?)
    ensures Inv(s.(shared := s.shared.(owner := Some(c)), threads := s.threads[c := Appending(s.threads[c].waitFor, item, None)]))
  {
    NextItemIsCanonical(s.shared, s.mode);
    hide G.LegalMove, ItemFor, G.Chained, NextItem, EventsHold, Whole, Done;
  }

  lemma EndDrainKeepsInv(s: State, c: nat, ending: Ending)
    requires Inv(s) && c in s.threads && s.threads[c].Draining?
    requires ending.Normally? ==> s.threads[c].waitFor.Some? ==> s.threads[c].waitFor.value < s.shared.next
    ensures Inv(s.(threads := s.threads[c := Releasing(s.threads[c].waitFor, s.threads[c].owns, ending)]))
  {
    hide G.LegalMove, ItemFor, G.Chained, EventsHold, Whole, Done;
  }

  lemma DecideKeepsInv(s: State, c: nat, timedOut: bool)
    requires Inv(s)
    ensures Inv(Next(s, Decides(c, timedOut)))
  {
    hide Inv, Decide, NextItem;
    if c in s.threads && s.threads[c].Draining? {
      var t := s.threads[c];
      DecisionIff(s.shared, t.waitFor, t.owns, timedOut);
      match Decide(s.shared, t.waitFor, t.owns, timedOut)
      case Fail => EndDrainKeepsInv(s, c, Raising);
      case Return => EndDrainKeepsInv(s, c, Normally);
      case Append(item) => BeginAppendKeepsInv(s, c, item);
      case GiveUp => EndDrainKeepsInv(s, c, TimingOut);
      case Wait =>
    }
  }

  lemma WriteKeepsEvents(written: seq<Item>, events: seq<Event>, item: Item)
    requires EventsHold(written, events)
    ensures EventsHold(written + [item], events + [Wrote(|written|)])
  {
    var longer, more := written + [item], events + [Wrote(|written|)];
    assert more[|events|] == Wrote(|written|);
    forall n: nat | n < |longer| ensures Wrote(n) in more {
      if n < |written| {
        var j :| 0 <= j < |events| && events[j] == Wrote(n);
        assert more[j] == Wrote(n);
      }
    }
    forall j | 0 <= j < |more| && more[j].AdapterStarted? ensures StartOnRecord(longer, more[..j], more[j].sequence) {
      assert more[..j] == events[..j] && StartOnRecord(written, events[..j], events[j].sequence);
    }
  }

  lemma StartKeepsEvents(written: seq<Item>, events: seq<Event>, n: nat)
    requires EventsHold(written, events) && n < |written| && written[n].operation.StartTask?
    ensures EventsHold(written, events + [AdapterStarted(n)])
  {
    var more := events + [AdapterStarted(n)];
    forall k: nat | k < |written| ensures Wrote(k) in more {
      var j :| 0 <= j < |events| && events[j] == Wrote(k);
      assert more[j] == Wrote(k);
    }
    forall j | 0 <= j < |more| && more[j].AdapterStarted? ensures StartOnRecord(written, more[..j], more[j].sequence) {
      assert more[..j] == events[..j];
      if j < |events| { assert StartOnRecord(written, events[..j], events[j].sequence); }
      assert events[..|events|] == events;
    }
  }

  lemma StartsAdapterKeepsInv(s: State, c: nat)
    requires Inv(s)
    ensures Inv(Next(s, StartsAdapter(c)))
  {
    if MayStartAdapter(s, c) {
      var n := s.threads[c].waitFor.value;
      assert n < |s.written| && s.written[n] == ItemFor(s.shared.log[n]);
      StartKeepsEvents(s.written, s.events, n);
    }
    hide G.LegalMove, ItemFor, G.Chained, EventsHold, Whole, Done;
  }

  /** What the writer reports as appended is in the file whole. */
  lemma DoneIsWhole(a: Attempt)
    requires Done(a)
    ensures Whole(a)
  {
    F.WriteLoopBound(a.length, a.script.writes);
  }

  lemma WriteFacts(s: State, a: Attempt)
    requires EventsHold(s.written, s.events)
    ensures var t := Write(s, a);
      && t == s.(attempts := s.attempts + [a], written := t.written, events := t.events)
      && t.written == (if Whole(a) then s.written + [a.item] else s.written)
      && EventsHold(t.written, t.events)
  {
    WriteKeepsEvents(s.written, s.events, a.item);
    hide EventsHold, Whole;
  }

  lemma WriteKeepsRecords(s: State, a: Attempt)
    requires RecordsHold(s) && |s.attempts| == s.shared.next < |s.shared.log|
    requires a.item == ItemFor(s.shared.log[s.shared.next]) && a.length > 0
    ensures RecordsHold(Write(s, a))
  {
    hide ItemFor, Whole, Done;
  }

  /** Who has which thread and event does not matter to the records. */
  lemma RecordsDependOn(s: State, t: State)
    requires RecordsHold(s) && t.shared == s.shared && t.attempts == s.attempts && t.written == s.written
    ensures RecordsHold(t)
  {
    hide ItemFor, Whole, Done;
  }

  lemma WriterRunsKeepsInv(s: State, c: nat, length: nat, script: F.Script)
    requires Inv(s)
    ensures Inv(Next(s, WriterRuns(c, length, script)))
  {
    if c in s.threads && s.threads[c].Appending? {
      WriteFacts(s, Attempt(s.threads[c].item, length, script));
      WriterRunsKeepsWritten(s, c, length, script);
    }
    hide G.LegalMove, ItemFor, G.Chained, EventsHold, Whole, Done, Write, WrittenHolds;
  }

  lemma WriterRunsKeepsWritten(s: State, c: nat, length: nat, script: F.Script)
    requires WrittenHolds(s) && OwnerHolds(s) && EventsHold(s.written, s.events) && c in s.threads && s.threads[c].Appending?
    ensures WrittenHolds(Next(s, WriterRuns(c, length, script)))
  {
    var a := Attempt(s.threads[c].item, length, script);
    WriteFacts(s, a);
    assert s.shared.owner == Some(c);
    if s.threads[c].attempt.None? && length > 0 {
      WriteKeepsRecords(s, a);
      RecordsDependOn(Write(s, a), Next(s, WriterRuns(c, length, script)));
    }
    hide ItemFor, EventsHold, Whole, Done, Write, OwnerHolds, RecordsHold;
  }

  lemma AppendReturnsKeepsInv(s: State, c: nat)
    requires Inv(s)
    ensures Inv(Next(s, AppendReturns(c)))
  {
    if c in s.threads && s.threads[c].Appending? && s.threads[c].attempt.Some? && Done(s.threads[c].attempt.value) {
      DoneIsWhole(s.threads[c].attempt.value);
    }
    hide G.LegalMove, ItemFor, G.Chained, EventsHold, Whole, Done;
  }

  lemma AppendFailsKeepsInv(s: State, c: nat)
    requires Inv(s)
    ensures Inv(Next(s, AppendFails(c)))
  {
    hide G.LegalMove, ItemFor, G.Chained, EventsHold, Whole, Done;
  }

  lemma WriterRunsLateKeepsInv(s: State, length: nat, script: F.Script)
    requires Inv(s)
    ensures Inv(Next(s, WriterRunsLate(length, script)))
  {
    if s.doubt.Some? && length > 0 {
      var a := Attempt(s.doubt.value, length, script);
      WriteFacts(s, a);
      WriteKeepsRecords(s, a);
      RecordsDependOn(Write(s, a), Next(s, WriterRunsLate(length, script)));
    }
    hide G.LegalMove, ItemFor, G.Chained, EventsHold, Whole, Done, Write, RecordsHold;
  }

  lemma RecordsFailureKeepsInv(s: State, c: nat)
    requires Inv(s)
    ensures Inv(Next(s, RecordsFailure(c)))
  {
    hide G.LegalMove, ItemFor, G.Chained, EventsHold, Whole, Done;
  }

  lemma ReleaseKeepsInv(s: State, c: nat)
    requires Inv(s)
    ensures Inv(Next(s, Releases(c)))
  {
    hide G.LegalMove, ItemFor, G.Chained, EventsHold, Whole, Done;
  }

  lemma NextKeepsInv(s: State, step: Step)
    requires Inv(s)
    ensures Inv(Next(s, step))
  {
    hide Inv, Next;
    match step
    case GatewayMoves(after, stop) => MoveKeepsInv(s, after, stop);
    case Registers(i) => RegisterKeepsInv(s, i);
    case Enters(c, waitFor) => EnterKeepsInv(s, c, waitFor);
    case Decides(c, timedOut) => DecideKeepsInv(s, c, timedOut);
    case WriterRuns(c, length, script) => WriterRunsKeepsInv(s, c, length, script);
    case AppendReturns(c) => AppendReturnsKeepsInv(s, c);
    case AppendFails(c) => AppendFailsKeepsInv(s, c);
    case WriterRunsLate(length, script) => WriterRunsLateKeepsInv(s, length, script);
    case Releases(c) => ReleaseKeepsInv(s, c);
    case RecordsFailure(c) => RecordsFailureKeepsInv(s, c);
    case StartsAdapter(c) => StartsAdapterKeepsInv(s, c);
  }

  lemma InitInv(mode: G.Mode)
    ensures Inv(Init(mode))
  {
  }

  lemma {:induction false} RunKeepsInv(s: State, steps: seq<Step>)
    requires Inv(s)
    ensures Inv(Run(s, steps))
    decreases |steps|
  {
    if steps == [] {
    } else {
      hide Inv, Next;
      NextKeepsInv(s, steps[0]);
      RunKeepsInv(Next(s, steps[0]), steps[1..]);
    }
  }

  lemma {:induction false} RunKeepsMode(s: State, steps: seq<Step>)
    ensures Run(s, steps).mode == s.mode
    decreases |steps|
  {
    if steps == [] {
    } else {
      RunKeepsMode(Next(s, steps[0]), steps[1..]);
    }
  }

  /** In every run the whole records in the file are exactly those of the gateway's first transitions, in order, without
      gap or duplicate. Their number is the next audit sequence, or one more while an append is under way or after an
      audit failure. The writer worked on the same transitions; it was through with all of them but possibly the last. */
  lemma LogIsOrderedAndDurable(mode: G.Mode, steps: seq<Step>)
    ensures var s := Run(Init(mode), steps);
      && |s.written| <= |s.shared.log|
      && (forall i :: 0 <= i < |s.written| ==> s.written[i] == ItemFor(s.shared.log[i]))
      && s.shared.next <= |s.written| <= s.shared.next + 1
      && (|s.written| == s.shared.next + 1 ==> s.shared.failure || AppendUnderWay(s))
      && |s.written| <= |s.attempts| <= s.shared.next + 1
      && (forall i :: 0 <= i < |s.attempts| - 1 ==> Done(s.attempts[i]))
  {
    InitInv(mode);
    RunKeepsInv(Init(mode), steps);
  }

  /** A drain that waited for a transition and returned normally returns after that transition and all earlier ones are
      in the file. */
  lemma NormalReturnMeansWritten(mode: G.Mode, steps: seq<Step>, c: nat)
    requires var s := Run(Init(mode), steps); c in s.threads && s.threads[c].Returned? && s.threads[c].waitFor.Some?
    ensures var s := Run(Init(mode), steps);
      var w := s.threads[c].waitFor.value;
      && w < |s.written| <= |s.shared.log|
      && forall i :: 0 <= i <= w ==> s.written[i] == ItemFor(s.shared.log[i])
  {
    InitInv(mode);
    RunKeepsInv(Init(mode), steps);
  }

  /** Whenever the adapter has been started for a transition, that transition was on record before, as the start it is:
      every start of the adapter is preceded by the write of its record. */
  lemma StartIsOnRecordFirst(mode: G.Mode, steps: seq<Step>, j: nat)
    requires var s := Run(Init(mode), steps); j < |s.events| && s.events[j].AdapterStarted?
    ensures var s := Run(Init(mode), steps);
      var n := s.events[j].sequence;
      && (exists i :: 0 <= i < j && s.events[i] == Wrote(n))
      && n < |s.written| <= |s.shared.log| && s.written[n] == ItemFor(s.shared.log[n]) && s.written[n].operation.StartTask?
  {
    InitInv(mode);
    RunKeepsInv(Init(mode), steps);
    var s := Run(Init(mode), steps);
    assert StartOnRecord(s.written, s.events[..j], s.events[j].sequence);
    var i :| 0 <= i < j && s.events[..j][i] == Wrote(s.events[j].sequence);
    assert s.events[i] == Wrote(s.events[j].sequence);
  }

  lemma NextKeepsFailure(s: State, step: Step)
    requires Inv(s) && s.shared.failure && !AppendUnderWay(s)
    ensures Next(s, step).shared.failure && !AppendUnderWay(Next(s, step))
    ensures Next(s, step).shared.next == s.shared.next
  {
    hide G.LegalMove, ItemFor, G.Chained, EventsHold, Whole, Done;
  }

  /** After an audit failure at most one more record can appear, the one that was being appended; then the file never
      changes again. */
  lemma {:induction false} FailureFreezesTheLog(s: State, steps: seq<Step>)
    requires Inv(s) && s.shared.failure && !AppendUnderWay(s)
    ensures var t := Run(s, steps);
      && t.shared.failure && t.shared.next == s.shared.next
      && |s.written| <= |t.written| <= s.shared.next + 1
      && |s.attempts| <= |t.attempts| <= s.shared.next + 1
      && (s.doubt.None? ==> t.written == s.written && t.attempts == s.attempts)
    decreases |steps|
  {
    if steps == [] {
    } else {
      var u := Next(s, steps[0]);
      NextKeepsFailure(s, steps[0]);
      NextKeepsInv(s, steps[0]);
      FrozenStep(s, steps[0]);
      hide Next;
      FailureFreezesTheLog(u, steps[1..]);
    }
  }

  lemma FrozenStep(s: State, step: Step)
    requires Inv(s) && s.shared.failure && !AppendUnderWay(s)
    ensures |s.written| <= |Next(s, step).written| && |s.attempts| <= |Next(s, step).attempts|
    ensures s.doubt.None? ==>
      Next(s, step).written == s.written && Next(s, step).attempts == s.attempts && Next(s, step).doubt.None?
  {
    hide G.LegalMove, ItemFor, G.Chained, EventsHold, Whole, Done;
  }

  // ----- drains that get through -----

  /** A transition is retained exactly while it is in the history that the gateway keeps. */
  lemma RetainedIsHistory(s: Shared, i: nat)
    requires G.Chained(s.log)
    ensures Retained(s, i) <==> exists t :: t in G.Retained(s.log) && t.sequence == i
  {
    var history := G.Retained(s.log);
    var from := |s.log| - |history|;
    assert forall k :: 0 <= k < |history| ==> history[k] == s.log[from + k] && history[k].sequence == from + k;
    if Retained(s, i) {
      assert history[i - from] in history && history[i - from].sequence == i;
    }
  }

  /** In every run, a drain that waits for nothing and is about to return normally leaves nothing behind: every
      transition registered so far is in the file, and the next one is not a fault that could be inferred. */
  lemma IdleDrainLeavesNothing(mode: G.Mode, steps: seq<Step>, c: nat, timedOut: bool)
    requires var s := Run(Init(mode), steps); c in s.threads && s.threads[c].Draining? && s.threads[c].waitFor.None?
    requires var s := Run(Init(mode), steps); Decide(s.shared, None, s.threads[c].owns, timedOut).Return?
    ensures var s := Run(Init(mode), steps);
      && s.shared.pending == map[] && |s.written| == s.shared.next
      && (Retained(s.shared, s.shared.next) ==> s.shared.log[s.shared.next].after != FAULTED)
  {
    InitInv(mode);
    RunKeepsInv(Init(mode), steps);
    var s := Run(Init(mode), steps);
    DecisionIff(s.shared, None, s.threads[c].owns, timedOut);
    if Retained(s.shared, s.shared.next) { TransitionsAreAuditable(s.shared.log[s.shared.next], s.mode); }
  }

  /** A drain that owns the drain, or may own it, and still has something to wait for. */
  predicate Draws(s: State, c: nat) {
    && c in s.threads && s.threads[c].Draining? && !s.shared.failure
    && (s.threads[c].owns || (s.shared.owner.None? && (s.threads[c].waitFor.Some? ==> s.shared.next <= s.threads[c].waitFor.value)))
  }

  lemma RunStep(s: State, steps: seq<Step>)
    requires steps != []
    ensures Run(s, steps) == Run(Next(s, steps[0]), steps[1..])
  {
  }

  lemma {:induction false} RunConcat(s: State, first: seq<Step>, second: seq<Step>)
    ensures Run(s, first + second) == Run(Run(s, first), second)
    decreases |first|
  {
    hide Next;
    if first == [] {
      assert first + second == second;
    } else {
      assert (first + second)[1..] == first[1..] + second;
      RunConcat(Next(s, first[0]), first[1..], second);
    }
  }

  /** The three steps that append one record. */
  function Appends(c: nat, length: nat, script: F.Script): seq<Step> {
    [Decides(c, false), WriterRuns(c, length, script), AppendReturns(c)]
  }

  lemma ReadyIsTaken(s: State, c: nat)
    requires Inv(s) && Draws(s, c) && NextItem(s.shared).Some?
    ensures s.shared.next < |s.shared.log|
    ensures Next(s, Decides(c, false))
      == s.(shared := s.shared.(owner := Some(c)),
            threads := s.threads[c := Appending(s.threads[c].waitFor, ItemFor(s.shared.log[s.shared.next]), None)])
  {
    NextItemIsCanonical(s.shared, s.mode);
    DecisionIff(s.shared, s.threads[c].waitFor, s.threads[c].owns, false);
    hide Decide, NextItem, ItemFor, EventsHold, ReturnsHold, OwnerHolds, WrittenHolds;
  }

  lemma DoneIsWritten(s: State, c: nat, length: nat, script: F.Script)
    requires c in s.threads && s.threads[c].Appending? && s.threads[c].attempt.None?
    requires length > 0 && F.Outcome(length, script).Appended?
    ensures var t := Run(s, [WriterRuns(c, length, script), AppendReturns(c)]);
      && t.written == s.written + [s.threads[c].item] && t.shared == Committed(s.shared)
      && t.threads == s.threads[c := Draining(s.threads[c].waitFor, true)]
  {
    var steps := [WriterRuns(c, length, script), AppendReturns(c)];
    DoneIsWhole(Attempt(s.threads[c].item, length, script));
    hide Whole, F.Outcome;
    RunStep(s, steps);
    RunStep(Next(s, steps[0]), steps[1..]);
  }

  /** One ready record, and a writer that is done with it. */
  lemma ReadyIsAppended(s: State, c: nat, length: nat, script: F.Script)
    requires Inv(s) && Draws(s, c) && NextItem(s.shared).Some? && length > 0 && F.Outcome(length, script).Appended?
    ensures var t := Run(s, Appends(c, length, script));
      && Inv(t) && Draws(t, c) && t.threads == s.threads[c := Draining(s.threads[c].waitFor, true)]
      && t.shared == Committed(s.shared).(owner := Some(c)) && s.shared.next < |s.shared.log|
      && t.written == s.written + [ItemFor(s.shared.log[s.shared.next])]
  {
    RunKeepsInv(s, Appends(c, length, script));
    RunStep(s, Appends(c, length, script));
    ReadyIsTaken(s, c);
    hide Inv, NextItem, ItemFor, Next, Run, F.Outcome;
    DoneIsWritten(Next(s, Decides(c, false)), c, length, script);
  }

  /** What the writer is given and does for one record after the other. */
  datatype Work = Work(length: nat, script: F.Script)

  function Drains(c: nat, work: seq<Work>): seq<Step>
    decreases |work|
  {
    if work == [] then [Decides(c, false), Releases(c)] else Appends(c, work[0].length, work[0].script) + Drains(c, work[1..])
  }

  /** `n` transitions from the next one on are registered, and nothing more is ready after them. */
  ghost predicate Registered(s: Shared, n: nat) {
    && (forall i {:trigger i in s.pending} :: s.next <= i < s.next + n ==> i in s.pending)
    && s.next + n !in s.pending && (Retained(s, s.next + n) ==> InferredFault(s.log[s.next + n]).None?)
  }

  /** Nothing is ready, and the drain is not kept waiting. */
  predicate IsThrough(s: State, c: nat) {
    && c in s.threads && s.threads[c].Draining? && !s.shared.failure && NextItem(s.shared).None?
    && (s.threads[c].owns || s.shared.owner.None?)
    && if s.threads[c].waitFor.Some? then s.threads[c].waitFor.value < s.shared.next else s.shared.pending == map[]
  }

  lemma ThroughReleases(s: State, c: nat)
    requires IsThrough(s, c)
    ensures Next(s, Decides(c, false))
      == s.(threads := s.threads[c := Releasing(s.threads[c].waitFor, s.threads[c].owns, Normally)])
  {
    DecisionIff(s.shared, s.threads[c].waitFor, s.threads[c].owns, false);
    hide Decide, NextItem;
  }

  /** Such a drain returns and gives up the drain. */
  lemma NothingReadyReturns(s: State, c: nat)
    requires Inv(s) && IsThrough(s, c)
    ensures var t := Run(s, [Decides(c, false), Releases(c)]);
      && t.threads == s.threads[c := Returned(s.threads[c].waitFor)] && t.shared == s.shared.(owner := None)
      && t.written == s.written
  {
    var steps, u := [Decides(c, false), Releases(c)], Next(s, Decides(c, false));
    RunStep(s, steps);
    RunStep(u, steps[1..]);
    ThroughReleases(s, c);
    OwnerIsFree(s, c);
    ReleaseReturns(u, c, s.threads[c].waitFor, s.threads[c].owns);
    hide Inv, IsThrough, Next;
  }

  lemma OwnerIsFree(s: State, c: nat)
    requires Inv(s) && IsThrough(s, c)
    ensures !s.threads[c].owns ==> s.shared.owner.None?
  {
    hide Inv, NextItem;
  }

  lemma ReleaseReturns(s: State, c: nat, waitFor: Option<nat>, owns: bool)
    requires c in s.threads && s.threads[c] == Releasing(waitFor, owns, Normally) && (!owns ==> s.shared.owner.None?)
    ensures var t := Next(s, Releases(c));
      && t.threads == s.threads[c := Returned(waitFor)] && t.shared == s.shared.(owner := None) && t.written == s.written
  {
  }

  /** What a drain does whose work is `n` registered transitions. */
  ghost predicate Drained(s: State, c: nat, n: nat, t: State) {
    && c in s.threads && s.threads[c].Draining? && t.threads == s.threads[c := Returned(s.threads[c].waitFor)]
    && t.shared.next == s.shared.next + n <= |s.shared.log| && t.shared.owner.None? && !t.shared.failure
    && |t.written| == |s.written| + n && s.written <= t.written
    && forall k :: |s.written| <= k < |t.written| ==> t.written[k] == ItemFor(s.shared.log[s.shared.next + (k - |s.written|)])
  }

  /** A drain gets through: with `n` transitions registered and a writer that is done with each of them, the drain writes
      exactly their records, gives up the drain and returns. */
  lemma {:induction false} RegisteredIsWritten(s: State, c: nat, work: seq<Work>)
    requires Inv(s) && Draws(s, c) && Registered(s.shared, |work|)
    requires forall w :: w in work ==> w.length > 0 && F.Outcome(w.length, w.script).Appended?
    requires if s.threads[c].waitFor.Some? then s.threads[c].waitFor.value < s.shared.next + |work|
             else forall i :: i in s.shared.pending ==> i < s.shared.next + |work|
    ensures Drained(s, c, |work|, Run(s, Drains(c, work)))
    decreases |work|
  {
    assert PendingHolds(s.shared);
    if work == [] {
      if s.threads[c].waitFor.None? { assert s.shared.pending.Keys == {}; }
      NothingReadyReturns(s, c);
      hide Inv, ItemFor, Run;
    } else {
      var length, script, rest := work[0].length, work[0].script, work[1..];
      assert work[0] in work && forall w :: w in rest ==> w in work;
      ReadyIsAppended(s, c, length, script);
      var t := Run(s, Appends(c, length, script));
      RunConcat(s, Appends(c, length, script), Drains(c, rest));
      CommitKeepsRegistered(s.shared, t.shared, |work|);
      hide Inv, Draws, Registered, Run, Drained, ItemFor, F.Outcome, PendingHolds;
      RegisteredIsWritten(t, c, rest);
      DrainedMore(s, c, |rest|, t, Run(t, Drains(c, rest)));
    }
  }

  lemma DrainedMore(s: State, c: nat, n: nat, t: State, u: State)
    requires c in s.threads && s.threads[c].Draining? && t.threads == s.threads[c := Draining(s.threads[c].waitFor, true)]
    requires s.shared.next < |s.shared.log| && t.shared == Committed(s.shared).(owner := Some(c))
    requires t.written == s.written + [ItemFor(s.shared.log[s.shared.next])] && Drained(t, c, n, u)
    ensures Drained(s, c, n + 1, u)
  {
    hide ItemFor;
  }

  lemma CommitKeepsPending(s: Shared)
    requires PendingHolds(s) && s.next < |s.log|
    ensures PendingHolds(Committed(s))
  {
    hide ItemFor;
  }

  lemma CommitKeepsRegistered(s: Shared, t: Shared, n: nat)
    requires n > 0 && Registered(s, n) && PendingHolds(s)
    requires t == Committed(s).(owner := t.owner)
    ensures Registered(t, n - 1) && t.next == s.next + 1 && t.log == s.log
    ensures forall i :: i in t.pending ==> i in s.pending
  {
    hide InferredFault;
  }
}
