/** The sequencer's inductive invariant and what it gives over every run: the latch is final, a quiesced stop means
    activation is over for good, receipts are never lost and their outcome is written once. */
module SequencerProofs {
  import opened SafetyTypes
  import opened SequencerSpec

  // ----- traces -----

  /** What one more event does to the commands open and in hand. */
  lemma EventGrows(t: seq<Event>, e: Event)
    ensures (t + [e])[..|t|] == t
    ensures OpenCommands(t + [e]) ==
      if e.Started? then OpenCommands(t) + {e.id} else if e.Ended? then OpenCommands(t) - {e.id} else OpenCommands(t)
    ensures InHand(t + [e]) == if e.Took? then Some(e.id) else if e.Started? then None else InHand(t)
    ensures forall i :: 0 <= i <= |t| ==> (t + [e])[..i] == t[..i]
  {
    assert (t + [e])[..|t|] == t;
  }

  /** One more event keeps what latches and quiesced stops promise, unless it is an activation they exclude. */
  lemma TraceGrows(t: seq<Event>, e: Event)
    requires LateStarts(t) && QuiescedIsFinal(t)
    requires IsActivation(e) ==> StopSampled(true) !in t && (LatchSet in t ==> e.Started? && Pinned(t, e.id))
    requires e == StopSampled(true) ==> OpenCommands(t) == {} && InHand(t) == None
    ensures LateStarts(t + [e]) && QuiescedIsFinal(t + [e])
  {
    hide OpenCommands, InHand;
    EventGrows(t, e);
    var u := t + [e];
    forall i: nat, j: nat | i < j < |u| && u[i] == LatchSet && IsActivation(u[j])
      ensures u[j].Started? && InHand(u[..i]) == Some(u[j].id) && NoActivationFrom(u, j + 1)
    {
      if j < |t| {
        assert t[i] == LatchSet && IsActivation(t[j]) && NoActivationFrom(t, j + 1);
        assert IsActivation(e) ==> NoActivationFrom(t, i);
      } else {
        assert t[i] == LatchSet && Pinned(t, e.id);
      }
    }
    forall i | 0 <= i < |u| && u[i] == StopSampled(true)
      ensures OpenCommands(u[..i]) == {} && InHand(u[..i]) == None && NoActivationFrom(u, i)
    {
      if i < |t| { assert t[i] == StopSampled(true) && NoActivationFrom(t, i); }
      assert t[..|t|] == t;
    }
  }

  /** A command in hand stays pinned while nothing is activated and no quiescence is reported. */
  lemma PinnedGrows(t: seq<Event>, e: Event, id: nat)
    requires Pinned(t, id) && !IsActivation(e) && e != StopSampled(true)
    requires e == LatchSet ==> InHand(t) == Some(id)
    ensures Pinned(t + [e], id)
  {
    hide OpenCommands, InHand;
    EventGrows(t, e);
    var u := t + [e];
    forall i | 0 <= i < |u| && u[i] == LatchSet ensures InHand(u[..i]) == Some(id) && NoActivationFrom(u, i) {
      if i < |t| { assert t[i] == LatchSet && NoActivationFrom(t, i); }
      assert t[..|t|] == t;
    }
  }

  /** Events other than activations and quiesced samples leave `Observed` to the fields. */
  lemma PlainEventIsObserved(s: State, t: State, e: Event)
    requires Observed(s) && t.trace == s.trace + [e] && t.inFlight == s.inFlight
    requires e == LatchSet || e.ZeroTried? || (e == StopSampled(s.inFlight.None?) && s.latched)
    requires t.latched == (s.latched || e == LatchSet)
    ensures Observed(t)
  {
    EventGrows(s.trace, e);
    TraceGrows(s.trace, e);
    if InHand(s.trace).Some? { PinnedGrows(s.trace, e, InHand(s.trace).value); }
    hide OpenCommands, InHand, LateStarts, QuiescedIsFinal, Pinned;
  }

  /** A plain event matters to `Worker` no more than to the trace functions. */
  lemma PlainEventKeepsWorker(s: State, t: State, e: Event)
    requires Worker(s) && t.trace == s.trace + [e] && !e.Took? && !e.Started? && !e.Ended?
    requires t.thread == s.thread && t.worker == s.worker && t.inFlight == s.inFlight && t.taken == s.taken && t.invoked == s.invoked
    requires s.outcomes.Keys <= t.outcomes.Keys && t.issued == s.issued && (t.accepting ==> s.accepting)
    ensures Worker(t)
  {
    EventGrows(s.trace, e);
    hide OpenCommands, InHand;
  }

  // ----- single steps -----

  /** Every way of latching ends in this shape. */
  lemma LatchingKeepsInv(s: State, code: Refusal)
    requires Inv(s)
    ensures Inv(RejectQueued(s.(generation := s.generation + 1, latched := true, trace := s.trace + [LatchSet]), code))
  {
    var t := RejectQueued(s.(generation := s.generation + 1, latched := true, trace := s.trace + [LatchSet]), code);
    PlainEventIsObserved(s, t, LatchSet);
    PlainEventKeepsWorker(s, t, LatchSet);
    hide Observed, Worker, OpenCommands, InHand;
  }

  lemma LatchKeepsInv(s: State, code: Refusal)
    requires Inv(s)
    ensures Inv(Latch(s, code)) && Latch(s, code).latched && Latch(s, code).queue == []
  {
    LatchingKeepsInv(s, code);
  }

  lemma CheckWorkerKeepsInv(s: State)
    requires Inv(s)
    ensures Inv(CheckWorker(s).0)
    ensures CheckWorker(s).1 ==> CheckWorker(s).0 == s && s.thread.Alive? && s.accepting && !s.closed && !s.failed
  {
    var t := s.(failed := true, accepting := false);
    if s.thread.Dead? && !s.closed {
      assert Inv(t);
      LatchKeepsInv(t, UnsafeState);
    }
  }

  lemma AdmitKeepsInv(s: State, permit: Permit)
    requires Inv(s)
    ensures Inv(Admit(s, permit).0)
    ensures Admit(s, permit).1.Ok? ==> Admit(s, permit).0 == s && !s.latched && s.thread.Alive? && Admit(s, permit).1.value == 0
  {
    CheckWorkerKeepsInv(s);
  }

  lemma SubmitKeepsInv(s: State, finite: bool, callable: bool, permit: Permit)
    requires Inv(s)
    ensures Inv(Submit(s, finite, callable, permit).0)
  {
    AdmitKeepsInv(s, permit);
    LatchKeepsInv(s, Refusal.Latched);
  }

  lemma TimeOutKeepsInv(s: State, id: nat)
    requires Inv(s) && id < |s.issued|
    ensures Inv(TimeOut(s, id))
  {
    if id !in s.outcomes {
      var t := TimeOut(s, id);
      PlainEventIsObserved(s, t, LatchSet);
      PlainEventKeepsWorker(s, t, LatchSet);
      hide Observed, Worker, OpenCommands, InHand;
    }
  }

  lemma UnlatchedIsPinned(t: seq<Event>)
    requires LatchSet !in t && StopSampled(true) !in t
    ensures forall id :: Pinned(t, id)
  {
  }

  lemma OwnedKeepsInv(s: State, callable: bool, permit: Permit)
    requires Inv(s)
    ensures Inv(SubmitOwned(s, callable, permit).0)
  {
    AdmitKeepsInv(s, permit);
    if callable && Admit(s, permit).1.Ok? {
      assert StopSampled(true) !in s.trace && LatchSet !in s.trace;
      TraceGrows(s.trace, OwnedRan);
      EventGrows(s.trace, OwnedRan);
      PlainEventKeepsWorker(s, SubmitOwned(s, callable, permit).0, OwnedRan);
      UnlatchedIsPinned(s.trace + [OwnedRan]);
      hide OpenCommands, InHand, LateStarts, QuiescedIsFinal, Pinned, Worker;
    }
  }

  /** Events that only bear witness. */
  lemma EventKeepsInv(s: State, e: Event)
    requires Inv(s) && (e.ZeroTried? || (e == StopSampled(s.inFlight.None?) && s.latched))
    ensures Inv(s.(trace := s.trace + [e]))
  {
    var t := s.(trace := s.trace + [e]);
    PlainEventIsObserved(s, t, e);
    PlainEventKeepsWorker(s, t, e);
    hide Observed, Worker;
  }

  lemma StopKeepsInv(s: State, zeroAccepted: bool)
    requires Inv(s)
    ensures Inv(LatchAndZero(s, zeroAccepted)) && LatchAndZero(s, zeroAccepted).latched
    ensures s.latched ==> Inv(Sample(s).0)
  {
    LatchKeepsInv(s, Refusal.Latched);
    EventKeepsInv(Latch(s, Refusal.Latched), ZeroTried(zeroAccepted));
    if s.latched { EventKeepsInv(s, StopSampled(s.inFlight.None?)); }
    hide Inv, Latch;
  }

  lemma BeginCloseKeepsInv(s: State)
    requires Inv(s)
    ensures Inv(BeginClose(s))
  {
    var t := s.(closed := true, accepting := false);
    assert Inv(t);
    LatchingKeepsInv(t, UnsafeState);
  }

  lemma TakeKeepsInv(s: State)
    requires Inv(s) && s.thread.Alive? && s.worker.AtTop? && s.queue != []
    ensures Inv(Take(s))
    ensures !s.latched && Take(s).worker == Taken(s.queue[0])
  {
    assert !s.latched && s.queue[0] == s.taken;
    assert LatchSet !in s.trace && StopSampled(true) !in s.trace;
    var e := Took(s.queue[0]);
    EventGrows(s.trace, e);
    TraceGrows(s.trace, e);
    UnlatchedIsPinned(s.trace + [e]);
    hide OpenCommands, InHand, LateStarts, QuiescedIsFinal, Pinned;
  }

  lemma CallKeepsInv(s: State)
    requires Inv(s) && s.thread.Alive? && s.worker.Taken?
    ensures Inv(Call(s, s.worker.id))
  {
    var e := Started(s.worker.id);
    assert Pinned(s.trace, s.worker.id);
    EventGrows(s.trace, e);
    TraceGrows(s.trace, e);
    hide OpenCommands, InHand, LateStarts, QuiescedIsFinal, Pinned;
  }

  lemma FailClosedKeepsInv(s: State)
    requires Inv(s)
    ensures Inv(FailClosed(s))
  {
    var t := s.(failed := true, accepting := false);
    assert Inv(t);
    LatchingKeepsInv(t, UnsafeState);
  }

  lemma EndIsObserved(s: State)
    requires Observed(s) && s.inFlight.Some? && InHand(s.trace) == None
    ensures var t := s.(trace := s.trace + [Ended(s.inFlight.value)]);
      Observed(t) && OpenCommands(t.trace) == {} && InHand(t.trace) == None
  {
    EventGrows(s.trace, Ended(s.inFlight.value));
    TraceGrows(s.trace, Ended(s.inFlight.value));
    hide LateStarts, QuiescedIsFinal, InHand, Pinned;
  }

  lemma CompletionIsAccounted(s: State, t: State, id: nat, outcome: Outcome)
    requires Queued(s) && Accounted(s) && s.inFlight == Some(id) && id == s.taken - 1
    requires t == Complete(s.(worker := t.worker, trace := t.trace), id, outcome)
    ensures Queued(t) && Accounted(t)
  {
    hide OpenCommands;
    assert t.queue == s.queue && t.issued == s.issued && t.inFlight == s.inFlight;
    assert t.outcomes.Keys == s.outcomes.Keys + {id};
  }

  lemma CompletionKeepsInv(s: State, outcome: Outcome)
    requires Inv(s) && s.thread.Alive? && s.worker.Calling?
    ensures Inv(Complete(s.(worker := Settling(s.worker.id), trace := s.trace + [Ended(s.worker.id)]), s.worker.id, outcome))
  {
    hide Queued, Accounted, Observed, OpenCommands, InHand;
    var t := Complete(s.(worker := Settling(s.worker.id), trace := s.trace + [Ended(s.worker.id)]), s.worker.id, outcome);
    EndIsObserved(s);
    ObservedDependsOn(s.(trace := t.trace), t);
    CompletionIsAccounted(s, t, s.worker.id, outcome);
  }

  lemma ObservedDependsOn(s: State, t: State)
    requires Observed(s) && t.trace == s.trace && t.latched == s.latched && t.inFlight == s.inFlight
    ensures Observed(t)
  {
    hide LateStarts, QuiescedIsFinal, Pinned, OpenCommands, InHand;
  }

  lemma CommandEndsKeepsInv(s: State, raised: bool)
    requires Inv(s) && s.thread.Alive? && s.worker.Calling?
    ensures Inv(CommandEnds(s, s.worker.id, raised))
  {
    var id := s.worker.id;
    CompletionKeepsInv(s, if raised then CommandRaised else Returned);
    if raised {
      FailClosedKeepsInv(Complete(s.(worker := Settling(id), trace := s.trace + [Ended(id)]), id, CommandRaised));
    }
  }

  lemma StartKeepsInv(s: State, spawn: Spawn)
    requires Inv(s)
    ensures Inv(Start(s, spawn).0)
  {
    CheckWorkerKeepsInv(s);
  }

  lemma IssueKeepsInv(s: State)
    requires Inv(s)
    ensures Inv(Issue(s).0)
  {
    hide Inv;
    CheckWorkerKeepsInv(s);
  }

  /** Only `Worker` looks at the thread and at where the worker stands. */
  lemma WorkerMoves(s: State, t: State)
    requires Inv(s) && t == s.(thread := t.thread, worker := t.worker) && Worker(t)
    ensures Inv(t)
  {
    ObservedDependsOn(s, t);
    hide Observed, OpenCommands, InHand, Worker;
  }

  lemma WorkerEndsKeepsInv(s: State)
    requires Inv(s)
    ensures Inv(Next(s, DoExit)) && Inv(Next(s, DoDie))
  {
    hide Observed, OpenCommands, InHand, Queued, Accounted;
    if s.thread.Alive? { WorkerMoves(s, s.(thread := Dead, worker := Gone)); }
  }

  lemma SettleKeepsInv(s: State)
    requires Inv(s)
    ensures Inv(Next(s, DoSettle))
  {
    if s.thread.Alive? && s.worker.Settling? {
      var t := s.(inFlight := None);
      hide LateStarts, QuiescedIsFinal, Pinned, OpenCommands, InHand;
      assert Observed(t);
      ObservedDependsOn(t, Next(s, DoSettle));
    }
    hide Observed, OpenCommands, InHand;
  }

  lemma NextKeepsInv(s: State, step: Step)
    requires Inv(s)
    ensures Inv(Next(s, step))
  {
    hide Inv, Start, Issue, Submit, TimeOut, SubmitOwned, LatchAndZero, Sample, BeginClose, Take, Call, CommandEnds, Settle;
    match step
    case DoStart(spawn) => StartKeepsInv(s, spawn);
    case DoIssue => IssueKeepsInv(s);
    case DoSubmit(finite, callable, permit) => SubmitKeepsInv(s, finite, callable, permit);
    case DoTimeOut(id) => if id < |s.issued| { TimeOutKeepsInv(s, id); }
    case DoOwned(callable, permit) => OwnedKeepsInv(s, callable, permit);
    case DoLatchAndZero(zeroAccepted) => StopKeepsInv(s, zeroAccepted);
    case DoSample => if s.latched { StopKeepsInv(s, false); }
    case DoBeginClose => BeginCloseKeepsInv(s);
    case DoTake => if s.thread.Alive? && s.worker.AtTop? && s.queue != [] { TakeKeepsInv(s); }
    case DoCall => if s.thread.Alive? && s.worker.Taken? { CallKeepsInv(s); }
    case DoExit => WorkerEndsKeepsInv(s);
    case DoCommandEnds(raised) => if s.thread.Alive? && s.worker.Calling? { CommandEndsKeepsInv(s, raised); }
    case DoSettle => SettleKeepsInv(s);
    case DoDie => WorkerEndsKeepsInv(s);
  }

  lemma InitInv()
    ensures Inv(INIT)
  {
  }

  lemma {:induction false} RunKeepsInv(s: State, steps: seq<Step>)
    requires Inv(s)
    ensures Inv(Run(s, steps))
    decreases |steps|
  {
    hide Inv, Next;
    if steps == [] {
    } else {
      NextKeepsInv(s, steps[0]);
      RunKeepsInv(Next(s, steps[0]), steps[1..]);
    }
  }

  // ----- what a caller may rely on after one region -----

  /** Latched, with no living worker that holds a command it has not called. */
  predicate Spent(s: State) {
    s.latched && !(s.thread.Alive? && s.worker.Taken?)
  }

  lemma SubmitFacts(s: State, finite: bool, callable: bool, permit: Permit)
    requires Inv(s)
    ensures var (t, receipt) := Submit(s, finite, callable, permit);
      && (receipt.Ok? ==> t.thread.Alive? && !t.latched && receipt.value == |s.issued| && receipt.value !in t.outcomes)
      && (receipt.Ok? ==> permit == Owned(t.generation) && t.queue == s.queue + [receipt.value])
      && (receipt.Err? ==> t.issued == s.issued && t.invoked == s.invoked)
      && (s.latched || |s.queue| == QUEUE_CAPACITY ==> receipt.Err?)
      && (t.latched && !s.latched ==> t.queue == [] && forall id :: id in s.queue ==> id in t.outcomes)
  {
    hide Observed, Worker;
  }

  lemma OwnedFacts(s: State, callable: bool, permit: Permit)
    requires Inv(s)
    ensures var (t, admitted) := SubmitOwned(s, callable, permit);
      && (admitted.Ok? ==> t.thread.Alive? && !t.latched && t.trace == s.trace + [OwnedRan])
      && (s.latched ==> admitted.Err?)
  {
    hide Observed, Worker, RefuseAll;
  }

  /** A quiesced sample means that nothing is open or in hand, and that nothing can be activated any more. */
  lemma SampleFacts(s: State)
    requires Inv(s) && s.latched
    ensures var t := Sample(s).0;
      Sample(s).1 ==> OpenCommands(t.trace) == {} && InHand(t.trace) == None && Spent(t)
  {
    EventGrows(s.trace, StopSampled(s.inFlight.None?));
    hide LateStarts, QuiescedIsFinal, Pinned, OpenCommands, InHand;
  }

  lemma CommandEndsFacts(s: State, raised: bool)
    requires Inv(s) && s.thread.Alive? && s.worker.Calling?
    ensures var id, t := s.worker.id, CommandEnds(s, s.worker.id, raised);
      && id in t.outcomes && OpenCommands(t.trace) == {}
      && t.outcomes[id] == (if id in s.outcomes then s.outcomes[id] else if raised then CommandRaised else Returned)
      && (raised ==> t.latched && t.failed && t.queue == [] && forall q :: q in s.queue ==> q in t.outcomes)
      && (!raised ==> t.queue == s.queue && t.latched == s.latched)
  {
    EventGrows(s.trace, Ended(s.worker.id));
    EventGrows(s.trace + [Ended(s.worker.id)], LatchSet);
    assert OpenCommands(s.trace) <= {s.worker.id};
    hide Inv, OpenCommands, InHand;
  }

  lemma SettleFacts(s: State)
    requires Inv(s) && s.worker.Settling?
    ensures Settle(s, s.worker.id).inFlight.None?
  {
  }

  // ----- what a step leaves in place -----

  ghost predicate Extends(s: State, t: State) {
    && s.trace <= t.trace
    && s.issued <= t.issued
    && s.invoked <= t.invoked
    && s.taken <= t.taken
    && (s.latched ==> t.latched)
    && s.generation <= t.generation
    && (forall id :: id in s.outcomes ==> id in t.outcomes && t.outcomes[id] == s.outcomes[id])
    && (s.latched && s.inFlight.None? ==> t.inFlight.None?)
  }

  lemma LatchExtends(s: State, code: Refusal)
    ensures Extends(s, Latch(s, code)) && Latch(s, code).inFlight == s.inFlight
  {
  }

  lemma CheckWorkerExtends(s: State)
    ensures Extends(s, CheckWorker(s).0) && CheckWorker(s).0.inFlight == s.inFlight
  {
    LatchExtends(s.(failed := true, accepting := false), UnsafeState);
  }

  lemma CommandEndsExtends(s: State, id: nat, raised: bool)
    requires s.worker == Calling(id) && s.inFlight == Some(id)
    ensures Extends(s, CommandEnds(s, id, raised))
  {
    var t := s.(worker := Settling(id), trace := s.trace + [Ended(id)]);
    var u := Complete(t, id, if raised then CommandRaised else Returned);
    assert Extends(s, u);
    assert u.trace <= FailClosed(u).trace;
    assert Extends(u, FailClosed(u));
  }

  lemma ActivationExtends(s: State, finite: bool, callable: bool, permit: Permit)
    ensures Extends(s, Submit(s, finite, callable, permit).0)
    ensures Extends(s, SubmitOwned(s, callable, permit).0)
  {
    CheckWorkerExtends(s);
    LatchExtends(CheckWorker(s).0, Refusal.Latched);
  }

  lemma TakeExtends(s: State)
    requires s.queue != [] && (s.latched ==> s.queue == [])
    ensures Extends(s, Take(s))
  {
  }

  lemma WorkerStepExtends(s: State, step: Step)
    requires Inv(s)
    requires step.DoTake? || step.DoCall? || step.DoExit? || step.DoCommandEnds? || step.DoSettle? || step.DoDie?
    ensures Extends(s, Next(s, step))
  {
    assert s.latched ==> s.queue == [];
    hide Queued, Accounted, Observed, OpenCommands, InHand, CommandEnds, Take;
    if step.DoTake? && s.queue != [] { TakeExtends(s); }
    if step.DoCommandEnds? && s.thread.Alive? && s.worker.Calling? { CommandEndsExtends(s, s.worker.id, step.raised); }
  }

  lemma TimeOutExtends(s: State, id: nat)
    ensures Extends(s, TimeOut(s, id))
  {
    var t := Complete(s, id, Rejected(Timeout));
    LatchExtends(t, Refusal.Latched);
    assert Extends(s, t);
  }

  lemma NextExtends(s: State, step: Step)
    requires Inv(s)
    ensures Extends(s, Next(s, step))
  {
    hide Inv;
    match step
    case DoStart(spawn) => CheckWorkerExtends(s);
    case DoIssue => CheckWorkerExtends(s);
    case DoSubmit(finite, callable, permit) => ActivationExtends(s, finite, callable, permit);
    case DoTimeOut(id) => TimeOutExtends(s, id);
    case DoOwned(callable, permit) => ActivationExtends(s, true, callable, permit);
    case DoLatchAndZero(zeroAccepted) => LatchExtends(s, Refusal.Latched);
    case DoSample =>
    case DoBeginClose =>
    case _ => WorkerStepExtends(s, step);
  }

  lemma {:induction false} RunExtends(s: State, steps: seq<Step>)
    requires Inv(s)
    ensures Extends(s, Run(s, steps))
    decreases |steps|
  {
    hide Inv, Next;
    if steps == [] {
    } else {
      NextKeepsInv(s, steps[0]);
      NextExtends(s, steps[0]);
      RunExtends(Next(s, steps[0]), steps[1..]);
    }
  }

  // ----- theorems over every run -----

  /** After a latch at most one activation is ever seen: the start of the command that was taken and not yet called at
      that very latch. A stop that reported quiescence found no command open or in hand, and none opens again. */
  lemma LatchAndQuiescenceAreFinal(steps: seq<Step>)
    ensures LateStarts(Run(INIT, steps).trace)
    ensures QuiescedIsFinal(Run(INIT, steps).trace)
  {
    InitInv();
    RunKeepsInv(INIT, steps);
  }

  ghost predicate ActivatesBeyond(s: State, t: State) {
    exists j :: |s.trace| <= j < |t.trace| && IsActivation(t.trace[j])
  }

  lemma SpentStep(s: State, step: Step)
    requires Inv(s) && Spent(s)
    ensures var t := Next(s, step);
      Spent(t) && s.trace <= t.trace && forall j :: |s.trace| <= j < |t.trace| ==> !IsActivation(t.trace[j])
  {
    hide Queued, Worker, Observed, Accounted, Spent, Submit, SubmitOwned, CheckWorker;
    match step
    case DoSubmit(finite, callable, permit) => SpentRefuses(s, finite, callable, permit);
    case DoOwned(callable, permit) => SpentRefuses(s, true, callable, permit);
    case DoStart(spawn) => SpentStarts(s, spawn);
    case DoIssue => SpentChecks(s);
    case _ => SpentWorks(s, step);
  }

  lemma SpentStarts(s: State, spawn: Spawn)
    requires Worker(s) && Spent(s)
    ensures var t := Start(s, spawn).0;
      Spent(t) && s.trace <= t.trace && forall j :: |s.trace| <= j < |t.trace| ==> !IsActivation(t.trace[j])
  {
    SpentChecks(s);
    hide CheckWorker, OpenCommands, InHand;
  }

  lemma SpentEnds(s: State, raised: bool)
    requires Spent(s) && s.worker.Calling?
    ensures var t := CommandEnds(s, s.worker.id, raised);
      Spent(t) && s.trace <= t.trace && forall j :: |s.trace| <= j < |t.trace| ==> !IsActivation(t.trace[j])
  {
    hide RefuseAll;
  }

  lemma SpentWorks(s: State, step: Step)
    requires Queued(s) && Worker(s) && Spent(s)
    requires !step.DoSubmit? && !step.DoOwned? && !step.DoStart? && !step.DoIssue?
    ensures var t := Next(s, step);
      Spent(t) && s.trace <= t.trace && forall j :: |s.trace| <= j < |t.trace| ==> !IsActivation(t.trace[j])
  {
    hide CheckWorker, Submit, SubmitOwned, OpenCommands, InHand, RefuseAll, CommandEnds;
    if step.DoCommandEnds? && s.thread.Alive? && s.worker.Calling? { SpentEnds(s, step.raised); }
  }

  lemma SpentChecks(s: State)
    requires Spent(s)
    ensures var t := CheckWorker(s).0;
      Spent(t) && s.trace <= t.trace && forall j :: |s.trace| <= j < |t.trace| ==> !IsActivation(t.trace[j])
  {
    hide RefuseAll;
  }

  lemma SpentRefuses(s: State, finite: bool, callable: bool, permit: Permit)
    requires Spent(s)
    ensures forall t :: t == Submit(s, finite, callable, permit).0 || t == SubmitOwned(s, callable, permit).0 ==>
      Spent(t) && s.trace <= t.trace && forall j :: |s.trace| <= j < |t.trace| ==> !IsActivation(t.trace[j])
  {
    SpentChecks(s);
    LatchExtends(s.(failed := true, accepting := false), UnsafeState);
    hide RefuseAll;
  }

  lemma {:induction false} SpentStays(s: State, steps: seq<Step>)
    requires Inv(s) && Spent(s)
    ensures s.trace <= Run(s, steps).trace && !ActivatesBeyond(s, Run(s, steps))
    decreases |steps|
  {
    if steps == [] {
    } else {
      NextKeepsInv(s, steps[0]);
      SpentStep(s, steps[0]);
      hide Next, Inv, Spent;
      SpentStays(Next(s, steps[0]), steps[1..]);
    }
  }

  /** Once latched, something can still be activated if and only if the living worker has a command in its hands that it
      has not called yet. */
  lemma LateStartIff(before: seq<Step>)
    requires Run(INIT, before).latched
    ensures var s := Run(INIT, before);
      (exists more :: ActivatesBeyond(s, Run(s, more))) <==> s.thread.Alive? && s.worker.Taken?
  {
    InitInv();
    RunKeepsInv(INIT, before);
    var s := Run(INIT, before);
    hide Inv;
    if s.thread.Alive? && s.worker.Taken? {
      var t := Next(s, DoCall);
      assert [DoCall][1..] == [] && Run(s, [DoCall]) == t;
      assert t.trace[|s.trace|] == Started(s.worker.id);
      assert ActivatesBeyond(s, Run(s, [DoCall]));
    } else {
      forall more ensures !ActivatesBeyond(s, Run(s, more)) { SpentStays(s, more); }
    }
  }

  /** So a start can follow the latch, and the zero tried under it. */
  lemma StartMayFollowLatch()
    ensures Run(INIT, [DoStart(Runs), DoSubmit(true, true, Owned(0)), DoTake, DoLatchAndZero(true), DoCall]).trace
      == [Took(0), LatchSet, ZeroTried(true), Started(0)]
  {
    hide RefuseAll;
    var steps := [DoStart(Runs), DoSubmit(true, true, Owned(0)), DoTake, DoLatchAndZero(true), DoCall];
    var s1 := Next(INIT, steps[0]);
    var s2 := Next(s1, steps[1]);
    var s3 := Next(s2, steps[2]);
    var s4 := Next(s3, steps[3]);
    var s5 := Next(s4, steps[4]);
    assert s5.trace == [Took(0), LatchSet, ZeroTried(true), Started(0)];
    RunStep(INIT, steps);
    RunStep(s1, steps[1..]);
    RunStep(s2, steps[1..][1..]);
    RunStep(s3, steps[1..][1..][1..]);
    RunStep(s4, steps[1..][1..][1..][1..]);
  }

  lemma RunStep(s: State, steps: seq<Step>)
    requires steps != []
    ensures Run(s, steps) == Run(Next(s, steps[0]), steps[1..])
  {
  }

  /** Commands are invoked in submission order, each at most once, and those invoked are a prefix of those accepted. */
  lemma InvokedIsFifoPrefix(steps: seq<Step>)
    ensures var s := Run(INIT, steps);
      && |s.invoked| <= |s.issued|
      && (forall k :: 0 <= k < |s.invoked| ==> s.invoked[k] == k)
      && |s.invoked| <= s.taken <= |s.invoked| + 1 && s.taken <= |s.issued|
      && (!s.latched ==> s.queue == seq(|s.issued| - s.taken, k => s.taken + k))
  {
    RunKeepsInv(INIT, steps);
  }

  /** No receipt is lost: one that has no outcome is queued or in flight, and the queue's count of unfinished tasks is
      exact. */
  lemma ReceiptsAreAccountedFor(steps: seq<Step>)
    ensures var s := Run(INIT, steps);
      && s.unfinished == |s.queue| + (if s.inFlight.Some? then 1 else 0)
      && (s.latched ==> s.queue == [])
      && (s.latched <==> s.generation > 0)
      && forall id: nat :: id < |s.issued| ==> (id in s.outcomes || id in s.queue || s.inFlight == Some(id))
  {
    RunKeepsInv(INIT, steps);
  }

  /** A receipt's outcome never changes, whatever happens later: a command that returns late does not overwrite the
      timeout its submitter was given. */
  lemma OutcomeIsWrittenOnce(before: seq<Step>, after: seq<Step>, id: nat)
    requires id in Run(INIT, before).outcomes
    ensures id in Run(Run(INIT, before), after).outcomes
    ensures Run(Run(INIT, before), after).outcomes[id] == Run(INIT, before).outcomes[id]
  {
    RunKeepsInv(INIT, before);
    RunExtends(Run(INIT, before), after);
  }

  /** The branch in which the worker refuses a dequeued receipt is unreachable: whatever it dequeues it calls. */
  lemma WorkerNeverRefuses(steps: seq<Step>)
    requires var s := Run(INIT, steps); s.thread.Alive? && s.worker.AtTop? && s.queue != []
    ensures var s := Run(INIT, steps); Next(s, DoTake).worker == Taken(s.queue[0])
  {
    InitInv();
    hide Inv, Take;
    RunKeepsInv(INIT, steps);
    TakeKeepsInv(Run(INIT, steps));
  }

  /** What a stop does to the sequencer and what it answers, when its wait ends with `drained`. */
  function StopAnswer(s: State, callable: bool, zeroAccepted: bool, drained: bool): (State, StopResult) {
    if callable then (LatchAndZero(s, zeroAccepted), StopOutcome(drained, zeroAccepted)) else (s, UNCALLABLE_ZERO)
  }

  /** Every answer claims a latch. The claim is true exactly when the zero command can be called or something latched
      before; an uncallable zero can therefore be answered "latched, quiesced" while a command is still open. */
  lemma ClaimedLatchIsRealIffCallable(s: State, callable: bool, zeroAccepted: bool, drained: bool)
    ensures StopAnswer(s, callable, zeroAccepted, drained).1.latched
    ensures StopAnswer(s, callable, zeroAccepted, drained).0.latched <==> callable || s.latched
    ensures var r := Run(INIT, [DoStart(Runs), DoSubmit(true, true, Owned(0)), DoTake, DoCall]);
      && StopAnswer(r, false, zeroAccepted, drained).1.quiesced
      && !StopAnswer(r, false, zeroAccepted, drained).0.latched
      && 0 in OpenCommands(StopAnswer(r, false, zeroAccepted, drained).0.trace)
  {
    CallInFlight();
  }

  /** A run that leaves the first command open. */
  lemma CallInFlight()
    ensures Run(INIT, [DoStart(Runs), DoSubmit(true, true, Owned(0)), DoTake, DoCall]).trace == [Took(0), Started(0)]
    ensures !Run(INIT, [DoStart(Runs), DoSubmit(true, true, Owned(0)), DoTake, DoCall]).latched
    ensures 0 in OpenCommands([Took(0), Started(0)])
  {
    hide RefuseAll;
    var steps := [DoStart(Runs), DoSubmit(true, true, Owned(0)), DoTake, DoCall];
    var s1 := Next(INIT, steps[0]);
    var s2 := Next(s1, steps[1]);
    var s3 := Next(s2, steps[2]);
    var s4 := Next(s3, steps[3]);
    RunStep(INIT, steps);
    RunStep(s1, steps[1..]);
    RunStep(s2, steps[1..][1..]);
    RunStep(s3, steps[1..][1..][1..]);
    assert s4.trace == [Took(0), Started(0)] && s4.trace[..1] == [Took(0)] && [Took(0)][..0] == [];
  }

  // ----- what each operation answers -----

  /** The worker is there and may be given commands. */
  predicate Working(s: State) {
    s.thread.Alive? && s.accepting && !s.closed && !s.failed
  }

  /** A permit that is current. */
  predicate Takes(s: State, permit: Permit) {
    Working(s) && !s.latched && permit == Owned(s.generation)
  }

  /** The caller finds the worker dead: that fails the sequencer. */
  predicate FindsItDead(s: State) {
    s.thread.Dead? && !s.closed
  }

  /** `t` is `s` latched: the queue is gone, and each receipt in it that had no outcome is refused with `code`. */
  ghost predicate Latches(s: State, t: State, code: Refusal) {
    && t.latched && t.generation == s.generation + 1 && t.queue == [] && t.unfinished == s.unfinished - |s.queue|
    && t.inFlight == s.inFlight && t.worker == s.worker && t.issued == s.issued && t.invoked == s.invoked
    && (forall id :: id in t.outcomes <==> id in s.outcomes || id in s.queue)
    && (forall id :: id in s.outcomes ==> t.outcomes[id] == s.outcomes[id])
    && (forall id :: id in s.queue && id !in s.outcomes ==> t.outcomes[id] == Rejected(code))
  }

  lemma LatchLatches(s: State, code: Refusal)
    ensures Latches(s, Latch(s, code), code)
  {
  }

  /** Finding the worker dead latches and fails; otherwise looking changes nothing. */
  lemma CheckWorkerIff(s: State)
    ensures var (t, ready) := CheckWorker(s);
      && (ready <==> Working(s))
      && (if FindsItDead(s) then Latches(s, t, UnsafeState) && t.failed && !t.accepting else t == s)
  {
    hide RefuseAll;
    LatchLatches(s.(failed := true, accepting := false), UnsafeState);
  }

  /** When a submission is accepted: exactly when command and wait are well-formed, the permit is current, the worker works
      and there is room in the queue, however many commands are queued already; and then the command is queued and
      nothing else changes. A refusal changes nothing either, except that a current permit meeting a full queue, and any
      permit meeting a dead worker, latch. */
  lemma SubmitIff(s: State, finite: bool, callable: bool, permit: Permit)
    requires Inv(s)
    ensures var (t, receipt) := Submit(s, finite, callable, permit);
      && (receipt.Ok? <==> finite && callable && Takes(s, permit) && |s.queue| < QUEUE_CAPACITY)
      && (receipt.Ok? ==>
            && receipt.value == |s.issued|
            && t == s.(queue := s.queue + [receipt.value], issued := s.issued + [permit.generation], unfinished := s.unfinished + 1))
      && (receipt.Err? ==>
            if finite && callable && Takes(s, permit) then Latches(s, t, Refusal.Latched)
            else if finite && callable && permit.Owned? && FindsItDead(s) then Latches(s, t, UnsafeState)
            else t == s)
      && (receipt == Err(ProfileInvalid) <==> !finite || !callable || permit.Foreign?)
      && (receipt == Err(Refusal.Latched) <==>
            finite && callable && permit.Owned? && Working(s) && (s.latched || permit.generation != s.generation))
  {
    CheckWorkerIff(s);
    LatchLatches(s, Refusal.Latched);
    hide Inv, Latch, CheckWorker;
  }

  /** The same for a command run inline, which needs no room. */
  lemma OwnedIff(s: State, callable: bool, permit: Permit)
    requires Inv(s)
    ensures var (t, admitted) := SubmitOwned(s, callable, permit);
      && (admitted.Ok? <==> callable && Takes(s, permit))
      && (admitted.Ok? ==> t == s.(trace := s.trace + [OwnedRan]))
      && (admitted.Err? ==>
            if callable && permit.Owned? && FindsItDead(s) then Latches(s, t, UnsafeState) else t == s)
      && (admitted == Err(ProfileInvalid) <==> !callable || permit.Foreign?)
  {
    CheckWorkerIff(s);
    hide Inv, Latch, CheckWorker;
  }

  /** A permit is issued exactly when nothing has stopped or closed the sequencer, started or not; and it is current. */
  lemma IssueIff(s: State)
    requires Inv(s)
    ensures var (t, permit) := Issue(s);
      && (permit.Ok? <==> !s.closed && !s.failed && !s.latched && (s.thread.Absent? || Working(s)))
      && (permit.Ok? ==> permit.value == Owned(s.generation) && t == s)
      && (permit == Err(Refusal.Latched) <==> !s.closed && !s.failed && s.latched && (s.thread.Absent? || Working(s)))
  {
    CheckWorkerIff(s);
    hide Inv, Latch, CheckWorker;
  }

  /** A first start works unless the sequencer is closed or has failed, and a spawn that does not work fails it; a later
      start only looks. */
  lemma StartIff(s: State, spawn: Spawn)
    requires Inv(s)
    ensures var (t, ready) := Start(s, spawn);
      && (ready <==> if s.thread.Absent? then !s.closed && !s.failed && spawn.Runs? else Working(s))
      && (ready ==> Working(t) && t.latched == s.latched)
      && (s.thread.Absent? && !s.closed && !s.failed && !ready ==> t == s.(failed := true))
  {
    CheckWorkerIff(s);
    hide Inv, Latch, CheckWorker;
  }

  /** What stopping, giving up on a wait, and closing do to what is queued. */
  lemma StopsSettle(s: State, zeroAccepted: bool, id: nat)
    requires Inv(s)
    ensures Latches(s, LatchAndZero(s, zeroAccepted), Refusal.Latched)
    ensures id < |s.issued| && id !in s.outcomes ==>
      var t := TimeOut(s, id); Latches(s.(outcomes := s.outcomes[id := Rejected(Timeout)]), t, Refusal.Latched)
    ensures id in s.outcomes ==> TimeOut(s, id) == s
    ensures if s.closed then BeginClose(s) == s
            else Latches(s, BeginClose(s), UnsafeState) && BeginClose(s).closed && !BeginClose(s).accepting
  {
    LatchLatches(s, Refusal.Latched);
    LatchLatches(s.(outcomes := s.outcomes[id := Rejected(Timeout)]), Refusal.Latched);
    hide Inv;
  }

  /** The worker at its queue, with nothing latched. */
  predicate Serving(s: State) {
    s.thread.Alive? && s.worker.AtTop? && !s.latched
  }

  lemma {:induction false} RunConcat(s: State, steps: seq<Step>, more: seq<Step>)
    ensures Run(s, steps + more) == Run(Run(s, steps), more)
    decreases |steps|
  {
    hide Next;
    if steps == [] {
      assert [] + more == more;
    } else {
      assert (steps + more)[1..] == steps[1..] + more;
      RunConcat(Next(s, steps[0]), steps[1..], more);
    }
  }

  lemma HeadIsCurrent(s: State)
    requires Queued(s) && !s.latched && s.queue != []
    ensures s.queue[0] < |s.issued| && s.issued[s.queue[0]] == s.generation
  {
  }

  lemma TakesCurrent(s: State)
    requires s.queue != [] && !s.latched && (s.queue[0] < |s.issued| ==> s.issued[s.queue[0]] == s.generation)
    ensures Take(s) == s.(queue := s.queue[1..], inFlight := Some(s.queue[0]), worker := Taken(s.queue[0]),
                          taken := s.taken + 1, trace := s.trace + [Took(s.queue[0])])
  {
  }

  lemma TakesAndCalls(s: State)
    requires Serving(s) && s.queue != [] && (s.queue[0] < |s.issued| ==> s.issued[s.queue[0]] == s.generation)
    ensures var t := Run(s, [DoTake, DoCall]);
      t == s.(queue := s.queue[1..], inFlight := Some(s.queue[0]), worker := Calling(s.queue[0]), taken := s.taken + 1,
              invoked := s.invoked + [s.queue[0]], trace := t.trace)
  {
    hide Take, Start, Issue, Submit, TimeOut, SubmitOwned, LatchAndZero, Sample, BeginClose, CommandEnds, Settle;
    TakesCurrent(s);
    var steps := [DoTake, DoCall];
    var s1 := Next(s, steps[0]);
    assert Next(s1, steps[1]) == Call(s1, s.queue[0]);
    hide Next;
    RunStep(s, steps);
    RunStep(s1, steps[1..]);
  }

  lemma EndsAndSettles(s: State, id: nat)
    requires s.thread.Alive? && s.worker == Calling(id) && s.inFlight == Some(id) && id !in s.outcomes
    ensures var t := Run(s, [DoCommandEnds(false), DoSettle]);
      t == s.(outcomes := s.outcomes[id := Returned], worker := AtTop, inFlight := None, unfinished := s.unfinished - 1,
              trace := t.trace)
  {
    hide Start, Issue, Submit, TimeOut, SubmitOwned, LatchAndZero, Sample, BeginClose, Take, FailClosed;
    var steps := [DoCommandEnds(false), DoSettle];
    var s1 := Next(s, steps[0]);
    assert Next(s1, steps[1]) == Settle(s1, id);
    RunStep(s, steps);
    RunStep(s1, steps[1..]);
  }

  /** One command, from the queue to its outcome. */
  lemma ServesOne(s: State)
    requires Inv(s) && Serving(s) && s.queue != []
    ensures var t := Run(s, [DoTake, DoCall] + [DoCommandEnds(false), DoSettle]);
      && Inv(t) && Serving(t) && t.queue == s.queue[1..] && t.invoked == s.invoked + [s.queue[0]]
      && t.outcomes == s.outcomes[s.queue[0] := Returned] && t.unfinished == s.unfinished - 1
      && t.accepting == s.accepting && t.generation == s.generation
  {
    HeadIsFresh(s);
    HeadIsCurrent(s);
    hide Inv, Run;
    TakesAndCalls(s);
    RunKeepsInv(s, [DoTake, DoCall] + [DoCommandEnds(false), DoSettle]);
    EndsAndSettles(Run(s, [DoTake, DoCall]), s.queue[0]);
    RunConcat(s, [DoTake, DoCall], [DoCommandEnds(false), DoSettle]);
  }

  /** Unless it is stopped, a living worker can serve all that is queued: every command is called, in order, and comes back
      with its outcome. */
  lemma {:induction false} QueueIsServed(s: State) returns (steps: seq<Step>)
    requires Inv(s) && Serving(s)
    ensures var t := Run(s, steps);
      && Inv(t) && Serving(t) && t.queue == [] && t.invoked == s.invoked + s.queue
      && (forall id :: id in s.queue ==> id in t.outcomes && t.outcomes[id] == Returned)
      && (forall id :: id in s.outcomes ==> id in t.outcomes && t.outcomes[id] == s.outcomes[id])
    decreases |s.queue|
  {
    hide Inv, Next;
    if s.queue == [] {
      steps := [];
    } else {
      var first := [DoTake, DoCall] + [DoCommandEnds(false), DoSettle];
      ServesOne(s);
      HeadIsFresh(s);
      var rest := QueueIsServed(Run(s, first));
      RunConcat(s, first, rest);
      steps := first + rest;
      assert s.queue == [s.queue[0]] + s.queue[1..];
      assert s.invoked + [s.queue[0]] + s.queue[1..] == s.invoked + s.queue;
    }
  }

  lemma HeadIsFresh(s: State)
    requires Inv(s) && s.queue != []
    ensures s.queue[0] !in s.outcomes
  {
    assert s.queue[0] in s.queue;
  }

  /** A command that raises closes the sequencer behind it: its receipt says so, and all that was queued is refused. */
  lemma RaisingFailsClosed(s: State)
    requires Inv(s) && s.thread.Alive? && s.worker.Calling?
    ensures var id, t := s.worker.id, CommandEnds(s, s.worker.id, true);
      && t.failed && t.latched && !t.accepting && t.queue == [] && t.worker == Settling(id)
      && id in t.outcomes && t.outcomes[id] == (if id in s.outcomes then s.outcomes[id] else CommandRaised)
      && (forall q :: q in s.queue && q !in s.outcomes && q != id ==> q in t.outcomes && t.outcomes[q] == Rejected(UnsafeState))
  {
    hide Inv;
  }
}
