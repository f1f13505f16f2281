/** End-to-end stop safety. */
module StopSystemProofs {
  import opened SafetyTypes
  import opened StopSystemSpec
  import S = SequencerSpec
  import SP = SequencerProofs
  import W = CommandWorkerSpec
  import WP = CommandWorkerProofs
  import G = GatewaySpec
  import GP = GatewayProofs

  // ----- counting -----

  lemma {:induction false} ZerosTakenGrows(t: seq<S.Event>, u: seq<S.Event>)
    requires t <= u && forall j :: |t| <= j < |u| ==> u[j] != S.ZeroTried(true)
    ensures ZerosTaken(u) == ZerosTaken(t)
    decreases |u|
  {
    if |t| < |u| {
      ZerosTakenGrows(t, u[..|u| - 1]);
    } else {
      assert t == u;
    }
  }

  lemma ZerosTakenOne(t: seq<S.Event>, e: S.Event)
    ensures ZerosTaken(t + [e]) == ZerosTaken(t) + (if e == S.ZeroTried(true) then 1 else 0)
  {
    assert (t + [e])[..|t|] == t;
  }

  lemma ZerosSeenOne(w: seq<Wire>, e: Wire)
    ensures ZerosSeen(w + [e]) == ZerosSeen(w) + (if e.Zero? then 1 else 0)
  {
    assert (w + [e])[..|w|] == w;
  }

  // ----- what the sequencer adds to its trace -----

  ghost predicate Adds(s: S.State, t: S.State) {
    && s.trace <= t.trace
    && (forall j :: |s.trace| <= j < |t.trace| ==> !t.trace[j].ZeroTried?)
    && (Over(s) ==> Over(t) && forall j :: |s.trace| <= j < |t.trace| ==> !IsMotion(t.trace[j]))
  }

  lemma CheckWorkerAdds(s: S.State)
    ensures Adds(s, S.CheckWorker(s).0) && (s.latched ==> S.CheckWorker(s).0.latched)
  {
    hide S.RefuseAll;
  }

  lemma SubmitAdds(s: S.State, finite: bool, callable: bool, permit: S.Permit)
    ensures Adds(s, S.Submit(s, finite, callable, permit).0)
    ensures Adds(s, S.SubmitOwned(s, callable, permit).0)
  {
    CheckWorkerAdds(s);
    hide S.CheckWorker, S.RefuseAll;
  }

  lemma EndingAdds(s: S.State, raised: bool)
    requires s.worker.Calling? && !Over(s)
    ensures Adds(s, S.CommandEnds(s, s.worker.id, raised))
  {
    hide S.RefuseAll;
  }

  lemma WorkerAdds(s: S.State, step: S.Step)
    requires Over(s) ==> s.queue == [] && !s.worker.Taken? && !s.worker.Calling? && !s.worker.Settling?
    requires step.DoTake? || step.DoCall? || step.DoExit? || step.DoCommandEnds? || step.DoSettle? || step.DoDie?
    ensures Adds(s, S.Next(s, step))
  {
    hide S.RefuseAll, S.CommandEnds;
    if step.DoCommandEnds? && s.thread.Alive? && s.worker.Calling? { EndingAdds(s, step.raised); }
  }

  /** A step other than a stop tries no zero; and once activation is over, adds no motion. */
  lemma ActivationTrace(s: S.State, step: S.Step)
    requires S.Inv(s) && !IsStopStep(step)
    ensures Adds(s, S.Next(s, step))
  {
    OverFacts(s);
    hide S.Inv, S.RefuseAll, S.CheckWorker, S.Submit, S.SubmitOwned;
    match step
    case DoStart(_) => CheckWorkerAdds(s);
    case DoIssue => CheckWorkerAdds(s);
    case DoSubmit(finite, callable, permit) => SubmitAdds(s, finite, callable, permit);
    case DoOwned(callable, permit) => SubmitAdds(s, true, callable, permit);
    case DoTimeOut(_) =>
    case DoBeginClose =>
    case _ => WorkerAdds(s, step);
  }

  /** Once activation is over the worker has nothing in its hands and nothing to take. */
  lemma OverFacts(s: S.State)
    requires S.Inv(s)
    ensures Over(s) ==> s.queue == [] && !s.worker.Taken? && !s.worker.Calling? && !s.worker.Settling?
  {
  }

  lemma LatchTrace(s: S.State, taken: bool)
    ensures S.LatchAndZero(s, taken).trace == s.trace + [S.LatchSet] + [S.ZeroTried(taken)]
    ensures ZerosTaken(S.LatchAndZero(s, taken).trace) == ZerosTaken(s.trace) + (if taken then 1 else 0)
    ensures S.LatchAndZero(s, taken).inFlight == s.inFlight && S.LatchAndZero(s, taken).latched
  {
    ZerosTakenOne(s.trace, S.LatchSet);
    ZerosTakenOne(s.trace + [S.LatchSet], S.ZeroTried(taken));
  }

  // ----- marks survive every step -----

  /** What any step does to the parts a mark speaks about. */
  ghost predicate Progress(s: State, t: State) {
    && s.sequencer.trace <= t.sequencer.trace
    && (s.sequencer.latched ==> t.sequencer.latched)
    && (Over(s.sequencer) ==> Over(t.sequencer) && StillFrom(t.sequencer.trace, |s.sequencer.trace|))
    && s.wire <= t.wire
    && (Over(s.sequencer) ==> OnlyZerosFrom(t.wire, |s.wire|))
    && s.emergency.accepted <= t.emergency.accepted
    && (s.emergency.failed ==> t.emergency.failed)
    && |t.wire| <= |s.wire| + 1
    && (!t.emergency.failed ==> |t.emergency.executed| - |s.emergency.executed| <= |t.wire| - |s.wire|)
  }

  lemma MarkSurvives(s: State, t: State, m: Mark)
    requires MarkHolds(s, m) && Progress(s, t)
    ensures MarkHolds(t, m)
  {
    assert t.sequencer.trace[..m.trace] == s.sequencer.trace[..m.trace];
    if t.wire != s.wire && !t.emergency.failed {
      var added := t.wire[|s.wire|];
      assert t.wire == s.wire + [added] && added.Zero?;
      assert t.wire[m.wire..] == s.wire[m.wire..] + [added];
      ZerosSeenOne(s.wire[m.wire..], added);
    }
  }

  lemma CallerSurvives(s: State, t: State, c: Caller)
    requires CallerHolds(s, c) && Progress(s, t)
    ensures CallerHolds(t, c)
  {
    if c.mark.Some? { MarkSurvives(s, t, c.mark.value); }
  }

  lemma OthersSurvive(s: State, t: State, changed: set<nat>)
    requires Inv(s) && Progress(s, t)
    requires forall c :: c in t.callers && c !in changed ==> c in s.callers && t.callers[c] == s.callers[c]
    ensures forall c :: c in t.callers && c !in changed ==> CallerHolds(t, t.callers[c])
  {
    forall c | c in t.callers && c !in changed ensures CallerHolds(t, t.callers[c]) {
      CallerSurvives(s, t, s.callers[c]);
    }
  }

  // ----- each step -----

  lemma ActivationKeepsInv(s: State, a: S.Step)
    requires Inv(s)
    ensures Inv(Next(s, Activation(a))) && Progress(s, Next(s, Activation(a)))
  {
    hide S.Inv, W.Inv, G.Inv, S.Next, CallerHolds;
    if !IsStopStep(a) {
      SP.NextKeepsInv(s.sequencer, a);
      SP.NextExtends(s.sequencer, a);
      assert s.sequencer.latched ==> S.Next(s.sequencer, a).latched;
      ActivationTrace(s.sequencer, a);
      ZerosTakenGrows(s.sequencer.trace, S.Next(s.sequencer, a).trace);
    }
    OthersSurvive(s, Next(s, Activation(a)), {});
  }

  lemma WorkerProgress(e: W.State, w: W.Step)
    requires !w.DoSubmit?
    ensures var t := W.Next(e, w);
      && t.accepted == e.accepted && (e.failed ==> t.failed)
      && (!t.failed ==> |t.executed| - |e.executed| <= (if w.DoAdvance? && !w.raised && e.thread.Alive? && e.pc.Calling? then 1 else 0))
  {
  }

  lemma EmergencyKeepsInv(s: State, w: W.Step)
    requires Inv(s)
    ensures Inv(Next(s, Emergency(w))) && Progress(s, Next(s, Emergency(w)))
  {
    hide S.Inv, W.Inv, G.Inv, W.Next, CallerHolds;
    if !w.DoSubmit? {
      WP.NextKeepsInv(s.emergency, w);
      WorkerProgress(s.emergency, w);
    }
    OthersSurvive(s, Next(s, Emergency(w)), {});
  }

  lemma AuthorizingRecordsNoStop(g: G.State, step: G.Step, now: real)
    requires !IsCommitStep(step)
    ensures forall t :: t in G.Act(g, step, now).log && t.stop.Some? ==> t in g.log
  {
  }

  lemma AuthorizeKeepsInv(s: State, g: G.Step)
    requires Inv(s)
    ensures Inv(Next(s, Authorize(g))) && Progress(s, Next(s, Authorize(g)))
  {
    hide S.Inv, W.Inv, G.Inv, G.Act, CallerHolds;
    if !IsCommitStep(g) {
      GP.ActKeepsInv(s.gateway.gateway, g, s.gateway.clock);
      AuthorizingRecordsNoStop(s.gateway.gateway, g, s.gateway.clock);
    }
    OthersSurvive(s, Next(s, Authorize(g)), {});
  }

  lemma PublishKeepsInv(s: State, step: Step)
    requires Inv(s) && (step.PublishFromCommand? || step.PublishZero?)
    ensures Inv(Next(s, step)) && Progress(s, Next(s, step))
  {
    OverFacts(s.sequencer);
    hide S.Inv, W.Inv, G.Inv, CallerHolds;
    OthersSurvive(s, Next(s, step), {});
  }

  lemma LatchProgresses(s: S.State, taken: bool)
    requires S.Inv(s)
    ensures var t := S.LatchAndZero(s, taken);
      && S.Inv(t) && t.latched && s.trace <= t.trace
      && (Over(s) ==> Over(t)) && StillFrom(t.trace, |s.trace|)
      && ZerosTaken(t.trace) == ZerosTaken(s.trace) + (if taken then 1 else 0)
  {
    SP.StopKeepsInv(s, taken);
    LatchTrace(s, taken);
  }

  lemma LatchWithZeroProgresses(s: State)
    requires Inv(s)
    ensures var t := LatchWithZero(s).0;
      && Progress(s, t) && S.Inv(t.sequencer) && W.Inv(t.emergency) && t.sequencer.latched
      && t.emergency.accepted == ZerosTaken(t.sequencer.trace)
      && t.emergency.accepted == s.emergency.accepted + (if LatchWithZero(s).1 then 1 else 0)
  {
    hide S.Inv, W.Inv, G.Inv, S.LatchAndZero, CallerHolds;
    var em, taken := W.Submit(s.emergency).0, W.Submit(s.emergency).1;
    WP.SubmitKeepsInv(s.emergency);
    assert em.accepted == s.emergency.accepted + (if taken then 1 else 0) && em.executed == s.emergency.executed;
    LatchProgresses(s.sequencer, taken);
  }

  lemma ShotKeepsInv(s: State, c: nat)
    requires Inv(s)
    ensures Inv(Next(s, Shot(c))) && Progress(s, Next(s, Shot(c)))
  {
    hide S.Inv, W.Inv, G.Inv, S.LatchAndZero, W.Submit, CallerHolds;
    var t := Next(s, Shot(c));
    if c in s.callers && s.callers[c].Bursting? && |s.callers[c].results| < G.STOP_BURST_COUNT {
      LatchWithZeroProgresses(s);
      ShotCallerHolds(s, t, c);
      OthersSurvive(s, t, {c});
    } else {
      OthersSurvive(s, t, {});
    }
  }

  lemma ShotCallerHolds(s: State, t: State, c: nat)
    requires c in s.callers && s.callers[c].Bursting? && |s.callers[c].results| < G.STOP_BURST_COUNT
    requires CallerHolds(s, s.callers[c]) && Progress(s, t) && t.sequencer.latched && c in t.callers
    requires t.emergency.accepted == s.emergency.accepted + (if LatchWithZero(s).1 then 1 else 0)
    requires t.callers[c] == Waiting(s.callers[c].kind, s.callers[c].results, s.callers[c].mark, LatchWithZero(s).1)
    ensures CallerHolds(t, t.callers[c])
  {
    CallerSurvives(s, t, s.callers[c]);
  }

  lemma SampleProgresses(s: State)
    requires Inv(s) && s.sequencer.latched
    ensures var t := s.(sequencer := S.Sample(s.sequencer).0);
      && Progress(s, t) && S.Inv(t.sequencer) && t.emergency.accepted == ZerosTaken(t.sequencer.trace)
      && (S.Sample(s.sequencer).1 ==> MarkHolds(t, MarkOf(t)))
  {
    SP.StopKeepsInv(s.sequencer, false);
    ZerosTakenOne(s.sequencer.trace, S.StopSampled(s.sequencer.inFlight.None?));
    var t := s.(sequencer := S.Sample(s.sequencer).0);
    assert t.sequencer.trace[..|t.sequencer.trace|] == t.sequencer.trace;
    assert |s.emergency.executed| <= |s.emergency.executed + W.Held(s.emergency) + s.emergency.queue| == s.emergency.accepted;
  }

  lemma ReturnsKeepsInv(s: State, c: nat, confirmed: bool)
    requires Inv(s) && c in s.callers && s.callers[c].Waiting?
    ensures Inv(Returns(s, c, confirmed)) && Progress(s, Returns(s, c, confirmed))
  {
    hide S.Inv, W.Inv, G.Inv, S.OpenCommands, ZerosTaken, ZerosSeen;
    var w := s.callers[c];
    var t := Returns(s, c, confirmed);
    SampleProgresses(s);
    var mid := s.(sequencer := S.Sample(s.sequencer).0);
    CallerSurvives(s, mid, w);
    var b := t.callers[c];
    assert b.results[0] == (if w.results == [] then b.results[|w.results|] else w.results[0]);
    assert forall o :: o in w.results ==> o in b.results;
    assert b.results[|w.results|] in b.results;
    if b.mark.Some? {
      assert MarkHolds(mid, b.mark.value);
      assert MarkHolds(t, b.mark.value);
    }
    assert CallerHolds(t, b);
    OthersSurvive(s, t, {c});
  }

  lemma RaisesKeepsInv(s: State, c: nat)
    requires Inv(s)
    ensures Inv(Next(s, ShotRaises(c))) && Progress(s, Next(s, ShotRaises(c)))
  {
    hide S.Inv, W.Inv, G.Inv, S.OpenCommands, ZerosTaken, ZerosSeen;
    var t := Next(s, ShotRaises(c));
    if c in s.callers && s.callers[c].Bursting? && |s.callers[c].results| < G.STOP_BURST_COUNT {
      var b, n := s.callers[c], t.callers[c];
      CallerSurvives(s, t, b);
      assert n.results[|b.results|] == G.Raised && G.Raised in n.results;
      assert forall o :: o in n.results ==> o in b.results || o == G.Raised;
      OthersSurvive(s, t, {c});
    } else {
      OthersSurvive(s, t, {});
    }
  }

  lemma QuiescedBurstMeansOver(s: State, c: Caller)
    requires CallerHolds(s, c) && |c.results| == G.STOP_BURST_COUNT && G.Combined(c.results).quiesced
    ensures Over(s.sequencer)
  {
    assert G.Normalized(c.results[0]).quiesced;
    assert c.results[0] in c.results;
  }

  lemma CommittedGateway(g: G.Timed, kind: Kind, results: seq<G.CallbackOutcome>)
    requires G.Inv(g.gateway)
    ensures var h := Committed(g.gateway, kind, G.Combined(results));
      && G.Inv(h) && forall t :: t in h.log && t.stop.Some? ==> t in g.gateway.log || t.stop.value == G.Combined(results)
  {
    hide G.Inv, G.Combined;
    var step := match kind
      case Estop => G.DoCommitEstop(results)
      case Cancel => G.DoCommitCancel(results)
      case Fault => G.DoCommitFault(results);
    GP.ActKeepsInv(g.gateway, step, g.clock);
    assert Committed(g.gateway, kind, G.Combined(results)) == G.Act(g.gateway, step, g.clock);
  }

  lemma CommitKeepsInv(s: State, c: nat, audited: bool)
    requires Inv(s)
    ensures Inv(Next(s, Commit(c, audited))) && Progress(s, Next(s, Commit(c, audited)))
  {
    hide S.Inv, W.Inv, G.Inv, S.OpenCommands, ZerosTaken, ZerosSeen, Committed, G.Combined;
    var t := Next(s, Commit(c, audited));
    if c in s.callers && s.callers[c].Bursting? && |s.callers[c].results| == G.STOP_BURST_COUNT {
      var b := s.callers[c];
      CommittedGateway(s.gateway, b.kind, b.results);
      if G.Combined(b.results).quiesced { QuiescedBurstMeansOver(s, b); }
      CallerSurvives(s, t, b);
      OthersSurvive(s, t, {c});
    } else {
      OthersSurvive(s, t, {});
    }
  }

  lemma StrayStopKeepsInv(s: State)
    requires Inv(s)
    ensures Inv(Next(s, StrayStop)) && Progress(s, Next(s, StrayStop))
  {
    hide S.Inv, W.Inv, G.Inv, S.LatchAndZero, W.Submit, CallerHolds;
    LatchWithZeroProgresses(s);
    OthersSurvive(s, Next(s, StrayStop), {});
  }

  lemma BeginKeepsInv(s: State, c: nat, kind: Kind)
    requires Inv(s)
    ensures Inv(Next(s, Begin(c, kind))) && Progress(s, Next(s, Begin(c, kind)))
  {
    hide S.Inv, W.Inv, G.Inv;
    OthersSurvive(s, Next(s, Begin(c, kind)), if c in s.callers then {} else {c});
  }

  lemma NextKeepsInv(s: State, step: Step)
    requires Inv(s)
    ensures Inv(Next(s, step)) && Progress(s, Next(s, step))
  {
    hide Inv, S.Next, W.Next, G.Next, LatchWithZero, Returns, Committed, G.Combined;
    match step
    case Activation(a) => ActivationKeepsInv(s, a);
    case Emergency(w) => EmergencyKeepsInv(s, w);
    case Authorize(g) => AuthorizeKeepsInv(s, g);
    case PublishFromCommand => PublishKeepsInv(s, step);
    case PublishZero => PublishKeepsInv(s, step);
    case StrayStop => StrayStopKeepsInv(s);
    case Begin(c, kind) => BeginKeepsInv(s, c, kind);
    case Shot(c) => ShotKeepsInv(s, c);
    case ShotReturns(c, confirmed) => if c in s.callers && s.callers[c].Waiting? { ReturnsKeepsInv(s, c, confirmed); }
    case ShotRaises(c) => RaisesKeepsInv(s, c);
    case Commit(c, audited) => CommitKeepsInv(s, c, audited);
  }

  lemma {:induction false} RunKeepsInv(s: State, steps: seq<Step>)
    requires Inv(s)
    ensures Inv(Run(s, steps))
    ensures s.sequencer.trace <= Run(s, steps).sequencer.trace && s.wire <= Run(s, steps).wire
    decreases |steps|
  {
    hide Inv, Next;
    if steps == [] {
    } else {
      NextKeepsInv(s, steps[0]);
      RunKeepsInv(Next(s, steps[0]), steps[1..]);
    }
  }

  lemma {:induction false} FinishedStays(s: State, steps: seq<Step>, c: nat)
    requires c in s.callers && s.callers[c].Finished?
    ensures c in Run(s, steps).callers && Run(s, steps).callers[c] == s.callers[c]
    decreases |steps|
  {
    if steps == [] {
    } else {
      FinishedStays(Next(s, steps[0]), steps[1..], c);
    }
  }

  ghost predicate Reachable(s: State) {
    exists mode, timeout, clock, steps :: s == Run(Init(mode, timeout, clock), steps)
  }

  lemma ReachableInv(s: State)
    requires Reachable(s)
    ensures Inv(s)
  {
    hide Run;
    var mode, timeout, clock, steps :| s == Run(Init(mode, timeout, clock), steps);
    RunKeepsInv(Init(mode, timeout, clock), steps);
  }

  // ----- the theorems -----

  /** When an emergency stop has returned normally, motion is over for good: from the moment its first shot returned,
      no activation starts, ends or is open, no non-zero velocity appears on the topic, at least two zeros were handed
      to the emergency worker, and once that worker has run what it accepted (without a failure) at least two zeros
      are the last thing on the topic. All of this still holds after any further steps of anybody. */
  lemma SuccessfulStopIsFinal(s: State, c: nat, more: seq<Step>)
    requires Reachable(s) && c in s.callers && s.callers[c].Finished? && s.callers[c].success
    ensures s.callers[c].mark.Some?
    ensures FinalFrom(s, s.callers[c].mark.value) && FinalFrom(Run(s, more), s.callers[c].mark.value)
  {
    ReachableInv(s);
    RunKeepsInv(s, more);
    FinishedStays(s, more, c);
    SuccessImpliesFinal(s, c);
    SuccessImpliesFinal(Run(s, more), c);
  }

  /** What a successful stop leaves behind, seen from the moment `m` at which its first shot returned. */
  ghost predicate FinalFrom(s: State, m: Mark) {
    && m.trace <= |s.sequencer.trace| && m.wire <= |s.wire|
    && s.sequencer.latched
    && S.OpenCommands(s.sequencer.trace[..m.trace]) == {}
    && StillFrom(s.sequencer.trace, m.trace)
    && OnlyZerosFrom(s.wire, m.wire)
    && ZerosTaken(s.sequencer.trace) >= ZerosTaken(s.sequencer.trace[..m.trace]) + 2
    && (!s.emergency.failed && |s.emergency.executed| == s.emergency.accepted ==> ZerosSeen(s.wire[m.wire..]) >= 2)
  }

  lemma SuccessImpliesFinal(s: State, c: nat)
    requires Inv(s) && c in s.callers && s.callers[c].Finished? && s.callers[c].success
    ensures s.callers[c].mark.Some? && FinalFrom(s, s.callers[c].mark.value)
  {
    var f := s.callers[c];
    assert CallerHolds(s, f);
    GP.BurstResult(f.results);
    assert forall o :: o in f.results ==> Good(o);
    assert f.results[0] in f.results;
    assert MarkHolds(s, f.mark.value);
  }

  /** A stop recorded by the gateway as quiesced tells the truth, forever. */
  lemma QuiescedRecordsAreTrue(s: State, i: nat, more: seq<Step>)
    requires Reachable(s) && i < |s.gateway.gateway.log|
    requires s.gateway.gateway.log[i].stop.Some? && s.gateway.gateway.log[i].stop.value.quiesced
    ensures Over(Run(s, more).sequencer) && S.OpenCommands(Run(s, more).sequencer.trace) == {}
  {
    ReachableInv(s);
    RunKeepsInv(s, more);
    OverForGood(s, more);
  }

  lemma {:induction false} OverForGood(s: State, more: seq<Step>)
    requires Inv(s) && Over(s.sequencer)
    ensures Over(Run(s, more).sequencer)
    decreases |more|
  {
    hide Inv, Next;
    if more == [] {
    } else {
      NextKeepsInv(s, more[0]);
      OverForGood(Next(s, more[0]), more[1..]);
    }
  }

  /** Once activation is over, only zeros are published. */
  lemma {:induction false} OverRun(s: State, more: seq<Step>)
    requires Inv(s) && Over(s.sequencer)
    ensures s.wire <= Run(s, more).wire && OnlyZerosFrom(Run(s, more).wire, |s.wire|)
    decreases |more|
  {
    hide Inv, Next;
    if more == [] {
    } else {
      NextKeepsInv(s, more[0]);
      OverRun(Next(s, more[0]), more[1..]);
    }
  }

  /** Within a burst quiescence is monotone: after a shot that returned quiesced, every later shot that returns does
      too. */
  lemma QuiescenceIsMonotone(s: State, c: nat, confirmed: bool)
    requires Reachable(s) && c in s.callers && s.callers[c].Waiting?
    requires exists o :: o in s.callers[c].results && o.Returned? && o.result.quiesced
    ensures var results := Next(s, ShotReturns(c, confirmed)).callers[c].results;
      results[|results| - 1].Returned? && results[|results| - 1].result.quiesced
  {
    ReachableInv(s);
  }

  // ----- what a stop answers -----

  /** One shot: it latches, empties the queue and settles what was queued, and hands over a zero exactly when the emergency
      worker takes one. */
  lemma ShotLatches(s: State, c: nat)
    requires c in s.callers && s.callers[c].Bursting? && |s.callers[c].results| < G.STOP_BURST_COUNT
    ensures var t := Next(s, Shot(c));
      && t.callers[c] == Waiting(s.callers[c].kind, s.callers[c].results, s.callers[c].mark, t.emergency.accepted > s.emergency.accepted)
      && (t.emergency.accepted > s.emergency.accepted <==> TakesZeros(s.emergency, 1))
      && t.emergency.accepted <= s.emergency.accepted + 1
      && t.sequencer.latched && t.sequencer.queue == []
      && t.sequencer.generation == s.sequencer.generation + 1
      && (forall id :: id in s.sequencer.queue ==> id in t.sequencer.outcomes)
      && t.sequencer.trace == s.sequencer.trace + [S.LatchSet, S.ZeroTried(t.emergency.accepted > s.emergency.accepted)]
  {
    hide ZerosTaken, ZerosSeen;
  }

  /** The emergency worker has room for `n` more commands. */
  predicate TakesZeros(e: W.State, n: nat) {
    e.accepting && !e.failed && e.thread.Alive? && |e.queue| + n <= W.QUEUE_CAPACITY
  }

  /** A shot that returns says what it saw: latched, quiesced exactly when nothing was in flight, accepted exactly when the
      zero was taken and, where the channel asks for it, carried out. */
  lemma ShotSaysWhatItSaw(s: State, c: nat, confirmed: bool)
    requires c in s.callers && s.callers[c].Waiting?
    ensures var t := Next(s, ShotReturns(c, confirmed));
      && t.callers[c].Bursting? && t.callers[c].kind == s.callers[c].kind && |t.callers[c].results| == |s.callers[c].results| + 1
      && t.callers[c].results[..|s.callers[c].results|] == s.callers[c].results
      && var o := t.callers[c].results[|s.callers[c].results|];
      && o.Returned? && o.result.latched
      && (o.result.quiesced <==> s.sequencer.inFlight.None?)
      && (o.result.accepted <==> s.callers[c].zeroAccepted && confirmed)
      && (o.result.code == EstopLatched <==> o.result.Successful())
  {
  }

  /** When a stop answers success: exactly when each of its shots returned latched, quiesced and accepted, and the
      transition it makes, if it makes one, is on record. */
  lemma StopAnswersIff(s: State, c: nat, audited: bool)
    requires c in s.callers && s.callers[c].Bursting? && |s.callers[c].results| == G.STOP_BURST_COUNT
    ensures var t, b := Next(s, Commit(c, audited)), s.callers[c];
      && t.callers[c].Finished? && t.callers[c].kind == b.kind && t.callers[c].results == b.results
      && (b.kind.Estop? ==> t.gateway.gateway.state == ESTOPPED)
      && (t.callers[c].success <==>
            && (forall k :: 0 <= k < G.STOP_BURST_COUNT ==>
                  && b.results[k].Returned? && b.results[k].result.latched
                  && b.results[k].result.quiesced && b.results[k].result.accepted)
            && (if t.gateway.gateway.log == s.gateway.gateway.log then !b.kind.Cancel? else audited))
  {
    GP.BurstResult(s.callers[c].results);
    assert forall k :: 0 <= k < G.STOP_BURST_COUNT ==> s.callers[c].results[k] in s.callers[c].results;
    hide G.Combined;
    assert G.Move(s.gateway.gateway, ESTOPPED, None).log != s.gateway.gateway.log;
  }

  lemma RunStep(s: State, steps: seq<Step>)
    requires steps != []
    ensures Run(s, steps) == Run(Next(s, steps[0]), steps[1..])
  {
  }

  /** The emergency worker takes zeros, nothing is in flight, and `c` has `n` good shots behind it. */
  predicate Ready(s: State, c: nat, kind: Kind, n: nat) {
    && n <= G.STOP_BURST_COUNT && TakesZeros(s.emergency, G.STOP_BURST_COUNT - n) && s.sequencer.inFlight.None?
    && c in s.callers && s.callers[c].Bursting? && s.callers[c].kind == kind && |s.callers[c].results| == n
    && forall k :: 0 <= k < n ==> Good(s.callers[c].results[k])
  }

  lemma ReadyShot(s: State, c: nat, kind: Kind, n: nat)
    requires Ready(s, c, kind, n) && n < G.STOP_BURST_COUNT
    ensures var t := Next(Next(s, Shot(c)), ShotReturns(c, true)); Ready(t, c, kind, n + 1) && t.gateway == s.gateway
  {
    ShotSaysWhatItSaw(Next(s, Shot(c)), c, true);
    hide S.RefuseAll, ZerosTaken, ZerosSeen;
  }

  /** A stop that meets nothing in flight and an emergency worker with room for its zeros answers success, unless it is a
      cancellation that comes too late. */
  lemma QuietStopSucceeds(s: State, c: nat, kind: Kind)
    requires c !in s.callers && s.sequencer.inFlight.None? && TakesZeros(s.emergency, G.STOP_BURST_COUNT)
    requires kind.Cancel? ==> s.gateway.gateway.state == RUNNING
    ensures var t := Run(s, [Begin(c, kind), Shot(c), ShotReturns(c, true), Shot(c), ShotReturns(c, true), Shot(c),
                             ShotReturns(c, true), Commit(c, true)]);
      c in t.callers && t.callers[c].Finished? && t.callers[c].success
  {
    var steps := [Begin(c, kind), Shot(c), ShotReturns(c, true), Shot(c), ShotReturns(c, true), Shot(c),
                  ShotReturns(c, true), Commit(c, true)];
    var s1 := Next(s, steps[0]);
    assert Ready(s1, c, kind, 0);
    hide Next, Ready;
    var s2 := Next(s1, steps[1]);
    var s3 := Next(s2, steps[2]);
    var s4 := Next(s3, steps[3]);
    var s5 := Next(s4, steps[4]);
    var s6 := Next(s5, steps[5]);
    var s7 := Next(s6, steps[6]);
    ReadyShot(s1, c, kind, 0);
    ReadyShot(s3, c, kind, 1);
    ReadyShot(s5, c, kind, 2);
    ReadyAnswers(s7, c, kind);
    RunStep(s, steps);
    RunStep(s1, steps[1..]);
    RunStep(s2, steps[1..][1..]);
    RunStep(s3, steps[1..][1..][1..]);
    RunStep(s4, steps[1..][1..][1..][1..]);
    RunStep(s5, steps[1..][1..][1..][1..][1..]);
    RunStep(s6, steps[1..][1..][1..][1..][1..][1..]);
    RunStep(s7, steps[1..][1..][1..][1..][1..][1..][1..]);
  }

  lemma ReadyAnswers(s: State, c: nat, kind: Kind)
    requires Ready(s, c, kind, G.STOP_BURST_COUNT) && (kind.Cancel? ==> s.gateway.gateway.state == RUNNING)
    ensures var t := Next(s, Commit(c, true)); c in t.callers && t.callers[c].Finished? && t.callers[c].success
  {
    StopAnswersIff(s, c, true);
    hide G.Combined;
  }

  /** So success is possible: with the emergency worker started, the first stop of a system answers it. */
  lemma FirstStopSucceeds(mode: G.Mode, heartbeatTimeout: Option<real>, clock: real)
    ensures var s := Run(Init(mode, heartbeatTimeout, clock), [Emergency(W.DoStart(true))]);
      var t := Run(s, [Begin(0, Estop), Shot(0), ShotReturns(0, true), Shot(0), ShotReturns(0, true), Shot(0),
                       ShotReturns(0, true), Commit(0, true)]);
      0 in t.callers && t.callers[0].Finished? && t.callers[0].success
  {
    var s0 := Init(mode, heartbeatTimeout, clock);
    RunStep(s0, [Emergency(W.DoStart(true))]);
    QuietStopSucceeds(Run(s0, [Emergency(W.DoStart(true))]), 0, Estop);
    hide Ready;
  }
}
