/** The bounded worker that owns calls into a transport (the emergency worker carries the zero commands). Accepted
    commands are numbered in order; `executed` lists those whose call has come back. */
module CommandWorkerSpec {
  import opened SafetyTypes

  const QUEUE_CAPACITY: nat := 16

  datatype Thread = Absent | Alive | Dead

  /** The loop reads the stop flag, then (if set) the queue, then fetches with a timeout, then calls. `Leaving` has
      left the loop but is still a live thread to anyone who asks. */
  datatype Pc = ReadStop | ReadEmpty | Fetch | Calling(id: nat) | Leaving

  datatype State = State(
    thread: Thread,
    pc: Pc,
    accepting: bool,
    failed: bool,
    stopSet: bool,
    queue: seq<nat>,
    accepted: nat,
    executed: seq<nat>,
    errors: set<nat>,
    closedUnstarted: bool)

  const INIT: State := State(Absent, ReadStop, false, false, false, [], 0, [], {}, false)

  function Start(s: State, runs: bool): (State, bool) {
    if !s.thread.Absent? then (s, s.accepting && s.thread.Alive? && !s.failed)
    else if !runs then (s.(failed := true), false)
    else (s.(thread := Alive, accepting := true), true)
  }

  function Submit(s: State): (State, bool) {
    if !s.accepting || s.failed || !s.thread.Alive? then (s, false)
    else if |s.queue| >= QUEUE_CAPACITY then (s.(failed := true), false)
    else (s.(queue := s.queue + [s.accepted], accepted := s.accepted + 1), true)
  }

  function BeginClose(s: State): State {
    s.(accepting := false, stopSet := true, closedUnstarted := s.closedUnstarted || s.thread.Absent?)
  }

  /** What a close answers after its wait, having found the worker `unstarted` or not when it began. */
  function CloseAnswer(s: State, unstarted: bool): bool {
    unstarted || (s.thread.Dead? && s.queue == [] && !s.failed)
  }

  function CallEnds(s: State, id: nat, raised: bool): State {
    s.(pc := ReadStop, executed := s.executed + [id], failed := s.failed || raised,
       errors := if raised then s.errors + {id} else s.errors)
  }

  /** One step of the worker thread; `raised` matters only when a command comes back. */
  function Advance(s: State, raised: bool): State {
    if !s.thread.Alive? then s
    else
      match s.pc
      case ReadStop => s.(pc := if s.stopSet then ReadEmpty else Fetch)
      case ReadEmpty => s.(pc := if s.queue == [] then Leaving else Fetch)
      case Fetch => if s.queue == [] then s.(pc := ReadStop) else s.(queue := s.queue[1..], pc := Calling(s.queue[0]))
      case Calling(id) => CallEnds(s, id, raised)
      case Leaving => s.(thread := Dead)
  }

  datatype Step = DoStart(runs: bool) | DoSubmit | DoClose | DoAdvance(raised: bool)

  function Next(s: State, step: Step): State {
    match step
    case DoStart(runs) => Start(s, runs).0
    case DoSubmit => Submit(s).0
    case DoClose => BeginClose(s)
    case DoAdvance(raised) => Advance(s, raised)
  }

  function Run(s: State, steps: seq<Step>): State
    decreases |steps|
  {
    if steps == [] then s else Run(Next(s, steps[0]), steps[1..])
  }

  function Held(s: State): seq<nat> {
    if s.pc.Calling? then [s.pc.id] else []
  }

  /** A command was accepted and will never run: the thread is gone and the queue is not empty. */
  predicate Lost(s: State) {
    s.thread.Dead? && s.queue != []
  }

  /** Whether an accepted command can still get lost: the close came before the successful start, and the worker still
      accepts commands or has left its loop with some in the queue. */
  predicate CanLose(s: State) {
    match s.thread
    case Absent => !s.failed
    case Alive => s.closedUnstarted && ((s.accepting && !s.failed) || (s.pc.Leaving? && s.queue != []))
    case Dead => s.queue != []
  }

  function UpTo(n: nat): seq<nat> {
    seq(n, k => k)
  }

  /** Executed, in the worker's hands and queued, in that order, are all the accepted commands. */
  ghost predicate Inv(s: State) {
    && s.executed + Held(s) + s.queue == UpTo(s.accepted)
    && |s.queue| <= QUEUE_CAPACITY
    && s.errors <= (set id | id in s.executed)
    && (s.errors != {} ==> s.failed)
    && (s.thread.Absent? ==> s.accepted == 0 && !s.accepting && s.pc.ReadStop? && (s.stopSet ==> s.closedUnstarted))
    && (s.thread.Dead? ==> s.pc.Leaving?)
    && (s.closedUnstarted ==> s.stopSet)
    && (!s.closedUnstarted && s.stopSet ==> !s.accepting)
    && (s.pc.ReadEmpty? || s.pc.Leaving? ==> s.stopSet)
    && (!s.closedUnstarted && s.pc.Leaving? ==> s.queue == [])
  }
}

module CommandWorkerProofs {
  import opened SafetyTypes
  import opened CommandWorkerSpec

  lemma CallEndsKeepsInv(s: State, raised: bool)
    requires Inv(s) && s.pc.Calling? && s.thread.Alive?
    ensures Inv(CallEnds(s, s.pc.id, raised))
  {
    var t := CallEnds(s, s.pc.id, raised);
    assert t.executed + Held(t) + t.queue == s.executed + Held(s) + s.queue;
    assert s.pc.id in t.executed by { assert t.executed[|s.executed|] == s.pc.id; }
    forall id | id in s.executed ensures id in t.executed {
      var k :| 0 <= k < |s.executed| && s.executed[k] == id;
      assert t.executed[k] == id;
    }
  }

  lemma FetchKeepsInv(s: State)
    requires Inv(s) && s.pc.Fetch? && s.thread.Alive?
    ensures Inv(Advance(s, false))
  {
    var t := Advance(s, false);
    if s.queue != [] {
      assert s.queue == [s.queue[0]] + s.queue[1..];
      assert t.executed + Held(t) + t.queue == s.executed + Held(s) + s.queue;
    }
  }

  lemma AdvanceKeepsInv(s: State, raised: bool)
    requires Inv(s)
    ensures Inv(Advance(s, raised))
  {
    if s.thread.Alive? {
      match s.pc
      case Calling(id) => CallEndsKeepsInv(s, raised);
      case Fetch => FetchKeepsInv(s);
      case _ => assert Held(Advance(s, raised)) == Held(s);
    }
  }

  lemma SubmitKeepsInv(s: State)
    requires Inv(s)
    ensures Inv(Submit(s).0)
  {
    var t := Submit(s).0;
    if Submit(s).1 {
      calc {
        t.executed + Held(t) + t.queue;
        (s.executed + Held(s) + s.queue) + [s.accepted];
        UpTo(s.accepted) + [s.accepted];
        UpTo(s.accepted + 1);
      }
    }
  }

  lemma NextKeepsInv(s: State, step: Step)
    requires Inv(s)
    ensures Inv(Next(s, step))
  {
    match step
    case DoStart(runs) =>
    case DoSubmit => SubmitKeepsInv(s);
    case DoClose =>
    case DoAdvance(raised) => AdvanceKeepsInv(s, raised);
  }

  lemma {:induction false} RunKeepsInv(s: State, steps: seq<Step>)
    requires Inv(s)
    ensures Inv(Run(s, steps))
    decreases |steps|
  {
    if steps == [] {
    } else {
      NextKeepsInv(s, steps[0]);
      RunKeepsInv(Next(s, steps[0]), steps[1..]);
    }
  }

  /** Commands run in the order they were accepted, each exactly once; those not yet run are in the worker's hands or
      still queued. */
  lemma AcceptedRunInOrder(steps: seq<Step>)
    ensures var s := Run(INIT, steps); s.executed + Held(s) + s.queue == UpTo(s.accepted)
  {
    RunKeepsInv(INIT, steps);
  }

  /** A worker that has ended has run everything it ever accepted, unless a command is left in its queue. */
  lemma EndedWorkerRanEverything(steps: seq<Step>)
    requires Run(INIT, steps).thread.Dead?
    ensures var s := Run(INIT, steps);
      && (s.executed == UpTo(s.accepted) <==> s.queue == [])
      && (!s.closedUnstarted ==> s.queue == [])
  {
    RunKeepsInv(INIT, steps);
    var s := Run(INIT, steps);
    assert s.executed + Held(s) + s.queue == s.executed + s.queue;
    assert s.queue == [] ==> s.executed + s.queue == s.executed;
    assert |s.executed| + |s.queue| == s.accepted;
  }

  /** A close that found the worker started and answers true tells the truth: everything accepted has run, and nothing
      raised. A worker that was started before it was closed makes every such close answer true unless it failed. */
  lemma CloseTellsTheTruth(steps: seq<Step>)
    ensures var s := Run(INIT, steps);
      && (CloseAnswer(s, false) ==> s.executed == UpTo(s.accepted) && s.errors == {})
      && (s.thread.Dead? && !s.closedUnstarted ==> (CloseAnswer(s, false) <==> !s.failed))
      && (s.thread.Absent? ==> s.accepted == 0)
  {
    RunKeepsInv(INIT, steps);
    var s := Run(INIT, steps);
    if s.thread.Dead? { EndedWorkerRanEverything(steps); }
  }

  /** A start works exactly when the thread comes up, and once it has, a submit is accepted exactly when there is room: a
      full queue fails the worker. */
  lemma AcceptsIff(s: State, runs: bool)
    requires Inv(s)
    ensures Start(s, runs).1 <==> if s.thread.Absent? then runs else s.accepting && s.thread.Alive? && !s.failed
    ensures Submit(s).1 <==> s.accepting && !s.failed && s.thread.Alive? && |s.queue| < QUEUE_CAPACITY
    ensures Submit(s).1 ==> Submit(s).0 == s.(queue := s.queue + [s.accepted], accepted := s.accepted + 1)
    ensures !Submit(s).1 ==>
      Submit(s).0 == if s.accepting && !s.failed && s.thread.Alive? then s.(failed := true) else s
  {
  }

  // ----- when a command is lost -----

  lemma {:induction false} RunConcat(s: State, steps: seq<Step>, more: seq<Step>)
    ensures Run(s, steps + more) == Run(Run(s, steps), more)
    decreases |steps|
  {
    if steps == [] {
      assert [] + more == more;
    } else {
      RunConcat(Next(s, steps[0]), steps[1..], more);
      assert (steps + more)[1..] == steps[1..] + more;
    }
  }

  /** An accepting worker told to stop before it was started. */
  predicate Doomed(s: State) {
    s.thread.Alive? && s.accepting && !s.failed && s.stopSet
  }

  /** How far the loop is from leaving. */
  function Distance(s: State): nat {
    6 * |s.queue| +
    match s.pc
    case Calling(_) => 5
    case Fetch => if s.queue == [] then 4 else 1
    case ReadStop => 3
    case ReadEmpty => 2
    case Leaving => 0
  }

  lemma {:induction false} DrainsUntilLeaving(s: State) returns (steps: seq<Step>)
    requires Inv(s) && Doomed(s)
    ensures Doomed(Run(s, steps)) && Run(s, steps).pc.Leaving? && Inv(Run(s, steps))
    decreases Distance(s)
  {
    if s.pc.Leaving? {
      steps := [];
    } else {
      AdvanceKeepsInv(s, false);
      var t := Next(s, DoAdvance(false));
      var rest := DrainsUntilLeaving(t);
      steps := [DoAdvance(false)] + rest;
      assert steps[1..] == rest;
    }
  }

  /** A doomed worker can be driven to its end with a command in the queue. */
  lemma DoomedCanLose(s: State) returns (steps: seq<Step>)
    requires Inv(s) && Doomed(s)
    ensures Lost(Run(s, steps))
  {
    var drain := DrainsUntilLeaving(s);
    var t := Run(s, drain);
    var last := if t.queue == [] then [DoSubmit, DoAdvance(false)] else [DoAdvance(false)];
    assert last[1..] == (if t.queue == [] then [DoAdvance(false)] else []);
    assert [DoAdvance(false)][1..] == [];
    assert Lost(Run(t, last));
    RunConcat(s, drain, last);
    steps := drain + last;
  }

  lemma CanLoseLoses(s: State) returns (steps: seq<Step>)
    requires Inv(s) && CanLose(s)
    ensures Lost(Run(s, steps))
  {
    if s.thread.Absent? {
      var first := [DoClose, DoStart(true)];
      assert first[1..] == [DoStart(true)] && [DoStart(true)][1..] == [];
      var t := Run(s, first);
      NextKeepsInv(s, DoClose);
      NextKeepsInv(Next(s, DoClose), DoStart(true));
      assert t == Next(Next(s, DoClose), DoStart(true));
      var rest := DoomedCanLose(t);
      RunConcat(s, first, rest);
      steps := first + rest;
    } else if s.thread.Dead? {
      steps := [];
    } else if s.accepting && !s.failed {
      steps := DoomedCanLose(s);
    } else {
      steps := [DoAdvance(false)];
      assert steps[1..] == [];
    }
  }

  /** What a dead worker has left behind it never runs. */
  lemma {:induction false} LostIsForever(s: State, more: seq<Step>)
    requires s.thread.Dead?
    ensures Run(s, more).thread.Dead? && Run(s, more).executed == s.executed && Run(s, more).queue == s.queue
    decreases |more|
  {
    if more == [] {
    } else {
      LostIsForever(Next(s, more[0]), more[1..]);
    }
  }

  lemma CannotLoseStep(s: State, step: Step)
    requires Inv(s) && !CanLose(s)
    ensures !CanLose(Next(s, step))
  {
  }

  lemma {:induction false} CannotLoseStays(s: State, steps: seq<Step>)
    requires Inv(s) && !CanLose(s)
    ensures !Lost(Run(s, steps))
    decreases |steps|
  {
    if steps == [] {
    } else {
      NextKeepsInv(s, steps[0]);
      CannotLoseStep(s, steps[0]);
      hide Inv, Next, CanLose, Lost;
      CannotLoseStays(Next(s, steps[0]), steps[1..]);
    }
  }

  /** Some continuation loses an accepted command. */
  ghost predicate MayLose(s: State) {
    exists more :: Lost(Run(s, more))
  }

  /** Exactly when an accepted command can get lost. In particular no worker that was started before it was closed ever
      loses one. And what is lost is never run. */
  lemma CommandIsLostIff(steps: seq<Step>)
    ensures var s := Run(INIT, steps);
      && (MayLose(s) <==> CanLose(s))
      && (Lost(s) ==> forall more :: Lost(Run(s, more)) && Run(s, more).executed == s.executed)
  {
    RunKeepsInv(INIT, steps);
    var s := Run(INIT, steps);
    if CanLose(s) {
      var more := CanLoseLoses(s);
      assert Lost(Run(s, more));
    } else {
      forall more ensures !Lost(Run(s, more)) { CannotLoseStays(s, more); }
    }
    if Lost(s) {
      forall more ensures Lost(Run(s, more)) && Run(s, more).executed == s.executed { LostIsForever(s, more); }
    }
  }
}

module CommandWorker {
  import opened SafetyTypes
  import W = CommandWorkerSpec
  import P = CommandWorkerProofs

  class BoundedCommandWorker {
    var thread: W.Thread
    var pc: W.Pc
    var accepting: bool
    var failed: bool
    var stopSet: bool
    var queue: seq<nat>
    var accepted: nat
    ghost var executed: seq<nat>
    ghost var errors: set<nat>
    ghost var closedUnstarted: bool

    ghost function Abs(): W.State
      reads this
    {
      W.State(thread, pc, accepting, failed, stopSet, queue, accepted, executed, errors, closedUnstarted)
    }

    ghost predicate Valid()
      reads this
    {
      W.Inv(Abs())
    }

    constructor ()
      ensures Valid() && Abs() == W.INIT
    {
      thread, pc := W.Absent, W.ReadStop;
      accepting, failed, stopSet, queue, accepted := false, false, false, [], 0;
      executed, errors, closedUnstarted := [], {}, false;
    }

    method Start(runs: bool) returns (ready: bool)
      requires Valid()
      modifies this
      ensures (Abs(), ready) == W.Start(old(Abs()), runs)
      ensures Valid() && (ready ==> accepting && thread.Alive?)
      ensures ready <==> if old(thread).Absent? then runs else old(accepting) && old(thread).Alive? && !old(failed)
      ensures !ready && old(thread).Absent? ==> failed
    {
      P.NextKeepsInv(Abs(), W.DoStart(runs));
      hide W.Inv;
      if !thread.Absent? { return accepting && thread.Alive? && !failed; }
      if !runs {
        failed := true;
        return false;
      }
      thread := W.Alive;
      accepting := true;
      return true;
    }

    method Submit() returns (taken: bool)
      requires Valid()
      modifies this
      ensures (Abs(), taken) == W.Submit(old(Abs()))
      ensures Valid() && (taken ==> queue == old(queue) + [old(accepted)] && thread.Alive?)
      ensures taken <==> old(accepting) && !old(failed) && old(thread).Alive? && |old(queue)| < W.QUEUE_CAPACITY
      ensures !taken ==> queue == old(queue) && accepted == old(accepted)
      ensures failed <==> old(failed) || (old(accepting) && old(thread).Alive? && |old(queue)| == W.QUEUE_CAPACITY)
    {
      P.SubmitKeepsInv(Abs());
      assert |queue| <= W.QUEUE_CAPACITY;
      hide W.Inv;
      if !accepting || failed || !thread.Alive? { return false; }
      if |queue| >= W.QUEUE_CAPACITY {
        failed := true;
        return false;
      }
      queue := queue + [accepted];
      accepted := accepted + 1;
      return true;
    }

    method BeginClose() returns (unstarted: bool)
      requires Valid()
      modifies this
      ensures Abs() == W.BeginClose(old(Abs()))
      ensures Valid() && !accepting && (unstarted <==> thread.Absent?) && (unstarted ==> accepted == 0)
    {
      P.NextKeepsInv(Abs(), W.DoClose);
      hide W.Inv;
      unstarted := thread.Absent?;
      accepting := false;
      stopSet := true;
      closedUnstarted := closedUnstarted || thread.Absent?;
    }

    /** The end of a close, after its wait. */
    method CloseAnswer(unstarted: bool) returns (ok: bool)
      requires Valid()
      ensures ok == W.CloseAnswer(Abs(), unstarted)
      ensures ok && !unstarted ==> executed == W.UpTo(accepted) && errors == {}
    {
      assert thread.Dead? && queue == [] ==> executed + W.Held(Abs()) + queue == executed;
      return unstarted || (thread.Dead? && queue == [] && !failed);
    }

    /** The worker thread told to stop: it still runs everything that is queued, in order, and only then leaves.
        `raises` says which commands raise; a raising command fails the worker but does not end the loop. */
    method DrainAndLeave(raises: set<nat>)
      requires Valid() && thread.Alive? && pc.ReadStop? && stopSet
      modifies this`queue, this`pc, this`failed, this`executed, this`errors
      ensures pc.Leaving? && queue == []
      ensures executed == old(executed) + old(queue)
      ensures errors == old(errors) + (set id | id in old(queue) && id in raises)
      ensures failed <==> old(failed) || exists id :: id in old(queue) && id in raises
    {
      ghost var n := 0;
      while queue != []
        invariant n <= |old(queue)| && queue == old(queue)[n..]
        invariant executed == old(executed) + old(queue)[..n]
        invariant errors == old(errors) + (set id | id in old(queue)[..n] && id in raises)
        invariant failed <==> old(failed) || exists id :: id in old(queue)[..n] && id in raises
        decreases |queue|
      {
        var id := queue[0];
        assert old(queue)[..n + 1] == old(queue)[..n] + [id];
        queue := queue[1..];
        executed := executed + [id];
        if id in raises {
          failed := true;
          errors := errors + {id};
        }
        n := n + 1;
      }
      assert old(queue)[..n] == old(queue);
      pc := W.Leaving;
    }
  }
}
