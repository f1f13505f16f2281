/** The sequencer as the object the program uses. Each method is one region under the condition (the call of a command
    is the one outside it); all keep the invariant the run theorems rest on, and say what a caller may rely on. The
    `Locked` helpers are parts of regions and only change the state as specified. */
module Sequencing {
  import opened SafetyTypes
  import S = SequencerSpec
  import P = SequencerProofs

  /** Refusing the head and then the rest refuses the whole queue. */
  lemma RefuseOne(outcomes: map<nat, S.Outcome>, queue: seq<nat>, code: S.Refusal)
    requires queue != []
    ensures var rest := if queue[0] in outcomes then outcomes else outcomes[queue[0] := S.Rejected(code)];
      S.RefuseAll(rest, queue[1..], code) == S.RefuseAll(outcomes, queue, code)
  {
    var rest := if queue[0] in outcomes then outcomes else outcomes[queue[0] := S.Rejected(code)];
    assert queue == [queue[0]] + queue[1..];
    assert S.RefuseAll(rest, queue[1..], code).Keys == S.RefuseAll(outcomes, queue, code).Keys;
  }

  class SafetySequencer {
    var thread: S.Thread
    var worker: S.WorkerPc
    var accepting: bool
    var closed: bool
    var failed: bool
    var generation: nat
    var latched: bool
    var queue: seq<nat>
    var inFlight: Option<nat>
    var unfinished: int
    var issued: seq<nat>
    var outcomes: map<nat, S.Outcome>
    ghost var taken: nat
    ghost var invoked: seq<nat>
    ghost var trace: seq<S.Event>

    ghost function Abs(): S.State
      reads this
    {
      S.State(thread, worker, accepting, closed, failed, generation, latched, queue, inFlight, unfinished, issued,
              outcomes, taken, invoked, trace)
    }

    ghost predicate Valid()
      reads this
    {
      S.Inv(Abs())
    }

    constructor ()
      ensures Valid() && Abs() == S.INIT
    {
      thread, worker := S.Absent, S.AtTop;
      accepting, closed, failed, latched := false, false, false, false;
      generation, unfinished := 0, 0;
      queue, issued, outcomes, inFlight := [], [], map[], None;
      taken, invoked, trace := 0, [], [];
      new;
      P.InitInv();
    }

    method CompleteReceiptLocked(id: nat, outcome: S.Outcome) returns (written: bool)
      modifies this`outcomes
      ensures Abs() == S.Complete(old(Abs()), id, outcome)
      ensures written <==> id !in old(outcomes)
    {
      written := id !in outcomes;
      if written {
        outcomes := outcomes[id := outcome];
      }
    }

    method RejectQueuedLocked(code: S.Refusal)
      modifies this`queue, this`unfinished, this`outcomes
      ensures Abs() == S.RejectQueued(old(Abs()), code)
    {
      while queue != []
        invariant S.RefuseAll(outcomes, queue, code) == S.RefuseAll(old(outcomes), old(queue), code)
        invariant unfinished - |queue| == old(unfinished) - |old(queue)|
        decreases |queue|
      {
        RefuseOne(outcomes, queue, code);
        var receipt := queue[0];
        queue := queue[1..];
        var _ := CompleteReceiptLocked(receipt, S.Rejected(code));
        unfinished := unfinished - 1;
      }
      assert outcomes == S.RefuseAll(outcomes, [], code);
    }

    method LatchLocked(queuedCode: S.Refusal)
      modifies this`queue, this`unfinished, this`outcomes, this`generation, this`latched, this`trace
      ensures Abs() == S.Latch(old(Abs()), queuedCode)
    {
      generation := generation + 1;
      latched := true;
      trace := trace + [S.LatchSet];
      RejectQueuedLocked(queuedCode);
    }

    method WorkerReadyLocked() returns (ready: bool)
      modifies this
      ensures (Abs(), ready) == S.CheckWorker(old(Abs()))
    {
      if thread.Absent? || !accepting || closed || failed || thread.Dead? {
        if thread.Dead? && !closed {
          failed := true;
          accepting := false;
          LatchLocked(S.UnsafeState);
        }
        return false;
      }
      return true;
    }

    method Start(spawn: S.Spawn) returns (ready: bool)
      requires Valid()
      modifies this
      ensures (Abs(), ready) == S.Start(old(Abs()), spawn)
      ensures Valid()
      ensures ready ==> thread.Alive? && accepting && !failed && !closed
    {
      P.StartKeepsInv(Abs(), spawn);
      hide S.Inv;
      if !thread.Absent? {
        ready := WorkerReadyLocked();
        return;
      }
      if closed || failed { return false; }
      if !spawn.Runs? {
        failed := true;
        return false;
      }
      thread := S.Alive;
      accepting := true;
      return true;
    }

    method Issue() returns (permit: Result<S.Permit, S.Refusal>)
      requires Valid()
      modifies this
      ensures (Abs(), permit) == S.Issue(old(Abs()))
      ensures Valid()
      ensures permit.Ok? ==> !latched && permit.value == S.Owned(generation)
    {
      P.IssueKeepsInv(Abs());
      hide S.Inv;
      if closed || failed { return Err(S.UnsafeState); }
      if !thread.Absent? {
        var ready := WorkerReadyLocked();
        if !ready { return Err(S.UnsafeState); }
      }
      if latched { return Err(S.Latched); }
      return Ok(S.Owned(generation));
    }

    method AdmitLocked(permit: S.Permit) returns (admitted: Result<nat, S.Refusal>)
      modifies this
      ensures (Abs(), admitted) == S.Admit(old(Abs()), permit)
    {
      if permit.Foreign? { return Err(S.ProfileInvalid); }
      var ready := WorkerReadyLocked();
      if !ready { return Err(S.UnsafeState); }
      if latched || permit.generation != generation { return Err(S.Latched); }
      return Ok(permit.generation);
    }

    method SubmitEnqueueLocked(finite: bool, callable: bool, permit: S.Permit) returns (receipt: Result<nat, S.Refusal>)
      modifies this
      ensures (Abs(), receipt) == S.Submit(old(Abs()), finite, callable, permit)
    {
      if !finite || !callable { return Err(S.ProfileInvalid); }
      var admitted := AdmitLocked(permit);
      if admitted.Err? { return admitted; }
      if |queue| >= S.QUEUE_CAPACITY {
        LatchLocked(S.Latched);
        return Err(S.UnsafeState);
      }
      receipt := Ok(|issued|);
      queue := queue + [|issued|];
      unfinished := unfinished + 1;
      issued := issued + [admitted.value];

    }

    method SubmitEnqueue(finite: bool, callable: bool, permit: S.Permit) returns (receipt: Result<nat, S.Refusal>)
      requires Valid()
      modifies this
      ensures (Abs(), receipt) == S.Submit(old(Abs()), finite, callable, permit)
      ensures Valid()
      ensures receipt.Ok? ==> !latched && thread.Alive? && queue == old(queue) + [receipt.value] && receipt.value !in outcomes
      ensures receipt.Ok? ==> receipt.value == |old(issued)| && permit == S.Owned(generation)
      ensures receipt.Err? ==> issued == old(issued) && invoked == old(invoked)
      ensures receipt.Ok? <==> finite && callable && P.Takes(old(Abs()), permit) && |old(queue)| < S.QUEUE_CAPACITY
      ensures latched && !old(latched) ==> queue == [] && forall id :: id in old(queue) ==> id in outcomes
    {
      P.SubmitKeepsInv(Abs(), finite, callable, permit);
      P.SubmitFacts(Abs(), finite, callable, permit);
      P.SubmitIff(Abs(), finite, callable, permit);
      hide S.Inv, S.Submit;
      receipt := SubmitEnqueueLocked(finite, callable, permit);
    }

    /** The region a submitter enters after waiting in vain; it raises unless the outcome arrived meanwhile. */
    method SubmitTimedOut(receipt: nat) returns (raised: bool)
      requires Valid() && receipt < |issued|
      modifies this
      ensures Abs() == S.TimeOut(old(Abs()), receipt)
      ensures raised <==> receipt !in old(outcomes)
      ensures Valid()
      ensures raised ==> latched && queue == [] && outcomes[receipt] == S.Rejected(S.Timeout)
      ensures !raised ==> Abs() == old(Abs())
    {
      P.TimeOutKeepsInv(Abs(), receipt);
      hide S.Inv;
      raised := receipt !in outcomes;
      if raised {
        var _ := CompleteReceiptLocked(receipt, S.Rejected(S.Timeout));
        LatchLocked(S.Latched);
      }
    }

    method SubmitOwned(callable: bool, permit: S.Permit) returns (admitted: Result<nat, S.Refusal>)
      requires Valid()
      modifies this
      ensures (Abs(), admitted) == S.SubmitOwned(old(Abs()), callable, permit)
      ensures Valid()
      ensures admitted.Ok? ==> !latched && thread.Alive? && trace == old(trace) + [S.OwnedRan]
      ensures old(latched) ==> admitted.Err?
    {
      P.OwnedKeepsInv(Abs(), callable, permit);
      P.OwnedFacts(Abs(), callable, permit);
      hide S.Inv;
      if !callable { return Err(S.ProfileInvalid); }
      admitted := AdmitLocked(permit);
      if admitted.Ok? {
        trace := trace + [S.OwnedRan];
      }
    }

    method LatchAndSubmitZero(zeroAccepted: bool)
      requires Valid()
      modifies this
      ensures Abs() == S.LatchAndZero(old(Abs()), zeroAccepted)
      ensures Valid() && latched && queue == []
      ensures forall id :: id in old(queue) ==> id in outcomes
    {
      P.StopKeepsInv(Abs(), zeroAccepted);
      hide S.Inv;
      LatchLocked(S.Latched);
      trace := trace + [S.ZeroTried(zeroAccepted)];
    }

    method SampleQuiescence(zeroAccepted: bool) returns (result: StopResult)
      requires Valid() && latched
      modifies this`trace
      ensures Abs() == S.Sample(old(Abs())).0
      ensures result == S.StopOutcome(S.Sample(old(Abs())).1, zeroAccepted)
      ensures Valid()
      ensures result.Successful() <==> inFlight.None? && zeroAccepted
      ensures result.quiesced ==> S.OpenCommands(trace) == {} && S.InHand(trace) == None && P.Spent(Abs())
    {
      P.StopKeepsInv(Abs(), false);
      P.SampleFacts(Abs());
      hide S.Inv;
      var quiesced := inFlight.None?;
      trace := trace + [S.StopSampled(quiesced)];
      var code: StopCode;
      if !quiesced {
        code := TransportUnquiesced;
      } else if zeroAccepted {
        code := EstopLatched;
      } else {
        code := SafetyCommandRejected;
      }
      return StopResult(true, quiesced, zeroAccepted, code);
    }

    method BeginCloseLocked()
      modifies this
      ensures Abs() == S.BeginClose(old(Abs()))
    {
      if !closed {
        closed := true;
        accepting := false;
        generation := generation + 1;
        latched := true;
        trace := trace + [S.LatchSet];
        RejectQueuedLocked(S.UnsafeState);
      }

    }

    method BeginClose()
      requires Valid()
      modifies this
      ensures Abs() == S.BeginClose(old(Abs()))
      ensures Valid() && closed && (old(closed) || (latched && queue == []))
    {
      P.BeginCloseKeepsInv(Abs());
      hide S.Inv;
      BeginCloseLocked();
    }

    method WorkerTakeLocked()
      requires queue != []
      modifies this
      ensures Abs() == S.Take(old(Abs()))
    {
      var receipt := queue[0];
      queue := queue[1..];
      if latched || (receipt < |issued| && issued[receipt] != generation) {
        var _ := CompleteReceiptLocked(receipt, S.Rejected(S.Latched));
        unfinished := unfinished - 1;
      } else {
        inFlight := Some(receipt);
        worker := S.Taken(receipt);
        taken := taken + 1;
        trace := trace + [S.Took(receipt)];
      }

    }

    method WorkerTake()
      requires Valid() && thread.Alive? && worker.AtTop? && queue != []
      modifies this
      ensures Abs() == S.Take(old(Abs()))
      ensures Valid()
      ensures !latched && worker == S.Taken(old(queue)[0]) && inFlight == Some(old(queue)[0])
      ensures queue == old(queue)[1..] && outcomes == old(outcomes)
    {
      P.TakeKeepsInv(Abs());
      hide S.Inv;
      WorkerTakeLocked();
    }

    /** The call itself, with the condition released: a latch since the take does not prevent it, but then it is the
        last activation there will ever be. */
    method WorkerCall()
      requires Valid() && thread.Alive? && worker.Taken?
      modifies this`worker, this`invoked, this`trace
      ensures Abs() == S.Call(old(Abs()), old(worker).id)
      ensures Valid() && worker == S.Calling(old(worker).id) && invoked == old(invoked) + [old(worker).id]
      ensures latched ==> P.Spent(Abs()) && !P.Spent(old(Abs()))
    {
      P.CallKeepsInv(Abs());
      hide S.Inv;
      var id := worker.id;
      worker := S.Calling(id);
      invoked := invoked + [id];
      trace := trace + [S.Started(id)];
    }

    method WorkerCommandEndedLocked(receipt: nat, raised: bool)
      modifies this
      ensures Abs() == S.CommandEnds(old(Abs()), receipt, raised)
    {
      worker := S.Settling(receipt);
      trace := trace + [S.Ended(receipt)];
      var _ := CompleteReceiptLocked(receipt, if raised then S.CommandRaised else S.Returned);
      if raised {
        FailClosedLocked();
      }

    }

    method WorkerCommandEnded(receipt: nat, raised: bool)
      requires Valid() && thread.Alive? && worker == S.Calling(receipt)
      modifies this
      ensures Abs() == S.CommandEnds(old(Abs()), receipt, raised)
      ensures Valid() && receipt in outcomes && S.OpenCommands(trace) == {}
      ensures outcomes[receipt] == if receipt in old(outcomes) then old(outcomes)[receipt] else if raised then S.CommandRaised else S.Returned
      ensures raised ==> latched && failed && queue == [] && forall id :: id in old(queue) ==> id in outcomes
      ensures !raised ==> queue == old(queue) && latched == old(latched)
    {
      P.CommandEndsKeepsInv(Abs(), raised);
      P.CommandEndsFacts(Abs(), raised);
      hide S.Inv;
      WorkerCommandEndedLocked(receipt, raised);
    }

    method FailClosedLocked()
      modifies this
      ensures Abs() == S.FailClosed(old(Abs()))
    {
      failed := true;
      accepting := false;
      generation := generation + 1;
      latched := true;
      trace := trace + [S.LatchSet];
      RejectQueuedLocked(S.UnsafeState);
    }

    method WorkerSettle(receipt: nat)
      requires Valid() && thread.Alive? && worker == S.Settling(receipt)
      modifies this`inFlight, this`worker, this`unfinished
      ensures Abs() == S.Settle(old(Abs()), receipt)
      ensures Valid() && worker.AtTop? && inFlight.None?
    {
      P.SettleKeepsInv(Abs());
      P.SettleFacts(Abs());
      hide S.Inv;
      if inFlight == Some(receipt) {
        inFlight := None;
      }
      unfinished := unfinished - 1;
      worker := S.AtTop;
    }
  }
}
