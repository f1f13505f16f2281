/** The audit worker as the object the program uses. */
module AuditWorkers {
  import opened SafetyTypes
  import A = AuditWorkerSpec
  import P = AuditWorkerProofs

  /** Refusing the head and then the rest refuses the whole queue. */
  lemma RefuseOne(outcomes: map<nat, A.Outcome>, queue: seq<A.Entry>)
    requires queue != []
    ensures var rest := if queue[0].Receipt? && queue[0].id !in outcomes then outcomes[queue[0].id := A.WriteFailed] else outcomes;
      A.Refuse(rest, queue[1..]) == A.Refuse(outcomes, queue)
  {
    var rest := if queue[0].Receipt? && queue[0].id !in outcomes then outcomes[queue[0].id := A.WriteFailed] else outcomes;
    assert queue == [queue[0]] + queue[1..];
    assert A.Refuse(rest, queue[1..]).Keys == A.Refuse(outcomes, queue).Keys;
  }

  class AuditAppendWorker {
    var thread: A.Thread
    var pc: A.Pc
    var accepting: bool
    var failed: bool
    var stopSet: bool
    var sentinelQueued: bool
    var queue: seq<A.Entry>
    var inFlight: Option<nat>
    var issued: nat
    var outcomes: map<nat, A.Outcome>
    ghost var handed: seq<A.Entry>
    ghost var overflowed: bool

    ghost function Abs(): A.State
      reads this
    {
      A.State(thread, pc, accepting, failed, stopSet, sentinelQueued, queue, inFlight, issued, outcomes, handed, overflowed)
    }

    ghost predicate Valid()
      reads this
    {
      A.Inv(Abs())
    }

    constructor ()
      ensures Valid() && Abs() == A.INIT
    {
      thread, pc := A.Absent, A.Fetching;
      accepting, failed, stopSet, sentinelQueued := false, false, false, false;
      queue, inFlight, issued, outcomes := [], None, 0, map[];
      handed, overflowed := [], false;
    }

    predicate Healthy()
      reads this
      ensures Healthy() == A.Healthy(Abs())
    {
      accepting && !failed && thread.Alive?
    }

    method PutNowait(e: A.Entry)
      modifies this`queue, this`overflowed
      ensures Abs() == A.Put(old(Abs()), e)
    {
      if |queue| >= A.QUEUE_CAPACITY + 1 {
        overflowed := true;
      } else {
        queue := queue + [e];
      }
    }

    method RequestStopLocked()
      modifies this
      ensures Abs() == A.RequestStop(old(Abs()))
    {
      stopSet := true;
      if !sentinelQueued {
        PutNowait(A.Sentinel);
        sentinelQueued := true;
      }
    }

    /** Pop and refuse until the queue is empty. */
    method DrainLocked()
      modifies this`queue, this`outcomes, this`sentinelQueued
      ensures queue == [] && outcomes == A.Refuse(old(outcomes), old(queue))
      ensures sentinelQueued == (old(sentinelQueued) && A.Sentinel !in old(queue))
    {
      while queue != []
        invariant A.Refuse(outcomes, queue) == A.Refuse(old(outcomes), old(queue))
        invariant (sentinelQueued && A.Sentinel !in queue) == (old(sentinelQueued) && A.Sentinel !in old(queue))
        decreases |queue|
      {
        RefuseOne(outcomes, queue);
        ghost var was := queue;
        var receipt := queue[0];
        queue := queue[1..];
        assert was == [receipt] + queue;
        if receipt.Sentinel? {
          sentinelQueued := false;
        }
        if receipt.Receipt? && receipt.id !in outcomes {
          outcomes := outcomes[receipt.id := A.WriteFailed];
        }
      }
      assert outcomes == A.Refuse(outcomes, []);
    }

    method FailLocked()
      modifies this
      ensures Abs() == A.Fail(old(Abs())) && inFlight == old(inFlight)
    {
      failed := true;
      accepting := false;
      DrainLocked();
      RequestStopLocked();
    }

    method Start(runs: bool) returns (ready: bool)
      requires Valid()
      modifies this
      ensures (Abs(), ready) == A.Start(old(Abs()), runs)
      ensures Valid() && (ready ==> accepting && thread.Alive? && !failed)
      ensures ready <==> if old(thread).Absent? then runs && !old(failed) else old(Healthy())
    {
      P.StartAndEndKeepInv(Abs(), runs);
      hide A.Inv;
      if !thread.Absent? { return Healthy(); }
      if failed { return false; }
      accepting := true;
      if !runs {
        accepting := false;
        failed := true;
        return false;
      }
      thread := A.Alive;
      return true;
    }

    method AppendEnqueue() returns (receipt: Option<nat>)
      requires Valid()
      modifies this
      ensures (Abs(), receipt) == A.Append(old(Abs()))
      ensures Valid() && (receipt.Some? ==> queue == old(queue) + [A.Receipt(receipt.value)] && receipt.value == old(issued))
      ensures receipt.Some? <==> old(Healthy()) && |old(queue)| < A.QUEUE_CAPACITY
      ensures receipt.None? ==> issued == old(issued) && (if old(Healthy()) then failed else Abs() == old(Abs()))
      ensures failed && !old(failed) ==> forall id :: A.Receipt(id) in old(queue) ==> id in outcomes
    {
      P.AppendKeepsInv(Abs());
      P.AppendFacts(Abs());
      hide A.Inv;
      if !Healthy() { return None; }
      if |queue| >= A.QUEUE_CAPACITY {
        FailLocked();
        return None;
      }
      receipt := Some(issued);
      PutNowait(A.Receipt(issued));
      issued := issued + 1;
    }

    method AppendTimedOut(receipt: nat)
      requires Valid() && receipt < issued
      modifies this
      ensures Abs() == A.TimeOut(old(Abs()), receipt)
      ensures Valid() && receipt in outcomes
      ensures receipt !in old(outcomes) ==> outcomes[receipt] == A.TimedOut && failed && !accepting
      ensures receipt in old(outcomes) ==> Abs() == old(Abs())
    {
      P.TimeOutKeepsInv(Abs(), receipt);
      P.TimeOutFacts(Abs(), receipt);
      hide A.Inv;
      if receipt !in outcomes {
        outcomes := outcomes[receipt := A.TimedOut];
        FailLocked();
      }
    }

    method BeginClose()
      requires Valid()
      modifies this
      ensures Abs() == A.BeginClose(old(Abs()))
      ensures Valid() && !accepting && (thread.Alive? && !pc.Leaving? ==> A.Pending(Abs(), A.Sentinel))
    {
      P.BeginCloseKeepsInv(Abs());
      P.CloseFacts(Abs());
      hide A.Inv;
      accepting := false;
      if !(thread.Dead? && queue == [] && inFlight.None?) {
        RequestStopLocked();
      }
    }

    /** The end of a close, after its wait. */
    method CloseAnswer(unstarted: bool) returns (ok: bool)
      requires Valid()
      ensures ok == A.CloseAnswer(Abs(), unstarted)
      ensures ok && !unstarted ==> forall id: nat :: id < issued ==> id in outcomes
    {
      P.CloseLeavesNobodyWaiting(Abs());
      hide A.Inv;
      return unstarted || (thread.Dead? && queue == [] && inFlight.None?);
    }

    method WorkerFetch()
      requires Valid() && thread.Alive? && pc.Fetching? && queue != []
      modifies this`queue, this`pc
      ensures Abs() == A.Fetch(old(Abs()))
      ensures Valid() && pc == A.Holding(old(queue)[0]) && queue == old(queue)[1..]
    {
      P.FetchKeepsInv(Abs());
      hide A.Inv;
      pc := A.Holding(queue[0]);
      queue := queue[1..];
    }

    method WorkerTake(e: A.Entry)
      requires Valid() && thread.Alive? && pc == A.Holding(e)
      modifies this
      ensures Abs() == A.Take(old(Abs()), e)
      ensures Valid() && (e.Sentinel? ==> pc.Leaving? && stopSet && A.Sentinel !in queue)
      ensures e.Receipt? ==> pc == A.Writing(e.id) && handed == old(handed) + [e]
    {
      if e.Sentinel? { P.TakeSentinelKeepsInv(Abs()); } else { P.TakeReceiptKeepsInv(Abs(), e.id); }
      P.TakeFacts(Abs(), e);
      hide A.Inv;
      if e.Sentinel? {
        sentinelQueued := false;
        pc := A.Leaving;
      } else {
        inFlight := Some(e.id);
        pc := A.Writing(e.id);
        handed := handed + [e];
      }
    }

    method WorkerWriteEndedLocked(receipt: nat, writeFailed: bool)
      requires inFlight == Some(receipt)
      modifies this
      ensures Abs() == A.WriteEnds(old(Abs()), receipt, writeFailed)
    {
      hide A.Fail;
      ghost var before := Abs();
      if receipt !in outcomes {
        outcomes := outcomes[receipt := if writeFailed then A.WriteFailed else A.Written];
      }
      ghost var settled := Abs();
      assert settled == before.(outcomes := settled.outcomes);
      if writeFailed {
        FailLocked();
      }
      ghost var after := Abs();
      assert after == if writeFailed then A.Fail(settled) else settled;
      if inFlight == Some(receipt) {
        inFlight := None;
      }
      pc := A.Fetching;
    }

    /** After a write: the receipt has its outcome, and a failed write fails the worker, refuses everything queued and
        leaves the stop marker for the loop. */
    method WorkerWriteEnded(receipt: nat, writeFailed: bool)
      requires Valid() && thread.Alive? && pc == A.Writing(receipt)
      modifies this
      ensures Abs() == A.WriteEnds(old(Abs()), receipt, writeFailed)
      ensures Valid() && pc.Fetching? && inFlight.None? && receipt in outcomes
      ensures outcomes[receipt] ==
        if receipt in old(outcomes) then old(outcomes)[receipt] else if writeFailed then A.WriteFailed else A.Written
      ensures writeFailed ==> failed && !accepting && queue == [A.Sentinel]
      ensures writeFailed ==> forall id :: A.Receipt(id) in old(queue) ==> id in outcomes
    {
      P.WriteEndsKeepsInv(Abs(), writeFailed);
      P.WriteEndsFacts(Abs(), writeFailed);
      hide A.Inv, A.WriteEnds;
      WorkerWriteEndedLocked(receipt, writeFailed);
    }
  }
}
