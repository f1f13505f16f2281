/** The controller's audit bookkeeping as the object the program uses; each method is one region under the transition
    condition. */
module AuditDrains {
  import opened SafetyTypes
  import opened AuditRecords
  import D = AuditDrainSpec
  import P = AuditDrainProofs
  import G = GatewaySpec

  class RuntimeAudit {
    var nextSequence: nat
    var pending: map<nat, Item>
    var failure: bool
    var draining: bool
    ghost var owner: Option<nat>

    ghost predicate Valid()
      reads this
    {
      draining <==> owner.Some?
    }

    ghost function Abs(log: seq<G.Transition>): D.Shared
      reads this
    {
      D.Shared(log, nextSequence, pending, failure, owner)
    }

    constructor ()
      ensures Valid() && Abs([]) == D.Init(G.Simulation).shared
    {
      nextSequence, pending, failure, draining, owner := 0, map[], false, false, None;
    }

    /** Registered for the next drain, or already behind it; refused only after an audit failure or when something else
        was registered under the number. Nothing else that is pending changes. */
    method RegisterTransition(ghost log: seq<G.Transition>, sequence: nat, item: Item) returns (accepted: bool)
      requires Valid()
      modifies this`pending
      ensures Valid() && (Abs(log), accepted) == D.Register(old(Abs(log)), sequence, item)
      ensures accepted ==> sequence < nextSequence || (sequence in pending && pending[sequence] == item)
      ensures !accepted ==> pending == old(pending) && (failure || (sequence in pending && pending[sequence] != item))
      ensures forall n :: n in old(pending) ==> n in pending && pending[n] == old(pending)[n]
      ensures old(D.PendingHolds(Abs(log))) && sequence < |log| && item == ItemFor(log[sequence]) ==>
        D.PendingHolds(Abs(log)) && (accepted <==> !failure)
    {
      if failure { return false; }
      if sequence < nextSequence { return true; }
      if sequence in pending && pending[sequence] != item { return false; }
      pending := pending[sequence := item];
      return true;
    }

    /** `inferred` is what the gateway's history yields for the next sequence number. */
    method DrainRegion(ghost log: seq<G.Transition>, inferred: Option<Item>, ghost self: nat, waitFor: Option<nat>,
                       owns: bool, timedOut: bool)
      returns (decision: D.Decision)
      requires Valid() && (owns ==> draining)
      requires inferred == if D.Retained(Abs(log), nextSequence) then InferredFault(log[nextSequence]) else None
      modifies this`draining, this`owner
      ensures Valid() && decision == D.Decide(old(Abs(log)), waitFor, owns, timedOut)
      ensures decision.Return? && waitFor.None? ==> pending == map[] && D.NextItem(Abs(log)).None?
      ensures decision.Fail? <==> failure
      ensures Abs(log) == (if decision.Append? && !owns then old(Abs(log)).(owner := Some(self)) else old(Abs(log)))
    {
      if failure { return D.Fail; }
      var item := if nextSequence in pending then Some(pending[nextSequence]) else inferred;
      if waitFor.Some? && waitFor.value < nextSequence && (!owns || item.None?) { return D.Return; }
      if item.Some? && (owns || !draining) {
        if !owns {
          draining := true;
          owner := Some(self);
        }
        return D.Append(item.value);
      }
      if waitFor.None? && pending == map[] && (owns || !draining) { return D.Return; }
      return if timedOut then D.GiveUp else D.Wait;
    }

    method CommitRegion(ghost log: seq<G.Transition>)
      requires Valid()
      modifies this`pending, this`nextSequence
      ensures Valid() && Abs(log) == D.Committed(old(Abs(log)))
    {
      pending := pending - {nextSequence};
      nextSequence := nextSequence + 1;
    }

    method FailRegion(ghost log: seq<G.Transition>)
      requires Valid()
      modifies this`failure
      ensures Valid() && Abs(log) == old(Abs(log)).(failure := true)
    {
      failure := true;
    }

    method ReleaseRegion(ghost log: seq<G.Transition>, owns: bool)
      requires Valid()
      modifies this`draining, this`owner
      ensures Valid() && Abs(log) == (if owns then old(Abs(log)).(owner := None) else old(Abs(log)))
    {
      if owns {
        draining := false;
        owner := None;
      }
    }

    /** Other threads register transitions while the owner of the drain is outside the condition. */
    method Arrive(ghost log: seq<G.Transition>, arrivals: map<nat, Item>)
      requires Valid() && D.PendingHolds(Abs(log))
      requires forall n :: n in arrivals ==> n < |log| && arrivals[n] == ItemFor(log[n])
      modifies this`pending
      ensures Valid() && D.PendingHolds(Abs(log)) && pending.Keys <= old(pending).Keys + arrivals.Keys
      ensures !failure ==> forall n :: n in arrivals && nextSequence <= n ==> n in pending
      ensures forall n :: n in old(pending) ==> n in pending
    {
      var todo := arrivals.Keys;
      while todo != {}
        invariant todo <= arrivals.Keys && D.PendingHolds(Abs(log))
        invariant pending.Keys <= old(pending).Keys + arrivals.Keys
        invariant forall n :: n in old(pending) ==> n in pending
        invariant !failure ==> forall n :: n in arrivals && n !in todo && nextSequence <= n ==> n in pending
        decreases |todo|
      {
        var n :| n in todo;
        todo := todo - {n};
        var _ := RegisterTransition(log, n, arrivals[n]);
      }
    }

    /** What is registered under the next number, or else what the gateway's history yields for it. */
    method NextReady(history: seq<G.Transition>) returns (item: Option<Item>)
      ensures item == D.NextItem(Abs(history))
    {
      if nextSequence in pending { return Some(pending[nextSequence]); }
      if nextSequence < |history| && |history| - nextSequence <= G.HISTORY_CAPACITY {
        return InferredFault(history[nextSequence]);
      }
      return None;
    }

    /** The owner of the drain at work: it appends what is ready, registered or inferred, while other threads go on
        registering (`arrivals` says what comes in before each look), until it finds nothing or an append fails.
        `history` is the gateway's log, `failing` are the sequence numbers whose append the worker fails. Whatever the
        arrivals, what it wrote are the records of consecutive transitions, from where the last drain stopped. */
    method DrainReady(history: seq<G.Transition>, ghost mode: G.Mode, arrivals: seq<map<nat, Item>>, failing: set<nat>)
      returns (written: seq<Item>)
      requires Valid() && draining && !failure && D.PendingHolds(Abs(history))
      requires forall k :: 0 <= k < |history| ==> G.LegalMove(history[k], mode)
      requires forall a :: a in arrivals ==> forall n :: n in a ==> n < |history| && a[n] == ItemFor(history[n])
      modifies this`pending, this`nextSequence, this`failure
      ensures Valid() && draining && owner == old(owner) && D.PendingHolds(Abs(history))
      ensures nextSequence == old(nextSequence) + |written| && nextSequence <= |history|
      ensures forall n :: 0 <= n < |written| ==> written[n] == ItemFor(history[old(nextSequence) + n])
      ensures forall n :: old(nextSequence) <= n < nextSequence ==> n !in failing
      ensures if failure then nextSequence in failing && nextSequence < |history| else D.NextItem(Abs(history)).None?
    {
      assert nextSequence <= |history|;
      hide ItemFor, InferredFault, G.LegalMove, D.PendingHolds, D.NextItem;
      written := [];
      var looks := 0;
      while true
        invariant Valid() && draining && owner == old(owner) && !failure && D.PendingHolds(Abs(history))
        invariant nextSequence == old(nextSequence) + |written| && nextSequence <= |history|
        invariant forall n :: 0 <= n < |written| ==> written[n] == ItemFor(history[old(nextSequence) + n])
        invariant forall n :: old(nextSequence) <= n < nextSequence ==> n !in failing
        decreases |history| - nextSequence
      {
        if looks < |arrivals| {
          assert arrivals[looks] in arrivals;
          Arrive(history, arrivals[looks]);
          looks := looks + 1;
        }
        var item := NextReady(history);
        if item.None? { return; }
        P.NextItemIsCanonical(Abs(history), mode);
        if nextSequence in failing {
          FailRegion(history);
          return;
        }
        written := written + [item.value];
        P.CommitKeepsPending(Abs(history));
        CommitRegion(history);
      }
    }
  }
}
