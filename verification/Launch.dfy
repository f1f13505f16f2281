/** The lifecycle object: the regions of start and stop, step by step over the durable files. What each operation
    meets (failures, crashes, what the process table shows) is a parameter. The regions keep the invariant of the run
    theorems, and with it the authority over every live launch; the parts of a region only change the state as
    specified. */
module Launches {
  import opened SafetyTypes
  import L = LaunchSpec
  import P = LaunchProofs

  class ProjectLifecycle {
    var recorded: seq<nat>
    var stateToken: Option<nat>
    var startup: Option<L.Startup>
    var marker: Option<nat>
    var authorized: set<nat>
    ghost var groups: map<nat, L.Group>
    ghost var launched: map<nat, nat>
    ghost var calls: map<nat, L.Call>

    ghost function Abs(): L.State
      reads this
    {
      L.State(recorded, stateToken, startup, marker, groups, authorized, launched, calls)
    }

    ghost predicate Valid()
      reads this
    {
      L.Inv(Abs())
    }

    constructor ()
      ensures Valid() && Abs() == L.INIT
    {
      recorded, stateToken, startup, marker, authorized := [], None, None, None, {};
      groups, launched, calls := map[], map[], map[];
      new;
      P.InitInv();
    }

    /** Separate the recorded launches that are still led from those that left an unresolved group. */
    method LoadState(v: L.View) returns (live: seq<nat>, orphans: seq<nat>)
      ensures live == L.Matching(recorded, v)
      ensures orphans == L.UnresolvedGroups(recorded, v, authorized)
    {
      live, orphans := [], [];
      for i := 0 to |recorded|
        invariant live + L.Matching(recorded[i..], v) == L.Matching(recorded, v)
        invariant orphans + L.UnresolvedGroups(recorded[i..], v, authorized) == L.UnresolvedGroups(recorded, v, authorized)
      {
        var record := recorded[i];
        assert recorded[i..] == [record] + recorded[i + 1..];
        if record in v.matched {
          live := live + [record];
        } else if record in authorized && record in v.populated {
          orphans := orphans + [record];
        }
      }
    }

    method ReserveLocked(t: nat, v: L.View, io: L.Io)
      modifies this`startup, this`calls
      ensures Abs() == L.Reserve(old(Abs()), t, v, io)
    {
      var live, orphans := LoadState(v);
      if live != [] || startup.Some? || marker.Some? || orphans != [] {
        calls := calls[t := L.Over];
        return;
      }
      if L.Happens(io) {
        startup := Some(L.Startup(t, false, false, None));
      }
      calls := calls[t := if io.Done? then L.Building else L.Over];
    }

    /** The reservation of a start: given only when no live launch is held and nothing is reserved or unresolved. */
    method Reserve(t: nat, v: L.View, io: L.Io)
      requires Valid() && t !in calls && L.Sound(Abs(), v)
      modifies this`startup, this`calls
      ensures Abs() == L.Reserve(old(Abs()), t, v, io)
      ensures Valid() && (L.At(Abs(), t, L.Building) ==> startup == Some(L.Startup(t, false, false, None)) && forall g :: !L.Held(Abs(), g))
      ensures old(startup).Some? || old(marker).Some? ==> startup == old(startup)
    {
      P.ReserveKeepsInv(Abs(), t, v, io);
      P.ReserveFacts(Abs(), t, v, io);
      hide L.Inv, L.Reserve;
      ReserveLocked(t, v, io);
    }

    method Recover(t: nat, h: L.Handoff, hasRecord: bool)
      modifies this`startup, this`marker, this`groups, this`calls
      ensures Abs() == L.Recover(old(Abs()), t, h, hasRecord)
    {
      if h.termination.Gone? {
        groups := groups[h.group := L.Empty];
        calls := calls[t := L.Finishing(false)];
        return;
      }
      if h.termination.Killed? { return; }
      if L.Happens(h.marker) {
        marker := Some(h.group);
      }
      if L.Crashes(h.marker) { return; }
      if L.Happens(h.unresolved) {
        startup := Some(L.Startup(t, true, true, Some(L.Unresolved(h.group, hasRecord))));
      }
      if L.Crashes(h.unresolved) { return; }
      calls := calls[t := L.Finishing(true)];
    }

    method Publish(t: nat, h: L.Handoff)
      modifies this
      ensures Abs() == L.Publish(old(Abs()), t, h)
    {
      if h.interrupted {
        calls := calls[t := L.Finishing(false)];
        return;
      }
      if L.Crashes(h.record) { return; }
      if !h.record.Done? {
        Recover(t, h, false);
        return;
      }
      if L.Happens(h.publish) {
        recorded := [h.group];
        stateToken := Some(t);
      }
      if L.Crashes(h.publish) { return; }
      if !h.publish.Done? {
        Recover(t, h, true);
        return;
      }
      if L.Happens(h.unlink) {
        startup := None;
      }
      if L.Crashes(h.unlink) { return; }
      calls := calls[t := if h.unlink.Done? then L.Waiting(h.group) else L.Finishing(false)];
    }

    method Spawn(t: nat, h: L.Handoff)
      modifies this`groups, this`launched, this`authorized
      ensures Abs() == L.Spawned(old(Abs()), t, h)
    {
      groups := groups[h.group := L.Led];
      launched := launched[t := h.group];
      if h.isAuthorized {
        authorized := authorized + {h.group};
      }
    }

    method HandOffLocked(t: nat, h: L.Handoff)
      modifies this
      ensures Abs() == L.HandOff(old(Abs()), t, h)
    {
      hide L.Publish;
      if !(startup.Some? && startup.value.token == t && !startup.value.cancelled) {
        calls := calls[t := L.Finishing(false)];
        return;
      }
      calls := calls[t := L.Over];
      if L.Happens(h.reserve) {
        startup := Some(L.Startup(t, false, true, None));
      }
      if L.Crashes(h.reserve) { return; }
      if !h.reserve.Done? {
        calls := calls[t := L.Finishing(false)];
        return;
      }
      if h.spawn.Spawns? {
        Spawn(t, h);
        Publish(t, h);
      } else if h.spawn.DiesAfter? {
        Spawn(t, h);
      } else if !h.spawn.DiesBefore? {
        calls := calls[t := L.Finishing(false)];
      }
    }

    /** The hand-off of a start: unless an exception interrupts it between spawn and publication, every live authorized
        launch stays covered, whatever fails; a revoked start launches nothing; and a start that goes on to wait has its
        launch, and only its launch, in the state file. */
    method HandOff(t: nat, h: L.Handoff)
      requires Valid() && L.At(Abs(), t, L.Building) && h.group !in groups
      modifies this
      ensures Abs() == L.HandOff(old(Abs()), t, h)
      ensures !h.interrupted ==> Valid() && L.AuthorityKept(Abs()) && L.Exclusive(Abs())
      ensures !L.MayHandOff(old(Abs()), t) ==> groups == old(groups) && startup == old(startup) && recorded == old(recorded)
      ensures forall g :: g in old(groups) ==> g in groups && groups[g] == old(groups)[g]
      ensures t in calls && calls[t].Waiting? ==> recorded == [h.group] && startup.None? && calls[t].group == h.group
    {
      if !h.interrupted { P.HandOffKeepsInv(Abs(), t, h); }
      P.HandOffFacts(Abs(), t, h);
      ghost var after := L.HandOff(Abs(), t, h);
      assert !h.interrupted ==> L.AuthorityKept(after) && L.Exclusive(after);
      hide L.Inv, L.HandOff, L.AuthorityKept, L.Exclusive, L.MayHandOff, L.At;
      HandOffLocked(t, h);
    }

    /** The records of `more` that are not yet in `records`, appended to it. */
    method Retain(records: seq<nat>, more: seq<nat>) returns (retained: seq<nat>)
      ensures retained == L.AppendNew(records, more)
    {
      retained := records;
      for i := 0 to |more|
        invariant L.AppendNew(retained, more[i..]) == L.AppendNew(records, more)
      {
        assert more[i..][0] == more[i] && more[i..][1..] == more[i + 1..];
        if more[i] !in retained {
          retained := retained + [more[i]];
        }
      }
    }

    method CleanUpLocked(t: nat, g: nat, terminated: bool, v: L.View, io: L.Io)
      modifies this`recorded, this`stateToken, this`calls
      ensures Abs() == L.Clean(old(Abs()), t, g, terminated, v, io)
    {
      var live, orphans := LoadState(v);
      var retained := Retain(live, orphans);
      if !terminated && g !in retained {
        retained := retained + [g];
      }
      var token := if startup.Some? && stateToken == Some(startup.value.token) then stateToken else None;
      if L.Happens(io) {
        recorded := retained;
        stateToken := token;
      }
      calls := calls[t := if L.Crashes(io) then L.Over else L.Finishing(false)];
    }

    /** The write-back of a failed start: nothing held drops out of the state file, and a newer start's files are as they
        were. */
    method CleanUp(t: nat, g: nat, terminated: bool, v: L.View, io: L.Io)
      requires Valid() && L.At(Abs(), t, L.Cleaning(g, terminated)) && L.Sound(Abs(), v)
      modifies this`recorded, this`stateToken, this`calls
      ensures Abs() == L.Clean(old(Abs()), t, g, terminated, v, io)
      ensures Valid() && startup == old(startup) && marker == old(marker)
      ensures forall x :: x in old(recorded) && L.Held(old(Abs()), x) ==> x in recorded
    {
      P.CleanKeepsInv(Abs(), t, v, io);
      P.OldCleanupSparesNewer(Abs(), t, g, terminated, v, io, false);
      hide L.Inv, L.Clean;
      CleanUpLocked(t, g, terminated, v, io);
    }

    method FinishLocked(t: nat, preserve: bool, io: L.Io)
      modifies this`startup, this`calls
      ensures Abs() == L.Finish(old(Abs()), t, preserve, io)
    {
      if startup.Some? && startup.value.token == t && startup.value.unresolved.None? && !preserve {
        if L.Happens(io) {
          startup := None;
        }
      }
      calls := calls[t := L.Over];
    }

    /** The finally clause removes no reservation but its own. */
    method Finish(t: nat, preserve: bool, io: L.Io)
      requires Valid() && L.At(Abs(), t, L.Finishing(preserve))
      modifies this`startup, this`calls
      ensures Abs() == L.Finish(old(Abs()), t, preserve, io)
      ensures Valid() && (old(startup).Some? && old(startup).value.token != t ==> startup == old(startup))
    {
      P.FinishKeepsInv(Abs(), t, io);
      hide L.Inv;
      FinishLocked(t, preserve, io);
    }

    /** Delete the reservation, then the marker; `false` if that ended the region. */
    method Unlink(io1: L.Io, io2: L.Io) returns (ok: bool)
      modifies this`startup, this`marker
      ensures L.Unlink(old(Abs()), io1, io2) == if ok then L.Go(Abs()) else L.Exit(Abs())
    {
      if L.Happens(io1) {
        startup := None;
      }
      if !io1.Done? { return false; }
      if L.Happens(io2) {
        marker := None;
      }
      return io2.Done?;
    }

    /** Terminate the live launches one by one; those terminated drop out of what remains. */
    method TerminateLive(live: seq<nat>, killed: set<nat>) returns (remaining: seq<nat>)
      ensures remaining == L.Removed(live, killed)
    {
      remaining := [];
      for i := 0 to |live|
        invariant remaining + L.Removed(live[i..], killed) == L.Removed(live, killed)
      {
        assert live[i..] == [live[i]] + live[i + 1..];
        if live[i] !in killed {
          remaining := remaining + [live[i]];
        }
      }
    }

    /** First half of a stop: cancel a mere reservation, and settle an unresolved launch that is gone. */
    method StopStartup(p: L.Stopping) returns (ok: bool)
      modifies this`startup, this`marker, this`groups
      ensures var r1 := L.Cancelled(old(Abs()), p);
        var r2 := if r1.Go? then L.Resolved(r1.state, p) else r1;
        r2 == if ok then L.Go(Abs()) else L.Exit(Abs())
    {
      var unresolved := (startup.Some? && (startup.value.unresolved.Some? || startup.value.handoff)) || marker.Some?;
      if startup.Some? && !unresolved {
        if L.Happens(p.cancel) {
          startup := Some(startup.value.(cancelled := true, unresolved := None));
        }
        return p.cancel.Done?;
      }
      if !unresolved { return true; }
      var launch := if startup.Some? && startup.value.unresolved.Some? then Some(startup.value.unresolved.value.group) else marker;
      if launch.None? { return true; }
      groups := L.Terminated(groups, p.killed * {launch.value});
      if !p.gone { return true; }
      ok := Unlink(p.unlink1, p.unlink2);
    }

    method StopLocked(p: L.Stopping) returns (ok: bool)
      modifies this
      ensures L.Stop(old(Abs()), p) == if ok then L.Go(Abs()) else L.Exit(Abs())
    {
      var found := Inspect(p);
      ok := StopStartup(p);
      if !ok { return; }
      groups := L.Terminated(groups, p.killed);
      if p.raises { return false; }
      ok := StopLaunches(found, p);
    }

    /** A stop keeps every live authorized launch covered, however it ends; and one that completes with nothing remaining and
        nothing unresolved leaves none alive and no file naming one. */
    method Stop(p: L.Stopping) returns (ok: bool)
      requires Valid() && L.Honest(Abs(), p)
      modifies this
      ensures L.Stop(old(Abs()), p) == if ok then L.Go(Abs()) else L.Exit(Abs())
      ensures Valid() && L.AuthorityKept(Abs()) && L.Exclusive(Abs())
      ensures P.ReportsOk(old(Abs()), p) ==> recorded == [] && startup.None? && marker.None? && forall g :: !L.Held(Abs(), g)
      ensures P.GoesThrough(p) ==> ok && (P.ReportsOk(old(Abs()), p) <==>
        old(P.AllStopped(Abs(), p))
        && (!L.StartupUnresolved(old(Abs())) || (L.UnresolvedLaunch(old(Abs())).Some? && p.gone) || L.PhaseOnlyCommitted(old(Abs()))))
      ensures ok ==> forall g :: g in recorded <==>
        g in old(recorded) && if g in p.view.matched then g !in p.killed else g in old(authorized) && g in p.view.populated
    {
      if P.GoesThrough(p) { P.StopReportsOkIff(Abs(), p); }
      if L.Stop(Abs(), p).Go? { P.StopWritesExactly(Abs(), p); }
      P.StopKeepsInv(Abs(), p);
      if P.ReportsOk(Abs(), p) { P.OkStopLeavesNothing(Abs(), p); }
      assert L.AuthorityKept(L.Stop(Abs(), p).state) && L.Exclusive(L.Stop(Abs(), p).state);
      hide L.Inv, L.Stop, L.AuthorityKept, L.Exclusive, L.Honest, P.ReportsOk, P.GoesThrough, P.AllStopped, L.StartupUnresolved, L.PhaseOnlyCommitted;
      ok := StopLocked(p);
    }

    /** What the stop will find, worked out from the files as they are when it begins. */
    method Inspect(p: L.Stopping) returns (found: L.Findings)
      ensures found == L.Find(Abs(), p)
    {
      var live, orphans := LoadState(p.view);
      var left := TerminateLive(live, p.killed);
      var remaining := Retain(left, orphans);
      var unresolved := (startup.Some? && (startup.value.unresolved.Some? || startup.value.handoff)) || marker.Some?;
      var launch := if startup.Some? && startup.value.unresolved.Some? then Some(startup.value.unresolved.value.group) else marker;
      var committed := unresolved && startup.Some? && startup.value.handoff && startup.value.unresolved.None? && marker.None?
        && stateToken == Some(startup.value.token) && recorded != [] && forall g :: g in recorded ==> g in authorized;
      if unresolved && launch.Some? && p.gone {
        unresolved := false;
      }
      var settled := committed && remaining == [];
      if settled {
        unresolved := false;
      }
      found := L.Findings(remaining, unresolved, settled, if committed && unresolved then Some(startup.value.token) else None);
    }

    /** Second half of a stop: settle a committed reservation, rewrite the state file, drop what is resolved. */
    method StopLaunches(found: L.Findings, p: L.Stopping) returns (ok: bool)
      modifies this`recorded, this`stateToken, this`startup, this`marker
      ensures var r4 := if found.settled then L.Unlink(old(Abs()), p.unlink3, p.unlink4) else L.Go(old(Abs()));
        var r5 := if r4.Go? then L.Op(r4.state, r4.state.(recorded := found.remaining, stateToken := found.token), p.publish) else r4;
        var r6 := if r5.Go? && !found.unresolved then L.Unlink(r5.state, p.unlink5, p.unlink6) else r5;
        r6 == if ok then L.Go(Abs()) else L.Exit(Abs())
    {
      if found.settled {
        ok := Unlink(p.unlink3, p.unlink4);
        if !ok { return; }
      }
      if L.Happens(p.publish) {
        recorded := found.remaining;
        stateToken := found.token;
      }
      if !p.publish.Done? { return false; }
      if found.unresolved { return true; }
      ok := Unlink(p.unlink5, p.unlink6);
    }
  }
}
