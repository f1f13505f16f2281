/** Authority is never lost and launches exclude each other, over every interleaving of starts and stops with a crash
    or a failing operation anywhere. */
module LaunchProofs {
  import opened SafetyTypes
  import opened LaunchSpec

  // ----- lists -----

  lemma {:induction false} MatchingHas(recorded: seq<nat>, v: View, g: nat)
    ensures g in Matching(recorded, v) <==> g in recorded && g in v.matched
  {
    if recorded == [] {
    } else {
      MatchingHas(recorded[1..], v, g);
    }
  }

  lemma {:induction false} UnresolvedHas(recorded: seq<nat>, v: View, authorized: set<nat>, g: nat)
    ensures g in UnresolvedGroups(recorded, v, authorized) <==>
      g in recorded && g !in v.matched && g in authorized && g in v.populated
  {
    if recorded == [] {
    } else {
      UnresolvedHas(recorded[1..], v, authorized, g);
    }
  }

  lemma {:induction false} AppendNewHas(xs: seq<nat>, ys: seq<nat>, g: nat)
    ensures g in AppendNew(xs, ys) <==> g in xs || g in ys
    decreases |ys|
  {
    if ys == [] {
    } else {
      AppendNewHas(if ys[0] in xs then xs else xs + [ys[0]], ys[1..], g);
    }
  }

  lemma {:induction false} RemovedHas(xs: seq<nat>, killed: set<nat>, g: nat)
    ensures g in Removed(xs, killed) <==> g in xs && g !in killed
  {
    if xs == [] {
    } else {
      RemovedHas(xs[1..], killed, g);
    }
  }

  /** A held launch in the state file is found by every sound look at it. */
  lemma HeldIsFound(s: State, v: View, g: nat)
    requires Sound(s, v) && Held(s, g) && g in s.recorded
    ensures g in Matching(s.recorded, v) || g in UnresolvedGroups(s.recorded, v, s.authorized)
  {
    MatchingHas(s.recorded, v, g);
    UnresolvedHas(s.recorded, v, s.authorized, g);
  }

  // ----- what single changes need -----

  lemma CallChanges(s: State, c: nat, call: Call)
    requires Inv(s) && CallHolds(s, c, call)
    ensures Inv(Ends(s, c, call))
  {
    var t := Ends(s, c, call);
    assert forall g :: Held(t, g) == Held(s, g);
    assert forall n :: n in t.calls ==> CallHolds(t, n, t.calls[n]);
  }

  /** Processes may disappear at any time. */
  ghost predicate Shrunk(groups: map<nat, Group>, less: map<nat, Group>) {
    less.Keys == groups.Keys && forall g :: g in less ==> less[g] == groups[g] || less[g].Empty? || (less[g].Orphaned? && !groups[g].Empty?)
  }

  lemma GroupsShrink(s: State, less: map<nat, Group>)
    requires Inv(s) && Shrunk(s.groups, less)
    ensures Inv(s.(groups := less))
  {
    var t := s.(groups := less);
    assert forall g :: Live(t, g) ==> Live(s, g);
    assert forall g :: Held(t, g) ==> Held(s, g);
    assert forall c :: c in s.calls ==> CallHolds(t, c, s.calls[c]);
  }

  /** Rewriting the state file is safe if it keeps every held launch it named. */
  lemma StateFileChanges(s: State, recorded: seq<nat>, token: Option<nat>)
    requires Inv(s) && (token.Some? ==> token == s.stateToken)
    requires forall g :: g in s.recorded && Held(s, g) ==> g in recorded
    requires forall g :: g in recorded ==> g in s.groups
    ensures Inv(s.(recorded := recorded, stateToken := token))
  {
    var t := s.(recorded := recorded, stateToken := token);
    assert forall g :: Held(t, g) == Held(s, g);
    assert forall n :: Published(s, n) ==> Published(t, n);
    assert forall c :: c in s.calls ==> CallHolds(t, c, s.calls[c]);
  }

  /** Deleting the reservation is safe unless it alone covers a held launch. */
  lemma ReservationGoes(s: State)
    requires Inv(s)
    requires s.startup.Some? && s.startup.value.handoff && s.startup.value.token in s.launched ==>
      Published(s, s.startup.value.token) || s.marker == Some(s.launched[s.startup.value.token])
    ensures Inv(s.(startup := None))
  {
    var t := s.(startup := None);
    assert forall g :: Held(t, g) == Held(s, g);
    assert forall c :: c in s.calls ==> CallHolds(t, c, s.calls[c]);
  }

  lemma MarkerGoes(s: State)
    requires Inv(s)
    requires s.marker.Some? && Held(s, s.marker.value) ==> Covered(s.(marker := None), s.marker.value)
    ensures Inv(s.(marker := None))
  {
    var t := s.(marker := None);
    assert forall g :: Held(t, g) == Held(s, g);
    assert forall c :: c in s.calls ==> CallHolds(t, c, s.calls[c]);
  }

  // ----- start -----

  /** What is held, and neither reserved nor marked, is found. */
  lemma NothingFoundMeansNothingHeld(s: State, v: View)
    requires AuthorityKept(s) && Sound(s, v) && s.startup.None? && s.marker.None?
    requires Matching(s.recorded, v) == [] && UnresolvedGroups(s.recorded, v, s.authorized) == []
    ensures forall g :: !Held(s, g)
  {
    forall g | Held(s, g) ensures false {
      assert Covered(s, g);
      HeldIsFound(s, v, g);
    }
  }

  /** A call that only has come and gone, or come, changes nothing else. */
  lemma CallComes(s: State, t: nat, call: Call, u: State)
    requires Inv(s) && t !in s.calls && u == s.(calls := s.calls[t := call], startup := u.startup)
    requires call.Over? || call.Building?
    requires u.startup == s.startup || u.startup.None? || u.startup == Some(Startup(t, false, false, None))
    ensures Calls(u)
  {
    assert t !in s.launched && forall g :: Held(u, g) == Held(s, g);
    forall c | c in s.calls ensures CallHolds(u, c, s.calls[c]) {
      assert CallHolds(s, c, s.calls[c]);
    }
  }

  lemma ReserveKeepsInv(s: State, t: nat, v: View, io: Io)
    requires Inv(s) && t !in s.calls && Sound(s, v)
    ensures Inv(Reserve(s, t, v, io))
  {
    var u := Reserve(s, t, v, io);
    if s.startup.None? && s.marker.None? && Matching(s.recorded, v) == [] && UnresolvedGroups(s.recorded, v, s.authorized) == [] {
      NothingFoundMeansNothingHeld(s, v);
    }
    CallComes(s, t, u.calls[t], u);
    assert t !in s.launched && forall g :: Held(u, g) == Held(s, g);
    hide Matching, UnresolvedGroups, Sound, Calls, Live;
  }

  /** The reservation of a start that may hand off: nothing is held, and nobody launched under it. */
  lemma MayHandOffFacts(s: State, t: nat)
    requires Inv(s) && At(s, t, Building) && MayHandOff(s, t)
    ensures s.marker.None? && t !in s.launched && !s.startup.value.handoff && forall g :: !Held(s, g)
  {
  }

  /** The state between the claim and whatever follows: `g` is the only launch that can be held. */
  ghost predicate Launching(s: State, t: nat, g: nat) {
    && Inv(s) && t in s.calls
    && s.startup == Some(Startup(t, false, true, None)) && s.marker.None?
    && t in s.launched && s.launched[t] == g
    && (forall x :: Held(s, x) ==> x == g)
    && (s.stateToken == Some(t) ==> g in s.recorded)
  }

  lemma ClaimKeepsInv(s: State, t: nat)
    requires Inv(s) && At(s, t, Building) && MayHandOff(s, t)
    ensures var u := Ends(s, t, Over).(startup := Some(Startup(t, false, true, None))); Inv(u) && forall g :: !Held(u, g)
  {
    MayHandOffFacts(s, t);
    var u := Ends(s, t, Over).(startup := Some(Startup(t, false, true, None)));
    assert forall g :: Held(u, g) == Held(s, g);
    assert forall c :: c in s.calls && c != t ==> CallHolds(u, c, s.calls[c]);
  }

  lemma SpawnLaunches(s: State, t: nat, h: Handoff)
    requires Inv(s) && At(s, t, Over) && t !in s.launched && s.startup == Some(Startup(t, false, true, None))
    requires h.group !in s.groups
    ensures Launching(Spawned(s, t, h), t, h.group)
  {
    var u := Spawned(s, t, h);
    assert s.marker.None? && forall g :: !Held(s, g);
    forall x | Held(u, x) ensures x == h.group {
      if x != h.group { assert Held(s, x); }
    }
    forall c | c in s.calls ensures CallHolds(u, c, s.calls[c]) {
      assert CallHolds(s, c, s.calls[c]);
      assert c in s.launched ==> u.launched[c] == s.launched[c] && s.launched[c] in s.groups;
    }
  }

  lemma PublishLaunches(s: State, t: nat, g: nat)
    requires Launching(s, t, g) && g in s.groups
    ensures var u := s.(recorded := [g], stateToken := Some(t)); Launching(u, t, g) && Published(u, t)
  {
    var u := s.(recorded := [g], stateToken := Some(t));
    assert forall x :: Held(u, x) == Held(s, x);
    assert forall c :: c in s.calls ==> CallHolds(u, c, s.calls[c]);
  }

  lemma LaunchingHolds(s: State, t: nat, g: nat)
    requires Launching(s, t, g)
    ensures Inv(Ends(s, t, Finishing(true)))
    ensures g in s.recorded ==> Inv(Ends(s, t, Finishing(false))) && Inv(Ends(s, t, Waiting(g)))
  {
    CallChanges(s, t, Finishing(true));
    if g in s.recorded {
      CallChanges(s, t, Finishing(false));
      CallChanges(s, t, Waiting(g));
    }
  }

  lemma MarkAndKeep(s: State, t: nat, g: nat, marks: bool, keeps: bool, recorded: bool)
    requires Launching(s, t, g)
    ensures var marked := if marks then s.(marker := Some(g)) else s;
      var kept := if keeps then marked.(startup := Some(Startup(t, true, true, Some(Unresolved(g, recorded))))) else marked;
      Inv(kept) && Inv(Ends(kept, t, Finishing(true)))
  {
    var marked := if marks then s.(marker := Some(g)) else s;
    var kept := if keeps then marked.(startup := Some(Startup(t, true, true, Some(Unresolved(g, recorded))))) else marked;
    assert forall x :: Held(kept, x) == Held(s, x);
    assert forall c :: c in s.calls ==> CallHolds(kept, c, s.calls[c]);
    assert Inv(kept);
    CallChanges(kept, t, Finishing(true));
  }

  lemma RecoverKeepsInv(s: State, t: nat, h: Handoff, recorded: bool)
    requires Launching(s, t, h.group) && h.group in s.groups
    ensures Inv(Recover(s, t, h, recorded))
  {
    match h.termination
    case Gone =>
      GroupsShrink(s, s.groups[h.group := Empty]);
      CallChanges(s.(groups := s.groups[h.group := Empty]), t, Finishing(false));
    case Killed =>
    case StillThere =>
      MarkAndKeep(s, t, h.group, Happens(h.marker), Happens(h.unresolved), recorded);
      MarkAndKeep(s, t, h.group, Happens(h.marker), false, recorded);
  }

  lemma UnlinkedHolds(s: State, t: nat, g: nat)
    requires Launching(s, t, g) && g in s.recorded
    ensures var done := s.(startup := None); Inv(done) && Inv(Ends(done, t, Waiting(g))) && Inv(Ends(done, t, Finishing(false)))
  {
    ReservationGoes(s);
    var done := s.(startup := None);
    CallChanges(done, t, Waiting(g));
    CallChanges(done, t, Finishing(false));
  }

  lemma PublishKeepsInv(s: State, t: nat, h: Handoff)
    requires Launching(s, t, h.group) && h.group in s.groups && !h.interrupted
    ensures Inv(Publish(s, t, h))
  {
    hide Recover, CallHolds, AuthorityKept, Exclusive, Reservations, Calls;
    var published := s.(recorded := [h.group], stateToken := Some(t));
    PublishLaunches(s, t, h.group);
    LaunchingHolds(published, t, h.group);
    UnlinkedHolds(published, t, h.group);
    RecoverKeepsInv(s, t, h, false);
    RecoverKeepsInv(s, t, h, true);
    RecoverKeepsInv(published, t, h, true);
  }

  lemma HandOffKeepsInv(s: State, t: nat, h: Handoff)
    requires Inv(s) && At(s, t, Building) && h.group !in s.groups && !h.interrupted
    ensures Inv(HandOff(s, t, h))
  {
    CallChanges(s, t, Finishing(false));
    CallChanges(s, t, Over);
    CallChanges(Ends(s, t, Over), t, Finishing(false));
    if MayHandOff(s, t) {
      MayHandOffFacts(s, t);
      ClaimKeepsInv(s, t);
      var claimed := Ends(s, t, Over).(startup := Some(Startup(t, false, true, None)));
      CallChanges(claimed, t, Finishing(false));
      SpawnLaunches(claimed, t, h);
      PublishKeepsInv(Spawned(claimed, t, h), t, h);
    }
    hide Publish, CallHolds, AuthorityKept, Exclusive, Reservations, Calls;
  }

  lemma KeptIsEnough(s: State, v: View)
    requires Sound(s, v)
    ensures forall g :: g in s.recorded && Held(s, g) ==>
      g in AppendNew(Matching(s.recorded, v), UnresolvedGroups(s.recorded, v, s.authorized))
  {
    forall g | g in s.recorded && Held(s, g)
      ensures g in AppendNew(Matching(s.recorded, v), UnresolvedGroups(s.recorded, v, s.authorized))
    {
      HeldIsFound(s, v, g);
      AppendNewHas(Matching(s.recorded, v), UnresolvedGroups(s.recorded, v, s.authorized), g);
    }
  }

  lemma KeptWereRecorded(recorded: seq<nat>, v: View, authorized: set<nat>)
    ensures forall g :: g in AppendNew(Matching(recorded, v), UnresolvedGroups(recorded, v, authorized)) ==> g in recorded
  {
    forall g | g in AppendNew(Matching(recorded, v), UnresolvedGroups(recorded, v, authorized)) ensures g in recorded {
      MatchingHas(recorded, v, g);
      UnresolvedHas(recorded, v, authorized, g);
      AppendNewHas(Matching(recorded, v), UnresolvedGroups(recorded, v, authorized), g);
    }
  }

  /** What a failed start writes back keeps everything that is still held. */
  lemma RetainedKeepsInv(s: State, t: nat, v: View)
    requires Inv(s) && t in s.calls && s.calls[t].Cleaning? && Sound(s, v)
    ensures var written := s.(recorded := Retained(s, s.calls[t].group, s.calls[t].terminated, v), stateToken := KeptToken(s));
      Inv(written) && Published(written, t)
  {
    hide AppendNew, Matching, UnresolvedGroups;
    KeptIsEnough(s, v);
    KeptWereRecorded(s.recorded, v, s.authorized);
    var g, terminated := s.calls[t].group, s.calls[t].terminated;
    assert CallHolds(s, t, s.calls[t]) && g in s.groups;
    StateFileChanges(s, Retained(s, g, terminated, v), KeptToken(s));
  }

  lemma CleanKeepsInv(s: State, t: nat, v: View, io: Io)
    requires Inv(s) && t in s.calls && s.calls[t].Cleaning? && Sound(s, v)
    ensures Inv(Clean(s, t, s.calls[t].group, s.calls[t].terminated, v, io))
  {
    var g, terminated := s.calls[t].group, s.calls[t].terminated;
    var written := if Happens(io) then s.(recorded := Retained(s, g, terminated, v), stateToken := KeptToken(s)) else s;
    RetainedKeepsInv(s, t, v);
    assert Published(s, t) by { assert CallHolds(s, t, s.calls[t]); }
    hide Inv, Retained, KeptToken;
    CallChanges(written, t, Over);
    CallChanges(written, t, Finishing(false));
  }

  lemma FinishKeepsInv(s: State, t: nat, io: Io)
    requires Inv(s) && t in s.calls && s.calls[t].Finishing?
    ensures Inv(Finish(s, t, s.calls[t].preserve, io))
  {
    var mine := s.startup.Some? && s.startup.value.token == t && s.startup.value.unresolved.None? && !s.calls[t].preserve;
    if mine { ReservationGoes(s); }
    CallChanges(if mine && Happens(io) then s.(startup := None) else s, t, Over);
  }

  lemma WaitEndsKeepsInv(s: State, c: nat, failed: bool, terminated: bool)
    requires Inv(s)
    ensures Inv(Next(s, DoWaitEnds(c, failed, terminated)))
  {
    if c in s.calls && s.calls[c].Waiting? {
      var g := s.calls[c].group;
      assert CallHolds(s, c, s.calls[c]) && g in s.groups;
      GroupsShrink(s, s.groups[g := Empty]);
      CallChanges(s, c, Finishing(false));
      CallChanges(s, c, Cleaning(g, false));
      CallChanges(s.(groups := s.groups[g := Empty]), c, Cleaning(g, true));
    }
  }

  // ----- stop -----

  lemma UnlinkKeepsInv(s: State, io1: Io, io2: Io)
    requires Inv(s)
    requires s.startup.Some? && s.startup.value.handoff && s.startup.value.token in s.launched ==> Published(s, s.startup.value.token)
    requires s.marker.Some? && Held(s, s.marker.value) ==> s.marker.value in s.recorded
    ensures Inv(Unlink(s, io1, io2).state)
    ensures Unlink(s, io1, io2).Go? ==> Unlink(s, io1, io2).state == s.(startup := None, marker := None)
  {
    ReservationGoes(s);
    MarkerGoes(s.(startup := None));
    hide AuthorityKept, Exclusive, Reservations, Calls;
  }

  lemma CancelledKeepsInv(s: State, p: Stopping)
    requires Inv(s)
    ensures Inv(Cancelled(s, p).state)
    ensures Cancelled(s, p).Go? && StartupUnresolved(s) ==> Cancelled(s, p).state == s
    ensures var t := Cancelled(s, p).state;
      t == s || (!StartupUnresolved(s) && s.startup.Some? && t == s.(startup := Some(s.startup.value.(cancelled := true, unresolved := None))))
  {
    if s.startup.Some? && !StartupUnresolved(s) {
      var t := s.(startup := Some(s.startup.value.(cancelled := true, unresolved := None)));
      assert forall g :: Held(t, g) == Held(s, g);
      assert forall c :: c in s.calls ==> CallHolds(t, c, s.calls[c]);
      assert Inv(t);
    }
  }

  /** The launch a stop finds unresolved is the one the reservation was for and the one the marker names. */
  lemma UnresolvedIsTheOne(s: State)
    requires Inv(s) && UnresolvedLaunch(s).Some?
    ensures s.startup.Some? ==> s.startup.value.token in s.launched && s.launched[s.startup.value.token] == UnresolvedLaunch(s).value
    ensures s.marker.Some? ==> s.marker.value == UnresolvedLaunch(s).value
  {
  }

  lemma ResolvedKeepsInv(s: State, p: Stopping)
    requires Inv(s) && Honest(s, p)
    ensures Inv(Resolved(s, p).state) && Shrunk(s.groups, Resolved(s, p).state.groups)
    ensures Resolved(s, p).Go? ==>
      var t := Resolved(s, p).state;
      t == (if UnresolvedLaunch(s).Some? && StartupUnresolved(s) && p.gone then s.(groups := t.groups, startup := None, marker := None) else s.(groups := t.groups))
  {
    if StartupUnresolved(s) && UnresolvedLaunch(s).Some? {
      var g := UnresolvedLaunch(s).value;
      var t := s.(groups := Terminated(s.groups, p.killed * {g}));
      GroupsShrink(s, t.groups);
      UnresolvedIsTheOne(s);
      if p.gone {
        assert !Held(t, g);
        UnlinkKeepsInv(t, p.unlink1, p.unlink2);
      }
    }
    hide AuthorityKept, Exclusive, Reservations, Calls;
  }

  /** What remains after a stop names every launch that is still held. */
  lemma RemainingIsEnough(s: State, p: Stopping)
    requires Honest(s, p)
    ensures forall g :: g in s.recorded && Held(s, g) && g !in p.killed ==> g in Find(s, p).remaining
    ensures forall g :: g in Find(s, p).remaining ==> g in s.recorded
  {
    forall g | g in Find(s, p).remaining ensures g in s.recorded {
      var live, orphans := Matching(s.recorded, p.view), UnresolvedGroups(s.recorded, p.view, s.authorized);
      MatchingHas(s.recorded, p.view, g);
      UnresolvedHas(s.recorded, p.view, s.authorized, g);
      RemovedHas(live, p.killed, g);
      AppendNewHas(Removed(live, p.killed), orphans, g);
    }
    forall g | g in s.recorded && Held(s, g) && g !in p.killed ensures g in Find(s, p).remaining {
      var live, orphans := Matching(s.recorded, p.view), UnresolvedGroups(s.recorded, p.view, s.authorized);
      HeldIsFound(s, p.view, g);
      RemovedHas(live, p.killed, g);
      AppendNewHas(Removed(live, p.killed), orphans, g);
    }
  }

  /** The later stages of a stop, from the state after the terminations. */
  function Conclude(s3: State, found: Findings, p: Stopping): Flow {
    var s4 :- if found.settled then Unlink(s3, p.unlink3, p.unlink4) else Go(s3);
    var s5 :- Op(s4, s4.(recorded := found.remaining, stateToken := found.token), p.publish);
    if found.unresolved then Go(s5) else Unlink(s5, p.unlink5, p.unlink6)
  }

  /** A reservation or a marker that may be dropped: it is not all that covers a held launch. */
  predicate Droppable(s: State) {
    && (s.startup.Some? && s.startup.value.handoff && s.startup.value.token in s.launched ==> Published(s, s.startup.value.token))
    && (s.marker.Some? && Held(s, s.marker.value) ==> s.marker.value in s.recorded)
  }

  lemma ConcludeKeepsInv(s3: State, found: Findings, p: Stopping)
    requires Inv(s3)
    requires found.token.Some? ==> found.token == s3.stateToken
    requires forall g :: g in s3.recorded && Held(s3, g) ==> g in found.remaining
    requires forall g :: g in found.remaining ==> g in s3.recorded
    requires found.settled || !found.unresolved ==> Droppable(s3)
    ensures Inv(Conclude(s3, found, p).state)
  {
    if found.settled { UnlinkKeepsInv(s3, p.unlink3, p.unlink4); }
    var s4 := if found.settled then s3.(startup := None, marker := None) else s3;
    if found.settled && !Unlink(s3, p.unlink3, p.unlink4).Go? { return; }
    StateFileChanges(s4, found.remaining, found.token);
    var s5 := s4.(recorded := found.remaining, stateToken := found.token);
    if !found.unresolved {
      assert forall g :: Held(s5, g) == Held(s3, g);
      assert Droppable(s5);
      UnlinkKeepsInv(s5, p.unlink5, p.unlink6);
    }
    hide AuthorityKept, Exclusive, Reservations, Calls;
  }

  lemma StopKeepsInv(s: State, p: Stopping)
    requires Inv(s) && Honest(s, p)
    ensures Inv(Stop(s, p).state)
  {
    hide Find, Inv;
    CancelledKeepsInv(s, p);
    if Cancelled(s, p).Exit? { return; }
    var s1 := Cancelled(s, p).state;
    assert Honest(s1, p) by { assert forall g :: Live(s1, g) == Live(s, g); assert UnresolvedLaunch(s1) == UnresolvedLaunch(s); }
    ResolvedKeepsInv(s1, p);
    if Resolved(s1, p).Exit? { return; }
    var s2 := Resolved(s1, p).state;
    var s3 := s2.(groups := Terminated(s2.groups, p.killed));
    GroupsShrink(s2, s3.groups);
    if !p.raises {
      StopConcludes(s, s1, s2, s3, p);
      ConcludeKeepsInv(s3, Find(s, p), p);
      assert Stop(s, p) == Conclude(s3, Find(s, p), p);
    }
  }

  lemma StopConcludes(s: State, s1: State, s2: State, s3: State, p: Stopping)
    requires Inv(s) && Honest(s, p) && Inv(s3)
    requires Cancelled(s, p) == Go(s1) && Resolved(s1, p) == Go(s2)
    requires s3 == s2.(groups := Terminated(s2.groups, p.killed)) && Shrunk(s.groups, s3.groups)
    requires s2 == (if UnresolvedLaunch(s1).Some? && StartupUnresolved(s1) && p.gone then s1.(groups := s2.groups, startup := None, marker := None) else s1.(groups := s2.groups))
    ensures var found := Find(s, p);
      && (found.token.Some? ==> found.token == s3.stateToken)
      && (forall g :: g in s3.recorded && Held(s3, g) ==> g in found.remaining)
      && (forall g :: g in found.remaining ==> g in s3.recorded)
      && (found.settled || !found.unresolved ==> Droppable(s3))
  {
    CancelledKeepsInv(s, p);
    RemainingIsEnough(s, p);
    var found := Find(s, p);
    assert s3.recorded == s.recorded && s3.stateToken == s.stateToken && s3.launched == s.launched && s3.authorized == s.authorized;
    forall g | Held(s3, g) ensures Held(s, g) && g !in p.killed {
      assert Live(s3, g);
    }
    if found.settled {
      assert found.remaining == [] && forall g :: g in s3.recorded ==> !Held(s3, g);
      assert Droppable(s3);
    }
    hide Find, Sound;
    if !StartupUnresolved(s) { assert Droppable(s3); }
  }

  // ----- all steps -----

  lemma StartSideKeepsInv(s: State, step: Step)
    requires Inv(s)
    requires step.DoReserve? || step.DoAbandon? || step.DoHandOff? || step.DoClean? || step.DoFinish? || step.DoDie?
    requires step.DoHandOff? ==> !step.handoff.interrupted
    ensures Inv(Next(s, step))
  {
    hide Inv, Reserve, HandOff, Clean, Finish;
    match step
    case DoReserve(c, v, io) => if c !in s.calls && Sound(s, v) { ReserveKeepsInv(s, c, v, io); }
    case DoAbandon(c) => if At(s, c, Building) { AbandonKeepsInv(s, c); }
    case DoHandOff(c, h) => if At(s, c, Building) && h.group !in s.groups { HandOffKeepsInv(s, c, h); }
    case DoClean(c, v, io) => if c in s.calls && s.calls[c].Cleaning? && Sound(s, v) { CleanKeepsInv(s, c, v, io); }
    case DoFinish(c, io) => if c in s.calls && s.calls[c].Finishing? { FinishKeepsInv(s, c, io); }
    case DoDie(c) => if c in s.calls { CallChanges(s, c, Over); }
  }

  lemma AbandonKeepsInv(s: State, c: nat)
    requires Inv(s) && At(s, c, Building)
    ensures Inv(Ends(s, c, Finishing(false)))
  {
    CallChanges(s, c, Finishing(false));
  }

  lemma DecayKeepsInv(s: State, g: nat, orphaned: bool)
    requires Inv(s)
    ensures Inv(Next(s, DoDecay(g, orphaned)))
  {
    if Live(s, g) { GroupsShrink(s, s.groups[g := if orphaned && s.groups[g].Led? then Orphaned else Empty]); }
  }

  lemma NextKeepsInv(s: State, step: Step)
    requires Inv(s) && (step.DoHandOff? ==> !step.handoff.interrupted)
    ensures Inv(Next(s, step))
  {
    hide Inv, Next;
    match step
    case DoWaitEnds(c, failed, terminated) => WaitEndsKeepsInv(s, c, failed, terminated);
    case DoStop(p) => StopStepKeepsInv(s, p);
    case DoDecay(g, orphaned) => DecayKeepsInv(s, g, orphaned);
    case _ => StartSideKeepsInv(s, step);
  }

  lemma StopStepKeepsInv(s: State, p: Stopping)
    requires Inv(s)
    ensures Inv(Next(s, DoStop(p)))
  {
    hide Inv, Stop;
    if Honest(s, p) { StopKeepsInv(s, p); }
  }

  lemma InitInv()
    ensures Inv(INIT)
  {
  }

  lemma {:induction false} RunKeepsInv(s: State, steps: seq<Step>)
    requires Inv(s) && Uninterrupted(steps)
    ensures Inv(Run(s, steps))
    decreases |steps|
  {
    if steps == [] {
    } else {
      hide Inv, Next;
      assert steps[0] in steps && forall step :: step in steps[1..] ==> step in steps;
      NextKeepsInv(s, steps[0]);
      RunKeepsInv(Next(s, steps[0]), steps[1..]);
    }
  }

  // ----- what a caller may rely on after one region -----

  lemma RecoverFacts(s: State, t: nat, h: Handoff, recorded: bool)
    requires h.group in s.groups && At(s, t, Over)
    ensures var u := Recover(s, t, h, recorded);
      && (u.groups == s.groups || u.groups == s.groups[h.group := Empty])
      && t in u.calls && !u.calls[t].Waiting?
  {
  }

  lemma PublishFacts(s: State, t: nat, h: Handoff)
    requires h.group in s.groups && At(s, t, Over)
    ensures var u := Publish(s, t, h);
      && (u.groups == s.groups || u.groups == s.groups[h.group := Empty])
      && (t in u.calls && u.calls[t].Waiting? ==> u.recorded == [h.group] && u.startup.None? && u.calls[t].group == h.group)
  {
    var published := s.(recorded := [h.group], stateToken := Some(t));
    RecoverFacts(s, t, h, false);
    RecoverFacts(s, t, h, true);
    RecoverFacts(published, t, h, true);
    hide Recover;
  }

  /** A hand-off touches no launch but its own, and a start goes on to wait only with its launch published. */
  lemma HandOffFacts(s: State, t: nat, h: Handoff)
    requires At(s, t, Building) && h.group !in s.groups
    ensures var u := HandOff(s, t, h);
      && (!MayHandOff(s, t) ==> u.groups == s.groups && u.startup == s.startup && u.recorded == s.recorded)
      && (forall g :: g in s.groups ==> g in u.groups && u.groups[g] == s.groups[g])
      && (t in u.calls && u.calls[t].Waiting? ==> u.recorded == [h.group] && u.startup.None? && u.calls[t].group == h.group)
  {
    var claimed := Ends(s, t, Over).(startup := Some(Startup(t, false, true, None)));
    PublishFacts(Spawned(claimed, t, h), t, h);
    hide Publish;
  }

  lemma ReserveFacts(s: State, t: nat, v: View, io: Io)
    requires Inv(s) && t !in s.calls && Sound(s, v)
    ensures var u := Reserve(s, t, v, io);
      && (At(u, t, Building) ==> u.startup == Some(Startup(t, false, false, None)) && forall g :: !Held(u, g))
      && (s.startup.Some? || s.marker.Some? ==> u.startup == s.startup)
  {
    forall g | Held(s, g) && s.startup.None? && s.marker.None?
      ensures Matching(s.recorded, v) != [] || UnresolvedGroups(s.recorded, v, s.authorized) != []
    {
      assert Covered(s, g);
      HeldIsFound(s, v, g);
    }
    hide Matching, UnresolvedGroups;
    assert forall g :: Held(Reserve(s, t, v, io), g) == Held(s, g);
  }

  // ----- the theorems -----

  /** Over every interleaving of starts and stops, with any operation failing and any process dying at any point, a
      live authorized launch is named by the state file, by the marker, or by the reservation it was launched under;
      and there is never more than one. */
  lemma AuthorityIsNeverLost(steps: seq<Step>)
    requires Uninterrupted(steps)
    ensures AuthorityKept(Run(INIT, steps)) && Exclusive(Run(INIT, steps))
  {
    InitInv();
    RunKeepsInv(INIT, steps);
  }

  /** What a stop reports as ok: everything it knew of was terminated and no reservation is left unresolved. */
  predicate ReportsOk(s: State, p: Stopping) {
    Stop(s, p).Go? && Find(s, p).remaining == [] && !Find(s, p).unresolved
  }

  /** A stop that reports ok leaves no live authorized launch behind, and no trace of one in the files. */
  lemma OkStopLeavesNothing(s: State, p: Stopping)
    requires Inv(s) && Honest(s, p) && ReportsOk(s, p)
    ensures var t := Stop(s, p).state; t.recorded == [] && t.startup.None? && t.marker.None? && forall g :: !Held(t, g)
  {
    StopKeepsInv(s, p);
    var t := Stop(s, p).state;
    assert AuthorityKept(t);
    hide Reservations, Calls, Exclusive, Find;
  }

  /** `t` is in its build phase and its reservation is gone, cancelled or replaced. */
  predicate Revoked(s: State, t: nat) {
    t in s.calls && t !in s.launched && !MayHandOff(s, t)
  }

  /** No start is given a new or a revived reservation. */
  ghost predicate Eased(s: State, t: State) {
    && s.calls.Keys <= t.calls.Keys && t.launched == s.launched
    && (t.startup.Some? ==> t.startup == s.startup || t.startup.value.cancelled)
  }

  lemma StopEases(s: State, p: Stopping)
    ensures Eased(s, Stop(s, p).state)
  {
    var r1 := Cancelled(s, p);
    assert Eased(s, r1.state);
    if r1.Go? {
      var r2 := Resolved(r1.state, p);
      assert Eased(r1.state, r2.state);
      if r2.Go? && !p.raises {
        var s3 := r2.state.(groups := Terminated(r2.state.groups, p.killed));
        ConcludeEases(s3, Find(s, p), p);
        assert Stop(s, p) == Conclude(s3, Find(s, p), p);
      }
    }
    hide Find, Conclude;
  }

  lemma ConcludeEases(s3: State, found: Findings, p: Stopping)
    ensures Eased(s3, Conclude(s3, found, p).state)
  {
  }

  /** From `s` on, only the start `c` has touched the reservation. */
  ghost predicate OnlyFor(s: State, u: State, c: nat) {
    s.calls.Keys <= u.calls.Keys && u.launched == s.launched && (u.startup.Some? ==> u.startup.value.token == c)
  }

  lemma RecoverOnlyFor(s: State, c: nat, h: Handoff, recorded: bool)
    requires s.startup.Some? ==> s.startup.value.token == c
    ensures OnlyFor(s, Recover(s, c, h, recorded), c)
  {
  }

  lemma PublishOnlyFor(s: State, c: nat, h: Handoff)
    requires s.startup.Some? ==> s.startup.value.token == c
    ensures OnlyFor(s, Publish(s, c, h), c)
  {
    var published := s.(recorded := [h.group], stateToken := Some(c));
    RecoverOnlyFor(s, c, h, false);
    RecoverOnlyFor(s, c, h, true);
    RecoverOnlyFor(published, c, h, true);
    hide Recover;
  }

  lemma HandOffKeepsRevoked(s: State, c: nat, h: Handoff, t: nat)
    requires Revoked(s, t) && c in s.calls
    ensures Revoked(HandOff(s, c, h), t)
  {
    if MayHandOff(s, c) {
      PublishOnlyFor(Spawned(Ends(s, c, Over).(startup := Some(Startup(c, false, true, None))), c, h), c, h);
    }
    hide Publish;
  }

  lemma StaysRevoked(s: State, step: Step, t: nat)
    requires Revoked(s, t)
    ensures Revoked(Next(s, step), t)
  {
    hide Stop, HandOff, Matching, UnresolvedGroups, AppendNew, Sound, Honest;
    match step
    case DoStop(p) => StopEases(s, p);
    case DoHandOff(c, h) => if c in s.calls { HandOffKeepsRevoked(s, c, h, t); }
    case _ =>
  }

  /** A start whose reservation was cancelled or replaced never spawns a launch. */
  lemma {:induction false} RevokedStartNeverSpawns(s: State, steps: seq<Step>, t: nat)
    requires Revoked(s, t)
    ensures t !in Run(s, steps).launched
    decreases |steps|
  {
    if steps == [] {
    } else {
      StaysRevoked(s, steps[0], t);
      hide Next;
      RevokedStartNeverSpawns(Next(s, steps[0]), steps[1..], t);
    }
  }

  /** An old start's failure handling never touches the reservation or the marker, never drops a held launch from the
      state file, and keeps the token of a launch whose reservation still stands; and its finally clause removes no
      reservation but its own. So whatever a newer start has reached (reserved, launched, or published and gone on), its
      claim survives. */
  lemma OldCleanupSparesNewer(s: State, t: nat, g: nat, terminated: bool, v: View, io: Io, preserve: bool)
    requires Sound(s, v)
    ensures var c := Clean(s, t, g, terminated, v, io);
      && c.startup == s.startup && c.marker == s.marker && c.groups == s.groups
      && (forall x :: x in s.recorded && Held(s, x) ==> x in c.recorded)
      && (s.startup.Some? && s.stateToken == Some(s.startup.value.token) ==> c.stateToken == s.stateToken)
    ensures var f := Finish(s, t, preserve, io);
      && f.recorded == s.recorded && f.stateToken == s.stateToken && f.marker == s.marker && f.groups == s.groups
      && (s.startup.Some? && s.startup.value.token != t ==> f.startup == s.startup)
  {
    KeptIsEnough(s, v);
    hide AppendNew, Matching, UnresolvedGroups;
  }

  /** A hand-off followed by the start's finally clause. */
  function HandOffAndFinish(s: State, t: nat, h: Handoff, io: Io): State {
    var u := HandOff(s, t, h);
    if t in u.calls && u.calls[t].Finishing? then Finish(u, t, u.calls[t].preserve, io) else u
  }

  /** The one way authority is lost: an exception that is not an `Exception` unwinds the start after the spawn and
      before the state file names the launch; the finally clause then deletes the only thing that covered it. */
  lemma AuthorityIsLostIffInterrupted(s: State, t: nat, h: Handoff)
    requires Inv(s) && At(s, t, Building) && MayHandOff(s, t) && h.group !in s.groups
    requires h.reserve.Done? && h.spawn.Spawns? && h.isAuthorized
    ensures AuthorityKept(HandOffAndFinish(s, t, h, Done)) <==> !h.interrupted
  {
    if h.interrupted {
      var u := HandOffAndFinish(s, t, h, Done);
      assert u.startup.None? && u.marker.None? && u.recorded == s.recorded;
      assert Held(u, h.group) && !Covered(u, h.group);
    } else {
      HandOffKeepsInv(s, t, h);
      var u := HandOff(s, t, h);
      if t in u.calls && u.calls[t].Finishing? { FinishKeepsInv(u, t, Done); }
      hide HandOff, Finish;
    }
  }

  // ----- what a start does -----

  /** A record the loader keeps: its leader is there, or it is an authorized launch whose group is not empty. */
  predicate Kept(s: State, v: View, g: nat) {
    g in s.recorded && (g in v.matched || (g in s.authorized && g in v.populated))
  }

  lemma LoadKeeps(s: State, v: View)
    ensures forall g :: g in Matching(s.recorded, v) || g in UnresolvedGroups(s.recorded, v, s.authorized) <==> Kept(s, v, g)
    ensures forall g :: g in AppendNew(Matching(s.recorded, v), UnresolvedGroups(s.recorded, v, s.authorized)) <==> Kept(s, v, g)
  {
    forall g
      ensures g in Matching(s.recorded, v) || g in UnresolvedGroups(s.recorded, v, s.authorized) <==> Kept(s, v, g)
      ensures g in AppendNew(Matching(s.recorded, v), UnresolvedGroups(s.recorded, v, s.authorized)) <==> Kept(s, v, g)
    {
      MatchingHas(s.recorded, v, g);
      UnresolvedHas(s.recorded, v, s.authorized, g);
      AppendNewHas(Matching(s.recorded, v), UnresolvedGroups(s.recorded, v, s.authorized), g);
    }
  }

  /** A start gets its reservation exactly when nothing is reserved, marked, running or unresolved. */
  lemma ReserveIff(s: State, t: nat, v: View)
    requires t !in s.calls
    ensures var u := Reserve(s, t, v, Done);
      && (At(u, t, Building) <==> s.startup.None? && s.marker.None? && forall g :: !Kept(s, v, g))
      && (if At(u, t, Building) then MayHandOff(u, t) && u == s.(startup := u.startup, calls := u.calls)
          else u == s.(calls := s.calls[t := Over]))
  {
    LoadKeeps(s, v);
    var live, orphans := Matching(s.recorded, v), UnresolvedGroups(s.recorded, v, s.authorized);
    assert live != [] ==> live[0] in live;
    assert orphans != [] ==> orphans[0] in orphans;
    hide Matching, UnresolvedGroups, Kept;
  }

  /** The durable operations of a hand-off all succeed. */
  predicate GoesWell(h: Handoff) {
    h.reserve.Done? && h.spawn.Spawns? && !h.interrupted && h.record.Done? && h.publish.Done? && h.unlink.Done?
  }

  /** A start that holds its reservation and meets no failure ends up with its launch running, named by the state file under
      its token, and the reservation gone. */
  lemma StartLaunches(s: State, t: nat, h: Handoff)
    requires MayHandOff(s, t) && GoesWell(h)
    ensures HandOff(s, t, h) == s.(
      recorded := [h.group], stateToken := Some(t), startup := None, groups := s.groups[h.group := Led],
      authorized := if h.isAuthorized then s.authorized + {h.group} else s.authorized,
      launched := s.launched[t := h.group], calls := s.calls[t := Waiting(h.group)])
  {
    assert s.calls[t := Over][t := Waiting(h.group)] == s.calls[t := Waiting(h.group)];
  }

  /** A launch that cannot be recorded or published is terminated, and if that fails it is marked and the reservation kept
      as unresolved. */
  lemma FailedHandOffRecovers(s: State, t: nat, h: Handoff)
    requires MayHandOff(s, t) && h.reserve.Done? && h.spawn.Spawns? && !h.interrupted
    requires h.record.RaisedBefore? || h.record.RaisedAfter? || (h.record.Done? && (h.publish.RaisedBefore? || h.publish.RaisedAfter?))
    requires h.termination.Gone? || (h.termination.StillThere? && h.marker.Done? && h.unresolved.Done?)
    ensures var u := HandOff(s, t, h);
      && t in u.calls && u.calls[t] == Finishing(h.termination.StillThere?) && h.group in u.groups
      && (h.termination.Gone? ==> u.groups[h.group].Empty? && u.startup == Some(Startup(t, false, true, None)) && u.marker == s.marker)
      && (h.termination.StillThere? ==>
            && u.groups[h.group].Led? && u.marker == Some(h.group)
            && u.startup == Some(Startup(t, true, true, Some(Unresolved(h.group, h.record.Done?)))))
  {
  }

  /** What the failure handling of a start writes back: what the loader keeps, and its own launch unless that was
      terminated; nothing else. */
  lemma CleanWritesExactly(s: State, t: nat, g: nat, terminated: bool, v: View)
    ensures var c := Clean(s, t, g, terminated, v, Done);
      && (forall x :: x in c.recorded <==> Kept(s, v, x) || (x == g && !terminated))
      && c.stateToken == (if s.startup.Some? && s.stateToken == Some(s.startup.value.token) then s.stateToken else None)
      && At(c, t, Finishing(false))
  {
    LoadKeeps(s, v);
    hide Matching, UnresolvedGroups, AppendNew, Kept;
  }

  /** The finally clause drops the reservation exactly when it is the start's own, not unresolved and not to be preserved. */
  lemma FinishDropsIff(s: State, t: nat, preserve: bool)
    requires s.startup.Some?
    ensures var f := Finish(s, t, preserve, Done);
      && (f.startup.None? <==> s.startup.value.token == t && s.startup.value.unresolved.None? && !preserve)
      && (f.startup.Some? ==> f.startup == s.startup) && At(f, t, Over)
  {
  }

  /** How the wait for the graph ends: well, or by terminating what can be terminated, or with the launch still there. */
  lemma WaitEnds(s: State, c: nat, failed: bool, terminated: bool)
    requires c in s.calls && s.calls[c].Waiting? && s.calls[c].group in s.groups
    ensures var g, u := s.calls[c].group, Next(s, DoWaitEnds(c, failed, terminated));
      && (!failed ==> u == Ends(s, c, Finishing(false)))
      && (failed && !terminated ==> u == Ends(s, c, Cleaning(g, false)))
      && (failed && terminated && (g in s.authorized || !Live(s, g)) ==>
            !Live(u, g) && At(u, c, Cleaning(g, true)) && forall x :: x != g ==> Live(u, x) == Live(s, x))
  {
  }

  // ----- what a stop does -----

  lemma StopIsConclude(s: State, p: Stopping) returns (s3: State)
    requires Stop(s, p).Go?
    ensures Stop(s, p) == Conclude(s3, Find(s, p), p) && s3.authorized == s.authorized
    ensures s3.groups.Keys == s.groups.Keys && forall g :: g in p.killed && g in s.groups ==> s3.groups[g].Empty?
    ensures forall g :: g in s.groups && g !in p.killed ==> s3.groups[g] == s.groups[g]
    ensures StartupUnresolved(s) && UnresolvedLaunch(s).None? ==> s3.startup == s.startup && s3.marker == s.marker
  {
    hide Find;
    var s1 := Cancelled(s, p).state;
    var s2 := Resolved(s1, p).state;
    s3 := s2.(groups := Terminated(s2.groups, p.killed));
  }

  lemma ConcludeWrites(s3: State, found: Findings, p: Stopping)
    requires Conclude(s3, found, p).Go?
    ensures var t := Conclude(s3, found, p).state;
      && t.recorded == found.remaining && t.stateToken == found.token && t.groups == s3.groups && t.authorized == s3.authorized
      && (!found.unresolved ==> t.startup.None? && t.marker.None?)
      && (found.unresolved && !found.settled ==> t.startup == s3.startup && t.marker == s3.marker)
  {
  }

  /** A stop that goes to its end leaves in the state file exactly the records it found running and could not terminate, and
      those whose leader was gone while an authorized group was not; what it terminated is gone, and nothing else. */
  lemma StopWritesExactly(s: State, p: Stopping)
    requires Stop(s, p).Go?
    ensures var t := Stop(s, p).state;
      && (forall g :: g in t.recorded <==>
            g in s.recorded && if g in p.view.matched then g !in p.killed else g in s.authorized && g in p.view.populated)
      && (forall g :: Live(t, g) <==> Live(s, g) && g !in p.killed)
  {
    var s3 := StopIsConclude(s, p);
    ConcludeWrites(s3, Find(s, p), p);
    forall g
      ensures g in Find(s, p).remaining <==>
        g in s.recorded && if g in p.view.matched then g !in p.killed else g in s.authorized && g in p.view.populated
    {
      var live, orphans := Matching(s.recorded, p.view), UnresolvedGroups(s.recorded, p.view, s.authorized);
      MatchingHas(s.recorded, p.view, g);
      UnresolvedHas(s.recorded, p.view, s.authorized, g);
      RemovedHas(live, p.killed, g);
      AppendNewHas(Removed(live, p.killed), orphans, g);
    }
    hide Find, Conclude, Stop;
  }

  /** Every durable operation of the stop succeeds, and nothing raises. */
  predicate GoesThrough(p: Stopping) {
    && !p.raises && p.cancel.Done? && p.publish.Done?
    && p.unlink1.Done? && p.unlink2.Done? && p.unlink3.Done? && p.unlink4.Done? && p.unlink5.Done? && p.unlink6.Done?
  }

  /** Every recorded launch is terminated or gone, and no group is left without its leader. */
  predicate AllStopped(s: State, p: Stopping) {
    forall g :: g in s.recorded ==>
      if g in p.view.matched then g in p.killed else !(g in s.authorized && g in p.view.populated)
  }

  /** A stop that meets no failure reports ok exactly when it stopped everything, and no hand-off was left unresolved: there
      was none, or its launch is gone, or the state file named it already. */
  lemma StopReportsOkIff(s: State, p: Stopping)
    requires GoesThrough(p)
    ensures Stop(s, p).Go?
    ensures ReportsOk(s, p) <==>
      AllStopped(s, p) && (!StartupUnresolved(s) || (UnresolvedLaunch(s).Some? && p.gone) || PhaseOnlyCommitted(s))
  {
    assert Stop(s, p).Go? by { hide Find; }
    StopWritesExactly(s, p);
    var s3 := StopIsConclude(s, p);
    ConcludeWrites(s3, Find(s, p), p);
    var remaining := Find(s, p).remaining;
    assert remaining == Stop(s, p).state.recorded;
    assert remaining != [] ==> remaining[0] in remaining;
    hide Stop, Conclude, Matching, UnresolvedGroups, AppendNew, Removed, StartupUnresolved, UnresolvedLaunch, PhaseOnlyCommitted;
  }

  /** A stop that could not terminate everything can be tried again: while the state file names the launch of a hand-off
      that never got to drop its reservation, it goes on saying so, and a later stop that terminates the rest reports ok. */
  lemma StopCanBeRetried(s: State, p: Stopping, q: Stopping)
    requires PhaseOnlyCommitted(s) && Stop(s, p).Go? && Stop(s, p).state.recorded != [] && GoesThrough(q)
    ensures var t := Stop(s, p).state;
      PhaseOnlyCommitted(t) && t.startup == s.startup && (ReportsOk(t, q) <==> AllStopped(t, q))
  {
    var t := Stop(s, p).state;
    StopWritesExactly(s, p);
    var s3 := StopIsConclude(s, p);
    ConcludeWrites(s3, Find(s, p), p);
    StopReportsOkIff(t, q);
    hide Stop, Conclude, Matching, UnresolvedGroups, AppendNew, Removed, ReportsOk, AllStopped;
  }

  /** A stop that gets as far as writing its cancellation revokes a start that has only reserved, however it ends. */
  lemma StopRevokes(s: State, p: Stopping, t: nat)
    requires Inv(s) && At(s, t, Building) && MayHandOff(s, t) && Happens(p.cancel)
    ensures Revoked(Stop(s, p).state, t)
  {
    MayHandOffFacts(s, t);
    var r := Cancelled(s, p);
    assert !MayHandOff(r.state, t) && Eased(s, r.state);
    hide Inv, Find;
    if r.Go? {
      var r2 := Resolved(r.state, p);
      assert r2 == Go(r.state);
      if !p.raises {
        var s3 := r2.state.(groups := Terminated(r2.state.groups, p.killed));
        ConcludeEases(s3, Find(s, p), p);
        assert Stop(s, p) == Conclude(s3, Find(s, p), p);
      }
    }
    hide Conclude;
  }

  /** A whole life: from any state with empty files and no leftovers, a start that meets no failure runs its launch, and a
      stop that terminates it reports ok and leaves the files empty again. */
  lemma StartAndStop(s: State, t: nat, h: Handoff, v: View, p: Stopping)
    requires s.recorded == [] && s.startup.None? && s.marker.None? && t !in s.calls
    requires GoesWell(h) && h.isAuthorized
    requires GoesThrough(p) && h.group in p.view.matched && h.group in p.killed
    ensures var u := HandOff(Reserve(s, t, v, Done), t, h);
      && u.recorded == [h.group] && u.stateToken == Some(t) && Held(u, h.group) && At(u, t, Waiting(h.group))
      && ReportsOk(u, p) && Stop(u, p).state.recorded == [] && Stop(u, p).state.startup.None? && !Live(Stop(u, p).state, h.group)
  {
    ReserveIff(s, t, v);
    var r := Reserve(s, t, v, Done);
    StartLaunches(r, t, h);
    var u := HandOff(r, t, h);
    StopReportsOkIff(u, p);
    StopWritesExactly(u, p);
    var s3 := StopIsConclude(u, p);
    ConcludeWrites(s3, Find(u, p), p);
    hide Stop, Conclude, Find, Reserve, HandOff;
  }
}
