/** The launch lifecycle: start and stop as regions under the lifecycle file lock, over three durable files. Every
    write, unlink, spawn, record and termination has an outcome of its own, and a process may die in the middle of any
    region; the lock then falls free with the files as they are. A launch is named by its process group. */
module LaunchSpec {
  import opened SafetyTypes

  /** `Led`: the recorded leader is alive. `Orphaned`: the leader is gone, members remain. */
  datatype Group = Led | Orphaned | Empty

  datatype Unresolved = Unresolved(group: nat, recorded: bool)

  datatype Startup = Startup(token: nat, cancelled: bool, handoff: bool, unresolved: Option<Unresolved>)

  /** Where one call of `start` stands between its regions. */
  datatype Call =
    | Building
    | Waiting(group: nat)
    | Cleaning(group: nat, terminated: bool)
    | Finishing(preserve: bool)
    | Over

  datatype State = State(
    recorded: seq<nat>,
    stateToken: Option<nat>,
    startup: Option<Startup>,
    marker: Option<nat>,
    groups: map<nat, Group>,
    authorized: set<nat>,
    launched: map<nat, nat>,
    calls: map<nat, Call>)

  const INIT: State := State([], None, None, None, map[], {}, map[], map[])

  /** One durable operation: it happens or not, and the caller goes on, sees an exception, or dies. */
  datatype Io = Done | RaisedBefore | RaisedAfter | CrashedBefore | CrashedAfter

  predicate Happens(io: Io) {
    io.Done? || io.RaisedAfter? || io.CrashedAfter?
  }

  predicate Crashes(io: Io) {
    io.CrashedBefore? || io.CrashedAfter?
  }

  /** What a region sees of the processes: the groups whose recorded leader matches, and the groups with members. */
  datatype View = View(matched: set<nat>, populated: set<nat>)

  predicate Live(s: State, g: nat) {
    g in s.groups && !s.groups[g].Empty?
  }

  /** Processes only disappear, so what is populated when a region is over was populated when the region looked. */
  ghost predicate Sound(s: State, v: View) {
    forall g :: Live(s, g) ==> g in v.populated
  }

  // ----- loading the state file -----

  function Matching(recorded: seq<nat>, v: View): seq<nat> {
    if recorded == [] then []
    else (if recorded[0] in v.matched then [recorded[0]] else []) + Matching(recorded[1..], v)
  }

  /** Records whose leader does not match but whose group still has members, and which are authorized launches. */
  function UnresolvedGroups(recorded: seq<nat>, v: View, authorized: set<nat>): seq<nat> {
    if recorded == [] then []
    else
      (if recorded[0] !in v.matched && recorded[0] in authorized && recorded[0] in v.populated then [recorded[0]] else [])
      + UnresolvedGroups(recorded[1..], v, authorized)
  }

  function AppendNew(xs: seq<nat>, ys: seq<nat>): seq<nat>
    decreases |ys|
  {
    if ys == [] then xs else AppendNew(if ys[0] in xs then xs else xs + [ys[0]], ys[1..])
  }

  // ----- start -----

  /** First region: reserve, unless anything is running, reserved or unresolved. */
  function Reserve(s: State, t: nat, v: View, io: Io): State {
    if Matching(s.recorded, v) != [] || s.startup.Some? || s.marker.Some? || UnresolvedGroups(s.recorded, v, s.authorized) != []
    then s.(calls := s.calls[t := Over])
    else
      s.(startup := if Happens(io) then Some(Startup(t, false, false, None)) else None,
         calls := s.calls[t := if io.Done? then Building else Over])
  }

  datatype Termination = Gone | StillThere | Killed

  /** Outcomes of a spawn: a process, no process and an exception, or the death of the caller before or after. A spawn
      that raises has made no process. */
  datatype Spawning = Spawns | SpawnFails | DiesBefore | DiesAfter

  /** Outcomes of the second region. `interrupted` is an exception that is not an `Exception`, raised after the spawn
      and before the state file names the launch. */
  datatype Handoff = Handoff(
    reserve: Io,
    spawn: Spawning,
    group: nat,
    isAuthorized: bool,
    record: Io,
    interrupted: bool,
    publish: Io,
    unlink: Io,
    termination: Termination,
    marker: Io,
    unresolved: Io)

  predicate MayHandOff(s: State, t: nat) {
    s.startup.Some? && s.startup.value.token == t && !s.startup.value.cancelled
  }

  function Spawned(s: State, t: nat, h: Handoff): State {
    s.(groups := s.groups[h.group := Led], launched := s.launched[t := h.group],
       authorized := if h.isAuthorized then s.authorized + {h.group} else s.authorized)
  }

  function Ends(s: State, t: nat, call: Call): State {
    s.(calls := s.calls[t := call])
  }

  /** The handler for a launch that could not be recorded or published. */
  function Recover(s: State, t: nat, h: Handoff, recorded: bool): State {
    match h.termination
    case Gone => Ends(s.(groups := s.groups[h.group := Empty]), t, Finishing(false))
    case Killed => s
    case StillThere =>
      var marked := if Happens(h.marker) then s.(marker := Some(h.group)) else s;
      if Crashes(h.marker) then marked
      else
        var kept := if Happens(h.unresolved)
          then marked.(startup := Some(Startup(t, true, true, Some(Unresolved(h.group, recorded))))) else marked;
        if Crashes(h.unresolved) then kept else Ends(kept, t, Finishing(true))
  }

  /** The second region once the launch exists: record it, publish it, drop the reservation. */
  function Publish(s: State, t: nat, h: Handoff): State {
    if h.interrupted then Ends(s, t, Finishing(false))
    else if Crashes(h.record) then s
    else if !h.record.Done? then Recover(s, t, h, false)
    else
      var published := if Happens(h.publish) then s.(recorded := [h.group], stateToken := Some(t)) else s;
      if Crashes(h.publish) then published
      else if !h.publish.Done? then Recover(published, t, h, true)
      else
        var done := if Happens(h.unlink) then published.(startup := None) else published;
        if Crashes(h.unlink) then done else Ends(done, t, if h.unlink.Done? then Waiting(h.group) else Finishing(false))
  }

  /** Second region: claim the handoff, spawn, and publish. Until the region ends the call counts as over, which is
      what a crash inside it leaves. */
  function HandOff(s: State, t: nat, h: Handoff): State {
    if !MayHandOff(s, t) then Ends(s, t, Finishing(false))
    else
      var inside := Ends(s, t, Over);
      var claimed := if Happens(h.reserve) then inside.(startup := Some(Startup(t, false, true, None))) else inside;
      if Crashes(h.reserve) then claimed
      else if !h.reserve.Done? then Ends(claimed, t, Finishing(false))
      else if h.spawn.Spawns? then Publish(Spawned(claimed, t, h), t, h)
      else if h.spawn.DiesAfter? then Spawned(claimed, t, h)
      else if h.spawn.DiesBefore? then claimed
      else Ends(claimed, t, Finishing(false))
  }

  /** What a failed start writes back: everything still there, and its own launch unless that was terminated. */
  function Retained(s: State, g: nat, terminated: bool, v: View): seq<nat> {
    var kept := AppendNew(Matching(s.recorded, v), UnresolvedGroups(s.recorded, v, s.authorized));
    if !terminated && g !in kept then kept + [g] else kept
  }

  function KeptToken(s: State): Option<nat> {
    if s.startup.Some? && s.stateToken == Some(s.startup.value.token) then s.stateToken else None
  }

  /** Third region, after a start whose graph never came up: rewrite the state file. */
  function Clean(s: State, t: nat, g: nat, terminated: bool, v: View, io: Io): State {
    var written := if Happens(io) then s.(recorded := Retained(s, g, terminated, v), stateToken := KeptToken(s)) else s;
    Ends(written, t, if Crashes(io) then Over else Finishing(false))
  }

  /** The finally clause. */
  function Finish(s: State, t: nat, preserve: bool, io: Io): State {
    var mine := s.startup.Some? && s.startup.value.token == t && s.startup.value.unresolved.None? && !preserve;
    Ends(if mine && Happens(io) then s.(startup := None) else s, t, Over)
  }

  // ----- stop -----

  /** A region that goes on, or has ended early with the files as they are. */
  datatype Flow = Go(state: State) | Exit(state: State) {
    predicate IsFailure() { Exit? }
    function PropagateFailure(): Flow requires Exit? { this }
    function Extract(): State requires Go? { state }
  }

  function Op(s: State, after: State, io: Io): Flow {
    if io.Done? then Go(after) else if Happens(io) then Exit(after) else Exit(s)
  }

  /** What a stop meets: `gone` says the unresolved launch turns out (or is made) empty, `killed` which managed launches
      it terminates, `raises` that the service call or a termination raises; then one outcome per durable operation. */
  datatype Stopping = Stopping(
    view: View,
    gone: bool,
    killed: set<nat>,
    raises: bool,
    cancel: Io,
    unlink1: Io, unlink2: Io, unlink3: Io, unlink4: Io,
    publish: Io,
    unlink5: Io, unlink6: Io)

  predicate StartupUnresolved(s: State) {
    (s.startup.Some? && (s.startup.value.unresolved.Some? || s.startup.value.handoff)) || s.marker.Some?
  }

  function UnresolvedLaunch(s: State): Option<nat> {
    if s.startup.Some? && s.startup.value.unresolved.Some? then Some(s.startup.value.unresolved.value.group) else s.marker
  }

  predicate AllAuthorized(s: State) {
    forall g :: g in s.recorded ==> g in s.authorized
  }

  /** The reservation is in its handoff phase but the state file already names its launch. */
  predicate PhaseOnlyCommitted(s: State) {
    && StartupUnresolved(s) && s.startup.Some? && s.startup.value.handoff && s.startup.value.unresolved.None?
    && s.marker.None? && s.stateToken == Some(s.startup.value.token)
    && s.recorded != [] && AllAuthorized(s)
  }

  function Terminated(groups: map<nat, Group>, killed: set<nat>): map<nat, Group> {
    map g | g in groups :: if g in killed then Empty else groups[g]
  }

  function Removed(xs: seq<nat>, killed: set<nat>): seq<nat> {
    if xs == [] then [] else (if xs[0] in killed then [] else [xs[0]]) + Removed(xs[1..], killed)
  }

  /** Delete the reservation and then the marker. */
  function Unlink(s: State, io1: Io, io2: Io): Flow {
    var t :- Op(s, s.(startup := None), io1);
    Op(t, t.(marker := None), io2)
  }

  /** The stages of a stop, in order; each is given what the earlier ones found. */
  function Cancelled(s: State, p: Stopping): Flow {
    if s.startup.Some? && !StartupUnresolved(s)
    then Op(s, s.(startup := Some(s.startup.value.(cancelled := true, unresolved := None))), p.cancel)
    else Go(s)
  }

  /** The unresolved launch is terminated if it can be, and forgotten once it is gone. */
  function Resolved(s: State, p: Stopping): Flow {
    if StartupUnresolved(s) && UnresolvedLaunch(s).Some? then
      var t := s.(groups := Terminated(s.groups, p.killed * {UnresolvedLaunch(s).value}));
      if p.gone then Unlink(t, p.unlink1, p.unlink2) else Go(t)
    else Go(s)
  }

  /** What a stop knows once it has terminated what it could: what remains of the state file's launches, and whether
      the reservation is still unresolved. */
  datatype Findings = Findings(remaining: seq<nat>, unresolved: bool, settled: bool, token: Option<nat>)

  function Find(s: State, p: Stopping): Findings {
    var live := Matching(s.recorded, p.view);
    var orphans := UnresolvedGroups(s.recorded, p.view, s.authorized);
    var remaining := AppendNew(Removed(live, p.killed), orphans);
    var stillUnresolved := StartupUnresolved(s) && !(UnresolvedLaunch(s).Some? && p.gone);
    var settled := PhaseOnlyCommitted(s) && remaining == [];
    Findings(remaining, stillUnresolved && !settled, settled,
             if PhaseOnlyCommitted(s) && stillUnresolved && !settled then Some(s.startup.value.token) else None)
  }

  function Stop(s: State, p: Stopping): Flow {
    var s1 :- Cancelled(s, p);
    var s2 :- Resolved(s1, p);
    var s3 := s2.(groups := Terminated(s2.groups, p.killed));
    if p.raises then Exit(s3)
    else
      var found := Find(s, p);
      var s4 :- if found.settled then Unlink(s3, p.unlink3, p.unlink4) else Go(s3);
      var s5 :- Op(s4, s4.(recorded := found.remaining, stateToken := found.token), p.publish);
      if found.unresolved then Go(s5) else Unlink(s5, p.unlink5, p.unlink6)
  }

  /** A stop can only have found and killed what is there to find: it terminates authorized launches, and calls the
      unresolved one gone only when it is empty. */
  ghost predicate Honest(s: State, p: Stopping) {
    && Sound(s, p.view)
    && p.killed <= s.authorized
    && (p.gone && UnresolvedLaunch(s).Some? ==> !Live(s, UnresolvedLaunch(s).value) || UnresolvedLaunch(s).value in p.killed)
  }

  // ----- runs -----

  datatype Step =
    | DoReserve(call: nat, view: View, io: Io)
    | DoAbandon(call: nat)
    | DoHandOff(call: nat, handoff: Handoff)
    | DoWaitEnds(call: nat, failed: bool, terminated: bool)
    | DoClean(call: nat, view: View, io: Io)
    | DoFinish(call: nat, io: Io)
    | DoDie(call: nat)
    | DoStop(stopping: Stopping)
    | DoDecay(group: nat, orphaned: bool)

  predicate At(s: State, c: nat, call: Call) {
    c in s.calls && s.calls[c] == call
  }

  /** One step; `ghost` because whether a view is sound is a matter of fact, not of computation. */
  ghost function Next(s: State, step: Step): State {
    match step
    case DoReserve(c, v, io) => if c !in s.calls && Sound(s, v) then Reserve(s, c, v, io) else s
    case DoAbandon(c) => if At(s, c, Building) then Ends(s, c, Finishing(false)) else s
    case DoHandOff(c, h) => if At(s, c, Building) && h.group !in s.groups then HandOff(s, c, h) else s
    case DoWaitEnds(c, failed, terminated) =>
      if c in s.calls && s.calls[c].Waiting? then
        var g := s.calls[c].group;
        if !failed then Ends(s, c, Finishing(false))
        else if terminated && (g in s.authorized || !Live(s, g)) then Ends(s.(groups := s.groups[g := Empty]), c, Cleaning(g, true))
        else if terminated then s
        else Ends(s, c, Cleaning(g, false))
      else s
    case DoClean(c, v, io) =>
      if c in s.calls && s.calls[c].Cleaning? && Sound(s, v) then Clean(s, c, s.calls[c].group, s.calls[c].terminated, v, io) else s
    case DoFinish(c, io) => if c in s.calls && s.calls[c].Finishing? then Finish(s, c, s.calls[c].preserve, io) else s
    case DoDie(c) => if c in s.calls then Ends(s, c, Over) else s
    case DoStop(p) => if Honest(s, p) then Stop(s, p).state else s
    case DoDecay(g, orphaned) =>
      if Live(s, g) then s.(groups := s.groups[g := if orphaned && s.groups[g].Led? then Orphaned else Empty]) else s
  }

  ghost function Run(s: State, steps: seq<Step>): State
    decreases |steps|
  {
    if steps == [] then s else Run(Next(s, steps[0]), steps[1..])
  }

  predicate Uninterrupted(steps: seq<Step>) {
    forall step :: step in steps && step.DoHandOff? ==> !step.handoff.interrupted
  }

  // ----- what must hold -----

  /** The group is named by, or was launched under, something durable. */
  predicate Covered(s: State, g: nat) {
    || g in s.recorded
    || (s.startup.Some? && s.startup.value.handoff && s.startup.value.token in s.launched && s.launched[s.startup.value.token] == g)
    || s.marker == Some(g)
  }

  predicate Held(s: State, g: nat) {
    Live(s, g) && g in s.authorized
  }

  ghost predicate AuthorityKept(s: State) {
    forall g :: Held(s, g) ==> Covered(s, g)
  }

  ghost predicate Exclusive(s: State) {
    forall g, h :: Held(s, g) && Held(s, h) ==> g == h
  }

  ghost predicate Reservations(s: State) {
    && (s.startup.Some? && !s.startup.value.handoff ==>
          s.startup.value.token !in s.launched && s.marker.None? && s.startup.value.unresolved.None? && forall g :: !Held(s, g))
    && (s.startup.Some? ==> s.startup.value.token in s.calls)
    && (s.startup.Some? && s.startup.value.token !in s.launched ==> s.marker.None? && s.startup.value.unresolved.None? && forall g :: !Held(s, g))
    && (s.startup.Some? && s.startup.value.unresolved.Some? ==>
          s.startup.value.token in s.launched && s.startup.value.unresolved.value.group == s.launched[s.startup.value.token])
    && (s.startup.Some? && s.marker.Some? ==>
          s.startup.value.token in s.launched && s.marker.value == s.launched[s.startup.value.token])
    && (s.startup.Some? && s.stateToken == Some(s.startup.value.token) ==> Published(s, s.startup.value.token))
  }

  /** If the launch of `t` is still held, the state file names it. */
  predicate Published(s: State, t: nat) {
    t in s.launched && Held(s, s.launched[t]) ==> s.launched[t] in s.recorded
  }

  ghost predicate Calls(s: State) {
    && s.launched.Keys <= s.calls.Keys
    && (s.stateToken.Some? ==> s.stateToken.value in s.launched)
    && (forall t :: t in s.launched ==> s.launched[t] in s.groups)
    && s.authorized <= s.groups.Keys
    && (forall g :: g in s.recorded ==> g in s.groups)
    && (forall t :: t in s.calls ==> CallHolds(s, t, s.calls[t]))
  }

  predicate CallHolds(s: State, t: nat, c: Call) {
    match c
    case Building => t !in s.launched && (s.startup.Some? && s.startup.value.token == t ==> !s.startup.value.handoff)
    case Waiting(g) => t in s.launched && s.launched[t] == g && Published(s, t)
    case Cleaning(g, terminated) => t in s.launched && s.launched[t] == g && Published(s, t) && (terminated ==> !Live(s, g))
    case Finishing(preserve) => preserve || Published(s, t)
    case Over => true
  }

  ghost predicate Inv(s: State) {
    AuthorityKept(s) && Exclusive(s) && Reservations(s) && Calls(s)
  }
}
