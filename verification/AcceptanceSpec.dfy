/** What the acceptance verifier derives from recorded odometry: which stage endpoints were visited in order, and when. */
module AcceptanceSpec {
  import opened SafetyTypes
  import opened MissionGeometry

  datatype Sample = Sample(at: real, wall: real, position: Point, yaw: real)

  /** A stage endpoint, already in the frame of the odometry. */
  datatype Goal = Goal(id: string, name: string, position: Point)

  datatype Metric = Metric(id: string, name: string, reached: bool, endpointError: Option<real>, elapsed: Option<real>)

  datatype Bounds = Bounds(started: real, terminal: real, startedWall: real, terminalWall: real)

  datatype DeriveError = WrongStageCount | BoundsInvalid | SamplesNotMonotonic | NoSamplesAfterStart

  const STAGE_COUNT: nat := 3

  predicate ValidBounds(b: Bounds) {
    0.0 < b.started < b.terminal && 0.0 <= b.startedWall < b.terminalWall
  }

  /** What the code checks, neighbour by neighbour. */
  predicate Monotonic(samples: seq<Sample>) {
    && samples != []
    && (forall s :: s in samples ==> 0.0 < s.at && 0.0 <= s.wall)
    && (forall k :: 0 < k < |samples| ==> samples[k - 1].at < samples[k].at && samples[k - 1].wall <= samples[k].wall)
  }

  /** What follows for any two samples. */
  ghost predicate Increasing(samples: seq<Sample>) {
    forall i, j :: 0 <= i < j < |samples| ==> samples[i].at < samples[j].at
  }

  function Since(samples: seq<Sample>, t: real): seq<Sample>
    decreases |samples|
  {
    if samples == [] then []
    else
      var before, last := Since(samples[..|samples| - 1], t), samples[|samples| - 1];
      if last.at >= t then before + [last] else before
  }

  function Until(samples: seq<Sample>, t: real): seq<Sample>
    decreases |samples|
  {
    if samples == [] then []
    else
      var before, last := Until(samples[..|samples| - 1], t), samples[|samples| - 1];
      if last.at <= t then before + [last] else before
  }

  /** The samples the stages are matched against. */
  function Considered(samples: seq<Sample>, b: Bounds): seq<Sample> {
    Until(Since(samples, b.started), b.terminal)
  }

  predicate Hits(g: Trig, s: Sample, goal: Goal, tolerance: real) {
    Distance(g, goal.position, s.position) <= tolerance
  }

  /** The first sample at or after `from` that hits the goal. */
  function FirstHit(g: Trig, c: seq<Sample>, goal: Goal, tolerance: real, from: nat): (r: Option<nat>)
    ensures r.Some? ==> from <= r.value < |c| && Hits(g, c[r.value], goal, tolerance)
    ensures forall k :: from <= k < (if r.Some? then r.value else |c|) ==> !Hits(g, c[k], goal, tolerance)
    decreases |c| - from
  {
    if from >= |c| then None else if Hits(g, c[from], goal, tolerance) then Some(from) else FirstHit(g, c, goal, tolerance, from + 1)
  }

  /** Where the search for goal `k` begins: after the last hit found for an earlier goal. */
  function CursorAt(hits: seq<Option<nat>>, k: nat): nat
    requires k <= |hits|
  {
    if k == 0 then 0 else if hits[k - 1].Some? then hits[k - 1].value + 1 else CursorAt(hits, k - 1)
  }

  /** For each goal in turn, the first hit after the last hit found; a goal without one is skipped. */
  function Greedy(g: Trig, c: seq<Sample>, goals: seq<Goal>, tolerance: real): (r: seq<Option<nat>>)
    ensures |r| == |goals|
    decreases |goals|
  {
    if goals == [] then []
    else
      var before := Greedy(g, c, goals[..|goals| - 1], tolerance);
      before + [FirstHit(g, c, goals[|goals| - 1], tolerance, CursorAt(before, |before|))]
  }

  /** A choice of samples, in strictly increasing order, that hits the goals one by one. */
  ghost predicate Visits(g: Trig, c: seq<Sample>, goals: seq<Goal>, tolerance: real, pick: seq<nat>) {
    && |pick| == |goals|
    && (forall k :: 0 <= k < |pick| ==> pick[k] < |c| && Hits(g, c[pick[k]], goals[k], tolerance))
    && (forall i, j :: 0 <= i < j < |pick| ==> pick[i] < pick[j])
  }

  predicate AllFound(r: seq<Option<nat>>) {
    forall k :: 0 <= k < |r| ==> r[k].Some?
  }

  /** The metric of a goal that was matched with sample `hit`, or with none of those from `from` on. */
  ghost predicate Measures(g: Trig, c: seq<Sample>, goal: Goal, started: real, from: nat, hit: Option<nat>, m: Metric) {
    && m.id == goal.id && m.name == goal.name && m.reached == hit.Some?
    && (hit.Some? ==>
          && hit.value < |c|
          && m.endpointError == Some(Distance(g, goal.position, c[hit.value].position))
          && m.elapsed == Some(c[hit.value].at - started))
    && (hit.None? ==> m.elapsed == None && (m.endpointError.Some? <==> from < |c|))
    && (hit.None? && m.endpointError.Some? ==>
          && (forall k :: from <= k < |c| ==> m.endpointError.value <= Distance(g, goal.position, c[k].position))
          && (exists k :: from <= k < |c| && m.endpointError.value == Distance(g, goal.position, c[k].position)))
  }

  /** Metric `k` of the greedy match `hits`. */
  ghost predicate MeasuresNth(g: Trig, c: seq<Sample>, goals: seq<Goal>, started: real, hits: seq<Option<nat>>, k: nat, m: Metric)
    requires k < |goals| == |hits|
  {
    Measures(g, c, goals[k], started, CursorAt(hits, k), hits[k], m)
  }

  ghost predicate Derived(g: Trig, samples: seq<Sample>, goals: seq<Goal>, b: Bounds, tolerance: real, metrics: seq<Metric>) {
    var c := Considered(samples, b);
    var hits := Greedy(g, c, goals, tolerance);
    && |metrics| == |goals|
    && forall k :: 0 <= k < |goals| ==> MeasuresNth(g, c, goals, b.started, hits, k, metrics[k])
  }

  // ----- the report's stage checks -----

  datatype StageFault = NotReached(id: string) | ErrorTooLarge(id: string) | NotPositive(id: string) | OrderInvalid | BudgetExceeded

  const ENDPOINT_LIMIT: real := 0.50

  const STAGE_BUDGET: real := 60.0

  function ReportedTimes(ms: seq<Metric>): seq<real>
    decreases |ms|
  {
    if ms == [] then []
    else
      var before, last := ReportedTimes(ms[..|ms| - 1]), ms[|ms| - 1];
      if last.elapsed.Some? && last.elapsed.value > 0.0 then before + [last.elapsed.value] else before
  }

  function FaultsOf(m: Metric): seq<StageFault> {
    (if m.reached then [] else [NotReached(m.id)])
    + (if m.endpointError.Some? && 0.0 <= m.endpointError.value <= ENDPOINT_LIMIT then [] else [ErrorTooLarge(m.id)])
    + (if m.elapsed.Some? && m.elapsed.value > 0.0 then [] else [NotPositive(m.id)])
  }

  function StageFaults(ms: seq<Metric>): seq<StageFault>
    decreases |ms|
  {
    if ms == [] then [] else StageFaults(ms[..|ms| - 1]) + FaultsOf(ms[|ms| - 1])
  }

  predicate StrictlyIncreasing(xs: seq<real>) {
    forall k :: 0 < k < |xs| ==> xs[k - 1] < xs[k]
  }

  /** The time each stage took. */
  function Duration(xs: seq<real>, k: nat): real
    requires k < |xs|
  {
    if k == 0 then xs[0] else xs[k] - xs[k - 1]
  }

  function ReportFaults(ms: seq<Metric>, elapsed: real): seq<StageFault> {
    var times := ReportedTimes(ms);
    StageFaults(ms)
    + (if |times| == STAGE_COUNT && !(StrictlyIncreasing(times) && times[STAGE_COUNT - 1] <= elapsed) then [OrderInvalid] else [])
    + (if |times| == STAGE_COUNT && exists k :: 0 <= k < STAGE_COUNT && !(0.0 < Duration(times, k) <= STAGE_BUDGET)
       then [BudgetExceeded] else [])
  }
}
