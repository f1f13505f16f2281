/** Deriving the stage metrics from the odometry, with the cursor and the loops of the verifier. */
module Acceptance {
  import opened SafetyTypes
  import opened MissionGeometry
  import opened AcceptanceSpec
  import P = AcceptanceProofs

  function OdomGoals(g: Trig, start: Pose, stages: seq<Goal>): (r: seq<Goal>)
    ensures |r| == |stages|
  {
    seq(|stages|, k requires 0 <= k < |stages| => stages[k].(position := InFrame(g, start, stages[k].position)))
  }

  method IsMonotonic(samples: seq<Sample>) returns (ok: bool)
    ensures ok == Monotonic(samples)
  {
    if samples == [] { return false; }
    for k := 0 to |samples|
      invariant forall j :: 0 <= j < k ==> 0.0 < samples[j].at && 0.0 <= samples[j].wall
      invariant forall j :: 0 < j < k ==> samples[j - 1].at < samples[j].at && samples[j - 1].wall <= samples[j].wall
    {
      if samples[k].at <= 0.0 || samples[k].wall < 0.0 {
        assert samples[k] in samples;
        return false;
      }
      if k > 0 && (samples[k].at <= samples[k - 1].at || samples[k].wall < samples[k - 1].wall) { return false; }
    }
    return true;
  }

  method SelectSince(samples: seq<Sample>, t: real) returns (r: seq<Sample>)
    ensures r == Since(samples, t)
  {
    r := [];
    for k := 0 to |samples|
      invariant r == Since(samples[..k], t)
    {
      assert samples[..k + 1][..k] == samples[..k];
      if samples[k].at >= t { r := r + [samples[k]]; }
    }
    assert samples[..|samples|] == samples;
  }

  /** The samples up to `t`, each with its index among all of them. */
  method SelectUntil(samples: seq<Sample>, t: real) returns (r: seq<(nat, Sample)>)
    ensures |r| == |Until(samples, t)|
    ensures forall k :: 0 <= k < |r| ==> r[k].1 == Until(samples, t)[k] && r[k].0 < |samples| && samples[r[k].0] == r[k].1
    ensures forall i, j :: 0 <= i < j < |r| ==> r[i].0 < r[j].0
  {
    r := [];
    for k := 0 to |samples|
      invariant |r| == |Until(samples[..k], t)|
      invariant forall j :: 0 <= j < |r| ==> r[j].1 == Until(samples[..k], t)[j] && r[j].0 < k && samples[r[j].0] == r[j].1
      invariant forall i, j :: 0 <= i < j < |r| ==> r[i].0 < r[j].0
    {
      assert samples[..k + 1][..k] == samples[..k];
      if samples[k].at <= t { r := r + [(k, samples[k])]; }
    }
    assert samples[..|samples|] == samples;
  }

  /** With increasing times the recorded index is the position itself, so it can serve as a cursor. */
  lemma IndexIsPosition(samples: seq<Sample>, t: real, r: seq<(nat, Sample)>, k: nat)
    requires Increasing(samples) && |r| == |Until(samples, t)| && k < |r|
    requires r[k].1 == Until(samples, t)[k] && r[k].0 < |samples| && samples[r[k].0] == r[k].1
    ensures r[k].0 == k && r[k].1 == samples[k]
  {
    P.UntilIsPrefix(samples, t);
    assert samples[k] == r[k].1;
    assert forall i :: 0 <= i < |samples| && i != k ==> samples[i].at != samples[k].at;
  }

  method FirstWithin(distances: seq<real>, tolerance: real) returns (r: Option<nat>)
    ensures r.Some? ==> r.value < |distances| && distances[r.value] <= tolerance
    ensures forall k :: 0 <= k < (if r.Some? then r.value else |distances|) ==> distances[k] > tolerance
  {
    for k := 0 to |distances|
      invariant forall j :: 0 <= j < k ==> distances[j] > tolerance
    {
      if distances[k] <= tolerance { return Some(k); }
    }
    return None;
  }

  method Minimum(xs: seq<real>) returns (r: Option<real>)
    ensures r.Some? <==> xs != []
    ensures r.Some? ==> r.value in xs && forall x :: x in xs ==> r.value <= x
  {
    if xs == [] { return None; }
    var best := xs[0];
    for k := 1 to |xs|
      invariant best in xs && forall j :: 0 <= j < k ==> best <= xs[j]
    {
      if xs[k] < best { best := xs[k]; }
    }
    return Some(best);
  }

  /** One turn of the stage loop: the metric of `goal` searched from `cursor`, and the cursor for the next stage. */
  method Match(g: Trig, ghost c: seq<Sample>, limit: seq<(nat, Sample)>, goal: Goal, started: real, tolerance: real, cursor: nat)
    returns (m: Metric, next: nat)
    requires cursor <= |c| == |limit|
    requires forall k :: 0 <= k < |c| ==> limit[k] == (k, c[k])
    ensures next <= |c|
    ensures var hit := FirstHit(g, c, goal, tolerance, cursor);
      Measures(g, c, goal, started, cursor, hit, m) && next == if hit.Some? then hit.value + 1 else cursor
  {
    var candidates := limit[cursor..];
    var distances := [];
    for k := 0 to |candidates|
      invariant |distances| == k
      invariant forall j :: 0 <= j < k ==> distances[j] == Distance(g, goal.position, c[cursor + j].position)
    {
      var p := candidates[k].1.position;
      distances := distances + [g.hypot(p.x - goal.position.x, p.y - goal.position.y)];
    }
    hide Distance;
    var offset := FirstWithin(distances, tolerance);
    FirstHitIsUnique(g, c, goal, tolerance, cursor, distances, offset);
    if offset.Some? {
      var entered := candidates[offset.value];
      m := Metric(goal.id, goal.name, true, Some(distances[offset.value]), Some(entered.1.at - started));
      next := entered.0 + 1;
    } else {
      var least := Minimum(distances);
      m := Metric(goal.id, goal.name, false, least, None);
      next := cursor;
      if least.Some? {
        var j :| 0 <= j < |distances| && distances[j] == least.value;
        assert cursor <= cursor + j < |c| && least.value == Distance(g, goal.position, c[cursor + j].position);
        forall k | cursor <= k < |c| ensures least.value <= Distance(g, goal.position, c[k].position) {
          assert distances[k - cursor] in distances;
        }
      }
    }
  }

  lemma FirstHitIsUnique(g: Trig, c: seq<Sample>, goal: Goal, tolerance: real, from: nat, distances: seq<real>, offset: Option<nat>)
    requires from <= |c| && |distances| == |c| - from
    requires forall j :: 0 <= j < |distances| ==> distances[j] == Distance(g, goal.position, c[from + j].position)
    requires offset.Some? ==> offset.value < |distances| && distances[offset.value] <= tolerance
    requires forall k :: 0 <= k < (if offset.Some? then offset.value else |distances|) ==> distances[k] > tolerance
    ensures FirstHit(g, c, goal, tolerance, from) == if offset.Some? then Some(from + offset.value) else None
  {
    hide Distance;
    var hit := FirstHit(g, c, goal, tolerance, from);
    if hit.Some? {
      assert Hits(g, c[from + (hit.value - from)], goal, tolerance);
      assert distances[hit.value - from] <= tolerance;
    }
    if offset.Some? {
      assert Hits(g, c[from + offset.value], goal, tolerance);
    }
  }

  method DeriveMetrics(g: Trig, start: Pose, stages: seq<Goal>, samples: seq<Sample>, b: Bounds, tolerance: real)
    returns (r: Result<seq<Metric>, DeriveError>)
    ensures
      if |stages| != STAGE_COUNT then r == Err(WrongStageCount)
      else if !(0.0 < b.started < b.terminal && 0.0 <= b.startedWall < b.terminalWall) then r == Err(BoundsInvalid)
      else if !Monotonic(samples) then r == Err(SamplesNotMonotonic)
      else if Since(samples, b.started) == [] then r == Err(NoSamplesAfterStart)
      else r.Ok? && Derived(g, samples, OdomGoals(g, start, stages), b, tolerance, r.value)
  {
    if |stages| != STAGE_COUNT { return Err(WrongStageCount); }
    if !ValidBounds(b) { return Err(BoundsInvalid); }
    var monotonic := IsMonotonic(samples);
    if !monotonic { return Err(SamplesNotMonotonic); }
    var ordered := SelectSince(samples, b.started);
    if ordered == [] { return Err(NoSamplesAfterStart); }
    var limit := SelectUntil(ordered, b.terminal);
    ghost var goals := OdomGoals(g, start, stages);
    ghost var c := Considered(samples, b);
    P.MonotonicIsIncreasing(samples);
    P.SinceIsIncreasing(samples, b.started);
    P.UntilIsPrefix(ordered, b.terminal);
    forall k | 0 <= k < |limit| ensures limit[k] == (k, c[k]) {
      IndexIsPosition(ordered, b.terminal, limit, k);
    }
    var metrics := MatchAll(g, start, stages, c, limit, b.started, tolerance);
    return Ok(metrics);
  }

  /** One turn of the stage loop, in terms of the whole match. */
  method MatchNth(g: Trig, start: Pose, stages: seq<Goal>, ghost c: seq<Sample>, limit: seq<(nat, Sample)>, started: real, tolerance: real,
      cursor: nat, k: nat)
    returns (m: Metric, next: nat)
    requires |c| == |limit| && forall k :: 0 <= k < |c| ==> limit[k] == (k, c[k])
    requires k < |stages| && cursor <= |c| && cursor == CursorAt(Greedy(g, c, OdomGoals(g, start, stages), tolerance), k)
    ensures var goals := OdomGoals(g, start, stages);
      var hits := Greedy(g, c, goals, tolerance);
      next == CursorAt(hits, k + 1) && next <= |c| && MeasuresNth(g, c, goals, started, hits, k, m)
  {
    ghost var goals := OdomGoals(g, start, stages);
    hide Measures, InFrame, FirstHit, Greedy, Hits, Distance, CursorAt;
    P.GreedyIsFirstHit(g, c, goals, tolerance, k);
    P.CursorStep(Greedy(g, c, goals, tolerance), k);
    var goal := stages[k].(position := InFrame(g, start, stages[k].position));
    m, next := Match(g, c, limit, goal, started, tolerance, cursor);
  }

  /** The stage loop. */
  method MatchAll(g: Trig, start: Pose, stages: seq<Goal>, ghost c: seq<Sample>, limit: seq<(nat, Sample)>, started: real, tolerance: real)
    returns (metrics: seq<Metric>)
    requires |c| == |limit| && forall k :: 0 <= k < |c| ==> limit[k] == (k, c[k])
    ensures var goals := OdomGoals(g, start, stages);
      var hits := Greedy(g, c, goals, tolerance);
      && |metrics| == |goals|
      && forall k :: 0 <= k < |goals| ==> MeasuresNth(g, c, goals, started, hits, k, metrics[k])
  {
    ghost var goals := OdomGoals(g, start, stages);
    ghost var hits := Greedy(g, c, goals, tolerance);
    P.CursorOfNone(hits);
    hide MeasuresNth, Greedy, CursorAt, OdomGoals;
    metrics := [];
    var cursor := 0;
    for k := 0 to |stages|
      invariant |metrics| == k && cursor == CursorAt(hits, k) <= |c|
      invariant forall j :: 0 <= j < k ==> MeasuresNth(g, c, goals, started, hits, j, metrics[j])
    {
      var m, next := MatchNth(g, start, stages, c, limit, started, tolerance, cursor, k);
      metrics := metrics + [m];
      cursor := next;
    }
  }
}
