/** The greedy match is the best one, and a derived report is out of order only if it says so itself. */
module AcceptanceProofs {
  import opened SafetyTypes
  import opened MissionGeometry
  import opened AcceptanceSpec

  // ----- samples -----

  lemma {:induction false} NeighboursSuffice(samples: seq<Sample>, i: nat, j: nat)
    requires Monotonic(samples) && i < j < |samples|
    ensures samples[i].at < samples[j].at
    decreases j
  {
    if i == j - 1 {
    } else {
      NeighboursSuffice(samples, i, j - 1);
    }
    assert samples[j - 1].at < samples[j].at;
  }

  lemma MonotonicIsIncreasing(samples: seq<Sample>)
    requires Monotonic(samples)
    ensures Increasing(samples)
  {
    forall i, j | 0 <= i < j < |samples| ensures samples[i].at < samples[j].at {
      NeighboursSuffice(samples, i, j);
    }
  }

  lemma {:induction false} SinceSelects(samples: seq<Sample>, t: real)
    ensures forall s :: s in Since(samples, t) <==> s in samples && s.at >= t
    decreases |samples|
  {
    if samples == [] {
    } else {
      var init, last := samples[..|samples| - 1], samples[|samples| - 1];
      SinceSelects(init, t);
      assert samples == init + [last];
    }
  }

  lemma {:induction false} SinceIsIncreasing(samples: seq<Sample>, t: real)
    requires Increasing(samples)
    ensures Increasing(Since(samples, t))
    decreases |samples|
  {
    if samples == [] {
    } else {
      var init, last := samples[..|samples| - 1], samples[|samples| - 1];
      SinceIsIncreasing(init, t);
      SinceSelects(init, t);
      assert forall s :: s in init ==> s.at < last.at;
      IncreasingGrows(Since(init, t), last);
    }
  }

  lemma IncreasingGrows(samples: seq<Sample>, last: Sample)
    requires Increasing(samples) && forall s :: s in samples ==> s.at < last.at
    ensures Increasing(samples + [last])
  {
  }

  /** `r` is `samples` up to the time `t`. */
  ghost predicate CutsAt(samples: seq<Sample>, t: real, r: seq<Sample>) {
    && r <= samples
    && forall k :: 0 <= k < |samples| ==> (samples[k].at <= t <==> k < |r|)
  }

  lemma CutGrows(init: seq<Sample>, last: Sample, t: real, r: seq<Sample>)
    requires Increasing(init + [last]) && CutsAt(init, t, r)
    ensures Increasing(init) && CutsAt(init + [last], t, if last.at <= t then r + [last] else r)
  {
    var samples := init + [last];
    assert forall k :: 0 <= k < |init| ==> samples[k] == init[k];
    assert samples[|init|] == last;
    if last.at <= t {
      assert init != [] ==> init[|init| - 1].at <= t;
      assert r == init;
    }
  }

  /** Samples up to a time are a prefix, so a position among them is a position among all. */
  lemma {:induction false} UntilIsPrefix(samples: seq<Sample>, t: real)
    requires Increasing(samples)
    ensures CutsAt(samples, t, Until(samples, t))
    decreases |samples|
  {
    if samples == [] {
    } else {
      var init, last := samples[..|samples| - 1], samples[|samples| - 1];
      assert samples == init + [last];
      assert Until(samples, t) == if last.at <= t then Until(init, t) + [last] else Until(init, t);
      hide Until, CutsAt;
      assert Increasing(init);
      UntilIsPrefix(init, t);
      CutGrows(init, last, t, Until(init, t));
    }
  }

  lemma ConsideredIsPrefix(samples: seq<Sample>, b: Bounds)
    requires Monotonic(samples)
    ensures var c := Considered(samples, b);
      && c <= Since(samples, b.started) && Increasing(c)
      && (forall k :: 0 <= k < |c| ==> b.started <= c[k].at <= b.terminal)
  {
    MonotonicIsIncreasing(samples);
    SinceIsIncreasing(samples, b.started);
    SinceSelects(samples, b.started);
    UntilIsPrefix(Since(samples, b.started), b.terminal);
    var c := Considered(samples, b);
    forall k | 0 <= k < |c| ensures b.started <= c[k].at <= b.terminal {
      assert c[k] in Since(samples, b.started);
    }
  }

  // ----- matching -----

  lemma {:induction false} CursorOfPrefix(hits: seq<Option<nat>>, more: seq<Option<nat>>, k: nat)
    requires k <= |hits|
    ensures CursorAt(hits + more, k) == CursorAt(hits, k)
    decreases k
  {
    if k == 0 {
    } else {
      CursorOfPrefix(hits, more, k - 1);
    }
  }

  lemma {:induction false} GreedyOfPrefix(g: Trig, c: seq<Sample>, goals: seq<Goal>, tolerance: real, n: nat)
    requires n <= |goals|
    ensures Greedy(g, c, goals[..n], tolerance) == Greedy(g, c, goals, tolerance)[..n]
    decreases |goals|
  {
    if n < |goals| {
      var init := goals[..|goals| - 1];
      GreedyOfPrefix(g, c, init, tolerance, n);
      assert init[..n] == goals[..n];
    } else {
      assert goals[..n] == goals;
    }
  }

  lemma GreedySnoc(g: Trig, c: seq<Sample>, goals: seq<Goal>, tolerance: real)
    requires goals != []
    ensures var before := Greedy(g, c, goals[..|goals| - 1], tolerance);
      Greedy(g, c, goals, tolerance) == before + [FirstHit(g, c, goals[|goals| - 1], tolerance, CursorAt(before, |goals| - 1))]
  {
  }

  lemma CursorStep(hits: seq<Option<nat>>, k: nat)
    requires k < |hits|
    ensures CursorAt(hits, 0) == 0
    ensures CursorAt(hits, k + 1) == if hits[k].Some? then hits[k].value + 1 else CursorAt(hits, k)
  {
  }

  /** Each goal is searched from the cursor its predecessors left. */
  lemma {:induction false} GreedyIsFirstHit(g: Trig, c: seq<Sample>, goals: seq<Goal>, tolerance: real, k: nat)
    requires k < |goals|
    ensures var hits := Greedy(g, c, goals, tolerance); hits[k] == FirstHit(g, c, goals[k], tolerance, CursorAt(hits, k))
    decreases |goals|
  {
    hide Greedy, CursorAt, FirstHit;
    var init, last := goals[..|goals| - 1], goals[|goals| - 1];
    var before := Greedy(g, c, init, tolerance);
    GreedySnoc(g, c, goals, tolerance);
    CursorOfPrefix(before, [FirstHit(g, c, last, tolerance, CursorAt(before, |before|))], k);
    if k < |goals| - 1 {
      GreedyIsFirstHit(g, c, init, tolerance, k);
    }
  }

  predicate After(hits: seq<Option<nat>>, j: nat, n: nat)
    requires j < |hits|
  {
    hits[j].Some? ==> CursorAt(hits, j) <= hits[j].value < n
  }

  /** A cursor is past every hit found before it, and within the samples. */
  lemma {:induction false} CursorIsPast(hits: seq<Option<nat>>, k: nat, n: nat)
    requires k <= |hits| && forall j :: 0 <= j < k ==> After(hits, j, n)
    ensures CursorAt(hits, k) <= n
    ensures forall j :: 0 <= j < k && hits[j].Some? ==> hits[j].value < CursorAt(hits, k)
    decreases k
  {
    hide CursorAt;
    if k > 0 {
      CursorIsPast(hits, k - 1, n);
      CursorStep(hits, k - 1);
      assert After(hits, k - 1, n);
    } else if |hits| > 0 {
      CursorStep(hits, 0);
    } else {
      CursorOfNone(hits);
    }
  }

  lemma CursorOfNone(hits: seq<Option<nat>>)
    ensures CursorAt(hits, 0) == 0
  {
  }

  lemma GreedyPicksInOrder(g: Trig, c: seq<Sample>, goals: seq<Goal>, tolerance: real)
    ensures var r := Greedy(g, c, goals, tolerance);
      && (forall k :: 0 <= k < |r| && r[k].Some? ==> r[k].value < |c| && Hits(g, c[r[k].value], goals[k], tolerance))
      && (forall i, j :: 0 <= i < j < |r| && r[i].Some? && r[j].Some? ==> r[i].value < r[j].value)
      && (forall k :: 0 <= k <= |r| ==> CursorAt(r, k) <= |c|)
  {
    var r := Greedy(g, c, goals, tolerance);
    hide Hits, Greedy, CursorAt, FirstHit;
    forall k | 0 <= k < |r|
      ensures After(r, k, |c|) && (r[k].Some? ==> r[k].value < |c| && Hits(g, c[r[k].value], goals[k], tolerance))
    {
      GreedyIsFirstHit(g, c, goals, tolerance, k);
    }
    forall k | 0 <= k <= |r|
      ensures CursorAt(r, k) <= |c|
      ensures forall j :: 0 <= j < k && r[j].Some? ==> r[j].value < CursorAt(r, k)
    {
      CursorIsPast(r, k, |c|);
    }
    forall i, j | 0 <= i < j < |r| && r[i].Some? && r[j].Some? ensures r[i].value < r[j].value {
      assert After(r, j, |c|);
    }
  }

  lemma HitIsFound(g: Trig, c: seq<Sample>, goal: Goal, tolerance: real, from: nat, k: nat)
    requires from <= k < |c| && Hits(g, c[k], goal, tolerance)
    ensures var hit := FirstHit(g, c, goal, tolerance, from); hit.Some? && hit.value <= k
  {
    hide Hits;
    var hit := FirstHit(g, c, goal, tolerance, from);
  }

  /** A visit of some goals visits all but the last of them before it hits the last. */
  lemma VisitsBefore(g: Trig, c: seq<Sample>, goals: seq<Goal>, tolerance: real, pick: seq<nat>)
    requires Visits(g, c, goals, tolerance, pick) && goals != []
    ensures var n := |goals| - 1;
      && |pick| == |goals| && Visits(g, c, goals[..n], tolerance, pick[..n])
      && pick[n] < |c| && Hits(g, c[pick[n]], goals[n], tolerance)
      && (n > 0 ==> pick[n - 1] < pick[n])
  {
    hide Hits;
  }

  /** The matches found so far come no later than the picks. */
  predicate NoLater(hits: seq<Option<nat>>, pick: seq<nat>) {
    |hits| == |pick| && AllFound(hits) && forall k :: 0 <= k < |pick| ==> hits[k].value <= pick[k]
  }

  lemma NoLaterGrows(hits: seq<Option<nat>>, hit: Option<nat>, pick: seq<nat>)
    requires pick != [] && NoLater(hits, pick[..|pick| - 1]) && hit.Some? && hit.value <= pick[|pick| - 1]
    ensures NoLater(hits + [hit], pick)
  {
    var init := pick[..|pick| - 1];
    assert forall k :: 0 <= k < |init| ==> init[k] == pick[k];
  }

  lemma NoLaterCursor(hits: seq<Option<nat>>, pick: seq<nat>, last: nat)
    requires NoLater(hits, pick) && (pick != [] ==> pick[|pick| - 1] < last)
    ensures CursorAt(hits, |hits|) <= last
  {
    hide CursorAt;
    if hits == [] { CursorOfNone(hits); } else { CursorStep(hits, |hits| - 1); }
  }

  /** Whoever visits the goals in order visits each no earlier than the greedy match does. */
  lemma {:induction false} GreedyIsEarliest(g: Trig, c: seq<Sample>, goals: seq<Goal>, tolerance: real, pick: seq<nat>)
    requires Visits(g, c, goals, tolerance, pick)
    ensures NoLater(Greedy(g, c, goals, tolerance), pick)
    decreases |goals|
  {
    if goals == [] {
    } else {
      VisitsBefore(g, c, goals, tolerance, pick);
      hide FirstHit, Hits, Greedy, CursorAt, Visits, NoLater;
      var n := |goals| - 1;
      var before := Greedy(g, c, goals[..n], tolerance);
      GreedyIsEarliest(g, c, goals[..n], tolerance, pick[..n]);
      NoLaterCursor(before, pick[..n], pick[n]);
      HitIsFound(g, c, goals[n], tolerance, CursorAt(before, |before|), pick[n]);
      GreedySnoc(g, c, goals, tolerance);
      NoLaterGrows(before, FirstHit(g, c, goals[n], tolerance, CursorAt(before, |before|)), pick);
    }
  }

  function Values(r: seq<Option<nat>>): seq<nat>
    requires AllFound(r)
  {
    seq(|r|, k requires 0 <= k < |r| => r[k].value)
  }

  /** All goals are reported reached exactly when some strictly increasing choice of samples hits them in order. */
  lemma GreedyFindsAllIffVisited(g: Trig, c: seq<Sample>, goals: seq<Goal>, tolerance: real)
    ensures AllFound(Greedy(g, c, goals, tolerance)) <==> exists pick :: Visits(g, c, goals, tolerance, pick)
  {
    var r := Greedy(g, c, goals, tolerance);
    if AllFound(r) {
      GreedyPicksInOrder(g, c, goals, tolerance);
      assert Visits(g, c, goals, tolerance, Values(r));
    }
    if pick :| Visits(g, c, goals, tolerance, pick) {
      GreedyIsEarliest(g, c, goals, tolerance, pick);
    }
  }

  /** The same for the first `n` stages: the match is optimal on every prefix of the route. */
  lemma EveryPrefixIsOptimal(g: Trig, c: seq<Sample>, goals: seq<Goal>, tolerance: real, n: nat)
    requires n <= |goals|
    ensures AllFound(Greedy(g, c, goals, tolerance)[..n]) <==> exists pick :: Visits(g, c, goals[..n], tolerance, pick)
  {
    GreedyOfPrefix(g, c, goals, tolerance, n);
    GreedyFindsAllIffVisited(g, c, goals[..n], tolerance);
  }

  /** Not so beyond a prefix: a goal hit late can cost later goals that leaving it out would have reached. */
  lemma GreedyIsNotMaximal(g: Trig) returns (c: seq<Sample>, goals: seq<Goal>)
    requires Lawful(g)
    ensures |goals| == 3 && Increasing(c)
    ensures Visits(g, c, goals[1..], 0.0, [0, 1])
    ensures Greedy(g, c, goals, 0.0) == [Some(2), None, None]
  {
    var a, b, d := Point(0.0, 0.0), Point(1.0, 0.0), Point(2.0, 0.0);
    c := [Sample(1.0, 1.0, b, 0.0), Sample(2.0, 2.0, d, 0.0), Sample(3.0, 3.0, a, 0.0)];
    goals := [Goal("a", "a", a), Goal("b", "b", b), Goal("d", "d", d)];
    Apart(g, a, b);
    Apart(g, a, d);
    Apart(g, b, d);
    hide Distance;
    assert FirstHit(g, c, goals[0], 0.0, 2) == Some(2) && FirstHit(g, c, goals[0], 0.0, 1) == Some(2);
    assert FirstHit(g, c, goals[0], 0.0, 0) == Some(2);
    assert goals[..2][..1][..0] == [] && goals[..2][..1] == [goals[0]] && goals[..2] == [goals[0], goals[1]];
    GreedySnoc(g, c, goals[..2][..1], 0.0);
    assert Greedy(g, c, goals[..2][..1], 0.0) == [Some(2)];
    GreedySnoc(g, c, goals[..2], 0.0);
    assert Greedy(g, c, goals[..2], 0.0) == [Some(2), None];
    GreedySnoc(g, c, goals, 0.0);
  }

  lemma Apart(g: Trig, a: Point, b: Point)
    requires Lawful(g) && a.x != b.x
    ensures Distance(g, a, b) > 0.0 && Distance(g, b, a) > 0.0 && Distance(g, a, a) == 0.0 && Distance(g, b, b) == 0.0
  {
    ZeroLength(g, b.x - a.x, b.y - a.y);
    ZeroLength(g, a.x - b.x, a.y - b.y);
    SquareSign(g.hypot(0.0, 0.0));
    SquareSign(0.0);
    hide Square;
  }

  // ----- reported times -----

  /** Reported times lie within the mission and increase strictly from one reached stage to the next. */
  lemma ReportedTimesAreOrdered(g: Trig, samples: seq<Sample>, goals: seq<Goal>, b: Bounds, tolerance: real, ms: seq<Metric>)
    requires Monotonic(samples) && ValidBounds(b) && Derived(g, samples, goals, b, tolerance, ms)
    ensures forall k :: 0 <= k < |ms| && ms[k].reached ==> ms[k].elapsed.Some? && 0.0 <= ms[k].elapsed.value <= b.terminal - b.started
    ensures forall i, j :: 0 <= i < j < |ms| && ms[i].reached && ms[j].reached ==> ms[i].elapsed.value < ms[j].elapsed.value
  {
    var c := Considered(samples, b);
    ConsideredIsPrefix(samples, b);
    GreedyPicksInOrder(g, c, goals, tolerance);
    var hits := Greedy(g, c, goals, tolerance);
    assert forall k :: 0 <= k < |ms| ==> MeasuresNth(g, c, goals, b.started, hits, k, ms[k]);
    hide Considered, Greedy, CursorAt, Distance, Hits;
  }

  /** A stage is reported reached exactly when its reported error is within the tolerance. */
  lemma ReachedIffWithinTolerance(g: Trig, samples: seq<Sample>, goals: seq<Goal>, b: Bounds, tolerance: real, ms: seq<Metric>, k: nat)
    requires Derived(g, samples, goals, b, tolerance, ms) && k < |ms|
    ensures ms[k].reached <==> ms[k].endpointError.Some? && ms[k].endpointError.value <= tolerance
  {
    var c := Considered(samples, b);
    var hits := Greedy(g, c, goals, tolerance);
    assert MeasuresNth(g, c, goals, b.started, hits, k, ms[k]);
    GreedyPicksInOrder(g, c, goals, tolerance);
    GreedyIsFirstHit(g, c, goals, tolerance, k);
    hide Considered, Greedy, Distance, CursorAt;
  }

  // ----- the report -----

  /** The times the report checks are those of the reached stages whose sample is later than the start. */
  lemma {:induction false} AllPositive(ms: seq<Metric>)
    ensures |ReportedTimes(ms)| <= |ms|
    ensures |ReportedTimes(ms)| == |ms| ==>
      forall k :: 0 <= k < |ms| ==> ms[k].elapsed == Some(ReportedTimes(ms)[k]) && ReportedTimes(ms)[k] > 0.0
    ensures (forall k :: 0 <= k < |ms| ==> ms[k].elapsed.Some? && ms[k].elapsed.value > 0.0) ==> |ReportedTimes(ms)| == |ms|
    decreases |ms|
  {
    if ms == [] {
    } else {
      AllPositive(ms[..|ms| - 1]);
    }
  }

  predicate Clean(m: Metric) {
    && m.reached
    && m.endpointError.Some? && 0.0 <= m.endpointError.value <= ENDPOINT_LIMIT
    && m.elapsed.Some? && m.elapsed.value > 0.0
  }

  lemma NoFaultsOf(m: Metric)
    ensures FaultsOf(m) == [] <==> Clean(m)
    ensures OrderInvalid !in FaultsOf(m) && BudgetExceeded !in FaultsOf(m)
  {
  }

  lemma {:induction false} NoFaults(ms: seq<Metric>)
    ensures StageFaults(ms) == [] <==> forall k :: 0 <= k < |ms| ==> Clean(ms[k])
    ensures OrderInvalid !in StageFaults(ms) && BudgetExceeded !in StageFaults(ms)
    decreases |ms|
  {
    hide FaultsOf, Clean;
    if ms == [] {
    } else {
      var init, last := ms[..|ms| - 1], ms[|ms| - 1];
      NoFaults(init);
      NoFaultsOf(last);
      assert forall k :: 0 <= k < |ms| ==> ms[k] == if k < |init| then init[k] else last;
    }
  }

  /** What the stage checks of the report come to, for any report of three stages. */
  lemma ReportIsCleanIff(ms: seq<Metric>, elapsed: real)
    requires |ms| == STAGE_COUNT
    ensures ReportFaults(ms, elapsed) == [] <==>
      && Clean(ms[0]) && Clean(ms[1]) && Clean(ms[2])
      && ms[0].elapsed.value < ms[1].elapsed.value < ms[2].elapsed.value <= elapsed
      && ms[0].elapsed.value <= STAGE_BUDGET
      && ms[1].elapsed.value - ms[0].elapsed.value <= STAGE_BUDGET
      && ms[2].elapsed.value - ms[1].elapsed.value <= STAGE_BUDGET
    ensures OrderInvalid in ReportFaults(ms, elapsed) ==>
      && (forall k :: 0 <= k < STAGE_COUNT ==> ms[k].elapsed.Some?)
      && !(ms[0].elapsed.value < ms[1].elapsed.value < ms[2].elapsed.value <= elapsed)
  {
    var times := ReportedTimes(ms);
    AllPositive(ms);
    NoFaults(ms);
    hide ReportedTimes, StageFaults;
    if |times| == STAGE_COUNT {
      assert StrictlyIncreasing(times) <==> times[0] < times[1] < times[2];
      assert (exists k :: 0 <= k < STAGE_COUNT && !(0.0 < Duration(times, k) <= STAGE_BUDGET)) <==>
        !(0.0 < Duration(times, 0) <= STAGE_BUDGET && 0.0 < Duration(times, 1) <= STAGE_BUDGET && 0.0 < Duration(times, 2) <= STAGE_BUDGET);
    } else {
      assert !(Clean(ms[0]) && Clean(ms[1]) && Clean(ms[2]));
    }
  }

  /** What a derived report says of one stage. */
  lemma DerivedStage(g: Trig, samples: seq<Sample>, goals: seq<Goal>, b: Bounds, ms: seq<Metric>, k: nat)
    requires Lawful(g) && Monotonic(samples) && Derived(g, samples, goals, b, ENDPOINT_LIMIT, ms) && k < |ms|
    ensures var c, hits := Considered(samples, b), Greedy(g, Considered(samples, b), goals, ENDPOINT_LIMIT);
      && ms[k].elapsed.Some? == ms[k].reached == hits[k].Some?
      && (hits[k].Some? ==> hits[k].value < |c| && ms[k].elapsed.value == c[hits[k].value].at - b.started)
      && (Clean(ms[k]) <==> hits[k].Some? && c[hits[k].value].at > b.started)
  {
    var c := Considered(samples, b);
    var hits := Greedy(g, c, goals, ENDPOINT_LIMIT);
    ReachedIffWithinTolerance(g, samples, goals, b, ENDPOINT_LIMIT, ms, k);
    assert MeasuresNth(g, c, goals, b.started, hits, k, ms[k]);
    assert ms[k].endpointError.Some? ==> ms[k].endpointError.value >= 0.0;
  }

  /** A report derived from odometry is never faulted for the order of its stages. */
  lemma DerivedReportIsOrdered(g: Trig, samples: seq<Sample>, goals: seq<Goal>, b: Bounds, ms: seq<Metric>)
    requires Lawful(g) && Monotonic(samples) && ValidBounds(b) && |goals| == STAGE_COUNT
    requires Derived(g, samples, goals, b, ENDPOINT_LIMIT, ms)
    ensures OrderInvalid !in ReportFaults(ms, b.terminal - b.started)
  {
    ReportedTimesAreOrdered(g, samples, goals, b, ENDPOINT_LIMIT, ms);
    DerivedStage(g, samples, goals, b, ms, 0);
    DerivedStage(g, samples, goals, b, ms, 1);
    DerivedStage(g, samples, goals, b, ms, 2);
    ReportIsCleanIff(ms, b.terminal - b.started);
    hide Considered, Greedy, Derived, ReportFaults, Clean, Lawful, Monotonic, FirstHit, Distance;
  }

  /** And it is not faulted at all exactly when the earliest hits of the three endpoints in order (by `GreedyIsEarliest`)
      all exist, the first of them after the start, and none later than the budget after the one before. */
  lemma DerivedReportIsCleanIff(g: Trig, samples: seq<Sample>, goals: seq<Goal>, b: Bounds, ms: seq<Metric>)
    requires Lawful(g) && Monotonic(samples) && ValidBounds(b) && |goals| == STAGE_COUNT
    requires Derived(g, samples, goals, b, ENDPOINT_LIMIT, ms)
    ensures var c, hits := Considered(samples, b), Greedy(g, Considered(samples, b), goals, ENDPOINT_LIMIT);
      && (forall k :: 0 <= k < STAGE_COUNT && hits[k].Some? ==> hits[k].value < |c|)
      && (ReportFaults(ms, b.terminal - b.started) == [] <==>
            && hits[0].Some? && hits[1].Some? && hits[2].Some?
            && b.started < c[hits[0].value].at <= b.started + STAGE_BUDGET
            && c[hits[1].value].at <= c[hits[0].value].at + STAGE_BUDGET
            && c[hits[2].value].at <= c[hits[1].value].at + STAGE_BUDGET)
  {
    hide ReportFaults, Clean, Monotonic, FirstHit, Distance;
    ReportedTimesAreOrdered(g, samples, goals, b, ENDPOINT_LIMIT, ms);
    DerivedStage(g, samples, goals, b, ms, 0);
    DerivedStage(g, samples, goals, b, ms, 1);
    DerivedStage(g, samples, goals, b, ms, 2);
    ReportIsCleanIff(ms, b.terminal - b.started);
    hide Considered, Greedy, Derived, Lawful;
  }

  lemma {:induction false} SinceAll(samples: seq<Sample>, t: real)
    requires forall k :: 0 <= k < |samples| ==> samples[k].at >= t
    ensures Since(samples, t) == samples
    decreases |samples|
  {
    if samples == [] {
    } else {
      SinceAll(samples[..|samples| - 1], t);
      assert samples == samples[..|samples| - 1] + [samples[|samples| - 1]];
    }
  }

  lemma ConsidersAll(samples: seq<Sample>, b: Bounds)
    requires Monotonic(samples) && forall k :: 0 <= k < |samples| ==> b.started <= samples[k].at <= b.terminal
    ensures Considered(samples, b) == samples
  {
    MonotonicIsIncreasing(samples);
    SinceAll(samples, b.started);
    UntilIsPrefix(samples, b.terminal);
    assert samples[|samples| - 1].at <= b.terminal;
    assert Until(samples, b.terminal) == samples;
  }

  lemma SmallSquare(d: real)
    requires 0.0 <= d <= 0.5
    ensures d * d <= 0.25
  {
    assert d * d <= 0.5 * d;
  }

  /** Points far apart on a line are out of tolerance of each other. */
  lemma FarApart(g: Trig, a: Point, b: Point)
    requires Lawful(g) && a.y == b.y && (a.x - b.x >= 1.0 || b.x - a.x >= 1.0)
    ensures Distance(g, a, b) > ENDPOINT_LIMIT && Distance(g, a, a) <= ENDPOINT_LIMIT
  {
    Apart(g, a, b);
    var d := Distance(g, a, b);
    assert d * d >= 1.0;
    if d <= 0.5 { SmallSquare(d); }
  }

  /** A choice of samples, one for each endpoint, that keeps within the budget. */
  predicate InBudget(c: seq<Sample>, b: Bounds, pick: seq<nat>)
    requires |pick| == STAGE_COUNT && forall k :: 0 <= k < |pick| ==> pick[k] < |c|
  {
    && b.started < c[pick[0]].at <= b.started + STAGE_BUDGET
    && c[pick[1]].at <= c[pick[0]].at + STAGE_BUDGET
    && c[pick[2]].at <= c[pick[1]].at + STAGE_BUDGET
  }

  /** The first two samples hit the first goal, the third the second, the fourth the third, and nothing else hits. */
  ghost predicate Lingers(g: Trig, c: seq<Sample>, goals: seq<Goal>) {
    && |c| == 4 && |goals| == STAGE_COUNT
    && forall i, k :: 0 <= i < 4 && 0 <= k < STAGE_COUNT ==>
         (Hits(g, c[i], goals[k], ENDPOINT_LIMIT) <==> k == if i == 0 then 0 else i - 1)
  }

  lemma LingerersEarliestHits(g: Trig, c: seq<Sample>, goals: seq<Goal>)
    requires Lingers(g, c, goals)
    ensures Greedy(g, c, goals, ENDPOINT_LIMIT) == [Some(0), Some(2), Some(3)]
    ensures Visits(g, c, goals, ENDPOINT_LIMIT, [1, 2, 3])
  {
    hide Hits, Greedy, FirstHit, CursorAt;
    var hits := Greedy(g, c, goals, ENDPOINT_LIMIT);
    GreedyIsEarliest(g, c, goals, ENDPOINT_LIMIT, [0, 2, 3]);
    GreedyPicksInOrder(g, c, goals, ENDPOINT_LIMIT);
    assert NoLater(hits, [0, 2, 3]) && hits[0].Some? && hits[1].Some? && hits[2].Some?;
    assert hits[0].value <= [0, 2, 3][0] && hits[1].value <= [0, 2, 3][1] && hits[2].value <= [0, 2, 3][2];
    assert Hits(g, c[hits[1].value], goals[1], ENDPOINT_LIMIT) && Hits(g, c[hits[2].value], goals[2], ENDPOINT_LIMIT);
  }

  const FIRST: Point := Point(0.0, 0.0)
  const SECOND: Point := Point(1.0, 0.0)
  const THIRD: Point := Point(2.0, 0.0)

  const LINGERING: seq<Sample> :=
    [Sample(2.0, 2.0, FIRST, 0.0), Sample(61.0, 61.0, FIRST, 0.0), Sample(63.0, 63.0, SECOND, 0.0), Sample(64.0, 64.0, THIRD, 0.0)]

  const ROUTE: seq<Goal> := [Goal("1", "1", FIRST), Goal("2", "2", SECOND), Goal("3", "3", THIRD)]

  lemma LingeringIsConsidered()
    ensures Monotonic(LINGERING) && Considered(LINGERING, Bounds(1.0, 100.0, 1.0, 100.0)) == LINGERING
  {
    ConsidersAll(LINGERING, Bounds(1.0, 100.0, 1.0, 100.0));
    hide Considered;
  }

  lemma LingeringLingers(g: Trig)
    requires Lawful(g)
    ensures Lingers(g, LINGERING, ROUTE)
  {
    FarApart(g, FIRST, SECOND);
    FarApart(g, FIRST, THIRD);
    FarApart(g, SECOND, FIRST);
    FarApart(g, SECOND, THIRD);
    FarApart(g, THIRD, FIRST);
    FarApart(g, THIRD, SECOND);
    hide Distance;
  }

  /** The earliest hits are not the only ones: a robot that stays at the first endpoint for a while and is then quick meets
      the budget by its later samples, and the report faults it all the same. */
  lemma AnotherChoiceMayMeetTheBudget(g: Trig, ms: seq<Metric>)
    requires Lawful(g) && Derived(g, LINGERING, ROUTE, Bounds(1.0, 100.0, 1.0, 100.0), ENDPOINT_LIMIT, ms)
    ensures var b := Bounds(1.0, 100.0, 1.0, 100.0);
      && Monotonic(LINGERING) && ValidBounds(b) && Considered(LINGERING, b) == LINGERING
      && Visits(g, LINGERING, ROUTE, ENDPOINT_LIMIT, [1, 2, 3]) && InBudget(LINGERING, b, [1, 2, 3])
      && ReportFaults(ms, b.terminal - b.started) != []
  {
    hide Lingers, Considered, Greedy, Derived, Visits, Lawful, ReportFaults, Monotonic, FirstHit, Clean;
    var b := Bounds(1.0, 100.0, 1.0, 100.0);
    LingeringIsConsidered();
    LingeringLingers(g);
    LingerersEarliestHits(g, LINGERING, ROUTE);
    DerivedReportIsCleanIff(g, LINGERING, ROUTE, b, ms);
  }
}
