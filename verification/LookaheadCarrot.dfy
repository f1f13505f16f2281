/** The lookahead carrot: a point of the polyline from the pose through the remaining path. */
module LookaheadCarrot {
  import opened SafetyTypes
  import opened MissionGeometry

  datatype RouteError = LookaheadPathInvalid

  function Lerp(a: Point, b: Point, t: real): Point {
    Point(a.x + Times(t, b.x - a.x), a.y + Times(t, b.y - a.y))
  }

  function Segment(g: Trig, vs: seq<Point>, i: nat): real
    requires i + 1 < |vs|
  {
    Distance(g, vs[i], vs[i + 1])
  }

  /** Length along the polyline `vs` up to its vertex `i`. */
  function ArcTo(g: Trig, vs: seq<Point>, i: nat): real
    requires i < |vs|
  {
    if i == 0 then 0.0 else ArcTo(g, vs, i - 1) + Segment(g, vs, i - 1)
  }

  /** `p` lies on segment `i` of the polyline, at arc length `s` from its start. */
  predicate LiesAt(g: Trig, vs: seq<Point>, p: Point, s: real, i: nat, t: real)
    requires i + 1 < |vs|
  {
    0.0 <= t <= 1.0 && p == Lerp(vs[i], vs[i + 1], t) && s == ArcTo(g, vs, i) + Times(t, Segment(g, vs, i))
  }

  ghost predicate OnPolyline(g: Trig, vs: seq<Point>, p: Point, s: real) {
    exists i: nat, t: real :: i + 1 < |vs| && LiesAt(g, vs, p, s, i, t)
  }

  lemma {:induction false} ArcGrows(g: Trig, vs: seq<Point>, i: nat, j: nat)
    requires Lawful(g) && i <= j < |vs|
    ensures 0.0 <= ArcTo(g, vs, i) <= ArcTo(g, vs, j)
    ensures ArcTo(g, vs, i) == ArcTo(g, vs, j) ==> vs[i] == vs[j]
    decreases j
  {
    if i < j {
      ArcGrows(g, vs, i, j - 1);
      ZeroLength(g, vs[j].x - vs[j - 1].x, vs[j].y - vs[j - 1].y);
    } else if 0 < i {
      ArcGrows(g, vs, i - 1, i - 1);
    }
  }

  /** A point part of the way along a segment is between its ends, in arc length; at an end it is that end. */
  lemma LiesBetween(g: Trig, vs: seq<Point>, p: Point, s: real, i: nat, t: real)
    requires Lawful(g) && i + 1 < |vs| && LiesAt(g, vs, p, s, i, t)
    ensures ArcTo(g, vs, i) <= s <= ArcTo(g, vs, i + 1)
    ensures s == ArcTo(g, vs, i) ==> p == vs[i]
    ensures s == ArcTo(g, vs, i + 1) ==> p == vs[i + 1]
  {
    var a, b, d := vs[i], vs[i + 1], Segment(g, vs, i);
    ScaledWithin(t, d);
    ZeroLength(g, b.x - a.x, b.y - a.y);
    LerpAtEnds(a, b, t);
    hide Times, Lerp, Square;
  }

  lemma LerpAtEnds(a: Point, b: Point, t: real)
    ensures t == 0.0 ==> Lerp(a, b, t) == a
    ensures t == 1.0 || a == b ==> Lerp(a, b, t) == b
  {
  }

  lemma ScaledWithin(t: real, d: real)
    requires 0.0 <= t <= 1.0 && 0.0 <= d
    ensures 0.0 <= Times(t, d) <= d
    ensures Times(t, d) == 0.0 ==> t == 0.0 || d == 0.0
    ensures Times(t, d) == d ==> t == 1.0 || d == 0.0
  {
    assert Times(1.0 - t, d) == d - Times(t, d);
    assert t == 0.0 || d == 0.0 ==> Times(t, d) == 0.0;
    assert t == 1.0 ==> Times(t, d) == d;
    hide Times;
    if t > 0.0 && d > 0.0 { PositiveTimes(t, d); }
    if t < 1.0 && d > 0.0 { PositiveTimes(1.0 - t, d); }
  }

  lemma ScaleCancels(t: real, u: real, d: real)
    requires Times(t, d) == Times(u, d) && d > 0.0
    ensures t == u
  {
    assert Times(t - u, d) == 0.0 && Times(u - t, d) == 0.0;
    hide Times;
    if t > u { PositiveTimes(t - u, d); }
    if t < u { PositiveTimes(u - t, d); }
  }

  /** Arc length determines the point: two points of the polyline at the same arc length are the same point. */
  lemma ArcLengthIsACoordinate(g: Trig, vs: seq<Point>, p: Point, q: Point, s: real, i: nat, t: real, j: nat, u: real)
    requires Lawful(g) && i + 1 < |vs| && j + 1 < |vs| && LiesAt(g, vs, p, s, i, t) && LiesAt(g, vs, q, s, j, u)
    ensures p == q
  {
    hide Times, Lerp, Square;
    LiesBetween(g, vs, p, s, i, t);
    LiesBetween(g, vs, q, s, j, u);
    if i == j {
      if Segment(g, vs, i) > 0.0 { ScaleCancels(t, u, Segment(g, vs, i)); }
    } else if i < j {
      ArcGrows(g, vs, i + 1, j);
    } else {
      ArcGrows(g, vs, j + 1, i);
    }
  }

  /** Where the search for the carrot ends up: `from` is where it stands, with `remaining` still to go. */
  function Carrot(g: Trig, from: Point, path: seq<Point>, remaining: real): Point
    decreases |path|
  {
    if path == [] then from
    else
      var d := Distance(g, from, path[0]);
      if d >= remaining && d > 0.0 then Lerp(from, path[0], remaining / d)
      else Carrot(g, path[0], path[1..], remaining - d)
  }

  lemma CarrotOnSegment(g: Trig, vs: seq<Point>, i: nat, lookahead: real)
    requires Lawful(g) && i + 1 < |vs| && ArcTo(g, vs, i) <= lookahead <= ArcTo(g, vs, i + 1) && Segment(g, vs, i) > 0.0
    ensures OnPolyline(g, vs, Lerp(vs[i], vs[i + 1], (lookahead - ArcTo(g, vs, i)) / Segment(g, vs, i)),
              Min(lookahead, ArcTo(g, vs, |vs| - 1)))
  {
    hide Times, Square, Lerp;
    var remaining, d := lookahead - ArcTo(g, vs, i), Segment(g, vs, i);
    RatioWithin(remaining, d);
    assert LiesAt(g, vs, Lerp(vs[i], vs[i + 1], remaining / d), lookahead, i, remaining / d);
    ArcGrows(g, vs, i + 1, |vs| - 1);
  }

  /** The carrot is the point of the polyline at arc length `lookahead`, or its end if the polyline is shorter. */
  lemma {:induction false} CarrotIsAtLookahead(g: Trig, vs: seq<Point>, i: nat, lookahead: real)
    requires Lawful(g) && 1 < |vs| && i < |vs| && 0.0 < lookahead && ArcTo(g, vs, i) <= lookahead
    ensures OnPolyline(g, vs, Carrot(g, vs[i], vs[i + 1..], lookahead - ArcTo(g, vs, i)),
              Min(lookahead, ArcTo(g, vs, |vs| - 1)))
    decreases |vs| - i
  {
    hide Times, Square, Lerp;
    var done := ArcTo(g, vs, i);
    if i == |vs| - 1 {
      LerpAtEnds(vs[i - 1], vs[i], 1.0);
      UnitTimes(Segment(g, vs, i - 1));
      assert LiesAt(g, vs, vs[i], done, i - 1, 1.0);
    } else {
      var d, remaining := Segment(g, vs, i), lookahead - done;
      assert vs[i + 1..][0] == vs[i + 1] && vs[i + 1..][1..] == vs[i + 2..];
      assert ArcTo(g, vs, i + 1) == done + d;
      if d >= remaining && d > 0.0 {
        CarrotOnSegment(g, vs, i, lookahead);
      } else {
        CarrotIsAtLookahead(g, vs, i + 1, lookahead);
      }
    }
  }

  lemma UnitTimes(d: real)
    ensures Times(1.0, d) == d
  {
  }

  lemma RatioWithin(a: real, d: real)
    requires 0.0 <= a <= d && d > 0.0
    ensures 0.0 <= a / d <= 1.0 && Times(a / d, d) == a
  {
    QuotientBounds(a, d, 0.0);
    QuotientBounds(a, d, 1.0);
  }

  lemma CarrotFromPose(g: Trig, from: Point, path: seq<Point>, lookahead: real)
    requires Lawful(g) && path != [] && 0.0 < lookahead
    ensures var vs := [from] + path;
      OnPolyline(g, vs, Carrot(g, from, path, lookahead), Min(lookahead, ArcTo(g, vs, |vs| - 1)))
  {
    var vs := [from] + path;
    assert vs[0 + 1..] == path && ArcTo(g, vs, 0) == 0.0;
    CarrotIsAtLookahead(g, vs, 0, lookahead);
  }

  /** The search itself, as a loop over the path. */
  method Interpolate(g: Trig, pose: Pose, path: seq<Point>, lookahead: real) returns (r: Result<Point, RouteError>)
    requires Lawful(g)
    ensures r.Err? <==> path == [] || lookahead <= 0.0
    ensures r.Ok? ==> r.value == Carrot(g, Point(pose.x, pose.y), path, lookahead)
    ensures r.Ok? ==> var vs := [Point(pose.x, pose.y)] + path;
      OnPolyline(g, vs, r.value, Min(lookahead, ArcTo(g, vs, |vs| - 1)))
  {
    if path == [] || lookahead <= 0.0 {
      return Err(LookaheadPathInvalid);
    }
    var from := Point(pose.x, pose.y);
    var remaining := lookahead;
    CarrotFromPose(g, from, path, lookahead);
    hide Times, Square, OnPolyline, ArcTo, Lawful;
    for i := 0 to |path|
      invariant Carrot(g, from, path[i..], remaining) == Carrot(g, Point(pose.x, pose.y), path, lookahead)
    {
      var segment := g.hypot(path[i].x - from.x, path[i].y - from.y);
      assert path[i..][0] == path[i] && path[i..][1..] == path[i + 1..];
      if segment >= remaining && segment > 0.0 {
        var ratio := remaining / segment;
        return Ok(Point(from.x + Times(ratio, path[i].x - from.x), from.y + Times(ratio, path[i].y - from.y)));
      }
      remaining := remaining - segment;
      from := path[i];
    }
    return Ok(from);
  }
}
