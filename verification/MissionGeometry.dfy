/** Plane geometry of the mission controller. The transcendental functions are parameters, known only by the laws
    below; everything else is exact arithmetic over the reals. */
module MissionGeometry {
  datatype Point = Point(x: real, y: real)

  datatype Pose = Pose(x: real, y: real, yaw: real)

  datatype Trig = Trig(
    hypot: (real, real) -> real,
    cos: real -> real,
    sin: real -> real,
    atan2: (real, real) -> real,
    pi: real)

  ghost predicate Lawful(g: Trig) {
    && g.pi > 0.0
    && (forall x, y :: g.hypot(x, y) >= 0.0 && Square(g.hypot(x, y)) == Square(x) + Square(y))
    && (forall a :: Square(g.cos(a)) + Square(g.sin(a)) == 1.0)
    && (forall y, x :: -g.pi <= g.atan2(y, x) <= g.pi)
    && (forall y, x :: IsPolar(g, y, x))
    && (forall a, b :: Subtracts(g, a, b))
  }

  /** `atan2` gives the polar angle: its side is the sign of `y`, and it is within a quarter turn when `x` is not negative. */
  predicate IsPolar(g: Trig, y: real, x: real) {
    var a := g.atan2(y, x);
    && Times(g.hypot(x, y), g.cos(a)) == x && Times(g.hypot(x, y), g.sin(a)) == y
    && (y > 0.0 ==> 0.0 < a) && (y < 0.0 ==> a < 0.0)
    && (y == 0.0 ==> a == if x < 0.0 then g.pi else 0.0)
    && (Abs(a) <= g.pi / 2.0 <==> x >= 0.0)
  }

  /** The sine and the cosine of a difference. */
  predicate Subtracts(g: Trig, a: real, b: real) {
    && g.cos(a - b) == Times(g.cos(b), g.cos(a)) + Times(g.sin(b), g.sin(a))
    && g.sin(a - b) == Times(g.cos(b), g.sin(a)) - Times(g.sin(b), g.cos(a))
  }

  /** Products are named so that a proof can treat them as atoms. */
  function Times(a: real, b: real): real { a * b }

  function Square(x: real): real { x * x }

  function Abs(x: real): real { if x < 0.0 then -x else x }

  function Min(x: real, y: real): real { if y < x then y else x }

  function Max(x: real, y: real): real { if y > x then y else x }

  function Clamp(x: real, bound: real): real { Max(-bound, Min(bound, x)) }

  function Distance(g: Trig, a: Point, b: Point): real {
    g.hypot(b.x - a.x, b.y - a.y)
  }

  // ----- reals -----

  lemma ProductPositive(a: real, b: real)
    requires a > 0.0 && b > 0.0
    ensures a * b > 0.0
  {
  }

  lemma SquareOrder(a: real, b: real)
    requires a >= 0.0 && b >= 0.0 && Square(a) <= Square(b)
    ensures a <= b
  {
    assert Square(a) - Square(b) == Times(a - b, a + b);
    hide Square, Times;
    if a > b { PositiveTimes(a - b, a + b); }
  }

  lemma PositiveTimes(a: real, b: real)
    requires a > 0.0 && b > 0.0
    ensures Times(a, b) > 0.0
  {
  }

  lemma NegativeTimes(a: real, b: real)
    requires a < 0.0 && b < 0.0
    ensures Times(a, b) > 0.0
  {
  }

  lemma SquareSign(a: real)
    ensures Square(a) >= 0.0 && (a != 0.0 ==> Square(a) > 0.0) && (a == 0.0 ==> Square(a) == 0.0)
  {
    assert Square(a) == Times(a, a);
    assert a == 0.0 ==> Square(a) == 0.0;
    hide Square, Times;
    if a > 0.0 { PositiveTimes(a, a); }
    if a < 0.0 { NegativeTimes(a, a); }
  }

  lemma QuotientBounds(a: real, b: real, q: real)
    requires b > 0.0
    ensures a / b * b == a
    ensures q <= a / b ==> q * b <= a
    ensures q < a / b ==> q * b < a
    ensures q >= a / b ==> q * b >= a
    ensures q > a / b ==> q * b > a
  {
    var x := a / b;
    assert x * b == a;
    assert (x - q) * b == a - q * b;
    assert (q - x) * b == q * b - a;
    if q < x { ProductPositive(x - q, b); }
    if q > x { ProductPositive(q - x, b); }
  }

  /** A vector has length zero only if it is the zero vector. */
  lemma ZeroLength(g: Trig, x: real, y: real)
    requires Lawful(g)
    ensures g.hypot(x, y) == 0.0 ==> x == 0.0 && y == 0.0
  {
    hide Square;
    SquareSign(g.hypot(x, y));
    SquareSign(x);
    SquareSign(y);
  }

  lemma DotAtMostProduct(ux: real, uy: real, vx: real, vy: real, p: real, q: real)
    requires p >= 0.0 && q >= 0.0 && p * p == ux * ux + uy * uy && q * q == vx * vx + vy * vy
    ensures ux * vx + uy * vy <= p * q
  {
    var dot, cross := ux * vx + uy * vy, ux * vy - uy * vx;
    SquareSign(cross);
    assert dot * dot + cross * cross == (ux * ux + uy * uy) * (vx * vx + vy * vy);
    assert (p * q) * (p * q) == (p * p) * (q * q);
    if dot > 0.0 {
      assert p * q >= 0.0;
      SquareOrder(dot, p * q);
    }
  }

  lemma Triangle(g: Trig, a: Point, b: Point, c: Point)
    requires Lawful(g)
    ensures Distance(g, a, c) <= Distance(g, a, b) + Distance(g, b, c)
  {
    var ux, uy, vx, vy := b.x - a.x, b.y - a.y, c.x - b.x, c.y - b.y;
    var p, q, r := Distance(g, a, b), Distance(g, b, c), Distance(g, a, c);
    DotAtMostProduct(ux, uy, vx, vy, p, q);
    assert c.x - a.x == ux + vx && c.y - a.y == uy + vy;
    assert r * r == (ux + vx) * (ux + vx) + (uy + vy) * (uy + vy);
    assert r * r == p * p + q * q + 2.0 * (ux * vx + uy * vy);
    assert (p + q) * (p + q) == p * p + q * q + 2.0 * (p * q);
    SquareOrder(r, p + q);
  }

  lemma DistanceIsSymmetric(g: Trig, a: Point, b: Point)
    requires Lawful(g)
    ensures Distance(g, a, b) == Distance(g, b, a)
  {
    var d, d' := Distance(g, a, b), Distance(g, b, a);
    assert Square(b.x - a.x) == Square(a.x - b.x) && Square(b.y - a.y) == Square(a.y - b.y);
    hide Square;
    SquareOrder(d, d');
    SquareOrder(d', d);
  }

  // ----- frames -----

  function Rotated(g: Trig, yaw: real, p: Point): Point {
    Point(g.cos(yaw) * p.x + g.sin(yaw) * p.y, -g.sin(yaw) * p.x + g.cos(yaw) * p.y)
  }

  /** A point of the world in the frame of `origin`. */
  function InFrame(g: Trig, origin: Pose, p: Point): Point {
    Rotated(g, origin.yaw, Point(p.x - origin.x, p.y - origin.y))
  }

  /** The point of the world at `q` in the frame of `origin`: `q.x` ahead of it and `q.y` to its left. */
  function InWorld(g: Trig, origin: Pose, q: Point): Point {
    Point(origin.x + Times(q.x, g.cos(origin.yaw)) - Times(q.y, g.sin(origin.yaw)),
          origin.y + Times(q.x, g.sin(origin.yaw)) + Times(q.y, g.cos(origin.yaw)))
  }

  /** What a frame reads off a point is how far ahead and how far to the left of its origin the point is. */
  lemma FrameReadsAheadAndLeft(g: Trig, origin: Pose, p: Point, q: Point)
    requires Lawful(g)
    ensures InFrame(g, origin, p) == q <==> p == InWorld(g, origin, q)
  {
    var c, s := g.cos(origin.yaw), g.sin(origin.yaw);
    assert c * c + s * s == 1.0;
    hide Lawful;
    RotatesBack(c, s, p.x - origin.x, p.y - origin.y);
    RotatesForth(c, s, q.x, q.y);
  }

  lemma RotatesBack(c: real, s: real, x: real, y: real)
    requires c * c + s * s == 1.0
    ensures Times(c * x + s * y, c) - Times(-s * x + c * y, s) == x
    ensures Times(c * x + s * y, s) + Times(-s * x + c * y, c) == y
  {
    assert (c * x + s * y) * c - (-s * x + c * y) * s == (c * c + s * s) * x;
    assert (c * x + s * y) * s + (-s * x + c * y) * c == (c * c + s * s) * y;
  }

  lemma RotatesForth(c: real, s: real, x: real, y: real)
    requires c * c + s * s == 1.0
    ensures c * (Times(x, c) - Times(y, s)) + s * (Times(x, s) + Times(y, c)) == x
    ensures -s * (Times(x, c) - Times(y, s)) + c * (Times(x, s) + Times(y, c)) == y
  {
    assert c * (x * c - y * s) + s * (x * s + y * c) == (c * c + s * s) * x;
    assert -s * (x * c - y * s) + c * (x * s + y * c) == (c * c + s * s) * y;
  }

  lemma RotationKeepsSquares(c: real, s: real, x: real, y: real)
    requires c * c + s * s == 1.0
    ensures (c * x + s * y) * (c * x + s * y) + (-s * x + c * y) * (-s * x + c * y) == x * x + y * y
  {
    var u, v := c * x + s * y, -s * x + c * y;
    assert u * u + v * v == (c * c + s * s) * (x * x) + (c * c + s * s) * (y * y);
  }

  /** Changing frame moves nothing: distances between points are the same in every frame, and its origin goes to zero. */
  lemma FrameKeepsDistances(g: Trig, origin: Pose, a: Point, b: Point)
    requires Lawful(g)
    ensures Distance(g, InFrame(g, origin, a), InFrame(g, origin, b)) == Distance(g, a, b)
    ensures InFrame(g, origin, Point(origin.x, origin.y)) == Point(0.0, 0.0)
  {
    var c, s := g.cos(origin.yaw), g.sin(origin.yaw);
    var x, y := b.x - a.x, b.y - a.y;
    var a', b' := InFrame(g, origin, a), InFrame(g, origin, b);
    assert b'.x - a'.x == c * x + s * y;
    assert b'.y - a'.y == -s * x + c * y;
    RotationKeepsSquares(c, s, x, y);
    var d, d' := Distance(g, a, b), Distance(g, a', b');
    assert d' * d' == d * d;
    SquareOrder(d, d');
    SquareOrder(d', d);
  }

  // ----- angles -----

  /** The remainder of a floored division. */
  function FlooredMod(a: real, b: real): real
    requires b > 0.0
  {
    a - (a / b).Floor as real * b
  }

  /** `math.isclose` with its default tolerances. */
  predicate IsClose(a: real, b: real) {
    Abs(a - b) <= 0.000000001 * Max(Abs(a), Abs(b))
  }

  function NormalizeAngle(g: Trig, angle: real): real
    requires g.pi > 0.0
  {
    var result := FlooredMod(angle + g.pi, 2.0 * g.pi) - g.pi;
    if IsClose(result, -g.pi) && angle > 0.0 then g.pi else result
  }

  lemma FlooredModRange(a: real, b: real)
    requires b > 0.0
    ensures 0.0 <= FlooredMod(a, b) < b
  {
    var q := (a / b).Floor as real;
    QuotientBounds(a, b, q);
    QuotientBounds(a, b, q + 1.0);
  }

  /** `angle` after `k` full turns. */
  function Turned(g: Trig, angle: real, k: int): real {
    angle + k as real * (2.0 * g.pi)
  }

  /** The result names the same direction to within the tolerance of `isclose`, and lies between -pi and pi. */
  lemma NormalizeAngleIsCongruent(g: Trig, angle: real)
    requires Lawful(g)
    ensures -g.pi <= NormalizeAngle(g, angle) <= g.pi
    ensures exists k: int :: Abs(NormalizeAngle(g, angle) - Turned(g, angle, k)) <= 0.000000001 * g.pi
  {
    var b := 2.0 * g.pi;
    FlooredModRange(angle + g.pi, b);
    var q := ((angle + g.pi) / b).Floor;
    var result := FlooredMod(angle + g.pi, b) - g.pi;
    TurnedBack(g, angle, q);
    if IsClose(result, -g.pi) && angle > 0.0 {
      assert Abs(NormalizeAngle(g, angle) - Turned(g, angle, 1 - q)) <= 0.000000001 * g.pi;
    } else {
      assert Abs(NormalizeAngle(g, angle) - Turned(g, angle, -q)) <= 0.000000001 * g.pi;
    }
  }

  lemma TurnedBack(g: Trig, angle: real, q: int)
    requires g.pi > 0.0 && q == ((angle + g.pi) / (2.0 * g.pi)).Floor
    ensures Turned(g, angle, -q) == FlooredMod(angle + g.pi, 2.0 * g.pi) - g.pi
    ensures Turned(g, angle, 1 - q) == Turned(g, angle, -q) + 2.0 * g.pi
  {
    var b, r := 2.0 * g.pi, q as real;
    assert (-q) as real == -r && (1 - q) as real == 1.0 - r;
    assert -r * b == -(r * b) && (1.0 - r) * b == b - r * b;
  }

  /** Both ends of the range are kept as they are, and so is everything between them. */
  lemma NormalizeAngleFixesTheRange(g: Trig, angle: real)
    requires Lawful(g) && -g.pi <= angle <= g.pi
    ensures NormalizeAngle(g, angle) == angle
  {
    var b := 2.0 * g.pi;
    var q := (angle + g.pi) / b;
    QuotientBounds(angle + g.pi, b, 0.0);
    QuotientBounds(angle + g.pi, b, 1.0);
    assert q.Floor == if angle == g.pi then 1 else 0;
    assert 1 as real * b == b && 0 as real * b == 0.0;
    if angle == g.pi {
      assert FlooredMod(angle + g.pi, b) == 0.0;
    } else {
      assert FlooredMod(angle + g.pi, b) == angle + g.pi;
    }
  }

  // ----- bearings -----

  /** `a` is a bearing of the point `q`, in the frame that `q` is given in. */
  predicate Bears(g: Trig, q: Point, a: real) {
    Times(g.hypot(q.x, q.y), g.cos(a)) == q.x && Times(g.hypot(q.x, q.y), g.sin(a)) == q.y
  }

  /** The direction from a pose to a point, less the heading of the pose, is a bearing of the point in its frame. */
  lemma HeadingIsBearing(g: Trig, pose: Pose, p: Point)
    requires Lawful(g)
    ensures var q := InFrame(g, pose, p);
      && g.hypot(q.x, q.y) == Distance(g, Point(pose.x, pose.y), p)
      && Bears(g, q, g.atan2(p.y - pose.y, p.x - pose.x) - pose.yaw)
  {
    var x, y := p.x - pose.x, p.y - pose.y;
    var d, a := g.hypot(x, y), g.atan2(y, x);
    var q, here := InFrame(g, pose, p), Point(pose.x, pose.y);
    FrameKeepsDistances(g, pose, here, p);
    assert IsPolar(g, y, x) && Subtracts(g, a, pose.yaw);
    var c, s := g.cos(pose.yaw), g.sin(pose.yaw);
    hide Lawful;
    assert q.x == Times(c, x) + Times(s, y) && q.y == Times(c, y) - Times(s, x);
    ScalesSum(d, c, g.cos(a), s, g.sin(a));
    ScalesSum(d, c, g.sin(a), -s, g.cos(a));
    assert Times(-s, g.cos(a)) == -Times(s, g.cos(a)) && Times(-s, x) == -Times(s, x);
  }

  lemma ScalesSum(d: real, c: real, u: real, s: real, v: real)
    ensures Times(d, Times(c, u) + Times(s, v)) == Times(c, Times(d, u)) + Times(s, Times(d, v))
  {
  }

  /** Turning by whole turns changes no bearing. */
  lemma HalfTurnNegates(g: Trig, a: real)
    requires Lawful(g)
    ensures g.cos(a - g.pi) == -g.cos(a) && g.sin(a - g.pi) == -g.sin(a)
  {
    assert IsPolar(g, 0.0, -1.0) && Subtracts(g, a, g.pi);
    SquareOrder(g.hypot(-1.0, 0.0), 1.0);
    SquareOrder(1.0, g.hypot(-1.0, 0.0));
    assert Times(1.0, g.cos(g.pi)) == g.cos(g.pi) && Times(1.0, g.sin(g.pi)) == g.sin(g.pi);
    hide Lawful;
    assert Times(-1.0, g.cos(a)) == -g.cos(a) && Times(-1.0, g.sin(a)) == -g.sin(a);
    assert Times(0.0, g.cos(a)) == 0.0 && Times(0.0, g.sin(a)) == 0.0;
  }

  lemma {:induction false} TurnsKeepBearing(g: Trig, a: real, k: int)
    requires Lawful(g)
    ensures g.cos(Turned(g, a, k)) == g.cos(a) && g.sin(Turned(g, a, k)) == g.sin(a)
    decreases if k < 0 then -k else k
  {
    if k != 0 {
      var j := if k < 0 then k + 1 else k - 1;
      var less, more := Turned(g, a, if k < 0 then k else j), Turned(g, a, if k < 0 then j else k);
      assert more - 2.0 * g.pi == less by { TurnedNext(g, a, if k < 0 then k else j); }
      HalfTurnNegates(g, more);
      HalfTurnNegates(g, more - g.pi);
      assert more - g.pi - g.pi == less;
      TurnsKeepBearing(g, a, j);
    }
  }

  lemma TurnedNext(g: Trig, a: real, k: int)
    ensures Turned(g, a, k + 1) == Turned(g, a, k) + 2.0 * g.pi
    ensures Turned(g, a, 0) == a
  {
    var r, b := k as real, 2.0 * g.pi;
    assert (k + 1) as real == r + 1.0;
    assert (r + 1.0) * b == r * b + b;
    assert 0 as real * b == 0.0;
  }
}
