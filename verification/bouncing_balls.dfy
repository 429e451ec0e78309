/**
 * The ball and snake mini-game drawn over the page
 * (components/ui/bouncing-balls.jsx).
 *
 * Balls drift and bounce inside the canvas; clicking a ball splits it into
 * three to five half-size fragments; a snake follows the mouse pointer,
 * eats the balls its head touches and grows by three segments per ball.
 *
 * `Math.sqrt` is a parameter `sqrt` pinned down by SqrtSpec; the distance
 * tests are stated on squared distances, which needs no square root. The
 * random values the source draws are parameters constrained to the ranges
 * the source draws them from.
 */
module BouncingBalls {

  // ---------------------------------------------------------------------
  // Geometry.
  // ---------------------------------------------------------------------

  datatype Point = Point(x: real, y: real)

  /** The squared distance between two points. */
  function Dist2(a: Point, b: Point): (d: real)
    ensures d >= 0.0
  {
    (a.x - b.x) * (a.x - b.x) + (a.y - b.y) * (a.y - b.y)
  }

  /** `sqrt` is the square root on the non-negative reals, as `Math.sqrt` is. */
  ghost predicate SqrtSpec(sqrt: real -> real) {
    forall v :: v >= 0.0 ==> sqrt(v) >= 0.0 && sqrt(v) * sqrt(v) == v
  }

  /** The distance `Math.sqrt(dx * dx + dy * dy)` between two points. */
  function Distance(a: Point, b: Point, sqrt: real -> real): real {
    sqrt(Dist2(a, b))
  }

  /** For a non-negative bound, comparing a root with it is comparing the square with its square. */
  lemma RootBelow(s: real, d: real, bound: real)
    requires s >= 0.0 && bound >= 0.0 && s * s == d
    ensures s <= bound <==> d <= bound * bound
  {
    assert d - bound * bound == (s - bound) * (s + bound);
    MulSigns(s - bound, s + bound);
  }

  /** The sign of a product from the signs of its factors. */
  lemma MulSigns(a: real, b: real)
    ensures a > 0.0 && b > 0.0 ==> a * b > 0.0
    ensures a <= 0.0 && b >= 0.0 ==> a * b <= 0.0
  {
  }

  /** `(a / d) * m` regrouped as `a * (m / d)`. */
  lemma DivMul(a: real, d: real, m: real)
    requires d != 0.0
    ensures a / d * m == a * (m / d)
  {
    var q, r := a / d, m / d;
    assert q * d == a && r * d == m;
    assert (q * m) * d == (a * r) * d;
  }

  /** A vector scaled by f has its squared length scaled by f * f. */
  lemma ScaledDist2(dx: real, dy: real, f: real)
    ensures (dx * f) * (dx * f) + (dy * f) * (dy * f) == (dx * dx + dy * dy) * (f * f)
  {
  }

  function Min(a: real, b: real): real {
    if a < b then a else b
  }

  function Max(a: real, b: real): real {
    if a > b then a else b
  }

  // ---------------------------------------------------------------------
  // Balls.
  // ---------------------------------------------------------------------

  datatype BallState = BallState(x: real, y: real, radius: real, vx: real, vy: real)

  function Center(b: BallState): Point {
    Point(b.x, b.y)
  }

  /** `Ball.update` on a canvas of the given size: move, reflect off the walls, clamp. */
  function Bounce(b: BallState, w: real, h: real): BallState {
    var x := b.x + b.vx;
    var y := b.y + b.vy;
    var vx := if x + b.radius > w || x - b.radius < 0.0 then -b.vx else b.vx;
    var vy := if y + b.radius > h || y - b.radius < 0.0 then -b.vy else b.vy;
    BallState(Max(b.radius, Min(w - b.radius, x)), Max(b.radius, Min(h - b.radius, y)), b.radius, vx, vy)
  }

  /** On a canvas at least one diameter wide and high, an updated ball lies wholly inside it. */
  lemma BounceInBounds(b: BallState, w: real, h: real)
    requires w >= 2.0 * b.radius && h >= 2.0 * b.radius
    ensures var n := Bounce(b, w, h);
      b.radius <= n.x <= w - b.radius && b.radius <= n.y <= h - b.radius
  {
  }

  /**
   * The horizontal speed is negated exactly when the moved ball pokes out
   * past the left or right wall, and the vertical one likewise for the top
   * and bottom; the radius and the speed magnitudes never change.
   */
  lemma BounceReflects(b: BallState, w: real, h: real)
    ensures var n := Bounce(b, w, h);
      var x, y := b.x + b.vx, b.y + b.vy;
      n.vx == (if x + b.radius > w || x - b.radius < 0.0 then -b.vx else b.vx)
      && n.vy == (if y + b.radius > h || y - b.radius < 0.0 then -b.vy else b.vy)
      && n.radius == b.radius
      && n.vx * n.vx == b.vx * b.vx && n.vy * n.vy == b.vy * b.vy
  {
  }

  /** A ball that stays clear of every wall simply moves by its velocity. */
  lemma BounceFree(b: BallState, w: real, h: real)
    requires b.radius <= b.x + b.vx <= w - b.radius
    requires b.radius <= b.y + b.vy <= h - b.radius
    ensures Bounce(b, w, h) == BallState(b.x + b.vx, b.y + b.vy, b.radius, b.vx, b.vy)
  {
  }

  /** `isClicked`, stated on the squared distance. */
  predicate Clicked(b: BallState, mx: real, my: real) {
    Dist2(Point(mx, my), Center(b)) <= b.radius * b.radius
  }

  /** For a ball of non-negative radius, Clicked is the source's `sqrt(...) <= radius`. */
  lemma ClickedIsDistanceTest(b: BallState, mx: real, my: real, sqrt: real -> real)
    requires SqrtSpec(sqrt) && b.radius >= 0.0
    ensures Clicked(b, mx, my) <==> Distance(Point(mx, my), Center(b), sqrt) <= b.radius
  {
    var d := Dist2(Point(mx, my), Center(b));
    RootBelow(sqrt(d), d, b.radius);
  }

  /** A fragment's velocity has speed in [2, 4), as `speed = random * 2 + 2` with a direction. */
  predicate FragmentVelocity(v: Point) {
    4.0 <= v.x * v.x + v.y * v.y < 16.0
  }

  /** Where a fragment count and velocities come from: 3 to 5 of them, each of speed in [2, 4). */
  predicate FragmentPlan(vels: seq<Point>) {
    3 <= |vels| <= 5 && forall i :: 0 <= i < |vels| ==> FragmentVelocity(vels[i])
  }

  /** `split`: nothing below radius 10, otherwise one half-size ball per planned velocity (see SplitElements). */
  function SplitBall(b: BallState, vels: seq<Point>): (r: seq<BallState>)
    ensures b.radius < 10.0 ==> r == []
    ensures b.radius >= 10.0 ==> |r| == |vels|
  {
    if b.radius < 10.0 then [] else Fragments(b.x, b.y, b.radius / 2.0, vels)
  }

  /** The split loop's `newBalls`: one ball of the given radius at (x, y) per velocity, in order. */
  function Fragments(x: real, y: real, radius: real, vels: seq<Point>): (r: seq<BallState>)
    ensures |r| == |vels|
  {
    if vels == [] then []
    else
      var last := vels[|vels| - 1];
      Fragments(x, y, radius, vels[..|vels| - 1]) + [BallState(x, y, radius, last.x, last.y)]
  }

  /** Fragment i sits at the given centre with the given radius and moves with the i-th velocity. */
  lemma {:induction false} FragmentsAt(x: real, y: real, radius: real, vels: seq<Point>)
    ensures forall i :: 0 <= i < |vels| ==>
      Fragments(x, y, radius, vels)[i] == BallState(x, y, radius, vels[i].x, vels[i].y)
  {
    if vels != [] {
      var front := vels[..|vels| - 1];
      FragmentsAt(x, y, radius, front);
      assert forall i :: 0 <= i < |front| ==> front[i] == vels[i];
    }
  }

  /** Each of a split's balls is a half-size copy of the parent's position with the i-th planned velocity. */
  lemma SplitElements(b: BallState, vels: seq<Point>)
    ensures var r := SplitBall(b, vels);
      forall i :: 0 <= i < |r| ==> r[i] == BallState(b.x, b.y, b.radius / 2.0, vels[i].x, vels[i].y)
  {
    FragmentsAt(b.x, b.y, b.radius / 2.0, vels);
  }

  /** A split yields nothing or 3 to 5 balls, each at least 5 in radius and of speed in [2, 4). */
  lemma SplitShape(b: BallState, vels: seq<Point>)
    requires FragmentPlan(vels)
    ensures var r := SplitBall(b, vels);
      (r == [] <==> b.radius < 10.0)
      && (r != [] ==> 3 <= |r| <= 5)
      && forall i :: 0 <= i < |r| ==>
        Center(r[i]) == Center(b) && 5.0 <= r[i].radius && r[i].radius * 2.0 == b.radius
        && FragmentVelocity(Point(r[i].vx, r[i].vy))
  {
    SplitElements(b, vels);
  }

  /**
   * The parameters `new Ball()` draws at random on a w by h canvas; on a
   * canvas of width (or height) 0 the coordinate is 0.
   */
  predicate Spawnable(b: BallState, w: real, h: real) {
    (0.0 <= b.x < w || b.x == 0.0) && (0.0 <= b.y < h || b.y == 0.0) && 15.0 <= b.radius < 45.0
    && -1.5 <= b.vx < 1.5 && -1.5 <= b.vy < 1.5
  }

  /** How many balls the game starts with: one per 50000 square pixels, at most 10. */
  function InitialCount(w: nat, h: nat): (n: nat)
    ensures n <= 10
    ensures n < 10 ==> n * 50000 <= w * h < (n + 1) * 50000
    ensures n == 10 <==> w * h >= 500000
  {
    var k := (w * h) / 50000;
    if k < 10 then k else 10
  }

  // ---------------------------------------------------------------------
  // The snake.
  // ---------------------------------------------------------------------

  /** Segments start 8 apart. */
  const Spacing: real := 8.0
  /** The head's collision radius: `segmentSize * 1.3`. */
  const HeadReach: real := 13.0
  /** Fraction of the excess spacing recovered per frame. */
  const Stiffness: real := 0.15
  /** Farthest the head moves in one frame. */
  const MaxStep: real := 5.0

  /** The constructor's 15 segments, spaced 8 apart leftwards from the canvas centre. */
  function StartSegments(w: real, h: real): (s: seq<Point>)
    ensures |s| == 15
    ensures forall i :: 0 <= i < 15 ==> s[i] == Point(w / 2.0 - i as real * Spacing, h / 2.0)
  {
    seq(15, i requires 0 <= i < 15 => Point(w / 2.0 - i as real * Spacing, h / 2.0))
  }

  /** Neighbouring start segments are exactly 8 apart. */
  lemma StartSpaced(w: real, h: real, i: nat)
    requires 1 <= i < 15
    ensures Dist2(StartSegments(w, h)[i - 1], StartSegments(w, h)[i]) == Spacing * Spacing
  {
    var a, b := StartSegments(w, h)[i - 1], StartSegments(w, h)[i];
    var j := i as real;
    assert a == Point(w / 2.0 - (j - 1.0) * Spacing, h / 2.0);
    assert b == Point(w / 2.0 - j * Spacing, h / 2.0);
    assert a.x - b.x == Spacing && a.y - b.y == 0.0;
    assert Dist2(a, b) == Spacing * Spacing + 0.0 * 0.0;
  }

  /** The new head: moved from the old one towards the target by min(distance, 5). */
  function HeadToward(head: Point, target: Point, sqrt: real -> real): Point
    requires Distance(target, head, sqrt) > 0.0
  {
    var dx, dy := target.x - head.x, target.y - head.y;
    var d := Distance(target, head, sqrt);
    var m := Min(d, MaxStep);
    Point(head.x + dx / d * m, head.y + dy / d * m)
  }

  /** HeadToward written out on the coordinates, as `update` computes it inline. */
  lemma HeadTowardIs(head: Point, target: Point, sqrt: real -> real)
    requires Distance(target, head, sqrt) > 0.0
    ensures var d := Distance(target, head, sqrt);
      HeadToward(head, target, sqrt).x == head.x + (target.x - head.x) / d * Min(d, MaxStep)
      && HeadToward(head, target, sqrt).y == head.y + (target.y - head.y) / d * Min(d, MaxStep)
  {
  }

  /** The new head is exactly min(distance, 5) from the old head. */
  lemma HeadStep(head: Point, target: Point, sqrt: real -> real)
    requires SqrtSpec(sqrt) && Distance(target, head, sqrt) > 1.0
    ensures var d := Distance(target, head, sqrt);
      Dist2(HeadToward(head, target, sqrt), head) == Min(d, MaxStep) * Min(d, MaxStep)
    ensures Dist2(HeadToward(head, target, sqrt), head) <= MaxStep * MaxStep
  {
    var dx, dy := target.x - head.x, target.y - head.y;
    var d := Distance(target, head, sqrt);
    var m := Min(d, MaxStep);
    var k := m / d;
    assert d * d == dx * dx + dy * dy;
    assert d * k == m;
    var n := HeadToward(head, target, sqrt);
    DivMul(dx, d, m);
    DivMul(dy, d, m);
    assert n.x - head.x == dx * k && n.y - head.y == dy * k;
    ScaledDist2(dx, dy, k);
    assert Dist2(n, head) == (d * d) * (k * k);
    assert (d * d) * (k * k) == (d * k) * (d * k);
    SquareBelow(m, MaxStep);
  }

  /**
   * The new head lies on the way to the target: min(distance, 5) closer to
   * it than the old head, so it never overshoots.
   */
  lemma HeadApproaches(head: Point, target: Point, sqrt: real -> real)
    requires SqrtSpec(sqrt) && Distance(target, head, sqrt) > 1.0
    ensures var d := Distance(target, head, sqrt);
      Dist2(HeadToward(head, target, sqrt), target) == (d - Min(d, MaxStep)) * (d - Min(d, MaxStep))
  {
    var dx, dy := target.x - head.x, target.y - head.y;
    var d := Distance(target, head, sqrt);
    var m := Min(d, MaxStep);
    var k := m / d;
    assert d * d == dx * dx + dy * dy;
    assert d * k == m;
    var n := HeadToward(head, target, sqrt);
    DivMul(dx, d, m);
    DivMul(dy, d, m);
    assert n.x - target.x == dx * (k - 1.0) && n.y - target.y == dy * (k - 1.0);
    ScaledDist2(dx, dy, k - 1.0);
    assert Dist2(n, target) == (d * d) * ((k - 1.0) * (k - 1.0));
    assert (d * d) * ((k - 1.0) * (k - 1.0)) == (d * (k - 1.0)) * (d * (k - 1.0));
    assert d * (k - 1.0) == m - d;
  }

  /** Squaring keeps the order of non-negative values. */
  lemma SquareBelow(m: real, bound: real)
    requires 0.0 <= m <= bound
    ensures m * m <= bound * bound
  {
    MulSigns(m - bound, m);
    assert (m - bound) * m == m * m - bound * m;
    MulSigns(m - bound, bound);
  }

  /** Keep at most n elements: the `pop` loop. */
  function Take(s: seq<Point>, n: nat): (r: seq<Point>)
    ensures |r| == if |s| > n then n else |s|
    ensures r == s[..|r|]
  {
    if |s| > n then s[..n] else s
  }

  /** The first half of `Snake.update`: a new head when the target is more than 1 away, then the tail trimmed. */
  function Advance(segs: seq<Point>, length: nat, target: Point, sqrt: real -> real): seq<Point>
    requires |segs| > 0
  {
    if Distance(target, segs[0], sqrt) > 1.0 then Take([HeadToward(segs[0], target, sqrt)] + segs, length)
    else segs
  }

  /**
   * With as many segments as the target length, Advance keeps that count;
   * it moves the head only when the target is more than 1 away, and then
   * by at most 5, shifting every other segment down by one.
   */
  lemma AdvanceShape(segs: seq<Point>, length: nat, target: Point, sqrt: real -> real)
    requires SqrtSpec(sqrt) && |segs| == length >= 1
    ensures var r := Advance(segs, length, target, sqrt);
      |r| == length
      && (Distance(target, segs[0], sqrt) <= 1.0 ==> r == segs)
      && (Distance(target, segs[0], sqrt) > 1.0 ==>
        Dist2(r[0], segs[0]) <= MaxStep * MaxStep && r[1..] == segs[..length - 1])
  {
    if Distance(target, segs[0], sqrt) > 1.0 {
      HeadStep(segs[0], target, sqrt);
    }
  }

  /** One relaxation step: pull `cur` towards `prev` when they are more than 8 apart. */
  function Pull(prev: Point, cur: Point, sqrt: real -> real): Point {
    var dx, dy := prev.x - cur.x, prev.y - cur.y;
    var dist := Distance(prev, cur, sqrt);
    if dist > Spacing then
      var ratio := (dist - Spacing) / dist;
      Point(cur.x + dx * ratio * Stiffness, cur.y + dy * ratio * Stiffness)
    else cur
  }

  /**
   * Segments at most 8 from their predecessor stay put; one farther away
   * ends strictly closer to it, yet still more than 8 from it (it recovers
   * 15% of the excess).
   */
  lemma PullCloser(prev: Point, cur: Point, sqrt: real -> real)
    requires SqrtSpec(sqrt)
    ensures Dist2(prev, cur) <= Spacing * Spacing ==> Pull(prev, cur, sqrt) == cur
    ensures Dist2(prev, cur) > Spacing * Spacing ==>
      Spacing * Spacing < Dist2(prev, Pull(prev, cur, sqrt)) < Dist2(prev, cur)
  {
    var dx, dy := prev.x - cur.x, prev.y - cur.y;
    var d2 := Dist2(prev, cur);
    var dist := sqrt(d2);
    RootBelow(dist, d2, Spacing);
    if dist > Spacing {
      var ratio := (dist - Spacing) / dist;
      var f := 1.0 - ratio * Stiffness;
      var n := Pull(prev, cur, sqrt);
      assert prev.x - n.x == dx * f && prev.y - n.y == dy * f;
      ScaledDist2(dx, dy, f);
      assert dist * ratio == dist - Spacing;
      var q := dist * f;
      assert q == dist - (dist - Spacing) * Stiffness;
      assert Dist2(prev, n) == q * q by {
        assert d2 * (f * f) == (dist * dist) * (f * f) == q * q;
      }
      Shrink(dist);
    }
  }

  /** One relaxation step shortens a gap d > 8 to 8 + 0.85 (d - 8): still above 8, and below d. */
  lemma Shrink(d: real)
    requires d > Spacing
    ensures var q := d - (d - Spacing) * Stiffness;
      Spacing * Spacing < q * q < d * d
  {
    var q := d - (d - Spacing) * Stiffness;
    assert Spacing < q < d;
    assert q * q - Spacing * Spacing == (q - Spacing) * (q + Spacing);
    MulSigns(q - Spacing, q + Spacing);
    assert d * d - q * q == (d - q) * (d + q);
    MulSigns(d - q, d + q);
  }

  /** The relaxation `for` loop from segment i on: each segment is pulled towards its already relaxed predecessor. */
  function RelaxFrom(segs: seq<Point>, i: nat, sqrt: real -> real): (r: seq<Point>)
    requires i >= 1
    ensures |r| == |segs|
    ensures forall k :: 0 <= k < i && k < |segs| ==> r[k] == segs[k]
    decreases |segs| - i
  {
    if i >= |segs| then segs
    else RelaxFrom(segs[i := Pull(segs[i - 1], segs[i], sqrt)], i + 1, sqrt)
  }

  /**
   * The relaxed list keeps segment 0, and every later segment is the
   * original one pulled towards the relaxed segment before it.
   */
  lemma {:induction false} RelaxShape(segs: seq<Point>, i: nat, sqrt: real -> real)
    requires 1 <= i
    ensures forall k :: i <= k < |segs| ==>
      RelaxFrom(segs, i, sqrt)[k] == Pull(RelaxFrom(segs, i, sqrt)[k - 1], segs[k], sqrt)
    decreases |segs| - i
  {
    if i < |segs| {
      var next := segs[i := Pull(segs[i - 1], segs[i], sqrt)];
      RelaxShape(next, i + 1, sqrt);
      assert RelaxFrom(segs, i, sqrt) == RelaxFrom(next, i + 1, sqrt);
      forall k | i <= k < |segs|
        ensures RelaxFrom(segs, i, sqrt)[k] == Pull(RelaxFrom(segs, i, sqrt)[k - 1], segs[k], sqrt)
      {
        if k == i {
          assert RelaxFrom(next, i + 1, sqrt)[i] == next[i];
          assert RelaxFrom(next, i + 1, sqrt)[i - 1] == next[i - 1] == segs[i - 1];
        } else {
          assert next[k] == segs[k];
        }
      }
    }
  }

  /** `grow`'s segment change: three copies of the tail, when there is one. */
  function GrowSegments(segs: seq<Point>): (r: seq<Point>)
    ensures |r| == if segs == [] then 0 else |segs| + 3
    ensures r[..|segs|] == segs
  {
    if segs == [] then [] else
      var tail := segs[|segs| - 1];
      segs + [tail, tail, tail]
  }

  /** The segments after n calls of `grow`. */
  function Grown(segs: seq<Point>, n: nat): (r: seq<Point>)
    ensures segs != [] ==> r != [] && r[0] == segs[0]
    decreases n
  {
    if n == 0 then segs else GrowSegments(Grown(segs, n - 1))
  }

  /** One more call of `grow` grows the result of the earlier ones. */
  lemma GrownStep(segs: seq<Point>, n: nat)
    ensures Grown(segs, n + 1) == GrowSegments(Grown(segs, n))
  {
  }

  /** Growing n times keeps the head and the old segments and adds 3n copies of the tail. */
  lemma {:induction false} GrownShape(segs: seq<Point>, n: nat)
    requires segs != []
    ensures |Grown(segs, n)| == |segs| + 3 * n
    ensures Grown(segs, n)[..|segs|] == segs
    ensures forall k :: |segs| <= k < |segs| + 3 * n ==> Grown(segs, n)[k] == segs[|segs| - 1]
    decreases n
  {
    if n > 0 {
      GrownShape(segs, n - 1);
      var g := Grown(segs, n - 1);
      assert g[|g| - 1] == segs[|segs| - 1];
      assert GrowSegments(g)[..|g|] == g;
      assert GrowSegments(g)[..|segs|] == g[..|segs|];
    }
  }

  /** A ball: its state is overwritten in place by `update`. */
  class Ball {
    var x: real
    var y: real
    var radius: real
    var vx: real
    var vy: real

    function State(): BallState
      reads this
    {
      BallState(x, y, radius, vx, vy)
    }

    constructor (s: BallState)
      ensures State() == s
    {
      x, y, radius, vx, vy := s.x, s.y, s.radius, s.vx, s.vy;
    }

    /** `update` on a w by h canvas. */
    method Update(w: real, h: real)
      modifies this
      ensures State() == Bounce(old(State()), w, h)
    {
      x := x + vx;
      y := y + vy;
      if x + radius > w || x - radius < 0.0 {
        vx := -vx;
      }
      if y + radius > h || y - radius < 0.0 {
        vy := -vy;
      }
      x := Max(radius, Min(w - radius, x));
      y := Max(radius, Min(h - radius, y));
    }

    /** `split`, with the fragment count and velocities drawn by the caller. */
    method Split(vels: seq<Point>) returns (frags: seq<Ball>)
      requires FragmentPlan(vels)
      ensures forall i :: 0 <= i < |frags| ==> fresh(frags[i])
      ensures forall i, j :: 0 <= i < j < |frags| ==> frags[i] != frags[j]
      ensures Values(frags) == SplitBall(State(), vels)
    {
      frags := [];
      if radius < 10.0 {
        return;
      }
      var newRadius := radius / 2.0;
      var i := 0;
      while i < |vels|
        invariant 0 <= i <= |vels|
        invariant |frags| == i
        invariant forall k :: 0 <= k < i ==> fresh(frags[k])
        invariant forall k, j :: 0 <= k < j < i ==> frags[k] != frags[j]
        invariant forall k :: 0 <= k < i ==>
          frags[k].State() == BallState(x, y, newRadius, vels[k].x, vels[k].y)
      {
        var b := new Ball(BallState(x, y, newRadius, vels[i].x, vels[i].y));
        frags := frags + [b];
        i := i + 1;
      }
      SplitElements(State(), vels);
    }
  }

  /** The states of a list of balls. */
  ghost function Values(bs: seq<Ball>): (r: seq<BallState>)
    reads bs
    ensures |r| == |bs|
    ensures forall k :: 0 <= k < |bs| ==> r[k] == bs[k].State()
  {
    seq(|bs|, k requires 0 <= k < |bs| reads bs => bs[k].State())
  }

  /** The snake: a segment list whose count always equals `length`. */
  class Snake {
    var segments: seq<Point>
    var length: nat
    var score: nat

    ghost predicate Valid()
      reads this
    {
      |segments| == length && length >= 1
    }

    /** 15 segments, 8 apart, leftwards from the centre of a w by h canvas. */
    constructor (w: real, h: real)
      ensures Valid()
      ensures segments == StartSegments(w, h) && length == 15 && score == 0
    {
      segments := [];
      length := 15;
      score := 0;
      new;
      var i := 0;
      while i < length
        invariant 0 <= i <= 15 && length == 15 && score == 0
        invariant segments == StartSegments(w, h)[..i]
      {
        segments := segments + [Point(w / 2.0 - i as real * Spacing, h / 2.0)];
        i := i + 1;
      }
    }

    /** `update(targetX, targetY)`: advance the head towards the target, trim, then relax the body. */
    method Update(target: Point, sqrt: real -> real)
      requires Valid() && SqrtSpec(sqrt)
      modifies this
      ensures Valid() && length == old(length) && score == old(score)
      ensures segments == RelaxFrom(Advance(old(segments), length, target, sqrt), 1, sqrt)
    {
      MoveHead(target, sqrt);
      Relax(sqrt);
    }

    /** The head step and the `pop` loop. */
    method MoveHead(target: Point, sqrt: real -> real)
      requires Valid()
      modifies this
      ensures Valid() && length == old(length) && score == old(score)
      ensures segments == Advance(old(segments), length, target, sqrt)
    {
      var head := segments[0];
      var dx := target.x - head.x;
      var dy := target.y - head.y;
      var distance := Distance(target, head, sqrt);
      if distance > 1.0 {
        var moveX := dx / distance * Min(distance, MaxStep);
        var moveY := dy / distance * Min(distance, MaxStep);
        var newHead := Point(head.x + moveX, head.y + moveY);
        HeadTowardIs(head, target, sqrt);
        assert newHead.x == HeadToward(head, target, sqrt).x;
        assert newHead.y == HeadToward(head, target, sqrt).y;
        ghost var grown := [HeadToward(head, target, sqrt)] + segments;
        segments := [newHead] + segments;
        assert segments == grown;
        while |segments| > length
          invariant |segments| >= length
          invariant segments == grown[..|segments|]
          invariant length == old(length) && score == old(score)
          decreases |segments|
        {
          segments := segments[..|segments| - 1];
        }
      }
    }

    /** The relaxation `for` loop over segments 1 .. end. */
    method Relax(sqrt: real -> real)
      requires Valid()
      modifies this
      ensures Valid() && length == old(length) && score == old(score)
      ensures segments == RelaxFrom(old(segments), 1, sqrt)
    {
      var i := 1;
      while i < |segments|
        invariant 1 <= i
        invariant |segments| == length && length == old(length) && score == old(score)
        invariant RelaxFrom(segments, i, sqrt) == RelaxFrom(old(segments), 1, sqrt)
      {
        segments := segments[i := Pull(segments[i - 1], segments[i], sqrt)];
        i := i + 1;
      }
    }

    /** The `grow` calls of one animation frame, one per ball eaten. */
    method GrowBy(n: nat)
      requires Valid()
      modifies this
      ensures Valid()
      ensures segments == Grown(old(segments), n)
      ensures length == old(length) + 3 * n && score == old(score) + n
    {
      var k := 0;
      while k < n
        invariant 0 <= k <= n && Valid()
        invariant segments == Grown(old(segments), k)
        invariant length == old(length) + 3 * k && score == old(score) + k
      {
        GrownStep(old(segments), k);
        Grow();
        k := k + 1;
      }
    }

    /** `grow`: three more to the length, one more to the score, three copies of the tail. */
    method Grow()
      requires Valid()
      modifies this
      ensures Valid()
      ensures length == old(length) + 3 && score == old(score) + 1
      ensures segments == GrowSegments(old(segments))
    {
      length := length + 3;
      score := score + 1;
      if |segments| > 0 {
        var tail := segments[|segments| - 1];
        var i := 0;
        while i < 3
          invariant 0 <= i <= 3
          invariant segments == old(segments) + seq(i, _ => tail)
          invariant length == old(length) + 3 && score == old(score) + 1
        {
          segments := segments + [tail];
          i := i + 1;
        }
      }
    }
  }

  /** The head is within 13 + radius of the ball's centre, on the squared distance. */
  predicate HeadHits(head: Point, b: BallState) {
    Dist2(head, Center(b)) <= (HeadReach + b.radius) * (HeadReach + b.radius)
  }

  /** `checkCollision`: never with no segments, else the head test. */
  predicate Collides(segs: seq<Point>, b: BallState) {
    |segs| > 0 && HeadHits(segs[0], b)
  }

  /** For a ball of non-negative radius, Collides is the source's `sqrt(...) <= 13 + radius`. */
  lemma CollidesIsDistanceTest(segs: seq<Point>, b: BallState, sqrt: real -> real)
    requires SqrtSpec(sqrt) && b.radius >= 0.0 && |segs| > 0
    ensures Collides(segs, b) <==> Distance(segs[0], Center(b), sqrt) <= HeadReach + b.radius
  {
    var d := Dist2(segs[0], Center(b));
    RootBelow(sqrt(d), d, HeadReach + b.radius);
  }

  // ---------------------------------------------------------------------
  // The game: clicks and animation frames.
  // ---------------------------------------------------------------------

  /** The most balls the click handler keeps. */
  const MaxBalls: nat := 50
  /** Below this many balls an eaten one is replaced. */
  const MinBalls: nat := 5

  datatype Option<T> = None | Some(value: T)

  /** The click loop's search: the highest index below n whose ball contains the point. */
  function LastHit(bs: seq<BallState>, cx: real, cy: real, n: nat): (r: Option<nat>)
    requires n <= |bs|
    ensures r.Some? ==> r.value < n
    decreases n
  {
    if n == 0 then None
    else if Clicked(bs[n - 1], cx, cy) then Some(n - 1)
    else LastHit(bs, cx, cy, n - 1)
  }

  /**
   * The search finds a ball containing the point with no later ball below n
   * containing it; it finds nothing exactly when no ball below n contains it.
   */
  lemma {:induction false} LastHitSpec(bs: seq<BallState>, cx: real, cy: real, n: nat)
    requires n <= |bs|
    ensures var r := LastHit(bs, cx, cy, n);
      (r.Some? ==> Clicked(bs[r.value], cx, cy) && forall k :: r.value < k < n ==> !Clicked(bs[k], cx, cy))
      && (r.None? <==> forall k :: 0 <= k < n ==> !Clicked(bs[k], cx, cy))
    decreases n
  {
    if n > 0 && !Clicked(bs[n - 1], cx, cy) {
      LastHitSpec(bs, cx, cy, n - 1);
    }
  }

  /** The click loop's search, from the last ball down to the first. */
  method FindClicked(bs: seq<BallState>, cx: real, cy: real) returns (hit: Option<nat>)
    ensures hit == LastHit(bs, cx, cy, |bs|)
  {
    var k := |bs|;
    while k > 0 && !Clicked(bs[k - 1], cx, cy)
      invariant 0 <= k <= |bs|
      invariant LastHit(bs, cx, cy, |bs|) == LastHit(bs, cx, cy, k)
    {
      k := k - 1;
    }
    hit := if k == 0 then None else Some(k - 1);
  }

  /** `balls.splice(i, 1)`: the list without its i-th ball, the later ones moved down by one. */
  function Remove(bs: seq<BallState>, i: nat): (r: seq<BallState>)
    requires i < |bs|
    ensures |r| == |bs| - 1
    ensures forall k :: 0 <= k < i ==> r[k] == bs[k]
    ensures forall k :: i <= k < |r| ==> r[k] == bs[k + 1]
  {
    seq(|bs| - 1, k requires 0 <= k < |bs| - 1 => if k < i then bs[k] else bs[k + 1])
  }

  /** Removing ball i joins the balls before it to the balls after it. */
  lemma RemoveJoins(bs: seq<BallState>, i: nat)
    requires i < |bs|
    ensures Remove(bs, i) == bs[..i] + bs[i + 1..]
  {
    var joined := bs[..i] + bs[i + 1..];
    assert forall k :: 0 <= k < |joined| ==> Remove(bs, i)[k] == joined[k];
  }

  /** `balls.splice(0, balls.length - n)`: the newest n balls, in order. */
  function Newest(bs: seq<BallState>, n: nat): (r: seq<BallState>)
    requires n <= |bs|
    ensures |r| == n
    ensures forall k :: 0 <= k < n ==> r[k] == bs[|bs| - n + k]
  {
    seq(n, k requires 0 <= k < n => bs[|bs| - n + k])
  }

  /** The newest n balls are the list's suffix of length n. */
  lemma NewestSuffix(bs: seq<BallState>, n: nat)
    requires n <= |bs|
    ensures Newest(bs, n) == bs[|bs| - n..]
  {
    var suffix := bs[|bs| - n..];
    assert forall k :: 0 <= k < n ==> Newest(bs, n)[k] == suffix[k];
  }

  /** The click handler's limit: above 50 balls only the newest 50 stay. */
  function Cap(bs: seq<BallState>): (r: seq<BallState>)
    ensures |r| <= MaxBalls && (|bs| <= MaxBalls ==> r == bs)
    ensures |bs| > MaxBalls ==> r == Newest(bs, MaxBalls)
  {
    if |bs| > MaxBalls then Newest(bs, MaxBalls) else bs
  }

  /** A click at (cx, cy): the last ball hit is removed and its fragments appended, then the list is capped. */
  function Click(bs: seq<BallState>, cx: real, cy: real, vels: seq<Point>): seq<BallState> {
    match LastHit(bs, cx, cy, |bs|)
    case None => bs
    case Some(i) => Cap(Remove(bs, i) + SplitBall(bs[i], vels))
  }

  /**
   * A click that hits nothing changes nothing. A click that hits keeps at
   * most 50 balls, ends with the hit ball's fragments, and before them
   * keeps the newest of the other balls in their order.
   */
  lemma ClickShape(bs: seq<BallState>, cx: real, cy: real, vels: seq<Point>)
    requires FragmentPlan(vels)
    ensures LastHit(bs, cx, cy, |bs|).None? ==> Click(bs, cx, cy, vels) == bs
    ensures LastHit(bs, cx, cy, |bs|).Some? ==>
      var i := LastHit(bs, cx, cy, |bs|).value;
      var frags := SplitBall(bs[i], vels);
      var others := Remove(bs, i);
      var r := Click(bs, cx, cy, vels);
      |r| == (if |others| + |frags| > MaxBalls then MaxBalls else |others| + |frags|)
      && r[|r| - |frags|..] == frags
      && r[..|r| - |frags|] == others[|others| - (|r| - |frags|)..]
  {
    if LastHit(bs, cx, cy, |bs|).Some? {
      var i := LastHit(bs, cx, cy, |bs|).value;
      var frags := SplitBall(bs[i], vels);
      var others := Remove(bs, i);
      var all := others + frags;
      var r := Cap(all);
      SplitShape(bs[i], vels);
      assert |frags| <= 5;
      var j := |all| - |r|;
      if |all| > MaxBalls {
        NewestSuffix(all, MaxBalls);
      }
      assert r == all[j..];
      assert r[|r| - |frags|..] == all[|others|..] == frags;
      assert r[..|r| - |frags|] == all[j..|others|] == others[j..];
    }
  }

  /** The body of `handleClick` on the ball list: find the last ball hit, replace it by its fragments, cap at 50. */
  method ClickBalls(bs: seq<BallState>, cx: real, cy: real, vels: seq<Point>)
    returns (r: seq<BallState>, clicked: bool)
    requires Sized(bs) && |bs| <= MaxBalls
    ensures r == Click(bs, cx, cy, vels)
    ensures clicked <==> LastHit(bs, cx, cy, |bs|).Some?
    ensures Sized(r) && |r| <= MaxBalls
  {
    ClickKeepsSized(bs, cx, cy, vels);
    ClickBounded(bs, cx, cy, vels);
    var hit := FindClicked(bs, cx, cy);
    if hit.None? {
      return bs, false;
    }
    var i := hit.value;
    var newBalls := SplitBall(bs[i], vels);
    r := Remove(bs, i) + newBalls;
    if |r| > MaxBalls {
      r := Newest(r, MaxBalls);
    }
    clicked := true;
  }

  /** Every ball is at least 5 in radius. */
  predicate Sized(bs: seq<BallState>) {
    forall k :: 0 <= k < |bs| ==> bs[k].radius >= MinRadius
  }

  /** A click keeps every ball at radius 5 or more: the fragments of a ball of radius 10 or more are at least 5. */
  lemma ClickKeepsSized(bs: seq<BallState>, cx: real, cy: real, vels: seq<Point>)
    requires Sized(bs)
    ensures Sized(Click(bs, cx, cy, vels))
  {
    match LastHit(bs, cx, cy, |bs|)
    case None =>
    case Some(i) =>
      SplitElements(bs[i], vels);
      var all := Remove(bs, i) + SplitBall(bs[i], vels);
      assert Sized(all);
      assert Sized(Cap(all));
  }

  /** Clicks keep the game within 50 balls. */
  lemma ClickBounded(bs: seq<BallState>, cx: real, cy: real, vels: seq<Point>)
    requires |bs| <= MaxBalls
    ensures |Click(bs, cx, cy, vels)| <= MaxBalls
  {
  }

  /** What a stretch of the animation loop did to the balls, and how many it ate and spawned. */
  datatype Swept = Swept(balls: seq<BallState>, eaten: nat, spawned: nat)

  /**
   * One turn of the animation loop at index i: the ball moves; if the head
   * then touches it, it is removed, the snake grows, and when fewer than 5
   * balls are left the `next` ball is appended.
   */
  function Visited(bs: seq<BallState>, i: nat, head: Point, w: real, h: real, next: BallState): (v: Swept)
    requires i < |bs|
    ensures v.eaten <= 1 && v.spawned <= v.eaten
    ensures |v.balls| + v.eaten == |bs| + v.spawned
  {
    var b := Bounce(bs[i], w, h);
    if HeadHits(head, b) then
      var rest := Remove(bs, i);
      if |rest| < MinBalls then Swept(rest + [next], 1, 1) else Swept(rest, 1, 0)
    else
      Swept(bs[i := b], 0, 0)
  }

  /**
   * A visit spawns a ball exactly when it eats one and fewer than 5 balls are
   * left after the removal.
   */
  lemma VisitedSpawns(bs: seq<BallState>, i: nat, head: Point, w: real, h: real, next: BallState)
    requires i < |bs|
    ensures var v := Visited(bs, i, head, w, h, next);
      v.spawned == 1 <==> v.eaten == 1 && |bs| - 1 < MinBalls
  {
  }

  /** A visit to ball i leaves the balls before it alone. */
  lemma VisitedPrefix(bs: seq<BallState>, i: nat, head: Point, w: real, h: real, next: BallState)
    requires i < |bs|
    ensures Visited(bs, i, head, w, h, next).balls[..i] == bs[..i]
  {
    if HeadHits(head, Bounce(bs[i], w, h)) {
      var rest := Remove(bs, i);
      assert rest[..i] == bs[..i];
    }
  }

  /**
   * The animation loop from index i - 1 down to 0; the balls it spawns are
   * taken from `spawns` in order, starting at index `used`.
   */
  function SweepFrom(bs: seq<BallState>, i: nat, head: Point, w: real, h: real, spawns: seq<BallState>, used: nat): Swept
    requires i <= |bs| && used + i <= |spawns|
    decreases i, 0
  {
    if i == 0 then Swept(bs, 0, 0)
    else Resume(Visited(bs, i - 1, head, w, h, spawns[used]), i - 1, head, w, h, spawns, used)
  }

  /** The rest of the loop after visit v, from index i - 1 down to 0, with the tallies of v added. */
  function Resume(v: Swept, i: nat, head: Point, w: real, h: real, spawns: seq<BallState>, used: nat): Swept
    requires i <= |v.balls| && used + v.spawned + i <= |spawns|
    decreases i, 1
  {
    var r := SweepFrom(v.balls, i, head, w, h, spawns, used + v.spawned);
    Swept(r.balls, v.eaten + r.eaten, v.spawned + r.spawned)
  }

  /** A sweep over n > 0 balls is the visit to ball n - 1 followed by the sweep over the balls before it. */
  lemma SweepStep(bs: seq<BallState>, n: nat, head: Point, w: real, h: real, spawns: seq<BallState>, used: nat)
    requires 0 < n <= |bs| && used + n <= |spawns|
    ensures var v := Visited(bs, n - 1, head, w, h, spawns[used]);
      var s := SweepFrom(bs, n, head, w, h, spawns, used);
      var r := SweepFrom(v.balls, n - 1, head, w, h, spawns, used + v.spawned);
      s.balls == r.balls && s.eaten == v.eaten + r.eaten && s.spawned == v.spawned + r.spawned
  {
  }

  /** A visit keeps every ball at radius 5 or more when the spawned ball is a `new Ball()`. */
  lemma VisitedKeepsRadius(bs: seq<BallState>, i: nat, head: Point, w: real, h: real, next: BallState)
    requires i < |bs| && Spawnable(next, w, h) && Sized(bs)
    ensures Sized(Visited(bs, i, head, w, h, next).balls)
  {
  }

  /** Equal games are equally sized. */
  lemma SameSized(xs: seq<BallState>, ys: seq<BallState>)
    requires Sized(xs) && xs == ys
    ensures Sized(ys)
  {
  }

  /** A sweep keeps every ball at radius 5 or more when every spawn is a `new Ball()`. */
  lemma {:induction false} SweepKeepsRadius(bs: seq<BallState>, i: nat, head: Point, w: real, h: real,
                                            spawns: seq<BallState>, used: nat)
    requires i <= |bs| && used + i <= |spawns| && Sized(bs)
    requires forall k :: 0 <= k < |spawns| ==> Spawnable(spawns[k], w, h)
    ensures Sized(SweepFrom(bs, i, head, w, h, spawns, used).balls)
    decreases i
  {
    if i > 0 {
      var v := Visited(bs, i - 1, head, w, h, spawns[used]);
      VisitedKeepsRadius(bs, i - 1, head, w, h, spawns[used]);
      SweepKeepsRadius(v.balls, i - 1, head, w, h, spawns, used + v.spawned);
      SweepStep(bs, i, head, w, h, spawns, used);
      SameSized(SweepFrom(v.balls, i - 1, head, w, h, spawns, used + v.spawned).balls,
                SweepFrom(bs, i, head, w, h, spawns, used).balls);
    }
  }

  /** A whole sweep keeps the game within 50 balls, each of radius 5 or more. */
  lemma SweepKeepsValid(bs: seq<BallState>, head: Point, w: real, h: real, spawns: seq<BallState>)
    requires |bs| <= |spawns| && |bs| <= MaxBalls && Sized(bs)
    requires forall k :: 0 <= k < |spawns| ==> Spawnable(spawns[k], w, h)
    ensures var r := SweepFrom(bs, |bs|, head, w, h, spawns, 0);
      |r.balls| <= MaxBalls && Sized(r.balls)
  {
    SweepBounded(bs, |bs|, head, w, h, spawns, 0);
    SweepKeepsRadius(bs, |bs|, head, w, h, spawns, 0);
  }

  /** How many of the first i balls the head touches once they have moved. */
  function Hits(bs: seq<BallState>, i: nat, head: Point, w: real, h: real): (n: nat)
    requires i <= |bs|
    ensures n <= i
    decreases i
  {
    if i == 0 then 0
    else Hits(bs, i - 1, head, w, h) + (if HeadHits(head, Bounce(bs[i - 1], w, h)) then 1 else 0)
  }

  /** Hits only looks at the first i balls. */
  lemma {:induction false} HitsPrefix(bs: seq<BallState>, cs: seq<BallState>, i: nat, head: Point, w: real, h: real)
    requires i <= |bs| && i <= |cs| && bs[..i] == cs[..i]
    ensures Hits(bs, i, head, w, h) == Hits(cs, i, head, w, h)
    decreases i
  {
    if i > 0 {
      assert bs[i - 1] == bs[..i][i - 1] == cs[i - 1];
      assert bs[..i - 1] == bs[..i][..i - 1];
      assert cs[..i - 1] == cs[..i][..i - 1];
      HitsPrefix(bs, cs, i - 1, head, w, h);
    }
  }

  /** A sweep eats exactly the balls the head touches after they move. */
  lemma {:induction false} SweepEatsHits(bs: seq<BallState>, i: nat, head: Point, w: real, h: real, spawns: seq<BallState>, used: nat)
    requires i <= |bs| && used + i <= |spawns|
    ensures SweepFrom(bs, i, head, w, h, spawns, used).eaten == Hits(bs, i, head, w, h)
    decreases i
  {
    if i > 0 {
      var v := Visited(bs, i - 1, head, w, h, spawns[used]);
      SweepStep(bs, i, head, w, h, spawns, used);
      SweepEatsHits(v.balls, i - 1, head, w, h, spawns, used + v.spawned);
      VisitedHits(bs, i - 1, head, w, h, spawns[used]);
      assert Hits(bs, i, head, w, h) == Hits(bs, i - 1, head, w, h) + v.eaten;
    }
  }

  /** A visit to ball i eats it exactly when the head touches it, and leaves the hits among the balls before it alone. */
  lemma VisitedHits(bs: seq<BallState>, i: nat, head: Point, w: real, h: real, next: BallState)
    requires i < |bs|
    ensures var v := Visited(bs, i, head, w, h, next);
      Hits(v.balls, i, head, w, h) == Hits(bs, i, head, w, h)
      && v.eaten == (if HeadHits(head, Bounce(bs[i], w, h)) then 1 else 0)
  {
    var v := Visited(bs, i, head, w, h, next);
    VisitedPrefix(bs, i, head, w, h, next);
    HitsPrefix(v.balls, bs, i, head, w, h);
  }

  /**
   * The first i balls, moved, that the head does not touch, in index order:
   * the balls of the first i that a sweep keeps.
   */
  function Survivors(bs: seq<BallState>, i: nat, head: Point, w: real, h: real): (s: seq<BallState>)
    requires i <= |bs|
    ensures |s| + Hits(bs, i, head, w, h) == i
    decreases i
  {
    if i == 0 then []
    else
      var b := Bounce(bs[i - 1], w, h);
      Survivors(bs, i - 1, head, w, h) + (if HeadHits(head, b) then [] else [b])
  }

  /** No survivor is touched by the head. */
  lemma {:induction false} SurvivorsUntouched(bs: seq<BallState>, i: nat, head: Point, w: real, h: real)
    requires i <= |bs|
    ensures forall k :: 0 <= k < |Survivors(bs, i, head, w, h)| ==> !HeadHits(head, Survivors(bs, i, head, w, h)[k])
    decreases i
  {
    if i > 0 {
      SurvivorsUntouched(bs, i - 1, head, w, h);
    }
  }

  /** Survivors only looks at the first i balls. */
  lemma {:induction false} SurvivorsPrefix(bs: seq<BallState>, cs: seq<BallState>, i: nat, head: Point, w: real, h: real)
    requires i <= |bs| && i <= |cs| && bs[..i] == cs[..i]
    ensures Survivors(bs, i, head, w, h) == Survivors(cs, i, head, w, h)
    decreases i
  {
    if i > 0 {
      assert bs[i - 1] == bs[..i][i - 1] == cs[i - 1];
      assert bs[..i - 1] == bs[..i][..i - 1];
      assert cs[..i - 1] == cs[..i][..i - 1];
      SurvivorsPrefix(bs, cs, i - 1, head, w, h);
    }
  }

  /** Dropping exactly the first part of a concatenation leaves the second. */
  lemma DropJoined(xs: seq<BallState>, ys: seq<BallState>)
    ensures (xs + ys)[|xs|..] == ys
  {
  }

  /** A visit to ball i keeps the survivors before it. */
  lemma VisitedSurvivors(bs: seq<BallState>, i: nat, head: Point, w: real, h: real, next: BallState)
    requires i < |bs|
    ensures Survivors(Visited(bs, i, head, w, h, next).balls, i, head, w, h) == Survivors(bs, i, head, w, h)
  {
    VisitedPrefix(bs, i, head, w, h, next);
    SurvivorsPrefix(Visited(bs, i, head, w, h, next).balls, bs, i, head, w, h);
  }

  /**
   * From index n - 1 on, a visit to ball n - 1 leaves the moved ball if the
   * head misses it, then the balls from n on, then the spawned ball if there
   * is one.
   */
  lemma VisitedTail(bs: seq<BallState>, n: nat, head: Point, w: real, h: real, next: BallState)
    requires 0 < n <= |bs|
    ensures var v := Visited(bs, n - 1, head, w, h, next);
      var b := Bounce(bs[n - 1], w, h);
      v.balls[n - 1..] == (if HeadHits(head, b) then [] else [b]) + bs[n..] + (if v.spawned == 1 then [next] else [])
  {
    var i := n - 1;
    var v := Visited(bs, i, head, w, h, next);
    var b := Bounce(bs[i], w, h);
    var added: seq<BallState> := if v.spawned == 1 then [next] else [];
    assert bs[i + 1..] == bs[n..];
    if HeadHits(head, b) {
      RemoveJoins(bs, i);
      assert v.balls == Remove(bs, i) + added;
      assert v.balls == bs[..i] + (bs[i + 1..] + added);
      DropJoined(bs[..i], bs[i + 1..] + added);
    } else {
      assert v.balls == bs[..i] + ([b] + bs[i + 1..]);
      DropJoined(bs[..i], [b] + bs[i + 1..]);
    }
  }

  /**
   * What a sweep from index i leaves: the survivors among the first i
   * balls, then the balls from i on as they were, then the balls it
   * spawned, in the order it took them.
   */
  ghost predicate LeavesSurvivors(r: Swept, bs: seq<BallState>, i: nat, head: Point, w: real, h: real,
                                  spawns: seq<BallState>, used: nat)
    requires i <= |bs| && used + i <= |spawns|
  {
    r.spawned <= i
    && r.balls == Survivors(bs, i, head, w, h) + bs[i..] + spawns[used..used + r.spawned]
  }

  /** Every sweep leaves what LeavesSurvivors describes. */
  lemma {:induction false} SweepKeepsSurvivors(bs: seq<BallState>, i: nat, head: Point, w: real, h: real,
                                               spawns: seq<BallState>, used: nat)
    requires i <= |bs| && used + i <= |spawns|
    ensures LeavesSurvivors(SweepFrom(bs, i, head, w, h, spawns, used), bs, i, head, w, h, spawns, used)
    decreases i
  {
    if i == 0 {
      assert bs[0..] == bs;
      assert spawns[used..used] == [];
      assert Survivors(bs, 0, head, w, h) + bs[0..] + spawns[used..used] == bs;
    } else {
      var v := Visited(bs, i - 1, head, w, h, spawns[used]);
      SweepKeepsSurvivors(v.balls, i - 1, head, w, h, spawns, used + v.spawned);
      VisitedKeepsSurvivors(bs, i, head, w, h, spawns, used);
    }
  }

  /** The inductive step of SweepKeepsSurvivors. */
  lemma VisitedKeepsSurvivors(bs: seq<BallState>, i: nat, head: Point, w: real, h: real, spawns: seq<BallState>,
                              used: nat)
    requires 0 < i <= |bs| && used + i <= |spawns|
    requires var v := Visited(bs, i - 1, head, w, h, spawns[used]);
      LeavesSurvivors(SweepFrom(v.balls, i - 1, head, w, h, spawns, used + v.spawned),
                      v.balls, i - 1, head, w, h, spawns, used + v.spawned)
    ensures LeavesSurvivors(SweepFrom(bs, i, head, w, h, spawns, used), bs, i, head, w, h, spawns, used)
  {
    var v := Visited(bs, i - 1, head, w, h, spawns[used]);
    var r := SweepFrom(v.balls, i - 1, head, w, h, spawns, used + v.spawned);
    var s := SweepFrom(bs, i, head, w, h, spawns, used);
    SweepStep(bs, i, head, w, h, spawns, used);
    VisitedSurvivors(bs, i - 1, head, w, h, spawns[used]);
    VisitedTail(bs, i, head, w, h, spawns[used]);
    SurvivorsStep(bs, i, head, w, h, spawns, used, v.balls, v.spawned, r, s);
  }

  /**
   * The sequence work of VisitedKeepsSurvivors: after the visit to ball
   * n - 1, which leaves `visited` and spawns `first` balls, the sweep over
   * the balls before it leaves `r`, and the whole sweep leaves `s`.
   */
  lemma SurvivorsStep(bs: seq<BallState>, n: nat, head: Point, w: real, h: real, spawns: seq<BallState>, used: nat,
                      visited: seq<BallState>, first: nat, r: Swept, s: Swept)
    requires 0 < n <= |bs| && n - 1 <= |visited| && first <= 1 && used + n <= |spawns|
    requires s.balls == r.balls && s.spawned == first + r.spawned
    requires Survivors(visited, n - 1, head, w, h) == Survivors(bs, n - 1, head, w, h)
    requires var b := Bounce(bs[n - 1], w, h);
      visited[n - 1..] == (if HeadHits(head, b) then [] else [b]) + bs[n..] + (if first == 1 then [spawns[used]] else [])
    requires LeavesSurvivors(r, visited, n - 1, head, w, h, spawns, used + first)
    ensures LeavesSurvivors(s, bs, n, head, w, h, spawns, used)
  {
    SurvivorsJoin(bs, n, head, w, h, spawns, used, visited, first, r.spawned, s.spawned, r.balls, s.balls);
  }

  /** SurvivorsStep on the balls and spawn counts themselves. */
  lemma SurvivorsJoin(bs: seq<BallState>, n: nat, head: Point, w: real, h: real, spawns: seq<BallState>, used: nat,
                      visited: seq<BallState>, first: nat, rest: nat, total: nat, balls: seq<BallState>,
                      whole: seq<BallState>)
    requires 0 < n <= |bs| && n - 1 <= |visited| && first <= 1 && used + n <= |spawns|
    requires whole == balls && total == first + rest
    requires Survivors(visited, n - 1, head, w, h) == Survivors(bs, n - 1, head, w, h)
    requires var b := Bounce(bs[n - 1], w, h);
      visited[n - 1..] == (if HeadHits(head, b) then [] else [b]) + bs[n..] + (if first == 1 then [spawns[used]] else [])
    requires rest <= n - 1
      && balls == Survivors(visited, n - 1, head, w, h) + visited[n - 1..] + spawns[used + first..used + first + rest]
    ensures total <= n && whole == Survivors(bs, n, head, w, h) + bs[n..] + spawns[used..used + total]
  {
    var b := Bounce(bs[n - 1], w, h);
    var hit: seq<BallState> := if HeadHits(head, b) then [] else [b];
    var added: seq<BallState> := if first == 1 then [spawns[used]] else [];
    SpawnsSplit(spawns, used, first, rest);
    assert Survivors(bs, n, head, w, h) == Survivors(bs, n - 1, head, w, h) + hit;
    Regroup(Survivors(bs, n - 1, head, w, h), hit, bs[n..], added, spawns[used + first..used + first + rest]);
  }

  /** The spawns a sweep takes are those of its first visit followed by those of the rest. */
  lemma SpawnsSplit(spawns: seq<BallState>, used: nat, first: nat, rest: nat)
    requires first <= 1 && used + first + rest <= |spawns|
    ensures spawns[used..used + first + rest]
      == (if first == 1 then [spawns[used]] else []) + spawns[used + first..used + first + rest]
  {
  }

  /** Regrouping five concatenated runs of balls. */
  lemma Regroup(a: seq<BallState>, b: seq<BallState>, c: seq<BallState>, d: seq<BallState>, e: seq<BallState>)
    ensures a + (b + c + d) + e == (a + b) + c + (d + e)
  {
  }

  /**
   * A whole sweep leaves the balls the head did not touch, moved and in
   * their order, followed by the balls it spawned.
   */
  lemma SweepSurvivors(bs: seq<BallState>, head: Point, w: real, h: real, spawns: seq<BallState>)
    requires |bs| <= |spawns|
    ensures var r := SweepFrom(bs, |bs|, head, w, h, spawns, 0);
      r.spawned <= |bs| && r.balls == Survivors(bs, |bs|, head, w, h) + spawns[..r.spawned]
  {
    var r := SweepFrom(bs, |bs|, head, w, h, spawns, 0);
    SweepKeepsSurvivors(bs, |bs|, head, w, h, spawns, 0);
    NothingAfter(r.balls, Survivors(bs, |bs|, head, w, h), bs, spawns, r.spawned);
  }

  /** With no balls after index |bs| and spawns taken from 0, only the survivors and the spawns are left. */
  lemma NothingAfter(balls: seq<BallState>, kept: seq<BallState>, bs: seq<BallState>, spawns: seq<BallState>, k: nat)
    requires k <= |spawns| && balls == kept + bs[|bs|..] + spawns[0..k]
    ensures balls == kept + spawns[..k]
  {
    assert bs[|bs|..] == [];
    assert spawns[0..k] == spawns[..k];
  }

  /**
   * A sweep spawns no more balls than it eats; it never raises the count,
   * never takes a game of 5 or more below 5, and leaves a smaller game at
   * its size.
   */
  lemma {:induction false} SweepCounts(bs: seq<BallState>, i: nat, head: Point, w: real, h: real, spawns: seq<BallState>, used: nat)
    requires i <= |bs| && used + i <= |spawns|
    ensures var r := SweepFrom(bs, i, head, w, h, spawns, used);
      r.spawned <= r.eaten
      && |r.balls| + r.eaten == |bs| + r.spawned
      && |r.balls| <= |bs|
      && (|bs| >= MinBalls ==> |r.balls| >= MinBalls)
      && (|bs| >= MinBalls ==> |r.balls| == (if |bs| - r.eaten >= MinBalls then |bs| - r.eaten else MinBalls))
      && (|bs| < MinBalls ==> |r.balls| == |bs|)
    decreases i
  {
    if i > 0 {
      var v := Visited(bs, i - 1, head, w, h, spawns[used]);
      VisitedSpawns(bs, i - 1, head, w, h, spawns[used]);
      SweepCounts(v.balls, i - 1, head, w, h, spawns, used + v.spawned);
      var r := SweepFrom(v.balls, i - 1, head, w, h, spawns, used + v.spawned);
      SweepStep(bs, i, head, w, h, spawns, used);
      CountsCompose(|bs|, v.eaten, v.spawned, |v.balls|, r.eaten, r.spawned, |r.balls|);
    }
  }

  /**
   * The counting step of `SweepCounts`: a visit to a game of n balls that
   * leaves m, followed by a sweep of those m that leaves k.
   */
  lemma CountsCompose(n: nat, ve: nat, vs: nat, m: nat, re: nat, rs: nat, k: nat)
    requires ve <= 1 && vs <= ve && m + ve == n + vs
    requires vs == 1 <==> ve == 1 && n - 1 < MinBalls
    requires rs <= re && k + re == m + rs && k <= m
    requires m >= MinBalls ==> k == (if m - re >= MinBalls then m - re else MinBalls)
    requires m < MinBalls ==> k == m
    ensures vs + rs <= ve + re && k + (ve + re) == n + (vs + rs) && k <= n
    ensures n >= MinBalls ==> k >= MinBalls
    ensures n >= MinBalls ==> k == (if n - (ve + re) >= MinBalls then n - (ve + re) else MinBalls)
    ensures n < MinBalls ==> k == n
  {
  }

  /** A frame in which the head touches no ball just moves the first i balls. */
  lemma {:induction false} SweepNoHit(bs: seq<BallState>, i: nat, head: Point, w: real, h: real, spawns: seq<BallState>, used: nat)
    requires i <= |bs| && used + i <= |spawns|
    requires forall k :: 0 <= k < i ==> !HeadHits(head, Bounce(bs[k], w, h))
    ensures SweepFrom(bs, i, head, w, h, spawns, used) ==
      Swept(seq(|bs|, k requires 0 <= k < |bs| => if k < i then Bounce(bs[k], w, h) else bs[k]), 0, 0)
    decreases i
  {
    if i > 0 {
      var v := Visited(bs, i - 1, head, w, h, spawns[used]);
      assert v.balls == bs[i - 1 := Bounce(bs[i - 1], w, h)];
      SweepNoHit(v.balls, i - 1, head, w, h, spawns, used);
    }
  }

  /** The per-frame step keeps the game within 50 balls. */
  lemma SweepBounded(bs: seq<BallState>, i: nat, head: Point, w: real, h: real, spawns: seq<BallState>, used: nat)
    requires i <= |bs| && used + i <= |spawns| && |bs| <= MaxBalls
    ensures |SweepFrom(bs, i, head, w, h, spawns, used).balls| <= MaxBalls
  {
    SweepCounts(bs, i, head, w, h, spawns, used);
  }

  /** The smallest radius a ball can have: new balls are at least 15, and only balls of 10 or more split, in halves. */
  const MinRadius: real := 5.0

  /** A client coordinate in canvas coordinates: `event.clientX - rect.left` (or the y counterpart). */
  function ToCanvas(client: real, edge: real): (c: real)
    ensures c + edge == client
  {
    client - edge
  }

  /**
   * The whole canvas: its size, the balls' states, the snake and the last
   * pointer position.
   */
  class Arena {
    var width: real
    var height: real
    var balls: seq<BallState>
    var snake: Snake
    var mouseX: real
    var mouseY: real

    /** Never more than 50 balls, none smaller than radius 5, and a valid snake. */
    ghost predicate Valid()
      reads this, snake
    {
      snake.Valid() && |balls| <= MaxBalls && Sized(balls)
    }

    /** The effect's set-up on a w by h window, with the random balls drawn by the caller. */
    constructor (w: nat, h: nat, initial: seq<BallState>)
      requires |initial| == InitialCount(w, h)
      requires forall k :: 0 <= k < |initial| ==> Spawnable(initial[k], w as real, h as real)
      ensures Valid() && fresh(snake)
      ensures width == w as real && height == h as real && balls == initial
      ensures snake.segments == StartSegments(width, height) && snake.length == 15 && snake.score == 0
      ensures mouseX == width / 2.0 && mouseY == height / 2.0
    {
      width, height := w as real, h as real;
      var bs: seq<BallState> := [];
      var i := 0;
      while i < |initial|
        invariant 0 <= i <= |initial| && bs == initial[..i]
      {
        bs := bs + [initial[i]];
        i := i + 1;
      }
      balls := bs;
      snake := new Snake(w as real, h as real);
      mouseX, mouseY := w as real / 2.0, h as real / 2.0;
    }

    /** `resizeCanvas`: the canvas takes the window's size. */
    method Resize(w: nat, h: nat)
      modifies this
      ensures width == w as real && height == h as real
      ensures balls == old(balls) && snake == old(snake) && mouseX == old(mouseX) && mouseY == old(mouseY)
    {
      width, height := w as real, h as real;
    }

    /** `handleMouseMove`: the pointer in canvas coordinates. */
    method MouseMove(clientX: real, clientY: real, rectLeft: real, rectTop: real)
      modifies this
      ensures mouseX == ToCanvas(clientX, rectLeft) && mouseY == ToCanvas(clientY, rectTop)
      ensures balls == old(balls) && snake == old(snake) && width == old(width) && height == old(height)
    {
      mouseX, mouseY := ToCanvas(clientX, rectLeft), ToCanvas(clientY, rectTop);
    }

    /** `handleClick`, with the split's fragment count and velocities drawn by the caller. */
    method HandleClick(clientX: real, clientY: real, rectLeft: real, rectTop: real, vels: seq<Point>)
      returns (clicked: bool)
      requires Valid() && FragmentPlan(vels)
      modifies this
      ensures Valid()
      ensures balls == Click(old(balls), ToCanvas(clientX, rectLeft), ToCanvas(clientY, rectTop), vels)
      ensures clicked <==> LastHit(old(balls), ToCanvas(clientX, rectLeft), ToCanvas(clientY, rectTop), |old(balls)|).Some?
      ensures snake == old(snake) && width == old(width) && height == old(height)
      ensures mouseX == old(mouseX) && mouseY == old(mouseY)
    {
      balls, clicked := ClickBalls(balls, ToCanvas(clientX, rectLeft), ToCanvas(clientY, rectTop), vels);
    }

    /**
     * One animation frame: the balls are swept from the last to the first,
     * then the snake moves towards the pointer. The replacement balls are
     * drawn by the caller, one per ball the frame could eat.
     */
    method Animate(spawns: seq<BallState>, sqrt: real -> real)
      requires Valid() && SqrtSpec(sqrt) && |spawns| >= |balls|
      requires forall k :: 0 <= k < |spawns| ==> Spawnable(spawns[k], width, height)
      modifies this, snake
      ensures Valid()
      ensures var r := SweepFrom(old(balls), |old(balls)|, old(snake.segments[0]), width, height, spawns, 0);
        balls == r.balls
        && snake.score == old(snake.score) + r.eaten
        && snake.length == old(snake.length) + 3 * r.eaten
        && snake.segments == RelaxFrom(Advance(Grown(old(snake.segments), r.eaten), snake.length,
             Point(mouseX, mouseY), sqrt), 1, sqrt)
      ensures snake == old(snake) && width == old(width) && height == old(height)
      ensures mouseX == old(mouseX) && mouseY == old(mouseY)
    {
      SweepBalls(spawns);
      snake.Update(Point(mouseX, mouseY), sqrt);
    }

    /** The `for` loop over the balls, from the last to the first. */
    method SweepBalls(spawns: seq<BallState>)
      requires Valid() && |spawns| >= |balls|
      requires forall k :: 0 <= k < |spawns| ==> Spawnable(spawns[k], width, height)
      modifies this, snake
      ensures Valid()
      ensures var r := SweepFrom(old(balls), |old(balls)|, old(snake.segments[0]), width, height, spawns, 0);
        balls == r.balls
        && snake.segments == Grown(old(snake.segments), r.eaten)
        && snake.score == old(snake.score) + r.eaten
        && snake.length == old(snake.length) + 3 * r.eaten
      ensures snake == old(snake) && width == old(width) && height == old(height)
      ensures mouseX == old(mouseX) && mouseY == old(mouseY)
    {
      var bs, eaten, used := SweepValues(balls, snake.segments, width, height, spawns);
      SweepKeepsValid(balls, snake.segments[0], width, height, spawns);
      balls := bs;
      snake.GrowBy(eaten);
    }

    /**
     * The `for` loop over the balls, from the last to the first, on the
     * ball list: it also counts the balls eaten and the spawns used.
     */
    static method SweepValues(bs0: seq<BallState>, segs: seq<Point>, w: real, h: real, spawns: seq<BallState>)
      returns (bs: seq<BallState>, eaten: nat, used: nat)
      requires segs != [] && |spawns| >= |bs0|
      ensures Swept(bs, eaten, used) == SweepFrom(bs0, |bs0|, segs[0], w, h, spawns, 0)
    {
      bs := bs0;
      ghost var total := SweepFrom(bs, |bs|, segs[0], w, h, spawns, 0);
      eaten := 0;
      var i := |bs|;
      used := 0;
      while i > 0
        invariant 0 <= i <= |bs| && used + i <= |spawns|
        invariant var r := SweepFrom(bs, i, segs[0], w, h, spawns, used);
          r.balls == total.balls && eaten + r.eaten == total.eaten && used + r.spawned == total.spawned
        decreases i
      {
        SweepStep(bs, i, segs[0], w, h, spawns, used);
        bs, eaten, used := VisitBall(bs, i, segs, w, h, spawns, used, eaten);
        i := i - 1;
      }
    }

    /**
     * One turn of the loop on the ball list, with n balls still to visit:
     * ball n - 1 moves; if the snake's `checkCollision` then holds, it is
     * spliced out and counted as eaten and, when fewer than 5 balls are
     * left, spawns[used] is appended.
     */
    static method VisitBall(bs: seq<BallState>, n: nat, segs: seq<Point>, w: real, h: real,
                            spawns: seq<BallState>, used: nat, eaten: nat)
      returns (r: seq<BallState>, ate: nat, next: nat)
      requires 0 < n <= |bs| && used + n <= |spawns| && segs != []
      ensures var v := Visited(bs, n - 1, segs[0], w, h, spawns[used]);
        r == v.balls && ate == eaten + v.eaten && next == used + v.spawned
    {
      var i := n - 1;
      r := bs[i := Bounce(bs[i], w, h)];
      ate := eaten;
      next := used;
      if Collides(segs, r[i]) {
        ate := eaten + 1;
        assert Remove(r, i) == Remove(bs, i);
        r := Remove(r, i);
        if |r| < MinBalls {
          r := r + [spawns[used]];
          next := used + 1;
        }
      }
    }
  }
}
