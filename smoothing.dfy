/**
 * The effect of `addPoint` on a stroke's path data, as a function, and what it
 * guarantees: the first two samples, the duplicate drop, the smoothing step that
 * amends the previous curve and appends a new one, and the control points.
 */
module Smoothing {
  import opened Geometry
  import opened PathData

  /** `ANGULARITY`: the lower it is, the longer the tangent handles. */
  const Angularity: real := 3.0

  /**
   * Once the path has two commands, a sample equal to the end point of the last
   * or of the second-to-last command is dropped.
   */
  predicate IsDuplicate(pts: seq<Command>, p: Point)
    requires HasEndpoints(pts)
  {
    |pts| >= 2 && (p == Endpoint(pts[|pts| - 1]) || p == Endpoint(pts[|pts| - 2]))
  }

  /**
   * The two control points placed around `prev` when `p` follows it and `ante`
   * precedes it: `cx1, cy1` (end of the curve into `prev`) and `cx2, cy2`
   * (start of the curve out of `prev`).
   */
  function ControlPoints(hypot: (real, real) -> real, ante: Point, prev: Point, p: Point): (Point, Point)
    requires HypotLike(hypot)
    requires p != ante
  {
    var vectx, vecty := p.x - ante.x, p.y - ante.y;
    var norm := hypot(vectx, vecty);
    var dist1 := Dist(hypot, ante, prev) / norm;
    var dist2 := Dist(hypot, p, prev) / norm;
    var vx, vy := vectx / Angularity, vecty / Angularity;
    (Point(prev.x - dist1 * vx, prev.y - dist1 * vy), Point(prev.x + dist2 * vx, prev.y + dist2 * vy))
  }

  /** The path data after `addPoint` is given the sample `p`. */
  function NextPath(hypot: (real, real) -> real, pts: seq<Command>, p: Point): (r: seq<Command>)
    requires HypotLike(hypot)
    requires WellFormed(pts)
    ensures WellFormed(r)
  {
    var nbr := |pts|;
    if nbr == 0 then
      [Command(M, [p.x, p.y])]
    else if nbr == 1 then
      pts + [Command(C, [pts[0].values[0], pts[0].values[1], p.x, p.y, p.x, p.y])]
    else if IsDuplicate(pts, p) then
      pts
    else
      var (c1, c2) := ControlPoints(hypot, Endpoint(pts[nbr - 2]), Endpoint(pts[nbr - 1]), p);
      var amended := Command(C, pts[nbr - 1].values[2 := c1.x][3 := c1.y]);
      pts[nbr - 1 := amended] + [Command(C, [c2.x, c2.y, p.x, p.y, p.x, p.y])]
  }

  /** The path data after `addPoint` is given each of `samples` in turn. */
  function NextPathAll(hypot: (real, real) -> real, pts: seq<Command>, samples: seq<Point>): (r: seq<Command>)
    requires HypotLike(hypot)
    requires WellFormed(pts)
    ensures WellFormed(r)
    decreases |samples|
  {
    if samples == [] then pts else NextPathAll(hypot, NextPath(hypot, pts, samples[0]), samples[1..])
  }

  /** The invariant of every stroke: well formed, and no short repeats among its end points. */
  predicate StrokeOk(pts: seq<Command>) {
    WellFormed(pts) && NoShortRepeats(Endpoints(pts))
  }

  /** First sample: a move to it. Second sample: a straight curve from the first to it. */
  lemma FirstTwoSamples(hypot: (real, real) -> real, pts: seq<Command>, p: Point)
    requires HypotLike(hypot)
    requires WellFormed(pts) && |pts| <= 1
    ensures |pts| == 0 ==> NextPath(hypot, pts, p) == [Command(M, [p.x, p.y])]
    ensures |pts| == 1 ==>
      var p0 := Endpoint(pts[0]);
      NextPath(hypot, pts, p) == pts + [Command(C, [p0.x, p0.y, p.x, p.y, p.x, p.y])]
  {
  }

  /** `addPoint` leaves the path as it is exactly when the sample is a duplicate. */
  lemma UnchangedIffDuplicate(hypot: (real, real) -> real, pts: seq<Command>, p: Point)
    requires HypotLike(hypot)
    requires WellFormed(pts)
    ensures NextPath(hypot, pts, p) == pts <==> IsDuplicate(pts, p)
  {
    var r := NextPath(hypot, pts, p);
    if !IsDuplicate(pts, p) {
      assert |r| == |pts| + 1;
    }
  }

  /**
   * The smoothing step: one new curve `C[cx2, cy2, x, y, x, y]` is appended, the
   * previous command has only its numbers 2 and 3 replaced by `cx1, cy1`, and
   * every earlier command is kept.
   */
  lemma SmoothingStep(hypot: (real, real) -> real, pts: seq<Command>, p: Point)
    requires HypotLike(hypot)
    requires WellFormed(pts) && |pts| >= 2 && !IsDuplicate(pts, p)
    ensures
      var n, r := |pts|, NextPath(hypot, pts, p);
      var (c1, c2) := ControlPoints(hypot, Endpoint(pts[n - 2]), Endpoint(pts[n - 1]), p);
      && |r| == n + 1
      && r[..n - 1] == pts[..n - 1]
      && r[n - 1] == Command(C, pts[n - 1].values[2 := c1.x][3 := c1.y])
      && r[n] == Command(C, [c2.x, c2.y, p.x, p.y, p.x, p.y])
  {
  }

  /**
   * The only command `addPoint` may change is the last one; it never removes a
   * command and adds at most one.
   */
  lemma AppendOnly(hypot: (real, real) -> real, pts: seq<Command>, p: Point)
    requires HypotLike(hypot)
    requires WellFormed(pts)
    ensures var r := NextPath(hypot, pts, p);
      && |pts| <= |r| <= |pts| + 1
      && (|pts| > 0 ==> r[..|pts| - 1] == pts[..|pts| - 1])
      && (|r| == |pts| + 1 ==> Endpoint(r[|pts|]) == p)
  {
  }

  /** The end points of the new path are the kept samples under `Accept`. */
  lemma NextPathEndpoints(hypot: (real, real) -> real, pts: seq<Command>, p: Point)
    requires HypotLike(hypot)
    requires WellFormed(pts)
    ensures Endpoints(NextPath(hypot, pts, p)) == Accept(Endpoints(pts), p)
  {
    var r := NextPath(hypot, pts, p);
    var n := |pts|;
    if n >= 2 && !IsDuplicate(pts, p) {
      assert Endpoint(r[n - 1]) == Endpoint(pts[n - 1]);
      forall i | 0 <= i < n ensures Endpoints(r)[i] == Endpoints(pts)[i] {
        if i < n - 1 {
          assert r[i] == pts[i];
        }
      }
    }
  }

  /** `addPoint` keeps the stroke invariant. */
  lemma NextPathKeepsStrokeOk(hypot: (real, real) -> real, pts: seq<Command>, p: Point)
    requires HypotLike(hypot)
    requires StrokeOk(pts)
    ensures StrokeOk(NextPath(hypot, pts, p))
  {
    NextPathEndpoints(hypot, pts, p);
    AcceptKeepsNoShortRepeats(Endpoints(pts), p);
  }

  /**
   * Feeding a stroke a sequence of samples: the end points of the commands are,
   * in order, exactly the samples that were kept.
   */
  lemma {:induction false} NextPathAllEndpoints(hypot: (real, real) -> real, pts: seq<Command>, samples: seq<Point>)
    requires HypotLike(hypot)
    requires WellFormed(pts)
    ensures Endpoints(NextPathAll(hypot, pts, samples)) == AcceptAll(Endpoints(pts), samples)
    decreases |samples|
  {
    if samples != [] {
      NextPathEndpoints(hypot, pts, samples[0]);
      NextPathAllEndpoints(hypot, NextPath(hypot, pts, samples[0]), samples[1..]);
    }
  }

  /** A stroke drawn from nothing passes through exactly its kept samples and keeps its invariant. */
  lemma {:induction false} StrokeFromSamples(hypot: (real, real) -> real, samples: seq<Point>)
    requires HypotLike(hypot)
    ensures Endpoints(NextPathAll(hypot, [], samples)) == AcceptAll([], samples)
    ensures NoShortRepeats(AcceptAll([], samples))
  {
    NextPathAllEndpoints(hypot, [], samples);
    AcceptAllKeepsNoShortRepeats([], samples);
  }

  lemma {:induction false} AcceptAllKeepsNoShortRepeats(kept: seq<Point>, samples: seq<Point>)
    requires NoShortRepeats(kept)
    ensures NoShortRepeats(AcceptAll(kept, samples))
    decreases |samples|
  {
    if samples != [] {
      AcceptKeepsNoShortRepeats(kept, samples[0]);
      AcceptAllKeepsNoShortRepeats(Accept(kept, samples[0]), samples[1..]);
    }
  }

  /**
   * The control points by their formulas, with `norm`, the length of
   * `p - ante`, never zero because `p` differs from `ante`.
   */
  lemma ControlPointFormulas(hypot: (real, real) -> real, ante: Point, prev: Point, p: Point)
    requires HypotLike(hypot)
    requires p != ante
    ensures
      var norm := Dist(hypot, ante, p);
      var dist1, dist2 := Dist(hypot, ante, prev) / norm, Dist(hypot, p, prev) / norm;
      var (c1, c2) := ControlPoints(hypot, ante, prev, p);
      && norm > 0.0
      && c1 == Point(prev.x - dist1 * (p.x - ante.x) / 3.0, prev.y - dist1 * (p.y - ante.y) / 3.0)
      && c2 == Point(prev.x + dist2 * (p.x - ante.x) / 3.0, prev.y + dist2 * (p.y - ante.y) / 3.0)
  {
  }

  /**
   * The control points are `prev` moved along `v = p - ante` by `-k1` and `k2`
   * times, where `k1` and `k2` are the neighbouring chords over `|v|`, over 3.
   */
  lemma ControlOffsets(hypot: (real, real) -> real, ante: Point, prev: Point, p: Point)
    requires HypotLike(hypot)
    requires p != ante
    ensures
      var vx, vy := p.x - ante.x, p.y - ante.y;
      var norm := hypot(vx, vy);
      var k1 := Dist(hypot, ante, prev) / norm / Angularity;
      var k2 := Dist(hypot, p, prev) / norm / Angularity;
      var cs := ControlPoints(hypot, ante, prev, p);
      && norm > 0.0 && k1 >= 0.0 && k2 >= 0.0
      && cs.0.x - prev.x == -k1 * vx && cs.0.y - prev.y == -k1 * vy
      && cs.1.x - prev.x == k2 * vx && cs.1.y - prev.y == k2 * vy
  {
    var vx, vy := p.x - ante.x, p.y - ante.y;
    var norm := hypot(vx, vy);
    var d1, d2 := Dist(hypot, ante, prev), Dist(hypot, p, prev);
    assert norm > 0.0;
    QuotientNonNegative(d1, norm);
    QuotientNonNegative(d2, norm);
    ThirdOfProduct(d1 / norm, vx);
    ThirdOfProduct(d1 / norm, vy);
    ThirdOfProduct(d2 / norm, vx);
    ThirdOfProduct(d2 / norm, vy);
  }

  /** A chord over a positive length, over 3, is not negative. */
  lemma QuotientNonNegative(d: real, norm: real)
    requires d >= 0.0 && norm > 0.0
    ensures d / norm / Angularity >= 0.0
  {
  }

  /** Dividing the vector by 3 first (`vectx /= ANGULARITY`) is dividing the factor by 3. */
  lemma ThirdOfProduct(a: real, b: real)
    ensures a * (b / Angularity) == (a / Angularity) * b
  {
  }

  /** `c - o` is parallel to `(vx, vy)`: their cross product is zero. */
  predicate Parallel(o: Point, c: Point, vx: real, vy: real) {
    (c.x - o.x) * vy == (c.y - o.y) * vx
  }

  /** `c - o` does not point against `(vx, vy)`: their dot product is not negative. */
  predicate Forward(o: Point, c: Point, vx: real, vy: real) {
    (c.x - o.x) * vx + (c.y - o.y) * vy >= 0.0
  }

  /**
   * Points `-k1` and `k2` times `(vx, vy)` away from `o`, for non-negative `k1`
   * and `k2`, are on the line through `o` along `(vx, vy)`, on either side of `o`.
   */
  lemma OppositeOffsets(o: Point, c1: Point, c2: Point, k1: real, k2: real, vx: real, vy: real)
    requires k1 >= 0.0 && k2 >= 0.0
    requires c1.x - o.x == -k1 * vx && c1.y - o.y == -k1 * vy
    requires c2.x - o.x == k2 * vx && c2.y - o.y == k2 * vy
    ensures Parallel(o, c1, vx, vy) && Parallel(o, c2, vx, vy)
    ensures Forward(c1, o, vx, vy) && Forward(o, c2, vx, vy)
  {
    var square := vx * vx + vy * vy;
    assert vx * vx >= 0.0 && vy * vy >= 0.0;
    assert (o.x - c1.x) * vx + (o.y - c1.y) * vy == k1 * square;
    assert (c2.x - o.x) * vx + (c2.y - o.y) * vy == k2 * square;
  }

  /**
   * Both control points lie on the line through `prev` parallel to `p - ante`,
   * the one before `prev` back along `p - ante` and the one after it forward:
   * the curve has one tangent at `prev`.
   */
  lemma ControlPointsOnTangent(hypot: (real, real) -> real, ante: Point, prev: Point, p: Point)
    requires HypotLike(hypot)
    requires p != ante
    ensures
      var vx, vy := p.x - ante.x, p.y - ante.y;
      var cs := ControlPoints(hypot, ante, prev, p);
      && Parallel(prev, cs.0, vx, vy) && Parallel(prev, cs.1, vx, vy)
      && Forward(cs.0, prev, vx, vy) && Forward(prev, cs.1, vx, vy)
  {
    var norm := hypot(p.x - ante.x, p.y - ante.y);
    var k1 := Dist(hypot, ante, prev) / norm / Angularity;
    var k2 := Dist(hypot, p, prev) / norm / Angularity;
    var cs := ControlPoints(hypot, ante, prev, p);
    ControlOffsets(hypot, ante, prev, p);
    OppositeOffsets(prev, cs.0, cs.1, k1, k2, p.x - ante.x, p.y - ante.y);
  }

  /** A point `k` times `(vx, vy)` away from `prev` is `|k|` times that vector's length away. */
  lemma ScaledOffset(hypot: (real, real) -> real, prev: Point, c: Point, k: real, vx: real, vy: real)
    requires HypotLike(hypot)
    requires c.x - prev.x == k * vx && c.y - prev.y == k * vy
    ensures Dist(hypot, prev, c) == Abs(k) * hypot(vx, vy)
  {
    assert c.x - prev.x == Scale(k, vx) && c.y - prev.y == Scale(k, vy);
  }

  /** An offset of `d / |v| / 3` times `v`, either way, is `d / 3` long. */
  lemma ThirdOfChord(hypot: (real, real) -> real, prev: Point, c: Point, k: real, d: real, vx: real, vy: real)
    requires HypotLike(hypot)
    requires d >= 0.0 && hypot(vx, vy) > 0.0
    requires k == d / hypot(vx, vy) / Angularity || k == -(d / hypot(vx, vy) / Angularity)
    requires c.x - prev.x == k * vx && c.y - prev.y == k * vy
    ensures Dist(hypot, prev, c) == d / Angularity
  {
    var norm := hypot(vx, vy);
    ScaledOffset(hypot, prev, c, k, vx, vy);
    assert Abs(k) == d / norm / Angularity;
    assert Abs(k) * norm == d / Angularity;
  }

  /**
   * The handles are a third of the neighbouring chords: the control point
   * before `prev` is `|ante prev| / 3` away from it, the one after `|prev p| / 3`.
   */
  lemma HandleLengths(hypot: (real, real) -> real, ante: Point, prev: Point, p: Point)
    requires HypotLike(hypot)
    requires p != ante
    ensures
      var cs := ControlPoints(hypot, ante, prev, p);
      && Dist(hypot, prev, cs.0) == Dist(hypot, ante, prev) / Angularity
      && Dist(hypot, prev, cs.1) == Dist(hypot, p, prev) / Angularity
  {
    var vx, vy := p.x - ante.x, p.y - ante.y;
    var norm := hypot(vx, vy);
    var d1, d2 := Dist(hypot, ante, prev), Dist(hypot, p, prev);
    var cs := ControlPoints(hypot, ante, prev, p);
    ControlOffsets(hypot, ante, prev, p);
    ThirdOfChord(hypot, prev, cs.0, -(d1 / norm / Angularity), d1, vx, vy);
    ThirdOfChord(hypot, prev, cs.1, d2 / norm / Angularity, d2, vx, vy);
  }
}
