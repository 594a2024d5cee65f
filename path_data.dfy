/**
 * The path data of one stroke: a list of SVG path commands, each a type letter
 * and its list of numbers, as `getPathData()` returns them.
 */
module PathData {
  import opened Geometry

  /** `M` (move to) and `C` (cubic Bézier curve to). */
  datatype Kind = M | C

  datatype Command = Command(kind: Kind, values: seq<real>)

  /**
   * The shape every stroke keeps: one `M` with two numbers first, then only
   * `C`s with six numbers (first control point, second control point, end point).
   */
  predicate WellFormed(pts: seq<Command>) {
    forall i :: 0 <= i < |pts| ==>
      if i == 0 then pts[i].kind == M && |pts[i].values| == 2
      else pts[i].kind == C && |pts[i].values| == 6
  }

  /** Every command carries at least an end point. */
  predicate HasEndpoints(pts: seq<Command>) {
    forall i :: 0 <= i < |pts| ==> |pts[i].values| >= 2
  }

  /** The point a command ends at: its last two numbers. */
  function Endpoint(c: Command): Point
    requires |c.values| >= 2
  {
    Point(c.values[|c.values| - 2], c.values[|c.values| - 1])
  }

  /** The end points of the commands, in order: the points the stroke passes through. */
  function Endpoints(pts: seq<Command>): (ps: seq<Point>)
    requires HasEndpoints(pts)
    ensures |ps| == |pts|
  {
    seq(|pts|, i requires 0 <= i < |pts| => Endpoint(pts[i]))
  }

  /**
   * The samples a stroke keeps, as a rule on points alone: once two samples are
   * kept, a sample equal to either of the last two kept ones is dropped.
   */
  function Accept(kept: seq<Point>, p: Point): seq<Point> {
    if |kept| >= 2 && (p == kept[|kept| - 1] || p == kept[|kept| - 2]) then kept
    else kept + [p]
  }

  /** `Accept` applied to each sample in arrival order. */
  function AcceptAll(kept: seq<Point>, samples: seq<Point>): seq<Point>
    decreases |samples|
  {
    if samples == [] then kept else AcceptAll(Accept(kept, samples[0]), samples[1..])
  }

  /**
   * From the third point on, no point repeats either of the two before it;
   * stated on the last point and the rest, see `NoShortRepeatsAt` for the
   * pointwise form.
   */
  predicate NoShortRepeats(ps: seq<Point>)
    decreases |ps|
  {
    var n := |ps|;
    n <= 2 || (ps[n - 1] != ps[n - 2] && ps[n - 1] != ps[n - 3] && NoShortRepeats(ps[..n - 1]))
  }

  /** `NoShortRepeats` is the pointwise condition on every point from the third on. */
  lemma {:induction false} NoShortRepeatsAt(ps: seq<Point>)
    ensures NoShortRepeats(ps) <==> forall i :: 2 <= i < |ps| ==> ps[i] != ps[i - 1] && ps[i] != ps[i - 2]
    decreases |ps|
  {
    var n := |ps|;
    if n > 2 {
      var front := ps[..n - 1];
      NoShortRepeatsAt(front);
      assert forall i :: 0 <= i < n - 1 ==> front[i] == ps[i];
    }
  }

  /** Keeping samples by `Accept` never introduces a short repeat. */
  lemma AcceptKeepsNoShortRepeats(kept: seq<Point>, p: Point)
    requires NoShortRepeats(kept)
    ensures NoShortRepeats(Accept(kept, p))
  {
    assert (kept + [p])[..|kept|] == kept;
  }

  /** The kept samples are the earlier ones, possibly followed by the new one. */
  lemma {:induction false} AcceptAllExtends(kept: seq<Point>, samples: seq<Point>)
    ensures |kept| <= |AcceptAll(kept, samples)| <= |kept| + |samples|
    ensures AcceptAll(kept, samples)[..|kept|] == kept
    decreases |samples|
  {
    if samples != [] {
      var next := Accept(kept, samples[0]);
      AcceptAllExtends(next, samples[1..]);
      assert next[..|kept|] == kept;
    }
  }
}
