/** Points of the drawing surface and the distance between them (`dist`). */
module Geometry {

  datatype Point = Point(x: real, y: real)

  function Abs(r: real): real {
    if r < 0.0 then -r else r
  }

  /** `k * d`, named so that the homogeneity axiom of `HypotLike` has a trigger. */
  function Scale(k: real, d: real): real {
    k * d
  }

  /**
   * What the model relies on about `Math.hypot`, the Euclidean length of a
   * vector: it is never negative, it is positive on every non-zero vector, and
   * scaling a vector by `k` scales its length by `|k|`.  Rounding is not modelled.
   */
  ghost predicate HypotLike(hypot: (real, real) -> real) {
    NonNegative(hypot) && PositiveOffOrigin(hypot) && Homogeneous(hypot)
  }

  ghost predicate NonNegative(hypot: (real, real) -> real) {
    forall dx, dy :: hypot(dx, dy) >= 0.0
  }

  ghost predicate PositiveOffOrigin(hypot: (real, real) -> real) {
    forall dx, dy :: dx != 0.0 || dy != 0.0 ==> hypot(dx, dy) > 0.0
  }

  ghost predicate Homogeneous(hypot: (real, real) -> real) {
    forall k, dx, dy :: hypot(Scale(k, dx), Scale(k, dy)) == Abs(k) * hypot(dx, dy)
  }

  /** The taxicab length: one function that meets every requirement of `HypotLike`. */
  function Taxicab(dx: real, dy: real): real {
    Abs(dx) + Abs(dy)
  }

  lemma AbsOfProduct(k: real, d: real)
    ensures Abs(k * d) == Abs(k) * Abs(d)
  {
    if k < 0.0 && d < 0.0 {
      assert k * d == (-k) * (-d);
    } else if k < 0.0 {
      assert -(k * d) == (-k) * d;
    } else if d < 0.0 {
      assert -(k * d) == k * (-d);
    }
  }

  lemma TaxicabHomogeneous(k: real, dx: real, dy: real)
    ensures Taxicab(Scale(k, dx), Scale(k, dy)) == Abs(k) * Taxicab(dx, dy)
  {
    AbsOfProduct(k, dx);
    AbsOfProduct(k, dy);
    assert Abs(k) * (Abs(dx) + Abs(dy)) == Abs(k) * Abs(dx) + Abs(k) * Abs(dy);
  }

  lemma TaxicabIsHomogeneous()
    ensures Homogeneous(Taxicab)
  {
    var h := Taxicab;
    forall k, dx, dy ensures h(Scale(k, dx), Scale(k, dy)) == Abs(k) * h(dx, dy) {
      TaxicabHomogeneous(k, dx, dy);
    }
  }

  /** `HypotLike` can be met, so no member that requires it is vacuous. */
  lemma HypotLikeIsSatisfiable()
    ensures HypotLike(Taxicab)
  {
    assert NonNegative(Taxicab);
    assert PositiveOffOrigin(Taxicab);
    TaxicabIsHomogeneous();
  }

  /** The length of the zero vector is zero. */
  lemma HypotOfZero(hypot: (real, real) -> real)
    requires HypotLike(hypot)
    ensures hypot(0.0, 0.0) == 0.0
  {
    assert hypot(Scale(0.0, 0.0), Scale(0.0, 0.0)) == Abs(0.0) * hypot(0.0, 0.0);
  }

  /** `dist(x1, y1, x2, y2)`: the length of the vector from `a` to `b`. */
  function Dist(hypot: (real, real) -> real, a: Point, b: Point): (d: real)
    requires HypotLike(hypot)
    ensures d >= 0.0
    ensures d == 0.0 <==> a == b
  {
    HypotOfZero(hypot);
    hypot(b.x - a.x, b.y - a.y)
  }

  /** The distance does not depend on the direction in which it is measured. */
  lemma DistSymmetric(hypot: (real, real) -> real, a: Point, b: Point)
    requires HypotLike(hypot)
    ensures Dist(hypot, a, b) == Dist(hypot, b, a)
  {
    assert a.x - b.x == Scale(-1.0, b.x - a.x);
    assert a.y - b.y == Scale(-1.0, b.y - a.y);
    assert hypot(Scale(-1.0, b.x - a.x), Scale(-1.0, b.y - a.y)) == Abs(-1.0) * hypot(b.x - a.x, b.y - a.y);
  }
}
