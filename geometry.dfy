/**
 * Plane points and the vector arithmetic the engine uses on them (the
 * operators of Qt's QPointF), rotation angles, and the square root.
 *
 * Dafny's `real` has no square root, and none can be defined in it, so the
 * square root that the engine takes is a parameter `sqrt` of every operation
 * that needs one. `ExactSqrt(sqrt)` says that the parameter is the true
 * square root; the properties that depend on it assume it.
 */
module Geometry {

  datatype Point = Point(x: real, y: real)

  const Origin := Point(0.0, 0.0)

  function Add(p: Point, q: Point): Point { Point(p.x + q.x, p.y + q.y) }

  function Sub(p: Point, q: Point): Point { Point(p.x - q.x, p.y - q.y) }

  function Scale(p: Point, k: real): Point { Point(p.x * k, p.y * k) }

  function Div(p: Point, k: real): Point
    requires k != 0.0
  {
    Point(p.x / k, p.y / k)
  }

  /** The squared Euclidean length of a vector. */
  function SqSize(v: Point): real { v.x * v.x + v.y * v.y }

  /** The squared Euclidean distance between two points. */
  function SqDist(p: Point, q: Point): real { SqSize(Sub(q, p)) }

  /**
   * A rotation angle, represented by its cosine and its sine: every use the
   * engine makes of an angle goes through math.cos and math.sin.
   */
  datatype Angle = Angle(cos: real, sin: real)

  /** A true angle: its cosine and sine lie on the unit circle. */
  predicate IsUnit(a: Angle)
  {
    a.cos * a.cos + a.sin * a.sin == 1.0
  }

  /** `sqrt` returns the non-negative square root of every non-negative real. */
  ghost predicate ExactSqrt(sqrt: real -> real)
  {
    forall a: real {:trigger sqrt(a)} :: 0.0 <= a ==> 0.0 <= sqrt(a) && sqrt(a) * sqrt(a) == a
  }

  /** The product of two positive reals is positive. */
  lemma MulPositive(a: real, b: real)
    requires 0.0 < a && 0.0 < b
    ensures 0.0 < a * b
  {
  }

  predicate Positive(e: real) { 0.0 < e }

  /**
   * A sum of two squares, not both of them zero, is positive. The sum is
   * handed back as `e`, so that callers see the positivity of the very
   * polynomial their own terms unfold to.
   */
  lemma SumOfSquaresPositive(a: real, b: real) returns (e: real)
    requires a != 0.0 || b != 0.0
    ensures e == a * a + b * b && Positive(e)
  {
    e := a * a + b * b;
    assert Positive(a * a + b * b);
  }

  /** A squared length is never negative, and is zero only for the zero vector. */
  lemma SqSizeZero(v: Point)
    ensures 0.0 <= SqSize(v)
    ensures SqSize(v) == 0.0 <==> v == Origin
  {
    if v != Origin {
      var e := SumOfSquaresPositive(v.x, v.y);
    }
  }

  /** The squared distance is zero exactly between equal points. */
  lemma SqDistZero(p: Point, q: Point)
    ensures 0.0 <= SqDist(p, q)
    ensures SqDist(p, q) == 0.0 <==> p == q
  {
    var d := Sub(q, p);
    SqSizeZero(d);
    SubZero(q, p);
  }

  lemma SubZero(p: Point, q: Point)
    ensures Sub(p, q) == Origin <==> p == q
  {
  }

  /** Two non-negative reals with the same square are equal. */
  lemma SquareInjective(r: real, s: real)
    requires 0.0 <= r && 0.0 <= s && r * r == s * s
    ensures r == s
  {
    if r < s {
      MulPositive(s - r, s + r);
    } else if s < r {
      MulPositive(r - s, r + s);
    }
  }

  /** An exact square root is determined by its square. */
  lemma SqrtIs(sqrt: real -> real, a: real, r: real)
    requires ExactSqrt(sqrt)
    requires 0.0 <= r && r * r == a
    ensures sqrt(a) == r
  {
    assert 0.0 <= a;
    SquareInjective(sqrt(a), r);
  }

  /** An exact square root is non-negative and squares back to its argument. */
  lemma SqrtSquare(sqrt: real -> real, a: real)
    requires ExactSqrt(sqrt)
    requires 0.0 <= a
    ensures 0.0 <= sqrt(a) && sqrt(a) * sqrt(a) == a
  {
  }

  /** The square root of a positive number is positive, that of zero is zero. */
  lemma SqrtPositive(sqrt: real -> real, a: real)
    requires ExactSqrt(sqrt)
    requires 0.0 <= a
    ensures sqrt(a) == 0.0 <==> a == 0.0
    ensures 0.0 < a ==> 0.0 < sqrt(a)
  {
    if a == 0.0 {
      SqrtIs(sqrt, a, 0.0);
    }
  }
}
