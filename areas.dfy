/**
 * Legal paths: where the destination of the next dragged point may lie, and
 * the projection that moves a dropped point onto that place.
 */
module Areas {
  import opened Outcomes
  import opened Geometry

  /** `size`: the Euclidean length of a vector. */
  function Size(sqrt: real -> real, v: Point): real
  {
    sqrt(SqSize(v))
  }

  /** `distance`: the length of the vector from the first point to the second. */
  function Distance(sqrt: real -> real, p: Point, q: Point): real
  {
    Size(sqrt, Sub(q, p))
  }

  datatype LegalPath =
    | Unconstrained                         // the base LegalPath
    | AllLegal                              // AllLegalPath: the whole plane
    | Circle(center: Point, radius: real)   // CirclePath: the circle of that radius

  /** A circle path is only ever built with a positive radius. */
  predicate ValidPath(l: LegalPath)
  {
    l.Circle? ==> 0.0 < l.radius
  }

  /** The `CirclePath` constructor, which refuses a radius that is not positive. */
  function NewCirclePath(center: Point, radius: real): (r: Result<LegalPath>)
    ensures r.Ok? <==> 0.0 < radius
    ensures r.Ok? ==> r.value == Circle(center, radius) && ValidPath(r.value)
    ensures r.Err? ==> r.error == DegenerateConstraint
  {
    if 0.0 < radius then Ok(Circle(center, radius)) else Err(DegenerateConstraint)
  }

  /**
   * `project_point`. The whole plane and the base path keep the point; a
   * circle moves it along the ray from the centre, and moves the centre
   * itself, which has no ray, straight up by the radius.
   */
  function Project(sqrt: real -> real, l: LegalPath, p: Point): Point
  {
    match l
    case Unconstrained => p
    case AllLegal => p
    case Circle(center, radius) =>
      var moved := Sub(p, center);
      var s := Size(sqrt, moved);
      var onCircle := if s == 0.0 then Point(0.0, radius) else Scale(Div(moved, s), radius);
      Add(center, onCircle)
  }

  /** `size` is the true length: never negative, squaring to the squared length, zero only at the origin. */
  lemma SizeIsLength(sqrt: real -> real, v: Point)
    requires ExactSqrt(sqrt)
    ensures 0.0 <= Size(sqrt, v)
    ensures Size(sqrt, v) * Size(sqrt, v) == SqSize(v)
    ensures Size(sqrt, v) == 0.0 <==> v == Origin
  {
    var a := SqSize(v);
    SqSizeZero(v);
    SqrtSquare(sqrt, a);
    SqrtPositive(sqrt, a);
  }

  /** The distance is symmetric, and zero exactly between equal points. */
  lemma DistanceIsMetric(sqrt: real -> real, p: Point, q: Point)
    requires ExactSqrt(sqrt)
    ensures Distance(sqrt, p, q) == Distance(sqrt, q, p)
    ensures 0.0 <= Distance(sqrt, p, q)
    ensures Distance(sqrt, p, q) == 0.0 <==> p == q
  {
    var d, e := Sub(q, p), Sub(p, q);
    assert SqSize(d) == SqSize(e);
    SizeIsLength(sqrt, d);
    SubZero(q, p);
  }

  /** The whole plane and the base path leave every point where it is. */
  lemma ProjectIdentity(sqrt: real -> real, p: Point)
    ensures Project(sqrt, AllLegal, p) == p
    ensures Project(sqrt, Unconstrained, p) == p
  {
  }

  /** The centre of a circle is projected straight up by the radius. */
  lemma ProjectCentre(sqrt: real -> real, center: Point, radius: real)
    requires ExactSqrt(sqrt)
    ensures Project(sqrt, Circle(center, radius), center) == Add(center, Point(0.0, radius))
  {
    SubZero(center, center);
    SizeIsLength(sqrt, Origin);
  }

  /**
   * Any other point goes to the point of the circle on the ray from the centre
   * through it: its offset from the centre is a positive multiple of the
   * point's own offset.
   */
  lemma ProjectOnRay(sqrt: real -> real, center: Point, radius: real, p: Point)
    requires ExactSqrt(sqrt)
    requires 0.0 < radius && p != center
    ensures Size(sqrt, Sub(p, center)) != 0.0
    ensures 0.0 < radius / Size(sqrt, Sub(p, center))
    ensures Sub(Project(sqrt, Circle(center, radius), p), center)
            == Scale(Sub(p, center), radius / Size(sqrt, Sub(p, center)))
  {
    var moved := Sub(p, center);
    var s := Size(sqrt, moved);
    SubZero(p, center);
    SizeIsLength(sqrt, moved);
    var q := Scale(Div(moved, s), radius);
    AddSub(center, q);
    ScaleOfQuotient(moved.x, s, radius);
    ScaleOfQuotient(moved.y, s, radius);
    QuotientPositive(radius, s);
  }

  lemma AddSub(c: Point, q: Point)
    ensures Sub(Add(c, q), c) == q
  {
  }

  lemma ScaleOfQuotient(a: real, s: real, r: real)
    requires s != 0.0
    ensures a / s * r == a * (r / s)
  {
  }

  lemma QuotientPositive(r: real, s: real)
    requires 0.0 < r && 0.0 < s
    ensures 0.0 < r / s
  {
  }

  /**
   * The projection onto a circle lies on it: at squared distance radius^2 from
   * the centre and at distance radius (the two asserts of `project_point`, here
   * exact).
   */
  lemma ProjectOnCircle(sqrt: real -> real, center: Point, radius: real, p: Point)
    requires ExactSqrt(sqrt)
    requires 0.0 < radius
    ensures SqDist(center, Project(sqrt, Circle(center, radius), p)) == radius * radius
    ensures Distance(sqrt, center, Project(sqrt, Circle(center, radius), p)) == radius
  {
    var res := Project(sqrt, Circle(center, radius), p);
    if p == center {
      SqrtIs(sqrt, 0.0, 0.0);
      CentreOffset(sqrt, center, radius);
    } else {
      var moved := Sub(p, center);
      SubZero(p, center);
      SizeIsLength(sqrt, moved);
      RayOffset(sqrt, center, radius, p);
    }
    DistanceFromSquare(sqrt, center, res, radius);
  }

  /** A point at squared distance r^2 is at distance r. */
  lemma DistanceFromSquare(sqrt: real -> real, p: Point, q: Point, r: real)
    requires ExactSqrt(sqrt)
    requires 0.0 <= r && SqDist(p, q) == r * r
    ensures Distance(sqrt, p, q) == r
  {
    SqrtIs(sqrt, SqDist(p, q), r);
  }

  lemma CentreOffset(sqrt: real -> real, center: Point, radius: real)
    requires sqrt(0.0) == 0.0
    ensures SqDist(center, Project(sqrt, Circle(center, radius), center)) == radius * radius
  {
    var up := Point(0.0, radius);
    SubZero(center, center);
    assert Project(sqrt, Circle(center, radius), center) == Add(center, up);
    AddSub(center, up);
    assert SqSize(up) == radius * radius;
  }

  lemma RayOffset(sqrt: real -> real, center: Point, radius: real, p: Point)
    requires 0.0 < radius
    requires 0.0 < Size(sqrt, Sub(p, center))
    requires Size(sqrt, Sub(p, center)) * Size(sqrt, Sub(p, center)) == SqSize(Sub(p, center))
    ensures SqDist(center, Project(sqrt, Circle(center, radius), p)) == radius * radius
  {
    var moved := Sub(p, center);
    var s := Size(sqrt, moved);
    var k := radius / s;
    var q := Scale(Div(moved, s), radius);
    AddSub(center, q);
    ScaleOfQuotient(moved.x, s, radius);
    ScaleOfQuotient(moved.y, s, radius);
    assert q == Scale(moved, k);
    SqSizeScale(moved, k);
    QuotientSquare(radius, s, SqSize(moved));
  }

  lemma SqSizeScale(v: Point, k: real)
    ensures SqSize(Scale(v, k)) == k * k * SqSize(v)
  {
  }

  lemma QuotientSquare(r: real, s: real, q: real)
    requires 0.0 < s && s * s == q
    ensures r / s * (r / s) * q == r * r
  {
    var k := r / s;
    assert k * s == r;
    assert k * k * q == (k * s) * (k * s);
  }

  /** A point already on the circle is left where it is. */
  lemma ProjectIdempotent(sqrt: real -> real, center: Point, radius: real, p: Point)
    requires ExactSqrt(sqrt)
    requires 0.0 < radius && SqDist(center, p) == radius * radius
    ensures Project(sqrt, Circle(center, radius), p) == p
  {
    var moved := Sub(p, center);
    SqrtIs(sqrt, SqSize(moved), radius);
    DivideMultiply(moved.x, radius);
    DivideMultiply(moved.y, radius);
    assert Scale(Div(moved, radius), radius) == moved;
  }

  lemma DivideMultiply(a: real, r: real)
    requires r != 0.0
    ensures a / r * r == a
  {
  }

  /** Projecting twice is projecting once. */
  lemma ProjectTwice(sqrt: real -> real, l: LegalPath, p: Point)
    requires ExactSqrt(sqrt) && ValidPath(l)
    ensures Project(sqrt, l, Project(sqrt, l, p)) == Project(sqrt, l, p)
  {
    if l.Circle? {
      var q := Project(sqrt, l, p);
      ProjectOnCircle(sqrt, l.center, l.radius, p);
      ProjectIdempotent(sqrt, l.center, l.radius, q);
    }
  }
}
