/**
 * The projective transformations the builders produce: translation, rigid
 * motion, similarity and general affine map, each a fixed 3x3 matrix whose
 * bottom row is (0, 0, 1).
 */
module LinearTransformations {
  import opened Outcomes
  import opened Geometry
  import opened Matrices
  import opened Transformations

  const BottomRow := Vec3(0.0, 0.0, 1.0)

  /** `TranslationTransformation(x, y)`. */
  function TranslationTransformation(x: real, y: real): Transformation
  {
    Projective(Mat3(Vec3(1.0, 0.0, x), Vec3(0.0, 1.0, y), BottomRow))
  }

  /** `RigidTransformation(theta, t)`, with theta given by its cosine and sine. */
  function RigidTransformation(theta: Angle, t: Point): Transformation
  {
    Projective(Mat3(Vec3(theta.cos, -theta.sin, t.x), Vec3(theta.sin, theta.cos, t.y), BottomRow))
  }

  /** `SimilarityTransformation(a, b, tx, ty)`. */
  function SimilarityTransformation(a: real, b: real, tx: real, ty: real): Transformation
  {
    Projective(Mat3(Vec3(a, -b, tx), Vec3(b, a, ty), BottomRow))
  }

  /** `AffineTransformation(a00, a01, a02, a10, a11, a12)`. */
  function AffineTransformation(a00: real, a01: real, a02: real, a10: real, a11: real, a12: real): Transformation
  {
    Projective(Mat3(Vec3(a00, a01, a02), Vec3(a10, a11, a12), BottomRow))
  }

  /** A projective transformation whose matrix has bottom row (0, 0, 1). */
  predicate IsAffine(t: Transformation)
  {
    t.Projective? && t.m.r2 == BottomRow
  }

  /** The image (a00 x + a01 y + a02, a10 x + a11 y + a12) of a point under the top two rows. */
  function AffineImage(m: Mat3, p: Point): Point
  {
    Point(m.r0.x * p.x + m.r0.y * p.y + m.r0.z, m.r1.x * p.x + m.r1.y * p.y + m.r1.z)
  }

  /** The rotation of a vector by an angle. */
  function Rotate(theta: Angle, v: Point): Point
  {
    Point(theta.cos * v.x - theta.sin * v.y, theta.sin * v.x + theta.cos * v.y)
  }

  /** Every transformation the builders produce has bottom row (0, 0, 1). */
  lemma BuiltAreAffine(theta: Angle, t: Point, a: real, b: real, c: real, d: real, e: real, f: real)
    ensures IsAffine(TranslationTransformation(a, b))
    ensures IsAffine(RigidTransformation(theta, t))
    ensures IsAffine(SimilarityTransformation(a, b, c, d))
    ensures IsAffine(AffineTransformation(a, b, c, d, e, f))
  {
  }

  /**
   * With bottom row (0, 0, 1) the homogeneous coordinate is 1: the point is
   * always defined and no division changes it.
   */
  lemma AffineApply(t: Transformation, p: Point)
    requires IsAffine(t)
    ensures Apply(t, p) == Some(AffineImage(t.m, p))
  {
    var q := AffineImage(t.m, p);
    assert MatVec(t.m, Homogeneous(p)) == Vec3(q.x, q.y, 1.0);
    DivideByOne(q.x, q.y);
  }

  lemma DivideByOne(x: real, y: real)
    ensures Dehomogenize(Vec3(x, y, 1.0)) == Some(Point(x, y))
  {
  }

  /** The composition of two affine maps is the affine map of the matrix product. */
  lemma AffineCompose(t1: Transformation, t2: Transformation, p: Point)
    requires IsAffine(t1) && IsAffine(t2)
    ensures IsAffine(Compose(t1, t2))
    ensures Apply(Compose(t1, t2), p) == Some(AffineImage(t1.m, AffineImage(t2.m, p)))
  {
    AffineApply(t2, p);
    ComposeApply(t1, t2, p);
    AffineApply(t1, AffineImage(t2.m, p));
  }

  /** A translation moves every point by (x, y). */
  lemma TranslationApply(x: real, y: real, p: Point)
    ensures Apply(TranslationTransformation(x, y), p) == Some(Add(p, Point(x, y)))
  {
    var t := TranslationTransformation(x, y);
    AffineApply(t, p);
    TranslationImage(x, y, p);
  }

  lemma TranslationImage(x: real, y: real, p: Point)
    ensures AffineImage(TranslationTransformation(x, y).m, p) == Add(p, Point(x, y))
  {
    var q := AffineImage(TranslationTransformation(x, y).m, p);
    assert q.x == p.x + x;
    assert q.y == p.y + y;
  }

  /** Two translations compose into the translation by the sum of their shifts. */
  lemma TranslationCompose(x1: real, y1: real, x2: real, y2: real)
    ensures Compose(TranslationTransformation(x1, y1), TranslationTransformation(x2, y2))
            == TranslationTransformation(x1 + x2, y1 + y2)
  {
  }

  /** A rigid motion rotates about the origin and then translates; the origin goes to `t`. */
  lemma RigidApply(theta: Angle, t: Point, p: Point)
    ensures Apply(RigidTransformation(theta, t), p) == Some(Add(Rotate(theta, p), t))
    ensures Apply(RigidTransformation(theta, t), Origin) == Some(t)
  {
    RigidIsSimilarity(theta, t);
    SimilarityApply(theta.cos, theta.sin, t.x, t.y, p);
    SimilarityApply(theta.cos, theta.sin, t.x, t.y, Origin);
    RigidImage(theta, t, p);
    RigidImage(theta, t, Origin);
    assert Rotate(theta, Origin) == Origin;
  }

  lemma RigidImage(theta: Angle, t: Point, p: Point)
    ensures SimilarityImage(theta.cos, theta.sin, t.x, t.y, p) == Add(Rotate(theta, p), t)
  {
    var q := SimilarityImage(theta.cos, theta.sin, t.x, t.y, p);
    var r := Add(Rotate(theta, p), t);
    assert q.x == r.x;
    assert q.y == r.y;
  }

  /** A rigid motion is the similarity with a = cos theta and b = sin theta. */
  lemma RigidIsSimilarity(theta: Angle, t: Point)
    ensures RigidTransformation(theta, t) == SimilarityTransformation(theta.cos, theta.sin, t.x, t.y)
  {
  }

  /** (a dx - b dy)^2 + (b dx + a dy)^2 = (a^2 + b^2)(dx^2 + dy^2). */
  lemma SimilarityIdentity(a: real, b: real, dx: real, dy: real)
    ensures (a * dx - b * dy) * (a * dx - b * dy) + (b * dx + a * dy) * (b * dx + a * dy)
            == (a * a + b * b) * (dx * dx + dy * dy)
  {
  }

  /** The image of a point under `SimilarityTransformation(a, b, tx, ty)`. */
  function SimilarityImage(a: real, b: real, tx: real, ty: real, p: Point): Point
  {
    Point(a * p.x - b * p.y + tx, b * p.x + a * p.y + ty)
  }

  lemma SimilarityApply(a: real, b: real, tx: real, ty: real, p: Point)
    ensures Apply(SimilarityTransformation(a, b, tx, ty), p) == Some(SimilarityImage(a, b, tx, ty, p))
  {
    var t := SimilarityTransformation(a, b, tx, ty);
    AffineApply(t, p);
    SimilarityMatrixImage(a, b, tx, ty, p);
  }

  lemma SimilarityMatrixImage(a: real, b: real, tx: real, ty: real, p: Point)
    ensures AffineImage(SimilarityTransformation(a, b, tx, ty).m, p) == SimilarityImage(a, b, tx, ty, p)
  {
    SimilarityMatrixImageX(a, b, tx, ty, p);
    SimilarityMatrixImageY(a, b, tx, ty, p);
  }

  lemma SimilarityMatrixImageX(a: real, b: real, tx: real, ty: real, p: Point)
    ensures AffineImage(SimilarityTransformation(a, b, tx, ty).m, p).x == SimilarityImage(a, b, tx, ty, p).x
  {
  }

  lemma SimilarityMatrixImageY(a: real, b: real, tx: real, ty: real, p: Point)
    ensures AffineImage(SimilarityTransformation(a, b, tx, ty).m, p).y == SimilarityImage(a, b, tx, ty, p).y
  {
  }

  lemma SimilarityDifference(a: real, b: real, tx: real, ty: real, px: real, py: real, qx: real, qy: real)
    ensures (a * qx - b * qy + tx) - (a * px - b * py + tx) == a * (qx - px) - b * (qy - py)
    ensures (b * qx + a * qy + ty) - (b * px + a * py + ty) == b * (qx - px) + a * (qy - py)
  {
  }

  /** A similarity multiplies every squared distance by a^2 + b^2. */
  lemma SimilarityScalesDistances(a: real, b: real, tx: real, ty: real, p: Point, q: Point)
    ensures SqDist(SimilarityImage(a, b, tx, ty, p), SimilarityImage(a, b, tx, ty, q))
            == (a * a + b * b) * SqDist(p, q)
  {
    var dx, dy := q.x - p.x, q.y - p.y;
    SimilarityDifference(a, b, tx, ty, p.x, p.y, q.x, q.y);
    assert Sub(SimilarityImage(a, b, tx, ty, q), SimilarityImage(a, b, tx, ty, p))
           == Point(a * dx - b * dy, b * dx + a * dy);
    SimilarityIdentity(a, b, dx, dy);
  }

  /** A rigid motion whose angle has cos^2 + sin^2 = 1 keeps every distance. */
  lemma RigidIsometry(theta: Angle, t: Point, p: Point, q: Point)
    requires IsUnit(theta)
    ensures Apply(RigidTransformation(theta, t), p).Some?
    ensures Apply(RigidTransformation(theta, t), q).Some?
    ensures SqDist(Apply(RigidTransformation(theta, t), p).value,
                   Apply(RigidTransformation(theta, t), q).value)
            == SqDist(p, q)
  {
    RigidAsSimilarity(theta, t, p);
    RigidAsSimilarity(theta, t, q);
    var p', q' := SimilarityImage(theta.cos, theta.sin, t.x, t.y, p), SimilarityImage(theta.cos, theta.sin, t.x, t.y, q);
    SimilarityScalesDistances(theta.cos, theta.sin, t.x, t.y, p, q);
    UnitFactorOne(theta.cos * theta.cos + theta.sin * theta.sin, SqDist(p, q), SqDist(p', q'));
  }

  lemma RigidAsSimilarity(theta: Angle, t: Point, p: Point)
    ensures Apply(RigidTransformation(theta, t), p) == Some(SimilarityImage(theta.cos, theta.sin, t.x, t.y, p))
  {
    RigidIsSimilarity(theta, t);
    SimilarityApply(theta.cos, theta.sin, t.x, t.y, p);
  }

  /** A distance scaled by a factor of one is unchanged. */
  lemma UnitFactorOne(k: real, d: real, e: real)
    requires k == 1.0 && e == k * d
    ensures e == d
  {
  }
}
