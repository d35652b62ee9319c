/**
 * Transformation builders: immutable accumulators of (source, destination)
 * pairs. Each kind of builder needs a fixed number of pairs; each new pair's
 * destination is first projected onto the builder's legal path; once the
 * builder is done it fits a transformation to the pairs.
 *
 * This module holds the pair bookkeeping and the translation and rigid fits;
 * the fits that go through a linear system are in `Fits`.
 */
module Builders {
  import opened Outcomes
  import opened Geometry
  import opened Transformations
  import opened LinearTransformations
  import opened Areas

  datatype Kind = TranslationKind | RigidKind | SimilarityKind | AffineKind

  /** `SrcDst`: a source point and the destination it is dragged to. */
  datatype SrcDst = SrcDst(src: Point, dst: Point)

  /** A builder of some kind with the pairs committed so far, oldest first. */
  datatype Builder = Builder(kind: Kind, pairs: seq<SrcDst>)

  /** `n_pairs` of each kind. */
  function NPairs(kind: Kind): nat
  {
    match kind
    case TranslationKind => 1
    case RigidKind => 2
    case SimilarityKind => 2
    case AffineKind => 3
  }

  /** A fresh builder, with no pairs. */
  function NewBuilder(kind: Kind): Builder
  {
    Builder(kind, [])
  }

  /** Every builder the engine creates holds at most its kind's number of pairs. */
  predicate Valid(b: Builder)
  {
    |b.pairs| <= NPairs(b.kind)
  }

  /** `is_done`. */
  predicate IsDone(b: Builder)
  {
    |b.pairs| == NPairs(b.kind)
  }

  /** `sources`: the committed source points, in commit order. */
  function Sources(b: Builder): (r: seq<Point>)
    ensures |r| == |b.pairs|
    ensures forall k :: 0 <= k < |b.pairs| ==> r[k] == b.pairs[k].src
  {
    seq(|b.pairs|, k requires 0 <= k < |b.pairs| => b.pairs[k].src)
  }

  /**
   * `legal_path(src)`: the whole plane, except for the second pair of a rigid
   * builder, whose destination must lie on the circle around the first
   * destination through which the second source keeps its distance from the
   * first source. A rigid builder asks for it with at most one pair; the
   * circle is refused when the new source is the first source (radius 0).
   */
  function LegalPathFor(sqrt: real -> real, b: Builder, src: Point): (r: Result<LegalPath>)
    requires b.kind == RigidKind ==> |b.pairs| <= 1
    ensures r.Ok? ==> ValidPath(r.value)
  {
    if b.kind == RigidKind && |b.pairs| == 1 then
      NewCirclePath(b.pairs[0].dst, Distance(sqrt, b.pairs[0].src, src))
    else
      Ok(AllLegal)
  }

  /** The only legal path refused is the circle for a second rigid source equal to the first. */
  lemma LegalPathRefused(sqrt: real -> real, b: Builder, src: Point)
    requires ExactSqrt(sqrt) && Valid(b) && !IsDone(b)
    ensures LegalPathFor(sqrt, b, src).Err? <==> b.kind == RigidKind && |b.pairs| == 1 && src == b.pairs[0].src
  {
    if b.kind == RigidKind && |b.pairs| == 1 {
      DistanceIsMetric(sqrt, b.pairs[0].src, src);
    }
  }

  /**
   * `move_point(src, dst)` on a builder that is not done: a new builder of the
   * same kind with one more pair, whose destination is `dst` projected onto
   * the legal path for `src`. The receiver, a value, is unchanged.
   */
  function MovePoint(sqrt: real -> real, b: Builder, src: Point, dst: Point): (r: Result<Builder>)
    requires Valid(b) && !IsDone(b)
    ensures r.Ok? ==> r.value.kind == b.kind
    ensures r.Ok? ==> |r.value.pairs| == |b.pairs| + 1 && r.value.pairs[..|b.pairs|] == b.pairs
    ensures r.Ok? ==> r.value.pairs[|b.pairs|].src == src
    ensures r.Ok? ==> LegalPathFor(sqrt, b, src).Ok? && r.value.pairs[|b.pairs|].dst == Project(sqrt, LegalPathFor(sqrt, b, src).value, dst)
    ensures r.Err? <==> LegalPathFor(sqrt, b, src).Err?
  {
    var path :- LegalPathFor(sqrt, b, src);
    Ok(Builder(b.kind, b.pairs + [SrcDst(src, Project(sqrt, path, dst))]))
  }

  /** A builder is done exactly after its kind's number of moves. */
  lemma MovePointCounts(sqrt: real -> real, b: Builder, src: Point, dst: Point)
    requires Valid(b) && !IsDone(b)
    requires MovePoint(sqrt, b, src, dst).Ok?
    ensures Valid(MovePoint(sqrt, b, src, dst).value)
    ensures IsDone(MovePoint(sqrt, b, src, dst).value) <==> |b.pairs| + 1 == NPairs(b.kind)
  {
  }

  /** The sources after a move are the old sources followed by the new one. */
  lemma SourcesAfterMove(sqrt: real -> real, b: Builder, src: Point, dst: Point)
    requires Valid(b) && !IsDone(b) && MovePoint(sqrt, b, src, dst).Ok?
    ensures Sources(MovePoint(sqrt, b, src, dst).value) == Sources(b) + [src]
  {
  }

  /** Translation, similarity and affine builders, and a rigid one's first pair, keep `dst` as it is. */
  lemma UnconstrainedMove(sqrt: real -> real, b: Builder, src: Point, dst: Point)
    requires Valid(b) && !IsDone(b)
    requires b.kind != RigidKind || |b.pairs| == 0
    ensures MovePoint(sqrt, b, src, dst).Ok?
    ensures MovePoint(sqrt, b, src, dst).value.pairs == b.pairs + [SrcDst(src, dst)]
  {
  }

  /**
   * The second pair of a rigid builder: it is refused exactly when its source
   * is the first source, and otherwise its destination is as far from the
   * first destination as its source is from the first source.
   */
  lemma RigidSecondMove(sqrt: real -> real, b: Builder, src: Point, dst: Point)
    requires ExactSqrt(sqrt)
    requires b.kind == RigidKind && |b.pairs| == 1
    ensures MovePoint(sqrt, b, src, dst).Err? <==> src == b.pairs[0].src
    ensures MovePoint(sqrt, b, src, dst).Ok? ==>
              SqDist(b.pairs[0].dst, MovePoint(sqrt, b, src, dst).value.pairs[1].dst)
              == SqDist(b.pairs[0].src, src)
  {
    var first := b.pairs[0];
    var r := Distance(sqrt, first.src, src);
    DistanceIsMetric(sqrt, first.src, src);
    if src != first.src {
      ProjectOnCircle(sqrt, first.dst, r, dst);
      SizeIsLength(sqrt, Sub(src, first.src));
    }
  }

  /**
   * The pairs a rigid builder holds after its moves: a second pair has a
   * source other than the first, and its destination keeps the distance
   * between the sources.
   */
  predicate RigidConsistent(b: Builder)
  {
    b.kind == RigidKind && |b.pairs| == 2 ==>
      b.pairs[0].src != b.pairs[1].src &&
      SqDist(b.pairs[0].dst, b.pairs[1].dst) == SqDist(b.pairs[0].src, b.pairs[1].src)
  }

  /** Every move keeps a builder consistent. */
  lemma MovePointConsistent(sqrt: real -> real, b: Builder, src: Point, dst: Point)
    requires ExactSqrt(sqrt) && Valid(b) && !IsDone(b) && RigidConsistent(b)
    requires MovePoint(sqrt, b, src, dst).Ok?
    ensures RigidConsistent(MovePoint(sqrt, b, src, dst).value)
  {
    if b.kind == RigidKind && |b.pairs| == 1 {
      RigidSecondMove(sqrt, b, src, dst);
    }
  }

  /** The translation builder's `get_transformation`: the shift from its source to its destination. */
  function TranslationGetTransformation(b: Builder): Transformation
    requires b.kind == TranslationKind && IsDone(b)
  {
    var shift := Sub(b.pairs[0].dst, b.pairs[0].src);
    TranslationTransformation(shift.x, shift.y)
  }

  /** The fitted translation moves the source exactly onto the destination. */
  lemma TranslationFit(b: Builder)
    requires b.kind == TranslationKind && IsDone(b)
    ensures IsAffine(TranslationGetTransformation(b))
    ensures Apply(TranslationGetTransformation(b), b.pairs[0].src) == Some(b.pairs[0].dst)
  {
    var sd := b.pairs[0];
    var shift := Sub(sd.dst, sd.src);
    TranslationApply(shift.x, shift.y, sd.src);
    assert Add(sd.src, Point(shift.x, shift.y)) == sd.dst;
  }

  /**
   * `angle(p1, p2)`, given by its cosine and sine. The angle is measured from
   * the y axis: acos((y2 - y1) / distance), whose sine is the non-negative
   * root of 1 - cos^2; pi/2 where the points share their y coordinate; and
   * reflected to 2 pi minus itself (same cosine, opposite sine) where p1 lies
   * to the right of p2.
   */
  function Bearing(sqrt: real -> real, p1: Point, p2: Point): Angle
    requires ExactSqrt(sqrt)
  {
    var res := if p1.y == p2.y then Angle(0.0, 1.0) else ArcCosine(sqrt, p1, p2);
    if p1.x > p2.x then Angle(res.cos, -res.sin) else res
  }

  /** acos((y2 - y1) / distance), for points at different heights. */
  function ArcCosine(sqrt: real -> real, p1: Point, p2: Point): Angle
    requires ExactSqrt(sqrt) && p1.y != p2.y
  {
    DistanceIsMetric(sqrt, p1, p2);
    FromCosine(sqrt, (p2.y - p1.y) / Distance(sqrt, p1, p2))
  }

  /** The angle in [0, pi] with cosine c: its sine is the root of 1 - c^2. */
  function FromCosine(sqrt: real -> real, c: real): Angle
  {
    Angle(c, sqrt(1.0 - c * c))
  }

  /** The angle a - b, by the angle-difference identities. */
  function AngleDifference(a: Angle, b: Angle): Angle
  {
    Angle(a.cos * b.cos + a.sin * b.sin, a.sin * b.cos - a.cos * b.sin)
  }

  /** The rotation of the rigid fit: the source bearing minus the destination bearing. */
  function RigidRotation(sqrt: real -> real, sd1: SrcDst, sd2: SrcDst): Angle
    requires ExactSqrt(sqrt)
  {
    AngleDifference(Bearing(sqrt, sd1.src, sd2.src), Bearing(sqrt, sd1.dst, sd2.dst))
  }

  /** The translation of the rigid fit before truncation: R(-src1) + dst1. */
  function RigidShift(theta: Angle, sd1: SrcDst): Point
  {
    Add(Rotate(theta, Sub(Origin, sd1.src)), sd1.dst)
  }

  /** Python's `int()` of a float, which the QPoint constructor applies: truncation toward zero. */
  function Truncate(r: real): int
  {
    if 0.0 <= r then r.Floor else -((-r).Floor)
  }

  /** The rigid fit for a given rotation as written: the shift goes through an integer QPoint. */
  function RigidFromAngleAsWritten(theta: Angle, sd1: SrcDst): Transformation
  {
    var t := RigidShift(theta, sd1);
    RigidTransformation(theta, Point(Truncate(t.x) as real, Truncate(t.y) as real))
  }

  /** The rigid fit for a given rotation, keeping the exact shift. */
  function RigidFromAngle(theta: Angle, sd1: SrcDst): Transformation
  {
    RigidTransformation(theta, RigidShift(theta, sd1))
  }

  /** The rigid builder's `get_transformation`, with the exact shift. */
  function RigidGetTransformation(sqrt: real -> real, b: Builder): Transformation
    requires ExactSqrt(sqrt)
    requires b.kind == RigidKind && IsDone(b)
  {
    RigidFromAngle(RigidRotation(sqrt, b.pairs[0], b.pairs[1]), b.pairs[0])
  }

  lemma RotateLinear(theta: Angle, u: Point, v: Point)
    ensures Add(Rotate(theta, u), Rotate(theta, v)) == Rotate(theta, Add(u, v))
  {
    var l, r := Add(Rotate(theta, u), Rotate(theta, v)), Rotate(theta, Add(u, v));
    assert l.x == r.x;
    assert l.y == r.y;
  }

  /**
   * Whatever the rotation, the exact rigid fit moves the first source onto
   * the first destination; it moves the second source onto the second
   * destination whenever the rotation turns the source segment into the
   * destination segment.
   */
  lemma RigidFit(theta: Angle, sd1: SrcDst, sd2: SrcDst)
    ensures Apply(RigidFromAngle(theta, sd1), sd1.src) == Some(sd1.dst)
    ensures Rotate(theta, Sub(sd2.src, sd1.src)) == Sub(sd2.dst, sd1.dst) ==>
              Apply(RigidFromAngle(theta, sd1), sd2.src) == Some(sd2.dst)
  {
    var t := RigidShift(theta, sd1);
    var back := Sub(Origin, sd1.src);
    RigidApply(theta, t, sd1.src);
    RigidApply(theta, t, sd2.src);
    RotateLinear(theta, sd1.src, back);
    assert Add(sd1.src, back) == Origin;
    assert Rotate(theta, Origin) == Origin;
    RotateLinear(theta, sd2.src, back);
    assert Add(sd2.src, back) == Sub(sd2.src, sd1.src);
  }

  /**
   * For distinct points the bearing is the unit vector from the first to the
   * second, read as (cosine, sine) = (dy / distance, dx / distance).
   */
  lemma BearingIs(sqrt: real -> real, p1: Point, p2: Point)
    requires ExactSqrt(sqrt) && p1 != p2
    ensures 0.0 < Distance(sqrt, p1, p2)
    ensures Bearing(sqrt, p1, p2)
            == Angle((p2.y - p1.y) / Distance(sqrt, p1, p2), (p2.x - p1.x) / Distance(sqrt, p1, p2))
  {
    var d := Distance(sqrt, p1, p2);
    DistanceIsMetric(sqrt, p1, p2);
    SizeIsLength(sqrt, Sub(p2, p1));
    var dx, dy := p2.x - p1.x, p2.y - p1.y;
    if p1.y == p2.y {
      UnitOnAxis(dx, d);
    } else {
      var c := dy / d;
      var s := Abs(dx) / d;
      assert d * d == dx * dx + dy * dy;
      SineFromCosine(dx, dy, d);
      assert s * s == 1.0 - c * c;
      FromCosineIs(sqrt, c, s);
      assert ArcCosine(sqrt, p1, p2) == FromCosine(sqrt, c);
      NegateQuotient(dx, d);
    }
  }

  /** The sine of the angle with cosine c is the non-negative s with s^2 = 1 - c^2. */
  lemma FromCosineIs(sqrt: real -> real, c: real, s: real)
    requires ExactSqrt(sqrt) && 0.0 <= s && s * s == 1.0 - c * c
    ensures FromCosine(sqrt, c) == Angle(c, s)
  {
    SqrtIs(sqrt, 1.0 - c * c, s);
  }

  function Abs(r: real): real { if r < 0.0 then -r else r }

  /** A non-zero number over its own absolute value is its sign. */
  lemma UnitOnAxis(dx: real, d: real)
    requires 0.0 < d && d * d == dx * dx + 0.0 * 0.0
    ensures dx / d == if dx < 0.0 then -1.0 else 1.0
    ensures dx > 0.0 || dx < 0.0
  {
    if dx < 0.0 {
      assert (-dx) * (-dx) == dx * dx;
      SquareInjective(d, -dx);
      assert dx == -d;
    } else {
      SquareInjective(d, dx);
      assert dx == d;
      assert d / d == 1.0;
    }
  }

  /** A number that leaves a non-zero square unchanged is one. */
  lemma UnitFactor(x: real, d: real, k: real)
    requires d != 0.0 && k == d * d && x * k == k
    ensures x == 1.0
  {
    var y := (x - 1.0) * d;
    assert y * d == 0.0;
    assert y == 0.0;
  }

  lemma SumTimes(x: real, y: real, k: real, p: real, q: real)
    requires x * k == p && y * k == q
    ensures (x + y) * k == p + q
  {
  }

  /** The coordinates (u, v) of a vector over its length d satisfy u^2 + v^2 = 1. */
  lemma UnitSquares(a: real, b: real, d: real, u: real, v: real)
    requires d != 0.0 && d * d == a * a + b * b && u * d == a && v * d == b
    ensures u * u + v * v == 1.0
  {
    var k := d * d;
    var uu, vv, aa, bb := u * u, v * v, a * a, b * b;
    assert uu * k == aa by { assert (u * u) * (d * d) == (u * d) * (u * d); }
    assert vv * k == bb by { assert (v * v) * (d * d) == (v * d) * (v * d); }
    var s := uu + vv;
    SumTimes(uu, vv, k, aa, bb);
    assert k == aa + bb;
    assert s * k == aa + bb;
    UnitFactor(s, d, k);
  }

  /** With u = a / d and v = b / d for the length d of (a, b): u^2 + v^2 = 1. */
  lemma SquaresOverLength(a: real, b: real, d: real)
    requires 0.0 < d && d * d == a * a + b * b
    ensures a / d * d == a && b / d * d == b
    ensures a / d * (a / d) + b / d * (b / d) == 1.0
  {
    UnitSquares(a, b, d, a / d, b / d);
  }

  /** With d the length of (dx, dy): 1 - (dy / d)^2 is (|dx| / d)^2. */
  lemma SineFromCosine(dx: real, dy: real, d: real)
    requires 0.0 < d && d * d == dx * dx + dy * dy
    ensures 0.0 <= Abs(dx) / d
    ensures 1.0 - dy / d * (dy / d) == Abs(dx) / d * (Abs(dx) / d)
  {
    var a := Abs(dx);
    assert a * a == dx * dx;
    SquaresOverLength(a, dy, d);
  }

  lemma NegateQuotient(a: real, d: real)
    requires d != 0.0
    ensures -(Abs(a) / d) == (if a < 0.0 then a / d else -(a / d))
  {
  }

  /** Turning the unit vector (u, v) by the angle that takes it to the unit vector (p, q), x part. */
  lemma TurnX(u: real, v: real, p: real, q: real, d: real)
    requires u * u + v * v == 1.0
    ensures (v * q + u * p) * (u * d) - (u * q - v * p) * (v * d) == p * d
  {
    assert (v * q + u * p) * (u * d) - (u * q - v * p) * (v * d) == p * d * (u * u + v * v);
  }

  /** The same, y part. */
  lemma TurnY(u: real, v: real, p: real, q: real, d: real)
    requires u * u + v * v == 1.0
    ensures (u * q - v * p) * (u * d) + (v * q + u * p) * (v * d) == q * d
  {
    assert (u * q - v * p) * (u * d) + (v * q + u * p) * (v * d) == q * d * (u * u + v * v);
  }

  /**
   * Distinct sources whose destinations are as far apart: both segments have
   * the same positive length d, and their bearings are their unit vectors.
   */
  lemma SegmentBearings(sqrt: real -> real, sd1: SrcDst, sd2: SrcDst) returns (d: real)
    requires ExactSqrt(sqrt)
    requires sd1.src != sd2.src && SqDist(sd1.dst, sd2.dst) == SqDist(sd1.src, sd2.src)
    ensures 0.0 < d
    ensures d * d == SqSize(Sub(sd2.src, sd1.src)) && d * d == SqSize(Sub(sd2.dst, sd1.dst))
    ensures Bearing(sqrt, sd1.src, sd2.src) == Angle((sd2.src.y - sd1.src.y) / d, (sd2.src.x - sd1.src.x) / d)
    ensures Bearing(sqrt, sd1.dst, sd2.dst) == Angle((sd2.dst.y - sd1.dst.y) / d, (sd2.dst.x - sd1.dst.x) / d)
  {
    SqDistZero(sd1.src, sd2.src);
    SqDistZero(sd1.dst, sd2.dst);
    d := Distance(sqrt, sd1.src, sd2.src);
    var v := Sub(sd2.src, sd1.src);
    assert d * d == SqSize(v) by { SizeIsLength(sqrt, v); }
    assert SqSize(Sub(sd2.dst, sd1.dst)) == SqSize(v);
    SameDistance(sqrt, sd1.src, sd2.src, sd1.dst, sd2.dst);
    BearingIs(sqrt, sd1.src, sd2.src);
    BearingIs(sqrt, sd1.dst, sd2.dst);
  }

  /** Segments with the same squared length have the same length. */
  lemma SameDistance(sqrt: real -> real, p1: Point, p2: Point, q1: Point, q2: Point)
    requires SqDist(q1, q2) == SqDist(p1, p2)
    ensures Distance(sqrt, q1, q2) == Distance(sqrt, p1, p2)
  {
  }

  /**
   * The rotation whose cosine and sine are the angle difference of two unit
   * vectors turns the first vector, scaled by d, into the second, scaled by d.
   */
  lemma TurnUnit(u: real, v: real, p: real, q: real, d: real)
    requires u * u + v * v == 1.0
    ensures Rotate(Angle(v * q + u * p, u * q - v * p), Point(u * d, v * d)) == Point(p * d, q * d)
  {
    TurnX(u, v, p, q, d);
    TurnY(u, v, p, q, d);
  }

  /**
   * When the destinations are as far apart as the distinct sources, the
   * rotation of the rigid fit turns the source segment into the destination
   * segment.
   */
  lemma RigidRotationTurns(sqrt: real -> real, sd1: SrcDst, sd2: SrcDst)
    requires ExactSqrt(sqrt)
    requires sd1.src != sd2.src && SqDist(sd1.dst, sd2.dst) == SqDist(sd1.src, sd2.src)
    ensures Rotate(RigidRotation(sqrt, sd1, sd2), Sub(sd2.src, sd1.src)) == Sub(sd2.dst, sd1.dst)
  {
    var d := SegmentBearings(sqrt, sd1, sd2);
    RotateByDifference(Bearing(sqrt, sd1.src, sd2.src), Bearing(sqrt, sd1.dst, sd2.dst),
                       Sub(sd2.src, sd1.src), Sub(sd2.dst, sd1.dst), d);
  }

  /** Rotating by the difference of the bearings of two segments of length d turns one into the other. */
  lemma RotateByDifference(a: Angle, b: Angle, s: Point, e: Point, d: real)
    requires 0.0 < d && d * d == SqSize(s) && d * d == SqSize(e)
    requires a == Angle(s.y / d, s.x / d) && b == Angle(e.y / d, e.x / d)
    ensures Rotate(AngleDifference(a, b), s) == e
  {
    SquaresOverLength(s.x, s.y, d);
    SquaresOverLength(e.x, e.y, d);
    RotateUnits(a, b, s, e, d);
  }

  /** The same, with the bearings given as unit vectors that scale back to s and e. */
  lemma RotateUnits(a: Angle, b: Angle, s: Point, e: Point, d: real)
    requires a.sin * d == s.x && a.cos * d == s.y && b.sin * d == e.x && b.cos * d == e.y
    requires a.sin * a.sin + a.cos * a.cos == 1.0
    ensures Rotate(AngleDifference(a, b), s) == e
  {
    TurnUnit(a.sin, a.cos, b.sin, b.cos, d);
  }

  /**
   * A done rigid builder whose sources are distinct and whose destinations
   * keep their distance (as the circle legal path makes them) is fitted
   * exactly: both sources go to their destinations.
   */
  lemma RigidBuilderFit(sqrt: real -> real, b: Builder)
    requires ExactSqrt(sqrt) && b.kind == RigidKind && IsDone(b)
    requires b.pairs[0].src != b.pairs[1].src
    requires SqDist(b.pairs[0].dst, b.pairs[1].dst) == SqDist(b.pairs[0].src, b.pairs[1].src)
    ensures Apply(RigidGetTransformation(sqrt, b), b.pairs[0].src) == Some(b.pairs[0].dst)
    ensures Apply(RigidGetTransformation(sqrt, b), b.pairs[1].src) == Some(b.pairs[1].dst)
  {
    RigidRotationTurns(sqrt, b.pairs[0], b.pairs[1]);
    RigidFit(RigidRotation(sqrt, b.pairs[0], b.pairs[1]), b.pairs[0], b.pairs[1]);
  }

  /** The rigid fit of a consistent done builder keeps the distance between any two points. */
  lemma RigidBuilderIsometry(sqrt: real -> real, b: Builder, p: Point, q: Point)
    requires ExactSqrt(sqrt) && IsDone(b) && b.kind == RigidKind && RigidConsistent(b)
    ensures Apply(RigidGetTransformation(sqrt, b), p).Some? && Apply(RigidGetTransformation(sqrt, b), q).Some?
    ensures SqDist(Apply(RigidGetTransformation(sqrt, b), p).value, Apply(RigidGetTransformation(sqrt, b), q).value) == SqDist(p, q)
  {
    var theta := RigidRotation(sqrt, b.pairs[0], b.pairs[1]);
    RigidRotationUnit(sqrt, b.pairs[0], b.pairs[1]);
    RigidIsometry(theta, RigidShift(theta, b.pairs[0]), p, q);
  }

  /** The rotation of a consistent rigid fit is a true rotation: cos^2 + sin^2 = 1. */
  lemma RigidRotationUnit(sqrt: real -> real, sd1: SrcDst, sd2: SrcDst)
    requires ExactSqrt(sqrt)
    requires sd1.src != sd2.src && SqDist(sd1.dst, sd2.dst) == SqDist(sd1.src, sd2.src)
    ensures IsUnit(RigidRotation(sqrt, sd1, sd2))
  {
    BearingsUnit(sqrt, sd1, sd2);
    DifferenceUnit(Bearing(sqrt, sd1.src, sd2.src), Bearing(sqrt, sd1.dst, sd2.dst), RigidRotation(sqrt, sd1, sd2));
  }

  /** Both bearings of a consistent pair of segments are unit angles. */
  lemma BearingsUnit(sqrt: real -> real, sd1: SrcDst, sd2: SrcDst)
    requires ExactSqrt(sqrt)
    requires sd1.src != sd2.src && SqDist(sd1.dst, sd2.dst) == SqDist(sd1.src, sd2.src)
    ensures IsUnit(Bearing(sqrt, sd1.src, sd2.src)) && IsUnit(Bearing(sqrt, sd1.dst, sd2.dst))
  {
    var d := SegmentBearings(sqrt, sd1, sd2);
    BearingUnit(Bearing(sqrt, sd1.src, sd2.src), Sub(sd2.src, sd1.src), d);
    BearingUnit(Bearing(sqrt, sd1.dst, sd2.dst), Sub(sd2.dst, sd1.dst), d);
  }

  /** The bearing of a segment s of length d is a unit angle. */
  lemma BearingUnit(a: Angle, s: Point, d: real)
    requires 0.0 < d && d * d == SqSize(s) && a == Angle(s.y / d, s.x / d)
    ensures IsUnit(a)
  {
    SquaresOverLength(s.y, s.x, d);
  }

  /** The difference of two unit angles is a unit angle. */
  lemma DifferenceUnit(a: Angle, b: Angle, t: Angle)
    requires IsUnit(a) && IsUnit(b) && t == AngleDifference(a, b)
    ensures IsUnit(t)
  {
    SquareSumProduct(a.cos, a.sin, b.cos, b.sin);
  }

  /** (ac + bd)^2 + (bc - ad)^2 = (a^2 + b^2)(c^2 + d^2). */
  lemma SquareSumProduct(a: real, b: real, c: real, d: real)
    ensures (a * c + b * d) * (a * c + b * d) + (b * c - a * d) * (b * c - a * d)
            == (a * a + b * b) * (c * c + d * d)
  {
  }

  /**
   * The truncated shift misses the first destination. Take the consistent
   * rigid builder with sources (1, 0) and (1, 5) and destinations (0, 0) and
   * (3, 4). Its rotation has cosine 0.8 and sine -0.6. The shift (-0.8, 0.6)
   * becomes (0, 0), and the first source lands on (0.8, -0.6).
   */
  lemma RigidTruncationMisses(sqrt: real -> real, sd1: SrcDst, sd2: SrcDst)
    requires ExactSqrt(sqrt)
    requires sd1 == SrcDst(Point(1.0, 0.0), Point(0.0, 0.0)) && sd2 == SrcDst(Point(1.0, 5.0), Point(3.0, 4.0))
    ensures IsDone(Builder(RigidKind, [sd1, sd2])) && RigidConsistent(Builder(RigidKind, [sd1, sd2]))
    ensures Apply(RigidFromAngleAsWritten(RigidRotation(sqrt, sd1, sd2), sd1), sd1.src) == Some(Point(0.8, -0.6))
  {
    ExampleConsistent(sd1, sd2);
    var theta := RigidRotation(sqrt, sd1, sd2);
    assert theta == Angle(0.8, -0.6) by {
      ExampleRotation(sqrt, sd1, sd2);
    }
    ExampleShift(theta, sd1);
  }

  lemma ExampleConsistent(sd1: SrcDst, sd2: SrcDst)
    requires sd1 == SrcDst(Point(1.0, 0.0), Point(0.0, 0.0)) && sd2 == SrcDst(Point(1.0, 5.0), Point(3.0, 4.0))
    ensures IsDone(Builder(RigidKind, [sd1, sd2])) && RigidConsistent(Builder(RigidKind, [sd1, sd2]))
  {
    ExampleDistances(sd1, sd2);
  }

  lemma ExampleDistances(sd1: SrcDst, sd2: SrcDst)
    requires sd1 == SrcDst(Point(1.0, 0.0), Point(0.0, 0.0))
    requires sd2 == SrcDst(Point(1.0, 5.0), Point(3.0, 4.0))
    ensures SqDist(sd1.src, sd2.src) == 25.0 && SqDist(sd1.dst, sd2.dst) == 25.0
  {
  }

  lemma ExampleShift(theta: Angle, sd1: SrcDst)
    requires theta == Angle(0.8, -0.6) && sd1 == SrcDst(Point(1.0, 0.0), Point(0.0, 0.0))
    ensures Apply(RigidFromAngleAsWritten(theta, sd1), sd1.src) == Some(Point(0.8, -0.6))
  {
    assert RigidShift(theta, sd1) == Point(-0.8, 0.6);
    assert Truncate(-0.8) == 0 && Truncate(0.6) == 0;
    RigidApply(theta, Origin, sd1.src);
  }

  lemma ExampleRotation(sqrt: real -> real, sd1: SrcDst, sd2: SrcDst)
    requires ExactSqrt(sqrt)
    requires sd1 == SrcDst(Point(1.0, 0.0), Point(0.0, 0.0)) && sd2 == SrcDst(Point(1.0, 5.0), Point(3.0, 4.0))
    ensures RigidRotation(sqrt, sd1, sd2) == Angle(0.8, -0.6)
  {
    ExampleBearing(sqrt, sd1.src, sd2.src, 1.0, 0.0);
    ExampleBearing(sqrt, sd1.dst, sd2.dst, 0.8, 0.6);
  }

  /** The bearing of a segment of length 5 is its direction divided by 5. */
  lemma ExampleBearing(sqrt: real -> real, p1: Point, p2: Point, c: real, s: real)
    requires ExactSqrt(sqrt)
    requires SqDist(p1, p2) == 25.0 && p2.y - p1.y == 5.0 * c && p2.x - p1.x == 5.0 * s
    ensures Bearing(sqrt, p1, p2) == Angle(c, s)
  {
    DistanceFromSquare(sqrt, p1, p2, 5.0);
    SqDistZero(p1, p2);
    BearingIs(sqrt, p1, p2);
  }
}
