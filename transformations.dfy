/**
 * Plane transformations: the projective transformation given by a 3x3
 * matrix acting on homogeneous coordinates, the identity, and the chain of
 * transformations applied one after the other, together with `compose`.
 *
 * A point is transformed into `Some(q)`, or into `None` where the
 * perspective division divides by zero (numpy then yields an infinite or
 * undefined point, which the model does not represent).
 */
module Transformations {
  import opened Outcomes
  import opened Geometry
  import opened Matrices

  datatype Transformation =
    | Identity                              // IdTransformation
    | Projective(m: Mat3)                   // ProjectiveTransformation and its subclasses
    | Composed(chain: seq<Transformation>)  // ComposedTransformation, applied in list order

  /** The column vector (x, y, 1) of a point (`to_matrix`). */
  function Homogeneous(p: Point): Vec3
  {
    Vec3(p.x, p.y, 1.0)
  }

  /** The perspective division (v0 / v2, v1 / v2). */
  function Dehomogenize(v: Vec3): Option<Point>
  {
    if v.z == 0.0 then None else Some(Point(v.x / v.z, v.y / v.z))
  }

  /** Feeds an optional point to a transformation; an undefined point stays undefined. */
  function Then(o: Option<Point>, t: Transformation): Option<Point>
  {
    match o
    case None => None
    case Some(q) => Apply(t, q)
  }

  /** `transform_point` of each kind of transformation. */
  function Apply(t: Transformation, p: Point): Option<Point>
    decreases t
  {
    match t
    case Identity => Some(p)
    case Projective(m) => Dehomogenize(MatVec(m, Homogeneous(p)))
    case Composed(ts) => ApplyChain(ts, p)
  }

  /** The members of a chain applied in list order, each to the previous one's output. */
  function ApplyChain(ts: seq<Transformation>, p: Point): Option<Point>
    decreases ts
  {
    if |ts| == 0 then Some(p)
    else
      match Apply(ts[0], p)
      case None => None
      case Some(q) => ApplyChain(ts[1..], q)
  }

  /**
   * `self.compose(other)`: the transformation that applies `other` first and
   * `self` afterwards. Two projective transformations compose into the
   * projective transformation of the matrix product; a projective
   * transformation composed with anything else becomes the chain
   * `[other, self]`; a chain gets `other` put in front. The identity has no
   * `compose`.
   */
  function Compose(self: Transformation, other: Transformation): Transformation
    requires !self.Identity?
  {
    match self
    case Projective(m) =>
      if other.Projective? then Projective(MatMul(m, other.m)) else Composed([other, self])
    case Composed(ts) => Composed([other] + ts)
  }

  /** `ComposedTransformation.transform_point`: the loop over the chain. */
  method ComposedTransformPoint(ts: seq<Transformation>, p: Point) returns (r: Option<Point>)
    ensures r == ApplyChain(ts, p)
  {
    r := Some(p);
    var i := 0;
    while i < |ts|
      invariant 0 <= i <= |ts|
      invariant ApplyChain(ts, p) == ThenChain(r, ts[i..])
    {
      assert ts[i..][0] == ts[i] && ts[i..][1..] == ts[i + 1..];
      if r.Some? {
        r := Apply(ts[i], r.value);
      }
      i := i + 1;
    }
  }

  /** Feeds an optional point to a chain. */
  function ThenChain(o: Option<Point>, ts: seq<Transformation>): Option<Point>
  {
    match o
    case None => None
    case Some(q) => ApplyChain(ts, q)
  }

  /** Homogeneous coordinates and perspective division are inverse. */
  lemma HomogeneousRoundTrip(p: Point)
    ensures Dehomogenize(Homogeneous(p)) == Some(p)
  {
  }

  /** A nonzero multiple of a homogeneous vector names the same point. */
  lemma DehomogenizeScale(v: Vec3, k: real)
    requires k != 0.0
    ensures Dehomogenize(Scale3(v, k)) == Dehomogenize(v)
  {
    if v.z != 0.0 {
      var w := Scale3(v, k);
      MulNonZero(v.z, k);
      assert w.z != 0.0;
      DivCancel(v.x, v.z, k);
      DivCancel(v.y, v.z, k);
      assert w.x / w.z == v.x / v.z;
      assert w.y / w.z == v.y / v.z;
    }
  }

  lemma MulNonZero(a: real, b: real)
    requires a != 0.0 && b != 0.0
    ensures a * b != 0.0
  {
  }

  lemma DivCancel(a: real, b: real, k: real)
    requires k != 0.0 && b != 0.0
    ensures (a * k) / (b * k) == a / b
  {
  }

  /** The homogeneous vector of a transformed point is a multiple of the untransformed one. */
  lemma HomogeneousOfQuotient(v: Vec3)
    requires v.z != 0.0
    ensures Homogeneous(Dehomogenize(v).value) == Scale3(v, 1.0 / v.z)
  {
  }

  /**
   * Applying the product of two matrices is applying the right-hand one and
   * then the left-hand one, wherever the intermediate point is defined.
   */
  lemma ProjectiveProduct(a: Mat3, b: Mat3, p: Point)
    requires Apply(Projective(b), p).Some?
    ensures Apply(Projective(MatMul(a, b)), p) == Apply(Projective(a), Apply(Projective(b), p).value)
  {
    var v := MatVec(b, Homogeneous(p));
    var k := 1.0 / v.z;
    HomogeneousOfQuotient(v);
    MatVecScale(a, v, k);
    DehomogenizeScale(MatVec(a, v), k);
    MatMulApply(a, b, Homogeneous(p));
  }

  /**
   * `compose` applies `other` first and `self` afterwards: exactly so when a
   * chain is built, and wherever `other` is defined when two matrices are
   * multiplied.
   */
  lemma ComposeApply(self: Transformation, other: Transformation, p: Point)
    requires !self.Identity?
    ensures !(self.Projective? && other.Projective?) ==>
              Apply(Compose(self, other), p) == Then(Apply(other, p), self)
    ensures Apply(other, p).Some? ==>
              Apply(Compose(self, other), p) == Apply(self, Apply(other, p).value)
  {
    if self.Projective? && other.Projective? {
      if Apply(other, p).Some? {
        ProjectiveProduct(self.m, other.m, p);
      }
    } else if self.Projective? {
      assert [other, self][1..] == [self];
      if Apply(other, p).Some? {
        ApplySingleton(self, Apply(other, p).value);
      }
    } else {
      assert ([other] + self.chain)[1..] == self.chain;
    }
  }

  /** A chain of one member is that member. */
  lemma ApplySingleton(t: Transformation, p: Point)
    ensures ApplyChain([t], p) == Apply(t, p)
  {
    assert [t][1..] == [];
  }

  /** Composing with a chain, or building one, lengthens the chain by exactly one. */
  lemma ComposeLength(self: Transformation, other: Transformation)
    requires !self.Identity?
    ensures self.Composed? ==> Compose(self, other) == Composed([other] + self.chain)
    ensures self.Composed? ==> |Compose(self, other).chain| == |self.chain| + 1
    ensures self.Projective? && !other.Projective? ==> Compose(self, other).chain == [other, self]
  {
  }

  /** The empty chain and the identity leave every point where it is. */
  lemma IdentityApply(p: Point)
    ensures Apply(Identity, p) == Some(p)
    ensures Apply(Composed([]), p) == Some(p)
  {
  }

  /** A chain split in two is its first part followed by its second part. */
  lemma {:induction false} ApplyChainAppend(a: seq<Transformation>, b: seq<Transformation>, p: Point)
    ensures ApplyChain(a + b, p) == ThenChain(ApplyChain(a, p), b)
    decreases |a|
  {
    if |a| == 0 {
      assert a + b == b;
    } else {
      assert (a + b)[0] == a[0];
      assert (a + b)[1..] == a[1..] + b;
      match Apply(a[0], p)
      case None =>
      case Some(q) =>
        ApplyChainAppend(a[1..], b, q);
    }
  }
}
