/**
 * The 3x3 matrices and 3-vectors of homogeneous plane coordinates, with the
 * two numpy products the engine uses: matrix times column vector, and
 * matrix times matrix.
 */
module Matrices {

  datatype Vec3 = Vec3(x: real, y: real, z: real)

  /** A matrix given by its three rows. */
  datatype Mat3 = Mat3(r0: Vec3, r1: Vec3, r2: Vec3)

  function Dot(a: Vec3, b: Vec3): real { a.x * b.x + a.y * b.y + a.z * b.z }

  function Scale3(v: Vec3, k: real): Vec3 { Vec3(v.x * k, v.y * k, v.z * k) }

  function Transpose(m: Mat3): Mat3
  {
    Mat3(Vec3(m.r0.x, m.r1.x, m.r2.x), Vec3(m.r0.y, m.r1.y, m.r2.y), Vec3(m.r0.z, m.r1.z, m.r2.z))
  }

  /** The product `m * v` of a matrix and a column vector. */
  function MatVec(m: Mat3, v: Vec3): Vec3
  {
    Vec3(Dot(m.r0, v), Dot(m.r1, v), Dot(m.r2, v))
  }

  /** The matrix product `a * b`: row i is row i of `a` times `b`. */
  function MatMul(a: Mat3, b: Mat3): Mat3
  {
    var bt := Transpose(b);
    Mat3(MatVec(bt, a.r0), MatVec(bt, a.r1), MatVec(bt, a.r2))
  }

  /** (r b) v = r (b v) for a row vector r. */
  lemma RowTimesDot(r: Vec3, b: Mat3, v: Vec3)
    ensures Dot(MatVec(Transpose(b), r), v) == Dot(r, MatVec(b, v))
  {
  }

  /** Multiplying by a product of matrices is multiplying by each in turn. */
  lemma MatMulApply(a: Mat3, b: Mat3, v: Vec3)
    ensures MatVec(MatMul(a, b), v) == MatVec(a, MatVec(b, v))
  {
    RowTimesDot(a.r0, b, v);
    RowTimesDot(a.r1, b, v);
    RowTimesDot(a.r2, b, v);
  }

  lemma DotScale(r: Vec3, v: Vec3, k: real)
    ensures Dot(r, Scale3(v, k)) == Dot(r, v) * k
  {
  }

  /** Matrix multiplication commutes with scaling the vector. */
  lemma MatVecScale(m: Mat3, v: Vec3, k: real)
    ensures MatVec(m, Scale3(v, k)) == Scale3(MatVec(m, v), k)
  {
    DotScale(m.r0, v, k);
    DotScale(m.r1, v, k);
    DotScale(m.r2, v, k);
  }
}
