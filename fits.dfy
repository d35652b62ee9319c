/**
 * The similarity and affine fits: `get_transformation` of the similarity and
 * affine builders, which lay out a 9 x 9 linear system over the entries of
 * the 3 x 3 matrix, solve it, and unpack the solution into a transformation.
 */
module Fits {
  import opened Outcomes
  import opened Geometry
  import opened Transformations
  import opened LinearTransformations
  import opened EquationSystems
  import opened Builders

  /** The number of unknowns: the entries m[i][j] of a 3 x 3 matrix, at index 3 i + j. */
  const Unknowns := 9

  /** One `add_equation` call: a sparse list of (index, coefficient) and the right-hand side. */
  datatype Equation = Equation(coefs: seq<(nat, real)>, value: real)

  /** Every index of every equation is an unknown of the 3 x 3 system. */
  predicate WellIndexed(es: seq<Equation>)
  {
    forall k :: 0 <= k < |es| ==> InRange(es[k].coefs, Unknowns)
  }

  /** The dense rows of a list of equations. */
  function Rows(es: seq<Equation>): (r: seq<seq<real>>)
    requires WellIndexed(es)
    ensures |r| == |es|
  {
    if |es| == 0 then []
    else Rows(es[..|es| - 1]) + [Fill(Zeros(Unknowns), es[|es| - 1].coefs)]
  }

  /** The right-hand sides of a list of equations. */
  function Values(es: seq<Equation>): (r: seq<real>)
    ensures |r| == |es|
  {
    if |es| == 0 then [] else Values(es[..|es| - 1]) + [es[|es| - 1].value]
  }

  /** The two equations of one pair: row i of the matrix sends the source to coordinate i of the destination. */
  function PairEquations(sd: SrcDst): seq<Equation>
  {
    [Equation([(0, sd.src.x), (1, sd.src.y), (2, 1.0)], sd.dst.x),
     Equation([(3, sd.src.x), (4, sd.src.y), (5, 1.0)], sd.dst.y)]
  }

  /** The pair equations of all pairs, in pair order. */
  function DataEquations(pairs: seq<SrcDst>): (r: seq<Equation>)
    ensures |r| == 2 * |pairs|
  {
    if |pairs| == 0 then [] else DataEquations(pairs[..|pairs| - 1]) + PairEquations(pairs[|pairs| - 1])
  }

  /** The bottom row of the matrix is (0, 0, 1). */
  const BottomRowEquations := [Equation([(6, 1.0)], 0.0), Equation([(7, 1.0)], 0.0), Equation([(8, 1.0)], 1.0)]

  /** m00 = m11 and m01 = -m10, then the bottom row. */
  const SimilarityConstraints :=
    [Equation([(0, 1.0), (4, -1.0)], 0.0), Equation([(1, 1.0), (3, 1.0)], 0.0)] + BottomRowEquations

  /** The system the similarity builder lays out. */
  function SimilarityEquations(pairs: seq<SrcDst>): seq<Equation>
  {
    DataEquations(pairs) + SimilarityConstraints
  }

  /** The system the affine builder lays out. */
  function AffineEquations(pairs: seq<SrcDst>): seq<Equation>
  {
    DataEquations(pairs) + BottomRowEquations
  }

  /** The unknowns `x` solve the dense form of the equations. */
  predicate Solves(es: seq<Equation>, x: seq<real>)
  {
    WellIndexed(es) && |x| == Unknowns && IsSolution(Rows(es), Values(es), x)
  }

  /** The similarity with a = m00, b = m10, tx = m02, ty = m12. */
  function SimilarityOf(x: seq<real>): Transformation
    requires |x| == Unknowns
  {
    SimilarityTransformation(x[0], x[3], x[2], x[5])
  }

  /** The affine map with the top two rows m00 .. m12. */
  function AffineOf(x: seq<real>): Transformation
    requires |x| == Unknowns
  {
    AffineTransformation(x[0], x[1], x[2], x[3], x[4], x[5])
  }

  /** A similarity matrix: [[a, -b, tx], [b, a, ty], [0, 0, 1]]. */
  predicate IsSimilarity(t: Transformation)
  {
    IsAffine(t) && t.m.r0.x == t.m.r1.y && t.m.r0.y == -t.m.r1.x
  }

  /** The transformation sends every source to its destination. */
  predicate MapsPairs(t: Transformation, pairs: seq<SrcDst>)
  {
    forall k :: 0 <= k < |pairs| ==> Apply(t, pairs[k].src) == Some(pairs[k].dst)
  }

  lemma {:induction false} DataWellIndexed(pairs: seq<SrcDst>)
    ensures WellIndexed(DataEquations(pairs))
    ensures WellIndexed(SimilarityEquations(pairs)) && WellIndexed(AffineEquations(pairs))
  {
    var es := DataEquations(pairs);
    forall k | 0 <= k < |es| ensures InRange(es[k].coefs, Unknowns) {
      var j := DataEquationAt(pairs, k);
    }
  }

  /** Equation k of the pair equations is equation k % 2 of pair k / 2, written with the pair index j. */
  lemma {:induction false} DataEquationAt(pairs: seq<SrcDst>, k: nat) returns (j: nat)
    requires k < 2 * |pairs|
    ensures j < |pairs| && (k == 2 * j || k == 2 * j + 1)
    ensures DataEquations(pairs)[k] == PairEquations(pairs[j])[k - 2 * j]
    decreases |pairs|
  {
    var n := |pairs| - 1;
    var init := pairs[..n];
    assert DataEquations(pairs) == DataEquations(init) + PairEquations(pairs[n]);
    if k < 2 * n {
      j := DataEquationAt(init, k);
      assert init[j] == pairs[j];
    } else {
      j := n;
    }
  }

  lemma {:induction false} RowsAppend(es: seq<Equation>, fs: seq<Equation>)
    requires WellIndexed(es) && WellIndexed(fs)
    ensures WellIndexed(es + fs)
    ensures Rows(es + fs) == Rows(es) + Rows(fs)
    ensures Values(es + fs) == Values(es) + Values(fs)
    decreases |fs|
  {
    WellIndexedAppend(es, fs);
    if |fs| == 0 {
      assert es + fs == es;
    } else {
      var n := |fs| - 1;
      assert (es + fs)[..|es + fs| - 1] == es + fs[..n];
      WellIndexedPrefix(fs, n);
      RowsAppend(es, fs[..n]);
      assert (es + fs)[|es + fs| - 1] == fs[n];
      assert Rows(es + fs) == Rows(es + fs[..n]) + [Fill(Zeros(Unknowns), fs[n].coefs)];
      assert Values(es + fs) == Values(es + fs[..n]) + [fs[n].value];
    }
  }

  lemma WellIndexedAppend(es: seq<Equation>, fs: seq<Equation>)
    requires WellIndexed(es) && WellIndexed(fs)
    ensures WellIndexed(es + fs)
  {
    forall k | 0 <= k < |es + fs| ensures InRange((es + fs)[k].coefs, Unknowns) {
      if k >= |es| {
        assert (es + fs)[k] == fs[k - |es|];
      }
    }
  }

  lemma WellIndexedPrefix(es: seq<Equation>, n: nat)
    requires WellIndexed(es) && n <= |es|
    ensures WellIndexed(es[..n])
  {
    forall k | 0 <= k < n ensures InRange(es[..n][k].coefs, Unknowns) {
      assert es[..n][k] == es[k];
    }
  }

  /** Row k of the dense system is the dense form of equation k. */
  lemma {:induction false} RowsAt(es: seq<Equation>, k: nat)
    requires WellIndexed(es) && k < |es|
    ensures Rows(es)[k] == Fill(Zeros(Unknowns), es[k].coefs)
    ensures Values(es)[k] == es[k].value
    decreases |es|
  {
    var n := |es| - 1;
    if k < n {
      assert WellIndexed(es[..n]) by {
        forall l | 0 <= l < n ensures InRange(es[..n][l].coefs, Unknowns) {
          assert es[..n][l] == es[l];
        }
      }
      RowsAt(es[..n], k);
    }
  }

  /** A solution satisfies each equation in its sparse form. */
  lemma {:induction false} SolvesEquation(es: seq<Equation>, x: seq<real>, k: nat)
    requires Solves(es, x) && k < |es| && Distinct(es[k].coefs)
    ensures SparseCombine(es[k].coefs, x) == es[k].value
  {
    RowsAt(es, k);
    CombineSparseRow(es[k].coefs, x);
  }

  /** The data equations of a pair, solved, say that rows 0 and 1 send the source to the destination. */
  lemma {:induction false} SolvesPair(es: seq<Equation>, x: seq<real>, pairs: seq<SrcDst>, j: nat)
    requires Solves(es, x) && |es| >= 2 * |pairs| && es[..2 * |pairs|] == DataEquations(pairs)
    requires j < |pairs|
    ensures x[0] * pairs[j].src.x + x[1] * pairs[j].src.y + x[2] == pairs[j].dst.x
    ensures x[3] * pairs[j].src.x + x[4] * pairs[j].src.y + x[5] == pairs[j].dst.y
  {
    var sd := pairs[j];
    var n := 2 * |pairs|;
    var k := 2 * j;
    DataEquationAtPair(pairs, j);
    assert es[k] == es[..n][k];
    assert es[k + 1] == es[..n][k + 1];
    SolvesRow(es, x, k, 0, sd.src.x, sd.src.y, sd.dst.x);
    SolvesRow(es, x, k + 1, 3, sd.src.x, sd.src.y, sd.dst.y);
  }

  /** A solution satisfies a row m_i * sx + m_i+1 * sy + m_i+2 = v of the system. */
  lemma SolvesRow(es: seq<Equation>, x: seq<real>, k: nat, i: nat, sx: real, sy: real, v: real)
    requires Solves(es, x) && k < |es| && i + 2 < Unknowns
    requires es[k] == Equation([(i, sx), (i + 1, sy), (i + 2, 1.0)], v)
    ensures x[i] * sx + x[i + 1] * sy + x[i + 2] == v
  {
    SolvesKnown(es, x, k, es[k]);
    SparseThree(i, i + 1, i + 2, sx, sy, 1.0, x);
  }

  /** The value of a sparse list of three entries. */
  lemma SparseThree(i: nat, j: nat, k: nat, a: real, b: real, c: real, x: seq<real>)
    requires i < |x| && j < |x| && k < |x|
    ensures SparseCombine([(i, a), (j, b), (k, c)], x) == x[i] * a + x[j] * b + x[k] * c
  {
    var l: seq<(nat, real)> := [(i, a), (j, b), (k, c)];
    var t1: seq<(nat, real)> := [(j, b), (k, c)];
    var t2: seq<(nat, real)> := [(k, c)];
    var t3: seq<(nat, real)> := [];
    assert l[1..] == t1 && t1[1..] == t2 && t2[1..] == t3;
    assert SparseCombine(t2, x) == c * x[k] + SparseCombine(t3, x);
    assert SparseCombine(t1, x) == b * x[j] + SparseCombine(t2, x);
    assert SparseCombine(l, x) == a * x[i] + SparseCombine(t1, x);
    assert a * x[i] == x[i] * a && b * x[j] == x[j] * b && c * x[k] == x[k] * c;
  }

  /** The value of a sparse list of two entries. */
  lemma SparseTwo(i: nat, j: nat, a: real, b: real, x: seq<real>)
    requires i < |x| && j < |x|
    ensures SparseCombine([(i, a), (j, b)], x) == a * x[i] + b * x[j]
  {
    var l: seq<(nat, real)> := [(i, a), (j, b)];
    var t1: seq<(nat, real)> := [(j, b)];
    var t2: seq<(nat, real)> := [];
    assert l[1..] == t1 && t1[1..] == t2;
    assert SparseCombine(t1, x) == b * x[j] + SparseCombine(t2, x);
    assert SparseCombine(l, x) == a * x[i] + SparseCombine(t1, x);
  }

  /** The two equations of pair j sit at positions 2 j and 2 j + 1. */
  lemma DataEquationAtPair(pairs: seq<SrcDst>, j: nat)
    requires j < |pairs|
    ensures DataEquations(pairs)[2 * j] == PairEquations(pairs[j])[0]
    ensures DataEquations(pairs)[2 * j + 1] == PairEquations(pairs[j])[1]
  {
    var j0 := DataEquationAt(pairs, 2 * j);
    var j1 := DataEquationAt(pairs, 2 * j + 1);
  }

  /** A solution satisfies an equation known to be at position k. */
  lemma {:induction false} SolvesKnown(es: seq<Equation>, x: seq<real>, k: nat, e: Equation)
    requires Solves(es, x) && k < |es| && es[k] == e && Distinct(e.coefs)
    ensures SparseCombine(e.coefs, x) == e.value
  {
    SolvesEquation(es, x, k);
  }

  /** The bottom-row equations, solved, fix the bottom row to (0, 0, 1). */
  lemma {:induction false} SolvesBottomRow(es: seq<Equation>, x: seq<real>, n: nat)
    requires Solves(es, x) && n + 3 <= |es| && es[n..n + 3] == BottomRowEquations
    ensures x[6] == 0.0 && x[7] == 0.0 && x[8] == 1.0
  {
    assert es[n] == es[n..n + 3][0];
    assert es[n + 1] == es[n..n + 3][1];
    assert es[n + 2] == es[n..n + 3][2];
    SolvesKnown(es, x, n, Equation([(6, 1.0)], 0.0));
    SolvesKnown(es, x, n + 1, Equation([(7, 1.0)], 0.0));
    SolvesKnown(es, x, n + 2, Equation([(8, 1.0)], 1.0));
  }

  /**
   * Any solution of the similarity system is a similarity matrix, and the
   * similarity unpacked from it sends every source to its destination.
   */
  lemma {:induction false} SimilaritySolution(pairs: seq<SrcDst>, x: seq<real>)
    requires Solves(SimilarityEquations(pairs), x)
    ensures x[0] == x[4] && x[1] == -x[3]
    ensures x[6] == 0.0 && x[7] == 0.0 && x[8] == 1.0
    ensures IsSimilarity(SimilarityOf(x))
    ensures MapsPairs(SimilarityOf(x), pairs)
  {
    var es := SimilarityEquations(pairs);
    var n := 2 * |pairs|;
    assert es[..n] == DataEquations(pairs);
    assert es[n] == SimilarityConstraints[0];
    assert es[n + 1] == SimilarityConstraints[1];
    assert es[n + 2..n + 5] == BottomRowEquations;
    SolvesKnown(es, x, n, Equation([(0, 1.0), (4, -1.0)], 0.0));
    SolvesKnown(es, x, n + 1, Equation([(1, 1.0), (3, 1.0)], 0.0));
    SparseTwo(0, 4, 1.0, -1.0, x);
    SparseTwo(1, 3, 1.0, 1.0, x);
    SolvesBottomRow(es, x, n + 2);
    forall j | 0 <= j < |pairs| ensures Apply(SimilarityOf(x), pairs[j].src) == Some(pairs[j].dst) {
      SimilarityMapsPair(es, x, pairs, j);
    }
  }

  lemma {:induction false} SimilarityMapsPair(es: seq<Equation>, x: seq<real>, pairs: seq<SrcDst>, j: nat)
    requires Solves(es, x) && |es| >= 2 * |pairs| && es[..2 * |pairs|] == DataEquations(pairs)
    requires j < |pairs| && x[0] == x[4] && x[1] == -x[3]
    ensures Apply(SimilarityOf(x), pairs[j].src) == Some(pairs[j].dst)
  {
    SolvesPair(es, x, pairs, j);
    SimilarityMapsPoint(x, pairs[j].src, pairs[j].dst);
  }

  /** Unknowns that send a point to a destination, with m00 = m11 and m01 = -m10, give a similarity doing so. */
  lemma SimilarityMapsPoint(x: seq<real>, p: Point, d: Point)
    requires |x| == Unknowns && x[0] == x[4] && x[1] == -x[3]
    requires x[0] * p.x + x[1] * p.y + x[2] == d.x
    requires x[3] * p.x + x[4] * p.y + x[5] == d.y
    ensures Apply(SimilarityOf(x), p) == Some(d)
  {
    SimilarityApply(x[0], x[3], x[2], x[5], p);
    SimilarityRowsMatch(x[0], x[1], x[2], x[3], x[4], x[5], p.x, p.y);
    var q := SimilarityImage(x[0], x[3], x[2], x[5], p);
    assert q.x == d.x;
    assert q.y == d.y;
  }

  lemma SimilarityRowsMatch(x0: real, x1: real, x2: real, x3: real, x4: real, x5: real, px: real, py: real)
    requires x0 == x4 && x1 == -x3
    ensures x0 * px - x3 * py + x2 == x0 * px + x1 * py + x2
    ensures x3 * px + x0 * py + x5 == x3 * px + x4 * py + x5
  {
  }

  /**
   * Any solution of the affine system has bottom row (0, 0, 1), and the affine
   * map unpacked from it sends every source to its destination.
   */
  lemma {:induction false} AffineSolution(pairs: seq<SrcDst>, x: seq<real>)
    requires Solves(AffineEquations(pairs), x)
    ensures x[6] == 0.0 && x[7] == 0.0 && x[8] == 1.0
    ensures IsAffine(AffineOf(x))
    ensures MapsPairs(AffineOf(x), pairs)
  {
    var es := AffineEquations(pairs);
    var n := 2 * |pairs|;
    assert es[..n] == DataEquations(pairs);
    assert es[n..n + 3] == BottomRowEquations;
    SolvesBottomRow(es, x, n);
    forall j | 0 <= j < |pairs| ensures Apply(AffineOf(x), pairs[j].src) == Some(pairs[j].dst) {
      AffineMapsPair(es, x, pairs, j);
    }
  }

  lemma {:induction false} AffineMapsPair(es: seq<Equation>, x: seq<real>, pairs: seq<SrcDst>, j: nat)
    requires Solves(es, x) && |es| >= 2 * |pairs| && es[..2 * |pairs|] == DataEquations(pairs)
    requires j < |pairs|
    ensures Apply(AffineOf(x), pairs[j].src) == Some(pairs[j].dst)
  {
    SolvesPair(es, x, pairs, j);
    AffineMapsPoint(x, pairs[j].src, pairs[j].dst);
  }

  /** Unknowns whose top rows send a point to a destination give an affine map doing so. */
  lemma AffineMapsPoint(x: seq<real>, p: Point, d: Point)
    requires |x| == Unknowns
    requires x[0] * p.x + x[1] * p.y + x[2] == d.x
    requires x[3] * p.x + x[4] * p.y + x[5] == d.y
    ensures Apply(AffineOf(x), p) == Some(d)
  {
    AffineApply(AffineOf(x), p);
    var q := AffineImage(AffineOf(x).m, p);
    assert q.x == d.x;
    assert q.y == d.y;
  }

  /** A done similarity or affine builder lays out exactly as many equations as unknowns. */
  lemma SquareSystems(b: Builder)
    requires IsDone(b)
    ensures b.kind == SimilarityKind ==> |SimilarityEquations(b.pairs)| == Unknowns
    ensures b.kind == AffineKind ==> |AffineEquations(b.pairs)| == Unknowns
  {
  }

  /** Appending one in-range equation appends its dense row and its right-hand side. */
  lemma {:induction false} Snoc(es: seq<Equation>, e: Equation)
    requires WellIndexed(es) && InRange(e.coefs, Unknowns)
    ensures WellIndexed(es + [e])
    ensures Rows(es + [e]) == Rows(es) + [Fill(Zeros(Unknowns), e.coefs)]
    ensures Values(es + [e]) == Values(es) + [e.value]
  {
    assert (es + [e])[..|es|] == es;
  }

  /**
   * Adds the two equations of every pair to the system, in pair order
   * (the outer loop of `get_transformation`).
   */
  method AddPairEquations(system: EquationSystem, pairs: seq<SrcDst>, ghost es: seq<Equation>)
    requires system.nRows == 3 && system.nColumns == 3
    requires WellIndexed(es) && system.eqs == Rows(es) && system.b == Values(es)
    modifies system
    ensures WellIndexed(es + DataEquations(pairs))
    ensures system.eqs == Rows(es + DataEquations(pairs))
    ensures system.b == Values(es + DataEquations(pairs))
  {
    var k := 0;
    assert es + DataEquations(pairs[..0]) == es;
    while k < |pairs|
      invariant 0 <= k <= |pairs|
      invariant WellIndexed(es + DataEquations(pairs[..k]))
      invariant system.eqs == Rows(es + DataEquations(pairs[..k]))
      invariant system.b == Values(es + DataEquations(pairs[..k]))
    {
      ghost var before := es + DataEquations(pairs[..k]);
      DataPrefix(es, pairs, k);
      AddOnePair(system, pairs[k], before);
      k := k + 1;
    }
    assert pairs[..|pairs|] == pairs;
  }

  /** The pair equations of one more pair follow those of the pairs before it. */
  lemma DataPrefix(es: seq<Equation>, pairs: seq<SrcDst>, k: nat)
    requires k < |pairs|
    ensures es + DataEquations(pairs[..k + 1]) == es + DataEquations(pairs[..k]) + PairEquations(pairs[k])
  {
    assert pairs[..k + 1][..k] == pairs[..k];
  }

  /** The two equations of one pair (the inner loop of `get_transformation`). */
  method AddOnePair(system: EquationSystem, sd: SrcDst, ghost before: seq<Equation>)
    requires system.nRows == 3 && system.nColumns == 3
    requires WellIndexed(before) && system.eqs == Rows(before) && system.b == Values(before)
    modifies system
    ensures WellIndexed(before + PairEquations(sd))
    ensures system.eqs == Rows(before + PairEquations(sd))
    ensures system.b == Values(before + PairEquations(sd))
  {
    var values := [sd.dst.x, sd.dst.y];
    var i := 0;
    assert before + PairEquations(sd)[..0] == before;
    while i < 2
      invariant 0 <= i <= 2
      invariant WellIndexed(before + PairEquations(sd)[..i])
      invariant system.eqs == Rows(before + PairEquations(sd)[..i])
      invariant system.b == Values(before + PairEquations(sd)[..i])
    {
      var indexCoef := [(system.Index(i, 0), sd.src.x), (system.Index(i, 1), sd.src.y), (system.Index(i, 2), 1.0)];
      ghost var e := Equation(indexCoef, values[i]);
      assert e == PairEquations(sd)[i];
      ghost var done := before + PairEquations(sd)[..i];
      assert before + PairEquations(sd)[..i + 1] == done + [e];
      Snoc(done, e);
      system.AddEquation(indexCoef, values[i]);
      i := i + 1;
    }
    assert PairEquations(sd)[..2] == PairEquations(sd);
  }

  /** One `add_equation` call, seen as appending its equation to the list the system holds. */
  method AddKnownEquation(system: EquationSystem, coefs: seq<(nat, real)>, value: real, ghost es: seq<Equation>)
    requires system.nRows == 3 && system.nColumns == 3 && InRange(coefs, Unknowns)
    requires WellIndexed(es) && system.eqs == Rows(es) && system.b == Values(es)
    modifies system
    ensures WellIndexed(es + [Equation(coefs, value)])
    ensures system.eqs == Rows(es + [Equation(coefs, value)])
    ensures system.b == Values(es + [Equation(coefs, value)])
  {
    Snoc(es, Equation(coefs, value));
    system.AddEquation(coefs, value);
  }

  /** The three `add_equation` calls that fix the bottom row to (0, 0, 1). */
  method AddBottomRow(system: EquationSystem, ghost es: seq<Equation>)
    requires system.nRows == 3 && system.nColumns == 3
    requires WellIndexed(es) && system.eqs == Rows(es) && system.b == Values(es)
    modifies system
    ensures WellIndexed(es + BottomRowEquations)
    ensures system.eqs == Rows(es + BottomRowEquations)
    ensures system.b == Values(es + BottomRowEquations)
  {
    var c0 := [(system.Index(2, 0), 1.0)];
    AddKnownEquation(system, c0, 0.0, es);
    ghost var es1 := es + [Equation(c0, 0.0)];
    var c1 := [(system.Index(2, 1), 1.0)];
    AddKnownEquation(system, c1, 0.0, es1);
    ghost var es2 := es1 + [Equation(c1, 0.0)];
    var c2 := [(system.Index(2, 2), 1.0)];
    AddKnownEquation(system, c2, 1.0, es2);
    assert es2 + [Equation(c2, 1.0)] == es + BottomRowEquations;
  }

  /**
   * The system `SimilarityBuilder.get_transformation` lays out: two
   * equations per pair, then m00 - m11 = 0, m01 + m10 = 0 and the bottom row.
   */
  method SimilaritySystem(b: Builder) returns (system: EquationSystem)
    requires b.kind == SimilarityKind && IsDone(b)
    ensures fresh(system) && system.nRows == 3 && system.nColumns == 3
    ensures WellIndexed(SimilarityEquations(b.pairs))
    ensures system.eqs == Rows(SimilarityEquations(b.pairs))
    ensures system.b == Values(SimilarityEquations(b.pairs))
  {
    system := new EquationSystem(3, 3);
    AddPairEquations(system, b.pairs, []);
    ghost var es := [] + DataEquations(b.pairs);
    var c0 := [(system.Index(0, 0), 1.0), (system.Index(1, 1), -1.0)];
    AddKnownEquation(system, c0, 0.0, es);
    ghost var es1 := es + [Equation(c0, 0.0)];
    var c1 := [(system.Index(0, 1), 1.0), (system.Index(1, 0), 1.0)];
    AddKnownEquation(system, c1, 0.0, es1);
    ghost var es2 := es1 + [Equation(c1, 0.0)];
    AddBottomRow(system, es2);
    assert c0 == [(0, 1.0), (4, -1.0)] && c1 == [(1, 1.0), (3, 1.0)];
    SimilarityLayout(DataEquations(b.pairs));
  }

  /** The data equations, the two similarity constraints and the bottom row, appended one by one. */
  lemma SimilarityLayout(data: seq<Equation>)
    ensures [] + data + [Equation([(0, 1.0), (4, -1.0)], 0.0)] + [Equation([(1, 1.0), (3, 1.0)], 0.0)] + BottomRowEquations
            == data + SimilarityConstraints
  {
  }

  /**
   * `SimilarityBuilder.get_transformation`: the solution of its system
   * unpacked as a = m00, b = m10, tx = m02, ty = m12.
   */
  method SimilarityGetTransformation(b: Builder, solve: (seq<seq<real>>, seq<real>) -> seq<real>)
    returns (r: Result<Transformation>)
    requires b.kind == SimilarityKind && IsDone(b)
    ensures var es := SimilarityEquations(b.pairs);
            WellIndexed(es) &&
            (r.Ok? <==> Solves(es, solve(Rows(es), Values(es)))) &&
            (r.Ok? ==> r.value == SimilarityOf(solve(Rows(es), Values(es))))
    ensures r.Ok? ==> IsSimilarity(r.value) && MapsPairs(r.value, b.pairs)
    ensures r.Err? ==> r.error == SingularSystem
  {
    var system := SimilaritySystem(b);
    SquareSystems(b);
    var x :- system.GetSolution(solve);
    SimilaritySolution(b.pairs, x);
    r := Ok(SimilarityTransformation(x[system.Index(0, 0)], x[system.Index(1, 0)],
                                     x[system.Index(0, 2)], x[system.Index(1, 2)]));
  }

  /**
   * The system `AffineBuilder.get_transformation` lays out: two equations
   * per pair, then the bottom row.
   */
  method AffineSystem(b: Builder) returns (system: EquationSystem)
    requires b.kind == AffineKind && IsDone(b)
    ensures fresh(system) && system.nRows == 3 && system.nColumns == 3
    ensures WellIndexed(AffineEquations(b.pairs))
    ensures system.eqs == Rows(AffineEquations(b.pairs))
    ensures system.b == Values(AffineEquations(b.pairs))
  {
    system := new EquationSystem(3, 3);
    AddPairEquations(system, b.pairs, []);
    ghost var es := [] + DataEquations(b.pairs);
    AddBottomRow(system, es);
    assert es + BottomRowEquations == AffineEquations(b.pairs);
  }

  /**
   * `AffineBuilder.get_transformation`: the solution of its system unpacked
   * as the top two rows.
   */
  method AffineGetTransformation(b: Builder, solve: (seq<seq<real>>, seq<real>) -> seq<real>)
    returns (r: Result<Transformation>)
    requires b.kind == AffineKind && IsDone(b)
    ensures var es := AffineEquations(b.pairs);
            WellIndexed(es) &&
            (r.Ok? <==> Solves(es, solve(Rows(es), Values(es)))) &&
            (r.Ok? ==> r.value == AffineOf(solve(Rows(es), Values(es))))
    ensures r.Ok? ==> IsAffine(r.value) && MapsPairs(r.value, b.pairs)
    ensures r.Err? ==> r.error == SingularSystem
  {
    var system := AffineSystem(b);
    SquareSystems(b);
    var x :- system.GetSolution(solve);
    AffineSolution(b.pairs, x);
    r := Ok(AffineTransformation(x[system.Index(0, 0)], x[system.Index(0, 1)], x[system.Index(0, 2)],
                                 x[system.Index(1, 0)], x[system.Index(1, 1)], x[system.Index(1, 2)]));
  }

  /** The similarity and affine layouts only name unknowns of the 3 x 3 matrix. */
  lemma SystemsWellIndexed(pairs: seq<SrcDst>)
    ensures WellIndexed(SimilarityEquations(pairs)) && WellIndexed(AffineEquations(pairs))
  {
    DataWellIndexed(pairs);
    WellIndexedAppend(DataEquations(pairs), SimilarityConstraints);
    WellIndexedAppend(DataEquations(pairs), BottomRowEquations);
  }

  /**
   * The transformation `get_transformation` fits to a done builder, or the
   * failure it reports. Translation and rigid builders always fit. A
   * similarity or affine builder fits exactly when the solver's answer
   * solves the system the builder lays out; otherwise the system is singular.
   */
  function Fit(sqrt: real -> real, solve: (seq<seq<real>>, seq<real>) -> seq<real>, b: Builder): (r: Result<Transformation>)
    requires ExactSqrt(sqrt) && IsDone(b)
    ensures r.Err? ==> r.error == SingularSystem && (b.kind == SimilarityKind || b.kind == AffineKind)
  {
    SystemsWellIndexed(b.pairs);
    match b.kind
    case TranslationKind => Ok(TranslationGetTransformation(b))
    case RigidKind => Ok(RigidGetTransformation(sqrt, b))
    case SimilarityKind => SolvedFit(solve, SimilarityEquations(b.pairs), true)
    case AffineKind => SolvedFit(solve, AffineEquations(b.pairs), false)
  }

  /**
   * The fit of a similarity (`similarity`) or affine system `es`: the
   * transformation the solver's answer describes when it solves `es`, a
   * singular system otherwise.
   */
  function SolvedFit(solve: (seq<seq<real>>, seq<real>) -> seq<real>, es: seq<Equation>, similarity: bool): (r: Result<Transformation>)
    requires WellIndexed(es)
    ensures r.Err? ==> r.error == SingularSystem
  {
    var x := solve(Rows(es), Values(es));
    if !Solves(es, x) then Err(SingularSystem)
    else if similarity then Ok(SimilarityOf(x))
    else Ok(AffineOf(x))
  }

  /**
   * Every fit is affine; a similarity fit is a similarity; and every fit of
   * a consistent builder sends each source to its destination.
   */
  lemma FitSound(sqrt: real -> real, solve: (seq<seq<real>>, seq<real>) -> seq<real>, b: Builder)
    requires ExactSqrt(sqrt) && IsDone(b)
    ensures Fit(sqrt, solve, b).Ok? ==> IsAffine(Fit(sqrt, solve, b).value)
    ensures Fit(sqrt, solve, b).Ok? && b.kind == SimilarityKind ==> IsSimilarity(Fit(sqrt, solve, b).value)
    ensures Fit(sqrt, solve, b).Ok? && RigidConsistent(b) ==> MapsPairs(Fit(sqrt, solve, b).value, b.pairs)
  {
    SystemsWellIndexed(b.pairs);
    match b.kind
    case TranslationKind =>
      TranslationFit(b);
    case RigidKind =>
      var theta := RigidRotation(sqrt, b.pairs[0], b.pairs[1]);
      BuiltAreAffine(theta, RigidShift(theta, b.pairs[0]), 0.0, 0.0, 0.0, 0.0, 0.0, 0.0);
      if RigidConsistent(b) {
        RigidBuilderFit(sqrt, b);
      }
    case SimilarityKind =>
      var es := SimilarityEquations(b.pairs);
      var x := solve(Rows(es), Values(es));
      if Solves(es, x) {
        SimilaritySolution(b.pairs, x);
      }
    case AffineKind =>
      var es := AffineEquations(b.pairs);
      var x := solve(Rows(es), Values(es));
      if Solves(es, x) {
        AffineSolution(b.pairs, x);
      }
  }

  /** A translation builder's fit moves every point by the dragged offset. */
  lemma FitTranslates(sqrt: real -> real, solve: (seq<seq<real>>, seq<real>) -> seq<real>, b: Builder, p: Point)
    requires ExactSqrt(sqrt) && IsDone(b) && b.kind == TranslationKind
    ensures Fit(sqrt, solve, b).Ok?
    ensures Apply(Fit(sqrt, solve, b).value, p) == Some(Add(p, Sub(b.pairs[0].dst, b.pairs[0].src)))
  {
    var shift := Sub(b.pairs[0].dst, b.pairs[0].src);
    TranslationApply(shift.x, shift.y, p);
    assert Point(shift.x, shift.y) == shift;
  }

  /** A consistent rigid builder's fit keeps the distance between any two points. */
  lemma FitRigidIsometry(sqrt: real -> real, solve: (seq<seq<real>>, seq<real>) -> seq<real>, b: Builder, p: Point, q: Point)
    requires ExactSqrt(sqrt) && IsDone(b) && b.kind == RigidKind && RigidConsistent(b)
    ensures Fit(sqrt, solve, b).Ok?
    ensures Apply(Fit(sqrt, solve, b).value, p).Some? && Apply(Fit(sqrt, solve, b).value, q).Some?
    ensures SqDist(Apply(Fit(sqrt, solve, b).value, p).value, Apply(Fit(sqrt, solve, b).value, q).value) == SqDist(p, q)
  {
    assert Fit(sqrt, solve, b) == Ok(RigidGetTransformation(sqrt, b));
    RigidBuilderIsometry(sqrt, b, p, q);
  }

  /**
   * `get_transformation` of a done builder of any kind. The translation and
   * rigid fits always succeed; the similarity and affine fits fail when the
   * solver finds no solution. Every fit has bottom row (0, 0, 1); every fit
   * but the rigid one sends each source to its destination, and the rigid
   * one does so for the pairs its moves commit.
   */
  method GetTransformation(b: Builder, sqrt: real -> real, solve: (seq<seq<real>>, seq<real>) -> seq<real>)
    returns (r: Result<Transformation>)
    requires ExactSqrt(sqrt) && IsDone(b)
    ensures r == Fit(sqrt, solve, b)
    ensures b.kind == TranslationKind ==> r == Ok(TranslationGetTransformation(b))
    ensures b.kind == RigidKind ==> r == Ok(RigidGetTransformation(sqrt, b))
    ensures r.Err? ==> r.error == SingularSystem && (b.kind == SimilarityKind || b.kind == AffineKind)
    ensures r.Ok? ==> IsAffine(r.value)
    ensures r.Ok? && b.kind == SimilarityKind ==> IsSimilarity(r.value)
    ensures r.Ok? && RigidConsistent(b) ==> MapsPairs(r.value, b.pairs)
  {
    match b.kind
    case TranslationKind =>
      TranslationFit(b);
      r := Ok(TranslationGetTransformation(b));
    case RigidKind =>
      var theta := RigidRotation(sqrt, b.pairs[0], b.pairs[1]);
      BuiltAreAffine(theta, RigidShift(theta, b.pairs[0]), 0.0, 0.0, 0.0, 0.0, 0.0, 0.0);
      if RigidConsistent(b) {
        RigidBuilderFit(sqrt, b);
      }
      r := Ok(RigidGetTransformation(sqrt, b));
    case SimilarityKind =>
      r := SimilarityGetTransformation(b, solve);
    case AffineKind =>
      r := AffineGetTransformation(b, solve);
  }
}
