/**
 * `EquationSystem`: a square linear system over the n_rows x n_columns
 * unknowns of a matrix, built one equation at a time from sparse
 * (index, coefficient) lists, and solved by a solver the engine does not
 * implement (numpy's `linalg.solve`), here the parameter `solve`.
 */
module EquationSystems {
  import opened Outcomes

  /** A dense row of `n` zeros (`[0] * n`). */
  function Zeros(n: nat): (r: seq<real>)
    ensures |r| == n
    ensures forall k :: 0 <= k < n ==> r[k] == 0.0
  {
    if n == 0 then [] else Zeros(n - 1) + [0.0]
  }

  /** Every index of a sparse list lies in a row of length `n`. */
  predicate InRange(pairs: seq<(nat, real)>, n: nat)
  {
    forall k :: 0 <= k < |pairs| ==> pairs[k].0 < n
  }

  /** No index occurs twice in a sparse list. */
  predicate Distinct(pairs: seq<(nat, real)>)
  {
    forall k, l :: 0 <= k < l < |pairs| ==> pairs[k].0 != pairs[l].0
  }

  /** The row after assigning each coefficient of the list to its index, in list order. */
  function Fill(row: seq<real>, pairs: seq<(nat, real)>): (r: seq<real>)
    requires InRange(pairs, |row|)
    ensures |r| == |row|
    decreases |pairs|
  {
    if |pairs| == 0 then row else Fill(row[pairs[0].0 := pairs[0].1], pairs[1..])
  }

  /** The value of a row at the unknowns `x`: the sum of row[k] * x[k]. */
  function Combine(row: seq<real>, x: seq<real>): real
    requires |row| == |x|
  {
    if |row| == 0 then 0.0 else row[0] * x[0] + Combine(row[1..], x[1..])
  }

  /** The value of a sparse list at the unknowns `x`: the sum of coef * x[index]. */
  function SparseCombine(pairs: seq<(nat, real)>, x: seq<real>): real
    requires InRange(pairs, |x|)
  {
    if |pairs| == 0 then 0.0 else pairs[0].1 * x[pairs[0].0] + SparseCombine(pairs[1..], x)
  }

  /** `x` satisfies every equation `eqs[k] . x == b[k]`. */
  predicate IsSolution(eqs: seq<seq<real>>, b: seq<real>, x: seq<real>)
  {
    |eqs| == |b| && forall k :: 0 <= k < |eqs| ==> |eqs[k]| == |x| && Combine(eqs[k], x) == b[k]
  }

  class EquationSystem {
    var eqs: seq<seq<real>>
    var b: seq<real>
    const nRows: nat
    const nColumns: nat

    /** The number of unknowns, which is also the length of every row. */
    function Size(): nat
    {
      nRows * nColumns
    }

    constructor(nRows: nat, nColumns: nat)
      ensures this.nRows == nRows && this.nColumns == nColumns
      ensures eqs == [] && b == []
    {
      this.nRows := nRows;
      this.nColumns := nColumns;
      eqs := [];
      b := [];
    }

    /** `index(i, j)`: the position of the unknown m[i][j] in row-major order. */
    function Index(i: nat, j: nat): (r: nat)
      ensures i < nRows && j < nColumns ==> r < Size()
    {
      IndexInRange(i, j, nRows, nColumns);
      i * nColumns + j
    }

    /** `_create_eq`: a row of zeros with each listed coefficient written at its index. */
    method CreateEq(pairs: seq<(nat, real)>) returns (row: seq<real>)
      requires InRange(pairs, Size())
      ensures row == Fill(Zeros(Size()), pairs)
    {
      row := Zeros(Size());
      var k := 0;
      while k < |pairs|
        invariant 0 <= k <= |pairs|
        invariant |row| == Size()
        invariant Fill(row, pairs[k..]) == Fill(Zeros(Size()), pairs)
      {
        assert pairs[k..][0] == pairs[k] && pairs[k..][1..] == pairs[k + 1..];
        row := row[pairs[k].0 := pairs[k].1];
        k := k + 1;
      }
    }

    /** `add_equation`: one more row and its right-hand side, in lockstep. */
    method AddEquation(pairs: seq<(nat, real)>, value: real)
      requires InRange(pairs, Size())
      modifies this
      ensures b == old(b) + [value]
      ensures eqs == old(eqs) + [Fill(Zeros(Size()), pairs)]
    {
      b := b + [value];
      var row := CreateEq(pairs);
      eqs := eqs + [row];
    }

    /**
     * `get_solution`, which demands a full square system. The solver's answer
     * is taken when it solves the system, and the system is reported singular
     * otherwise.
     */
    method GetSolution(solve: (seq<seq<real>>, seq<real>) -> seq<real>) returns (r: Result<seq<real>>)
      requires |eqs| == Size()
      ensures r.Ok? <==> |solve(eqs, b)| == Size() && IsSolution(eqs, b, solve(eqs, b))
      ensures r.Ok? ==> r.value == solve(eqs, b)
      ensures r.Err? ==> r.error == SingularSystem
    {
      var x := solve(eqs, b);
      if |x| == Size() && IsSolution(eqs, b, x) {
        r := Ok(x);
      } else {
        r := Err(SingularSystem);
      }
    }
  }

  lemma IndexInRange(i: nat, j: nat, nRows: nat, nColumns: nat)
    ensures i < nRows && j < nColumns ==> i * nColumns + j < nRows * nColumns
  {
    if i < nRows && j < nColumns {
      MulMonotone(i + 1, nRows, nColumns);
    }
  }

  lemma MulMonotone(a: nat, b: nat, c: nat)
    requires a <= b
    ensures a * c <= b * c
  {
  }

  /**
   * The filled row holds, at the index of each listed pair that no later pair
   * overwrites, that pair's coefficient.
   */
  lemma {:induction false} FillWrites(row: seq<real>, pairs: seq<(nat, real)>)
    requires InRange(pairs, |row|)
    ensures forall k :: 0 <= k < |pairs| && (forall l :: k < l < |pairs| ==> pairs[l].0 != pairs[k].0) ==>
              Fill(row, pairs)[pairs[k].0] == pairs[k].1
    decreases |pairs|
  {
    if |pairs| != 0 {
      var row' := row[pairs[0].0 := pairs[0].1];
      var rest := pairs[1..];
      assert Fill(row, pairs) == Fill(row', rest);
      FillWrites(row', rest);
      forall k | 0 <= k < |pairs| && (forall l :: k < l < |pairs| ==> pairs[l].0 != pairs[k].0)
        ensures Fill(row, pairs)[pairs[k].0] == pairs[k].1
      {
        if k == 0 {
          assert forall l :: 0 <= l < |rest| ==> rest[l].0 != pairs[0].0 by {
            forall l | 0 <= l < |rest| ensures rest[l].0 != pairs[0].0 {
              assert rest[l] == pairs[l + 1];
            }
          }
          FillKeeps(row', rest);
        } else {
          assert rest[k - 1] == pairs[k];
          assert forall l :: k - 1 < l < |rest| ==> rest[l].0 != rest[k - 1].0 by {
            forall l | k - 1 < l < |rest| ensures rest[l].0 != rest[k - 1].0 {
              assert rest[l] == pairs[l + 1];
            }
          }
        }
      }
    }
  }

  /** The filled row keeps the original entry at every index that no pair names. */
  lemma {:induction false} FillKeeps(row: seq<real>, pairs: seq<(nat, real)>)
    requires InRange(pairs, |row|)
    ensures forall i :: 0 <= i < |row| && (forall l :: 0 <= l < |pairs| ==> pairs[l].0 != i) ==>
              Fill(row, pairs)[i] == row[i]
    decreases |pairs|
  {
    if |pairs| != 0 {
      var row' := row[pairs[0].0 := pairs[0].1];
      var rest := pairs[1..];
      assert Fill(row, pairs) == Fill(row', rest);
      FillKeeps(row', rest);
      forall i | 0 <= i < |row| && (forall l :: 0 <= l < |pairs| ==> pairs[l].0 != i)
        ensures Fill(row, pairs)[i] == row[i]
      {
        assert pairs[0].0 != i;
        assert forall l :: 0 <= l < |rest| ==> rest[l].0 != i by {
          forall l | 0 <= l < |rest| ensures rest[l].0 != i {
            assert rest[l] == pairs[l + 1];
          }
        }
      }
    }
  }

  /** Overwriting one entry changes the value of a row by the change times that unknown. */
  lemma {:induction false} CombineUpdate(row: seq<real>, x: seq<real>, i: nat, c: real)
    requires |row| == |x| && i < |row|
    ensures Combine(row[i := c], x) == Combine(row, x) + (c - row[i]) * x[i]
    decreases |row|
  {
    if i == 0 {
      assert row[i := c][1..] == row[1..];
      Distribute(c, row[0], x[0]);
    } else {
      assert row[i := c][1..] == row[1..][i - 1 := c];
      CombineUpdate(row[1..], x[1..], i - 1, c);
    }
  }

  lemma Distribute(c: real, r: real, y: real)
    ensures c * y == r * y + (c - r) * y
  {
  }

  /** A row of zeros is worth zero. */
  lemma {:induction false} CombineZeros(n: nat, x: seq<real>)
    requires |x| == n
    ensures Combine(Zeros(n), x) == 0.0
  {
    if n != 0 {
      ZerosTail(n);
      CombineZeros(n - 1, x[1..]);
    }
  }

  lemma ZerosTail(n: nat)
    requires 0 < n
    ensures Zeros(n)[1..] == Zeros(n - 1)
  {
  }

  /**
   * A row built from a sparse list with distinct indices, starting from
   * zeros at those indices, is worth what the sparse list is worth.
   */
  lemma {:induction false} CombineFill(row: seq<real>, pairs: seq<(nat, real)>, x: seq<real>)
    requires |row| == |x| && InRange(pairs, |row|) && Distinct(pairs)
    requires forall k :: 0 <= k < |pairs| ==> row[pairs[k].0] == 0.0
    ensures Combine(Fill(row, pairs), x) == Combine(row, x) + SparseCombine(pairs, x)
    decreases |pairs|
  {
    if |pairs| != 0 {
      var row' := row[pairs[0].0 := pairs[0].1];
      var rest := pairs[1..];
      CombineUpdate(row, x, pairs[0].0, pairs[0].1);
      forall k | 0 <= k < |rest| ensures row'[rest[k].0] == 0.0 {
        assert rest[k] == pairs[k + 1];
      }
      CombineFill(row', rest, x);
    }
  }

  /** The dense row of a sparse equation with distinct indices is worth the sparse sum. */
  lemma CombineSparseRow(pairs: seq<(nat, real)>, x: seq<real>)
    requires InRange(pairs, |x|) && Distinct(pairs)
    ensures Combine(Fill(Zeros(|x|), pairs), x) == SparseCombine(pairs, x)
  {
    CombineZeros(|x|, x);
    CombineFill(Zeros(|x|), pairs, x);
  }
}
