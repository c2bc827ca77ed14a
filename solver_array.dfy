/**
 * `solve_matrix` as the source runs it: in place on an n x (n + 1) array,
 * with the pivot scan, the tail swap, the row elimination and the back
 * substitution as loops. Each loop is proved to perform exactly one step of
 * the reference definition in module Solver.
 */
module SolverArray {
  import opened Wrappers
  import opened Solver

  /** The array's contents as a list of rows. */
  ghost function Snap(A: array2<real>): (S: Matrix)
    reads A
    ensures |S| == A.Length0
    ensures forall r :: 0 <= r < A.Length0 ==> |S[r]| == A.Length1
    ensures forall r, c :: 0 <= r < A.Length0 && 0 <= c < A.Length1 ==> S[r][c] == A[r, c]
  {
    seq(A.Length0, r requires 0 <= r < A.Length0 reads A =>
      seq(A.Length1, c requires 0 <= c < A.Length1 reads A => A[r, c]))
  }

  /** Two row lists with the same shape and entries are equal. */
  lemma MatrixExt(S: Matrix, M: Matrix, cols: nat)
    requires |S| == |M|
    requires forall r :: 0 <= r < |S| ==> |S[r]| == cols && |M[r]| == cols
    requires forall r, c :: 0 <= r < |S| && 0 <= c < cols ==> S[r][c] == M[r][c]
    ensures S == M
  {
    forall r | 0 <= r < |S| ensures S[r] == M[r] {
      assert |S[r]| == |M[r]|;
    }
  }

  /** solver.py lines 6-11: scan rows i + 1 .. n - 1 for a strictly larger |A[k][i]|. */
  method FindPivot(A: array2<real>, i: nat) returns (maxRow: nat)
    requires A.Length1 == A.Length0 + 1 && i < A.Length0
    ensures maxRow == Pivot(Snap(A), i, A.Length0)
  {
    var n := A.Length0;
    ghost var S := Snap(A);
    var maxCell := Abs(A[i, i]);
    maxRow := i;
    var k := i + 1;
    while k < n
      invariant i + 1 <= k <= n
      invariant maxRow == Pivot(S, i, k) && maxCell == Abs(A[maxRow, i])
    {
      if Abs(A[k, i]) > maxCell {
        maxCell := Abs(A[k, i]);
        maxRow := k;
      }
      k := k + 1;
    }
  }

  /** solver.py lines 13-16: rows i and maxRow exchange their entries in columns i .. n. */
  method SwapTails(A: array2<real>, i: nat, p: nat)
    requires A.Length1 == A.Length0 + 1 && i <= p < A.Length0
    modifies A
    ensures Snap(A) == SwapTail(old(Snap(A)), i, p)
  {
    ghost var S := Snap(A);
    var k := i;
    while k < A.Length1
      invariant i <= k <= A.Length1
      invariant forall r, c :: 0 <= r < A.Length0 && 0 <= c < A.Length1 ==>
        A[r, c] == (if i <= c < k && r == i then S[p][c]
                    else if i <= c < k && r == p then S[i][c]
                    else S[r][c])
    {
      var tmp := A[p, k];
      A[p, k] := A[i, k];
      A[i, k] := tmp;
      k := k + 1;
    }
    var T := SwapTail(S, i, p);
    forall r, c | 0 <= r < A.Length0 && 0 <= c < A.Length1 ensures Snap(A)[r][c] == T[r][c] {
      if r == i {
        assert T[r] == S[i][..i] + S[p][i..];
      } else if r == p {
        assert T[r] == S[p][..i] + S[i][i..];
      }
    }
    MatrixExt(Snap(A), T, A.Length1);
  }

  /** solver.py lines 19-24: row k gets column i zeroed and c times row i added after it. */
  method EliminateRow(A: array2<real>, i: nat, k: nat, c: real)
    requires A.Length1 == A.Length0 + 1 && i < k < A.Length0
    modifies A
    ensures Snap(A) == old(Snap(A))[k := ElimRow(old(Snap(A))[i], old(Snap(A))[k], i, c)]
  {
    ghost var S := Snap(A);
    var j := i;
    while j < A.Length1
      invariant i <= j <= A.Length1
      invariant forall r, q :: 0 <= r < A.Length0 && 0 <= q < A.Length1 ==>
        A[r, q] == (if r == k && i <= q < j then ElimRow(S[i], S[k], i, c)[q] else S[r][q])
    {
      if i == j {
        A[k, j] := 0.0;
      } else {
        A[k, j] := A[k, j] + c * A[i, j];
      }
      j := j + 1;
    }
    MatrixExt(Snap(A), S[k := ElimRow(S[i], S[k], i, c)], A.Length1);
  }

  /** solver.py lines 18-24: every row below row i eliminated against row i. */
  method EliminateColumn(A: array2<real>, i: nat)
    requires A.Length1 == A.Length0 + 1 && i < A.Length0 && (i + 1 < A.Length0 ==> A[i, i] != 0.0)
    modifies A
    ensures Snap(A) == EliminateBelow(old(Snap(A)), i)
  {
    ghost var S := Snap(A);
    var n := A.Length0;
    var k := i + 1;
    while k < n
      invariant i + 1 <= k <= n
      invariant forall r :: 0 <= r < n ==> Snap(A)[r] == if i < r < k then EliminateBelow(S, i)[r] else S[r]
    {
      var c := -A[k, i] / A[i, i];
      ghost var before := Snap(A);
      assert before[i] == S[i] && before[k] == S[k];
      EliminateRow(A, i, k, c);
      assert Snap(A)[k] == EliminateBelow(S, i)[k];
      k := k + 1;
    }
    assert Snap(A) == EliminateBelow(S, i);
  }

  /** solver.py lines 30-31: rows above row r move A[k][r] * xr to the right-hand side. */
  method MoveKnownColumn(A: array2<real>, r: nat, xr: real)
    requires A.Length1 == A.Length0 + 1 && r < A.Length0
    modifies A
    ensures Snap(A) == SubtractColumn(old(Snap(A)), r, xr)
  {
    ghost var S := Snap(A);
    var n := A.Length0;
    var k := r;
    while k > 0
      invariant 0 <= k <= r
      invariant forall q, c :: 0 <= q < n && 0 <= c < n + 1 ==>
        A[q, c] == (if k <= q < r && c == n then S[q][n] - S[q][r] * xr else S[q][c])
    {
      k := k - 1;
      A[k, n] := A[k, n] - A[k, r] * xr;
    }
    var T := SubtractColumn(S, r, xr);
    forall q, c | 0 <= q < n && 0 <= c < n + 1 ensures Snap(A)[q][c] == T[q][c] {
      if q < r {
        assert T[q] == MoveKnown(S[q], n, r, xr);
      }
    }
    MatrixExt(Snap(A), T, n + 1);
  }

  /**
   * `solve_matrix(A)`: the result is the reference `Solve` of the original
   * contents, so a returned vector solves the original system and a division
   * by zero (None) happens only on a singular one. On success A holds the
   * triangulated matrix with its right-hand column rewritten.
   */
  method SolveMatrix(A: array2<real>) returns (result: Option<seq<real>>)
    requires A.Length1 == A.Length0 + 1
    modifies A
    ensures result == Solve(old(Snap(A)))
    ensures result.Some? ==> Snap(A) == Solution(old(Snap(A))).value.1
    ensures result.Some? ==> |result.value| == A.Length0 && Solves(old(Snap(A)), result.value)
    ensures result.None? ==> Singular(old(Snap(A)))
  {
    ghost var S := Snap(A);
    var triangular := TriangulateMatrix(A);
    if !triangular {
      result := None;
      SolveNoneSingular(S);
      return;
    }
    result := BackSubstitute(A);
    if result.None? {
      SolveNoneSingular(S);
    } else {
      SolveSound(S, result.value);
    }
  }

  /**
   * The elimination loop of `solve_matrix`: column by column, pivot, swap
   * and eliminate below; it stops (false) on a zero pivot above the last row.
   */
  method TriangulateMatrix(A: array2<real>) returns (triangular: bool)
    requires A.Length1 == A.Length0 + 1
    modifies A
    ensures triangular == Triangulate(old(Snap(A)), 0).Some?
    ensures triangular ==> Snap(A) == Triangulate(old(Snap(A)), 0).value
  {
    ghost var S := Snap(A);
    var n := A.Length0;
    var i := 0;
    while i < n
      invariant 0 <= i <= n
      invariant Augmented(Snap(A)) && Triangulate(Snap(A), i) == Triangulate(S, 0)
    {
      var p := FindPivot(A, i);
      SwapTails(A, i, p);
      if i + 1 < n && A[i, i] == 0.0 {
        return false;
      }
      EliminateColumn(A, i);
      i := i + 1;
    }
    return true;
  }

  /**
   * The back-substitution loop of `solve_matrix`, from the last row up; it
   * stops (None) on a zero diagonal entry.
   */
  method BackSubstitute(A: array2<real>) returns (result: Option<seq<real>>)
    requires A.Length1 == A.Length0 + 1
    modifies A
    ensures result.Some? == BackSubst(old(Snap(A)), A.Length0, Zeros(A.Length0)).Some?
    ensures result.Some? ==> result.value == BackSubst(old(Snap(A)), A.Length0, Zeros(A.Length0)).value.0
    ensures result.Some? ==> Snap(A) == BackSubst(old(Snap(A)), A.Length0, Zeros(A.Length0)).value.1
  {
    ghost var U := Snap(A);
    var n := A.Length0;
    var x := Zeros(n);
    var i := n;
    while i > 0
      invariant 0 <= i <= n && |x| == n
      invariant Augmented(Snap(A)) && BackSubst(Snap(A), i, x) == BackSubst(U, n, Zeros(n))
    {
      var r := i - 1;
      if A[r, r] == 0.0 {
        return None;
      }
      ghost var M := Snap(A);
      var xr := A[r, n] / A[r, r];
      assert M[r][n] == A[r, n] && M[r][r] == A[r, r];
      BackSubstStep(M, r, xr, x);
      x := x[r := xr];
      MoveKnownColumn(A, r, xr);
      i := r;
    }
    return Some(x);
  }
}
