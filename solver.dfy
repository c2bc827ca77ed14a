/**
 * Gaussian elimination with partial pivoting on an augmented n x (n + 1)
 * matrix (petrify/solver.py). The pure functions below are the reference
 * definition, step for step; `SolveMatrix` runs the same algorithm in place
 * on an `array2` and is proved to agree with them.
 */
module Solver {
  import opened Wrappers

  /** A matrix as a list of rows. */
  type Matrix = seq<seq<real>>

  /** n rows, each of n coefficients followed by one right-hand side. */
  predicate Augmented(M: Matrix) {
    forall r :: 0 <= r < |M| ==> |M[r]| == |M| + 1
  }

  function Abs(x: real): real { if x < 0.0 then -x else x }

  function Zeros(n: nat): (z: seq<real>)
    ensures |z| == n && forall j :: 0 <= j < n ==> z[j] == 0.0
  {
    seq(n, _ => 0.0)
  }

  /** row[lo] * x[lo] + ... + row[hi - 1] * x[hi - 1]. */
  function Sum(row: seq<real>, x: seq<real>, lo: nat, hi: nat): real
    requires lo <= hi <= |row| && hi <= |x|
    decreases hi - lo
  {
    if lo == hi then 0.0 else row[lo] * x[lo] + Sum(row, x, lo + 1, hi)
  }

  /**
   * Every row r has sum_j M[r][j] * x[j] == t * M[r][n]: with t = 1 the vector
   * solves the system, with t = 0 it lies in the kernel of the coefficients.
   */
  predicate Balanced(M: Matrix, x: seq<real>, t: real)
    requires Augmented(M)
  {
    |x| == |M| && forall r :: 0 <= r < |M| ==> Sum(M[r], x, 0, |M|) == t * M[r][|M|]
  }

  predicate Solves(M: Matrix, x: seq<real>)
    requires Augmented(M)
  {
    Balanced(M, x, 1.0)
  }

  /** The coefficient part of M sends some nonzero vector to zero. */
  ghost predicate Singular(M: Matrix)
    requires Augmented(M)
  {
    exists y :: |y| == |M| && y != Zeros(|M|) && Balanced(M, y, 0.0)
  }

  /** Entries below the diagonal are zero in the first i columns. */
  predicate LowerZero(M: Matrix, i: nat)
    requires Augmented(M)
  {
    forall r, c :: 0 <= c < i && c < r < |M| ==> M[r][c] == 0.0
  }

  /** The first i diagonal entries are nonzero. */
  predicate DiagNonzero(M: Matrix, i: nat)
    requires Augmented(M) && i <= |M|
  {
    forall r :: 0 <= r < i ==> M[r][r] != 0.0
  }

  /**
   * The pivot row for column i among rows i .. k - 1: the scan keeps the
   * current best and replaces it only on a strictly larger |entry|.
   */
  function Pivot(M: Matrix, i: nat, k: nat): (p: nat)
    requires Augmented(M) && i < k <= |M|
    ensures i <= p < k
    decreases k
  {
    if k == i + 1 then i
    else
      var best := Pivot(M, i, k - 1);
      if Abs(M[k - 1][i]) > Abs(M[best][i]) then k - 1 else best
  }

  /** Rows i and p exchange their entries in columns i .. n; the rest stays. */
  function SwapTail(M: Matrix, i: nat, p: nat): (R: Matrix)
    requires Augmented(M) && i <= p < |M|
    ensures |R| == |M| && Augmented(R)
  {
    seq(|M|, r requires 0 <= r < |M| =>
      if r == i then M[i][..i] + M[p][i..]
      else if r == p then M[p][..i] + M[i][i..]
      else M[r])
  }

  /**
   * One eliminated row: column i is set to exactly zero, later columns get
   * c * pivotRow added, earlier ones stay.
   */
  function ElimRow(pivotRow: seq<real>, row: seq<real>, i: nat, c: real): (e: seq<real>)
    requires i < |row| == |pivotRow|
    ensures |e| == |row|
  {
    seq(|row|, j requires 0 <= j < |row| =>
      if j < i then row[j] else if j == i then 0.0 else row[j] + c * pivotRow[j])
  }

  /** Every row below row i eliminated against row i. */
  function EliminateBelow(M: Matrix, i: nat): (R: Matrix)
    requires Augmented(M) && i < |M| && (i + 1 < |M| ==> M[i][i] != 0.0)
    ensures |R| == |M| && Augmented(R)
  {
    seq(|M|, r requires 0 <= r < |M| =>
      if r > i then ElimRow(M[i], M[r], i, -M[r][i] / M[i][i]) else M[r])
  }

  /**
   * Forward elimination from column i on: pivot, swap, eliminate. A zero
   * pivot with rows left below it is the source's division by zero.
   */
  function Triangulate(M: Matrix, i: nat): (R: Option<Matrix>)
    requires Augmented(M) && i <= |M|
    ensures R.Some? ==> |R.value| == |M| && Augmented(R.value)
    decreases |M| - i
  {
    if i == |M| then Some(M)
    else
      var M1 := SwapTail(M, i, Pivot(M, i, |M|));
      if i + 1 < |M| && M1[i][i] == 0.0 then None
      else Triangulate(EliminateBelow(M1, i), i + 1)
  }

  /** A row whose right-hand side loses the known term row[r] * xr. */
  function MoveKnown(row: seq<real>, n: nat, r: nat, xr: real): (e: seq<real>)
    requires r < n < |row|
    ensures |e| == n + 1
  {
    row[..n] + [row[n] - row[r] * xr]
  }

  /** Rows above row r move the known term M[k][r] * xr to the right-hand side. */
  function SubtractColumn(M: Matrix, r: nat, xr: real): (R: Matrix)
    requires Augmented(M) && r < |M|
    ensures |R| == |M| && Augmented(R)
  {
    seq(|M|, k requires 0 <= k < |M| => if k < r then MoveKnown(M[k], |M|, r, xr) else M[k])
  }

  /**
   * Back substitution over rows i - 1 down to 0, the rows from i on being
   * already solved in x; also returns the rewritten matrix.
   */
  function BackSubst(M: Matrix, i: nat, x: seq<real>): (R: Option<(seq<real>, Matrix)>)
    requires Augmented(M) && i <= |M| == |x|
    ensures R.Some? ==> |R.value.0| == |x| && |R.value.1| == |M| && Augmented(R.value.1)
    decreases i
  {
    if i == 0 then Some((x, M))
    else
      var r := i - 1;
      if M[r][r] == 0.0 then None
      else
        var xr := M[r][|M|] / M[r][r];
        BackSubst(SubtractColumn(M, r, xr), r, x[r := xr])
  }

  /** One back-substitution step: solve row r, then move its column to the right. */
  lemma BackSubstStep(M: Matrix, r: nat, xr: real, x: seq<real>)
    requires Augmented(M) && r < |M| == |x| && M[r][r] != 0.0 && xr == M[r][|M|] / M[r][r]
    ensures BackSubst(M, r + 1, x) == BackSubst(SubtractColumn(M, r, xr), r, x[r := xr])
  {
  }

  /** The solution together with the matrix the algorithm leaves behind. */
  function Solution(M: Matrix): (R: Option<(seq<real>, Matrix)>)
    requires Augmented(M)
    ensures R.Some? ==> |R.value.0| == |M| && |R.value.1| == |M| && Augmented(R.value.1)
  {
    match Triangulate(M, 0)
    case None => None
    case Some(U) => BackSubst(U, |U|, Zeros(|U|))
  }

  /** `solve_matrix`: None stands for the ZeroDivisionError its callers catch. */
  function Solve(M: Matrix): (x: Option<seq<real>>)
    requires Augmented(M)
    ensures x.Some? ==> |x.value| == |M|
  {
    match Solution(M)
    case None => None
    case Some(s) => Some(s.0)
  }

  // ---------------------------------------------------------------------
  // Facts about Sum

  lemma {:induction false} SumSplit(row: seq<real>, x: seq<real>, lo: nat, mid: nat, hi: nat)
    requires lo <= mid <= hi <= |row| && hi <= |x|
    ensures Sum(row, x, lo, hi) == Sum(row, x, lo, mid) + Sum(row, x, mid, hi)
    decreases mid - lo
  {
    if lo < mid { SumSplit(row, x, lo + 1, mid, hi); }
  }

  /** Sum depends only on the entries in [lo, hi). */
  lemma {:induction false} SumFrame(a: seq<real>, x: seq<real>, b: seq<real>, y: seq<real>, lo: nat, hi: nat)
    requires lo <= hi <= |a| && hi <= |b| && hi <= |x| && hi <= |y|
    requires forall j :: lo <= j < hi ==> a[j] == b[j] && x[j] == y[j]
    ensures Sum(a, x, lo, hi) == Sum(b, y, lo, hi)
    decreases hi - lo
  {
    if lo < hi { SumFrame(a, x, b, y, lo + 1, hi); }
  }

  /** A range where every term has a zero factor sums to zero. */
  lemma {:induction false} SumZero(row: seq<real>, x: seq<real>, lo: nat, hi: nat)
    requires lo <= hi <= |row| && hi <= |x|
    requires forall j :: lo <= j < hi ==> row[j] == 0.0 || x[j] == 0.0
    ensures Sum(row, x, lo, hi) == 0.0
    decreases hi - lo
  {
    if lo < hi { SumZero(row, x, lo + 1, hi); }
  }

  /** Sum is linear in the row. */
  lemma {:induction false} SumCombine(a: seq<real>, b: seq<real>, c: real, s: seq<real>, x: seq<real>, lo: nat, hi: nat)
    requires lo <= hi <= |a| && hi <= |b| && hi <= |s| && hi <= |x|
    requires forall j {:trigger s[j]} :: lo <= j < hi ==> s[j] == a[j] + c * b[j]
    ensures Sum(s, x, lo, hi) == Sum(a, x, lo, hi) + c * Sum(b, x, lo, hi)
    decreases hi - lo
  {
    if lo < hi {
      SumCombine(a, b, c, s, x, lo + 1, hi);
      assert s[lo] * x[lo] == a[lo] * x[lo] + c * (b[lo] * x[lo]);
    }
  }

  // ---------------------------------------------------------------------
  // Pivot choice

  /**
   * The pivot has the largest |entry| in column i among rows i .. k - 1, and
   * every row before it is strictly smaller: ties keep the earliest row.
   */
  lemma {:induction false} PivotFirstMax(M: Matrix, i: nat, k: nat)
    requires Augmented(M) && i < k <= |M|
    ensures forall r :: i <= r < k ==> Abs(M[r][i]) <= Abs(M[Pivot(M, i, k)][i])
    ensures forall r :: i <= r < Pivot(M, i, k) ==> Abs(M[r][i]) < Abs(M[Pivot(M, i, k)][i])
    decreases k
  {
    if k > i + 1 { PivotFirstMax(M, i, k - 1); }
  }

  // ---------------------------------------------------------------------
  // Each step keeps the solutions of the system it started from

  lemma SwapRowsEqual(M: Matrix, i: nat, p: nat)
    requires Augmented(M) && i <= p < |M| && LowerZero(M, i)
    ensures SwapTail(M, i, p)[i] == M[p] && SwapTail(M, i, p)[p] == M[i]
    ensures forall r :: 0 <= r < |M| && r != i && r != p ==> SwapTail(M, i, p)[r] == M[r]
  {
    var R := SwapTail(M, i, p);
    assert M[i][..i] == M[p][..i];
    assert M[i][..i] + M[i][i..] == M[i];
    assert M[p][..i] + M[p][i..] == M[p];
  }

  /** Exchanging the tails of two rows that agree (are zero) before column i is a row swap. */
  lemma SwapBalanced(M: Matrix, i: nat, p: nat, x: seq<real>, t: real)
    requires Augmented(M) && i <= p < |M| && LowerZero(M, i)
    requires Balanced(SwapTail(M, i, p), x, t)
    ensures Balanced(M, x, t)
  {
    SwapRowsEqual(M, i, p);
    var R := SwapTail(M, i, p);
    assert |R| == |M|;
    forall r | 0 <= r < |M| ensures Sum(M[r], x, 0, |M|) == t * M[r][|M|] {
      var q := if r == i then p else if r == p then i else r;
      assert M[r] == R[q];
      BalancedRow(R, q, x, t);
    }
  }

  /** One row of a balanced matrix balances. */
  lemma BalancedRow(R: Matrix, q: nat, x: seq<real>, t: real)
    requires Augmented(R) && q < |R| && Balanced(R, x, t)
    ensures Sum(R[q], x, 0, |R|) == t * R[q][|R|]
  {
  }

  /** An eliminated row is the old row plus c times the pivot row, in every column. */
  lemma ElimRowCombines(pivotRow: seq<real>, row: seq<real>, i: nat, c: real)
    requires i < |row| == |pivotRow| && row[i] + c * pivotRow[i] == 0.0
    requires forall j :: 0 <= j < i ==> row[j] == 0.0 && pivotRow[j] == 0.0
    ensures forall j {:trigger ElimRow(pivotRow, row, i, c)[j]} :: 0 <= j < |row| ==>
      ElimRow(pivotRow, row, i, c)[j] == row[j] + c * pivotRow[j]
  {
  }

  /** Residual of a combined row: the first row's plus c times the second's. */
  lemma CombineResidual(a: seq<real>, b: seq<real>, c: real, s: seq<real>, x: seq<real>, t: real)
    requires |a| == |b| == |s| == |x| + 1
    requires forall j {:trigger s[j]} :: 0 <= j < |s| ==> s[j] == a[j] + c * b[j]
    ensures Sum(s, x, 0, |x|) - t * s[|x|] == (Sum(a, x, 0, |x|) - t * a[|x|]) + c * (Sum(b, x, 0, |x|) - t * b[|x|])
  {
    SumCombine(a, b, c, s, x, 0, |x|);
    ResidualOfSums(a, b, c, s, x, t);
  }

  lemma ResidualOfSums(a: seq<real>, b: seq<real>, c: real, s: seq<real>, x: seq<real>, t: real)
    requires |a| == |b| == |s| == |x| + 1
    requires s[|x|] == a[|x|] + c * b[|x|]
    requires Sum(s, x, 0, |x|) == Sum(a, x, 0, |x|) + c * Sum(b, x, 0, |x|)
    ensures Sum(s, x, 0, |x|) - t * s[|x|] == (Sum(a, x, 0, |x|) - t * a[|x|]) + c * (Sum(b, x, 0, |x|) - t * b[|x|])
  {
    var n := |x|;
    ResidualAlgebra(Sum(s, x, 0, n), Sum(a, x, 0, n), Sum(b, x, 0, n), s[n], a[n], b[n], c, t);
  }

  lemma ResidualAlgebra(se: real, sr: real, sp: real, en: real, rn: real, pn: real, c: real, t: real)
    requires se == sr + c * sp && en == rn + c * pn
    ensures se - t * en == (sr - t * rn) + c * (sp - t * pn)
  {
    assert t * en == t * rn + c * (t * pn);
  }

  lemma ZeroResiduals(u: real, v: real, w: real, c: real)
    requires u == v + c * w && u == 0.0 && w == 0.0
    ensures v == 0.0
  {
  }

  lemma MultiplierCancels(a: real, b: real)
    requires b != 0.0
    ensures a + (-a / b) * b == 0.0
  {
  }

  /** Row r > i of M balances when its eliminated form and the pivot row do. */
  lemma EliminatedRowBalanced(M: Matrix, i: nat, r: nat, x: seq<real>, t: real)
    requires Augmented(M) && i < r < |M| && |x| == |M| && M[i][i] != 0.0 && LowerZero(M, i)
    requires Sum(M[i], x, 0, |x|) == t * M[i][|x|]
    requires Sum(EliminateBelow(M, i)[r], x, 0, |x|) == t * EliminateBelow(M, i)[r][|x|]
    ensures Sum(M[r], x, 0, |x|) == t * M[r][|x|]
  {
    var c := EliminatedEntries(M, i, r);
    CombinedBalanced(M[r], M[i], c, EliminateBelow(M, i)[r], x, t);
  }

  /** s is a + c b, entry by entry. */
  predicate Combination(s: seq<real>, a: seq<real>, b: seq<real>, c: real)
    requires |a| == |b| == |s|
  {
    forall j {:trigger s[j]} :: 0 <= j < |s| ==> s[j] == a[j] + c * b[j]
  }

  /** When s = a + c b entrywise, and s and b balance, so does a. */
  lemma CombinedBalanced(a: seq<real>, b: seq<real>, c: real, s: seq<real>, x: seq<real>, t: real)
    requires |a| == |b| == |s| == |x| + 1
    requires Combination(s, a, b, c)
    requires Sum(s, x, 0, |x|) == t * s[|x|] && Sum(b, x, 0, |x|) == t * b[|x|]
    ensures Sum(a, x, 0, |x|) == t * a[|x|]
  {
    CombineResidual(a, b, c, s, x, t);
    ZeroResiduals(Sum(s, x, 0, |x|) - t * s[|x|], Sum(a, x, 0, |x|) - t * a[|x|],
      Sum(b, x, 0, |x|) - t * b[|x|], c);
  }

  /** Row r > i of the eliminated matrix is row r plus c times the pivot row, in every column. */
  lemma EliminatedEntries(M: Matrix, i: nat, r: nat) returns (c: real)
    requires Augmented(M) && i < r < |M| && M[i][i] != 0.0 && LowerZero(M, i)
    ensures |EliminateBelow(M, i)[r]| == |M[r]| == |M[i]| == |M| + 1
    ensures Combination(EliminateBelow(M, i)[r], M[r], M[i], c)
  {
    c := -M[r][i] / M[i][i];
    var e := EliminateBelow(M, i)[r];
    MultiplierCancels(M[r][i], M[i][i]);
    assert e == ElimRow(M[i], M[r], i, c);
    assert forall j :: 0 <= j < i ==> M[r][j] == 0.0 && M[i][j] == 0.0;
    ElimRowCombines(M[i], M[r], i, c);
  }

  lemma EliminateBalanced(M: Matrix, i: nat, x: seq<real>, t: real)
    requires Augmented(M) && i < |M| && (i + 1 < |M| ==> M[i][i] != 0.0) && LowerZero(M, i)
    requires Balanced(EliminateBelow(M, i), x, t)
    ensures Balanced(M, x, t)
  {
    var R := EliminateBelow(M, i);
    assert R[i] == M[i];
    assert |R| == |M|;
    forall r | 0 <= r < |M| ensures Sum(M[r], x, 0, |M|) == t * M[r][|M|] {
      BalancedRow(R, r, x, t);
      if r > i {
        EliminatedRowBalanced(M, i, r, x, t);
      } else {
        assert R[r] == M[r];
      }
    }
  }


  lemma SwapKeepsShape(M: Matrix, i: nat, p: nat)
    requires Augmented(M) && i <= p < |M| && LowerZero(M, i)
    ensures LowerZero(SwapTail(M, i, p), i)
    ensures DiagNonzero(M, i) ==> DiagNonzero(SwapTail(M, i, p), i)
  {
    SwapRowsEqual(M, i, p);
  }

  lemma EliminateKeepsShape(M: Matrix, i: nat)
    requires Augmented(M) && i < |M| && (i + 1 < |M| ==> M[i][i] != 0.0) && LowerZero(M, i)
    ensures LowerZero(EliminateBelow(M, i), i + 1)
    ensures DiagNonzero(M, i) && i + 1 < |M| ==> DiagNonzero(EliminateBelow(M, i), i + 1)
  {
  }

  /**
   * Whatever solves (t = 1) or is annihilated by (t = 0) the triangulated
   * matrix does the same for the matrix elimination started from.
   */
  lemma {:induction false} TriangulateBalanced(M: Matrix, i: nat, x: seq<real>, t: real)
    requires Augmented(M) && i <= |M| && LowerZero(M, i)
    requires Triangulate(M, i).Some? && Balanced(Triangulate(M, i).value, x, t)
    ensures Balanced(M, x, t)
    decreases |M| - i
  {
    if i < |M| {
      var p := Pivot(M, i, |M|);
      var M1 := SwapTail(M, i, p);
      SwapKeepsShape(M, i, p);
      var M2 := EliminateBelow(M1, i);
      EliminateKeepsShape(M1, i);
      TriangulateBalanced(M2, i + 1, x, t);
      EliminateBalanced(M1, i, x, t);
      SwapBalanced(M, i, p, x, t);
    }
  }

  /** The triangulated matrix is upper triangular with nonzero pivots, except perhaps the last. */
  lemma {:induction false} TriangulateShape(M: Matrix, i: nat)
    requires Augmented(M) && i <= |M| && LowerZero(M, i) && DiagNonzero(M, i)
    requires Triangulate(M, i).Some?
    ensures LowerZero(Triangulate(M, i).value, |M|)
    ensures |M| > 0 ==> DiagNonzero(Triangulate(M, i).value, if i == |M| then i else |M| - 1)
    decreases |M| - i
  {
    if i < |M| {
      var p := Pivot(M, i, |M|);
      var M1 := SwapTail(M, i, p);
      SwapKeepsShape(M, i, p);
      var M2 := EliminateBelow(M1, i);
      EliminateKeepsShape(M1, i);
      if i + 1 < |M| {
        TriangulateShape(M2, i + 1);
      } else {
        assert Triangulate(M, i) == Triangulate(M2, i + 1) == Some(M2);
      }
    }
  }

  // ---------------------------------------------------------------------
  // Back substitution

  /** Changing an entry of x whose coefficient is zero leaves the sum alone. */
  lemma {:induction false} SumUpdateZero(row: seq<real>, x: seq<real>, r: nat, v: real, lo: nat, hi: nat)
    requires lo <= hi <= |row| && hi <= |x| && r < |x| && (r < |row| ==> row[r] == 0.0)
    ensures Sum(row, x[r := v], lo, hi) == Sum(row, x, lo, hi)
    decreases hi - lo
  {
    if lo < hi { SumUpdateZero(row, x, r, v, lo + 1, hi); }
  }

  /**
   * The state of back substitution before row i - 1 is solved, for the
   * triangular system U: x already satisfies rows i .. n - 1, and row k < i
   * of M has U's coefficients with the known part of its sum moved right.
   */
  predicate BackInv(U: Matrix, M: Matrix, i: nat, x: seq<real>)
    requires Augmented(U) && Augmented(M) && |M| == |U| == |x| && i <= |U|
  {
    (forall k :: 0 <= k < |U| ==> M[k][..|U|] == U[k][..|U|]) &&
    (forall k :: 0 <= k < i ==> M[k][|U|] == U[k][|U|] - Sum(U[k], x, i, |U|)) &&
    (forall k :: i <= k < |U| ==> Sum(U[k], x, 0, |U|) == U[k][|U|])
  }

  lemma SubtractColumnRow(M: Matrix, r: nat, xr: real, k: nat)
    requires Augmented(M) && r < |M| && k < |M|
    ensures SubtractColumn(M, r, xr)[k][..|M|] == M[k][..|M|]
    ensures k < r ==> SubtractColumn(M, r, xr)[k][|M|] == M[k][|M|] - M[k][r] * xr
    ensures r <= k ==> SubtractColumn(M, r, xr)[k] == M[k]
  {
    var R := SubtractColumn(M, r, xr);
    if k < r {
      var v := M[k][|M|] - M[k][r] * xr;
      assert R[k] == MoveKnown(M[k], |M|, r, xr);
      assert (M[k][..|M|] + [v])[..|M|] == M[k][..|M|];
    }
  }

  lemma SubtractColumnRows(M: Matrix, r: nat, xr: real)
    requires Augmented(M) && r < |M|
    ensures forall k :: 0 <= k < |M| ==> SubtractColumn(M, r, xr)[k][..|M|] == M[k][..|M|]
    ensures forall k :: 0 <= k < r ==> SubtractColumn(M, r, xr)[k][|M|] == M[k][|M|] - M[k][r] * xr
    ensures forall k :: r <= k < |M| ==> SubtractColumn(M, r, xr)[k] == M[k]
  {
    forall k | 0 <= k < |M| ensures SubtractColumn(M, r, xr)[k][..|M|] == M[k][..|M|]
      && (k < r ==> SubtractColumn(M, r, xr)[k][|M|] == M[k][|M|] - M[k][r] * xr)
      && (r <= k ==> SubtractColumn(M, r, xr)[k] == M[k])
    {
      SubtractColumnRow(M, r, xr, k);
    }
  }

  /** Row k < r after the step: its right-hand side loses U[k][r] * xr as well. */
  lemma BackStepAbove(u: seq<real>, x: seq<real>, y: seq<real>, r: nat, m: real, ukr: real)
    requires r < |x| && |u| == |x| + 1 && ukr == u[r] && UpdatedAt(x, y, r)
    ensures m - ukr * y[r] == (m + Sum(u, x, r + 1, |x|)) - Sum(u, y, r, |x|)
  {
    SumFrame(u, x, u, y, r + 1, |x|);
  }

  /** y is x with entry r replaced. */
  predicate UpdatedAt(x: seq<real>, y: seq<real>, r: nat) {
    |y| == |x| && forall j {:trigger y[j]} :: 0 <= j < |x| && j != r ==> y[j] == x[j]
  }

  /** Row r's sum with x[r] set to y[r]: leading zeros drop, the tail is unchanged. */
  lemma BackRowSum(u: seq<real>, x: seq<real>, y: seq<real>, r: nat)
    requires r < |x| && |u| == |x| + 1 && UpdatedAt(x, y, r)
    requires forall j :: 0 <= j < r ==> u[j] == 0.0
    ensures Sum(u, y, 0, |x|) == u[r] * y[r] + Sum(u, x, r + 1, |x|)
  {
    SumSplit(u, y, 0, r, |x|);
    SumZero(u, y, 0, r);
    SumFrame(u, x, u, y, r + 1, |x|);
  }

  /** Row r after the step: y[r] = rhs / pivot completes the row's equation. */
  lemma BackStepRow(u: seq<real>, x: seq<real>, y: seq<real>, r: nat, rhs: real)
    requires r < |x| && |u| == |x| + 1 && UpdatedAt(x, y, r) && u[r] * y[r] == rhs
    requires forall j :: 0 <= j < r ==> u[j] == 0.0
    requires rhs == u[|x|] - Sum(u, x, r + 1, |x|)
    ensures Sum(u, y, 0, |x|) == u[|x|]
  {
    BackRowSum(u, x, y, r);
  }

  lemma DivMul(a: real, b: real)
    requires b != 0.0
    ensures b * (a / b) == a
  {
  }

  /** One step of back substitution keeps BackInv. */
  lemma BackStep(U: Matrix, M: Matrix, i: nat, x: seq<real>)
    requires Augmented(U) && Augmented(M) && |M| == |U| == |x| && 0 < i <= |U|
    requires LowerZero(U, |U|) && BackInv(U, M, i, x) && M[i - 1][i - 1] != 0.0
    ensures BackInv(U, SubtractColumn(M, i - 1, M[i - 1][|U|] / M[i - 1][i - 1]), i - 1,
                    x[i - 1 := M[i - 1][|U|] / M[i - 1][i - 1]])
  {
    var n, r := |U|, i - 1;
    var xr := M[r][n] / M[r][r];
    var y := x[r := xr];
    assert UpdatedAt(x, y, r);
    var M' := SubtractColumn(M, r, xr);
    SubtractColumnRows(M, r, xr);
    assert U[r][r] == M[r][r] by { assert M[r][..n][r] == U[r][..n][r]; }
    forall k | 0 <= k < r ensures M'[k][n] == U[k][n] - Sum(U[k], y, r, n) {
      assert U[k][r] == M[k][r] by { assert M[k][..n][r] == U[k][..n][r]; }
      BackStepAbove(U[k], x, y, r, M[k][n], M[k][r]);
    }
    forall k | r <= k < n ensures Sum(U[k], y, 0, n) == U[k][n] {
      if k == r {
        DivMul(M[r][n], M[r][r]);
        BackStepRow(U[r], x, y, r, M[r][n]);
      } else {
        SumUpdateZero(U[k], x, r, xr, 0, n);
      }
    }
  }

  /** Back substitution from a BackInv state solves the triangular system. */
  lemma {:induction false} BackSubstSolves(U: Matrix, M: Matrix, i: nat, x: seq<real>)
    requires Augmented(U) && Augmented(M) && |M| == |U| == |x| && i <= |U|
    requires LowerZero(U, |U|) && BackInv(U, M, i, x) && BackSubst(M, i, x).Some?
    ensures Solves(U, BackSubst(M, i, x).value.0)
    decreases i
  {
    if i > 0 {
      var r := i - 1;
      var xr := M[r][|M|] / M[r][r];
      BackStep(U, M, i, x);
      BackSubstSolves(U, SubtractColumn(M, r, xr), r, x[r := xr]);
    }
  }

  /** Back substitution fails only on a zero diagonal entry. */
  lemma {:induction false} BackSubstSucceeds(M: Matrix, i: nat, x: seq<real>)
    requires Augmented(M) && i <= |M| == |x| && DiagNonzero(M, i)
    ensures BackSubst(M, i, x).Some?
    decreases i
  {
    if i > 0 {
      var r := i - 1;
      var xr := M[r][|M|] / M[r][r];
      SubtractColumnRows(M, r, xr);
      var M' := SubtractColumn(M, r, xr);
      forall k | 0 <= k < r ensures M'[k][k] == M[k][k] {
        assert M'[k][..|M|][k] == M[k][..|M|][k];
      }
      BackSubstSucceeds(M', r, x[r := xr]);
    }
  }

  lemma BackInvStart(U: Matrix)
    requires Augmented(U)
    ensures BackInv(U, U, |U|, Zeros(|U|))
  {
  }

  // ---------------------------------------------------------------------
  // What Solve promises

  /** A solution returned by `solve_matrix` satisfies every original equation. */
  lemma SolveSound(M: Matrix, x: seq<real>)
    requires Augmented(M) && Solve(M) == Some(x)
    ensures Solves(M, x)
  {
    var U := Triangulate(M, 0).value;
    TriangulateShape(M, 0);
    BackInvStart(U);
    BackSubstSolves(U, U, |U|, Zeros(|U|));
    TriangulateBalanced(M, 0, x, 1.0);
  }

  /** The square system of the first i rows and columns, right-hand side -A[k][i]. */
  function LeadingBlock(A: Matrix, i: nat): (K: Matrix)
    requires Augmented(A) && i < |A|
    ensures |K| == i && Augmented(K)
  {
    seq(i, k requires 0 <= k < i => A[k][..i] + [-A[k][i]])
  }

  lemma LeadingBlockRow(A: Matrix, i: nat, k: nat)
    requires Augmented(A) && k < i < |A|
    ensures forall j :: 0 <= j < i ==> LeadingBlock(A, i)[k][j] == A[k][j]
    ensures LeadingBlock(A, i)[k][i] == -A[k][i]
  {
    var K := LeadingBlock(A, i);
    assert K[k] == A[k][..i] + [-A[k][i]];
  }

  /** Row k < i balances at zero: the block solution cancels the column-i term. */
  lemma KernelRowAbove(a: seq<real>, i: nat, z: seq<real>, y: seq<real>, kr: seq<real>)
    requires |z| == i < |y| && |a| == |y| + 1 && |kr| == i + 1
    requires forall j :: 0 <= j < i ==> y[j] == z[j] && kr[j] == a[j]
    requires y[i] == 1.0 && forall j :: i < j < |y| ==> y[j] == 0.0
    requires kr[i] == -a[i] && Sum(kr, z, 0, i) == kr[i]
    ensures Sum(a, y, 0, |y|) == 0.0
  {
    SumSplit(a, y, 0, i, |y|);
    SumFrame(a, y, kr, z, 0, i);
    SumZero(a, y, i + 1, |y|);
  }

  /** Row k >= i balances at zero: each term has a zero factor. */
  lemma KernelRowBelow(a: seq<real>, i: nat, k: nat, y: seq<real>)
    requires i <= k < |y| && |a| == |y| + 1 && a[i] == 0.0
    requires forall j :: 0 <= j < i ==> a[j] == 0.0
    requires forall j :: i < j < |y| ==> y[j] == 0.0
    ensures Sum(a, y, 0, |y|) == 0.0
  {
    SumZero(a, y, 0, |y|);
  }

  /**
   * A matrix whose column i is zero from the diagonal down, above which the
   * pivots are nonzero, has a nonzero kernel vector with entry i equal to 1.
   */
  lemma KernelFromZeroColumn(A: Matrix, i: nat)
    requires Augmented(A) && i < |A| && LowerZero(A, i) && DiagNonzero(A, i)
    requires forall k :: i <= k < |A| ==> A[k][i] == 0.0
    ensures Singular(A)
  {
    var n := |A|;
    var K := LeadingBlock(A, i);
    forall k | 0 <= k < i ensures forall j :: 0 <= j < i ==> K[k][j] == A[k][j] {
      LeadingBlockRow(A, i, k);
    }
    assert LowerZero(K, i) && DiagNonzero(K, i);
    BackSubstSucceeds(K, i, Zeros(i));
    BackInvStart(K);
    BackSubstSolves(K, K, i, Zeros(i));
    var z := BackSubst(K, i, Zeros(i)).value.0;
    var y := z + [1.0] + Zeros(n - i - 1);
    assert y[i] == 1.0 && y != Zeros(n) by { assert Zeros(n)[i] == 0.0; }
    forall k | 0 <= k < n ensures Sum(A[k], y, 0, n) == 0.0 * A[k][n] {
      if k < i {
        LeadingBlockRow(A, i, k);
        KernelRowAbove(A[k], i, z, y, K[k]);
      } else {
        KernelRowBelow(A[k], i, k, y);
      }
    }
    assert Balanced(A, y, 0.0);
  }

  /** Forward elimination stops only on a column that makes the system singular. */
  lemma {:induction false} TriangulateNoneSingular(M: Matrix, i: nat)
    requires Augmented(M) && i <= |M| && LowerZero(M, i) && DiagNonzero(M, i)
    requires Triangulate(M, i).None?
    ensures Singular(M)
    decreases |M| - i
  {
    var p := Pivot(M, i, |M|);
    var M1 := SwapTail(M, i, p);
    SwapKeepsShape(M, i, p);
    SwapRowsEqual(M, i, p);
    var y: seq<real>;
    if i + 1 < |M| && M1[i][i] == 0.0 {
      PivotFirstMax(M, i, |M|);
      forall k | i <= k < |M| ensures M1[k][i] == 0.0 {
        if k != i && k != p { assert M1[k] == M[k]; }
      }
      KernelFromZeroColumn(M1, i);
      y :| |y| == |M1| && y != Zeros(|M1|) && Balanced(M1, y, 0.0);
    } else {
      var M2 := EliminateBelow(M1, i);
      EliminateKeepsShape(M1, i);
      TriangulateNoneSingular(M2, i + 1);
      y :| |y| == |M2| && y != Zeros(|M2|) && Balanced(M2, y, 0.0);
      EliminateBalanced(M1, i, y, 0.0);
    }
    SwapBalanced(M, i, p, y, 0.0);
  }

  lemma DiagNonzeroExtend(M: Matrix, i: nat)
    requires Augmented(M) && i < |M| && DiagNonzero(M, i) && M[i][i] != 0.0
    ensures DiagNonzero(M, i + 1)
  {
  }

  /** Back substitution stops only on a zero last pivot, a singular column. */
  lemma BackSubstNoneSingular(U: Matrix)
    requires Augmented(U) && |U| > 0 && LowerZero(U, |U|) && DiagNonzero(U, |U| - 1)
    requires BackSubst(U, |U|, Zeros(|U|)).None?
    ensures Singular(U)
  {
    var n := |U|;
    if U[n - 1][n - 1] != 0.0 {
      DiagNonzeroExtend(U, n - 1);
      BackSubstSucceeds(U, n, Zeros(n));
      assert false;
    }
    assert forall k :: n - 1 <= k < n ==> U[k][n - 1] == 0.0;
    KernelFromZeroColumn(U, n - 1);
  }

  /** `solve_matrix` fails only on a singular system. */
  lemma SolveNoneSingular(M: Matrix)
    requires Augmented(M) && Solve(M).None?
    ensures Singular(M)
  {
    if Triangulate(M, 0).None? {
      TriangulateNoneSingular(M, 0);
    } else {
      var U := Triangulate(M, 0).value;
      TriangulateShape(M, 0);
      if |U| == 0 {
        assert false;
      }
      BackSubstNoneSingular(U);
      var y :| |y| == |U| && y != Zeros(|U|) && Balanced(U, y, 0.0);
      TriangulateBalanced(M, 0, y, 0.0);
    }
  }

  // ---------------------------------------------------------------------
  // The system from the solver's unit test

  const Example: Matrix := [[0.0, 1.0, -1.0, -2.0], [1.0, 1.0, 1.0, 13.0], [1.0, -2.0, 0.0, 3.0]]

  lemma Sum3(row: seq<real>, x: seq<real>)
    requires |row| == 4 && |x| == 3
    ensures Sum(row, x, 0, 3) == row[0] * x[0] + row[1] * x[1] + row[2] * x[2]
  {
    assert Sum(row, x, 2, 3) == row[2] * x[2];
  }

  /** The example's equations pin every unknown: x = (7, 2, 4) is the only solution. */
  lemma ExampleBalanced(x: seq<real>, t: real)
    requires Augmented(Example) && Balanced(Example, x, t)
    ensures x == [7.0 * t, 2.0 * t, 4.0 * t]
  {
    Sum3(Example[0], x);
    Sum3(Example[1], x);
    Sum3(Example[2], x);
    assert x[1] - x[2] == -2.0 * t;
    assert x[0] + x[1] + x[2] == 13.0 * t;
    assert x[0] - 2.0 * x[1] == 3.0 * t;
  }

  /** solve_matrix([[0,1,-1,-2],[1,1,1,13],[1,-2,0,3]]) == [7, 2, 4]. */
  lemma SolveExample()
    ensures Augmented(Example) && Solve(Example) == Some([7.0, 2.0, 4.0])
  {
    assert Augmented(Example);
    if Solve(Example).None? {
      SolveNoneSingular(Example);
      var y :| |y| == 3 && y != Zeros(3) && Balanced(Example, y, 0.0);
      ExampleBalanced(y, 0.0);
      assert false;
    }
    var x := Solve(Example).value;
    SolveSound(Example, x);
    ExampleBalanced(x, 1.0);
  }

  lemma Sum2(row: seq<real>, x: seq<real>)
    requires |row| == 3 && |x| == 2
    ensures Sum(row, x, 0, 2) == row[0] * x[0] + row[1] * x[1]
  {
    assert Sum(row, x, 1, 2) == row[1] * x[1];
  }

  /**
   * A system whose only solution is y, and whose homogeneous version has
   * only the zero solution, is solved to y.
   */
  lemma SolveUnique(M: Matrix, y: seq<real>)
    requires Augmented(M)
    requires forall s {:trigger Balanced(M, s, 0.0)} :: Balanced(M, s, 0.0) ==> s == Zeros(|M|)
    requires forall s {:trigger Balanced(M, s, 1.0)} :: Balanced(M, s, 1.0) ==> s == y
    ensures Solve(M) == Some(y)
  {
    if Solve(M).None? {
      SolveNoneSingular(M);
      assert false;
    }
    SolveSound(M, Solve(M).value);
  }
}
