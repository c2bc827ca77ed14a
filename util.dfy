/**
 * Helpers of petrify/util.py: grouping a sequence by a key, and locating
 * the circle tangent to a line and to a second line through a given point.
 */
module Util {
  import opened Wrappers
  import opened PlanePoint
  import PlaneLine
  import Solver

  // ---------------------------------------------------------------------
  // index_by

  /**
   * The reference definition of `index_by(it, f)`: the dictionary after the
   * first |it| items, each appended to the list under its key.
   */
  ghost function Grouped<T, K>(it: seq<T>, f: T -> K): map<K, seq<T>>
  {
    if it == [] then map[]
    else
      var d := Grouped(it[..|it| - 1], f);
      var k := f(it[|it| - 1]);
      d[k := (if k in d then d[k] else []) + [it[|it| - 1]]]
  }

  /** The items of `it` whose key is k, in order. */
  ghost function WithKey<T, K>(it: seq<T>, f: T -> K, k: K): (r: seq<T>)
    ensures |r| <= |it|
    ensures forall x :: x in r ==> x in it && f(x) == k
  {
    if it == [] then []
    else WithKey(it[..|it| - 1], f, k) + (if f(it[|it| - 1]) == k then [it[|it| - 1]] else [])
  }

  /**
   * `index_by(it, f)`: one pass over `it` that appends each item to the list
   * stored under its key, creating the list on first use.
   */
  method IndexBy<T, K>(it: seq<T>, f: T -> K) returns (d: map<K, seq<T>>)
    ensures d == Grouped(it, f)
  {
    d := map[];
    var n := 0;
    while n < |it|
      invariant 0 <= n <= |it|
      invariant d == Grouped(it[..n], f)
    {
      var k := f(it[n]);
      var previous := if k in d then d[k] else [];
      previous := previous + [it[n]];
      d := d[k := previous];
      assert it[..n + 1][..n] == it[..n];
      n := n + 1;
    }
    assert it[..n] == it;
  }

  /**
   * A key is in the grouping exactly when some item has it, and its list
   * holds the items with that key, in their original order.
   */
  lemma {:induction false} GroupedProperties<T, K>(it: seq<T>, f: T -> K, k: K)
    ensures k in Grouped(it, f) <==> exists i :: 0 <= i < |it| && f(it[i]) == k
    ensures k in Grouped(it, f) ==> Grouped(it, f)[k] == WithKey(it, f, k)
    ensures k !in Grouped(it, f) ==> WithKey(it, f, k) == []
  {
    if it != [] {
      var init, last := it[..|it| - 1], it[|it| - 1];
      GroupedProperties(init, f, k);
      if f(last) == k {
        assert f(it[|it| - 1]) == k;
      } else {
        if k in Grouped(init, f) {
          var i :| 0 <= i < |init| && f(init[i]) == k;
          assert it[i] == init[i];
        }
        if exists i :: 0 <= i < |it| && f(it[i]) == k {
          var i :| 0 <= i < |it| && f(it[i]) == k;
          assert i < |init| && init[i] == it[i];
        }
      }
    }
  }

  /** The key function of IndexByExample. */
  function Parity(x: int): int { x % 2 }

  /** Appending one item extends the list under its key. */
  lemma GroupedSnoc<T, K>(init: seq<T>, x: T, f: T -> K)
    ensures Grouped(init + [x], f) == Grouped(init, f)[f(x) := (if f(x) in Grouped(init, f) then Grouped(init, f)[f(x)] else []) + [x]]
  {
    assert (init + [x])[..|init|] == init;
  }

  /** The grouping of a concrete list: [1, 2, 3, 4] by parity. */
  lemma IndexByExample()
    ensures Grouped([1, 2, 3, 4], Parity) == map[1 := [1, 3], 0 := [2, 4]]
  {
    GroupedThree();
    GroupedSnoc([1, 2, 3], 4, Parity);
    assert [1, 2, 3] + [4] == [1, 2, 3, 4];
    assert [2] + [4] == [2, 4];
  }

  lemma GroupedOne()
    ensures Grouped([1], Parity) == map[1 := [1]]
  {
    GroupedSnoc([], 1, Parity);
    assert [] + [1] == [1];
  }

  lemma GroupedTwo()
    ensures Grouped([1, 2], Parity) == map[1 := [1], 0 := [2]]
  {
    GroupedOne();
    GroupedSnoc([1], 2, Parity);
    assert [1] + [2] == [1, 2];
    assert [] + [2] == [2];
  }

  lemma GroupedThree()
    ensures Grouped([1, 2, 3], Parity) == map[1 := [1, 3], 0 := [2]]
  {
    GroupedTwo();
    GroupedSnoc([1, 2], 3, Parity);
    assert [1, 2] + [3] == [1, 2, 3];
    assert [1] + [3] == [1, 3];
  }

  // ---------------------------------------------------------------------
  // locate_circle

  /** A located circle: its centre, its radius and where it touches the line. */
  datatype CircleFit = CircleFit(center: V2, radius: real, at: real)

  /** `a + b` for two planar values. */
  function Plus(a: V2, b: V2): (r: V2)
    ensures Add(a, Planar(b)) == Some(r)
  {
    V2(SumKind(a.kind, b.kind), a.x + b.x, a.y + b.y)
  }

  /** `a - b` for two planar values. */
  function Minus(a: V2, b: V2): (r: V2)
    ensures Sub(a, Planar(b)) == Some(r)
  {
    V2(SumKind(a.kind, b.kind), a.x - b.x, a.y - b.y)
  }

  /**
   * The 2 x 3 system of `locate_circle`: columns v / |v|, nl - npn and the
   * right-hand side p - l.p, with npn = np / |np| and nl = cross(v) / |v|
   * (the perpendicular has the same length as v).
   */
  function CircleSystem(p: V2, np: V2, l: PlaneLine.L2, npMag: real, vMag: real): (M: Solver.Matrix)
    ensures Solver.Augmented(M) && |M| == 2
  {
    [[Normalized(l.v, vMag).x, Minus(Normalized(Cross(l.v), vMag), Normalized(np, npMag)).x, Minus(p, l.p).x],
     [Normalized(l.v, vMag).y, Minus(Normalized(Cross(l.v), vMag), Normalized(np, npMag)).y, Minus(p, l.p).y]]
  }

  /**
   * `locate_circle(p, np, l)`, with the magnitudes |np| and |l.v| passed in:
   * solve l.p + v x + nl r == p + npn r for the position x along l and the
   * radius r. None stands for a ZeroDivisionError (a singular system or a
   * zero-length l) and for a tangent point off the segment (x < 0 or x > 1).
   */
  function LocateCircle(p: V2, np: V2, l: PlaneLine.L2, npMag: real, vMag: real): Option<CircleFit>
  {
    match Solver.Solve(CircleSystem(p, np, l, npMag, vMag))
    case None => None
    case Some(s) =>
      if vMag == 0.0 then None
      else if s[0] / vMag < 0.0 || s[0] / vMag > 1.0 then None
      else Some(CircleFit(Plus(p, Mul(Normalized(np, npMag), Num(s[1])).value), s[1], s[0] / vMag))
  }

  /** Row i = [a, b, c] of a 2 x 3 system that s solves: a s0 + b s1 == c. */
  lemma SolvedRow2(M: Solver.Matrix, s: seq<real>, t: real, i: int, a: real, b: real, c: real)
    requires Solver.Augmented(M) && |M| == 2
    requires Solver.Balanced(M, s, t)
    requires 0 <= i < 2
    requires M[i] == [a, b, c]
    ensures a * s[0] + b * s[1] == t * c
  {
    assert Solver.Sum(M[i], s, 0, 2) == t * M[i][2];
    Solver.Sum2(M[i], s);
  }

  /**
   * A located circle touches l at parameter `at`, which lies on the segment,
   * with its centre `radius` along the line's normal nl from there; the same
   * centre is `radius` along npn from p.
   */
  lemma LocateCircleProperties(p: V2, np: V2, l: PlaneLine.L2, npMag: real, vMag: real, fit: CircleFit)
    requires LocateCircle(p, np, l, npMag, vMag) == Some(fit)
    ensures vMag != 0.0 && 0.0 <= fit.at <= 1.0
    ensures fit.center == Plus(p, Mul(Normalized(np, npMag), Num(fit.radius)).value)
    ensures fit.center.x == l.p.x + l.v.x * fit.at + Normalized(Cross(l.v), vMag).x * fit.radius
    ensures fit.center.y == l.p.y + l.v.y * fit.at + Normalized(Cross(l.v), vMag).y * fit.radius
  {
    var M := CircleSystem(p, np, l, npMag, vMag);
    var s := Solver.Solve(M).value;
    Solver.SolveSound(M, s);
    CircleTouches(p, np, l, npMag, vMag, s, fit);
  }

  /** The geometric reading of a solution s of the circle system. */
  lemma CircleTouches(p: V2, np: V2, l: PlaneLine.L2, npMag: real, vMag: real, s: seq<real>, fit: CircleFit)
    requires Solver.Solves(CircleSystem(p, np, l, npMag, vMag), s)
    requires vMag != 0.0
    requires fit.at == s[0] / vMag
    requires fit.radius == s[1]
    requires fit.center == Plus(p, Mul(Normalized(np, npMag), Num(s[1])).value)
    ensures fit.center.x == l.p.x + l.v.x * fit.at + Normalized(Cross(l.v), vMag).x * fit.radius
    ensures fit.center.y == l.p.y + l.v.y * fit.at + Normalized(Cross(l.v), vMag).y * fit.radius
  {
    var M := CircleSystem(p, np, l, npMag, vMag);
    var a, nl, npn := Normalized(l.v, vMag), Normalized(Cross(l.v), vMag), Normalized(np, npMag);
    assert fit.center.x == l.p.x + l.v.x * fit.at + nl.x * fit.radius by {
      TouchRow(M, s, 0, l.v.x, a.x, vMag, nl.x, npn.x, p.x, l.p.x, fit.at);
      assert fit.center.x == p.x + npn.x * s[1];
    }
    assert fit.center.y == l.p.y + l.v.y * fit.at + nl.y * fit.radius by {
      TouchRow(M, s, 1, l.v.y, a.y, vMag, nl.y, npn.y, p.y, l.p.y, fit.at);
      assert fit.center.y == p.y + npn.y * s[1];
    }
  }

  /** Row i = [a, nl - npn, p - lp] of the solved circle system, read along the line. */
  lemma TouchRow(M: Solver.Matrix, s: seq<real>, i: int, v: real, a: real, m: real, nl: real, npn: real, p: real, lp: real, x: real)
    requires Solver.Augmented(M) && |M| == 2
    requires Solver.Solves(M, s)
    requires 0 <= i < 2
    requires M[i] == [a, nl - npn, p - lp]
    requires m != 0.0
    requires a * m == v
    requires x == s[0] / m
    ensures p + npn * s[1] == lp + v * x + nl * s[1]
  {
    SolvedRow2(M, s, 1.0, i, a, nl - npn, p - lp);
    TangentRow(v, a, m, s[0], s[1], nl, npn, p, lp, x);
  }

  /**
   * One row of the solved system, rewritten in terms of the position
   * x = s0 / |v| along the line: with a |v| == v,
   * a s0 + (nl - npn) s1 == p - lp gives p + npn s1 == lp + v x + nl s1.
   */
  lemma TangentRow(v: real, a: real, m: real, s0: real, s1: real, nl: real, npn: real, p: real, lp: real, x: real)
    requires m != 0.0
    requires a * m == v
    requires x == s0 / m
    requires 1.0 * (p - lp) == a * s0 + (nl - npn) * s1
    ensures p + npn * s1 == lp + v * x + nl * s1
  {
    assert a * s0 == v * x by {
      assert s0 == x * m;
      assert a * s0 == (a * m) * x;
    }
  }

  /** A singular system (the line parallel to nl - npn) gives no circle. */
  lemma LocateCircleSingular(p: V2, np: V2, l: PlaneLine.L2, npMag: real, vMag: real)
    requires Solver.Solve(CircleSystem(p, np, l, npMag, vMag)).None?
    ensures LocateCircle(p, np, l, npMag, vMag).None?
    ensures Solver.Singular(CircleSystem(p, np, l, npMag, vMag))
  {
    Solver.SolveNoneSingular(CircleSystem(p, np, l, npMag, vMag));
  }

  /**
   * When the circle system has exactly one solution y, `locate_circle`
   * returns the circle that y describes, unless the segment has length zero
   * or y places the tangent point off the segment.
   */
  lemma LocateCircleUnique(p: V2, np: V2, l: PlaneLine.L2, npMag: real, vMag: real, y: seq<real>)
    requires |y| == 2
    requires forall s {:trigger Solver.Balanced(CircleSystem(p, np, l, npMag, vMag), s, 0.0)} ::
      Solver.Balanced(CircleSystem(p, np, l, npMag, vMag), s, 0.0) ==> s == Solver.Zeros(2)
    requires forall s {:trigger Solver.Balanced(CircleSystem(p, np, l, npMag, vMag), s, 1.0)} ::
      Solver.Balanced(CircleSystem(p, np, l, npMag, vMag), s, 1.0) ==> s == y
    ensures LocateCircle(p, np, l, npMag, vMag) ==
      if vMag == 0.0 || y[0] / vMag < 0.0 || y[0] / vMag > 1.0 then None
      else Some(CircleFit(Plus(p, Mul(Normalized(np, npMag), Num(y[1])).value), y[1], y[0] / vMag))
  {
    Solver.SolveUnique(CircleSystem(p, np, l, npMag, vMag), y);
  }

  /**
   * The configuration of the unit tests: the segment from (1, 0) to (0, 0),
   * np = (-1, 0) and any point p. The system pins x = p.y - p.x + 1 and r = p.y,
   * so a circle is found exactly when 0 <= p.y - p.x + 1 <= 1.
   */
  lemma TestConfiguration(p: V2, np: V2, l: PlaneLine.L2)
    requires l.p.x == 1.0 && l.p.y == 0.0 && l.v.x == -1.0 && l.v.y == 0.0
    requires np.x == -1.0 && np.y == 0.0
    ensures LocateCircle(p, np, l, 1.0, 1.0) ==
      if p.y - p.x + 1.0 < 0.0 || p.y - p.x + 1.0 > 1.0 then None
      else Some(CircleFit(V2(SumKind(p.kind, np.kind), p.x - p.y, p.y), p.y, p.y - p.x + 1.0))
  {
    TestSystemRows(p, np, l, 1.0, 1.0);
    TestSystemUnique(CircleSystem(p, np, l, 1.0, 1.0), p.x, p.y);
    LocateCircleUnique(p, np, l, 1.0, 1.0, [p.y - p.x + 1.0, p.y]);
    assert Normalized(np, 1.0) == V2(np.kind, -1.0, 0.0);
  }

  /** The rows of the test configuration's system. */
  lemma TestSystemRows(p: V2, np: V2, l: PlaneLine.L2, npMag: real, vMag: real)
    requires l.p.x == 1.0 && l.p.y == 0.0 && l.v.x == -1.0 && l.v.y == 0.0
    requires np.x == -1.0 && np.y == 0.0
    requires npMag == 1.0 && vMag == 1.0
    ensures CircleSystem(p, np, l, npMag, vMag)[0] == [-1.0, 1.0, p.x - 1.0]
    ensures CircleSystem(p, np, l, npMag, vMag)[1] == [0.0, 1.0, p.y]
  {
  }

  /** A system with rows [-1, 1, px - 1] and [0, 1, py] has the one solution [py - px + 1, py]. */
  lemma TestSystemUnique(M: Solver.Matrix, px: real, py: real)
    requires Solver.Augmented(M) && |M| == 2
    requires M[0] == [-1.0, 1.0, px - 1.0]
    requires M[1] == [0.0, 1.0, py]
    ensures forall s {:trigger Solver.Balanced(M, s, 0.0)} :: Solver.Balanced(M, s, 0.0) ==> s == Solver.Zeros(|M|)
    ensures forall s {:trigger Solver.Balanced(M, s, 1.0)} :: Solver.Balanced(M, s, 1.0) ==> s == [py - px + 1.0, py]
  {
    forall s | Solver.Balanced(M, s, 0.0)
      ensures s == Solver.Zeros(|M|)
    {
      SolvedRow2(M, s, 0.0, 0, -1.0, 1.0, px - 1.0);
      SolvedRow2(M, s, 0.0, 1, 0.0, 1.0, py);
    }
    forall s | Solver.Balanced(M, s, 1.0)
      ensures s == [py - px + 1.0, py]
    {
      SolvedRow2(M, s, 1.0, 0, -1.0, 1.0, px - 1.0);
      SolvedRow2(M, s, 1.0, 1, 0.0, 1.0, py);
    }
  }

  /** First assertion of the unit test: p = (1, 1) gives the circle at (0, 1) of radius 1, at x = 1. */
  lemma LocateCircleExampleInside(p: V2, np: V2, l: PlaneLine.L2)
    requires p.kind == PointKind && p.x == 1.0 && p.y == 1.0
    requires np.kind == VectorKind && np.x == -1.0 && np.y == 0.0
    requires l.p.x == 1.0 && l.p.y == 0.0 && l.v.x == -1.0 && l.v.y == 0.0
    ensures LocateCircle(p, np, l, 1.0, 1.0) == Some(CircleFit(Point(0.0, 1.0), 1.0, 1.0))
  {
    TestConfiguration(p, np, l);
  }

  /** Second assertion: p = (1, 0), the segment's start, gives the degenerate circle there. */
  lemma LocateCircleExampleStart(p: V2, np: V2, l: PlaneLine.L2)
    requires p.kind == PointKind && p.x == 1.0 && p.y == 0.0
    requires np.kind == VectorKind && np.x == -1.0 && np.y == 0.0
    requires l.p.x == 1.0 && l.p.y == 0.0 && l.v.x == -1.0 && l.v.y == 0.0
    ensures LocateCircle(p, np, l, 1.0, 1.0) == Some(CircleFit(Point(1.0, 0.0), 0.0, 0.0))
  {
    TestConfiguration(p, np, l);
  }

  /** Third and fourth assertions: p = (-5, 0) and p = (5, 0) touch the line off the segment. */
  lemma LocateCircleExamplesOff(p: V2, np: V2, l: PlaneLine.L2)
    requires p.y == 0.0 && (p.x == -5.0 || p.x == 5.0)
    requires np.x == -1.0 && np.y == 0.0
    requires l.p.x == 1.0 && l.p.y == 0.0 && l.v.x == -1.0 && l.v.y == 0.0
    ensures LocateCircle(p, np, l, 1.0, 1.0) == None
  {
    TestConfiguration(p, np, l);
  }
}
