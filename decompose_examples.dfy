/**
 * The two polygons of the decomposition test (tests/test_decompose.py): a
 * staircase and the same staircase with x and y exchanged. The sweep of
 * petrify/decompose.py is followed level by level, and `trapezoidal` with its
 * default threshold returns the quads the test expects.
 */
module DecomposeExamples {
  import opened Wrappers
  import opened PlanePoint
  import opened PlaneLine
  import opened PlaneUtil
  import opened PlanePolygon
  import opened Decompose

  /** The segment from (x, y) along (dx, dy). */
  function Seg(x: real, y: real, dx: real, dy: real): L2 {
    L2(SegmentK, Point(x, y), Vector(dx, dy))
  }

  // ---------------------------------------------------------------------
  // Evaluation steps of the sweep functions

  lemma EdgeAt(ps: seq<V2>, i: nat)
    requires i < |ps|
    ensures Segments(Polygon(ps))[i] == Edge(ps[i], ps[Next(i, |ps|)])
  {
  }

  /** Inserting after the p entries with a smaller key. */
  lemma {:induction false} InsertAt(x: Keyed, s: seq<Keyed>, p: nat)
    requires p <= |s|
    requires forall i :: 0 <= i < p ==> s[i].0 < x.0
    requires p == |s| || x.0 <= s[p].0
    ensures InsertByKey(x, s) == s[..p] + [x] + s[p..]
  {
    if p > 0 {
      InsertAt(x, s[1..], p - 1);
      assert s[..p] == [s[0]] + s[1..][..p - 1];
      assert s[p..] == s[1..][p - 1..];
    }
  }

  lemma SortCons(s: seq<Keyed>, k: nat)
    requires k < |s|
    ensures SortByKey(s[k..]) == InsertByKey(s[k], SortByKey(s[k + 1..]))
  {
    assert s[k..][1..] == s[k + 1..];
  }

  /** A list already sorted by key is left as it is. */
  lemma {:induction false} SortedFixed(s: seq<Keyed>)
    requires SortedByKey(s)
    ensures SortByKey(s) == s
  {
    if |s| > 0 {
      SortedFixed(s[1..]);
      assert [s[0]] + s[1..] == s;
    }
  }

  /** Two strictly increasing lists with the same elements are equal. */
  lemma {:induction false} IncreasingUnique(s: seq<real>, t: seq<real>)
    requires StrictlyIncreasing(s) && StrictlyIncreasing(t)
    requires forall z :: z in s <==> z in t
    ensures s == t
  {
    assert |s| > 0 ==> s[0] in s && s[0] in t;
    assert |t| > 0 ==> t[0] in t && t[0] in s;
    if |s| > 0 && |t| > 0 {
      assert t[0] == s[0];
      TailMembers(s);
      TailMembers(t);
      IncreasingUnique(s[1..], t[1..]);
      assert s == [s[0]] + s[1..] && t == [t[0]] + t[1..];
    }
  }

  /** The tail of a strictly increasing list holds every element but the first. */
  lemma TailMembers(s: seq<real>)
    requires StrictlyIncreasing(s) && |s| > 0
    ensures forall z :: z in s[1..] <==> z in s && z != s[0]
  {
    forall z | z in s && z != s[0]
      ensures z in s[1..]
    {
      var i :| 0 <= i < |s| && s[i] == z;
      assert s[1..][i - 1] == z;
    }
  }

  lemma MovingSnoc(s: seq<Keyed>, e: Keyed, y: real)
    ensures Moving(s + [e], y) == Moving(s, y) + (if NotFlat(e.1, y) then [e.1] else [])
  {
    assert (s + [e])[..|s|] == s;
  }

  /** The horizontal line at height y meets a vertical segment spanning y at (x, y). */
  lemma YlVertical(seg: L2, y: real)
    requires seg.kind == SegmentK && seg.v.x == 0.0 && seg.v.y != 0.0
    requires seg.p.y <= y <= P2(seg).y || P2(seg).y <= y <= seg.p.y
    ensures Yl(seg, y) == Some(Point(seg.p.x, y))
  {
    var h := L2(LineK, Point(0.0, y), Vector(1.0, 0.0));
    assert Det(h, seg) == seg.v.y;
    assert ParamA(h, seg) == seg.p.x;
    assert ParamB(h, seg) == (y - seg.p.y) / seg.v.y;
  }

  lemma OrderAt(segs: seq<L2>, l: L2, i: nat)
    requires i < |segs| && segs[i] == l
    requires forall k :: i < k < |segs| ==> segs[k] != l
    ensures Order(segs, l) == Some(i)
  {
    OrderIsLastIndex(segs, l);
  }

  lemma WallsAt(segs: seq<L2>, a: L2, b: L2, i: nat, j: nat)
    requires Order(segs, a) == Some(i) && Order(segs, b) == Some(j)
    ensures Walls(segs, Group(a, Some(b))) == if j < i then Some((b, a)) else Some((a, b))
  {
  }

  lemma PairStepAt(segs: seq<L2>, pair: Group, prior: real, level: real, l: L2, r: L2, a0: V2, a1: V2, b0: V2, b1: V2)
    requires Walls(segs, pair) == Some((l, r))
    requires Yl(l, level) == Some(a0) && Yl(r, level) == Some(a1)
    requires Yl(l, prior) == Some(b0) && Yl(r, prior) == Some(b1)
    ensures PairStep(segs, pair, prior, level) == Some((Quad(b0, a0, a1, b1),
      (if Continues(l, level) then [(a0.x, l)] else []) + (if Continues(r, level) then [(a1.x, r)] else [])))
  {
  }

  lemma ActiveSnoc(segs: seq<L2>, active: seq<Group>, prior: real, level: real, n: nat,
                   acc: (seq<Quad>, seq<Keyed>), step: (Quad, seq<Keyed>))
    requires n < |active|
    requires ActiveUpTo(segs, active, prior, level, n) == Some(acc)
    requires PairStep(segs, active[n], prior, level) == Some(step)
    ensures ActiveUpTo(segs, active, prior, level, n + 1) == Some((acc.0 + [step.0], acc.1 + step.1))
  {
  }

  lemma DeparturesSnoc(deps: seq<L2>, level: real, n: nat, acc: seq<Keyed>, pt: V2)
    requires n < |deps|
    requires DeparturesUpTo(deps, level, n) == Some(acc)
    requires Yl(deps[n], level) == Some(pt)
    ensures DeparturesUpTo(deps, level, n + 1) == Some(acc + [(pt.x, deps[n])])
  {
  }

  lemma GrouperCons(xs: seq<L2>)
    requires |xs| >= 2
    ensures Grouper(xs) == [Group(xs[0], Some(xs[1]))] + Grouper(xs[2..])
  {
  }

  lemma LevelStepAt(segs: seq<L2>, st: Sweep, level: real, n: nat, deps: seq<L2>,
                    found: (seq<Quad>, seq<Keyed>), more: seq<Keyed>, next: seq<Group>)
    requires Leading(st.heap, level) == n
    requires Moving(st.heap[..n], level) == deps
    requires ActiveUpTo(segs, st.active, st.prior, level, |st.active|) == Some(found)
    requires DeparturesUpTo(deps, level, |deps|) == Some(more)
    requires Grouper(SegmentsOf(SortByKey(found.1 + more))) == next
    ensures LevelStep(segs, st, level) == Some(Sweep(st.heap[n..], next, st.trapezoids + found.0, level))
  {
  }

  lemma SweepStep(segs: seq<L2>, levels: seq<real>, heap0: seq<Keyed>, n: nat, st: Sweep, next: Sweep)
    requires 0 < n <= |levels|
    requires SweepUpTo(segs, levels, heap0, n - 1) == Some(st)
    requires LevelStep(segs, st, levels[n - 1]) == Some(next)
    ensures SweepUpTo(segs, levels, heap0, n) == Some(next)
  {
  }

  lemma SpecFromSweep(points: seq<V2>, minArea: real, segs: seq<L2>, levels: seq<real>, heap0: seq<Keyed>, st: Sweep)
    requires Segments(Polygon(points)) == segs
    requires SortedDistinct(Heights(points)) == levels
    requires InitialHeap(points) == heap0
    requires SweepUpTo(segs, levels, heap0, |levels|) == Some(st)
    ensures TrapezoidalSpec(points, minArea) == Some(KeepLarge(st.trapezoids, minArea))
  {
  }

  /** Quads all above the threshold are all kept. */
  lemma {:induction false} KeepLargeAll(qs: seq<Quad>, minArea: real)
    requires forall i :: 0 <= i < |qs| ==> TrapArea(qs[i]) > minArea
    ensures KeepLarge(qs, minArea) == qs
  {
    if |qs| > 0 {
      KeepLargeAll(qs[..|qs| - 1], minArea);
      assert qs[..|qs| - 1] + [qs[|qs| - 1]] == qs;
    }
  }

  // ---------------------------------------------------------------------
  // The staircase

  const Stair: seq<V2> := [Point(0.0, 0.0), Point(0.0, 7.0), Point(4.0, 7.0), Point(4.0, 5.0), Point(2.0, 5.0), Point(2.0, 4.0), Point(4.0, 4.0), Point(4.0, 2.0), Point(2.0, 2.0), Point(2.0, 0.0)]

  /** The edges of Stair, edge i running from point i to point i + 1. */
  const S0 := Seg(0.0, 0.0, 0.0, 7.0)
  const S1 := Seg(0.0, 7.0, 4.0, 0.0)
  const S2 := Seg(4.0, 7.0, 0.0, -2.0)
  const S3 := Seg(4.0, 5.0, -2.0, 0.0)
  const S4 := Seg(2.0, 5.0, 0.0, -1.0)
  const S5 := Seg(2.0, 4.0, 2.0, 0.0)
  const S6 := Seg(4.0, 4.0, 0.0, -2.0)
  const S7 := Seg(4.0, 2.0, -2.0, 0.0)
  const S8 := Seg(2.0, 2.0, 0.0, -2.0)
  const S9 := Seg(2.0, 0.0, -2.0, 0.0)
  const StairSegs: seq<L2> := [S0, S1, S2, S3, S4, S5, S6, S7, S8, S9]
  /** The queue entries in edge order, then sorted by lower height; the distinct heights. */
  const StairEntries: seq<Keyed> := [(0.0, S0), (7.0, S1), (5.0, S2), (5.0, S3), (4.0, S4), (4.0, S5), (2.0, S6), (2.0, S7), (0.0, S8), (0.0, S9)]
  const StairHeap: seq<Keyed> := [(0.0, S0), (0.0, S8), (0.0, S9), (2.0, S6), (2.0, S7), (4.0, S4), (4.0, S5), (5.0, S2), (5.0, S3), (7.0, S1)]
  const StairLevels: seq<real> := [0.0, 2.0, 4.0, 5.0, 7.0]
  /** The quads in the order the sweep emits them. */
  const StairQuad0 := Quad(Point(0.0, 0.0), Point(0.0, 2.0), Point(2.0, 2.0), Point(2.0, 0.0))
  const StairQuad1 := Quad(Point(0.0, 2.0), Point(0.0, 4.0), Point(4.0, 4.0), Point(4.0, 2.0))
  const StairQuad2 := Quad(Point(0.0, 4.0), Point(0.0, 5.0), Point(2.0, 5.0), Point(2.0, 4.0))
  const StairQuad3 := Quad(Point(0.0, 5.0), Point(0.0, 7.0), Point(4.0, 7.0), Point(4.0, 5.0))
  /** The sweep state before the first level and after each level. */
  const StairSweep0 := Sweep(StairHeap, [], [], 0.0)
  const StairSweep1 := Sweep(StairHeap[3..], [Group(S0, Some(S8))], [], 0.0)
  const StairSweep2 := Sweep(StairHeap[5..], [Group(S0, Some(S6))], [StairQuad0], 2.0)
  const StairSweep3 := Sweep(StairHeap[7..], [Group(S0, Some(S4))], [StairQuad0, StairQuad1], 4.0)
  const StairSweep4 := Sweep(StairHeap[9..], [Group(S0, Some(S2))], [StairQuad0, StairQuad1, StairQuad2], 5.0)
  const StairSweep5 := Sweep(StairHeap[10..], [], [StairQuad0, StairQuad1, StairQuad2, StairQuad3], 7.0)

  lemma StairEdges()
    ensures Segments(Polygon(Stair)) == StairSegs
  {
    var s := Segments(Polygon(Stair));
    assert |s| == 10;
    forall i | 0 <= i < 10
      ensures s[i] == StairSegs[i]
    {
      EdgeAt(Stair, i);
    }
  }

  lemma StairKeys()
    ensures Entries(StairSegs) == StairEntries
  {
  }

  lemma StairSort9()
    ensures SortByKey(StairEntries[9..]) == [(0.0, S9)]
  {
    SortCons(StairEntries, 9);
    assert StairEntries[10..] == [];
  }

  lemma StairSort8()
    ensures SortByKey(StairEntries[8..]) == [(0.0, S8), (0.0, S9)]
  {
    SortCons(StairEntries, 8);
    StairSort9();
    InsertAt(StairEntries[8], [(0.0, S9)], 0);
  }

  lemma StairSort7()
    ensures SortByKey(StairEntries[7..]) == [(0.0, S8), (0.0, S9), (2.0, S7)]
  {
    SortCons(StairEntries, 7);
    StairSort8();
    InsertAt(StairEntries[7], [(0.0, S8), (0.0, S9)], 2);
  }

  lemma StairSort6()
    ensures SortByKey(StairEntries[6..]) == [(0.0, S8), (0.0, S9), (2.0, S6), (2.0, S7)]
  {
    SortCons(StairEntries, 6);
    StairSort7();
    InsertAt(StairEntries[6], [(0.0, S8), (0.0, S9), (2.0, S7)], 2);
  }

  lemma StairSort5()
    ensures SortByKey(StairEntries[5..]) == [(0.0, S8), (0.0, S9), (2.0, S6), (2.0, S7), (4.0, S5)]
  {
    SortCons(StairEntries, 5);
    StairSort6();
    InsertAt(StairEntries[5], [(0.0, S8), (0.0, S9), (2.0, S6), (2.0, S7)], 4);
  }

  lemma StairSort4()
    ensures SortByKey(StairEntries[4..]) == [(0.0, S8), (0.0, S9), (2.0, S6), (2.0, S7), (4.0, S4), (4.0, S5)]
  {
    SortCons(StairEntries, 4);
    StairSort5();
    InsertAt(StairEntries[4], [(0.0, S8), (0.0, S9), (2.0, S6), (2.0, S7), (4.0, S5)], 4);
  }

  lemma StairSort3()
    ensures SortByKey(StairEntries[3..]) == [(0.0, S8), (0.0, S9), (2.0, S6), (2.0, S7), (4.0, S4), (4.0, S5), (5.0, S3)]
  {
    SortCons(StairEntries, 3);
    StairSort4();
    InsertAt(StairEntries[3], [(0.0, S8), (0.0, S9), (2.0, S6), (2.0, S7), (4.0, S4), (4.0, S5)], 6);
  }

  lemma StairSort2()
    ensures SortByKey(StairEntries[2..]) == [(0.0, S8), (0.0, S9), (2.0, S6), (2.0, S7), (4.0, S4), (4.0, S5), (5.0, S2), (5.0, S3)]
  {
    SortCons(StairEntries, 2);
    StairSort3();
    InsertAt(StairEntries[2], [(0.0, S8), (0.0, S9), (2.0, S6), (2.0, S7), (4.0, S4), (4.0, S5), (5.0, S3)], 6);
  }

  lemma StairSort1()
    ensures SortByKey(StairEntries[1..]) == [(0.0, S8), (0.0, S9), (2.0, S6), (2.0, S7), (4.0, S4), (4.0, S5), (5.0, S2), (5.0, S3), (7.0, S1)]
  {
    SortCons(StairEntries, 1);
    StairSort2();
    InsertAt(StairEntries[1], [(0.0, S8), (0.0, S9), (2.0, S6), (2.0, S7), (4.0, S4), (4.0, S5), (5.0, S2), (5.0, S3)], 8);
  }

  lemma StairSort0()
    ensures SortByKey(StairEntries[0..]) == [(0.0, S0), (0.0, S8), (0.0, S9), (2.0, S6), (2.0, S7), (4.0, S4), (4.0, S5), (5.0, S2), (5.0, S3), (7.0, S1)]
  {
    SortCons(StairEntries, 0);
    StairSort1();
    InsertAt(StairEntries[0], [(0.0, S8), (0.0, S9), (2.0, S6), (2.0, S7), (4.0, S4), (4.0, S5), (5.0, S2), (5.0, S3), (7.0, S1)], 0);
  }

  lemma StairInitialHeap()
    ensures InitialHeap(Stair) == StairHeap
  {
    StairEdges();
    StairKeys();
    StairSort0();
    assert StairEntries[0..] == StairEntries;
  }

  lemma StairLevelsFound()
    ensures SortedDistinct(Heights(Stair)) == StairLevels
  {
    var hs := Heights(Stair);
    assert hs == [0.0, 7.0, 7.0, 5.0, 5.0, 4.0, 4.0, 2.0, 2.0, 0.0];
    LevelsSorted(hs);
    IncreasingUnique(SortedDistinct(hs), StairLevels);
  }

  lemma StairLeading0()
    ensures Leading(StairHeap, 0.0) == 3
  {
    LeadingExact(StairHeap, 0.0, 3);
  }

  lemma StairMoving0x1()
    ensures Moving([(0.0, S0)], 0.0) == [S0]
  {
    MovingSnoc([], (0.0, S0), 0.0);
    assert [] + [(0.0, S0)] == [(0.0, S0)];
    assert [] + [S0] == [S0];
  }

  lemma StairMoving0x2()
    ensures Moving([(0.0, S0), (0.0, S8)], 0.0) == [S0, S8]
  {
    StairMoving0x1();
    MovingSnoc([(0.0, S0)], (0.0, S8), 0.0);
    assert [(0.0, S0)] + [(0.0, S8)] == [(0.0, S0), (0.0, S8)];
    assert [S0] + [S8] == [S0, S8];
  }

  lemma StairMoving0x3()
    ensures Moving([(0.0, S0), (0.0, S8), (0.0, S9)], 0.0) == [S0, S8]
  {
    StairMoving0x2();
    MovingSnoc([(0.0, S0), (0.0, S8)], (0.0, S9), 0.0);
    assert [(0.0, S0), (0.0, S8)] + [(0.0, S9)] == [(0.0, S0), (0.0, S8), (0.0, S9)];
    assert [S0, S8] + [] == [S0, S8];
  }

  lemma StairMoving0()
    ensures Moving(StairHeap[..3], 0.0) == [S0, S8]
  {
    assert StairHeap[..3] == [(0.0, S0), (0.0, S8), (0.0, S9)];
    StairMoving0x3();
  }

  lemma StairActive0()
    ensures ActiveUpTo(StairSegs, [], 0.0, 0.0, 0) ==
      Some(([], []))
  {
  }

  lemma StairDepartures0()
    ensures DeparturesUpTo([S0, S8], 0.0, 2) == Some([(0.0, S0), (2.0, S8)])
  {
    YlVertical(S0, 0.0);
    DeparturesSnoc([S0, S8], 0.0, 0, [], Point(0.0, 0.0));
    assert [] + [(0.0, S0)] == [(0.0, S0)];
    YlVertical(S8, 0.0);
    DeparturesSnoc([S0, S8], 0.0, 1, [(0.0, S0)], Point(2.0, 0.0));
    assert [(0.0, S0)] + [(2.0, S8)] == [(0.0, S0), (2.0, S8)];
  }

  lemma StairRegroup0()
    ensures Grouper(SegmentsOf(SortByKey([] + [(0.0, S0), (2.0, S8)]))) == [Group(S0, Some(S8))]
  {
    assert [] + [(0.0, S0), (2.0, S8)] == [(0.0, S0), (2.0, S8)];
    SortedFixed([(0.0, S0), (2.0, S8)]);
    assert SegmentsOf([(0.0, S0), (2.0, S8)]) == [S0, S8];
    GrouperCons([S0, S8]);
    assert [S0, S8][2..] == [];
  }

  lemma StairLevel0()
    ensures LevelStep(StairSegs, StairSweep0, 0.0) == Some(StairSweep1)
  {
    StairLeading0();
    StairMoving0();
    StairActive0();
    StairDepartures0();
    StairRegroup0();
    LevelStepAt(StairSegs, StairSweep0, 0.0, 3, [S0, S8], ([], []), [(0.0, S0), (2.0, S8)], [Group(S0, Some(S8))]);
    assert StairHeap[3..] == StairHeap[3..];
    var none1: seq<Quad> := [];
    assert none1 + none1 == none1;
  }

  lemma StairLeading1()
    ensures Leading(StairHeap[3..], 2.0) == 2
  {
    LeadingExact(StairHeap[3..], 2.0, 2);
  }

  lemma StairMoving1x1()
    ensures Moving([(2.0, S6)], 2.0) == [S6]
  {
    MovingSnoc([], (2.0, S6), 2.0);
    assert [] + [(2.0, S6)] == [(2.0, S6)];
    assert [] + [S6] == [S6];
  }

  lemma StairMoving1x2()
    ensures Moving([(2.0, S6), (2.0, S7)], 2.0) == [S6]
  {
    StairMoving1x1();
    MovingSnoc([(2.0, S6)], (2.0, S7), 2.0);
    assert [(2.0, S6)] + [(2.0, S7)] == [(2.0, S6), (2.0, S7)];
    assert [S6] + [] == [S6];
  }

  lemma StairMoving1()
    ensures Moving(StairHeap[3..][..2], 2.0) == [S6]
  {
    assert StairHeap[3..][..2] == [(2.0, S6), (2.0, S7)];
    StairMoving1x2();
  }

  lemma StairPair1x0()
    ensures PairStep(StairSegs, Group(S0, Some(S8)), 0.0, 2.0) ==
      Some((StairQuad0, [(0.0, S0)]))
  {
    OrderAt(StairSegs, S0, 0);
    OrderAt(StairSegs, S8, 8);
    WallsAt(StairSegs, S0, S8, 0, 8);
    YlVertical(S0, 2.0);
    YlVertical(S8, 2.0);
    YlVertical(S0, 0.0);
    YlVertical(S8, 0.0);
    PairStepAt(StairSegs, Group(S0, Some(S8)), 0.0, 2.0, S0, S8, Point(0.0, 2.0), Point(2.0, 2.0), Point(0.0, 0.0), Point(2.0, 0.0));
    assert Continues(S0, 2.0) && !Continues(S8, 2.0);
    assert [(0.0, S0)] + [] == [(0.0, S0)];
  }

  lemma StairActive1()
    ensures ActiveUpTo(StairSegs, [Group(S0, Some(S8))], 0.0, 2.0, 1) ==
      Some(([StairQuad0], [(0.0, S0)]))
  {
    StairPair1x0();
    ActiveSnoc(StairSegs, [Group(S0, Some(S8))], 0.0, 2.0, 0, ([], []), (StairQuad0, [(0.0, S0)]));
    assert [] + [StairQuad0] == [StairQuad0];
    assert [] + [(0.0, S0)] == [(0.0, S0)];
  }

  lemma StairDepartures1()
    ensures DeparturesUpTo([S6], 2.0, 1) == Some([(4.0, S6)])
  {
    YlVertical(S6, 2.0);
    DeparturesSnoc([S6], 2.0, 0, [], Point(4.0, 2.0));
    assert [] + [(4.0, S6)] == [(4.0, S6)];
  }

  lemma StairRegroup1()
    ensures Grouper(SegmentsOf(SortByKey([(0.0, S0)] + [(4.0, S6)]))) == [Group(S0, Some(S6))]
  {
    assert [(0.0, S0)] + [(4.0, S6)] == [(0.0, S0), (4.0, S6)];
    SortedFixed([(0.0, S0), (4.0, S6)]);
    assert SegmentsOf([(0.0, S0), (4.0, S6)]) == [S0, S6];
    GrouperCons([S0, S6]);
    assert [S0, S6][2..] == [];
  }

  lemma StairLevel1()
    ensures LevelStep(StairSegs, StairSweep1, 2.0) == Some(StairSweep2)
  {
    StairLeading1();
    StairMoving1();
    StairActive1();
    StairDepartures1();
    StairRegroup1();
    LevelStepAt(StairSegs, StairSweep1, 2.0, 2, [S6], ([StairQuad0], [(0.0, S0)]), [(4.0, S6)], [Group(S0, Some(S6))]);
    assert StairHeap[3..][2..] == StairHeap[5..];
    assert [] + [StairQuad0] == [StairQuad0];
  }

  lemma StairLeading2()
    ensures Leading(StairHeap[5..], 4.0) == 2
  {
    LeadingExact(StairHeap[5..], 4.0, 2);
  }

  lemma StairMoving2x1()
    ensures Moving([(4.0, S4)], 4.0) == [S4]
  {
    MovingSnoc([], (4.0, S4), 4.0);
    assert [] + [(4.0, S4)] == [(4.0, S4)];
    assert [] + [S4] == [S4];
  }

  lemma StairMoving2x2()
    ensures Moving([(4.0, S4), (4.0, S5)], 4.0) == [S4]
  {
    StairMoving2x1();
    MovingSnoc([(4.0, S4)], (4.0, S5), 4.0);
    assert [(4.0, S4)] + [(4.0, S5)] == [(4.0, S4), (4.0, S5)];
    assert [S4] + [] == [S4];
  }

  lemma StairMoving2()
    ensures Moving(StairHeap[5..][..2], 4.0) == [S4]
  {
    assert StairHeap[5..][..2] == [(4.0, S4), (4.0, S5)];
    StairMoving2x2();
  }

  lemma StairPair2x0()
    ensures PairStep(StairSegs, Group(S0, Some(S6)), 2.0, 4.0) ==
      Some((StairQuad1, [(0.0, S0)]))
  {
    OrderAt(StairSegs, S0, 0);
    OrderAt(StairSegs, S6, 6);
    WallsAt(StairSegs, S0, S6, 0, 6);
    YlVertical(S0, 4.0);
    YlVertical(S6, 4.0);
    YlVertical(S0, 2.0);
    YlVertical(S6, 2.0);
    PairStepAt(StairSegs, Group(S0, Some(S6)), 2.0, 4.0, S0, S6, Point(0.0, 4.0), Point(4.0, 4.0), Point(0.0, 2.0), Point(4.0, 2.0));
    assert Continues(S0, 4.0) && !Continues(S6, 4.0);
    assert [(0.0, S0)] + [] == [(0.0, S0)];
  }

  lemma StairActive2()
    ensures ActiveUpTo(StairSegs, [Group(S0, Some(S6))], 2.0, 4.0, 1) ==
      Some(([StairQuad1], [(0.0, S0)]))
  {
    StairPair2x0();
    ActiveSnoc(StairSegs, [Group(S0, Some(S6))], 2.0, 4.0, 0, ([], []), (StairQuad1, [(0.0, S0)]));
    assert [] + [StairQuad1] == [StairQuad1];
    assert [] + [(0.0, S0)] == [(0.0, S0)];
  }

  lemma StairDepartures2()
    ensures DeparturesUpTo([S4], 4.0, 1) == Some([(2.0, S4)])
  {
    YlVertical(S4, 4.0);
    DeparturesSnoc([S4], 4.0, 0, [], Point(2.0, 4.0));
    assert [] + [(2.0, S4)] == [(2.0, S4)];
  }

  lemma StairRegroup2()
    ensures Grouper(SegmentsOf(SortByKey([(0.0, S0)] + [(2.0, S4)]))) == [Group(S0, Some(S4))]
  {
    assert [(0.0, S0)] + [(2.0, S4)] == [(0.0, S0), (2.0, S4)];
    SortedFixed([(0.0, S0), (2.0, S4)]);
    assert SegmentsOf([(0.0, S0), (2.0, S4)]) == [S0, S4];
    GrouperCons([S0, S4]);
    assert [S0, S4][2..] == [];
  }

  lemma StairLevel2()
    ensures LevelStep(StairSegs, StairSweep2, 4.0) == Some(StairSweep3)
  {
    StairLeading2();
    StairMoving2();
    StairActive2();
    StairDepartures2();
    StairRegroup2();
    LevelStepAt(StairSegs, StairSweep2, 4.0, 2, [S4], ([StairQuad1], [(0.0, S0)]), [(2.0, S4)], [Group(S0, Some(S4))]);
    assert StairHeap[5..][2..] == StairHeap[7..];
    assert [StairQuad0] + [StairQuad1] == [StairQuad0, StairQuad1];
  }

  lemma StairLeading3()
    ensures Leading(StairHeap[7..], 5.0) == 2
  {
    LeadingExact(StairHeap[7..], 5.0, 2);
  }

  lemma StairMoving3x1()
    ensures Moving([(5.0, S2)], 5.0) == [S2]
  {
    MovingSnoc([], (5.0, S2), 5.0);
    assert [] + [(5.0, S2)] == [(5.0, S2)];
    assert [] + [S2] == [S2];
  }

  lemma StairMoving3x2()
    ensures Moving([(5.0, S2), (5.0, S3)], 5.0) == [S2]
  {
    StairMoving3x1();
    MovingSnoc([(5.0, S2)], (5.0, S3), 5.0);
    assert [(5.0, S2)] + [(5.0, S3)] == [(5.0, S2), (5.0, S3)];
    assert [S2] + [] == [S2];
  }

  lemma StairMoving3()
    ensures Moving(StairHeap[7..][..2], 5.0) == [S2]
  {
    assert StairHeap[7..][..2] == [(5.0, S2), (5.0, S3)];
    StairMoving3x2();
  }

  lemma StairPair3x0()
    ensures PairStep(StairSegs, Group(S0, Some(S4)), 4.0, 5.0) ==
      Some((StairQuad2, [(0.0, S0)]))
  {
    OrderAt(StairSegs, S0, 0);
    OrderAt(StairSegs, S4, 4);
    WallsAt(StairSegs, S0, S4, 0, 4);
    YlVertical(S0, 5.0);
    YlVertical(S4, 5.0);
    YlVertical(S0, 4.0);
    YlVertical(S4, 4.0);
    PairStepAt(StairSegs, Group(S0, Some(S4)), 4.0, 5.0, S0, S4, Point(0.0, 5.0), Point(2.0, 5.0), Point(0.0, 4.0), Point(2.0, 4.0));
    assert Continues(S0, 5.0) && !Continues(S4, 5.0);
    assert [(0.0, S0)] + [] == [(0.0, S0)];
  }

  lemma StairActive3()
    ensures ActiveUpTo(StairSegs, [Group(S0, Some(S4))], 4.0, 5.0, 1) ==
      Some(([StairQuad2], [(0.0, S0)]))
  {
    StairPair3x0();
    ActiveSnoc(StairSegs, [Group(S0, Some(S4))], 4.0, 5.0, 0, ([], []), (StairQuad2, [(0.0, S0)]));
    assert [] + [StairQuad2] == [StairQuad2];
    assert [] + [(0.0, S0)] == [(0.0, S0)];
  }

  lemma StairDepartures3()
    ensures DeparturesUpTo([S2], 5.0, 1) == Some([(4.0, S2)])
  {
    YlVertical(S2, 5.0);
    DeparturesSnoc([S2], 5.0, 0, [], Point(4.0, 5.0));
    assert [] + [(4.0, S2)] == [(4.0, S2)];
  }

  lemma StairRegroup3()
    ensures Grouper(SegmentsOf(SortByKey([(0.0, S0)] + [(4.0, S2)]))) == [Group(S0, Some(S2))]
  {
    assert [(0.0, S0)] + [(4.0, S2)] == [(0.0, S0), (4.0, S2)];
    SortedFixed([(0.0, S0), (4.0, S2)]);
    assert SegmentsOf([(0.0, S0), (4.0, S2)]) == [S0, S2];
    GrouperCons([S0, S2]);
    assert [S0, S2][2..] == [];
  }

  lemma StairLevel3()
    ensures LevelStep(StairSegs, StairSweep3, 5.0) == Some(StairSweep4)
  {
    StairLeading3();
    StairMoving3();
    StairActive3();
    StairDepartures3();
    StairRegroup3();
    LevelStepAt(StairSegs, StairSweep3, 5.0, 2, [S2], ([StairQuad2], [(0.0, S0)]), [(4.0, S2)], [Group(S0, Some(S2))]);
    assert StairHeap[7..][2..] == StairHeap[9..];
    assert [StairQuad0, StairQuad1] + [StairQuad2] == [StairQuad0, StairQuad1, StairQuad2];
  }

  lemma StairLeading4()
    ensures Leading(StairHeap[9..], 7.0) == 1
  {
    LeadingExact(StairHeap[9..], 7.0, 1);
  }

  lemma StairMoving4x1()
    ensures Moving([(7.0, S1)], 7.0) == []
  {
    MovingSnoc([], (7.0, S1), 7.0);
    assert [] + [(7.0, S1)] == [(7.0, S1)];
    var none2: seq<L2> := [];
    assert none2 + none2 == none2;
  }

  lemma StairMoving4()
    ensures Moving(StairHeap[9..][..1], 7.0) == []
  {
    assert StairHeap[9..][..1] == [(7.0, S1)];
    StairMoving4x1();
  }

  lemma StairPair4x0()
    ensures PairStep(StairSegs, Group(S0, Some(S2)), 5.0, 7.0) ==
      Some((StairQuad3, []))
  {
    OrderAt(StairSegs, S0, 0);
    OrderAt(StairSegs, S2, 2);
    WallsAt(StairSegs, S0, S2, 0, 2);
    YlVertical(S0, 7.0);
    YlVertical(S2, 7.0);
    YlVertical(S0, 5.0);
    YlVertical(S2, 5.0);
    PairStepAt(StairSegs, Group(S0, Some(S2)), 5.0, 7.0, S0, S2, Point(0.0, 7.0), Point(4.0, 7.0), Point(0.0, 5.0), Point(4.0, 5.0));
    assert !Continues(S0, 7.0) && !Continues(S2, 7.0);
    var none3: seq<Keyed> := [];
    assert none3 + none3 == none3;
  }

  lemma StairActive4()
    ensures ActiveUpTo(StairSegs, [Group(S0, Some(S2))], 5.0, 7.0, 1) ==
      Some(([StairQuad3], []))
  {
    StairPair4x0();
    ActiveSnoc(StairSegs, [Group(S0, Some(S2))], 5.0, 7.0, 0, ([], []), (StairQuad3, []));
    assert [] + [StairQuad3] == [StairQuad3];
    var none4: seq<Keyed> := [];
    assert none4 + none4 == none4;
  }

  lemma StairDepartures4()
    ensures DeparturesUpTo([], 7.0, 0) == Some([])
  {
  }

  lemma StairRegroup4()
    ensures Grouper(SegmentsOf(SortByKey([] + []))) == []
  {
    var none5: seq<Keyed> := [];
    assert none5 + none5 == none5;
    SortedFixed([]);
    assert SegmentsOf([]) == [];
  }

  lemma StairLevel4()
    ensures LevelStep(StairSegs, StairSweep4, 7.0) == Some(StairSweep5)
  {
    StairLeading4();
    StairMoving4();
    StairActive4();
    StairDepartures4();
    StairRegroup4();
    LevelStepAt(StairSegs, StairSweep4, 7.0, 1, [], ([StairQuad3], []), [], []);
    assert StairHeap[9..][1..] == StairHeap[10..];
    assert [StairQuad0, StairQuad1, StairQuad2] + [StairQuad3] == [StairQuad0, StairQuad1, StairQuad2, StairQuad3];
  }

  const StairStates: seq<Sweep> := [StairSweep0, StairSweep1, StairSweep2, StairSweep3, StairSweep4, StairSweep5]

  lemma {:induction false} StairSweepTo(n: nat)
    requires n <= 5
    ensures SweepUpTo(StairSegs, StairLevels, StairHeap, n) == Some(StairStates[n])
  {
    if n > 0 {
      StairSweepTo(n - 1);
      if n == 1 {
        StairLevel0();
      } else if n == 2 {
        StairLevel1();
      } else if n == 3 {
        StairLevel2();
      } else if n == 4 {
        StairLevel3();
      } else {
        StairLevel4();
      }
      SweepStep(StairSegs, StairLevels, StairHeap, n, StairStates[n - 1], StairStates[n]);
    }
  }

  lemma StairAreas()
    ensures forall i :: 0 <= i < |StairSweep5.trapezoids| ==> TrapArea(StairSweep5.trapezoids[i]) > 0.0001
  {
    assert TrapArea(StairQuad0) > 0.0001;
    assert TrapArea(StairQuad1) > 0.0001;
    assert TrapArea(StairQuad2) > 0.0001;
    assert TrapArea(StairQuad3) > 0.0001;
  }

  // ---------------------------------------------------------------------
  // The staircase with x and y exchanged

  const Turned: seq<V2> := [Point(0.0, 0.0), Point(7.0, 0.0), Point(7.0, 4.0), Point(5.0, 4.0), Point(5.0, 2.0), Point(4.0, 2.0), Point(4.0, 4.0), Point(2.0, 4.0), Point(2.0, 2.0), Point(0.0, 2.0)]

  /** The edges of Turned, edge i running from point i to point i + 1. */
  const T0 := Seg(0.0, 0.0, 7.0, 0.0)
  const T1 := Seg(7.0, 0.0, 0.0, 4.0)
  const T2 := Seg(7.0, 4.0, -2.0, 0.0)
  const T3 := Seg(5.0, 4.0, 0.0, -2.0)
  const T4 := Seg(5.0, 2.0, -1.0, 0.0)
  const T5 := Seg(4.0, 2.0, 0.0, 2.0)
  const T6 := Seg(4.0, 4.0, -2.0, 0.0)
  const T7 := Seg(2.0, 4.0, 0.0, -2.0)
  const T8 := Seg(2.0, 2.0, -2.0, 0.0)
  const T9 := Seg(0.0, 2.0, 0.0, -2.0)
  const TurnedSegs: seq<L2> := [T0, T1, T2, T3, T4, T5, T6, T7, T8, T9]
  /** The queue entries in edge order, then sorted by lower height; the distinct heights. */
  const TurnedEntries: seq<Keyed> := [(0.0, T0), (0.0, T1), (4.0, T2), (2.0, T3), (2.0, T4), (2.0, T5), (4.0, T6), (2.0, T7), (2.0, T8), (0.0, T9)]
  const TurnedHeap: seq<Keyed> := [(0.0, T0), (0.0, T1), (0.0, T9), (2.0, T3), (2.0, T4), (2.0, T5), (2.0, T7), (2.0, T8), (4.0, T2), (4.0, T6)]
  const TurnedLevels: seq<real> := [0.0, 2.0, 4.0]
  /** The quads in the order the sweep emits them. */
  const TurnedQuad0 := Quad(Point(7.0, 0.0), Point(7.0, 2.0), Point(0.0, 2.0), Point(0.0, 0.0))
  const TurnedQuad1 := Quad(Point(4.0, 2.0), Point(4.0, 4.0), Point(2.0, 4.0), Point(2.0, 2.0))
  const TurnedQuad2 := Quad(Point(7.0, 2.0), Point(7.0, 4.0), Point(5.0, 4.0), Point(5.0, 2.0))
  /** The sweep state before the first level and after each level. */
  const TurnedSweep0 := Sweep(TurnedHeap, [], [], 0.0)
  const TurnedSweep1 := Sweep(TurnedHeap[3..], [Group(T9, Some(T1))], [], 0.0)
  const TurnedSweep2 := Sweep(TurnedHeap[8..], [Group(T7, Some(T5)), Group(T3, Some(T1))], [TurnedQuad0], 2.0)
  const TurnedSweep3 := Sweep(TurnedHeap[10..], [], [TurnedQuad0, TurnedQuad1, TurnedQuad2], 4.0)

  lemma TurnedEdges()
    ensures Segments(Polygon(Turned)) == TurnedSegs
  {
    var s := Segments(Polygon(Turned));
    assert |s| == 10;
    forall i | 0 <= i < 10
      ensures s[i] == TurnedSegs[i]
    {
      EdgeAt(Turned, i);
    }
  }

  lemma TurnedKeys()
    ensures Entries(TurnedSegs) == TurnedEntries
  {
  }

  lemma TurnedSort9()
    ensures SortByKey(TurnedEntries[9..]) == [(0.0, T9)]
  {
    SortCons(TurnedEntries, 9);
    assert TurnedEntries[10..] == [];
  }

  lemma TurnedSort8()
    ensures SortByKey(TurnedEntries[8..]) == [(0.0, T9), (2.0, T8)]
  {
    SortCons(TurnedEntries, 8);
    TurnedSort9();
    InsertAt(TurnedEntries[8], [(0.0, T9)], 1);
  }

  lemma TurnedSort7()
    ensures SortByKey(TurnedEntries[7..]) == [(0.0, T9), (2.0, T7), (2.0, T8)]
  {
    SortCons(TurnedEntries, 7);
    TurnedSort8();
    InsertAt(TurnedEntries[7], [(0.0, T9), (2.0, T8)], 1);
  }

  lemma TurnedSort6()
    ensures SortByKey(TurnedEntries[6..]) == [(0.0, T9), (2.0, T7), (2.0, T8), (4.0, T6)]
  {
    SortCons(TurnedEntries, 6);
    TurnedSort7();
    InsertAt(TurnedEntries[6], [(0.0, T9), (2.0, T7), (2.0, T8)], 3);
  }

  lemma TurnedSort5()
    ensures SortByKey(TurnedEntries[5..]) == [(0.0, T9), (2.0, T5), (2.0, T7), (2.0, T8), (4.0, T6)]
  {
    SortCons(TurnedEntries, 5);
    TurnedSort6();
    InsertAt(TurnedEntries[5], [(0.0, T9), (2.0, T7), (2.0, T8), (4.0, T6)], 1);
  }

  lemma TurnedSort4()
    ensures SortByKey(TurnedEntries[4..]) == [(0.0, T9), (2.0, T4), (2.0, T5), (2.0, T7), (2.0, T8), (4.0, T6)]
  {
    SortCons(TurnedEntries, 4);
    TurnedSort5();
    InsertAt(TurnedEntries[4], [(0.0, T9), (2.0, T5), (2.0, T7), (2.0, T8), (4.0, T6)], 1);
  }

  lemma TurnedSort3()
    ensures SortByKey(TurnedEntries[3..]) == [(0.0, T9), (2.0, T3), (2.0, T4), (2.0, T5), (2.0, T7), (2.0, T8), (4.0, T6)]
  {
    SortCons(TurnedEntries, 3);
    TurnedSort4();
    InsertAt(TurnedEntries[3], [(0.0, T9), (2.0, T4), (2.0, T5), (2.0, T7), (2.0, T8), (4.0, T6)], 1);
  }

  lemma TurnedSort2()
    ensures SortByKey(TurnedEntries[2..]) == [(0.0, T9), (2.0, T3), (2.0, T4), (2.0, T5), (2.0, T7), (2.0, T8), (4.0, T2), (4.0, T6)]
  {
    SortCons(TurnedEntries, 2);
    TurnedSort3();
    InsertAt(TurnedEntries[2], [(0.0, T9), (2.0, T3), (2.0, T4), (2.0, T5), (2.0, T7), (2.0, T8), (4.0, T6)], 6);
  }

  lemma TurnedSort1()
    ensures SortByKey(TurnedEntries[1..]) == [(0.0, T1), (0.0, T9), (2.0, T3), (2.0, T4), (2.0, T5), (2.0, T7), (2.0, T8), (4.0, T2), (4.0, T6)]
  {
    SortCons(TurnedEntries, 1);
    TurnedSort2();
    InsertAt(TurnedEntries[1], [(0.0, T9), (2.0, T3), (2.0, T4), (2.0, T5), (2.0, T7), (2.0, T8), (4.0, T2), (4.0, T6)], 0);
  }

  lemma TurnedSort0()
    ensures SortByKey(TurnedEntries[0..]) == [(0.0, T0), (0.0, T1), (0.0, T9), (2.0, T3), (2.0, T4), (2.0, T5), (2.0, T7), (2.0, T8), (4.0, T2), (4.0, T6)]
  {
    SortCons(TurnedEntries, 0);
    TurnedSort1();
    InsertAt(TurnedEntries[0], [(0.0, T1), (0.0, T9), (2.0, T3), (2.0, T4), (2.0, T5), (2.0, T7), (2.0, T8), (4.0, T2), (4.0, T6)], 0);
  }

  lemma TurnedInitialHeap()
    ensures InitialHeap(Turned) == TurnedHeap
  {
    TurnedEdges();
    TurnedKeys();
    TurnedSort0();
    assert TurnedEntries[0..] == TurnedEntries;
  }

  lemma TurnedLevelsFound()
    ensures SortedDistinct(Heights(Turned)) == TurnedLevels
  {
    var hs := Heights(Turned);
    assert hs == [0.0, 0.0, 4.0, 4.0, 2.0, 2.0, 4.0, 4.0, 2.0, 2.0];
    LevelsSorted(hs);
    IncreasingUnique(SortedDistinct(hs), TurnedLevels);
  }

  lemma TurnedLeading0()
    ensures Leading(TurnedHeap, 0.0) == 3
  {
    LeadingExact(TurnedHeap, 0.0, 3);
  }

  lemma TurnedMoving0x1()
    ensures Moving([(0.0, T0)], 0.0) == []
  {
    MovingSnoc([], (0.0, T0), 0.0);
    assert [] + [(0.0, T0)] == [(0.0, T0)];
    var none6: seq<L2> := [];
    assert none6 + none6 == none6;
  }

  lemma TurnedMoving0x2()
    ensures Moving([(0.0, T0), (0.0, T1)], 0.0) == [T1]
  {
    TurnedMoving0x1();
    MovingSnoc([(0.0, T0)], (0.0, T1), 0.0);
    assert [(0.0, T0)] + [(0.0, T1)] == [(0.0, T0), (0.0, T1)];
    assert [] + [T1] == [T1];
  }

  lemma TurnedMoving0x3()
    ensures Moving([(0.0, T0), (0.0, T1), (0.0, T9)], 0.0) == [T1, T9]
  {
    TurnedMoving0x2();
    MovingSnoc([(0.0, T0), (0.0, T1)], (0.0, T9), 0.0);
    assert [(0.0, T0), (0.0, T1)] + [(0.0, T9)] == [(0.0, T0), (0.0, T1), (0.0, T9)];
    assert [T1] + [T9] == [T1, T9];
  }

  lemma TurnedMoving0()
    ensures Moving(TurnedHeap[..3], 0.0) == [T1, T9]
  {
    assert TurnedHeap[..3] == [(0.0, T0), (0.0, T1), (0.0, T9)];
    TurnedMoving0x3();
  }

  lemma TurnedActive0()
    ensures ActiveUpTo(TurnedSegs, [], 0.0, 0.0, 0) ==
      Some(([], []))
  {
  }

  lemma TurnedDepartures0()
    ensures DeparturesUpTo([T1, T9], 0.0, 2) == Some([(7.0, T1), (0.0, T9)])
  {
    YlVertical(T1, 0.0);
    DeparturesSnoc([T1, T9], 0.0, 0, [], Point(7.0, 0.0));
    assert [] + [(7.0, T1)] == [(7.0, T1)];
    YlVertical(T9, 0.0);
    DeparturesSnoc([T1, T9], 0.0, 1, [(7.0, T1)], Point(0.0, 0.0));
    assert [(7.0, T1)] + [(0.0, T9)] == [(7.0, T1), (0.0, T9)];
  }

  lemma TurnedRegroup0()
    ensures Grouper(SegmentsOf(SortByKey([] + [(7.0, T1), (0.0, T9)]))) == [Group(T9, Some(T1))]
  {
    assert [] + [(7.0, T1), (0.0, T9)] == [(7.0, T1), (0.0, T9)];
    TurnedMerge0x0();
    assert [(7.0, T1), (0.0, T9)][0..] == [(7.0, T1), (0.0, T9)];
    assert SegmentsOf([(0.0, T9), (7.0, T1)]) == [T9, T1];
    GrouperCons([T9, T1]);
    assert [T9, T1][2..] == [];
  }

  lemma TurnedMerge0x1()
    ensures SortByKey([(7.0, T1), (0.0, T9)][1..]) == [(0.0, T9)]
  {
    SortCons([(7.0, T1), (0.0, T9)], 1);
    assert [(7.0, T1), (0.0, T9)][2..] == [];
    InsertAt([(7.0, T1), (0.0, T9)][1], [], 0);
  }

  lemma TurnedMerge0x0()
    ensures SortByKey([(7.0, T1), (0.0, T9)][0..]) == [(0.0, T9), (7.0, T1)]
  {
    SortCons([(7.0, T1), (0.0, T9)], 0);
    TurnedMerge0x1();
    InsertAt([(7.0, T1), (0.0, T9)][0], [(0.0, T9)], 1);
  }

  lemma TurnedLevel0()
    ensures LevelStep(TurnedSegs, TurnedSweep0, 0.0) == Some(TurnedSweep1)
  {
    TurnedLeading0();
    TurnedMoving0();
    TurnedActive0();
    TurnedDepartures0();
    TurnedRegroup0();
    LevelStepAt(TurnedSegs, TurnedSweep0, 0.0, 3, [T1, T9], ([], []), [(7.0, T1), (0.0, T9)], [Group(T9, Some(T1))]);
    assert TurnedHeap[3..] == TurnedHeap[3..];
    var none7: seq<Quad> := [];
    assert none7 + none7 == none7;
  }

  lemma TurnedLeading1()
    ensures Leading(TurnedHeap[3..], 2.0) == 5
  {
    LeadingExact(TurnedHeap[3..], 2.0, 5);
  }

  lemma TurnedMoving1x1()
    ensures Moving([(2.0, T3)], 2.0) == [T3]
  {
    MovingSnoc([], (2.0, T3), 2.0);
    assert [] + [(2.0, T3)] == [(2.0, T3)];
    assert [] + [T3] == [T3];
  }

  lemma TurnedMoving1x2()
    ensures Moving([(2.0, T3), (2.0, T4)], 2.0) == [T3]
  {
    TurnedMoving1x1();
    MovingSnoc([(2.0, T3)], (2.0, T4), 2.0);
    assert [(2.0, T3)] + [(2.0, T4)] == [(2.0, T3), (2.0, T4)];
    assert [T3] + [] == [T3];
  }

  lemma TurnedMoving1x3()
    ensures Moving([(2.0, T3), (2.0, T4), (2.0, T5)], 2.0) == [T3, T5]
  {
    TurnedMoving1x2();
    MovingSnoc([(2.0, T3), (2.0, T4)], (2.0, T5), 2.0);
    assert [(2.0, T3), (2.0, T4)] + [(2.0, T5)] == [(2.0, T3), (2.0, T4), (2.0, T5)];
    assert [T3] + [T5] == [T3, T5];
  }

  lemma TurnedMoving1x4()
    ensures Moving([(2.0, T3), (2.0, T4), (2.0, T5), (2.0, T7)], 2.0) == [T3, T5, T7]
  {
    TurnedMoving1x3();
    MovingSnoc([(2.0, T3), (2.0, T4), (2.0, T5)], (2.0, T7), 2.0);
    assert [(2.0, T3), (2.0, T4), (2.0, T5)] + [(2.0, T7)] == [(2.0, T3), (2.0, T4), (2.0, T5), (2.0, T7)];
    assert [T3, T5] + [T7] == [T3, T5, T7];
  }

  lemma TurnedMoving1x5()
    ensures Moving([(2.0, T3), (2.0, T4), (2.0, T5), (2.0, T7), (2.0, T8)], 2.0) == [T3, T5, T7]
  {
    TurnedMoving1x4();
    MovingSnoc([(2.0, T3), (2.0, T4), (2.0, T5), (2.0, T7)], (2.0, T8), 2.0);
    assert [(2.0, T3), (2.0, T4), (2.0, T5), (2.0, T7)] + [(2.0, T8)] == [(2.0, T3), (2.0, T4), (2.0, T5), (2.0, T7), (2.0, T8)];
    assert [T3, T5, T7] + [] == [T3, T5, T7];
  }

  lemma TurnedMoving1()
    ensures Moving(TurnedHeap[3..][..5], 2.0) == [T3, T5, T7]
  {
    assert TurnedHeap[3..][..5] == [(2.0, T3), (2.0, T4), (2.0, T5), (2.0, T7), (2.0, T8)];
    TurnedMoving1x5();
  }

  lemma TurnedPair1x0()
    ensures PairStep(TurnedSegs, Group(T9, Some(T1)), 0.0, 2.0) ==
      Some((TurnedQuad0, [(7.0, T1)]))
  {
    OrderAt(TurnedSegs, T9, 9);
    OrderAt(TurnedSegs, T1, 1);
    WallsAt(TurnedSegs, T9, T1, 9, 1);
    YlVertical(T1, 2.0);
    YlVertical(T9, 2.0);
    YlVertical(T1, 0.0);
    YlVertical(T9, 0.0);
    PairStepAt(TurnedSegs, Group(T9, Some(T1)), 0.0, 2.0, T1, T9, Point(7.0, 2.0), Point(0.0, 2.0), Point(7.0, 0.0), Point(0.0, 0.0));
    assert Continues(T1, 2.0) && !Continues(T9, 2.0);
    assert [(7.0, T1)] + [] == [(7.0, T1)];
  }

  lemma TurnedActive1()
    ensures ActiveUpTo(TurnedSegs, [Group(T9, Some(T1))], 0.0, 2.0, 1) ==
      Some(([TurnedQuad0], [(7.0, T1)]))
  {
    TurnedPair1x0();
    ActiveSnoc(TurnedSegs, [Group(T9, Some(T1))], 0.0, 2.0, 0, ([], []), (TurnedQuad0, [(7.0, T1)]));
    assert [] + [TurnedQuad0] == [TurnedQuad0];
    assert [] + [(7.0, T1)] == [(7.0, T1)];
  }

  lemma TurnedDepartures1()
    ensures DeparturesUpTo([T3, T5, T7], 2.0, 3) == Some([(5.0, T3), (4.0, T5), (2.0, T7)])
  {
    YlVertical(T3, 2.0);
    DeparturesSnoc([T3, T5, T7], 2.0, 0, [], Point(5.0, 2.0));
    assert [] + [(5.0, T3)] == [(5.0, T3)];
    YlVertical(T5, 2.0);
    DeparturesSnoc([T3, T5, T7], 2.0, 1, [(5.0, T3)], Point(4.0, 2.0));
    assert [(5.0, T3)] + [(4.0, T5)] == [(5.0, T3), (4.0, T5)];
    YlVertical(T7, 2.0);
    DeparturesSnoc([T3, T5, T7], 2.0, 2, [(5.0, T3), (4.0, T5)], Point(2.0, 2.0));
    assert [(5.0, T3), (4.0, T5)] + [(2.0, T7)] == [(5.0, T3), (4.0, T5), (2.0, T7)];
  }

  lemma TurnedRegroup1()
    ensures Grouper(SegmentsOf(SortByKey([(7.0, T1)] + [(5.0, T3), (4.0, T5), (2.0, T7)]))) == [Group(T7, Some(T5)), Group(T3, Some(T1))]
  {
    assert [(7.0, T1)] + [(5.0, T3), (4.0, T5), (2.0, T7)] == [(7.0, T1), (5.0, T3), (4.0, T5), (2.0, T7)];
    TurnedMerge1x0();
    assert [(7.0, T1), (5.0, T3), (4.0, T5), (2.0, T7)][0..] == [(7.0, T1), (5.0, T3), (4.0, T5), (2.0, T7)];
    assert SegmentsOf([(2.0, T7), (4.0, T5), (5.0, T3), (7.0, T1)]) == [T7, T5, T3, T1];
    GrouperCons([T7, T5, T3, T1]);
    assert [T7, T5, T3, T1][2..] == [T3, T1];
    GrouperCons([T3, T1]);
    assert [T3, T1][2..] == [];
  }

  lemma TurnedMerge1x3()
    ensures SortByKey([(7.0, T1), (5.0, T3), (4.0, T5), (2.0, T7)][3..]) == [(2.0, T7)]
  {
    SortCons([(7.0, T1), (5.0, T3), (4.0, T5), (2.0, T7)], 3);
    assert [(7.0, T1), (5.0, T3), (4.0, T5), (2.0, T7)][4..] == [];
    InsertAt([(7.0, T1), (5.0, T3), (4.0, T5), (2.0, T7)][3], [], 0);
  }

  lemma TurnedMerge1x2()
    ensures SortByKey([(7.0, T1), (5.0, T3), (4.0, T5), (2.0, T7)][2..]) == [(2.0, T7), (4.0, T5)]
  {
    SortCons([(7.0, T1), (5.0, T3), (4.0, T5), (2.0, T7)], 2);
    TurnedMerge1x3();
    InsertAt([(7.0, T1), (5.0, T3), (4.0, T5), (2.0, T7)][2], [(2.0, T7)], 1);
  }

  lemma TurnedMerge1x1()
    ensures SortByKey([(7.0, T1), (5.0, T3), (4.0, T5), (2.0, T7)][1..]) == [(2.0, T7), (4.0, T5), (5.0, T3)]
  {
    SortCons([(7.0, T1), (5.0, T3), (4.0, T5), (2.0, T7)], 1);
    TurnedMerge1x2();
    InsertAt([(7.0, T1), (5.0, T3), (4.0, T5), (2.0, T7)][1], [(2.0, T7), (4.0, T5)], 2);
  }

  lemma TurnedMerge1x0()
    ensures SortByKey([(7.0, T1), (5.0, T3), (4.0, T5), (2.0, T7)][0..]) == [(2.0, T7), (4.0, T5), (5.0, T3), (7.0, T1)]
  {
    SortCons([(7.0, T1), (5.0, T3), (4.0, T5), (2.0, T7)], 0);
    TurnedMerge1x1();
    InsertAt([(7.0, T1), (5.0, T3), (4.0, T5), (2.0, T7)][0], [(2.0, T7), (4.0, T5), (5.0, T3)], 3);
  }

  lemma TurnedLevel1()
    ensures LevelStep(TurnedSegs, TurnedSweep1, 2.0) == Some(TurnedSweep2)
  {
    TurnedLeading1();
    TurnedMoving1();
    TurnedActive1();
    TurnedDepartures1();
    TurnedRegroup1();
    LevelStepAt(TurnedSegs, TurnedSweep1, 2.0, 5, [T3, T5, T7], ([TurnedQuad0], [(7.0, T1)]), [(5.0, T3), (4.0, T5), (2.0, T7)], [Group(T7, Some(T5)), Group(T3, Some(T1))]);
    assert TurnedHeap[3..][5..] == TurnedHeap[8..];
    assert [] + [TurnedQuad0] == [TurnedQuad0];
  }

  lemma TurnedLeading2()
    ensures Leading(TurnedHeap[8..], 4.0) == 2
  {
    LeadingExact(TurnedHeap[8..], 4.0, 2);
  }

  lemma TurnedMoving2x1()
    ensures Moving([(4.0, T2)], 4.0) == []
  {
    MovingSnoc([], (4.0, T2), 4.0);
    assert [] + [(4.0, T2)] == [(4.0, T2)];
    var none8: seq<L2> := [];
    assert none8 + none8 == none8;
  }

  lemma TurnedMoving2x2()
    ensures Moving([(4.0, T2), (4.0, T6)], 4.0) == []
  {
    TurnedMoving2x1();
    MovingSnoc([(4.0, T2)], (4.0, T6), 4.0);
    assert [(4.0, T2)] + [(4.0, T6)] == [(4.0, T2), (4.0, T6)];
    var none9: seq<L2> := [];
    assert none9 + none9 == none9;
  }

  lemma TurnedMoving2()
    ensures Moving(TurnedHeap[8..][..2], 4.0) == []
  {
    assert TurnedHeap[8..][..2] == [(4.0, T2), (4.0, T6)];
    TurnedMoving2x2();
  }

  lemma TurnedPair2x0()
    ensures PairStep(TurnedSegs, Group(T7, Some(T5)), 2.0, 4.0) ==
      Some((TurnedQuad1, []))
  {
    OrderAt(TurnedSegs, T7, 7);
    OrderAt(TurnedSegs, T5, 5);
    WallsAt(TurnedSegs, T7, T5, 7, 5);
    YlVertical(T5, 4.0);
    YlVertical(T7, 4.0);
    YlVertical(T5, 2.0);
    YlVertical(T7, 2.0);
    PairStepAt(TurnedSegs, Group(T7, Some(T5)), 2.0, 4.0, T5, T7, Point(4.0, 4.0), Point(2.0, 4.0), Point(4.0, 2.0), Point(2.0, 2.0));
    assert !Continues(T5, 4.0) && !Continues(T7, 4.0);
    var none10: seq<Keyed> := [];
    assert none10 + none10 == none10;
  }

  lemma TurnedPair2x1()
    ensures PairStep(TurnedSegs, Group(T3, Some(T1)), 2.0, 4.0) ==
      Some((TurnedQuad2, []))
  {
    OrderAt(TurnedSegs, T3, 3);
    OrderAt(TurnedSegs, T1, 1);
    WallsAt(TurnedSegs, T3, T1, 3, 1);
    YlVertical(T1, 4.0);
    YlVertical(T3, 4.0);
    YlVertical(T1, 2.0);
    YlVertical(T3, 2.0);
    PairStepAt(TurnedSegs, Group(T3, Some(T1)), 2.0, 4.0, T1, T3, Point(7.0, 4.0), Point(5.0, 4.0), Point(7.0, 2.0), Point(5.0, 2.0));
    assert !Continues(T1, 4.0) && !Continues(T3, 4.0);
    var none11: seq<Keyed> := [];
    assert none11 + none11 == none11;
  }

  lemma TurnedActive2()
    ensures ActiveUpTo(TurnedSegs, [Group(T7, Some(T5)), Group(T3, Some(T1))], 2.0, 4.0, 2) ==
      Some(([TurnedQuad1, TurnedQuad2], []))
  {
    TurnedPair2x0();
    ActiveSnoc(TurnedSegs, [Group(T7, Some(T5)), Group(T3, Some(T1))], 2.0, 4.0, 0, ([], []), (TurnedQuad1, []));
    assert [] + [TurnedQuad1] == [TurnedQuad1];
    var none12: seq<Keyed> := [];
    assert none12 + none12 == none12;
    TurnedPair2x1();
    ActiveSnoc(TurnedSegs, [Group(T7, Some(T5)), Group(T3, Some(T1))], 2.0, 4.0, 1, ([TurnedQuad1], []), (TurnedQuad2, []));
    assert [TurnedQuad1] + [TurnedQuad2] == [TurnedQuad1, TurnedQuad2];
    var none13: seq<Keyed> := [];
    assert none13 + none13 == none13;
  }

  lemma TurnedDepartures2()
    ensures DeparturesUpTo([], 4.0, 0) == Some([])
  {
  }

  lemma TurnedRegroup2()
    ensures Grouper(SegmentsOf(SortByKey([] + []))) == []
  {
    var none14: seq<Keyed> := [];
    assert none14 + none14 == none14;
    SortedFixed([]);
    assert SegmentsOf([]) == [];
  }

  lemma TurnedLevel2()
    ensures LevelStep(TurnedSegs, TurnedSweep2, 4.0) == Some(TurnedSweep3)
  {
    TurnedLeading2();
    TurnedMoving2();
    TurnedActive2();
    TurnedDepartures2();
    TurnedRegroup2();
    LevelStepAt(TurnedSegs, TurnedSweep2, 4.0, 2, [], ([TurnedQuad1, TurnedQuad2], []), [], []);
    assert TurnedHeap[8..][2..] == TurnedHeap[10..];
    assert [TurnedQuad0] + [TurnedQuad1, TurnedQuad2] == [TurnedQuad0, TurnedQuad1, TurnedQuad2];
  }

  const TurnedStates: seq<Sweep> := [TurnedSweep0, TurnedSweep1, TurnedSweep2, TurnedSweep3]

  lemma {:induction false} TurnedSweepTo(n: nat)
    requires n <= 3
    ensures SweepUpTo(TurnedSegs, TurnedLevels, TurnedHeap, n) == Some(TurnedStates[n])
  {
    if n > 0 {
      TurnedSweepTo(n - 1);
      if n == 1 {
        TurnedLevel0();
      } else if n == 2 {
        TurnedLevel1();
      } else {
        TurnedLevel2();
      }
      SweepStep(TurnedSegs, TurnedLevels, TurnedHeap, n, TurnedStates[n - 1], TurnedStates[n]);
    }
  }

  lemma TurnedAreas()
    ensures forall i :: 0 <= i < |TurnedSweep3.trapezoids| ==> TrapArea(TurnedSweep3.trapezoids[i]) > 0.0001
  {
    assert TrapArea(TurnedQuad0) > 0.0001;
    assert TrapArea(TurnedQuad1) > 0.0001;
    assert TrapArea(TurnedQuad2) > 0.0001;
  }

  lemma StairKept()
    ensures KeepLarge(StairSweep5.trapezoids, 0.0001) == StairSweep5.trapezoids
  {
    StairAreas();
    KeepLargeAll(StairSweep5.trapezoids, 0.0001);
  }

  lemma StairSwept()
    ensures SweepUpTo(StairSegs, StairLevels, StairHeap, |StairLevels|) == Some(StairSweep5)
  {
    StairSweepTo(5);
  }

  /** The sweep and the threshold on the points of the staircase. */
  lemma StairTrapezoids(points: seq<V2>)
    requires points == Stair
    ensures TrapezoidalSpec(points, 0.0001) == Some(StairSweep5.trapezoids)
  {
    StairEdges();
    StairLevelsFound();
    StairInitialHeap();
    StairSwept();
    StairKept();
    SpecFromSweep(points, 0.0001, StairSegs, StairLevels, StairHeap, StairSweep5);
  }

  /**
   * `trapezoidal` with the default threshold 0.0001 splits the staircase into
   * 4 quads, bottom strip first, each listed as [left@prior, left@level,
   * right@level, right@prior].
   */
  lemma StaircaseDecomposition()
    ensures TrapezoidalSpec(Stair, 0.0001) == Some([
        Quad(Point(0.0, 0.0), Point(0.0, 2.0), Point(2.0, 2.0), Point(2.0, 0.0)),
        Quad(Point(0.0, 2.0), Point(0.0, 4.0), Point(4.0, 4.0), Point(4.0, 2.0)),
        Quad(Point(0.0, 4.0), Point(0.0, 5.0), Point(2.0, 5.0), Point(2.0, 4.0)),
        Quad(Point(0.0, 5.0), Point(0.0, 7.0), Point(4.0, 7.0), Point(4.0, 5.0))])
  {
    StairTrapezoids(Stair);
  }

  lemma TurnedKept()
    ensures KeepLarge(TurnedSweep3.trapezoids, 0.0001) == TurnedSweep3.trapezoids
  {
    TurnedAreas();
    KeepLargeAll(TurnedSweep3.trapezoids, 0.0001);
  }

  lemma TurnedSwept()
    ensures SweepUpTo(TurnedSegs, TurnedLevels, TurnedHeap, |TurnedLevels|) == Some(TurnedSweep3)
  {
    TurnedSweepTo(3);
  }

  /** The sweep and the threshold on the points of the staircase with x and y exchanged. */
  lemma TurnedTrapezoids(points: seq<V2>)
    requires points == Turned
    ensures TrapezoidalSpec(points, 0.0001) == Some(TurnedSweep3.trapezoids)
  {
    TurnedEdges();
    TurnedLevelsFound();
    TurnedInitialHeap();
    TurnedSwept();
    TurnedKept();
    SpecFromSweep(points, 0.0001, TurnedSegs, TurnedLevels, TurnedHeap, TurnedSweep3);
  }

  /**
   * `trapezoidal` with the default threshold 0.0001 splits the staircase with x and y exchanged into
   * 3 quads, bottom strip first, each listed as [left@prior, left@level,
   * right@level, right@prior].
   */
  lemma TurnedStaircaseDecomposition()
    ensures TrapezoidalSpec(Turned, 0.0001) == Some([
        Quad(Point(7.0, 0.0), Point(7.0, 2.0), Point(0.0, 2.0), Point(0.0, 0.0)),
        Quad(Point(4.0, 2.0), Point(4.0, 4.0), Point(2.0, 4.0), Point(2.0, 2.0)),
        Quad(Point(7.0, 2.0), Point(7.0, 4.0), Point(5.0, 4.0), Point(5.0, 2.0))])
  {
    TurnedTrapezoids(Turned);
  }

}
