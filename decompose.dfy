/**
 * Trapezoidal decomposition of a simple polygon (petrify/decompose.py): a
 * sweep over the distinct vertex heights keeps the walls crossing the
 * current strip, paired left to right, and emits one quadrilateral per pair
 * and strip.
 */
module Decompose {
  import opened Wrappers
  import opened PlanePoint
  import opened PlaneLine
  import opened PlaneUtil
  import opened PlanePolygon

  /** A heap or sweep entry: a key (a height or an x position) and a segment. */
  type Keyed = (real, L2)

  /** A quadrilateral [a, b, c, d] of the output. */
  datatype Quad = Quad(a: V2, b: V2, c: V2, d: V2)

  /** A pair produced by `grouper(2, ...)`; an odd tail is padded with None. */
  datatype Group = Group(first: L2, second: Option<L2>)

  // ---------------------------------------------------------------------
  // Sorting (the stable `list.sort` / `sorted` of the source)

  /** Inserts x before the first entry whose key is not smaller. */
  function InsertByKey(x: Keyed, s: seq<Keyed>): seq<Keyed> {
    if |s| == 0 || x.0 <= s[0].0 then [x] + s
    else [s[0]] + InsertByKey(x, s[1..])
  }

  /**
   * A stable sort by key: an entry is inserted in front of the later entries
   * with the same key, so equal keys keep their input order.
   */
  function SortByKey(s: seq<Keyed>): seq<Keyed> {
    if |s| == 0 then [] else InsertByKey(s[0], SortByKey(s[1..]))
  }

  predicate SortedByKey(s: seq<Keyed>) {
    forall i, j :: 0 <= i < j < |s| ==> s[i].0 <= s[j].0
  }

  /** Inserts y into a strictly increasing list, unless it is already there. */
  function InsertDistinct(y: real, s: seq<real>): seq<real> {
    if |s| == 0 || y < s[0] then [y] + s
    else if y == s[0] then s
    else [s[0]] + InsertDistinct(y, s[1..])
  }

  /** `sorted(set(ys))`. */
  function SortedDistinct(ys: seq<real>): seq<real> {
    if |ys| == 0 then [] else InsertDistinct(ys[0], SortedDistinct(ys[1..]))
  }

  predicate StrictlyIncreasing(s: seq<real>) {
    forall i, j :: 0 <= i < j < |s| ==> s[i] < s[j]
  }

  /** The heights of the points, in order. */
  function Heights(points: seq<V2>): seq<real> {
    seq(|points|, i requires 0 <= i < |points| => points[i].y)
  }

  // ---------------------------------------------------------------------
  // The edge queue

  /** The heap entry of a segment: its lower height. */
  function Entry(l: L2): Keyed {
    (if l.p.y <= P2(l).y then l.p.y else P2(l).y, l)
  }

  function Entries(segs: seq<L2>): seq<Keyed> {
    seq(|segs|, i requires 0 <= i < |segs| => Entry(segs[i]))
  }

  /** The heap `Sliced` builds for a polygon: the entries sorted by lower height. */
  function InitialHeap(points: seq<V2>): seq<Keyed> {
    SortByKey(Entries(Segments(Polygon(points))))
  }

  /** The number of leading entries whose key is y (`takewhile`). */
  function Leading(heap: seq<Keyed>, y: real): (n: nat)
    ensures n <= |heap|
  {
    if |heap| == 0 || heap[0].0 != y then 0 else 1 + Leading(heap[1..], y)
  }

  /** A segment that is not horizontal at height y. */
  predicate NotFlat(l: L2, y: real) {
    l.p.y != y || P2(l).y != y
  }

  /** The segments of s that are not horizontal at y, in order. */
  function Moving(s: seq<Keyed>, y: real): seq<L2> {
    if |s| == 0 then []
    else Moving(s[..|s| - 1], y) + (if NotFlat(s[|s| - 1].1, y) then [s[|s| - 1].1] else [])
  }

  /** The edge queue of a polygon; `departures` consumes it level by level. */
  class Sliced {
    var points: seq<V2>
    var heap: seq<Keyed>

    /** One (lower height, segment) entry per edge, sorted by height. */
    constructor (pts: seq<V2>)
      ensures points == pts && heap == InitialHeap(pts)
    {
      points := pts;
      heap := SortByKey(Entries(Segments(Polygon(pts))));
    }

    /**
     * `departures(y)`: removes the leading entries keyed y and returns their
     * segments that are not horizontal at y.
     */
    method Departures(y: real) returns (r: seq<L2>)
      modifies this
      ensures points == old(points)
      ensures heap == old(heap)[Leading(old(heap), y)..]
      ensures r == Moving(old(heap)[..Leading(old(heap), y)], y)
    {
      var n := 0;
      while n < |heap| && heap[n].0 == y
        invariant n <= |heap|
        invariant forall k :: 0 <= k < n ==> heap[k].0 == y
      {
        n := n + 1;
      }
      LeadingExact(heap, y, n);
      var output := heap[..n];
      heap := heap[n..];
      r := [];
      var k := 0;
      while k < n
        invariant k <= n
        invariant r == Moving(output[..k], y)
      {
        assert output[..k + 1][..k] == output[..k];
        if NotFlat(output[k].1, y) {
          r := r + [output[k].1];
        }
        k := k + 1;
      }
      assert output[..n] == output;
    }
  }

  // ---------------------------------------------------------------------
  // The sweep

  /** `grouper(2, xs)`: consecutive pairs, the odd tail padded with None. */
  function Grouper(xs: seq<L2>): seq<Group> {
    if |xs| == 0 then []
    else if |xs| == 1 then [Group(xs[0], None)]
    else [Group(xs[0], Some(xs[1]))] + Grouper(xs[2..])
  }

  /** `yl(segment, y)`: where the horizontal line at height y meets the segment. */
  function Yl(seg: L2, y: real): Option<V2> {
    Intersect(L2(LineK, Point(0.0, y), Vector(1.0, 0.0)), seg)
  }

  /** `order[l]`: the dictionary keeps the last index at which l occurs. */
  function Order(segs: seq<L2>, l: L2): Option<nat> {
    if |segs| == 0 then None
    else if segs[|segs| - 1] == l then Some(|segs| - 1)
    else Order(segs[..|segs| - 1], l)
  }

  /**
   * The pair sorted by edge index; None when the pair is padded, since
   * looking up the padding in `order` raises.
   */
  function Walls(segs: seq<L2>, pair: Group): Option<(L2, L2)> {
    match pair.second
    case None => None
    case Some(b) =>
      match Order(segs, pair.first)
      case None => None
      case Some(i) =>
        match Order(segs, b)
        case None => None
        case Some(j) => if j < i then Some((b, pair.first)) else Some((pair.first, b))
  }

  /** A wall continues past the level when neither endpoint lies on it. */
  predicate Continues(l: L2, level: real) {
    l.p.y != level && P2(l).y != level
  }

  /**
   * One active pair at a level: the quad [left@prior, left@level,
   * right@level, right@prior] and the walls that continue, keyed by their x
   * at the level. A missing intersection raises (None).
   */
  function PairStep(segs: seq<L2>, pair: Group, prior: real, level: real): Option<(Quad, seq<Keyed>)> {
    match Walls(segs, pair)
    case None => None
    case Some(w) =>
      match Yl(w.0, level)
      case None => None
      case Some(a0) =>
        match Yl(w.1, level)
        case None => None
        case Some(a1) =>
          match Yl(w.0, prior)
          case None => None
          case Some(b0) =>
            match Yl(w.1, prior)
            case None => None
            case Some(b1) =>
              Some((Quad(b0, a0, a1, b1),
                    (if Continues(w.0, level) then [(a0.x, w.0)] else []) +
                    (if Continues(w.1, level) then [(a1.x, w.1)] else [])))
  }

  /** The quads and continuing walls of the first n active pairs. */
  function ActiveUpTo(segs: seq<L2>, active: seq<Group>, prior: real, level: real, n: nat): Option<(seq<Quad>, seq<Keyed>)>
    requires n <= |active|
  {
    if n == 0 then Some(([], []))
    else
      match ActiveUpTo(segs, active, prior, level, n - 1)
      case None => None
      case Some(acc) =>
        match PairStep(segs, active[n - 1], prior, level)
        case None => None
        case Some(step) => Some((acc.0 + [step.0], acc.1 + step.1))
  }

  /** The first n departing segments, keyed by their x at the level. */
  function DeparturesUpTo(deps: seq<L2>, level: real, n: nat): Option<seq<Keyed>>
    requires n <= |deps|
  {
    if n == 0 then Some([])
    else
      match DeparturesUpTo(deps, level, n - 1)
      case None => None
      case Some(acc) =>
        match Yl(deps[n - 1], level)
        case None => None
        case Some(pt) => Some(acc + [(pt.x, deps[n - 1])])
  }

  /** The segments of keyed entries, in order. */
  function SegmentsOf(s: seq<Keyed>): seq<L2> {
    seq(|s|, i requires 0 <= i < |s| => s[i].1)
  }

  /**
   * The sweep state after some levels: the remaining queue, the active
   * pairs, the quads so far and the previous level. Before the first level
   * there are no active pairs, so the initial `prior` is never read.
   */
  datatype Sweep = Sweep(heap: seq<Keyed>, active: seq<Group>, trapezoids: seq<Quad>, prior: real)

  /** One iteration of the level loop. */
  function LevelStep(segs: seq<L2>, st: Sweep, level: real): Option<Sweep> {
    var n := Leading(st.heap, level);
    var deps := Moving(st.heap[..n], level);
    match ActiveUpTo(segs, st.active, st.prior, level, |st.active|)
    case None => None
    case Some(found) =>
      match DeparturesUpTo(deps, level, |deps|)
      case None => None
      case Some(more) =>
        Some(Sweep(st.heap[n..], Grouper(SegmentsOf(SortByKey(found.1 + more))), st.trapezoids + found.0, level))
  }

  /** The sweep over the first n levels. */
  function SweepUpTo(segs: seq<L2>, levels: seq<real>, heap0: seq<Keyed>, n: nat): Option<Sweep>
    requires n <= |levels|
  {
    if n == 0 then Some(Sweep(heap0, [], [], 0.0))
    else
      match SweepUpTo(segs, levels, heap0, n - 1)
      case None => None
      case Some(st) => LevelStep(segs, st, levels[n - 1])
  }

  /** `tri_area`: half the absolute shoelace value of the triangle. */
  function TriArea(a: V2, b: V2, c: V2): (r: real)
    ensures r >= 0.0
  {
    var s := (a.x * (b.y - c.y) + b.x * (c.y - a.y) + c.x * (a.y - b.y)) / 2.0;
    if s < 0.0 then -s else s
  }

  /** `trap_area`: the areas of the triangles abc and bcd. */
  function TrapArea(q: Quad): (r: real)
    ensures r >= 0.0
  {
    TriArea(q.a, q.b, q.c) + TriArea(q.b, q.c, q.d)
  }

  /** The quads whose area exceeds the threshold, in order. */
  function KeepLarge(qs: seq<Quad>, minArea: real): seq<Quad> {
    if |qs| == 0 then []
    else KeepLarge(qs[..|qs| - 1], minArea) + (if TrapArea(qs[|qs| - 1]) > minArea then [qs[|qs| - 1]] else [])
  }

  /** `trapezoidal(points, min_area)`; None when the sweep raises. */
  function TrapezoidalSpec(points: seq<V2>, minArea: real): Option<seq<Quad>> {
    var segs := Segments(Polygon(points));
    var levels := SortedDistinct(Heights(points));
    match SweepUpTo(segs, levels, InitialHeap(points), |levels|)
    case None => None
    case Some(st) => Some(KeepLarge(st.trapezoids, minArea))
  }

  /**
   * The loop over the active pairs of a level: the quads it appends and the
   * walls it keeps, in order; None when a lookup or an intersection fails.
   */
  method EmitQuads(segs: seq<L2>, active: seq<Group>, prior: real, level: real) returns (r: Option<(seq<Quad>, seq<Keyed>)>)
    ensures r == ActiveUpTo(segs, active, prior, level, |active|)
  {
    var quads: seq<Quad> := [];
    var nextActive: seq<Keyed> := [];
    var j := 0;
    while j < |active|
      invariant j <= |active|
      invariant ActiveUpTo(segs, active, prior, level, j) == Some((quads, nextActive))
    {
      var step := PairStep(segs, active[j], prior, level);
      if step.None? {
        ActiveFailsOnward(segs, active, prior, level, j + 1, |active|);
        return None;
      }
      quads := quads + [step.value.0];
      nextActive := nextActive + step.value.1;
      j := j + 1;
    }
    r := Some((quads, nextActive));
  }

  /** The loop over the departing segments of a level. */
  method KeyDepartures(deps: seq<L2>, level: real) returns (r: Option<seq<Keyed>>)
    ensures r == DeparturesUpTo(deps, level, |deps|)
  {
    var keyed: seq<Keyed> := [];
    var k := 0;
    while k < |deps|
      invariant k <= |deps|
      invariant DeparturesUpTo(deps, level, k) == Some(keyed)
    {
      var pt := Yl(deps[k], level);
      if pt.None? {
        DeparturesFailOnward(deps, level, k + 1, |deps|);
        return None;
      }
      keyed := keyed + [(pt.value.x, deps[k])];
      k := k + 1;
    }
    r := Some(keyed);
  }

  /**
   * The body of the level loop: takes the departures from the queue, emits
   * the quads of the active pairs and pairs up the walls for the next strip.
   */
  method AdvanceLevel(p: Sliced, segs: seq<L2>, active: seq<Group>, trapezoids: seq<Quad>, prior: real, level: real)
    returns (r: Option<Sweep>)
    modifies p
    ensures r == LevelStep(segs, Sweep(old(p.heap), active, trapezoids, prior), level)
    ensures r.Some? ==> p.heap == r.value.heap
  {
    var departures := p.Departures(level);
    var found := EmitQuads(segs, active, prior, level);
    var more := KeyDepartures(departures, level);
    if found.None? || more.None? {
      return None;
    }
    var nextActive := SortByKey(found.value.1 + more.value);
    r := Some(Sweep(p.heap, Grouper(SegmentsOf(nextActive)), trapezoids + found.value.0, level));
  }

  /** `trapezoidal`: the level loop over the edge queue, then the area filter. */
  method Trapezoidal(points: seq<V2>, minArea: real) returns (r: Option<seq<Quad>>)
    ensures r == TrapezoidalSpec(points, minArea)
  {
    var p := new Sliced(points);
    var segs := Segments(Polygon(points));
    var levels := SortedDistinct(Heights(points));
    var swept := SweepLevels(p, segs, levels);
    if swept.None? {
      return None;
    }
    r := Some(KeepLarge(swept.value.trapezoids, minArea));
  }

  /** The `for level in levels` loop, from the queue p holds. */
  method SweepLevels(p: Sliced, segs: seq<L2>, levels: seq<real>) returns (r: Option<Sweep>)
    modifies p
    ensures r == SweepUpTo(segs, levels, old(p.heap), |levels|)
  {
    ghost var heap0 := p.heap;
    var trapezoids: seq<Quad> := [];
    var active: seq<Group> := [];
    var prior := 0.0;
    var i := 0;
    while i < |levels|
      invariant i <= |levels|
      invariant SweepUpTo(segs, levels, heap0, i) == Some(Sweep(p.heap, active, trapezoids, prior))
    {
      var next := AdvanceLevel(p, segs, active, trapezoids, prior, levels[i]);
      if next.None? {
        SweepFailsOnward(segs, levels, heap0, i + 1, |levels|);
        return None;
      }
      active, trapezoids, prior := next.value.active, next.value.trapezoids, next.value.prior;
      i := i + 1;
    }
    r := Some(Sweep(p.heap, active, trapezoids, prior));
  }

  // ---------------------------------------------------------------------
  // Properties

  lemma {:induction false} SweepFailsOnward(segs: seq<L2>, levels: seq<real>, heap0: seq<Keyed>, n: nat, m: nat)
    requires n <= m <= |levels| && SweepUpTo(segs, levels, heap0, n) == None
    ensures SweepUpTo(segs, levels, heap0, m) == None
    decreases m - n
  {
    if m != n {
      var k := n + 1;
      SweepFailsStep(segs, levels, heap0, n, k);
      SweepFailsOnward(segs, levels, heap0, k, m);
    }
  }

  lemma SweepFailsStep(segs: seq<L2>, levels: seq<real>, heap0: seq<Keyed>, m: nat, n: nat)
    requires m == n - 1 && 0 < n <= |levels| && SweepUpTo(segs, levels, heap0, m) == None
    ensures SweepUpTo(segs, levels, heap0, n) == None
  {
  }

  lemma {:induction false} ActiveFailsOnward(segs: seq<L2>, active: seq<Group>, prior: real, level: real, n: nat, m: nat)
    requires n <= m <= |active| && ActiveUpTo(segs, active, prior, level, n) == None
    ensures ActiveUpTo(segs, active, prior, level, m) == None
  {
    if m > n {
      ActiveFailsOnward(segs, active, prior, level, n, m - 1);
    }
  }

  lemma {:induction false} DeparturesFailOnward(deps: seq<L2>, level: real, n: nat, m: nat)
    requires n <= m <= |deps| && DeparturesUpTo(deps, level, n) == None
    ensures DeparturesUpTo(deps, level, m) == None
  {
    if m > n {
      DeparturesFailOnward(deps, level, n, m - 1);
    }
  }

  /** The leading count is the length of the longest prefix keyed y. */
  lemma {:induction false} LeadingExact(heap: seq<Keyed>, y: real, n: nat)
    requires n <= |heap|
    ensures Leading(heap, y) == n <==>
      (forall k :: 0 <= k < n ==> heap[k].0 == y) && (n == |heap| || heap[n].0 != y)
  {
    if n > 0 && |heap| > 0 && heap[0].0 == y {
      LeadingExact(heap[1..], y, n - 1);
      if (forall k :: 0 <= k < n ==> heap[k].0 == y) && (n == |heap| || heap[n].0 != y) {
        assert forall k :: 0 <= k < n - 1 ==> heap[1..][k].0 == y by {
          forall k | 0 <= k < n - 1 ensures heap[1..][k].0 == y {
            assert heap[1..][k] == heap[k + 1];
          }
        }
      }
    }
  }

  /** Inserting keeps the entries and the order. */
  lemma {:induction false} InsertByKeySorted(x: Keyed, s: seq<Keyed>)
    requires SortedByKey(s)
    ensures SortedByKey(InsertByKey(x, s))
    ensures multiset(InsertByKey(x, s)) == multiset{x} + multiset(s)
    ensures |InsertByKey(x, s)| == |s| + 1
    ensures |s| > 0 ==> InsertByKey(x, s)[0] == x || InsertByKey(x, s)[0] == s[0]
  {
    if |s| > 0 && x.0 > s[0].0 {
      var rest := s[1..];
      assert SortedByKey(rest);
      InsertByKeySorted(x, rest);
      var t := InsertByKey(x, rest);
      assert InsertByKey(x, s) == [s[0]] + t;
      assert s == [s[0]] + rest;
      assert s[0].0 <= t[0].0 by {
        if |rest| > 0 {
          assert rest[0] == s[1];
        }
      }
      ConsSorted(s[0], t);
    } else {
      ConsSorted(x, s);
    }
  }

  /** An entry no larger than the head of a sorted list may go in front of it. */
  lemma ConsSorted(h: Keyed, t: seq<Keyed>)
    requires SortedByKey(t) && (|t| > 0 ==> h.0 <= t[0].0)
    ensures SortedByKey([h] + t)
  {
    var u := [h] + t;
    forall i, j | 0 <= i < j < |u|
      ensures u[i].0 <= u[j].0
    {
      if i == 0 && j > 1 {
        assert t[0].0 <= t[j - 1].0;
      }
    }
  }

  /** The heap order: sorted by key, and a permutation of its input. */
  lemma {:induction false} SortByKeySorted(s: seq<Keyed>)
    ensures SortedByKey(SortByKey(s))
    ensures multiset(SortByKey(s)) == multiset(s)
    ensures |SortByKey(s)| == |s|
  {
    if |s| > 0 {
      SortByKeySorted(s[1..]);
      InsertByKeySorted(s[0], SortByKey(s[1..]));
      assert s == [s[0]] + s[1..];
    }
  }

  /** Inserting a height keeps the list strictly increasing and adds exactly y. */
  lemma {:induction false} InsertDistinctSorted(y: real, s: seq<real>)
    requires StrictlyIncreasing(s)
    ensures StrictlyIncreasing(InsertDistinct(y, s))
    ensures forall z :: z in InsertDistinct(y, s) <==> z == y || z in s
    ensures |s| > 0 ==> InsertDistinct(y, s)[0] == y || InsertDistinct(y, s)[0] == s[0]
  {
    if |s| > 0 && y > s[0] {
      InsertDistinctSorted(y, s[1..]);
      assert s == [s[0]] + s[1..];
      var t := InsertDistinct(y, s[1..]);
      forall i, j | 0 <= i < j < |[s[0]] + t|
        ensures ([s[0]] + t)[i] < ([s[0]] + t)[j]
      {
        if i == 0 {
          assert t[j - 1] in t;
        }
      }
    }
  }

  /** The levels: strictly increasing, and exactly the heights that occur. */
  lemma {:induction false} LevelsSorted(ys: seq<real>)
    ensures StrictlyIncreasing(SortedDistinct(ys))
    ensures forall z :: z in SortedDistinct(ys) <==> z in ys
  {
    if |ys| > 0 {
      LevelsSorted(ys[1..]);
      InsertDistinctSorted(ys[0], SortedDistinct(ys[1..]));
      assert ys == [ys[0]] + ys[1..];
    }
  }

  /**
   * The initial queue: one entry per edge, keyed by the edge's lower height,
   * sorted by key.
   */
  lemma InitialHeapProperties(points: seq<V2>)
    ensures |InitialHeap(points)| == |points|
    ensures SortedByKey(InitialHeap(points))
    ensures multiset(InitialHeap(points)) == multiset(Entries(Segments(Polygon(points))))
    ensures forall e :: e in InitialHeap(points) ==>
      e.0 <= e.1.p.y && e.0 <= P2(e.1).y && (e.0 == e.1.p.y || e.0 == P2(e.1).y)
  {
    var es := Entries(Segments(Polygon(points)));
    SortByKeySorted(es);
    forall e | e in InitialHeap(points)
      ensures e.0 <= e.1.p.y && e.0 <= P2(e.1).y && (e.0 == e.1.p.y || e.0 == P2(e.1).y)
    {
      assert e in multiset(es);
      var i :| 0 <= i < |es| && es[i] == e;
    }
  }

  /**
   * `departures(y)` takes exactly the leading entries keyed y: the rest of
   * the queue is untouched and does not start with y, and the result holds
   * the non-horizontal segments among the removed entries.
   */
  lemma DeparturesTakeLevel(heap: seq<Keyed>, y: real)
    ensures forall k :: 0 <= k < Leading(heap, y) ==> heap[k].0 == y
    ensures Leading(heap, y) < |heap| ==> heap[Leading(heap, y)].0 != y
    ensures forall l :: l in Moving(heap[..Leading(heap, y)], y) <==>
      exists k :: 0 <= k < Leading(heap, y) && heap[k].1 == l && NotFlat(l, y)
  {
    var n := Leading(heap, y);
    LeadingExact(heap, y, n);
    MovingMembers(heap[..n], y);
  }

  /** The moving segments are the non-horizontal segments of the entries. */
  lemma {:induction false} MovingMembers(s: seq<Keyed>, y: real)
    ensures forall l :: l in Moving(s, y) <==> exists k :: 0 <= k < |s| && s[k].1 == l && NotFlat(l, y)
  {
    if |s| > 0 {
      var init := s[..|s| - 1];
      MovingMembers(init, y);
      forall l | l in Moving(s, y)
        ensures exists k :: 0 <= k < |s| && s[k].1 == l && NotFlat(l, y)
      {
        if l in Moving(init, y) {
          var k :| 0 <= k < |init| && init[k].1 == l && NotFlat(l, y);
          assert s[k] == init[k];
        } else {
          assert s[|s| - 1].1 == l;
        }
      }
      forall l | exists k :: 0 <= k < |s| && s[k].1 == l && NotFlat(l, y)
        ensures l in Moving(s, y)
      {
        var k :| 0 <= k < |s| && s[k].1 == l && NotFlat(l, y);
        if k < |s| - 1 {
          assert init[k] == s[k];
        }
      }
    }
  }

  /** `grouper(2, xs)`: pair k is (xs[2k], xs[2k + 1]), the odd tail padded with None. */
  lemma {:induction false} GrouperPairs(xs: seq<L2>)
    ensures |Grouper(xs)| == (|xs| + 1) / 2
    ensures forall k :: 0 <= k < |Grouper(xs)| ==> Grouper(xs)[k].first == xs[2 * k]
    ensures forall k :: 0 <= k < |Grouper(xs)| ==>
      Grouper(xs)[k].second == (if 2 * k + 1 < |xs| then Some(xs[2 * k + 1]) else None)
  {
    if |xs| >= 2 {
      GrouperPairs(xs[2..]);
      forall k | 1 <= k < |Grouper(xs)|
        ensures Grouper(xs)[k] == Grouper(xs[2..])[k - 1]
      {
      }
    }
  }

  /** A horizontal-line intersection lies at the height of the line. */
  lemma YlOnLevel(seg: L2, y: real)
    ensures Yl(seg, y).Some? ==> Yl(seg, y).value.y == y
  {
  }

  /** The walls of a pair come out ordered by edge index. */
  lemma WallsOrdered(segs: seq<L2>, pair: Group)
    ensures Walls(segs, pair).Some? <==>
      pair.second.Some? && Order(segs, pair.first).Some? && Order(segs, pair.second.value).Some?
    ensures Walls(segs, pair).Some? ==>
      Order(segs, Walls(segs, pair).value.0).value <= Order(segs, Walls(segs, pair).value.1).value &&
      {Walls(segs, pair).value.0, Walls(segs, pair).value.1} == {pair.first, pair.second.value}
  {
  }

  /** `order[l]` is the last index at which l occurs. */
  lemma {:induction false} OrderIsLastIndex(segs: seq<L2>, l: L2)
    ensures Order(segs, l).Some? <==> l in segs
    ensures Order(segs, l).Some? ==>
      Order(segs, l).value < |segs| && segs[Order(segs, l).value] == l &&
      forall k :: Order(segs, l).value < k < |segs| ==> segs[k] != l
  {
    if |segs| > 0 && segs[|segs| - 1] != l {
      var init := segs[..|segs| - 1];
      OrderIsLastIndex(init, l);
      assert segs == init + [segs[|segs| - 1]];
      if Order(segs, l).Some? {
        assert segs[Order(segs, l).value] == init[Order(segs, l).value];
      }
    }
  }

  /**
   * One pair yields the quad [left@prior, left@level, right@level,
   * right@prior] and keeps only the walls with no endpoint on the level.
   */
  lemma PairStepShape(segs: seq<L2>, pair: Group, prior: real, level: real)
    requires PairStep(segs, pair, prior, level).Some?
    ensures var q := PairStep(segs, pair, prior, level).value.0;
      q.a.y == prior && q.d.y == prior && q.b.y == level && q.c.y == level
    ensures forall e :: e in PairStep(segs, pair, prior, level).value.1 ==>
      Continues(e.1, level) && (e.1 == pair.first || Some(e.1) == pair.second)
  {
    var w := Walls(segs, pair).value;
    YlOnLevel(w.0, level);
    YlOnLevel(w.1, level);
    YlOnLevel(w.0, prior);
    YlOnLevel(w.1, prior);
  }

  /** Each active pair emits exactly one quad, spanning prior to level. */
  lemma {:induction false} ActiveShape(segs: seq<L2>, active: seq<Group>, prior: real, level: real, n: nat)
    requires n <= |active| && ActiveUpTo(segs, active, prior, level, n).Some?
    ensures |ActiveUpTo(segs, active, prior, level, n).value.0| == n
    ensures forall q :: q in ActiveUpTo(segs, active, prior, level, n).value.0 ==>
      q.a.y == prior && q.d.y == prior && q.b.y == level && q.c.y == level
    ensures forall e :: e in ActiveUpTo(segs, active, prior, level, n).value.1 ==> Continues(e.1, level)
  {
    if n > 0 {
      ActiveShape(segs, active, prior, level, n - 1);
      PairStepShape(segs, active[n - 1], prior, level);
    }
  }

  /** A quad that spans the strip between two consecutive levels. */
  predicate InStrip(q: Quad, levels: seq<real>) {
    q.a.y == q.d.y && q.b.y == q.c.y && q.a.y < q.b.y &&
    q.a.y in levels && q.b.y in levels &&
    forall k :: 0 <= k < |levels| ==> !(q.a.y < levels[k] < q.b.y)
  }

  /**
   * The sweep invariant: after n levels the previous level is levels[n-1],
   * each level adds one quad per active pair, and every quad spans the strip
   * between two consecutive levels.
   */
  lemma {:induction false} SweepShape(segs: seq<L2>, levels: seq<real>, heap0: seq<Keyed>, n: nat)
    requires StrictlyIncreasing(levels) && n <= |levels| && SweepUpTo(segs, levels, heap0, n).Some?
    ensures n == 0 ==> SweepUpTo(segs, levels, heap0, n).value.active == []
    ensures n > 0 ==> SweepUpTo(segs, levels, heap0, n).value.prior == levels[n - 1]
    ensures AllInStrip(SweepUpTo(segs, levels, heap0, n).value.trapezoids, levels)
  {
    if n == 0 {
      assert SweepUpTo(segs, levels, heap0, n).value.trapezoids == [];
    } else {
      var m := n - 1;
      SweepUpToStep(segs, levels, heap0, m, n);
      SweepShape(segs, levels, heap0, m);
      StripsStep(segs, levels, heap0, m, n);
    }
  }

  /** A sweep that got past level m (n == m + 1) got to it. */
  lemma SweepUpToStep(segs: seq<L2>, levels: seq<real>, heap0: seq<Keyed>, m: nat, n: nat)
    requires m == n - 1 && 0 < n <= |levels| && SweepUpTo(segs, levels, heap0, n).Some?
    ensures SweepUpTo(segs, levels, heap0, m).Some?
    ensures SweepUpTo(segs, levels, heap0, n) == LevelStep(segs, SweepUpTo(segs, levels, heap0, m).value, levels[m])
    ensures SweepUpTo(segs, levels, heap0, n).value.prior == levels[m]
  {
    if SweepUpTo(segs, levels, heap0, m) == None {
      SweepFailsStep(segs, levels, heap0, m, n);
    }
    var st := SweepUpTo(segs, levels, heap0, m).value;
    assert SweepUpTo(segs, levels, heap0, n) == LevelStep(segs, st, levels[m]);
    LevelStepCount(segs, st, levels[m]);
  }

  /** Level n = m + 1 appends to the quads of the levels before it those of its active pairs. */
  lemma SweepTrapezoids(segs: seq<L2>, levels: seq<real>, heap0: seq<Keyed>, m: nat, n: nat)
    requires m == n - 1 && 0 < n <= |levels| && SweepUpTo(segs, levels, heap0, n).Some?
    ensures SweepUpTo(segs, levels, heap0, m).Some?
    ensures var st := SweepUpTo(segs, levels, heap0, m).value;
      ActiveUpTo(segs, st.active, st.prior, levels[m], |st.active|).Some? &&
      SweepUpTo(segs, levels, heap0, n).value.trapezoids
      == st.trapezoids + ActiveUpTo(segs, st.active, st.prior, levels[m], |st.active|).value.0
  {
    SweepUpToStep(segs, levels, heap0, m, n);
    LevelStepCount(segs, SweepUpTo(segs, levels, heap0, m).value, levels[m]);
  }

  /** If the quads before level n = m + 1 each span a strip, so do those after it. */
  lemma StripsStep(segs: seq<L2>, levels: seq<real>, heap0: seq<Keyed>, m: nat, n: nat)
    requires StrictlyIncreasing(levels) && m == n - 1 && 0 < n <= |levels| && SweepUpTo(segs, levels, heap0, n).Some?
    requires SweepUpTo(segs, levels, heap0, m).Some?
    requires m == 0 ==> SweepUpTo(segs, levels, heap0, m).value.active == []
    requires m > 0 ==> SweepUpTo(segs, levels, heap0, m).value.prior == levels[m - 1]
    requires AllInStrip(SweepUpTo(segs, levels, heap0, m).value.trapezoids, levels)
    ensures AllInStrip(SweepUpTo(segs, levels, heap0, n).value.trapezoids, levels)
  {
    SweepTrapezoids(segs, levels, heap0, m, n);
    var st := SweepUpTo(segs, levels, heap0, m).value;
    var added := ActiveUpTo(segs, st.active, st.prior, levels[m], |st.active|).value.0;
    StripsAdded(segs, levels, st, m);
    AllInStripMeans(st.trapezoids, levels);
    AllInStripMeans(added, levels);
    AllInStripMeans(st.trapezoids + added, levels);
    StripsAppend(st.trapezoids, added, levels);
  }

  /** The quads of level m + 1 lie in the strip below it. */
  lemma StripsAdded(segs: seq<L2>, levels: seq<real>, st: Sweep, m: nat)
    requires StrictlyIncreasing(levels) && m < |levels|
    requires m == 0 ==> st.active == []
    requires m > 0 ==> st.prior == levels[m - 1]
    requires ActiveUpTo(segs, st.active, st.prior, levels[m], |st.active|).Some?
    ensures forall q :: q in ActiveUpTo(segs, st.active, st.prior, levels[m], |st.active|).value.0 ==> InStrip(q, levels)
  {
    var found := ActiveUpTo(segs, st.active, st.prior, levels[m], |st.active|).value;
    ActiveShape(segs, st.active, st.prior, levels[m], |st.active|);
    if m == 0 {
      assert found.0 == [];
    } else {
      forall q | q in found.0
        ensures InStrip(q, levels)
      {
        StripBetween(q, levels, m - 1);
      }
    }
  }

  /** Every quad of qs spans a strip between consecutive levels. */
  predicate AllInStrip(qs: seq<Quad>, levels: seq<real>)
    decreases |qs|
  {
    qs == [] || (InStrip(qs[0], levels) && AllInStrip(qs[1..], levels))
  }

  lemma {:induction false} AllInStripMeans(qs: seq<Quad>, levels: seq<real>)
    ensures AllInStrip(qs, levels) <==> forall q :: q in qs ==> InStrip(q, levels)
    decreases |qs|
  {
    if qs != [] {
      AllInStripMeans(qs[1..], levels);
      assert forall q :: q in qs <==> q == qs[0] || q in qs[1..];
    }
  }

  /** Quads each in a strip, followed by more such quads. */
  lemma StripsAppend(xs: seq<Quad>, ys: seq<Quad>, levels: seq<real>)
    requires forall q :: q in xs ==> InStrip(q, levels)
    requires forall q :: q in ys ==> InStrip(q, levels)
    ensures forall q :: q in xs + ys ==> InStrip(q, levels)
  {
  }

  /** A quad from one level to the next spans that strip. */
  lemma StripBetween(q: Quad, levels: seq<real>, i: nat)
    requires StrictlyIncreasing(levels) && i + 1 < |levels|
    requires q.a.y == levels[i] && q.d.y == levels[i] && q.b.y == levels[i + 1] && q.c.y == levels[i + 1]
    ensures InStrip(q, levels)
  {
    assert levels[i] in levels && levels[i + 1] in levels;
    forall k | 0 <= k < |levels|
      ensures !(q.a.y < levels[k] < q.b.y)
    {
      if k < i {
        assert levels[k] < levels[i];
      } else if k > i + 1 {
        assert levels[i + 1] < levels[k];
      }
    }
  }

  /** Each level adds exactly one quad per active pair. */
  lemma LevelStepCount(segs: seq<L2>, st: Sweep, level: real)
    requires LevelStep(segs, st, level).Some?
    ensures |LevelStep(segs, st, level).value.trapezoids| == |st.trapezoids| + |st.active|
    ensures LevelStep(segs, st, level).value.trapezoids[..|st.trapezoids|] == st.trapezoids
    ensures LevelStep(segs, st, level).value.prior == level
    ensures ActiveUpTo(segs, st.active, st.prior, level, |st.active|).Some?
    ensures LevelStep(segs, st, level).value.trapezoids
            == st.trapezoids + ActiveUpTo(segs, st.active, st.prior, level, |st.active|).value.0
  {
    ActiveShape(segs, st.active, st.prior, level, |st.active|);
  }

  /** The area filter keeps exactly the quads above the threshold, in order. */
  lemma {:induction false} KeepLargeFilters(qs: seq<Quad>, minArea: real)
    ensures |KeepLarge(qs, minArea)| <= |qs|
    ensures forall q :: q in KeepLarge(qs, minArea) <==> q in qs && TrapArea(q) > minArea
  {
    if |qs| > 0 {
      KeepLargeFilters(qs[..|qs| - 1], minArea);
      assert qs == qs[..|qs| - 1] + [qs[|qs| - 1]];
    }
  }

  /**
   * The decomposition: every kept quad lies in a strip between two
   * consecutive vertex heights, with its bottom corners on the lower and its
   * top corners on the upper height, and has area above the threshold.
   */
  lemma TrapezoidalStrips(points: seq<V2>, minArea: real)
    requires TrapezoidalSpec(points, minArea).Some?
    ensures forall q :: q in TrapezoidalSpec(points, minArea).value ==>
      InStrip(q, SortedDistinct(Heights(points))) && TrapArea(q) > minArea &&
      q.a.y in Heights(points) && q.b.y in Heights(points)
  {
    var segs := Segments(Polygon(points));
    var levels := SortedDistinct(Heights(points));
    LevelsSorted(Heights(points));
    SweepShape(segs, levels, InitialHeap(points), |levels|);
    AllInStripMeans(SweepUpTo(segs, levels, InitialHeap(points), |levels|).value.trapezoids, levels);
    KeepLargeFilters(SweepUpTo(segs, levels, InitialHeap(points), |levels|).value.trapezoids, minArea);
  }

  /** The triangle area does not depend on the order of the corners. */
  lemma TriAreaSymmetric(a: V2, b: V2, c: V2)
    ensures TriArea(a, b, c) == TriArea(b, c, a)
    ensures TriArea(a, b, c) == TriArea(b, a, c)
  {
  }
}
