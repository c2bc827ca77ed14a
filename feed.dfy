/**
 * Toolpath feeds (petrify/machine/feed.py, with `PlanarToolpath` as in
 * petrify/machine/motion.py): planar toolpaths, the toolpath that sweeps a
 * batch of horizontal scanlines, the greedy batching of scanlines into
 * shapes, the non-horizontal bounding lines, and the feed settings.
 */
module Feed {
  import opened Wrappers
  import PlanePoint
  import PlaneLine

  type V2 = PlanePoint.V2

  /** A scanline: its two endpoints, as a pair. */
  type Scanline = (V2, V2)

  // ---------------------------------------------------------------------
  // PlanarToolpath

  /** A continuous tool movement: the points visited so far, in order. */
  class PlanarToolpath {
    var path: seq<V2>

    /** `PlanarToolpath(start)`. */
    constructor (start: V2)
      ensures path == [start]
    {
      path := [start];
    }

    /** `move_to(p)`: append one point. */
    method MoveTo(p: V2)
      modifies this
      ensures path == old(path) + [p]
    {
      path := path + [p];
    }

    /** `segments()`: each point paired with the next. */
    function Segments(): (r: seq<(V2, V2)>)
      reads this
      ensures |r| == if path == [] then 0 else |path| - 1
      ensures forall i :: 0 <= i < |r| ==> r[i].0 == path[i] && r[i].1 == path[i + 1]
    {
      Pairs(path)
    }

    /** `current`: the last point (an IndexError on an empty path, which the constructor rules out). */
    function Current(): (r: Option<V2>)
      reads this
      ensures r.Some? <==> path != []
      ensures r.Some? ==> r.value == path[|path| - 1]
    {
      if path == [] then None else Some(path[|path| - 1])
    }
  }

  /** Each point of s paired with the next. */
  function Pairs(s: seq<V2>): (r: seq<(V2, V2)>)
    ensures |r| == if s == [] then 0 else |s| - 1
    ensures forall i :: 0 <= i < |r| ==> r[i].0 == s[i] && r[i].1 == s[i + 1]
  {
    if |s| <= 1 then [] else seq(|s| - 1, i requires 0 <= i < |s| - 1 => (s[i], s[i + 1]))
  }

  // ---------------------------------------------------------------------
  // ScanlineToolpath

  /** `Point(x, y)`. */
  function Pt(x: real, y: real): V2 {
    PlanePoint.Point(x, y)
  }

  /** `(current - p).magnitude_squared()`. */
  function DistanceSquared(c: V2, p: V2): real {
    (c.x - p.x) * (c.x - p.x) + (c.y - p.y) * (c.y - p.y)
  }

  /** The endpoints sorted by distance from c; the stable sort keeps the first on a tie. */
  function NearFar(c: V2, l: Scanline): (V2, V2) {
    if DistanceSquared(c, l.0) <= DistanceSquared(c, l.1) then (l.0, l.1) else (l.1, l.0)
  }

  /** `Point2.__eq__`: the coordinates only. */
  predicate SameXY(a: V2, b: V2) {
    a.x == b.x && a.y == b.y
  }

  /**
   * The points visited for one later scanline from c: over to the start
   * when short of it, back to the end when past it, down (or up) to the
   * scanline, to the nearer endpoint unless there already, then the farther.
   */
  function LineMoves(c: V2, l: Scanline): (r: seq<V2>)
    ensures |r| >= 2
  {
    var over1 := if c.x < l.0.x then [Pt(l.0.x, c.y)] else [];
    var c1 := if c.x < l.0.x then Pt(l.0.x, c.y) else c;
    var over2 := if c1.x > l.1.x then [Pt(l.1.x, c1.y)] else [];
    var c2 := if c1.x > l.1.x then Pt(l.1.x, c1.y) else c1;
    var c3 := Pt(c2.x, l.0.y);
    var (near, far) := NearFar(c3, l);
    over1 + over2 + [c3] + (if !SameXY(near, c3) then [near] else []) + [far]
  }

  /** The path `ScanlineToolpath(scanlines)` builds. */
  function ScanPath(scanlines: seq<Scanline>): (r: seq<V2>)
    requires scanlines != []
    ensures |r| >= 2
  {
    if |scanlines| == 1 then [scanlines[0].0, scanlines[0].1]
    else
      var p := ScanPath(scanlines[..|scanlines| - 1]);
      p + LineMoves(p[|p| - 1], scanlines[|scanlines| - 1])
  }

  /** One later scanline's moves, made on the toolpath. */
  method FollowLine(t: PlanarToolpath, l: Scanline)
    requires t.path != []
    modifies t
    ensures t.path == old(t.path) + LineMoves(old(t.path)[|old(t.path)| - 1], l)
  {
    var c := t.path[|t.path| - 1];
    if t.path[|t.path| - 1].x < l.0.x {
      t.MoveTo(Pt(l.0.x, t.path[|t.path| - 1].y));
    }
    if t.path[|t.path| - 1].x > l.1.x {
      t.MoveTo(Pt(l.1.x, t.path[|t.path| - 1].y));
    }
    t.MoveTo(Pt(t.path[|t.path| - 1].x, l.0.y));
    var cur := t.path[|t.path| - 1];
    var (near, far) := NearFar(cur, l);
    if !SameXY(near, cur) {
      t.MoveTo(near);
    }
    t.MoveTo(far);
  }

  /**
   * `ScanlineToolpath(scanlines)`: null is the IndexError of an empty list
   * of scanlines.
   */
  method NewScanlineToolpath(scanlines: seq<Scanline>) returns (t: PlanarToolpath?)
    ensures t == null <==> scanlines == []
    ensures t != null ==> fresh(t) && t.path == ScanPath(scanlines)
  {
    if scanlines == [] {
      return null;
    }
    t := new PlanarToolpath(scanlines[0].0);
    t.MoveTo(scanlines[0].1);
    for k := 1 to |scanlines|
      invariant fresh(t)
      invariant t.path == ScanPath(scanlines[..k])
    {
      assert scanlines[..k + 1][..k] == scanlines[..k];
      FollowLine(t, scanlines[k]);
    }
    assert scanlines[..|scanlines|] == scanlines;
  }

  // ---------------------------------------------------------------------
  // batch_scanlines

  type Shape = seq<Scanline>

  /** One endpoint of `line` lies within the x-interval of the shape's last line. */
  predicate Overlaps(shape: Shape, line: Scanline) {
    shape != [] &&
    var last := shape[|shape| - 1];
    (last.0.x <= line.0.x <= last.1.x) || (last.0.x <= line.1.x <= last.1.x)
  }

  /** The first open shape the line extends. */
  function FirstMatch(current: seq<Shape>, line: Scanline): (r: Option<nat>)
    ensures r.Some? ==> r.value < |current| && Overlaps(current[r.value], line)
    ensures r.Some? ==> forall j :: 0 <= j < r.value ==> !Overlaps(current[j], line)
    ensures r.None? ==> forall j :: 0 <= j < |current| ==> !Overlaps(current[j], line)
  {
    if current == [] then None
    else if Overlaps(current[0], line) then Some(0)
    else
      match FirstMatch(current[1..], line)
      case None => None
      case Some(i) => Some(i + 1)
  }

  /** The open shapes and those extended (or started) at this level. */
  datatype Level = Level(current: seq<Shape>, next: seq<Shape>)

  /** One line of a level: extend and move the first matching shape, or start a new one. */
  function PlaceLine(s: Level, line: Scanline): Level {
    match FirstMatch(s.current, line)
    case Some(ix) => Level(s.current[..ix] + s.current[ix + 1..], s.next + [s.current[ix] + [line]])
    case None => Level(s.current, s.next + [[line]])
  }

  /** All lines of a level, in order. */
  function PlaceLines(s: Level, lines: seq<Scanline>): Level {
    if lines == [] then s else PlaceLine(PlaceLines(s, lines[..|lines| - 1]), lines[|lines| - 1])
  }

  /** The closed shapes and the open ones. */
  datatype Batching = Batching(final: seq<Shape>, current: seq<Shape>)

  /** One level: the shapes it did not extend are closed for good. */
  function LevelStep(b: Batching, lines: seq<Scanline>): Batching {
    var l := PlaceLines(Level(b.current, []), lines);
    Batching(b.final + l.current, l.next)
  }

  function BatchLevels(levels: seq<seq<Scanline>>): Batching {
    if levels == [] then Batching([], []) else LevelStep(BatchLevels(levels[..|levels| - 1]), levels[|levels| - 1])
  }

  /** `batch_scanlines(scanlines)`: the closed shapes, then the open ones. */
  function BatchScanlines(levels: seq<seq<Scanline>>): seq<Shape> {
    var b := BatchLevels(levels);
    b.final + b.current
  }

  /** The inner loop: the index of the first shape the line extends. */
  method FindMatch(current: seq<Shape>, line: Scanline) returns (r: Option<nat>)
    ensures r == FirstMatch(current, line)
  {
    for ix := 0 to |current|
      invariant forall j :: 0 <= j < ix ==> !Overlaps(current[j], line)
    {
      var shape := current[ix];
      if shape != [] {
        var ax0, ax1 := shape[|shape| - 1].0.x, shape[|shape| - 1].1.x;
        var bx0, bx1 := line.0.x, line.1.x;
        if (bx0 >= ax0 && bx0 <= ax1) || (bx1 >= ax0 && bx1 <= ax1) {
          FirstMatchIs(current, line, ix);
          return Some(ix);
        }
      }
    }
    FirstMatchNone(current, line);
    r := None;
  }

  /** The middle loop: one level's lines. */
  method BatchLevel(current: seq<Shape>, lines: seq<Scanline>) returns (rest: seq<Shape>, next: seq<Shape>)
    ensures Level(rest, next) == PlaceLines(Level(current, []), lines)
  {
    rest, next := current, [];
    for k := 0 to |lines|
      invariant Level(rest, next) == PlaceLines(Level(current, []), lines[..k])
    {
      assert lines[..k + 1][..k] == lines[..k];
      var line := lines[k];
      var m := FindMatch(rest, line);
      if m.Some? {
        next := next + [rest[m.value] + [line]];
        rest := rest[..m.value] + rest[m.value + 1..];
      } else {
        next := next + [[line]];
      }
    }
    assert lines[..|lines|] == lines;
  }

  /** `batch_scanlines`: the outer loop over levels. */
  method BatchScanlinesLoop(levels: seq<seq<Scanline>>) returns (shapes: seq<Shape>)
    ensures shapes == BatchScanlines(levels)
  {
    var finalShapes: seq<Shape> := [];
    var currentShapes: seq<Shape> := [];
    for k := 0 to |levels|
      invariant Batching(finalShapes, currentShapes) == BatchLevels(levels[..k])
    {
      assert levels[..k + 1][..k] == levels[..k];
      var rest, next := BatchLevel(currentShapes, levels[k]);
      finalShapes := finalShapes + rest;
      currentShapes := next;
    }
    assert levels[..|levels|] == levels;
    shapes := finalShapes + currentShapes;
  }

  // ---------------------------------------------------------------------
  // bounding_lines and LinearStepFeed

  /**
   * `bounding_lines`: the segments of the offset polygons (given, one list
   * per polygon) whose direction has a vertical part.
   */
  function BoundingLines(segments: seq<seq<PlaneLine.L2>>): (r: seq<PlaneLine.L2>) {
    if segments == [] then []
    else BoundingLines(segments[..|segments| - 1]) + Vertical(segments[|segments| - 1])
  }

  function Vertical(ls: seq<PlaneLine.L2>): seq<PlaneLine.L2> {
    if ls == [] then [] else Vertical(ls[..|ls| - 1]) + (if ls[|ls| - 1].v.y != 0.0 then [ls[|ls| - 1]] else [])
  }

  datatype LinearStepFeed = LinearStepFeed(stepover: real, dz: real)

  /** `LinearStepFeed(stepover, dz)`: None is the AssertionError for a stepover outside (0, 1]. */
  function NewLinearStepFeed(stepover: real, dz: real): (r: Option<LinearStepFeed>)
    ensures r.Some? <==> 0.0 < stepover <= 1.0
    ensures r.Some? ==> r.value.stepover == stepover && r.value.dz == dz
  {
    if stepover > 0.0 && stepover <= 1.0 then Some(LinearStepFeed(stepover, dz)) else None
  }

  // ---------------------------------------------------------------------
  // Properties

  lemma FirstMatchIs(current: seq<Shape>, line: Scanline, ix: nat)
    requires ix < |current| && Overlaps(current[ix], line)
    requires forall j :: 0 <= j < ix ==> !Overlaps(current[j], line)
    ensures FirstMatch(current, line) == Some(ix)
  {
  }

  lemma FirstMatchNone(current: seq<Shape>, line: Scanline)
    requires forall j :: 0 <= j < |current| ==> !Overlaps(current[j], line)
    ensures FirstMatch(current, line) == None
  {
  }

  /** `move_to` adds exactly one segment, from the old current point to p. */
  lemma {:induction false} PairsSnoc(s: seq<V2>, p: V2)
    requires s != []
    ensures Pairs(s + [p]) == Pairs(s) + [(s[|s| - 1], p)]
  {
    var l, r := Pairs(s + [p]), Pairs(s) + [(s[|s| - 1], p)];
    assert |l| == |r|;
    forall i | 0 <= i < |l|
      ensures l[i] == r[i]
    {
      if i < |s| - 1 {
        assert (s + [p])[i] == s[i] && (s + [p])[i + 1] == s[i + 1];
      }
    }
  }

  /** Every step of the path keeps x or keeps y. */
  predicate AxisSteps(p: seq<V2>) {
    forall i :: 0 < i < |p| ==> p[i - 1].x == p[i].x || p[i - 1].y == p[i].y
  }

  predicate Horizontal(l: Scanline) {
    l.0.y == l.1.y
  }

  /** One scanline's moves step along the axes, starting from c. */
  lemma LineMovesAxis(c: V2, l: Scanline)
    requires Horizontal(l)
    ensures AxisSteps([c] + LineMoves(c, l))
  {
  }

  lemma {:induction false} AxisStepsConcat(a: seq<V2>, b: seq<V2>)
    requires a != [] && AxisSteps(a) && AxisSteps([a[|a| - 1]] + b)
    ensures AxisSteps(a + b)
  {
    var ab := a + b;
    forall i | 0 < i < |ab|
      ensures ab[i - 1].x == ab[i].x || ab[i - 1].y == ab[i].y
    {
      if i >= |a| {
        var k := i - |a| + 1;
        assert ab[i - 1] == ([a[|a| - 1]] + b)[k - 1] && ab[i] == ([a[|a| - 1]] + b)[k];
      }
    }
  }

  /**
   * Over horizontal scanlines the scanline toolpath moves only along the
   * axes: every step changes x or y, never both.
   */
  lemma {:induction false} ScanPathAxisAligned(scanlines: seq<Scanline>)
    requires scanlines != []
    requires forall k :: 0 <= k < |scanlines| ==> Horizontal(scanlines[k])
    ensures AxisSteps(ScanPath(scanlines))
  {
    if |scanlines| > 1 {
      var init := scanlines[..|scanlines| - 1];
      ScanPathAxisAligned(init);
      var p := ScanPath(init);
      LineMovesAxis(p[|p| - 1], scanlines[|scanlines| - 1]);
      AxisStepsConcat(p, LineMoves(p[|p| - 1], scanlines[|scanlines| - 1]));
    }
  }

  /** Some point of the path is at e. */
  predicate Visits(p: seq<V2>, e: V2) {
    exists j :: 0 <= j < |p| && SameXY(p[j], e)
  }

  /** One scanline's moves reach both of its endpoints, and end on one of them. */
  lemma LineMovesReach(c: V2, l: Scanline)
    ensures Visits(LineMoves(c, l), l.0) && Visits(LineMoves(c, l), l.1)
    ensures var r := LineMoves(c, l); r[|r| - 1] == l.0 || r[|r| - 1] == l.1
  {
    var r := LineMoves(c, l);
    var over1 := if c.x < l.0.x then [Pt(l.0.x, c.y)] else [];
    var c1 := if c.x < l.0.x then Pt(l.0.x, c.y) else c;
    var over2 := if c1.x > l.1.x then [Pt(l.1.x, c1.y)] else [];
    var c2 := if c1.x > l.1.x then Pt(l.1.x, c1.y) else c1;
    var c3 := Pt(c2.x, l.0.y);
    var (near, far) := NearFar(c3, l);
    var n := |over1 + over2|;
    assert r[n] == c3 && r[|r| - 1] == far;
    if SameXY(near, c3) {
      assert SameXY(r[n], near);
    } else {
      assert r[n + 1] == near;
    }
  }

  lemma VisitsPrefix(p: seq<V2>, q: seq<V2>, e: V2)
    requires Visits(p, e)
    ensures Visits(p + q, e)
  {
    var j :| 0 <= j < |p| && SameXY(p[j], e);
    assert (p + q)[j] == p[j];
  }

  lemma VisitsSuffix(p: seq<V2>, q: seq<V2>, e: V2)
    requires Visits(q, e)
    ensures Visits(p + q, e)
  {
    var j :| 0 <= j < |q| && SameXY(q[j], e);
    assert (p + q)[|p| + j] == q[j];
  }

  /**
   * The scanline toolpath reaches both endpoints of every scanline, and
   * ends on an endpoint of the last one.
   */
  lemma {:induction false} ScanPathCovers(scanlines: seq<Scanline>)
    requires scanlines != []
    ensures forall k :: 0 <= k < |scanlines| ==>
      Visits(ScanPath(scanlines), scanlines[k].0) && Visits(ScanPath(scanlines), scanlines[k].1)
    ensures var p := ScanPath(scanlines); var l := scanlines[|scanlines| - 1];
      p[|p| - 1] == l.0 || p[|p| - 1] == l.1
  {
    var p := ScanPath(scanlines);
    if |scanlines| == 1 {
      assert SameXY(p[0], scanlines[0].0) && SameXY(p[1], scanlines[0].1);
    } else {
      var init := scanlines[..|scanlines| - 1];
      var l := scanlines[|scanlines| - 1];
      ScanPathCovers(init);
      var q := ScanPath(init);
      var moves := LineMoves(q[|q| - 1], l);
      assert p == q + moves;
      LineMovesReach(q[|q| - 1], l);
      forall k | 0 <= k < |scanlines|
        ensures Visits(p, scanlines[k].0) && Visits(p, scanlines[k].1)
      {
        if k < |scanlines| - 1 {
          assert scanlines[k] == init[k];
          VisitsPrefix(q, moves, scanlines[k].0);
          VisitsPrefix(q, moves, scanlines[k].1);
        } else {
          VisitsSuffix(q, moves, l.0);
          VisitsSuffix(q, moves, l.1);
        }
      }
    }
  }

  /** Every line of the shapes, with multiplicity. */
  function Lines(shapes: seq<Shape>): multiset<Scanline> {
    if shapes == [] then multiset{} else Lines(shapes[..|shapes| - 1]) + multiset(shapes[|shapes| - 1])
  }

  /** Every line of the levels, with multiplicity. */
  function LevelLines(levels: seq<seq<Scanline>>): multiset<Scanline> {
    if levels == [] then multiset{} else LevelLines(levels[..|levels| - 1]) + multiset(levels[|levels| - 1])
  }

  lemma {:induction false} LinesConcat(a: seq<Shape>, b: seq<Shape>)
    ensures Lines(a + b) == Lines(a) + Lines(b)
  {
    if b == [] {
      assert a + b == a;
    } else {
      LinesConcat(a, b[..|b| - 1]);
      assert (a + b)[..|a + b| - 1] == a + b[..|b| - 1];
    }
  }

  lemma LinesSplit(current: seq<Shape>, ix: nat)
    requires ix < |current|
    ensures Lines(current) == Lines(current[..ix] + current[ix + 1..]) + multiset(current[ix])
  {
    var pre, mid, post := current[..ix], [current[ix]], current[ix + 1..];
    SplitAt(current, ix);
    LinesThree(pre, mid, post);
    LinesOne(current[ix]);
    LinesConcat(pre, post);
    MultisetSwap(Lines(pre), multiset(current[ix]), Lines(post));
  }

  lemma SplitAt<T>(s: seq<T>, i: nat)
    requires i < |s|
    ensures s == (s[..i] + [s[i]]) + s[i + 1..]
  {
  }

  lemma LinesThree(pre: seq<Shape>, mid: seq<Shape>, post: seq<Shape>)
    ensures Lines((pre + mid) + post) == Lines(pre) + Lines(mid) + Lines(post)
  {
    LinesConcat(pre + mid, post);
    LinesConcat(pre, mid);
  }

  lemma LinesOne(shape: Shape)
    ensures Lines([shape]) == multiset(shape)
  {
    assert [shape][..0] == [];
  }

  lemma MultisetSwap<T>(p: multiset<T>, m: multiset<T>, q: multiset<T>)
    ensures p + m + q == (p + q) + m
  {
  }

  /** The lines a level holds, open or placed. */
  function Held(l: Level): multiset<Scanline> {
    Lines(l.current) + Lines(l.next)
  }

  /** Placing a line moves shapes and adds the line: no line is lost or made up. */
  lemma PlaceLineConserves(s: Level, line: Scanline)
    ensures Held(PlaceLine(s, line)) == Held(s) + multiset{line}
  {
    var t := PlaceLine(s, line);
    match FirstMatch(s.current, line)
    case Some(ix) =>
      LinesSplit(s.current, ix);
      assert t.next[..|t.next| - 1] == s.next;
    case None =>
      assert t.next[..|t.next| - 1] == s.next;
  }

  lemma {:induction false} PlaceLinesConserves(s: Level, lines: seq<Scanline>)
    ensures Held(PlaceLines(s, lines)) == Held(s) + multiset(lines)
  {
    if lines != [] {
      var init, last := lines[..|lines| - 1], lines[|lines| - 1];
      var u := PlaceLines(s, init);
      PlaceLinesConserves(s, init);
      PlaceLineConserves(u, last);
      assert PlaceLines(s, lines) == PlaceLine(u, last);
      MultisetSnoc(lines);
      Regroup(Held(s), multiset(init), multiset{last}, Held(u), Held(PlaceLine(u, last)), multiset(lines));
    }
  }

  lemma MultisetSnoc(lines: seq<Scanline>)
    requires lines != []
    ensures multiset(lines) == multiset(lines[..|lines| - 1]) + multiset{lines[|lines| - 1]}
  {
    assert lines == lines[..|lines| - 1] + [lines[|lines| - 1]];
  }

  lemma Regroup(h: multiset<Scanline>, a: multiset<Scanline>, b: multiset<Scanline>,
                 hu: multiset<Scanline>, ht: multiset<Scanline>, ab: multiset<Scanline>)
    requires hu == h + a && ht == hu + b && ab == a + b
    ensures ht == h + ab
  {
  }

  /** `batch_scanlines` returns every scanline it was given, each exactly once. */
  lemma {:induction false} BatchConserves(levels: seq<seq<Scanline>>)
    ensures Lines(BatchScanlines(levels)) == LevelLines(levels)
  {
    if levels != [] {
      var init, last := levels[..|levels| - 1], levels[|levels| - 1];
      BatchConserves(init);
      var b := BatchLevels(init);
      LinesConcat(b.final, b.current);
      var l := PlaceLines(Level(b.current, []), last);
      PlaceLinesConserves(Level(b.current, []), last);
      assert Lines(l.current) + Lines(l.next) == Lines(b.current) + multiset(last);
      LinesConcat(b.final, l.current);
      LinesConcat(b.final + l.current, l.next);
      assert BatchScanlines(levels) == b.final + l.current + l.next;
      assert LevelLines(levels) == LevelLines(init) + multiset(last);
    }
  }

  /** Consecutive lines of a shape overlap in x. */
  predicate Chained(shape: Shape) {
    shape != [] && forall i :: 0 < i < |shape| ==> Overlaps(shape[..i], shape[i])
  }

  predicate AllChained(shapes: seq<Shape>) {
    forall i :: 0 <= i < |shapes| ==> Chained(shapes[i])
  }

  lemma ChainedExtend(shape: Shape, line: Scanline)
    requires Chained(shape) && Overlaps(shape, line)
    ensures Chained(shape + [line])
  {
    var t := shape + [line];
    forall i | 0 < i < |t|
      ensures Overlaps(t[..i], t[i])
    {
      assert t[..i] == if i < |shape| then shape[..i] else shape;
    }
  }

  lemma AllChainedRemove(current: seq<Shape>, ix: nat)
    requires ix < |current| && AllChained(current)
    ensures AllChained(current[..ix] + current[ix + 1..])
  {
    var r := current[..ix] + current[ix + 1..];
    forall i | 0 <= i < |r|
      ensures Chained(r[i])
    {
      assert r[i] == if i < ix then current[i] else current[i + 1];
    }
  }

  lemma {:induction false} PlaceLinesChained(s: Level, lines: seq<Scanline>)
    requires AllChained(s.current) && AllChained(s.next)
    ensures AllChained(PlaceLines(s, lines).current) && AllChained(PlaceLines(s, lines).next)
  {
    if lines != [] {
      PlaceLinesChained(s, lines[..|lines| - 1]);
      var u := PlaceLines(s, lines[..|lines| - 1]);
      var line := lines[|lines| - 1];
      match FirstMatch(u.current, line)
      case Some(ix) =>
        AllChainedRemove(u.current, ix);
        ChainedExtend(u.current[ix], line);
      case None =>
    }
  }

  /**
   * Every shape `batch_scanlines` returns is a nonempty chain of lines,
   * each overlapping the previous one in x.
   */
  lemma {:induction false} BatchChained(levels: seq<seq<Scanline>>)
    ensures AllChained(BatchLevels(levels).final) && AllChained(BatchLevels(levels).current)
    ensures AllChained(BatchScanlines(levels))
  {
    if levels != [] {
      BatchChained(levels[..|levels| - 1]);
      var b := BatchLevels(levels[..|levels| - 1]);
      PlaceLinesChained(Level(b.current, []), levels[|levels| - 1]);
    }
    var b := BatchLevels(levels);
    assert forall i :: 0 <= i < |b.final + b.current| ==>
      (b.final + b.current)[i] == if i < |b.final| then b.final[i] else b.current[i - |b.final|];
  }

  /** The shapes closed after the first k levels stay closed, first, and unchanged. */
  lemma {:induction false} ClosedShapesKept(levels: seq<seq<Scanline>>, k: nat)
    requires k <= |levels|
    ensures BatchLevels(levels[..k]).final <= BatchLevels(levels).final
  {
    if k < |levels| {
      ClosedShapesKept(levels[..|levels| - 1], k);
      assert levels[..|levels| - 1][..k] == levels[..k];
    } else {
      assert levels[..k] == levels;
    }
  }

  /** Each level's lines lie at that level's y, and the levels rise strictly. */
  predicate Levelled(levels: seq<seq<Scanline>>, ys: seq<real>) {
    |ys| == |levels| &&
    (forall i :: 0 < i < |ys| ==> ys[i - 1] < ys[i]) &&
    forall i, k :: 0 <= i < |levels| && 0 <= k < |levels[i]| ==> levels[i][k].0.y == ys[i]
  }

  /** Each line of the shape lies strictly above the one before it. */
  predicate Rising(shape: Shape) {
    forall i :: 0 < i < |shape| ==> shape[i - 1].0.y < shape[i].0.y
  }

  predicate AllRising(shapes: seq<Shape>) {
    forall i :: 0 <= i < |shapes| ==> Rising(shapes[i])
  }

  /** Every shape's last line lies below y (cmp == -1) or at y (cmp == 0). */
  predicate EndsBy(shapes: seq<Shape>, y: real, cmp: int) {
    forall i :: 0 <= i < |shapes| ==>
      shapes[i] != [] &&
      (if cmp < 0 then shapes[i][|shapes[i]| - 1].0.y < y else shapes[i][|shapes[i]| - 1].0.y == y)
  }

  lemma RemoveKeeps(current: seq<Shape>, ix: nat, y: real)
    requires ix < |current| && AllRising(current) && EndsBy(current, y, -1)
    ensures AllRising(current[..ix] + current[ix + 1..]) && EndsBy(current[..ix] + current[ix + 1..], y, -1)
  {
    var r := current[..ix] + current[ix + 1..];
    assert forall i :: 0 <= i < |r| ==> r[i] == if i < ix then current[i] else current[i + 1];
  }

  lemma {:induction false} PlaceLinesRising(s: Level, lines: seq<Scanline>, y: real)
    requires AllRising(s.current) && EndsBy(s.current, y, -1)
    requires AllRising(s.next) && EndsBy(s.next, y, 0)
    requires forall k :: 0 <= k < |lines| ==> lines[k].0.y == y
    ensures var t := PlaceLines(s, lines);
      AllRising(t.current) && EndsBy(t.current, y, -1) && AllRising(t.next) && EndsBy(t.next, y, 0)
  {
    if lines != [] {
      PlaceLinesRising(s, lines[..|lines| - 1], y);
      var u := PlaceLines(s, lines[..|lines| - 1]);
      var line := lines[|lines| - 1];
      match FirstMatch(u.current, line)
      case Some(ix) =>
        RemoveKeeps(u.current, ix, y);
        GrowRising(u.current[ix], line, y);
        NextGrows(u.next, u.current[ix] + [line], y);
      case None =>
        NextGrows(u.next, [line], y);
    }
  }

  /** A rising shape ending below y, extended by a line at y, still rises and ends at y. */
  lemma GrowRising(shape: Shape, line: Scanline, y: real)
    requires Rising(shape) && shape != [] && shape[|shape| - 1].0.y < y && line.0.y == y
    ensures Rising(shape + [line]) && (shape + [line])[|shape|].0.y == y
  {
    var grown := shape + [line];
    forall i | 0 < i < |grown|
      ensures grown[i - 1].0.y < grown[i].0.y
    {
      if i == |grown| - 1 {
        assert grown[i - 1] == shape[|shape| - 1];
      }
    }
  }

  /** Appending a rising shape that ends at y keeps the placed shapes rising and ending at y. */
  lemma NextGrows(next: seq<Shape>, shape: Shape, y: real)
    requires AllRising(next) && EndsBy(next, y, 0)
    requires Rising(shape) && shape != [] && shape[|shape| - 1].0.y == y
    ensures AllRising(next + [shape]) && EndsBy(next + [shape], y, 0)
  {
    assert forall i :: 0 <= i < |next + [shape]| ==> (next + [shape])[i] == if i < |next| then next[i] else shape;
  }

  /**
   * Given scanlines levelled by strictly rising y, every shape
   * `batch_scanlines` returns takes at most one line per level, in level
   * order: its lines rise strictly.
   */
  lemma {:induction false} BatchRising(levels: seq<seq<Scanline>>, ys: seq<real>)
    requires Levelled(levels, ys)
    ensures AllRising(BatchLevels(levels).final) && AllRising(BatchLevels(levels).current)
    ensures levels == [] ==> BatchLevels(levels).current == []
    ensures levels != [] ==> EndsBy(BatchLevels(levels).current, ys[|ys| - 1], 0)
    ensures AllRising(BatchScanlines(levels))
  {
    if levels != [] {
      var init, last := levels[..|levels| - 1], levels[|levels| - 1];
      var y := ys[|ys| - 1];
      assert Levelled(init, ys[..|ys| - 1]);
      BatchRising(init, ys[..|ys| - 1]);
      var b := BatchLevels(init);
      assert EndsBy(b.current, y, -1);
      assert forall k :: 0 <= k < |last| ==> last[k].0.y == y;
      PlaceLinesRising(Level(b.current, []), last, y);
      var l := PlaceLines(Level(b.current, []), last);
      AllRisingConcat(b.final, l.current);
    }
    AllRisingConcat(BatchLevels(levels).final, BatchLevels(levels).current);
  }

  lemma AllRisingConcat(a: seq<Shape>, b: seq<Shape>)
    requires AllRising(a) && AllRising(b)
    ensures AllRising(a + b)
  {
    assert forall i :: 0 <= i < |a + b| ==> (a + b)[i] == if i < |a| then a[i] else b[i - |a|];
  }

  lemma {:induction false} VerticalMembers(ls: seq<PlaneLine.L2>, x: PlaneLine.L2)
    ensures x in Vertical(ls) <==> x in ls && x.v.y != 0.0
  {
    if ls != [] {
      VerticalMembers(ls[..|ls| - 1], x);
      assert ls == ls[..|ls| - 1] + [ls[|ls| - 1]];
    }
  }

  /**
   * `bounding_lines` keeps exactly the segments, from any of the polygons,
   * that are not horizontal.
   */
  lemma {:induction false} BoundingLinesMembers(segments: seq<seq<PlaneLine.L2>>, x: PlaneLine.L2)
    ensures x in BoundingLines(segments) <==>
      x.v.y != 0.0 && exists i :: 0 <= i < |segments| && x in segments[i]
  {
    if segments != [] {
      var init := segments[..|segments| - 1];
      BoundingLinesMembers(init, x);
      VerticalMembers(segments[|segments| - 1], x);
      if x in BoundingLines(init) {
        var i :| 0 <= i < |init| && x in init[i];
        assert segments[i] == init[i];
      }
      if x.v.y != 0.0 && exists i :: 0 <= i < |segments| && x in segments[i] {
        var i :| 0 <= i < |segments| && x in segments[i];
        if i < |init| {
          assert init[i] == segments[i];
        }
      }
    }
  }
}
