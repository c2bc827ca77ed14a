/**
 * SVG reading (petrify/formats/svg.py): the `transform` attribute parser,
 * the `Path` object with its composed transform, the conversion of a
 * path's drawing commands into point lists, and the SAX handler that keeps
 * the stack of group transforms.
 *
 * Python's `float` on a parameter, `math.sin`/`math.cos`, svg.path's
 * parsing of the `d` attribute and its curve sampling are given to the
 * model as parameters.
 */
module Svg {
  import opened Wrappers
  import PlanePoint
  import opened PlaneMatrix

  type V2 = PlanePoint.V2

  // ---------------------------------------------------------------------
  // The regular expression `(.*)\((.*)\)` and `split(',')`

  /** The text before the first newline: `.` matches anything else. */
  function FirstLine(s: string): (r: string)
    ensures r <= s && '\n' !in r
    ensures |r| < |s| ==> s[|r|] == '\n'
  {
    if s == [] || s[0] == '\n' then [] else [s[0]] + FirstLine(s[1..])
  }

  /** The position of the last `ch` in s. */
  function LastIndex(s: string, ch: char): (r: Option<nat>)
    ensures r.Some? ==> r.value < |s| && s[r.value] == ch && forall j :: r.value < j < |s| ==> s[j] != ch
    ensures r.None? ==> ch !in s
  {
    if s == [] then None
    else if s[|s| - 1] == ch then Some(|s| - 1)
    else LastIndex(s[..|s| - 1], ch)
  }

  /**
   * `exp.match(s).groups()`: the pattern is anchored at the start, and
   * backtracking from the greedy first group leaves the name ending at the
   * last '(' that still has a ')' after it, and the parameters running to
   * the last ')' of the first line. None is a failed match, whose
   * `.groups()` raises AttributeError.
   */
  function Groups(s: string): Option<(string, string)> {
    var line := FirstLine(s);
    match LastIndex(line, ')')
    case None => None
    case Some(q) =>
      match LastIndex(line[..q], '(')
      case None => None
      case Some(p) => Some((line[..p], line[p + 1..q]))
  }

  /** `s.split(',')`: always at least one piece, "" gives [""]. */
  function SplitComma(s: string): (r: seq<string>)
    ensures |r| >= 1
  {
    if s == [] then [[]]
    else
      var rest := SplitComma(s[1..]);
      if s[0] == ',' then [[]] + rest else [[s[0]] + rest[0]] + rest[1..]
  }

  /** `','.join(pieces)`, the inverse of the split. */
  function JoinComma(pieces: seq<string>): string
    requires |pieces| >= 1
  {
    if |pieces| == 1 then pieces[0] else pieces[0] + "," + JoinComma(pieces[1..])
  }

  function Commas(s: string): nat {
    if s == [] then 0 else (if s[0] == ',' then 1 else 0) + Commas(s[1..])
  }

  // ---------------------------------------------------------------------
  // parse_transform

  /** What `parse_transform` gives: a matrix, None (an unknown name), or an exception. */
  datatype Parsed = Parsed(m: Mat) | NoneReturned | Raised

  /** `[float(v) for v in pieces]`: the first piece `float` refuses raises ValueError. */
  function Floats(pieces: seq<string>, parse: string -> Option<real>): (r: Option<seq<real>>)
    ensures r.Some? ==> |r.value| == |pieces| && forall i :: 0 <= i < |pieces| ==> parse(pieces[i]) == Some(r.value[i])
    ensures r.None? ==> exists i :: 0 <= i < |pieces| && parse(pieces[i]).None?
  {
    if pieces == [] then Some([])
    else
      match parse(pieces[0])
      case None => None
      case Some(x) =>
        match Floats(pieces[1..], parse)
        case None => None
        case Some(xs) => Some([x] + xs)
  }

  /** `Matrix2.rotate(angle)`: counter-clockwise by the angle. */
  function Rotate(angle: real, sin: real -> real, cos: real -> real): Mat {
    Identity().(a := cos(angle), f := cos(angle), b := -sin(angle), e := sin(angle))
  }

  /** `matrix(a, b, c, d, e, f)` through `from_values(a, b, 0, c, d, 0, e, f, 1)`. */
  function SvgMatrix(ps: seq<real>): Mat
    requires |ps| == 6
  {
    FromValues([ps[0], ps[1], 0.0, ps[2], ps[3], 0.0, ps[4], ps[5], 1.0]).value
  }

  /**
   * `parse_transform(s)` as written. Unpacking the wrong number of values
   * raises ValueError, `translate`/`scale` with other than two values a
   * TypeError, and three-value `rotate` reaches `Matrix.rotate(x, y)`, a
   * TypeError as well.
   */
  function ParseTransform(s: string, parse: string -> Option<real>, sin: real -> real, cos: real -> real): Parsed {
    match Groups(s)
    case None => Raised
    case Some((name, params)) =>
      match Floats(SplitComma(params), parse)
      case None => Raised
      case Some(ps) =>
        if name == "matrix" then (if |ps| == 6 then Parsed(SvgMatrix(ps)) else Raised)
        else if name == "translate" then (if |ps| == 2 then Parsed(Translate(ps[0], ps[1])) else Raised)
        else if name == "scale" then (if |ps| == 2 then Parsed(Scale(ps[0], ps[1])) else Raised)
        else if name == "rotate" then (if |ps| == 1 then Parsed(Rotate(ps[0], sin, cos)) else Raised)
        else NoneReturned
  }

  /**
   * `rotate(a, x, y)` as section 7.6 of SVG 1.1 defines it: translate(x, y)
   * rotate(a) translate(-x, -y).
   */
  function RotateAbout(angle: real, x: real, y: real, sin: real -> real, cos: real -> real): Mat {
    Mul(Mul(Translate(x, y), Rotate(angle, sin, cos)), Translate(-x, -y))
  }

  /** `parse_transform` with three-value `rotate` turning about its centre. */
  function ParseTransformCorrected(s: string, parse: string -> Option<real>, sin: real -> real, cos: real -> real): Parsed {
    match Groups(s)
    case None => Raised
    case Some((name, params)) =>
      match Floats(SplitComma(params), parse)
      case None => Raised
      case Some(ps) =>
        if name == "rotate" && |ps| == 3 then Parsed(RotateAbout(ps[0], ps[1], ps[2], sin, cos))
        else ParseTransform(s, parse, sin, cos)
  }

  // ---------------------------------------------------------------------
  // Path

  /** A `Path`: its transforms, its `d` text, and the composed transform. */
  datatype Path = Path(transforms: seq<Mat>, data: string, transform: Mat)

  /** `m` multiplied on the right by each of `ts` in turn. */
  function Compose(m: Mat, ts: seq<Mat>): Mat {
    if ts == [] then m else Mul(Compose(m, ts[..|ts| - 1]), ts[|ts| - 1])
  }

  /** The transforms applied to w, the last one first. */
  function ApplyAll(ts: seq<Mat>, w: V2): V2 {
    if ts == [] then w else ApplyAll(ts[..|ts| - 1], Apply(ts[|ts| - 1], w))
  }

  predicate AllAffine(ts: seq<Mat>) {
    forall i :: 0 <= i < |ts| ==> Affine(ts[i])
  }

  /** The path `Path(transforms, data)` builds. */
  function PathOf(transforms: seq<Mat>, data: string): Path {
    Path(transforms, data, Compose(Scale(1.0, -1.0), transforms))
  }

  /** `Path.__init__`: start from scale(1, -1) and `*=` each transform. */
  method NewPath(transforms: seq<Mat>, data: string) returns (p: Path)
    ensures p == PathOf(transforms, data)
  {
    var m := Scale(1.0, -1.0);
    for n := 0 to |transforms|
      invariant m == Compose(Scale(1.0, -1.0), transforms[..n])
    {
      assert transforms[..n + 1][..n] == transforms[..n];
      m := Mul(m, transforms[n]);
    }
    assert transforms[..|transforms|] == transforms;
    p := Path(transforms, data, m);
  }

  /** `path * f` for a scalar f: a new path with a uniform scale in front. */
  method Times(p: Path, f: real) returns (q: Path)
    ensures q == PathOf([Scale(f, f)] + p.transforms, p.data)
  {
    q := NewPath([Scale(f, f)] + p.transforms, p.data);
  }

  /** `path.t(point)`. */
  function T(p: Path, w: V2): V2 {
    Apply(p.transform, w)
  }

  // ---------------------------------------------------------------------
  // Path.polygons

  /** A complex number from svg.path. */
  datatype Complex = Complex(re: real, im: real)

  function FromComplex(v: Complex): V2 {
    PlanePoint.Point(v.re, v.im)
  }

  /**
   * One parsed drawing command: a straight `Line`; a `CubicBezier`,
   * `QuadraticBezier` or `Arc` with its length and its point at each
   * parameter; or any other command (a move, a close) by its start.
   */
  datatype Command =
    | Straight(end: Complex)
    | Curve(length: real, at: real -> Complex, end: Complex)
    | Other(start: Complex)

  /** Python's `int` on a float: truncation toward zero. */
  function Trunc(x: real): int {
    if x >= 0.0 then x.Floor else -((-x).Floor)
  }

  /** The samples of a curve: `point(ix / points)` for ix below int(points) - 1. */
  function Samples(p: Path, length: real, at: real -> Complex, minLength: real): (r: seq<V2>)
    requires minLength != 0.0
    ensures |r| == if Trunc(length / minLength) - 1 > 0 then Trunc(length / minLength) - 1 else 0
  {
    var points := length / minLength;
    var count := if Trunc(points) - 1 > 0 then Trunc(points) - 1 else 0;
    seq(count, ix requires 0 <= ix < count => T(p, FromComplex(at(ix as real / points))))
  }

  predicate HasCurve(cmds: seq<Command>) {
    exists i :: 0 <= i < |cmds| && cmds[i].Curve?
  }

  /** The points one command adds, whether to the current list or as a new one. */
  function Emitted(p: Path, c: Command, minLength: real): seq<V2>
    requires minLength != 0.0 || !c.Curve?
  {
    match c
    case Straight(end) => [T(p, FromComplex(end))]
    case Curve(length, at, end) => Samples(p, length, at, minLength) + [T(p, FromComplex(end))]
    case Other(start) => [T(p, FromComplex(start))]
  }

  /** The loop state: finished lists and the current one. */
  datatype Lists = Lists(polygons: seq<seq<V2>>, current: seq<V2>)

  /** One pass of the loop body. */
  function Step(p: Path, s: Lists, c: Command, minLength: real): Lists
    requires minLength != 0.0 || !c.Curve?
  {
    if c.Other? then Lists(if s.current != [] then s.polygons + [s.current] else s.polygons, Emitted(p, c, minLength))
    else Lists(s.polygons, s.current + Emitted(p, c, minLength))
  }

  /** The loop state after the given commands. */
  function Scan(p: Path, cmds: seq<Command>, minLength: real): Lists
    requires minLength != 0.0 || !HasCurve(cmds)
  {
    if cmds == [] then Lists([], [])
    else Step(p, Scan(p, cmds[..|cmds| - 1], minLength), cmds[|cmds| - 1], minLength)
  }

  /** The point lists after the loop, a non-empty current list closed off. */
  function PointLists(p: Path, cmds: seq<Command>, minLength: real): seq<seq<V2>>
    requires minLength != 0.0 || !HasCurve(cmds)
  {
    var s := Scan(p, cmds, minLength);
    if s.current != [] then s.polygons + [s.current] else s.polygons
  }

  /** `Polygon(q).simplify()` for each list, the None results dropped. */
  function Simplified(lists: seq<seq<V2>>, simplify: seq<V2> -> Option<seq<V2>>): seq<seq<V2>> {
    if lists == [] then []
    else
      var rest := Simplified(lists[..|lists| - 1], simplify);
      match simplify(lists[|lists| - 1])
      case None => rest
      case Some(q) => rest + [q]
  }

  /** One pass of the loop body of `path.polygons`: a move or close starts a new list. */
  method ScanCommand(p: Path, command: Command, minLength: real, polygons: seq<seq<V2>>, current: seq<V2>)
    returns (polygons': seq<seq<V2>>, current': seq<V2>)
    requires minLength != 0.0 || !command.Curve?
    ensures Lists(polygons', current') == Step(p, Lists(polygons, current), command, minLength)
  {
    polygons', current' := polygons, current;
    if command.Other? {
      if current' != [] {
        polygons' := polygons' + [current'];
      }
      current' := [T(p, FromComplex(command.start))];
    } else {
      if command.Curve? {
        var points := command.length / minLength;
        var count := if Trunc(points) - 1 > 0 then Trunc(points) - 1 else 0;
        for k := 0 to count
          invariant current' == current + Samples(p, command.length, command.at, minLength)[..k]
        {
          current' := current' + [T(p, FromComplex(command.at(k as real / points)))];
        }
      }
      current' := current' + [T(p, FromComplex(command.end))];
    }
  }

  /**
   * `path.polygons(min_length)` over the parsed commands. A curve met with
   * a zero `min_length` raises ZeroDivisionError (None).
   */
  method Polygons(p: Path, cmds: seq<Command>, minLength: real, simplify: seq<V2> -> Option<seq<V2>>)
    returns (r: Option<seq<seq<V2>>>)
    ensures r.None? <==> minLength == 0.0 && HasCurve(cmds)
    ensures r.Some? ==> r.value == Simplified(PointLists(p, cmds, minLength), simplify)
  {
    var polygons: seq<seq<V2>> := [];
    var current: seq<V2> := [];
    for ix := 0 to |cmds|
      invariant minLength != 0.0 || !HasCurve(cmds[..ix])
      invariant Lists(polygons, current) == Scan(p, cmds[..ix], minLength)
    {
      assert cmds[..ix + 1][..ix] == cmds[..ix];
      var command := cmds[ix];
      if command.Curve? && minLength == 0.0 {
        assert cmds[ix].Curve?;
        return None;
      }
      polygons, current := ScanCommand(p, command, minLength, polygons, current);
    }
    assert cmds[..|cmds|] == cmds;
    if current != [] {
      polygons := polygons + [current];
    }
    r := Some(Simplified(polygons, simplify));
  }

  // ---------------------------------------------------------------------
  // Handler

  /** `'transform' in attributes`: the attribute's text, or None. */
  function OwnTransform(attributes: map<string, string>): Option<string> {
    if "transform" in attributes then Some(attributes["transform"]) else None
  }

  /** `list(t for t in stack if t is not None)`. */
  function Present(stack: seq<Option<string>>): (r: seq<string>)
    ensures |r| <= |stack|
  {
    if stack == [] then []
    else Present(stack[..|stack| - 1]) + (if stack[|stack| - 1].Some? then [stack[|stack| - 1].value] else [])
  }

  /** The texts a path's transforms come from: the groups', then its own if non-empty. */
  function TransformTexts(stack: seq<Option<string>>, attributes: map<string, string>): seq<string> {
    var own := OwnTransform(attributes);
    Present(stack) + (if own.Some? && own.value != "" then [own.value] else [])
  }

  /**
   * `[parse_transform(t) for t in texts]` fed to `Path`: an exception from
   * the parser, or a None that `Matrix2.__imul__`'s assertion refuses, is an
   * error (None).
   */
  function Transforms(texts: seq<string>, parse: string -> Option<real>, sin: real -> real, cos: real -> real): (r: Option<seq<Mat>>)
    ensures r.Some? ==> |r.value| == |texts|
  {
    if texts == [] then Some([])
    else
      match Transforms(texts[..|texts| - 1], parse, sin, cos)
      case None => None
      case Some(ms) =>
        match ParseTransform(texts[|texts| - 1], parse, sin, cos)
        case Parsed(m) => Some(ms + [m])
        case _ => None
  }

  /**
   * What `startElement('path', attributes)` stores: under `attributes['id']`,
   * the path of the parsed transforms and `attributes['d']`; None when a
   * transform fails or either attribute is missing (KeyError).
   */
  function PathEntry(stack: seq<Option<string>>, attributes: map<string, string>,
                     parse: string -> Option<real>, sin: real -> real, cos: real -> real): Option<(string, Path)>
  {
    match Transforms(TransformTexts(stack, attributes), parse, sin, cos)
    case None => None
    case Some(ms) =>
      if "d" in attributes && "id" in attributes then Some((attributes["id"], PathOf(ms, attributes["d"])))
      else None
  }

  /** The list comprehension and `Path`'s assertion, one transform at a time. */
  method ParseTransforms(texts: seq<string>, parse: string -> Option<real>, sin: real -> real, cos: real -> real)
    returns (r: Option<seq<Mat>>)
    ensures r == Transforms(texts, parse, sin, cos)
  {
    var ms: seq<Mat> := [];
    for n := 0 to |texts|
      invariant Transforms(texts[..n], parse, sin, cos) == Some(ms)
    {
      var next := AppendTransform(texts, n, ms, parse, sin, cos);
      if next.None? {
        TransformsPrefixFails(texts, n + 1, parse, sin, cos);
        return None;
      }
      ms := next.value;
    }
    assert texts[..|texts|] == texts;
    r := Some(ms);
  }

  /** One pass of the transform loop: parse text n and append its matrix. */
  method AppendTransform(texts: seq<string>, n: nat, ms: seq<Mat>, parse: string -> Option<real>, sin: real -> real, cos: real -> real)
    returns (next: Option<seq<Mat>>)
    requires n < |texts| && Transforms(texts[..n], parse, sin, cos) == Some(ms)
    ensures next == Transforms(texts[..n + 1], parse, sin, cos)
  {
    assert texts[..n + 1][..n] == texts[..n];
    var t := ParseTransform(texts[n], parse, sin, cos);
    if !t.Parsed? {
      return None;
    }
    next := Some(ms + [t.m]);
  }

  /** A SAX event. */
  datatype Event = Start(tag: string, attributes: map<string, string>) | End(tag: string)

  /** What one event does to the group stack; None is the IndexError of popping an empty stack. */
  function StackStep(stack: seq<Option<string>>, e: Event): Option<seq<Option<string>>> {
    match e
    case Start(tag, attributes) => if tag == "g" then Some(stack + [OwnTransform(attributes)]) else Some(stack)
    case End(tag) =>
      if tag != "g" then Some(stack)
      else if stack == [] then None
      else Some(stack[..|stack| - 1])
  }

  /** The group stack after a run of events. */
  function StackAfter(stack: seq<Option<string>>, events: seq<Event>): Option<seq<Option<string>>> {
    if events == [] then Some(stack)
    else
      match StackAfter(stack, events[..|events| - 1])
      case None => None
      case Some(s) => StackStep(s, events[|events| - 1])
  }

  /** Groups opened minus groups closed. */
  function Nesting(events: seq<Event>): int {
    if events == [] then 0
    else
      var e := events[|events| - 1];
      Nesting(events[..|events| - 1]) + (if e.Start? && e.tag == "g" then 1 else if e.End? && e.tag == "g" then -1 else 0)
  }

  /**
   * The SAX content handler. The paths hold the `Path` objects; the unit
   * factors the source multiplies them by are not part of this model.
   */
  class Handler {
    var stack: seq<Option<string>>
    var paths: map<string, Path>
    const parse: string -> Option<real>
    const sin: real -> real
    const cos: real -> real

    constructor (parse: string -> Option<real>, sin: real -> real, cos: real -> real)
      ensures stack == [] && paths == map[]
      ensures this.parse == parse && this.sin == sin && this.cos == cos
    {
      stack := [];
      paths := map[];
      this.parse := parse;
      this.sin := sin;
      this.cos := cos;
    }

    /**
     * `startElement`: a `g` pushes its transform (None when absent); a
     * `path` stores its entry. False is an exception, which leaves the
     * handler as it was.
     */
    method StartElement(tag: string, attributes: map<string, string>) returns (ok: bool)
      modifies this
      ensures stack == StackStep(old(stack), Start(tag, attributes)).value
      ensures tag == "path" ==> (ok <==> PathEntry(old(stack), attributes, parse, sin, cos).Some?)
      ensures tag == "path" && ok ==>
        var entry := PathEntry(old(stack), attributes, parse, sin, cos).value;
        paths == old(paths)[entry.0 := entry.1]
      ensures tag != "path" ==> ok
      ensures tag != "path" || !ok ==> paths == old(paths)
    {
      var transform := OwnTransform(attributes);
      if tag == "g" {
        stack := stack + [transform];
      }
      ok := true;
      if tag == "path" {
        var ms := ParseTransforms(TransformTexts(stack, attributes), parse, sin, cos);
        if ms.None? || "d" !in attributes || "id" !in attributes {
          return false;
        }
        var path := NewPath(ms.value, attributes["d"]);
        paths := paths[attributes["id"] := path];
      }
    }

    /** `endElement`: a closing `g` pops; false is the IndexError of an empty stack. */
    method EndElement(tag: string) returns (ok: bool)
      modifies this
      ensures ok <==> StackStep(old(stack), End(tag)).Some?
      ensures ok ==> stack == StackStep(old(stack), End(tag)).value
      ensures !ok ==> stack == old(stack)
      ensures paths == old(paths)
    {
      ok := true;
      if tag == "g" {
        if stack == [] {
          return false;
        }
        stack := stack[..|stack| - 1];
      }
    }
  }

  // ---------------------------------------------------------------------
  // Properties

  lemma TransformsPrefixFails(texts: seq<string>, n: nat, parse: string -> Option<real>, sin: real -> real, cos: real -> real)
    requires n <= |texts| && Transforms(texts[..n], parse, sin, cos).None?
    ensures Transforms(texts, parse, sin, cos).None?
    decreases |texts| - n
  {
    if n < |texts| {
      assert texts[..n + 1][..n] == texts[..n];
      TransformsPrefixFails(texts, n + 1, parse, sin, cos);
    } else {
      assert texts[..n] == texts;
    }
  }

  // The regular expression

  lemma {:induction false} FirstLineOf(x: string, tail: string)
    requires '\n' !in x && (tail == [] || tail[0] == '\n')
    ensures FirstLine(x + tail) == x
  {
    if x != [] {
      assert (x + tail)[1..] == x[1..] + tail;
      FirstLineOf(x[1..], tail);
    }
  }

  /**
   * A name and parameters without line breaks, the parameters without
   * brackets, followed by nothing or a new line: the match gives both back.
   */
  lemma GroupsOf(name: string, params: string, tail: string)
    requires '\n' !in name && '\n' !in params && '(' !in params && ')' !in params
    requires tail == [] || tail[0] == '\n'
    ensures Groups(name + "(" + params + ")" + tail) == Some((name, params))
  {
    var x := name + "(" + params + ")";
    assert x + tail == name + "(" + params + ")" + tail;
    FirstLineOf(x, tail);
    var q := |x| - 1;
    assert LastIndex(x, ')') == Some(q);
    var y := x[..q];
    assert y == name + "(" + params;
    LastOpening(name, params);
    assert x[..|name|] == name && x[|name| + 1..q] == params;
  }

  /** In name + "(" + params, with no '(' in params, the last '(' is the one after the name. */
  lemma LastOpening(name: string, params: string)
    requires '(' !in params
    ensures LastIndex(name + "(" + params, '(') == Some(|name|)
  {
    var y := name + "(" + params;
    assert y[|name|] == '(';
    assert forall j :: |name| < j < |y| ==> y[j] == params[j - |name| - 1];
  }

  /** A line has a '(' somewhere before a ')'. */
  predicate Bracketed(line: string) {
    exists i, j :: 0 <= i < j < |line| && line[i] == '(' && line[j] == ')'
  }

  /** The match succeeds exactly when the first line has a '(' somewhere before a ')'. */
  lemma GroupsMatch(s: string)
    ensures Groups(s).Some? <==> Bracketed(FirstLine(s))
  {
    var line := FirstLine(s);
    if Groups(s).Some? {
      var q := LastIndex(line, ')').value;
      var p := LastIndex(line[..q], '(').value;
      assert line[p] == '(' && line[q] == ')';
    }
  }

  /** On a match, the name and the parameters, bracketed, open the first line. */
  lemma GroupsShape(s: string)
    requires Groups(s).Some?
    ensures var (name, params) := Groups(s).value;
      name + "(" + params + ")" <= FirstLine(s) && '\n' !in name && '\n' !in params
  {
    var line := FirstLine(s);
    var q := LastIndex(line, ')').value;
    var p := LastIndex(line[..q], '(').value;
    var (name, params) := Groups(s).value;
    assert name == line[..p] && params == line[p + 1..q];
    assert line[..q + 1] == name + "(" + params + ")";
  }

  /** `split(',')` and `','.join` undo each other; the pieces hold no comma; one more piece than commas. */
  lemma {:induction false} SplitCommaProperties(s: string)
    ensures JoinComma(SplitComma(s)) == s
    ensures forall k :: 0 <= k < |SplitComma(s)| ==> ',' !in SplitComma(s)[k]
    ensures |SplitComma(s)| == Commas(s) + 1
  {
    if s != [] {
      SplitCommaProperties(s[1..]);
      var rest := SplitComma(s[1..]);
      if s[0] == ',' {
        assert SplitComma(s)[1..] == rest;
      } else {
        var r := SplitComma(s);
        assert r[0] == [s[0]] + rest[0] && r[1..] == rest[1..];
        if |rest| == 1 {
          assert JoinComma(r) == r[0];
        } else {
          assert JoinComma(rest) == rest[0] + "," + JoinComma(rest[1..]);
          assert JoinComma(r) == r[0] + "," + JoinComma(rest[1..]);
        }
        forall k | 0 <= k < |r|
          ensures ',' !in r[k]
        {
          if k > 0 {
            assert r[k] == rest[k];
          }
        }
      }
    }
  }

  /** Pieces without commas survive joining and splitting again. */
  lemma {:induction false} JoinThenSplit(pieces: seq<string>)
    requires |pieces| >= 1 && forall k :: 0 <= k < |pieces| ==> ',' !in pieces[k]
    ensures SplitComma(JoinComma(pieces)) == pieces
  {
    var first := pieces[0];
    if |pieces| == 1 {
      NoCommaOnePiece(first);
    } else {
      JoinThenSplit(pieces[1..]);
      var tail := JoinComma(pieces[1..]);
      PieceThenRest(first, "," + tail);
      assert ("," + tail)[1..] == tail;
      assert JoinComma(pieces) == first + ("," + tail);
      assert [first] + pieces[1..] == pieces;
    }
  }

  lemma {:induction false} NoCommaOnePiece(x: string)
    requires ',' !in x
    ensures SplitComma(x) == [x]
  {
    if x != [] {
      NoCommaOnePiece(x[1..]);
      assert [x[0]] + x[1..] == x;
    }
  }

  /** A comma-free prefix joins the first piece of whatever follows it. */
  lemma {:induction false} PieceThenRest(x: string, rest: string)
    requires ',' !in x && rest != [] && rest[0] == ','
    ensures SplitComma(x + rest) == [x] + SplitComma(rest[1..])
  {
    if x == [] {
      assert x + rest == rest;
    } else {
      assert (x + rest)[1..] == x[1..] + rest;
      PieceThenRest(x[1..], rest);
      assert [x[0]] + x[1..] == x;
    }
  }

  // parse_transform

  /** Every matrix `parse_transform` gives keeps the bottom row (0, 0, 1). */
  lemma ParsedAffine(s: string, parse: string -> Option<real>, sin: real -> real, cos: real -> real)
    ensures ParseTransform(s, parse, sin, cos).Parsed? ==> Affine(ParseTransform(s, parse, sin, cos).m)
    ensures ParseTransformCorrected(s, parse, sin, cos).Parsed? ==> Affine(ParseTransformCorrected(s, parse, sin, cos).m)
  {
    match Groups(s)
    case None =>
    case Some((name, params)) =>
      match Floats(SplitComma(params), parse)
      case None =>
      case Some(ps) =>
        if name == "rotate" && |ps| == 3 {
          RotateAboutAffine(ps[0], ps[1], ps[2], sin, cos);
        }
  }

  lemma RotateAboutAffine(angle: real, x: real, y: real, sin: real -> real, cos: real -> real)
    ensures Affine(RotateAbout(angle, x, y, sin, cos))
  {
    var w := PlanePoint.Point(x, y);
    ApplyComposes(Translate(x, y), Rotate(angle, sin, cos), w);
    ApplyComposes(Mul(Translate(x, y), Rotate(angle, sin, cos)), Translate(-x, -y), w);
  }

  /**
   * `matrix(a, b, c, d, e, f)` maps (x, y) to (a x + c y + e, b x + d y + f)
   * and a vector to (a x + c y, b x + d y), as section 7.4 of SVG 1.1
   * specifies.
   */
  lemma MatrixAttribute(s: string, params: string, ps: seq<real>, parse: string -> Option<real>, sin: real -> real, cos: real -> real, w: V2)
    requires Groups(s) == Some(("matrix", params)) && Floats(SplitComma(params), parse) == Some(ps) && |ps| == 6
    ensures ParseTransform(s, parse, sin, cos).Parsed?
    ensures var m := ParseTransform(s, parse, sin, cos).m;
      Apply(m, w).x == ps[0] * w.x + ps[2] * w.y + (if w.kind == PlanePoint.PointKind then ps[4] else 0.0) &&
      Apply(m, w).y == ps[1] * w.x + ps[3] * w.y + (if w.kind == PlanePoint.PointKind then ps[5] else 0.0)
  {
    MatrixParsed(s, params, ps, parse, sin, cos);
    SvgMatrixApply(ps, w);
  }

  /** `matrix(a,b,c,d,e,f)` with six floats parses to the SVG matrix of those floats. */
  lemma MatrixParsed(s: string, params: string, ps: seq<real>, parse: string -> Option<real>, sin: real -> real, cos: real -> real)
    requires Groups(s) == Some(("matrix", params)) && Floats(SplitComma(params), parse) == Some(ps) && |ps| == 6
    ensures ParseTransform(s, parse, sin, cos) == Parsed(SvgMatrix(ps))
  {
  }

  /** The SVG matrix of six floats maps w as section 7.4 of SVG 1.1 lays out. */
  lemma SvgMatrixApply(ps: seq<real>, w: V2)
    requires |ps| == 6
    ensures Apply(SvgMatrix(ps), w).x == ps[0] * w.x + ps[2] * w.y + (if w.kind == PlanePoint.PointKind then ps[4] else 0.0)
    ensures Apply(SvgMatrix(ps), w).y == ps[1] * w.x + ps[3] * w.y + (if w.kind == PlanePoint.PointKind then ps[5] else 0.0)
  {
    var m := SvgMatrix(ps);
    assert m == Mat(ps[0], ps[2], ps[4], ps[1], ps[3], ps[5], 0.0, 0.0, 1.0);
    ApplyEntries(m, w);
  }

  /**
   * Parameters are split on commas only: a list without a comma is one
   * value, so `matrix`, `translate` and `scale` with space-separated
   * values, or with a single value, raise.
   */
  lemma NoCommaRaises(s: string, params: string, name: string, parse: string -> Option<real>, sin: real -> real, cos: real -> real)
    requires Groups(s) == Some((name, params)) && ',' !in params
    requires name == "matrix" || name == "translate" || name == "scale"
    ensures ParseTransform(s, parse, sin, cos) == Raised
  {
    NoCommaOnePiece(params);
  }

  /** `translate(10 20)` raises whatever `float` makes of "10 20". */
  lemma SpaceSeparatedTranslateRaises(s: string, parse: string -> Option<real>, sin: real -> real, cos: real -> real)
    requires s == "translate(10 20)"
    ensures ParseTransform(s, parse, sin, cos) == Raised
  {
    SpaceSeparatedGroups(s);
    NoCommaRaises(s, "10 20", "translate", parse, sin, cos);
  }

  lemma SpaceSeparatedGroups(s: string)
    requires s == "translate(10 20)"
    ensures Groups(s) == Some(("translate", "10 20")) && ',' !in "10 20"
  {
    TranslateSpelled(s);
    SpaceSeparatedChars();
    GroupsOf("translate", "10 20", "");
  }

  lemma TranslateSpelled(s: string)
    requires s == "translate(10 20)"
    ensures s == "translate" + "(" + "10 20" + ")" + ""
  {
    var x := "translate" + "(" + "10 20" + ")";
    assert |x| == 16;
    assert forall i :: 0 <= i < 16 ==> x[i] == s[i];
    assert x + "" == x;
  }

  lemma SpaceSeparatedChars()
    ensures ',' !in "10 20" && '\n' !in "10 20" && '(' !in "10 20" && ')' !in "10 20" && '\n' !in "translate"
  {
    var params, name := "10 20", "translate";
    assert forall i :: 0 <= i < |params| ==> params[i] != ',' && params[i] != '\n' && params[i] != '(' && params[i] != ')';
    assert forall i :: 0 <= i < |name| ==> name[i] != '\n';
  }

  /** Two values make `translate` the translation by them. */
  lemma TranslateAttribute(s: string, params: string, ps: seq<real>, parse: string -> Option<real>, sin: real -> real, cos: real -> real, w: V2)
    requires Groups(s) == Some(("translate", params)) && Floats(SplitComma(params), parse) == Some(ps) && |ps| == 2
    ensures ParseTransform(s, parse, sin, cos).Parsed?
    ensures Apply(ParseTransform(s, parse, sin, cos).m, w) ==
      (if w.kind == PlanePoint.PointKind then PlanePoint.Point(w.x + ps[0], w.y + ps[1]) else w)
  {
    assert ParseTransform(s, parse, sin, cos) == Parsed(Translate(ps[0], ps[1]));
    TranslateApplies(ps[0], ps[1], w);
  }

  /** Two values make `scale` the scaling by them. */
  lemma ScaleAttribute(s: string, params: string, ps: seq<real>, parse: string -> Option<real>, sin: real -> real, cos: real -> real, w: V2)
    requires Groups(s) == Some(("scale", params)) && Floats(SplitComma(params), parse) == Some(ps) && |ps| == 2
    ensures ParseTransform(s, parse, sin, cos).Parsed?
    ensures Apply(ParseTransform(s, parse, sin, cos).m, w) == PlanePoint.V2(w.kind, ps[0] * w.x, ps[1] * w.y)
  {
    assert ParseTransform(s, parse, sin, cos) == Parsed(Scale(ps[0], ps[1]));
    ScaleApplies(ps[0], ps[1], w);
  }

  /** A name outside matrix, translate, scale and rotate gives None once its values parse. */
  lemma UnknownNameNone(s: string, name: string, params: string, parse: string -> Option<real>, sin: real -> real, cos: real -> real)
    requires Groups(s) == Some((name, params)) && Floats(SplitComma(params), parse).Some?
    ensures ParseTransform(s, parse, sin, cos) == NoneReturned <==>
      name != "matrix" && name != "translate" && name != "scale" && name != "rotate"
  {
  }

  /** `rotate(a)` turns counter-clockwise about the origin. */
  lemma RotateApplies(angle: real, sin: real -> real, cos: real -> real, w: V2)
    ensures Affine(Rotate(angle, sin, cos))
    ensures Apply(Rotate(angle, sin, cos), w) ==
      PlanePoint.V2(w.kind, cos(angle) * w.x - sin(angle) * w.y, sin(angle) * w.x + cos(angle) * w.y)
  {
    ApplyEntries(Rotate(angle, sin, cos), w);
  }

  /** Three-value `rotate` raises as written; the corrected parser gives the turn about (x, y). */
  lemma RotateAboutRaisesAsWritten(s: string, params: string, ps: seq<real>, parse: string -> Option<real>, sin: real -> real, cos: real -> real)
    requires Groups(s) == Some(("rotate", params)) && Floats(SplitComma(params), parse) == Some(ps) && |ps| == 3
    ensures ParseTransform(s, parse, sin, cos) == Raised
    ensures ParseTransformCorrected(s, parse, sin, cos) == Parsed(RotateAbout(ps[0], ps[1], ps[2], sin, cos))
  {
  }

  /** The corrected parser differs from the written one only on three-value `rotate`. */
  lemma CorrectedAgreesElsewhere(s: string, parse: string -> Option<real>, sin: real -> real, cos: real -> real)
    ensures ParseTransformCorrected(s, parse, sin, cos) != ParseTransform(s, parse, sin, cos) ==>
      Groups(s).Some? && Groups(s).value.0 == "rotate" &&
      Floats(SplitComma(Groups(s).value.1), parse).Some? && |Floats(SplitComma(Groups(s).value.1), parse).value| == 3
  {
  }

  lemma TurnCoordinates(c: real, s: real, x: real, y: real, px: real, py: real, ux: real, uy: real, rx: real, ry: real)
    requires ux == px - x && uy == py - y && rx == c * ux - s * uy && ry == s * ux + c * uy
    ensures rx + x == x + c * (px - x) - s * (py - y) && ry + y == y + s * (px - x) + c * (py - y)
  {
  }

  /**
   * `RotateAbout(a, x, y)` turns every point about (x, y), which stays
   * where it is, for any sine and cosine.
   */
  lemma RotateAboutCentre(angle: real, x: real, y: real, sin: real -> real, cos: real -> real, px: real, py: real)
    ensures Apply(RotateAbout(angle, x, y, sin, cos), PlanePoint.Point(px, py)) ==
      PlanePoint.Point(x + cos(angle) * (px - x) - sin(angle) * (py - y), y + sin(angle) * (px - x) + cos(angle) * (py - y))
    ensures Apply(RotateAbout(angle, x, y, sin, cos), PlanePoint.Point(x, y)) == PlanePoint.Point(x, y)
  {
    var R := Rotate(angle, sin, cos);
    RotateApplies(angle, sin, cos, PlanePoint.Point(px - x, py - y));
    RotateApplies(angle, sin, cos, PlanePoint.Point(0.0, 0.0));
    TranslateApplies(-x, -y, PlanePoint.Point(px, py));
    TranslateApplies(-x, -y, PlanePoint.Point(x, y));
    ApplyComposes(Translate(x, y), R, PlanePoint.Point(px - x, py - y));
    ApplyComposes(Mul(Translate(x, y), R), Translate(-x, -y), PlanePoint.Point(px, py));
    ApplyComposes(Translate(x, y), R, PlanePoint.Point(0.0, 0.0));
    ApplyComposes(Mul(Translate(x, y), R), Translate(-x, -y), PlanePoint.Point(x, y));
    var r := Apply(R, PlanePoint.Point(px - x, py - y));
    TurnCoordinates(cos(angle), sin(angle), x, y, px, py, px - x, py - y, r.x, r.y);
    TranslateApplies(x, y, r);
    TranslateApplies(x, y, PlanePoint.Point(0.0, 0.0));
  }

  /**
   * The product in the source with its second `rotate` read as `translate`
   * turns about (-x, -y) instead: that point is the one it keeps.
   */
  lemma SourceOrderTurnsAboutNegated(angle: real, x: real, y: real, sin: real -> real, cos: real -> real)
    ensures Apply(Mul(Mul(Translate(-x, -y), Rotate(angle, sin, cos)), Translate(x, y)), PlanePoint.Point(-x, -y)) ==
      PlanePoint.Point(-x, -y)
  {
    RotateAboutCentre(angle, -x, -y, sin, cos, -x, -y);
    assert Translate(- -x, - -y) == Translate(x, y);
  }

  // Path

  /**
   * A composed transform applies its factors right to left: the first
   * transform of the list acts last.
   */
  lemma {:induction false} ComposeApplies(m: Mat, ts: seq<Mat>, w: V2)
    requires AllAffine(ts)
    ensures Apply(Compose(m, ts), w) == Apply(m, ApplyAll(ts, w))
    ensures Affine(m) ==> Affine(Compose(m, ts))
  {
    if ts != [] {
      var init, last := ts[..|ts| - 1], ts[|ts| - 1];
      assert AllAffine(init);
      ApplyComposes(Compose(m, init), last, w);
      ComposeApplies(m, init, Apply(last, w));
      ComposeApplies(m, init, w);
    }
  }

  /** The transform put first acts last on a point. */
  lemma {:induction false} ApplyAllFront(t: Mat, ts: seq<Mat>, w: V2)
    ensures ApplyAll([t] + ts, w) == Apply(t, ApplyAll(ts, w))
  {
    if ts != [] {
      assert ([t] + ts)[..|ts|] == [t] + ts[..|ts| - 1];
      ApplyAllFront(t, ts[..|ts| - 1], Apply(ts[|ts| - 1], w));
    }
  }

  /** The flip of the y axis every path starts from. */
  lemma FlipApplies(w: V2)
    ensures Apply(Scale(1.0, -1.0), w) == PlanePoint.V2(w.kind, w.x, -w.y)
    ensures Affine(Scale(1.0, -1.0))
  {
    ApplyEntries(Scale(1.0, -1.0), w);
  }

  lemma UniformApplies(f: real, w: V2)
    ensures Apply(Scale(f, f), w) == PlanePoint.V2(w.kind, f * w.x, f * w.y)
    ensures Affine(Scale(f, f))
  {
    ApplyEntries(Scale(f, f), w);
  }

  lemma FrontAffine(f: real, transforms: seq<Mat>)
    requires AllAffine(transforms)
    ensures AllAffine([Scale(f, f)] + transforms)
  {
    var front := [Scale(f, f)] + transforms;
    assert Affine(Scale(f, f));
    forall i | 0 <= i < |front|
      ensures Affine(front[i])
    {
      if i > 0 {
        assert front[i] == transforms[i - 1];
      }
    }
  }

  /** `path.t(w)` applies the transforms, innermost first, and then flips the y axis. */
  lemma PathApplies(transforms: seq<Mat>, data: string, w: V2)
    requires AllAffine(transforms)
    ensures var u := ApplyAll(transforms, w);
      T(PathOf(transforms, data), w) == PlanePoint.V2(u.kind, u.x, -u.y)
  {
    var u := ApplyAll(transforms, w);
    ComposeApplies(Scale(1.0, -1.0), transforms, w);
    FlipApplies(u);
  }

  /** `path * f` scales by f just before the flip; u is where the transforms take w. */
  lemma TimesApplies(transforms: seq<Mat>, data: string, f: real, w: V2, u: V2)
    requires AllAffine(transforms) && u == ApplyAll(transforms, w)
    ensures T(PathOf([Scale(f, f)] + transforms, data), w) == PlanePoint.V2(u.kind, f * u.x, -(f * u.y))
  {
    var front := [Scale(f, f)] + transforms;
    FrontAffine(f, transforms);
    ApplyAllFront(Scale(f, f), transforms, w);
    PathApplies(front, data, w);
    UniformApplies(f, u);
  }

  // Path.polygons

  function Flatten(lists: seq<seq<V2>>): seq<V2> {
    if lists == [] then [] else Flatten(lists[..|lists| - 1]) + lists[|lists| - 1]
  }

  /** Every point the commands emit, in order. */
  function EmittedAll(p: Path, cmds: seq<Command>, minLength: real): seq<V2>
    requires minLength != 0.0 || !HasCurve(cmds)
  {
    if cmds == [] then [] else EmittedAll(p, cmds[..|cmds| - 1], minLength) + Emitted(p, cmds[|cmds| - 1], minLength)
  }

  function Others(cmds: seq<Command>): nat {
    if cmds == [] then 0 else Others(cmds[..|cmds| - 1]) + (if cmds[|cmds| - 1].Other? then 1 else 0)
  }

  lemma {:induction false} ScanShape(p: Path, cmds: seq<Command>, minLength: real)
    requires minLength != 0.0 || !HasCurve(cmds)
    ensures var s := Scan(p, cmds, minLength);
      Flatten(s.polygons) + s.current == EmittedAll(p, cmds, minLength) &&
      (forall k :: 0 <= k < |s.polygons| ==> s.polygons[k] != []) &&
      (s.current != [] <==> cmds != []) &&
      |s.polygons| + (if cmds != [] && cmds[0].Other? then 1 else 0) == Others(cmds)
  {
    if cmds != [] {
      var init := cmds[..|cmds| - 1];
      var c := cmds[|cmds| - 1];
      assert !c.Curve? || HasCurve(cmds);
      assert HasCurve(init) ==> HasCurve(cmds);
      ScanShape(p, init, minLength);
      StepShape(p, Scan(p, init, minLength), c, minLength);
      if init != [] {
        assert init[0] == cmds[0];
      }
    }
  }

  /**
   * One command appends its points; a non-line command closes a non-empty
   * current list first and starts a new one.
   */
  lemma StepShape(p: Path, s0: Lists, c: Command, minLength: real)
    requires minLength != 0.0 || !c.Curve?
    ensures var s := Step(p, s0, c, minLength);
      Flatten(s.polygons) + s.current == Flatten(s0.polygons) + s0.current + Emitted(p, c, minLength) &&
      s.current != [] &&
      ((forall k :: 0 <= k < |s0.polygons| ==> s0.polygons[k] != []) ==> forall k :: 0 <= k < |s.polygons| ==> s.polygons[k] != []) &&
      |s.polygons| == |s0.polygons| + (if c.Other? && s0.current != [] then 1 else 0)
  {
    if c.Other? && s0.current != [] {
      assert Flatten(s0.polygons + [s0.current]) == Flatten(s0.polygons) + s0.current by {
        assert (s0.polygons + [s0.current])[..|s0.polygons|] == s0.polygons;
      }
    }
  }

  /**
   * The lists of a path: none is empty, together they hold every emitted
   * point in order, and each non-line command starts a list, as does a
   * leading line command.
   */
  lemma PointListsProperties(p: Path, cmds: seq<Command>, minLength: real)
    requires minLength != 0.0 || !HasCurve(cmds)
    ensures var lists := PointLists(p, cmds, minLength);
      (forall k :: 0 <= k < |lists| ==> lists[k] != []) &&
      Flatten(lists) == EmittedAll(p, cmds, minLength) &&
      |lists| == Others(cmds) + (if cmds != [] && !cmds[0].Other? then 1 else 0)
  {
    ScanShape(p, cmds, minLength);
    var s := Scan(p, cmds, minLength);
    if s.current != [] {
      assert (s.polygons + [s.current])[..|s.polygons|] == s.polygons;
    }
  }

  // Handler

  /** The non-None texts keep their order: concatenated stacks give concatenated texts. */
  lemma {:induction false} PresentConcat(a: seq<Option<string>>, b: seq<Option<string>>)
    ensures Present(a + b) == Present(a) + Present(b)
    decreases |b|
  {
    if b != [] {
      assert (a + b)[..|a + b| - 1] == a + b[..|b| - 1];
      PresentConcat(a, b[..|b| - 1]);
    } else {
      assert a + b == a;
    }
  }

  /** A text is among the present ones exactly when the stack holds it. */
  lemma {:induction false} PresentMembers(stack: seq<Option<string>>, t: string)
    ensures t in Present(stack) <==> Some(t) in stack
  {
    if stack != [] {
      var init := stack[..|stack| - 1];
      PresentMembers(init, t);
      assert stack == init + [stack[|stack| - 1]];
    }
  }

  /**
   * A stored path: under the `id` attribute, its `d` text, one matrix for
   * each group transform and its own, and points mapped by the group
   * transforms outermost last and then flipped.
   */
  lemma PathEntryProperties(stack: seq<Option<string>>, attributes: map<string, string>,
                            parse: string -> Option<real>, sin: real -> real, cos: real -> real, w: V2)
    requires PathEntry(stack, attributes, parse, sin, cos).Some?
    ensures var (id, p) := PathEntry(stack, attributes, parse, sin, cos).value;
      var texts := TransformTexts(stack, attributes);
      "id" in attributes && id == attributes["id"] && "d" in attributes && p.data == attributes["d"] &&
      |p.transforms| == |texts| &&
      (forall i :: 0 <= i < |texts| ==> ParseTransform(texts[i], parse, sin, cos) == Parsed(p.transforms[i])) &&
      T(p, w) == PlanePoint.V2(ApplyAll(p.transforms, w).kind, ApplyAll(p.transforms, w).x, -ApplyAll(p.transforms, w).y)
  {
    var texts := TransformTexts(stack, attributes);
    var ms := Transforms(texts, parse, sin, cos).value;
    TransformsParsed(texts, parse, sin, cos);
    assert AllAffine(ms) by {
      forall i | 0 <= i < |ms|
        ensures Affine(ms[i])
      {
        ParsedAffine(texts[i], parse, sin, cos);
      }
    }
    PathApplies(ms, attributes["d"], w);
  }

  /**
   * A path whose own `transform` is a three-value `rotate` is never stored:
   * the parser raises, so `startElement` fails for it.
   */
  lemma RotatedPathRefused(stack: seq<Option<string>>, attributes: map<string, string>, params: string, ps: seq<real>,
                           parse: string -> Option<real>, sin: real -> real, cos: real -> real)
    requires "transform" in attributes
    requires Groups(attributes["transform"]) == Some(("rotate", params))
    requires Floats(SplitComma(params), parse) == Some(ps) && |ps| == 3
    ensures PathEntry(stack, attributes, parse, sin, cos).None?
  {
    var texts := TransformTexts(stack, attributes);
    var t := attributes["transform"];
    assert t != "" by {
      assert Groups("").None?;
    }
    assert texts == Present(stack) + [t];
    RotateAboutRaisesAsWritten(t, params, ps, parse, sin, cos);
    assert texts[|texts| - 1] == t;
    assert Transforms(texts, parse, sin, cos).None?;
  }

  lemma {:induction false} TransformsParsed(texts: seq<string>, parse: string -> Option<real>, sin: real -> real, cos: real -> real)
    requires Transforms(texts, parse, sin, cos).Some?
    ensures forall i :: 0 <= i < |texts| ==>
      ParseTransform(texts[i], parse, sin, cos) == Parsed(Transforms(texts, parse, sin, cos).value[i])
  {
    if texts != [] {
      var init := texts[..|texts| - 1];
      TransformsParsed(init, parse, sin, cos);
      var ms, m := TransformsSnoc(texts, parse, sin, cos);
      forall i | 0 <= i < |texts|
        ensures ParseTransform(texts[i], parse, sin, cos) == Parsed(Transforms(texts, parse, sin, cos).value[i])
      {
        if i < |init| {
          assert texts[i] == init[i];
          assert Transforms(texts, parse, sin, cos).value[i] == ms[i];
        } else {
          assert i == |texts| - 1;
          assert Transforms(texts, parse, sin, cos).value[i] == m;
        }
      }
    }
  }

  /** The last text's matrix is appended to those of the texts before it. */
  lemma TransformsSnoc(texts: seq<string>, parse: string -> Option<real>, sin: real -> real, cos: real -> real)
    returns (ms: seq<Mat>, m: Mat)
    requires texts != [] && Transforms(texts, parse, sin, cos).Some?
    ensures Transforms(texts[..|texts| - 1], parse, sin, cos) == Some(ms)
    ensures ParseTransform(texts[|texts| - 1], parse, sin, cos) == Parsed(m)
    ensures Transforms(texts, parse, sin, cos).value == ms + [m]
  {
    ms := Transforms(texts[..|texts| - 1], parse, sin, cos).value;
    m := ParseTransform(texts[|texts| - 1], parse, sin, cos).m;
  }

  /**
   * The stack after a run of events is as deep as the groups left open,
   * and the run fails exactly when some prefix closes more groups than
   * were open.
   */
  lemma {:induction false} StackDepth(stack: seq<Option<string>>, events: seq<Event>)
    ensures StackAfter(stack, events).Some? ==> |StackAfter(stack, events).value| == |stack| + Nesting(events)
    ensures StackAfter(stack, events).Some? <==> forall k :: 0 <= k <= |events| ==> |stack| + Nesting(events[..k]) >= 0
  {
    if events != [] {
      var init := events[..|events| - 1];
      StackDepth(stack, init);
      assert events[..|events|] == events;
      if StackAfter(stack, events).Some? {
        forall k | 0 <= k <= |events|
          ensures |stack| + Nesting(events[..k]) >= 0
        {
          if k < |events| {
            assert events[..k] == init[..k];
          }
        }
      } else if StackAfter(stack, init).Some? {
        assert |stack| + Nesting(events[..|events|]) < 0;
      } else {
        var k :| 0 <= k <= |init| && |stack| + Nesting(init[..k]) < 0;
        assert events[..k] == init[..k];
      }
      if forall k :: 0 <= k <= |events| ==> |stack| + Nesting(events[..k]) >= 0 {
        forall k | 0 <= k <= |init|
          ensures |stack| + Nesting(init[..k]) >= 0
        {
          assert events[..k] == init[..k];
        }
      }
    }
  }
}
