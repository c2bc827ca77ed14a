/**
 * The STL reader and writer of petrify/stl.py (petrify/formats/stl.py holds
 * the same code). The reader works on a stream over the file's bytes: the
 * first line decides between the ASCII and the binary format, an ASCII file
 * is read seven lines per facet, skipping malformed and zero-area facets,
 * and a binary file is a count followed by 50-byte records. The writer cuts
 * each polygon into a fan of triangles and frames them in either format.
 */
module Stl {
  import opened Wrappers
  import opened StlText

  // ---------------------------------------------------------------------
  // The file stream

  /** An open file: its bytes and the read position. */
  class Stream {
    const data: string
    var pos: nat

    predicate Valid()
      reads this
    {
      pos <= |data|
    }

    constructor (data: string)
      ensures this.data == data && pos == 0 && Valid()
    {
      this.data := data;
      pos := 0;
    }

    /** `readline(limit)`: up to and including the next newline, at most limit bytes. */
    method ReadLine(limit: nat) returns (line: string)
      requires Valid()
      modifies this
      ensures Valid() && pos == LineEnd(data, old(pos), limit)
      ensures line == data[old(pos)..pos]
    {
      var e := LineEnd(data, pos, limit);
      line := data[pos..e];
      pos := e;
    }

    /** `read(n)`: the next n bytes, fewer at the end of the file. */
    method Read(n: nat) returns (chunk: string)
      requires Valid()
      modifies this
      ensures Valid() && pos == if old(pos) + n <= |data| then old(pos) + n else |data|
      ensures chunk == data[old(pos)..pos]
    {
      var e := if pos + n <= |data| then pos + n else |data|;
      chunk := data[pos..e];
      pos := e;
    }
  }

  // ---------------------------------------------------------------------
  // _read_ascii_line

  /** A facet as the reader builds it: each vertex is the list of numbers on its line. */
  datatype Triangle = Triangle(v0: seq<real>, v1: seq<real>, v2: seq<real>)

  /**
   * What one `_read_ascii_line` call ends in: the numbers after the keywords,
   * StlEndOfFileException, StlMalformedLineException, or an exception the
   * reader does not catch (IndexError, ValueError, UnicodeDecodeError).
   */
  datatype LineResult = Values(values: seq<real>) | EndOfFile | Malformed | Raised

  predicate IsAscii(line: string) {
    forall i :: 0 <= i < |line| ==> line[i] as int < 128
  }

  /** How the keyword loop ends: all keywords matched, a word differed, or the words ran out (IndexError). */
  datatype KeyCheck = KeysMatch | Mismatch | OutOfWords

  function CheckKeys(words: seq<string>, keys: seq<string>): (r: KeyCheck)
    ensures r == KeysMatch ==> |keys| <= |words| && words[..|keys|] == keys
  {
    if forall i :: 0 <= i < |keys| && i < |words| ==> words[i] == keys[i] then
      (if |words| < |keys| then OutOfWords else KeysMatch)
    else Mismatch
  }

  /** `[float(val) for val in words]`, with `parse` standing for `float`; None when one word is not a number. */
  function ParseAll(words: seq<string>, parse: string -> Option<real>): (r: Option<seq<real>>)
    ensures r.Some? <==> forall k :: 0 <= k < |words| ==> parse(words[k]).Some?
    ensures r.Some? ==> |r.value| == |words|
    ensures r.Some? ==> forall k :: 0 <= k < |words| ==> r.value[k] == parse(words[k]).value
  {
    if forall k :: 0 <= k < |words| ==> parse(words[k]).Some? then
      Some(seq(|words|, k requires 0 <= k < |words| => parse(words[k]).value))
    else None
  }

  /**
   * The reference definition of `_read_ascii_line` on one line. `strip` is
   * left implicit: `split()` already drops the whitespace at both ends.
   */
  function LineStep(line: string, watch: string, parse: string -> Option<real>): LineResult {
    if !IsAscii(line) then Raised
    else if line == "" then EndOfFile
    else
      var words := Words(Lower(line));
      if words == [] then Raised
      else if words[0] == "endsolid" then EndOfFile
      else
        var keys := Words(Lower(watch));
        match CheckKeys(words, keys)
        case Mismatch => Malformed
        case OutOfWords => Raised
        case KeysMatch =>
          match ParseAll(words[|keys|..], parse)
          case None => Raised
          case Some(vs) => Values(vs)
  }

  /** `_read_ascii_line` at a position: the result and where the next line starts. */
  function AsciiLine(data: string, pos: nat, watch: string, parse: string -> Option<real>): (r: (LineResult, nat))
    requires pos <= |data|
    ensures pos <= r.1 <= |data|
    ensures r.0 != EndOfFile ==> r.1 > pos
  {
    var e := LineEnd(data, pos, 1024);
    (LineStep(data[pos..e], watch, parse), e)
  }

  /**
   * `_read_ascii_line(f, watchwords)`: reads one line of at most 1024 bytes,
   * then checks the keywords one by one before converting the rest.
   */
  method ReadAsciiLine(f: Stream, watch: string, parse: string -> Option<real>) returns (r: LineResult)
    requires f.Valid()
    modifies f
    ensures f.Valid()
    ensures (r, f.pos) == AsciiLine(f.data, old(f.pos), watch, parse)
  {
    var line := f.ReadLine(1024);
    if !IsAscii(line) {
      return Raised;
    }
    if line == "" {
      return EndOfFile;
    }
    var words := Words(Lower(line));
    if words == [] {
      return Raised;
    }
    if words[0] == "endsolid" {
      return EndOfFile;
    }
    var keys := Words(Lower(watch));
    var i := 0;
    while i < |keys|
      invariant 0 <= i <= |keys| && i <= |words|
      invariant forall j :: 0 <= j < i ==> words[j] == keys[j]
    {
      if i == |words| {
        assert CheckKeys(words, keys) == OutOfWords;
        return Raised;
      }
      if words[i] != keys[i] {
        assert CheckKeys(words, keys) == Mismatch;
        return Malformed;
      }
      i := i + 1;
    }
    assert CheckKeys(words, keys) == KeysMatch;
    var values := ParseAll(words[|keys|..], parse);
    if values.None? {
      return Raised;
    }
    r := Values(values.value);
  }

  // ---------------------------------------------------------------------
  // _read_ascii_facet

  /** One pass of the retry loop: the seven lines read, or the result of the line that stopped it. */
  datatype Attempt = Stopped(why: LineResult) | Complete(v0: seq<real>, v1: seq<real>, v2: seq<real>)

  /** Where the normal, the vertex and the closing lines of a facet fit into one pass. */
  function Keyword(k: nat): string {
    if k == 0 then "facet normal"
    else if k == 1 then "outer loop"
    else if k <= 4 then "vertex"
    else if k == 5 then "endloop"
    else "endfacet"
  }

  /** How many vertex lines come before line k of a pass. */
  function VerticesBefore(k: nat): nat {
    if k <= 2 then 0 else if k <= 5 then k - 2 else 3
  }

  /**
   * The body of the `try` in `_read_ascii_facet` from line k on: each line is
   * read with the keywords of its place in a facet, the numbers of the three
   * vertex lines are kept, and the pass stops at the first line that is not
   * Values.
   */
  function Pass(data: string, pos: nat, k: nat, got: seq<seq<real>>, parse: string -> Option<real>): (r: (Attempt, nat))
    requires pos <= |data| && k <= 7 && |got| == VerticesBefore(k)
    ensures pos <= r.1 <= |data|
    ensures r.0.Stopped? ==> !r.0.why.Values?
    ensures r.0 != Stopped(EndOfFile) && k < 7 ==> r.1 > pos
    decreases 7 - k
  {
    if k == 7 then (Complete(got[0], got[1], got[2]), pos)
    else
      var (line, p) := AsciiLine(data, pos, Keyword(k), parse);
      if !line.Values? then (Stopped(line), p)
      else Pass(data, p, k + 1, if 2 <= k <= 4 then got + [line.values] else got, parse)
  }

  /** One pass of the retry loop, from the "facet normal" line to the "endfacet" line. */
  function TryFacet(data: string, pos: nat, parse: string -> Option<real>): (r: (Attempt, nat))
    requires pos <= |data|
    ensures pos <= r.1 <= |data|
    ensures r.0.Stopped? ==> !r.0.why.Values?
    ensures r.0 != Stopped(EndOfFile) ==> r.1 > pos
  {
    Pass(data, pos, 0, [], parse)
  }

  predicate Degenerate(v0: seq<real>, v1: seq<real>, v2: seq<real>) {
    v0 == v1 || v1 == v2 || v2 == v0
  }

  /** What `_read_ascii_facet` returns: a triangle, None at the end of the file, or an uncaught exception. */
  datatype FacetResult = Facet(t: Triangle) | NoFacet | Failed

  /**
   * The reference definition of `_read_ascii_facet`: passes are retried after
   * a malformed line or a zero-area facet, until a facet, the end of the
   * file or an uncaught exception.
   */
  function NextFacet(data: string, pos: nat, parse: string -> Option<real>): (r: (FacetResult, nat))
    requires pos <= |data|
    ensures pos <= r.1 <= |data|
    ensures r.0.Facet? ==> r.1 > pos
    decreases |data| - pos
  {
    var (t, p) := TryFacet(data, pos, parse);
    match t
    case Stopped(why) =>
      if why == EndOfFile then (NoFacet, p)
      else if why == Malformed then NextFacet(data, p, parse)
      else (Failed, p)
    case Complete(v0, v1, v2) =>
      if Degenerate(v0, v1, v2) then NextFacet(data, p, parse)
      else (Facet(Triangle(v0, v1, v2)), p)
  }

  /** `_read_ascii_facet(f)`: the `while True` retry loop around the seven reads. */
  method ReadAsciiFacet(f: Stream, parse: string -> Option<real>) returns (r: FacetResult)
    requires f.Valid()
    modifies f
    ensures f.Valid()
    ensures (r, f.pos) == NextFacet(f.data, old(f.pos), parse)
  {
    while true
      invariant f.Valid()
      invariant NextFacet(f.data, f.pos, parse) == NextFacet(f.data, old(f.pos), parse)
      decreases |f.data| - f.pos
    {
      var start := f.pos;
      var a := ReadFacetLines(f, parse);
      assert (a, f.pos) == TryFacet(f.data, start, parse);
      if a.Stopped? {
        if a.why == EndOfFile {
          return NoFacet;
        } else if a.why == Malformed {
          continue;
        } else {
          return Failed;
        }
      }
      if Degenerate(a.v0, a.v1, a.v2) {
        continue;
      }
      return Facet(Triangle(a.v0, a.v1, a.v2));
    }
  }

  /**
   * The seven `_read_ascii_line` calls of one pass, in order, leaving at the
   * first that does not return numbers; the vertex numbers are kept.
   */
  method ReadFacetLines(f: Stream, parse: string -> Option<real>) returns (a: Attempt)
    requires f.Valid()
    modifies f
    ensures f.Valid()
    ensures (a, f.pos) == TryFacet(f.data, old(f.pos), parse)
  {
    a := ReadPassFrom(f, 0, [], parse);
  }

  /**
   * The calls of a pass from the k-th on (the k-th with the k-th watchword),
   * got holding the vertex numbers read before it.
   */
  method ReadPassFrom(f: Stream, k: nat, got: seq<seq<real>>, parse: string -> Option<real>) returns (a: Attempt)
    requires f.Valid() && k <= 7 && |got| == VerticesBefore(k)
    modifies f
    ensures f.Valid()
    ensures (a, f.pos) == Pass(f.data, old(f.pos), k, got, parse)
    decreases 7 - k
  {
    if k == 7 {
      return Complete(got[0], got[1], got[2]);
    }
    var line := ReadAsciiLine(f, Keyword(k), parse);
    if !line.Values? {
      return Stopped(line);
    }
    a := ReadPassFrom(f, k + 1, if 2 <= k <= 4 then got + [line.values] else got, parse);
  }

  /** One line of a pass that returns numbers moves the pass on to the next line. */
  lemma PassStep(data: string, pos: nat, k: nat, got: seq<seq<real>>, parse: string -> Option<real>)
    requires pos <= |data| && k < 7 && |got| == VerticesBefore(k)
    requires AsciiLine(data, pos, Keyword(k), parse).0.Values?
    ensures Pass(data, pos, k, got, parse) == Pass(data, AsciiLine(data, pos, Keyword(k), parse).1, k + 1,
      if 2 <= k <= 4 then got + [AsciiLine(data, pos, Keyword(k), parse).0.values] else got, parse)
  {
  }

  // ---------------------------------------------------------------------
  // _read_binary_facet

  /** `struct.unpack('<I', chunk)`: four bytes as an unsigned little-endian number. */
  function Le32Value(b: string): (n: nat)
    requires |b| == 4
    requires forall i :: 0 <= i < 4 ==> b[i] as int < 256
    ensures n < 0x1_0000_0000
  {
    b[0] as int + 0x100 * b[1] as int + 0x1_0000 * b[2] as int + 0x100_0000 * b[3] as int
  }

  /** The bytes of the file are characters below 256. */
  predicate IsBytes(data: string) {
    forall i :: 0 <= i < |data| ==> data[i] as int < 256
  }

  /**
   * `_read_binary_facet` on one 50-byte record: the normal (bytes 0-11) and
   * the attribute count (bytes 48-49) are dropped, the three vertices are the
   * single floats at bytes 12-23, 24-35 and 36-47; `unpack` stands for the
   * little-endian float decoding.
   */
  function BinaryTriangle(rec: string, unpack: string -> real): (t: Triangle)
    requires |rec| == 50
    ensures |t.v0| == |t.v1| == |t.v2| == 3
  {
    Triangle(
      [unpack(rec[12..16]), unpack(rec[16..20]), unpack(rec[20..24])],
      [unpack(rec[24..28]), unpack(rec[28..32]), unpack(rec[32..36])],
      [unpack(rec[36..40]), unpack(rec[40..44]), unpack(rec[44..48])])
  }

  /**
   * The reference definition of the binary loop: count records of 50 bytes
   * from pos, None when the file ends inside one (struct.error).
   */
  function BinaryFacets(data: string, pos: nat, count: nat, unpack: string -> real): (r: Option<seq<Triangle>>)
    requires pos <= |data|
    ensures r.Some? <==> pos + 50 * count <= |data|
    ensures r.Some? ==> |r.value| == count
    decreases count
  {
    if count == 0 then Some([])
    else if |data| - pos < 50 then None
    else
      Prepend([BinaryTriangle(data[pos..pos + 50], unpack)], BinaryFacets(data, pos + 50, count - 1, unpack))
  }

  /** The triangles read so far in front of those still to come, unless reading fails. */
  function Prepend(front: seq<Triangle>, o: Option<seq<Triangle>>): (r: Option<seq<Triangle>>)
    ensures r.Some? <==> o.Some?
    ensures r.Some? ==> |r.value| == |front| + |o.value|
  {
    match o
    case None => None
    case Some(rest) => Some(front + rest)
  }

  lemma PrependNothing(o: Option<seq<Triangle>>)
    ensures Prepend([], o) == o
  {
    if o.Some? {
      assert [] + o.value == o.value;
    }
  }

  lemma PrependOne(front: seq<Triangle>, t: Triangle, o: Option<seq<Triangle>>)
    ensures Prepend(front, Prepend([t], o)) == Prepend(front + [t], o)
  {
    if o.Some? {
      assert front + ([t] + o.value) == front + [t] + o.value;
    }
  }

  // ---------------------------------------------------------------------
  // read_polys_from_stl_file

  /** The reference definition of the ASCII loop: facets until None, or the exception that ends it. */
  function AsciiFacets(data: string, pos: nat, parse: string -> Option<real>): (r: Option<seq<Triangle>>)
    requires pos <= |data|
    decreases |data| - pos
  {
    match NextFacet(data, pos, parse).0
    case NoFacet => Some([])
    case Failed => None
    case Facet(t) => Prepend([t], AsciiFacets(data, NextFacet(data, pos, parse).1, parse))
  }

  /** `bytes.lstrip()`: the line without its leading ASCII whitespace. */
  function LStrip(s: string): (r: string)
    ensures |r| <= |s| && r == s[|s| - |r|..]
    ensures r == [] || !IsByteSpace(r[0])
    ensures forall i :: 0 <= i < |s| - |r| ==> IsByteSpace(s[i])
  {
    if s != [] && IsByteSpace(s[0]) then LStrip(s[1..]) else s
  }

  /** How reading a file ends: a list of triangles, None (the bare `return`), or an exception. */
  datatype Outcome = Polygons(tris: seq<Triangle>) | ReturnedNone | Crashed

  function FromOption(o: Option<seq<Triangle>>): Outcome {
    match o
    case Some(tris) => Polygons(tris)
    case None => Crashed
  }

  /** Where the first line, read with `readline(80)`, ends. */
  function FirstLineEnd(data: string): nat {
    LineEnd(data, 0, 80)
  }

  /** `line.lstrip()[0:6].lower() == b"solid "`: the test that picks the ASCII reader. */
  predicate LooksAscii(line: string) {
    var t := LStrip(line);
    Lower(t[..if |t| < 6 then |t| else 6]) == "solid "
  }

  /**
   * `read_polys_from_stl_file` as written. The `line == ""` test compares
   * bytes with a string and is never true, so it has no branch here: an
   * empty file goes on to the binary reader and fails on the count.
   */
  function ReadStl(data: string, parse: string -> Option<real>, unpack: string -> real): Outcome
    requires IsBytes(data)
  {
    var e := FirstLineEnd(data);
    if LooksAscii(data[..e]) then FromOption(AsciiFacets(data, e, parse))
    else if |data| - e < 4 then Crashed
    else FromOption(BinaryFacets(data, e + 4, Le32Value(data[e..e + 4]), unpack))
  }

  /** The same with the end-of-file test meant by `line == ""`: an empty file gives None. */
  function ReadStlCorrected(data: string, parse: string -> Option<real>, unpack: string -> real): Outcome
    requires IsBytes(data)
  {
    if data[..FirstLineEnd(data)] == [] then ReturnedNone
    else ReadStl(data, parse, unpack)
  }

  /** As written, an empty file raises (struct.error on the missing count) instead of returning None. */
  lemma EmptyFileCrashesAsWritten(parse: string -> Option<real>, unpack: string -> real)
    ensures ReadStl([], parse, unpack) == Crashed
  {
    assert !LooksAscii([]);
  }

  /** Corrected, only the empty file returns None; every other file is read as before. */
  lemma ReadStlCorrectedAgrees(data: string, parse: string -> Option<real>, unpack: string -> real)
    requires IsBytes(data)
    ensures ReadStlCorrected(data, parse, unpack) == ReturnedNone <==> data == []
    ensures data != [] ==> ReadStlCorrected(data, parse, unpack) == ReadStl(data, parse, unpack)
  {
    if data != [] {
      assert FirstLineEnd(data) > 0;
      assert data[..FirstLineEnd(data)] != [];
    }
  }

  /**
   * `read_polys_from_stl_file(filename)` on the file's bytes: the first line
   * decides the format, then the ASCII loop calls `_read_ascii_facet` until
   * it returns None, or the binary loop reads the count and that many records.
   */
  method ReadPolysFromStlFile(data: string, parse: string -> Option<real>, unpack: string -> real)
    returns (r: Outcome)
    requires IsBytes(data)
    ensures r == ReadStl(data, parse, unpack)
  {
    var f := new Stream(data);
    var line := f.ReadLine(80);
    var e := f.pos;
    assert e == FirstLineEnd(data) && line == data[..e];
    if LooksAscii(line) {
      assert ReadStl(data, parse, unpack) == FromOption(AsciiFacets(data, e, parse));
      r := ReadAsciiPolygons(f, parse);
    } else {
      var chunk := f.Read(4);
      if |chunk| < 4 {
        assert |data| - e < 4;
        return Crashed;
      }
      assert f.pos == e + 4 && chunk == data[e..e + 4];
      assert forall i :: 0 <= i < 4 ==> chunk[i] as int < 256 by {
        assert forall i :: 0 <= i < 4 ==> chunk[i] == data[e + i];
      }
      var count := Le32Value(chunk);
      assert ReadStl(data, parse, unpack) == FromOption(BinaryFacets(data, e + 4, count, unpack));
      r := ReadBinaryPolygons(f, count, unpack);
    }
  }

  /** The ASCII loop of `read_polys_from_stl_file`: append facets until `_read_ascii_facet` returns None. */
  method ReadAsciiPolygons(f: Stream, parse: string -> Option<real>) returns (r: Outcome)
    requires f.Valid()
    modifies f
    ensures r == FromOption(AsciiFacets(f.data, old(f.pos), parse))
  {
    var polygons: seq<Triangle> := [];
    PrependNothing(AsciiFacets(f.data, f.pos, parse));
    while true
      invariant f.Valid() && old(f.pos) <= f.pos
      invariant AsciiFacets(f.data, old(f.pos), parse) == Prepend(polygons, AsciiFacets(f.data, f.pos, parse))
      decreases |f.data| - f.pos
    {
      ghost var before := f.pos;
      var poly := ReadAsciiFacet(f, parse);
      if poly.Failed? {
        return Crashed;
      }
      if poly.NoFacet? {
        break;
      }
      PrependOne(polygons, poly.t, AsciiFacets(f.data, f.pos, parse));
      polygons := polygons + [poly.t];
    }
    assert polygons + [] == polygons;
    r := Polygons(polygons);
  }

  /** The binary loop of `read_polys_from_stl_file`: count records of 50 bytes, appended in order. */
  method ReadBinaryPolygons(f: Stream, count: nat, unpack: string -> real) returns (r: Outcome)
    requires f.Valid()
    modifies f
    ensures r == FromOption(BinaryFacets(f.data, old(f.pos), count, unpack))
  {
    var polygons: seq<Triangle> := [];
    PrependNothing(BinaryFacets(f.data, f.pos, count, unpack));
    for n := 0 to count
      invariant f.Valid()
      invariant BinaryFacets(f.data, old(f.pos), count, unpack) == Prepend(polygons, BinaryFacets(f.data, f.pos, count - n, unpack))
    {
      ghost var before := f.pos;
      var rec := f.Read(50);
      if |rec| < 50 {
        assert BinaryFacets(f.data, before, count - n, unpack) == None;
        return Crashed;
      }
      PrependOne(polygons, BinaryTriangle(rec, unpack), BinaryFacets(f.data, f.pos, count - n - 1, unpack));
      polygons := polygons + [BinaryTriangle(rec, unpack)];
    }
    assert polygons + [] == polygons;
    r := Polygons(polygons);
  }

  // ---------------------------------------------------------------------
  // What the reader promises

  /** A line ends the file exactly when it is empty or its first word is "endsolid", in any case. */
  lemma LineStepEndOfFile(line: string, watch: string, parse: string -> Option<real>)
    requires IsAscii(line)
    ensures LineStep(line, watch, parse) == EndOfFile <==>
      line == "" || (Words(Lower(line)) != [] && Words(Lower(line))[0] == "endsolid")
  {
  }

  /** A nonempty line of whitespace only hits `words[0]` on an empty list. */
  lemma LineStepBlank(line: string, watch: string, parse: string -> Option<real>)
    requires IsAscii(line) && line != ""
    requires forall i :: 0 <= i < |line| ==> IsSpace(line[i])
    ensures LineStep(line, watch, parse) == Raised
  {
    assert line == line + [];
    WordsBlank(Lower(line), []);
    assert Lower(line) + [] == Lower(line);
  }

  /**
   * A line gives numbers exactly when it starts with the watch words (in any
   * case), is not an "endsolid" line, and every other word is a number; the
   * numbers are those words, parsed, in order.
   */
  lemma LineStepValues(line: string, watch: string, parse: string -> Option<real>, vs: seq<real>)
    requires IsAscii(line)
    ensures LineStep(line, watch, parse) == Values(vs) <==> WordsGive(Words(Lower(line)), Words(Lower(watch)), vs, parse)
  {
    var words := Words(Lower(line));
    var keys := Words(Lower(watch));
    if words != [] && words[0] != "endsolid" && |keys| <= |words| && words[..|keys|] == keys {
      assert CheckKeys(words, keys) == KeysMatch by {
        forall i | 0 <= i < |keys| && i < |words|
          ensures words[i] == keys[i]
        {
          assert words[..|keys|][i] == words[i];
        }
      }
      var rest := words[|keys|..];
      assert LineStep(line, watch, parse) == Values(vs) <==> ParseAll(rest, parse) == Some(vs) by {
        LineStepKeysMatch(line, watch, parse);
      }
      assert (|vs| == |words| - |keys| && forall k :: |keys| <= k < |words| ==> parse(words[k]) == Some(vs[k - |keys|]))
          <==> (|vs| == |rest| && forall k :: 0 <= k < |rest| ==> parse(rest[k]) == Some(vs[k])) by {
        assert forall k :: |keys| <= k < |words| ==> words[k] == rest[k - |keys|];
      }
      ParseAllIs(rest, parse, vs);
    } else {
      LineStepNoKeys(line, watch, parse);
    }
  }

  /**
   * Words that start with the keys, are not an "endsolid" line, and whose
   * other words parse, in order, to the numbers vs.
   */
  ghost predicate WordsGive(words: seq<string>, keys: seq<string>, vs: seq<real>, parse: string -> Option<real>) {
    words != [] && words[0] != "endsolid" && |keys| <= |words| && words[..|keys|] == keys &&
    |vs| == |words| - |keys| &&
    forall k :: |keys| <= k < |words| ==> parse(words[k]) == Some(vs[k - |keys|])
  }

  /** Past the watch words, a line gives its other words parsed, or raises. */
  lemma LineStepKeysMatch(line: string, watch: string, parse: string -> Option<real>)
    requires IsAscii(line)
    requires var words := Words(Lower(line));
      words != [] && words[0] != "endsolid" && CheckKeys(words, Words(Lower(watch))) == KeysMatch
    ensures var rest := Words(Lower(line))[|Words(Lower(watch))|..];
      LineStep(line, watch, parse) == if ParseAll(rest, parse).Some? then Values(ParseAll(rest, parse).value) else Raised
  {
  }

  /** A line that does not start with the watch words, or ends the solid, gives no numbers. */
  lemma LineStepNoKeys(line: string, watch: string, parse: string -> Option<real>)
    requires IsAscii(line)
    requires var words, keys := Words(Lower(line)), Words(Lower(watch));
      !(words != [] && words[0] != "endsolid" && |keys| <= |words| && words[..|keys|] == keys)
    ensures !LineStep(line, watch, parse).Values?
  {
  }

  /** `ParseAll` gives vs exactly when each word parses to the number of vs at its place. */
  lemma ParseAllIs(words: seq<string>, parse: string -> Option<real>, vs: seq<real>)
    ensures ParseAll(words, parse) == Some(vs) <==>
      |vs| == |words| && forall k :: 0 <= k < |words| ==> parse(words[k]) == Some(vs[k])
  {
    if |vs| == |words| && forall k :: 0 <= k < |words| ==> parse(words[k]) == Some(vs[k]) {
      assert ParseAll(words, parse).value == vs;
    }
  }

  /** A line whose words differ from the watch words at a place both have is malformed. */
  lemma LineStepMalformed(line: string, watch: string, parse: string -> Option<real>, i: nat)
    requires IsAscii(line)
    requires Words(Lower(line)) != [] && Words(Lower(line))[0] != "endsolid"
    requires i < |Words(Lower(line))| && i < |Words(Lower(watch))|
    requires Words(Lower(line))[i] != Words(Lower(watch))[i]
    ensures LineStep(line, watch, parse) == Malformed
  {
  }

  /**
   * Every facet `_read_ascii_facet` returns has three different vertices and
   * comes from a complete pass of seven lines that starts at or after pos.
   */
  lemma {:induction false} NextFacetFound(data: string, pos: nat, parse: string -> Option<real>)
    requires pos <= |data|
    ensures NextFacet(data, pos, parse).0.Facet? ==>
      var t := NextFacet(data, pos, parse).0.t;
      !Degenerate(t.v0, t.v1, t.v2) &&
      exists q :: pos <= q <= |data| && TryFacet(data, q, parse) == (Complete(t.v0, t.v1, t.v2), NextFacet(data, pos, parse).1)
    decreases |data| - pos
  {
    var (a, p) := TryFacet(data, pos, parse);
    if a == Stopped(Malformed) || (a.Complete? && Degenerate(a.v0, a.v1, a.v2)) {
      NextFacetFound(data, p, parse);
    }
  }

  /** A malformed line or a zero-area facet is skipped: reading goes on after the pass. */
  lemma NextFacetSkips(data: string, pos: nat, parse: string -> Option<real>)
    requires pos <= |data|
    requires var a := TryFacet(data, pos, parse).0;
      a == Stopped(Malformed) || (a.Complete? && Degenerate(a.v0, a.v1, a.v2))
    ensures NextFacet(data, pos, parse) == NextFacet(data, TryFacet(data, pos, parse).1, parse)
  {
  }

  /** At the end of the file, and at an "endsolid" line, there is no facet. */
  lemma NextFacetAtEnd(data: string, pos: nat, parse: string -> Option<real>)
    requires pos <= |data|
    requires AsciiLine(data, pos, Keyword(0), parse).0 == EndOfFile
    ensures NextFacet(data, pos, parse).0 == NoFacet
  {
  }

  /** Every triangle of an ASCII file has three different vertices. */
  lemma {:induction false} AsciiFacetsNondegenerate(data: string, pos: nat, parse: string -> Option<real>)
    requires pos <= |data|
    ensures AsciiFacets(data, pos, parse).Some? ==>
      forall t :: t in AsciiFacets(data, pos, parse).value ==> !Degenerate(t.v0, t.v1, t.v2)
    decreases |data| - pos
  {
    var (r, p) := NextFacet(data, pos, parse);
    if r.Facet? {
      NextFacetFound(data, pos, parse);
      AsciiFacetsNondegenerate(data, p, parse);
    }
  }

  /** A binary file of count records gives count triangles of three numbers per vertex. */
  lemma {:induction false} BinaryFacetsShape(data: string, pos: nat, count: nat, unpack: string -> real)
    requires pos <= |data|
    ensures BinaryFacets(data, pos, count, unpack).Some? ==>
      forall t :: t in BinaryFacets(data, pos, count, unpack).value ==> |t.v0| == |t.v1| == |t.v2| == 3
    decreases count
  {
    if count > 0 && |data| - pos >= 50 {
      BinaryFacetsShape(data, pos + 50, count - 1, unpack);
    }
  }

  /** A file that starts with "solid " in any case is read as ASCII, whatever follows on its first line. */
  lemma SolidPrefixIsAscii(data: string)
    requires |data| >= 6 && Lower(data[..6]) == "solid "
    ensures LooksAscii(data[..FirstLineEnd(data)])
  {
    var head := data[..6];
    SolidCharacters(head);
    FirstLineAtLeast(data, head);
    var line := data[..FirstLineEnd(data)];
    assert line[..6] == head;
    LooksAsciiOf(line, head);
  }

  /** With no newline among the first six bytes, the first line is at least six bytes long. */
  lemma FirstLineAtLeast(data: string, head: string)
    requires |data| >= 6 && head == data[..6]
    requires forall i :: 0 <= i < |head| ==> head[i] != '\n'
    ensures FirstLineEnd(data) >= 6
  {
  }

  /** A line whose first six characters lower-case to "solid " and do not start blank passes the test. */
  lemma LooksAsciiOf(line: string, head: string)
    requires |line| >= 6 && line[..6] == head && Lower(head) == "solid "
    requires !IsByteSpace(head[0])
    ensures LooksAscii(line)
  {
    assert line[0] == head[0];
    assert LStrip(line) == line;
  }

  /** The six characters that lower-case to "solid " hold no newline and do not start with a blank. */
  lemma SolidCharacters(head: string)
    requires Lower(head) == "solid "
    ensures forall i :: 0 <= i < |head| ==> head[i] != '\n'
    ensures !IsByteSpace(head[0])
  {
    forall i | 0 <= i < |head|
      ensures head[i] != '\n'
    {
      assert LowerChar(head[i]) == "solid "[i];
    }
    assert LowerChar(head[0]) == 's';
  }
}
