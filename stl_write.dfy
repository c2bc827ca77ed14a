/**
 * The writer half of petrify/stl.py: `save_polys_to_stl_file` cuts every
 * polygon into a fan of triangles and writes them either as a binary file
 * (80-byte header, 32-bit count, 50-byte records) or as ASCII text framed by
 * "solid Model" and "endsolid Model"; `STL.write` of petrify/formats/stl.py
 * first asserts that the solid carries a length unit.
 */
module StlWrite {
  import opened Wrappers
  import opened StlText

  /** A vertex position. */
  datatype Position = Position(x: real, y: real, z: real)

  /** A triangle `Polygon([v0, v1, v2])` built by the writer. */
  datatype Tri = Tri(a: Position, b: Position, c: Position)

  // ---------------------------------------------------------------------
  // The fan

  /**
   * The triangles of one polygon, defined one vertex at a time: a polygon
   * of fewer than three vertices has none, and every further vertex adds
   * the triangle of the first vertex, the one before it, and itself.
   */
  function Fan(vs: seq<Position>): seq<Tri>
    decreases |vs|
  {
    if |vs| < 3 then []
    else Fan(vs[..|vs| - 1]) + [Tri(vs[0], vs[|vs| - 2], vs[|vs| - 1])]
  }

  /** A polygon of n vertices gives n - 2 triangles (v0, vk, vk+1), k = 1 .. n - 2. */
  lemma {:induction false} FanShape(vs: seq<Position>)
    ensures |Fan(vs)| == if |vs| < 3 then 0 else |vs| - 2
    ensures forall k :: 0 <= k < |Fan(vs)| ==> Fan(vs)[k] == Tri(vs[0], vs[k + 1], vs[k + 2])
    decreases |vs|
  {
    if |vs| >= 3 {
      var init := vs[..|vs| - 1];
      FanShape(init);
      forall k | 0 <= k < |Fan(vs)|
        ensures Fan(vs)[k] == Tri(vs[0], vs[k + 1], vs[k + 2])
      {
        if k < |Fan(init)| {
          assert Fan(vs)[k] == Fan(init)[k];
        }
      }
    }
  }

  /** Every corner of every fan triangle is a vertex of the polygon, and the first vertex is in all of them. */
  lemma FanCorners(vs: seq<Position>, t: Tri)
    requires t in Fan(vs)
    ensures t.a == vs[0] && t.b in vs && t.c in vs
  {
    FanShape(vs);
    var k :| 0 <= k < |Fan(vs)| && Fan(vs)[k] == t;
  }

  /** The triangles of all the polygons, polygon after polygon. */
  function Fans(polys: seq<seq<Position>>): seq<Tri>
    decreases |polys|
  {
    if polys == [] then [] else Fans(polys[..|polys| - 1]) + Fan(polys[|polys| - 1])
  }

  /** The sum over the polygons of max(n - 2, 0). */
  function FanCount(polys: seq<seq<Position>>): nat
    decreases |polys|
  {
    if polys == [] then 0
    else FanCount(polys[..|polys| - 1]) + (if |polys[|polys| - 1]| < 3 then 0 else |polys[|polys| - 1]| - 2)
  }

  lemma {:induction false} FansCount(polys: seq<seq<Position>>)
    ensures |Fans(polys)| == FanCount(polys)
    decreases |polys|
  {
    if polys != [] {
      FansCount(polys[..|polys| - 1]);
      FanShape(polys[|polys| - 1]);
    }
  }

  /** The first loop of `save_polys_to_stl_file`: the fan of every polygon, appended in order. */
  method Triangulate(polys: seq<seq<Position>>) returns (tris: seq<Tri>)
    ensures tris == Fans(polys)
  {
    tris := [];
    for i := 0 to |polys|
      invariant tris == Fans(polys[..i])
    {
      tris := AppendFan(tris, polys[i]);
      assert polys[..i + 1][..i] == polys[..i];
    }
    assert polys[..|polys|] == polys;
  }

  /**
   * The inner loop: for n in range(1, len - 1) the triangle of vertices 0,
   * n % len and (n + 1) % len, where the remainders never wrap.
   */
  method AppendFan(tris: seq<Tri>, vs: seq<Position>) returns (r: seq<Tri>)
    ensures r == tris + Fan(vs)
  {
    FanShape(vs);
    r := tris;
    var vlen := |vs|;
    var n := 1;
    while n < vlen - 1
      invariant 1 <= n && (vlen >= 2 ==> n <= vlen - 1) && n - 1 <= |Fan(vs)|
      invariant r == tris + Fan(vs)[..n - 1]
    {
      NoWrap(n, vlen);
      NoWrap(n + 1, vlen);
      r := r + [Tri(vs[0], vs[n % vlen], vs[(n + 1) % vlen])];
      assert Fan(vs)[n - 1] == Tri(vs[0], vs[n], vs[n + 1]);
      assert Fan(vs)[..n] == Fan(vs)[..n - 1] + [Fan(vs)[n - 1]];
      n := n + 1;
    }
    assert Fan(vs)[..n - 1] == Fan(vs);
  }

  /** An index below the length is its own remainder. */
  lemma NoWrap(n: int, len: int)
    requires 0 <= n < len
    ensures n % len == n
  {
  }

  // ---------------------------------------------------------------------
  // Writing facets

  /** The file contents that writing every triangle with `write`, in order, produces. */
  function Written(tris: seq<Tri>, write: Tri -> string): string
    decreases |tris|
  {
    if tris == [] then [] else write(tris[0]) + Written(tris[1..], write)
  }

  /** The loop `for tri in tris: _stl_write_facet(tri, f, binary)`, appending to what is already written. */
  method WriteAll(start: string, tris: seq<Tri>, write: Tri -> string) returns (out: string)
    ensures out == start + Written(tris, write)
  {
    out := start;
    for i := 0 to |tris|
      invariant start + Written(tris, write) == out + Written(tris[i..], write)
    {
      assert tris[i..][1..] == tris[i + 1..];
      out := out + write(tris[i]);
    }
    assert tris[|tris|..] == [];
    assert out + [] == out;
  }

  // ---------------------------------------------------------------------
  // The binary format

  /** `b'%-80s' % s`: s padded on the right with spaces to the width, never cut. */
  function LeftJustify(s: string, width: nat): (r: string)
    ensures |r| == if |s| < width then width else |s|
    ensures r[..|s|] == s
    ensures forall i :: |s| <= i < |r| ==> r[i] == ' '
  {
    if |s| < width then s + seq(width - |s|, _ => ' ') else s
  }

  /** The 80-byte header of a binary file. */
  const Header: string := LeftJustify("Binary STL Model", 80)

  /** `struct.pack('<I', n)`: four bytes, least significant first; struct.error when n does not fit. */
  function Le32(n: nat): (r: Option<string>)
    ensures r.Some? <==> n < 0x1_0000_0000
    ensures r.Some? ==> |r.value| == 4 && forall i :: 0 <= i < 4 ==> r.value[i] as int < 256
  {
    if n < 0x1_0000_0000 then
      Some([(n % 0x100) as char, (n / 0x100 % 0x100) as char, (n / 0x1_0000 % 0x100) as char, (n / 0x100_0000) as char])
    else None
  }

  /** Four bytes, as `struct.pack('<f')` packs a single float. */
  type Bytes4 = s: string | |s| == 4 && forall i :: 0 <= i < |s| ==> s[i] as int < 256
    witness [0 as char, 0 as char, 0 as char, 0 as char]

  /** The packed floats one after the other. */
  function PackAll(xs: seq<real>, pack: real -> Bytes4): (r: string)
    ensures |r| == 4 * |xs|
    decreases |xs|
  {
    if xs == [] then [] else pack(xs[0]) + PackAll(xs[1..], pack)
  }

  /** The twelve numbers of a record: the normal, then the three vertices. */
  function RecordNumbers(n: Position, t: Tri): (r: seq<real>)
    ensures |r| == 12
  {
    [n.x, n.y, n.z, t.a.x, t.a.y, t.a.z, t.b.x, t.b.y, t.b.z, t.c.x, t.c.y, t.c.z]
  }

  /**
   * `_stl_write_facet(poly, f, binary=True)`: `'<3f 3f 3f 3f H'` packs the
   * normal and the vertices as single floats and an attribute count of 0.
   * The normal is the plane normal the polygon computes, given as `normal`.
   */
  function Record(t: Tri, normal: Tri -> Position, pack: real -> Bytes4): (r: string)
    ensures |r| == 50
  {
    PackAll(RecordNumbers(normal(t), t), pack) + [0 as char, 0 as char]
  }

  /** What each triangle adds to a binary file. */
  function RecordWriter(normal: Tri -> Position, pack: real -> Bytes4): Tri -> string {
    t => Record(t, normal, pack)
  }

  /** The records of the triangles, one after the other. */
  function Records(tris: seq<Tri>, normal: Tri -> Position, pack: real -> Bytes4): string {
    Written(tris, RecordWriter(normal, pack))
  }

  lemma {:induction false} RecordsLength(tris: seq<Tri>, normal: Tri -> Position, pack: real -> Bytes4)
    ensures |Records(tris, normal, pack)| == 50 * |tris|
    decreases |tris|
  {
    if tris != [] {
      RecordsLength(tris[1..], normal, pack);
    }
  }

  /** A binary file: the header, the count of triangles, the records; struct.error past 2^32 - 1 triangles. */
  function BinaryFile(tris: seq<Tri>, normal: Tri -> Position, pack: real -> Bytes4): (r: Option<string>)
  {
    match Le32(|tris|)
    case None => None
    case Some(count) => Some(Header + count + Records(tris, normal, pack))
  }

  // ---------------------------------------------------------------------
  // The ASCII format

  /** `_float_fmt(x) for x in xs`, with `round6` giving the "%.6f" rounding of each number. */
  function Formatted(xs: seq<real>, round6: real -> Fixed): (r: seq<string>)
    ensures |r| == |xs|
    decreases |xs|
  {
    if xs == [] then [] else [FloatFmt(round6(xs[0]))] + Formatted(xs[1..], round6)
  }

  /** `" ".join(_float_fmt(x) for x in p)`. */
  function Coords(p: Position, round6: real -> Fixed): string {
    Join(Formatted([p.x, p.y, p.z], round6))
  }

  /** A template line with numbers: "<indent><keyword> <numbers>\n". */
  function NumbersLine(indent: string, keyword: string, c: string): string {
    indent + keyword + " " + c + "\n"
  }

  /** A template line without numbers: "<indent><keyword>\n". */
  function KeysLine(indent: string, keyword: string): string {
    indent + keyword + "\n"
  }

  /** `_stl_write_facet(poly, f, binary=False)`: the seven-line facet template. */
  function FacetText(t: Tri, normal: Tri -> Position, round6: real -> Fixed): string {
    NumbersLine("  ", "facet normal", Coords(normal(t), round6)) +
    KeysLine("    ", "outer loop") +
    NumbersLine("      ", "vertex", Coords(t.a, round6)) +
    NumbersLine("      ", "vertex", Coords(t.b, round6)) +
    NumbersLine("      ", "vertex", Coords(t.c, round6)) +
    KeysLine("    ", "endloop") +
    KeysLine("  ", "endfacet")
  }

  /** What each triangle adds to an ASCII file. */
  function TextWriter(normal: Tri -> Position, round6: real -> Fixed): Tri -> string {
    t => FacetText(t, normal, round6)
  }

  /** The texts of the triangles, one after the other. */
  function FacetTexts(tris: seq<Tri>, normal: Tri -> Position, round6: real -> Fixed): string {
    Written(tris, TextWriter(normal, round6))
  }

  /** An ASCII file: the facets between "solid Model" and "endsolid Model". */
  function AsciiFile(tris: seq<Tri>, normal: Tri -> Position, round6: real -> Fixed): string {
    "solid Model\n" + FacetTexts(tris, normal, round6) + "endsolid Model\n"
  }

  // ---------------------------------------------------------------------
  // save_polys_to_stl_file and STL.write

  /** The bytes `save_polys_to_stl_file` writes, or None when packing the count fails. */
  function SaveStl(polys: seq<seq<Position>>, binary: bool, normal: Tri -> Position,
                   round6: real -> Fixed, pack: real -> Bytes4): Option<string>
  {
    var tris := Fans(polys);
    if binary then BinaryFile(tris, normal, pack) else Some(AsciiFile(tris, normal, round6))
  }

  /**
   * `save_polys_to_stl_file(polys, filename, binary)`: triangulate, then
   * write the framing and one facet after another to the file, whose
   * contents are returned.
   */
  method SavePolysToStlFile(polys: seq<seq<Position>>, binary: bool, normal: Tri -> Position,
                            round6: real -> Fixed, pack: real -> Bytes4) returns (file: Option<string>)
    ensures file == SaveStl(polys, binary, normal, round6, pack)
  {
    var tris := Triangulate(polys);
    if binary {
      var count := Le32(|tris|);
      if count.None? {
        return None;
      }
      var out := WriteAll(Header + count.value, tris, RecordWriter(normal, pack));
      file := Some(out);
    } else {
      var out := WriteAll("solid Model\n", tris, TextWriter(normal, round6));
      file := Some(out + "endsolid Model\n");
    }
  }

  /** What a solid's unit tag says: none at all, or a unit that is a length or not. */
  datatype UnitTag = Untagged | Tagged(isLength: bool)

  /**
   * `STL.write(solid)`: `units.assert_lengthy` refuses a solid without a
   * length unit (AssertionError, None here); otherwise the polygons, already
   * converted to file units, are saved in the binary format.
   */
  function StlWriteFile(tag: UnitTag, polys: seq<seq<Position>>, normal: Tri -> Position,
                        round6: real -> Fixed, pack: real -> Bytes4): (r: Option<string>)
    ensures tag != Tagged(true) ==> r == None
    ensures tag == Tagged(true) ==> r == BinaryFile(Fans(polys), normal, pack)
  {
    match tag
    case Untagged => None
    case Tagged(isLength) => if !isLength then None else SaveStl(polys, true, normal, round6, pack)
  }

  // ---------------------------------------------------------------------
  // Layout

  /** A binary file is 84 + 50 n bytes long for n triangles. */
  lemma BinaryFileSize(tris: seq<Tri>, normal: Tri -> Position, pack: real -> Bytes4)
    requires |tris| < 0x1_0000_0000
    ensures BinaryFile(tris, normal, pack).Some?
    ensures |BinaryFile(tris, normal, pack).value| == 84 + 50 * |tris|
  {
    RecordsLength(tris, normal, pack);
  }

  /** The count reads back: the four bytes of `struct.pack('<I', n)` decode to n. */
  lemma Le32RoundTrip(n: nat)
    requires n < 0x1_0000_0000
    ensures var b := Le32(n).value;
      b[0] as int + 0x100 * b[1] as int + 0x1_0000 * b[2] as int + 0x100_0000 * b[3] as int == n
  {
    var b := Le32(n).value;
    assert b[0] as int == n % 0x100;
    assert b[1] as int == n / 0x100 % 0x100;
    assert b[2] as int == n / 0x1_0000 % 0x100;
    assert b[3] as int == n / 0x100_0000;
  }

  /** The header is the title padded with spaces: 80 bytes with no newline. */
  lemma HeaderShape()
    ensures |Header| == 80
    ensures Header[..16] == "Binary STL Model"
    ensures forall i :: 0 <= i < 80 ==> Header[i] != '\n'
  {
    var h := Header;
    forall i | 0 <= i < 80
      ensures h[i] != '\n'
    {
      if i < 16 {
        assert h[i] == h[..16][i];
      }
    }
  }
}
