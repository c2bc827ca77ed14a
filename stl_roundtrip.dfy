/**
 * Reading back what the writer of petrify/stl.py writes: a binary file
 * gives back every triangle, its numbers through the single-float packing,
 * and an ASCII file gives back every triangle whose printed vertices differ,
 * its numbers as printed by `_float_fmt`.
 */
module StlRoundTrip {
  import opened Wrappers
  import opened StlText
  import opened Stl
  import opened StlWrite

  // ---------------------------------------------------------------------
  // Bytes

  lemma BytesConcat(a: string, b: string)
    requires IsBytes(a) && IsBytes(b)
    ensures IsBytes(a + b)
  {
    assert forall i :: 0 <= i < |a| ==> (a + b)[i] == a[i];
    assert forall i :: |a| <= i < |a + b| ==> (a + b)[i] == b[i - |a|];
  }

  lemma {:induction false} PackAllBytes(xs: seq<real>, pack: real -> Bytes4)
    ensures IsBytes(PackAll(xs, pack))
    decreases |xs|
  {
    if xs != [] {
      PackAllBytes(xs[1..], pack);
      BytesConcat(pack(xs[0]), PackAll(xs[1..], pack));
    }
  }

  lemma {:induction false} RecordsBytes(tris: seq<Tri>, normal: Tri -> Position, pack: real -> Bytes4)
    ensures IsBytes(Records(tris, normal, pack))
    decreases |tris|
  {
    if tris != [] {
      var t := tris[0];
      PackAllBytes(RecordNumbers(normal(t), t), pack);
      BytesConcat(PackAll(RecordNumbers(normal(t), t), pack), [0 as char, 0 as char]);
      RecordsBytes(tris[1..], normal, pack);
      BytesConcat(Record(t, normal, pack), Records(tris[1..], normal, pack));
    }
  }

  // ---------------------------------------------------------------------
  // Binary files

  /** The four bytes of number k sit at offset 4 k of the packed numbers. */
  lemma {:induction false} PackAllAt(xs: seq<real>, pack: real -> Bytes4, k: nat)
    requires k < |xs|
    ensures PackAll(xs, pack)[4 * k..4 * k + 4] == pack(xs[k])
    decreases k
  {
    var all := PackAll(xs, pack);
    assert all == pack(xs[0]) + PackAll(xs[1..], pack);
    if k == 0 {
      assert all[..4] == pack(xs[0]);
    } else {
      PackAllAt(xs[1..], pack, k - 1);
      assert all[4 * k..4 * k + 4] == PackAll(xs[1..], pack)[4 * (k - 1)..4 * (k - 1) + 4];
    }
  }

  /** A triangle as the binary reader gives it back: each number through packing and unpacking. */
  function Decoded(t: Tri, pack: real -> Bytes4, unpack: string -> real): Triangle {
    Triangle(
      [unpack(pack(t.a.x)), unpack(pack(t.a.y)), unpack(pack(t.a.z))],
      [unpack(pack(t.b.x)), unpack(pack(t.b.y)), unpack(pack(t.b.z))],
      [unpack(pack(t.c.x)), unpack(pack(t.c.y)), unpack(pack(t.c.z))])
  }

  function DecodedAll(tris: seq<Tri>, pack: real -> Bytes4, unpack: string -> real): (r: seq<Triangle>)
    ensures |r| == |tris|
    decreases |tris|
  {
    if tris == [] then [] else [Decoded(tris[0], pack, unpack)] + DecodedAll(tris[1..], pack, unpack)
  }

  /** The record of a triangle reads back as its vertices; the normal is skipped. */
  lemma RecordDecodes(t: Tri, normal: Tri -> Position, pack: real -> Bytes4, unpack: string -> real)
    ensures BinaryTriangle(Record(t, normal, pack), unpack) == Decoded(t, pack, unpack)
  {
    var xs := RecordNumbers(normal(t), t);
    var rec := Record(t, normal, pack);
    var all := PackAll(xs, pack);
    assert rec[..48] == all;
    forall k | 3 <= k < 12
      ensures rec[4 * k..4 * k + 4] == pack(xs[k])
    {
      PackAllAt(xs, pack, k);
      assert rec[4 * k..4 * k + 4] == all[4 * k..4 * k + 4];
    }
    assert rec[12..16] == pack(xs[3]) && rec[16..20] == pack(xs[4]) && rec[20..24] == pack(xs[5]);
    assert rec[24..28] == pack(xs[6]) && rec[28..32] == pack(xs[7]) && rec[32..36] == pack(xs[8]);
    assert rec[36..40] == pack(xs[9]) && rec[40..44] == pack(xs[10]) && rec[44..48] == pack(xs[11]);
  }

  /** Records laid out from pos are read back one triangle per record. */
  lemma {:induction false} BinaryFacetsOfRecords(data: string, pos: nat, tris: seq<Tri>, normal: Tri -> Position,
                                                 pack: real -> Bytes4, unpack: string -> real)
    requires pos + |Records(tris, normal, pack)| <= |data|
    requires data[pos..pos + |Records(tris, normal, pack)|] == Records(tris, normal, pack)
    ensures BinaryFacets(data, pos, |tris|, unpack) == Some(DecodedAll(tris, pack, unpack))
    decreases |tris|
  {
    if tris != [] {
      var rec := Record(tris[0], normal, pack);
      var rest := Records(tris[1..], normal, pack);
      assert Records(tris, normal, pack) == rec + rest;
      SliceSplit(data, pos, rec, rest);
      BinaryFacetsOfRecords(data, pos + 50, tris[1..], normal, pack, unpack);
      RecordDecodes(tris[0], normal, pack, unpack);
    }
  }

  /** Data that holds a + b at pos holds a at pos and b right after it. */
  lemma SliceSplit(data: string, pos: nat, a: string, b: string)
    requires pos + |a + b| <= |data| && data[pos..pos + |a + b|] == a + b
    ensures data[pos..pos + |a|] == a
    ensures data[pos + |a|..pos + |a| + |b|] == b
  {
    assert data[pos..pos + |a|] == (a + b)[..|a|];
    assert data[pos + |a|..pos + |a| + |b|] == (a + b)[|a|..];
  }

  /** The header is one line of 80 bytes that is not taken for ASCII. */
  lemma HeaderLine(data: string)
    requires |data| >= 80 && data[..80] == Header
    ensures FirstLineEnd(data) == 80
    ensures !LooksAscii(data[..80])
  {
    HeaderShape();
    assert forall k :: 0 <= k < 80 ==> data[k] == Header[k];
    LineEndLimit(data, 0, 80);
    var h := Header;
    assert h[0] == h[..16][0] == 'B';
    assert LStrip(h) == h;
    assert Lower(h[..6])[0] == 'b';
  }

  /**
   * A binary file reads back to its triangles in order, every number passed
   * through packing and unpacking; the normals are not read.
   */
  lemma BinaryRoundTrip(tris: seq<Tri>, normal: Tri -> Position, pack: real -> Bytes4,
                        parse: string -> Option<real>, unpack: string -> real)
    requires |tris| < 0x1_0000_0000
    ensures BinaryFile(tris, normal, pack).Some?
    ensures IsBytes(BinaryFile(tris, normal, pack).value)
    ensures ReadStl(BinaryFile(tris, normal, pack).value, parse, unpack) == Polygons(DecodedAll(tris, pack, unpack))
  {
    var count := Le32(|tris|).value;
    assert BinaryFile(tris, normal, pack).value == Header + count + Records(tris, normal, pack);
    assert Le32Value(count) == |tris| by {
      Le32RoundTrip(|tris|);
    }
    BinaryFileReads(count, tris, normal, pack, parse, unpack);
  }

  /** The file of a header, a count that decodes to the number of triangles, and their records. */
  lemma BinaryFileReads(count: string, tris: seq<Tri>, normal: Tri -> Position, pack: real -> Bytes4,
                        parse: string -> Option<real>, unpack: string -> real)
    requires |count| == 4 && IsBytes(count) && Le32Value(count) == |tris|
    ensures IsBytes(Header + count + Records(tris, normal, pack))
    ensures ReadStl(Header + count + Records(tris, normal, pack), parse, unpack) == Polygons(DecodedAll(tris, pack, unpack))
  {
    var recs := Records(tris, normal, pack);
    var data := Header + count + recs;
    HeaderShape();
    assert IsBytes(data) by {
      HeaderBytes();
      BytesConcat(Header, count);
      RecordsBytes(tris, normal, pack);
      BytesConcat(Header + count, recs);
    }
    BinaryLayout(data, count, recs);
    HeaderLine(data);
    BinaryFacetsOfRecords(data, 84, tris, normal, pack, unpack);
  }

  lemma HeaderBytes()
    ensures IsBytes(Header)
  {
    HeaderShape();
    forall i | 0 <= i < |Header|
      ensures Header[i] as int < 256
    {
      if i < 16 {
        assert Header[i] == Header[..16][i];
      }
    }
  }

  /** Where the header, the count and the records lie in a binary file. */
  lemma BinaryLayout(data: string, count: string, recs: string)
    requires |Header| == 80 && |count| == 4 && data == Header + count + recs
    ensures data[..80] == Header && data[80..84] == count && data[84..84 + |recs|] == recs
  {
  }

  // ---------------------------------------------------------------------
  // ASCII text

  /** The characters the ASCII writer uses. */
  predicate Plain(c: char) {
    c == ' ' || c == '\n' || c == '-' || c == '.' || IsDigit(c) || 'a' <= c <= 'z'
  }

  predicate AllPlain(s: string) {
    forall i :: 0 <= i < |s| ==> Plain(s[i])
  }

  /** A keyword: lower-case letters only. */
  predicate LowerWord(w: string) {
    w != [] && forall i :: 0 <= i < |w| ==> 'a' <= w[i] <= 'z'
  }

  predicate Blanks(indent: string) {
    forall i :: 0 <= i < |indent| ==> indent[i] == ' '
  }

  lemma PlainText(s: string)
    requires AllPlain(s)
    ensures IsAscii(s) && IsBytes(s) && Lower(s) == s
  {
    LowerKeeps(s);
  }

  lemma PlainConcat(a: string, b: string)
    requires AllPlain(a) && AllPlain(b)
    ensures AllPlain(a + b)
  {
    assert forall i :: 0 <= i < |a| ==> (a + b)[i] == a[i];
    assert forall i :: |a| <= i < |a + b| ==> (a + b)[i] == b[i - |a|];
  }

  lemma {:induction false} PlainJoin(ws: seq<string>)
    requires forall k :: 0 <= k < |ws| ==> AllPlain(ws[k])
    ensures AllPlain(Join(ws))
    decreases |ws|
  {
    if |ws| > 1 {
      PlainJoin(ws[1..]);
      PlainConcat(ws[0], " ");
      PlainConcat(ws[0] + " ", Join(ws[1..]));
    }
  }

  /** Joining two nonempty lists puts one space between their joins. */
  lemma {:induction false} JoinAppend(keys: seq<string>, more: seq<string>)
    requires keys != [] && more != []
    ensures Join(keys + more) == Join(keys) + " " + Join(more)
    decreases |keys|
  {
    var all := keys + more;
    if |keys| == 1 {
      assert all[1..] == more;
    } else {
      assert all[1..] == keys[1..] + more;
      JoinAppend(keys[1..], more);
    }
  }

  /** A whole line: one newline, at its end. */
  predicate OneLine(line: string) {
    line != [] && line[|line| - 1] == '\n' && forall i :: 0 <= i < |line| - 1 ==> line[i] != '\n'
  }

  lemma {:induction false} JoinNoNewline(ws: seq<string>)
    requires forall k :: 0 <= k < |ws| ==> NoSpace(ws[k])
    ensures forall i :: 0 <= i < |Join(ws)| ==> Join(ws)[i] != '\n'
    decreases |ws|
  {
    if |ws| > 1 {
      JoinNoNewline(ws[1..]);
      var a, b := ws[0] + " ", Join(ws[1..]);
      assert forall i :: 0 <= i < |ws[0]| ==> a[i] == ws[0][i];
      assert forall i :: 0 <= i < |a| ==> (a + b)[i] == a[i];
      assert forall i :: |a| <= i < |a + b| ==> (a + b)[i] == b[i - |a|];
    } else if |ws| == 1 {
      assert forall i :: 0 <= i < |ws[0]| ==> Join(ws)[i] == ws[0][i];
    }
  }

  // ---------------------------------------------------------------------
  // Numbers as printed

  /** What `float` gives for the text of "%.6f" after `_float_fmt`: the printed value, exactly. */
  function FixedValue(f: Fixed): real {
    (if f.negative then -(f.millionths as real) else f.millionths as real) / 1000000.0
  }

  /** `parse` reads every decimal of at most six places as its exact value, as `float` does for these. */
  ghost predicate ParsesDecimals(parse: string -> Option<real>) {
    forall s :: ReadFixed(s).Some? ==> parse(s) == Some(FixedValue(ReadFixed(s).value))
  }

  /** The number the reader gets back for x written with "%.6f" and `_float_fmt`. */
  function Printed(x: real, round6: real -> Fixed): real {
    var f := round6(x);
    FixedValue(Fixed(f.negative && f.millionths != 0, f.millionths))
  }

  function PrintedAll(xs: seq<real>, round6: real -> Fixed): (r: seq<real>)
    ensures |r| == |xs|
    ensures forall k :: 0 <= k < |xs| ==> r[k] == Printed(xs[k], round6)
  {
    seq(|xs|, k requires 0 <= k < |xs| => Printed(xs[k], round6))
  }

  /** Words of plain characters that `parse` reads as the numbers v. */
  ghost predicate NumberWords(ws: seq<string>, v: seq<real>, parse: string -> Option<real>) {
    |ws| == |v| &&
    forall k :: 0 <= k < |ws| ==> ws[k] != [] && NoSpace(ws[k]) && AllPlain(ws[k]) && parse(ws[k]) == Some(v[k])
  }

  lemma {:induction false} FormattedAt(xs: seq<real>, round6: real -> Fixed)
    ensures forall k :: 0 <= k < |xs| ==> Formatted(xs, round6)[k] == FloatFmt(round6(xs[k]))
    decreases |xs|
  {
    if xs != [] {
      FormattedAt(xs[1..], round6);
    }
  }

  /** The numbers `_float_fmt` writes read back as printed. */
  lemma FormattedWords(xs: seq<real>, round6: real -> Fixed, parse: string -> Option<real>)
    requires ParsesDecimals(parse)
    ensures NumberWords(Formatted(xs, round6), PrintedAll(xs, round6), parse)
  {
    FormattedAt(xs, round6);
    forall k | 0 <= k < |xs|
      ensures var w := Formatted(xs, round6)[k];
        w != [] && NoSpace(w) && AllPlain(w) && parse(w) == Some(Printed(xs[k], round6))
    {
      var f := round6(xs[k]);
      FloatFmtCharacters(f);
      FloatFmtRoundTrip(f);
    }
  }

  // ---------------------------------------------------------------------
  // One line

  /** A line of the ASCII writer: indentation, keywords and numbers joined by spaces, a newline. */
  function WordLine(indent: string, keys: seq<string>, ws: seq<string>): string {
    indent + Join(keys + ws) + "\n"
  }

  /** The words of such a line are the keywords, then the numbers; it is one plain line. */
  lemma WordLineWords(indent: string, keys: seq<string>, ws: seq<string>, v: seq<real>, parse: string -> Option<real>)
    requires Blanks(indent) && NumberWords(ws, v, parse)
    requires forall k :: 0 <= k < |keys| ==> LowerWord(keys[k])
    ensures AllPlain(WordLine(indent, keys, ws)) && OneLine(WordLine(indent, keys, ws))
    ensures Words(WordLine(indent, keys, ws)) == keys + ws
  {
    var all := keys + ws;
    forall k | 0 <= k < |all|
      ensures all[k] != [] && NoSpace(all[k]) && AllPlain(all[k])
    {
      if k >= |keys| {
        assert all[k] == ws[k - |keys|];
      }
    }
    WordsOfLine(indent, all);
    PlainJoin(all);
    PlainConcat(indent, Join(all));
    PlainConcat(indent + Join(all), "\n");
    JoinNoNewline(all);
    var a, b := indent, Join(all);
    assert forall i :: 0 <= i < |a| ==> (a + b)[i] == a[i];
    assert forall i :: |a| <= i < |a + b| ==> (a + b)[i] == b[i - |a|];
  }

  /** The watch words of a line are its keywords, as the reader splits them. */
  lemma KeywordWords(keys: seq<string>)
    requires forall k :: 0 <= k < |keys| ==> LowerWord(keys[k])
    ensures Words(Lower(Join(keys))) == keys
  {
    forall k | 0 <= k < |keys|
      ensures keys[k] != [] && NoSpace(keys[k]) && AllPlain(keys[k])
    {
    }
    PlainJoin(keys);
    PlainText(Join(keys));
    WordsJoin(keys, "");
    assert Join(keys) + "" == Join(keys);
  }

  /** `_read_ascii_line` on a lower-case line whose words are the watch words, then numbers. */
  lemma LineStepOfWords(line: string, watch: string, parse: string -> Option<real>,
                        keys: seq<string>, nums: seq<string>, vals: seq<real>)
    requires IsAscii(line) && Lower(line) == line && Words(line) == keys + nums
    requires keys != [] && keys[0] != "endsolid" && Words(Lower(watch)) == keys
    requires |vals| == |nums| && forall k :: 0 <= k < |nums| ==> parse(nums[k]) == Some(vals[k])
    ensures LineStep(line, watch, parse) == Values(vals)
  {
    var words := keys + nums;
    assert words[0] == keys[0];
    assert line != "";
    assert words[..|keys|] == keys;
    assert words[|keys|..] == nums;
    assert CheckKeys(words, keys) == KeysMatch;
    var r := ParseAll(nums, parse);
    assert r.Some?;
    assert r.value == vals;
  }

  /**
   * Read with its own keywords as watch words, a writer's line gives its
   * numbers, provided its first word is not "endsolid".
   */
  lemma WordLineValues(indent: string, keys: seq<string>, ws: seq<string>, v: seq<real>, parse: string -> Option<real>)
    requires Blanks(indent) && NumberWords(ws, v, parse)
    requires keys != [] && keys[0] != "endsolid"
    requires forall k :: 0 <= k < |keys| ==> LowerWord(keys[k])
    ensures LineStep(WordLine(indent, keys, ws), Join(keys), parse) == Values(v)
  {
    var line := WordLine(indent, keys, ws);
    WordLineWords(indent, keys, ws, v, parse);
    PlainText(line);
    KeywordWords(keys);
    LineStepOfWords(line, Join(keys), parse, keys, ws, v);
  }

  /** A line that `_read_ascii_line` reads as the numbers v when watching for the keywords of line j of a facet. */
  ghost predicate LineGood(line: string, j: nat, v: seq<real>, parse: string -> Option<real>) {
    OneLine(line) && AllPlain(line) && |line| <= 1024 && LineStep(line, Keyword(j), parse) == Values(v)
  }

  /** The shape of a line with keywords and numbers: one plain line. */
  lemma NumbersLineShape(indent: string, keys: seq<string>, ws: seq<string>, v: seq<real>,
                         parse: string -> Option<real>, line: string)
    requires Blanks(indent) && NumberWords(ws, v, parse) && ws != [] && keys != []
    requires forall k :: 0 <= k < |keys| ==> LowerWord(keys[k])
    requires line == indent + Join(keys) + " " + Join(ws) + "\n"
    ensures line == WordLine(indent, keys, ws) && OneLine(line) && AllPlain(line)
  {
    var k, w := Join(keys), Join(ws);
    assert line == WordLine(indent, keys, ws) by {
      JoinAppend(keys, ws);
      assert Join(keys + ws) == k + " " + w;
      ConcatAssoc(indent, k + " ", w);
      ConcatAssoc(indent, k, " ");
    }
    WordLineWords(indent, keys, ws, v, parse);
  }

  /** "<indent><keys> <numbers>": the first line and the vertex lines of a facet. */
  lemma NumbersLineGood(indent: string, keys: seq<string>, ws: seq<string>, v: seq<real>,
                        parse: string -> Option<real>, j: nat, line: string)
    requires Blanks(indent) && NumberWords(ws, v, parse) && ws != []
    requires keys != [] && keys[0] != "endsolid" && Join(keys) == Keyword(j)
    requires forall k :: 0 <= k < |keys| ==> LowerWord(keys[k])
    requires line == indent + Join(keys) + " " + Join(ws) + "\n" && |line| <= 1024
    ensures LineGood(line, j, v, parse)
  {
    NumbersLineShape(indent, keys, ws, v, parse, line);
    WordLineValues(indent, keys, ws, v, parse);
  }

  /** "<indent><keys>": the lines of a facet without numbers. */
  lemma KeysLineGood(indent: string, keys: seq<string>, parse: string -> Option<real>, j: nat, line: string)
    requires Blanks(indent)
    requires keys != [] && keys[0] != "endsolid" && Join(keys) == Keyword(j)
    requires forall k :: 0 <= k < |keys| ==> LowerWord(keys[k])
    requires line == indent + Join(keys) + "\n" && |line| <= 1024
    ensures LineGood(line, j, [], parse)
  {
    assert line == WordLine(indent, keys, []) by {
      assert keys + [] == keys;
    }
    WordLineWords(indent, keys, [], [], parse);
    WordLineValues(indent, keys, [], [], parse);
  }

  // ---------------------------------------------------------------------
  // Reading lines back

  /** Lines k onwards, one after the other. */
  function LinesFrom(lines: seq<string>, k: nat): string
    decreases |lines| - k
  {
    if k >= |lines| then "" else lines[k] + LinesFrom(lines, k + 1)
  }

  lemma SuffixAfter(data: string, pos: nat, a: string, b: string)
    requires pos <= |data| && data[pos..] == a + b
    ensures pos + |a| <= |data| && data[pos + |a|..] == b
  {
    assert data[pos + |a|..] == (a + b)[|a|..];
  }

  /** A whole line of at most 1024 bytes ends where its newline is. */
  lemma LineEndOf(data: string, pos: nat, line: string, rest: string)
    requires pos <= |data| && data[pos..] == line + rest
    requires OneLine(line) && |line| <= 1024
    ensures pos + |line| <= |data| && LineEnd(data, pos, 1024) == pos + |line| && data[pos..pos + |line|] == line
  {
    var n := pos + |line|;
    assert forall k :: pos <= k < |data| ==> data[k] == (line + rest)[k - pos];
    assert forall k :: pos <= k < n ==> data[k] == line[k - pos];
    LineEndAt(data, pos, 1024, n);
    assert data[pos..n] == (line + rest)[..|line|];
  }

  lemma AsciiLineIs(data: string, pos: nat, e: nat, line: string, watch: string, parse: string -> Option<real>,
                    res: LineResult)
    requires e == pos + |line| && e <= |data| && LineEnd(data, pos, 1024) == e && data[pos..e] == line
    requires LineStep(line, watch, parse) == res
    ensures AsciiLine(data, pos, watch, parse) == (res, e)
  {
  }

  lemma LineAt(data: string, pos: nat, e: nat, line: string, rest: string)
    requires pos <= |data| && data[pos..] == line + rest && e <= |data| && data[e..] == rest
    requires OneLine(line) && |line| <= 1024
    ensures e == pos + |line| && LineEnd(data, pos, 1024) == e && data[pos..e] == line
  {
    LineEndOf(data, pos, line, rest);
  }

  /** A whole line of at most 1024 bytes is read as it stands, and reading goes on after it. */
  lemma LineReadAt(data: string, line: string, rest: string, pos: nat, e: nat, j: nat, v: seq<real>,
                   parse: string -> Option<real>)
    requires pos <= |data| && data[pos..] == line + rest && e <= |data| && data[e..] == rest
    requires LineGood(line, j, v, parse)
    ensures AsciiLine(data, pos, Keyword(j), parse) == (Values(v), e)
  {
    LineAt(data, pos, e, line, rest);
    AsciiLineIs(data, pos, e, line, Keyword(j), parse, Values(v));
  }

  /** Where each of the lines k onwards starts, when they stand at `pos`. */
  lemma {:induction false} LineStarts(data: string, pos: nat, lines: seq<string>, k: nat, rest: string)
    returns (at: seq<nat>)
    requires k <= |lines| && pos <= |data| && data[pos..] == LinesFrom(lines, k) + rest
    ensures |at| == |lines| + 1 - k && at[0] == pos
    ensures forall i :: 0 <= i < |at| ==> at[i] <= |data| && data[at[i]..] == LinesFrom(lines, k + i) + rest
    decreases |lines| - k
  {
    if k == |lines| {
      at := [pos];
    } else {
      var more := LinesFrom(lines, k + 1);
      assert data[pos..] == lines[k] + (more + rest);
      SuffixAfter(data, pos, lines[k], more + rest);
      var tail := LineStarts(data, pos + |lines[k]|, lines, k + 1, rest);
      at := [pos] + tail;
      assert forall i :: 1 <= i < |at| ==> at[i] == tail[i - 1];
    }
  }

  /** Each line, read at its start with the keywords of its place, gives its numbers. */
  lemma LinesRead(data: string, lines: seq<string>, vals: seq<seq<real>>, rest: string, at: seq<nat>,
                  parse: string -> Option<real>)
    requires |lines| == 7 && |vals| == 7 && |at| == 8
    requires forall i :: 0 <= i < 8 ==> at[i] <= |data| && data[at[i]..] == LinesFrom(lines, i) + rest
    requires forall j {:trigger LineGood(lines[j], j, vals[j], parse)} :: 0 <= j < 7 ==> LineGood(lines[j], j, vals[j], parse)
    ensures forall j {:trigger AsciiLine(data, at[j], Keyword(j), parse)} :: 0 <= j < 7 ==> AsciiLine(data, at[j], Keyword(j), parse) == (Values(vals[j]), at[j + 1])
  {
    forall j | 0 <= j < 7
      ensures AsciiLine(data, at[j], Keyword(j), parse) == (Values(vals[j]), at[j + 1])
    {
      var tail := LinesFrom(lines, j + 1) + rest;
      assert data[at[j]..] == lines[j] + tail by {
        assert LinesFrom(lines, j) == lines[j] + LinesFrom(lines, j + 1);
        ConcatAssoc(lines[j], LinesFrom(lines, j + 1), rest);
      }
      assert data[at[j + 1]..] == tail;
      LineReadAt(data, lines[j], tail, at[j], at[j + 1], j, vals[j], parse);
    }
  }

  /** The vertices gathered so far grow by the vertex line just read. */
  lemma NextGot(vals: seq<seq<real>>, k: nat, got: seq<seq<real>>)
    requires |vals| == 7 && k < 7 && got == [vals[2], vals[3], vals[4]][..VerticesBefore(k)]
    ensures (if 2 <= k <= 4 then got + [vals[k]] else got) == [vals[2], vals[3], vals[4]][..VerticesBefore(k + 1)]
  {
    var v := [vals[2], vals[3], vals[4]];
    if k < 2 {
      assert VerticesBefore(k + 1) == 0;
    } else if k <= 4 {
      assert got == v[..k - 2] && VerticesBefore(k + 1) == k - 1;
      assert v[..k - 1] == v[..k - 2] + [v[k - 2]];
    } else {
      assert VerticesBefore(k + 1) == 3 == VerticesBefore(k);
    }
  }

  /** One step of a pass, with the line's numbers and the next position named. */
  lemma PassStepTo(data: string, pos: nat, k: nat, got: seq<seq<real>>, parse: string -> Option<real>,
                   v: seq<real>, p: nat)
    requires pos <= |data| && k < 7 && |got| == VerticesBefore(k)
    requires AsciiLine(data, pos, Keyword(k), parse) == (Values(v), p)
    ensures p <= |data|
    ensures Pass(data, pos, k, got, parse) == Pass(data, p, k + 1, if 2 <= k <= 4 then got + [v] else got, parse)
  {
    PassStep(data, pos, k, got, parse);
  }

  /**
   * Seven lines, each read at its start with the keywords of its place,
   * make one complete pass of `_read_ascii_facet` that ends after the last.
   */
  lemma {:induction false} PassReads(data: string, at: seq<nat>, k: nat, vals: seq<seq<real>>,
                                     got: seq<seq<real>>, parse: string -> Option<real>)
    requires |at| == 8 && |vals| == 7 && k <= 7
    requires forall i :: 0 <= i < 8 ==> at[i] <= |data|
    requires forall j {:trigger AsciiLine(data, at[j], Keyword(j), parse)} :: k <= j < 7 ==> AsciiLine(data, at[j], Keyword(j), parse) == (Values(vals[j]), at[j + 1])
    requires got == [vals[2], vals[3], vals[4]][..VerticesBefore(k)]
    ensures Pass(data, at[k], k, got, parse) == (Complete(vals[2], vals[3], vals[4]), at[7])
    decreases 7 - k
  {
    if k < 7 {
      var next := if 2 <= k <= 4 then got + [vals[k]] else got;
      assert next == [vals[2], vals[3], vals[4]][..VerticesBefore(k + 1)] by {
        NextGot(vals, k, got);
      }
      assert AsciiLine(data, at[k], Keyword(k), parse) == (Values(vals[k]), at[k + 1]);
      assert Pass(data, at[k], k, got, parse) == Pass(data, at[k + 1], k + 1, next, parse) by {
        PassStepTo(data, at[k], k, got, parse, vals[k], at[k + 1]);
      }
      PassReads(data, at, k + 1, vals, next, parse);
    }
  }

  /** Where seven good lines at `pos` start, each read with the keywords of its place. */
  lemma LineReads(data: string, pos: nat, e: nat, lines: seq<string>, vals: seq<seq<real>>, rest: string,
                  parse: string -> Option<real>)
    returns (at: seq<nat>)
    requires |lines| == 7 && |vals| == 7
    requires pos <= |data| && data[pos..] == LinesFrom(lines, 0) + rest && e <= |data| && data[e..] == rest
    requires forall j {:trigger LineGood(lines[j], j, vals[j], parse)} :: 0 <= j < 7 ==> LineGood(lines[j], j, vals[j], parse)
    ensures |at| == 8 && at[0] == pos && at[7] == e
    ensures forall i :: 0 <= i < 8 ==> at[i] <= |data|
    ensures forall j {:trigger AsciiLine(data, at[j], Keyword(j), parse)} :: 0 <= j < 7 ==> AsciiLine(data, at[j], Keyword(j), parse) == (Values(vals[j]), at[j + 1])
  {
    at := LineStarts(data, pos, lines, 0, rest);
    LinesRead(data, lines, vals, rest, at, parse);
    assert LinesFrom(lines, 7) + rest == rest;
    assert |data| - at[7] == |rest| == |data| - e;
  }

  /** Seven good lines at `pos` make one complete pass that ends where they end. */
  lemma LinesPass(data: string, pos: nat, e: nat, lines: seq<string>, vals: seq<seq<real>>, rest: string,
                  parse: string -> Option<real>)
    requires |lines| == 7 && |vals| == 7
    requires pos <= |data| && data[pos..] == LinesFrom(lines, 0) + rest && e <= |data| && data[e..] == rest
    requires forall j {:trigger LineGood(lines[j], j, vals[j], parse)} :: 0 <= j < 7 ==> LineGood(lines[j], j, vals[j], parse)
    ensures TryFacet(data, pos, parse) == (Complete(vals[2], vals[3], vals[4]), e)
  {
    var at := LineReads(data, pos, e, lines, vals, rest, parse);
    assert [vals[2], vals[3], vals[4]][..VerticesBefore(0)] == [];
    PassReads(data, at, 0, vals, [], parse);
  }

  // ---------------------------------------------------------------------
  // One facet

  /** The seven lines of a facet with the given numbers after "facet normal" and "vertex". */
  function FacetLinesOf(cn: string, ca: string, cb: string, cc: string): (r: seq<string>)
    ensures |r| == 7
  {
    [NumbersLine("  ", "facet normal", cn), KeysLine("    ", "outer loop"),
     NumbersLine("      ", "vertex", ca), NumbersLine("      ", "vertex", cb), NumbersLine("      ", "vertex", cc),
     KeysLine("    ", "endloop"), KeysLine("  ", "endfacet")]
  }

  /** The numbers `_read_ascii_line` returns for each of the seven lines. */
  function FacetValuesOf(vn: seq<real>, va: seq<real>, vb: seq<real>, vc: seq<real>): (r: seq<seq<real>>)
    ensures |r| == 7
  {
    [vn, [], va, vb, vc, [], []]
  }

  lemma TwoKeys(keys: seq<string>, a: string, b: string)
    requires keys == [a, b]
    ensures Join(keys) == a + " " + b
  {
  }

  lemma KeywordLength(j: nat)
    ensures |Keyword(j)| <= 12
  {
  }

  /** A facet line with numbers reads back as those numbers. */
  lemma NumbersLineRead(indent: string, keys: seq<string>, ws: seq<string>, v: seq<real>,
                        parse: string -> Option<real>, j: nat, line: string)
    requires Blanks(indent) && |indent| <= 6 && NumberWords(ws, v, parse) && ws != [] && |Join(ws)| <= 1000
    requires keys != [] && |keys| <= 2 && keys[0] != "endsolid" && Join(keys) == Keyword(j)
    requires forall k :: 0 <= k < |keys| ==> LowerWord(keys[k])
    requires line == NumbersLine(indent, Join(keys), Join(ws))
    ensures LineGood(line, j, v, parse)
  {
    KeywordLength(j);
    NumbersLineGood(indent, keys, ws, v, parse, j, line);
  }

  /** A facet line without numbers reads back as no numbers. */
  lemma KeysLineRead(indent: string, keys: seq<string>, parse: string -> Option<real>, j: nat, v: seq<real>, line: string)
    requires Blanks(indent) && |indent| <= 6
    requires keys != [] && keys[0] != "endsolid" && Join(keys) == Keyword(j)
    requires forall k :: 0 <= k < |keys| ==> LowerWord(keys[k])
    requires line == KeysLine(indent, Join(keys)) && v == []
    ensures LineGood(line, j, v, parse)
  {
    KeywordLength(j);
    KeysLineGood(indent, keys, parse, j, line);
  }

  lemma NormalLineRead(ws: seq<string>, v: seq<real>, parse: string -> Option<real>, j: nat, line: string)
    requires NumberWords(ws, v, parse) && ws != [] && |Join(ws)| <= 1000 && j == 0
    requires line == NumbersLine("  ", "facet normal", Join(ws))
    ensures LineGood(line, j, v, parse)
  {
    var keys := ["facet", "normal"];
    TwoKeys(keys, "facet", "normal");
    NumbersLineRead("  ", keys, ws, v, parse, j, line);
  }

  lemma VertexLineRead(ws: seq<string>, v: seq<real>, parse: string -> Option<real>, j: nat, line: string)
    requires NumberWords(ws, v, parse) && ws != [] && |Join(ws)| <= 1000 && 2 <= j <= 4
    requires line == NumbersLine("      ", "vertex", Join(ws))
    ensures LineGood(line, j, v, parse)
  {
    NumbersLineRead("      ", ["vertex"], ws, v, parse, j, line);
  }

  lemma OuterLineRead(parse: string -> Option<real>, j: nat, v: seq<real>, line: string)
    requires line == KeysLine("    ", "outer loop") && j == 1 && v == []
    ensures LineGood(line, j, v, parse)
  {
    var keys := ["outer", "loop"];
    TwoKeys(keys, "outer", "loop");
    KeysLineRead("    ", keys, parse, j, v, line);
  }

  lemma EndloopLineRead(parse: string -> Option<real>, j: nat, v: seq<real>, line: string)
    requires line == KeysLine("    ", "endloop") && j == 5 && v == []
    ensures LineGood(line, j, v, parse)
  {
    KeysLineRead("    ", ["endloop"], parse, j, v, line);
  }

  lemma EndfacetLineRead(parse: string -> Option<real>, j: nat, v: seq<real>, line: string)
    requires line == KeysLine("  ", "endfacet") && j == 6 && v == []
    ensures LineGood(line, j, v, parse)
  {
    KeysLineRead("  ", ["endfacet"], parse, j, v, line);
  }

  /** Every line of a facet whose numbers are printed as words reads back as they are. */
  lemma FacetLinesGood(wn: seq<string>, wa: seq<string>, wb: seq<string>, wc: seq<string>,
                       vn: seq<real>, va: seq<real>, vb: seq<real>, vc: seq<real>, parse: string -> Option<real>)
    requires NumberWords(wn, vn, parse) && wn != [] && |Join(wn)| <= 1000
    requires NumberWords(wa, va, parse) && wa != [] && |Join(wa)| <= 1000
    requires NumberWords(wb, vb, parse) && wb != [] && |Join(wb)| <= 1000
    requires NumberWords(wc, vc, parse) && wc != [] && |Join(wc)| <= 1000
    ensures var lines, vals := FacetLinesOf(Join(wn), Join(wa), Join(wb), Join(wc)), FacetValuesOf(vn, va, vb, vc);
      forall j {:trigger LineGood(lines[j], j, vals[j], parse)} :: 0 <= j < 7 ==> LineGood(lines[j], j, vals[j], parse)
  {
    NormalLineRead(wn, vn, parse, 0, NumbersLine("  ", "facet normal", Join(wn)));
    VertexLineRead(wa, va, parse, 2, NumbersLine("      ", "vertex", Join(wa)));
    VertexLineRead(wb, vb, parse, 3, NumbersLine("      ", "vertex", Join(wb)));
    VertexLineRead(wc, vc, parse, 4, NumbersLine("      ", "vertex", Join(wc)));
    OuterLineRead(parse, 1, [], KeysLine("    ", "outer loop"));
    EndloopLineRead(parse, 5, [], KeysLine("    ", "endloop"));
    EndfacetLineRead(parse, 6, [], KeysLine("  ", "endfacet"));
    SevenGood(Join(wn), Join(wa), Join(wb), Join(wc), vn, va, vb, vc, parse);
  }

  /** The seven lines of a facet, each good, are all good. */
  lemma SevenGood(cn: string, ca: string, cb: string, cc: string,
                  vn: seq<real>, va: seq<real>, vb: seq<real>, vc: seq<real>, parse: string -> Option<real>)
    requires LineGood(NumbersLine("  ", "facet normal", cn), 0, vn, parse)
    requires LineGood(KeysLine("    ", "outer loop"), 1, [], parse)
    requires LineGood(NumbersLine("      ", "vertex", ca), 2, va, parse)
    requires LineGood(NumbersLine("      ", "vertex", cb), 3, vb, parse)
    requires LineGood(NumbersLine("      ", "vertex", cc), 4, vc, parse)
    requires LineGood(KeysLine("    ", "endloop"), 5, [], parse)
    requires LineGood(KeysLine("  ", "endfacet"), 6, [], parse)
    ensures var lines, vals := FacetLinesOf(cn, ca, cb, cc), FacetValuesOf(vn, va, vb, vc);
      forall j {:trigger LineGood(lines[j], j, vals[j], parse)} :: 0 <= j < 7 ==> LineGood(lines[j], j, vals[j], parse)
  {
    var lines, vals := FacetLinesOf(cn, ca, cb, cc), FacetValuesOf(vn, va, vb, vc);
    forall j | 0 <= j < 7
      ensures LineGood(lines[j], j, vals[j], parse)
    {
      assert j == 0 || j == 1 || j == 2 || j == 3 || j == 4 || j == 5 || j == 6;
    }
  }

  /** Seven lines one after the other. */
  lemma SevenLines(lines: seq<string>, a: string, b: string, c: string, d: string, e: string, f: string, g: string)
    requires lines == [a, b, c, d, e, f, g]
    ensures LinesFrom(lines, 0) == a + b + c + d + e + f + g
  {
    assert LinesFrom(lines, 7) == "";
    assert LinesFrom(lines, 6) == g;
    assert LinesFrom(lines, 5) == f + g;
    assert LinesFrom(lines, 4) == e + (f + g);
    assert LinesFrom(lines, 3) == d + (e + (f + g));
    assert LinesFrom(lines, 2) == c + (d + (e + (f + g)));
    assert LinesFrom(lines, 1) == b + (c + (d + (e + (f + g))));
    assert LinesFrom(lines, 0) == a + (b + (c + (d + (e + (f + g)))));
  }

  /** The text of a facet is its seven lines. */
  lemma FacetTextLines(t: Tri, normal: Tri -> Position, round6: real -> Fixed)
    ensures FacetText(t, normal, round6) ==
      LinesFrom(FacetLinesOf(Coords(normal(t), round6), Coords(t.a, round6), Coords(t.b, round6), Coords(t.c, round6)), 0)
  {
    var cn, ca, cb, cc := Coords(normal(t), round6), Coords(t.a, round6), Coords(t.b, round6), Coords(t.c, round6);
    SevenLines(FacetLinesOf(cn, ca, cb, cc),
      NumbersLine("  ", "facet normal", cn), KeysLine("    ", "outer loop"),
      NumbersLine("      ", "vertex", ca), NumbersLine("      ", "vertex", cb), NumbersLine("      ", "vertex", cc),
      KeysLine("    ", "endloop"), KeysLine("  ", "endfacet"));
  }

  // ---------------------------------------------------------------------
  // Facets as written, read back

  /** A position as the list of its three coordinates. */
  function Xyz(p: Position): (r: seq<real>)
    ensures |r| == 3
  {
    [p.x, p.y, p.z]
  }

  /** The coordinates of p as written fit on a line the reader takes whole. */
  predicate FitsLine(p: Position, round6: real -> Fixed) {
    |Coords(p, round6)| <= 1000
  }

  predicate FitsFacet(t: Tri, normal: Tri -> Position, round6: real -> Fixed) {
    FitsLine(normal(t), round6) && FitsLine(t.a, round6) && FitsLine(t.b, round6) && FitsLine(t.c, round6)
  }

  /** The triangle the reader builds from the text of t: each corner as printed with six decimals. */
  function Reread(t: Tri, round6: real -> Fixed): Triangle {
    Triangle(PrintedAll(Xyz(t.a), round6), PrintedAll(Xyz(t.b), round6), PrintedAll(Xyz(t.c), round6))
  }

  /** The coordinates as written are the words `_float_fmt` prints, joined by spaces. */
  lemma CoordsWords(p: Position, round6: real -> Fixed, parse: string -> Option<real>)
    requires ParsesDecimals(parse)
    ensures Coords(p, round6) == Join(Formatted(Xyz(p), round6))
    ensures NumberWords(Formatted(Xyz(p), round6), PrintedAll(Xyz(p), round6), parse)
  {
    FormattedWords(Xyz(p), round6, parse);
  }

  /** The seven lines of t as written all read back. */
  lemma FacetGood(t: Tri, normal: Tri -> Position, round6: real -> Fixed, parse: string -> Option<real>)
    requires ParsesDecimals(parse) && FitsFacet(t, normal, round6)
    ensures var lines := FacetLinesOf(Coords(normal(t), round6), Coords(t.a, round6), Coords(t.b, round6), Coords(t.c, round6));
      var r := Reread(t, round6);
      var vals := FacetValuesOf(PrintedAll(Xyz(normal(t)), round6), r.v0, r.v1, r.v2);
      forall j {:trigger LineGood(lines[j], j, vals[j], parse)} :: 0 <= j < 7 ==> LineGood(lines[j], j, vals[j], parse)
  {
    CoordsWords(normal(t), round6, parse);
    CoordsWords(t.a, round6, parse);
    CoordsWords(t.b, round6, parse);
    CoordsWords(t.c, round6, parse);
    var r := Reread(t, round6);
    FacetLinesGood(Formatted(Xyz(normal(t)), round6), Formatted(Xyz(t.a), round6), Formatted(Xyz(t.b), round6),
      Formatted(Xyz(t.c), round6), PrintedAll(Xyz(normal(t)), round6), r.v0, r.v1, r.v2, parse);
  }

  /**
   * The text `_stl_write_facet` writes for t, read by one pass of
   * `_read_ascii_facet`, gives t's corners as printed, and reading goes on
   * right after it.
   */
  lemma FacetReads(data: string, pos: nat, e: nat, t: Tri, normal: Tri -> Position, round6: real -> Fixed,
                   rest: string, parse: string -> Option<real>)
    requires ParsesDecimals(parse) && FitsFacet(t, normal, round6)
    requires pos <= |data| && data[pos..] == FacetText(t, normal, round6) + rest && e <= |data| && data[e..] == rest
    ensures var r := Reread(t, round6); TryFacet(data, pos, parse) == (Complete(r.v0, r.v1, r.v2), e)
  {
    var lines := FacetLinesOf(Coords(normal(t), round6), Coords(t.a, round6), Coords(t.b, round6), Coords(t.c, round6));
    var r := Reread(t, round6);
    var vals := FacetValuesOf(PrintedAll(Xyz(normal(t)), round6), r.v0, r.v1, r.v2);
    FacetGood(t, normal, round6, parse);
    FacetTextLines(t, normal, round6);
    LinesPass(data, pos, e, lines, vals, rest, parse);
  }

  lemma LowerConcat(a: string, b: string)
    ensures Lower(a + b) == Lower(a) + Lower(b)
  {
  }

  /** The closing line is one ASCII line whose first word, lower-cased, is "endsolid". */
  lemma EndsolidWords(line: string)
    requires line == "endsolid Model\n"
    ensures IsAscii(line) && OneLine(line)
    ensures Words(Lower(line)) != [] && Words(Lower(line))[0] == "endsolid"
  {
    var word, rest := "endsolid", " Model\n";
    assert line == word + rest;
    assert IsAscii(line) && OneLine(line);
    assert Lower(line) == word + Lower(rest) by {
      LowerConcat(word, rest);
      LowerKeeps(word);
    }
    assert word != [] && NoSpace(word);
    assert Lower(rest)[0] == ' ';
    WordsWord(word, Lower(rest));
  }

  /** "endsolid Model" ends the file, whatever the watch words. */
  lemma EndsolidLine(line: string, watch: string, parse: string -> Option<real>)
    requires line == "endsolid Model\n"
    ensures IsAscii(line) && OneLine(line)
    ensures LineStep(line, watch, parse) == EndOfFile
  {
    EndsolidWords(line);
    LineStepEndOfFile(line, watch, parse);
  }

  /** After the last facet, the reader meets the closing line and stops. */
  lemma EndRead(data: string, pos: nat, parse: string -> Option<real>)
    requires pos <= |data| && data[pos..] == "endsolid Model\n"
    ensures NextFacet(data, pos, parse).0 == NoFacet
  {
    var line := "endsolid Model\n";
    EndsolidLine(line, Keyword(0), parse);
    assert data[pos..] == line + "";
    LineEndOf(data, pos, line, "");
    AsciiLineIs(data, pos, pos + |line|, line, Keyword(0), parse, EndOfFile);
    NextFacetAtEnd(data, pos, parse);
  }

  /**
   * The triangles the reader returns for tris written as text: each as
   * printed, except those that printing made degenerate, which it skips.
   */
  function Kept(tris: seq<Tri>, round6: real -> Fixed): (r: seq<Triangle>)
    ensures |r| <= |tris|
    ensures forall u :: u in r ==> !Degenerate(u.v0, u.v1, u.v2)
    decreases |tris|
  {
    if tris == [] then []
    else
      var u := Reread(tris[0], round6);
      (if Degenerate(u.v0, u.v1, u.v2) then [] else [u]) + Kept(tris[1..], round6)
  }

  /** Reading from two places where the next facet is the same reads the same facets. */
  lemma AsciiFacetsSame(data: string, p: nat, q: nat, parse: string -> Option<real>)
    requires p <= |data| && q <= |data| && NextFacet(data, p, parse) == NextFacet(data, q, parse)
    ensures AsciiFacets(data, p, parse) == AsciiFacets(data, q, parse)
  {
  }

  /** The first text written, and where the rest begins. */
  lemma WrittenFirst(data: string, pos: nat, tris: seq<Tri>, write: Tri -> string, tail: string)
    returns (e: nat)
    requires tris != [] && pos <= |data| && data[pos..] == Written(tris, write) + tail
    ensures e <= |data| && data[pos..] == write(tris[0]) + data[e..]
    ensures data[e..] == Written(tris[1..], write) + tail
  {
    var text := write(tris[0]);
    var more := Written(tris[1..], write) + tail;
    assert data[pos..] == text + more;
    SuffixAfter(data, pos, text, more);
    e := pos + |text|;
  }

  /** One facet read: kept when its printed corners differ, skipped otherwise. */
  lemma FacetStep(data: string, pos: nat, e: nat, t: Tri, normal: Tri -> Position, round6: real -> Fixed,
                  parse: string -> Option<real>, later: Option<seq<Triangle>>)
    requires ParsesDecimals(parse) && FitsFacet(t, normal, round6)
    requires pos <= |data| && e <= |data| && data[pos..] == TextWriter(normal, round6)(t) + data[e..]
    requires AsciiFacets(data, e, parse) == later
    ensures var u := Reread(t, round6);
      AsciiFacets(data, pos, parse) == Prepend(if Degenerate(u.v0, u.v1, u.v2) then [] else [u], later)
  {
    var u := Reread(t, round6);
    assert TextWriter(normal, round6)(t) == FacetText(t, normal, round6);
    FacetReads(data, pos, e, t, normal, round6, data[e..], parse);
    if Degenerate(u.v0, u.v1, u.v2) {
      NextFacetSkips(data, pos, parse);
      AsciiFacetsSame(data, pos, e, parse);
      PrependNothing(later);
    }
  }

  /**
   * The facets written as text, followed by the closing line, read back as
   * the kept triangles.
   */
  lemma {:induction false} FacetTextsRead(data: string, pos: nat, tris: seq<Tri>, normal: Tri -> Position,
                                          round6: real -> Fixed, parse: string -> Option<real>)
    requires ParsesDecimals(parse) && forall t :: t in tris ==> FitsFacet(t, normal, round6)
    requires pos <= |data| && data[pos..] == FacetTexts(tris, normal, round6) + "endsolid Model\n"
    ensures AsciiFacets(data, pos, parse) == Some(Kept(tris, round6))
    decreases |tris|
  {
    if tris == [] {
      assert data[pos..] == "endsolid Model\n";
      EndRead(data, pos, parse);
    } else {
      var t := tris[0];
      var e := WrittenFirst(data, pos, tris, TextWriter(normal, round6), "endsolid Model\n");
      FacetTextsRead(data, e, tris[1..], normal, round6, parse);
      FacetStep(data, pos, e, t, normal, round6, parse, Some(Kept(tris[1..], round6)));
    }
  }

  // ---------------------------------------------------------------------
  // The whole ASCII file

  lemma {:induction false} LinesPlain(lines: seq<string>, k: nat)
    requires forall j :: k <= j < |lines| ==> AllPlain(lines[j])
    ensures AllPlain(LinesFrom(lines, k))
    decreases |lines| - k
  {
    if k < |lines| {
      LinesPlain(lines, k + 1);
      PlainConcat(lines[k], LinesFrom(lines, k + 1));
    }
  }

  /** A facet as written holds only plain characters. */
  lemma FacetPlain(t: Tri, normal: Tri -> Position, round6: real -> Fixed, parse: string -> Option<real>)
    requires ParsesDecimals(parse) && FitsFacet(t, normal, round6)
    ensures AllPlain(TextWriter(normal, round6)(t))
  {
    var lines := FacetLinesOf(Coords(normal(t), round6), Coords(t.a, round6), Coords(t.b, round6), Coords(t.c, round6));
    FacetGood(t, normal, round6, parse);
    var r := Reread(t, round6);
    var vals := FacetValuesOf(PrintedAll(Xyz(normal(t)), round6), r.v0, r.v1, r.v2);
    forall j | 0 <= j < 7
      ensures AllPlain(lines[j])
    {
      assert LineGood(lines[j], j, vals[j], parse);
    }
    LinesPlain(lines, 0);
    FacetTextLines(t, normal, round6);
  }

  /** All the facets as written hold only plain characters. */
  lemma {:induction false} TextsPlain(tris: seq<Tri>, normal: Tri -> Position, round6: real -> Fixed,
                                      parse: string -> Option<real>)
    requires ParsesDecimals(parse) && forall t :: t in tris ==> FitsFacet(t, normal, round6)
    ensures AllPlain(FacetTexts(tris, normal, round6))
    decreases |tris|
  {
    if tris != [] {
      FacetPlain(tris[0], normal, round6, parse);
      TextsPlain(tris[1..], normal, round6, parse);
      PlainConcat(TextWriter(normal, round6)(tris[0]), FacetTexts(tris[1..], normal, round6));
    }
  }

  /** The file's first line is "solid Model", so the reader takes the ASCII branch and goes on after it. */
  lemma Framing(data: string, body: string)
    requires data == "solid Model\n" + body
    ensures FirstLineEnd(data) == 12 && LooksAscii(data[..12])
    ensures data[12..] == body
  {
    var head := "solid Model\n";
    assert forall k :: 0 <= k < 12 ==> data[k] == head[k];
    LineEndAt(data, 0, 80, 12);
    assert data[..6] == "solid ";
    LowerKeeps("solid ");
    SolidPrefixIsAscii(data);
  }

  /** The framing and the facets are bytes. */
  lemma FilePlain(data: string, body: string)
    requires data == "solid Model\n" + body + "endsolid Model\n" && AllPlain(body)
    ensures IsBytes(data)
  {
    var head, foot := "solid Model\n", "endsolid Model\n";
    assert IsBytes(head) && IsBytes(foot);
    PlainText(body);
    BytesConcat(head, body);
    BytesConcat(head + body, foot);
  }

  /**
   * Saving triangles as ASCII and reading the file back gives the
   * triangles as printed with six decimals, without those that printing
   * made degenerate, in the order written; every line of the file is within
   * the reader's 1024-byte limit by FitsFacet.
   */
  lemma AsciiRoundTrip(tris: seq<Tri>, normal: Tri -> Position, round6: real -> Fixed,
                       parse: string -> Option<real>, unpack: string -> real)
    requires ParsesDecimals(parse) && forall t :: t in tris ==> FitsFacet(t, normal, round6)
    ensures IsBytes(AsciiFile(tris, normal, round6))
    ensures ReadStl(AsciiFile(tris, normal, round6), parse, unpack) == Polygons(Kept(tris, round6))
  {
    var data := AsciiFile(tris, normal, round6);
    var body := FacetTexts(tris, normal, round6);
    TextsPlain(tris, normal, round6, parse);
    FilePlain(data, body);
    assert data == "solid Model\n" + (body + "endsolid Model\n");
    Framing(data, body + "endsolid Model\n");
    FacetTextsRead(data, 12, tris, normal, round6, parse);
  }

  /**
   * `save_polys_to_stl_file` then `read_polys_from_stl_file`: the binary
   * format gives back every fan triangle as packed and unpacked, the ASCII
   * format every fan triangle as printed that printing left nondegenerate.
   */
  lemma SaveThenRead(polys: seq<seq<Position>>, binary: bool, normal: Tri -> Position, round6: real -> Fixed,
                     pack: real -> Bytes4, parse: string -> Option<real>, unpack: string -> real)
    requires binary ==> |Fans(polys)| < 0x1_0000_0000
    requires !binary ==> ParsesDecimals(parse) && forall t :: t in Fans(polys) ==> FitsFacet(t, normal, round6)
    ensures SaveStl(polys, binary, normal, round6, pack).Some?
    ensures IsBytes(SaveStl(polys, binary, normal, round6, pack).value)
    ensures ReadStl(SaveStl(polys, binary, normal, round6, pack).value, parse, unpack) ==
      if binary then Polygons(DecodedAll(Fans(polys), pack, unpack)) else Polygons(Kept(Fans(polys), round6))
  {
    if binary {
      BinaryRoundTrip(Fans(polys), normal, pack, parse, unpack);
    } else {
      AsciiRoundTrip(Fans(polys), normal, round6, parse, unpack);
    }
  }
}
