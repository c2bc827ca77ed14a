/**
 * The text layer of the STL reader and writer of petrify/stl.py: the short
 * number format of the ASCII writer, and the ASCII lower-casing, whitespace
 * split and size-limited `readline` the reader relies on. A file is a
 * string whose characters are its bytes, each below 256.
 */
module StlText {
  import opened Wrappers

  // ---------------------------------------------------------------------
  // Characters, words and lines

  /** Whitespace as `str.split()` sees it in ASCII text. */
  predicate IsSpace(c: char) {
    c == ' ' || (9 <= c as int <= 13) || (28 <= c as int <= 31)
  }

  /** Whitespace as `bytes.lstrip()` sees it. */
  predicate IsByteSpace(c: char) {
    c == ' ' || (9 <= c as int <= 13)
  }

  predicate NoSpace(w: string) {
    forall i :: 0 <= i < |w| ==> !IsSpace(w[i])
  }

  /** `lower()` on ASCII text: only 'A' .. 'Z' change. */
  function LowerChar(c: char): char {
    if 'A' <= c <= 'Z' then (c as int + 32) as char else c
  }

  function Lower(s: string): (r: string)
    ensures |r| == |s|
    ensures forall i :: 0 <= i < |s| ==> r[i] == LowerChar(s[i])
  {
    seq(|s|, i requires 0 <= i < |s| => LowerChar(s[i]))
  }

  /** Text without upper-case letters is its own lower-casing. */
  lemma LowerKeeps(s: string)
    requires forall i :: 0 <= i < |s| ==> !('A' <= s[i] <= 'Z')
    ensures Lower(s) == s
  {
  }

  /** The length of the run of non-whitespace characters that starts s. */
  function WordLen(s: string): (n: nat)
    ensures n <= |s|
    ensures forall i :: 0 <= i < n ==> !IsSpace(s[i])
    ensures n == |s| || IsSpace(s[n])
  {
    if s == [] || IsSpace(s[0]) then 0 else 1 + WordLen(s[1..])
  }

  /** `str.split()` with no separator: the maximal runs of non-whitespace, in order. */
  function Words(s: string): (r: seq<string>)
    ensures forall w :: w in r ==> w != [] && NoSpace(w)
    decreases |s|
  {
    if s == [] then []
    else if IsSpace(s[0]) then Words(s[1..])
    else
      var n := WordLen(s);
      [s[..n]] + Words(s[n..])
  }

  /** `" ".join(ws)`. */
  function Join(ws: seq<string>): string {
    if ws == [] then ""
    else if |ws| == 1 then ws[0]
    else ws[0] + " " + Join(ws[1..])
  }

  lemma WordLenOf(w: string, rest: string)
    requires NoSpace(w)
    requires rest == [] || IsSpace(rest[0])
    ensures WordLen(w + rest) == |w|
  {
    if w != [] {
      assert (w + rest)[1..] == w[1..] + rest;
      WordLenOf(w[1..], rest);
    }
  }

  /** A word followed by whitespace or nothing is the first word. */
  lemma WordsWord(w: string, rest: string)
    requires w != [] && NoSpace(w)
    requires rest == [] || IsSpace(rest[0])
    ensures Words(w + rest) == [w] + Words(rest)
  {
    WordLenOf(w, rest);
    assert (w + rest)[..|w|] == w;
    assert (w + rest)[|w|..] == rest;
  }

  /** Leading whitespace adds no word. */
  lemma {:induction false} WordsBlank(blank: string, s: string)
    requires forall i :: 0 <= i < |blank| ==> IsSpace(blank[i])
    ensures Words(blank + s) == Words(s)
  {
    if blank != [] {
      var t := blank + s;
      assert t[0] == blank[0] && t[1..] == blank[1..] + s;
      assert Words(t) == Words(t[1..]);
      WordsBlank(blank[1..], s);
    } else {
      assert blank + s == s;
    }
  }

  /**
   * Splitting words joined by single spaces and followed by whitespace gives
   * back the words: the reader's `split` undoes the writer's `join`.
   */
  lemma {:induction false} WordsJoin(ws: seq<string>, tail: string)
    requires forall k :: 0 <= k < |ws| ==> ws[k] != [] && NoSpace(ws[k])
    requires forall i :: 0 <= i < |tail| ==> IsSpace(tail[i])
    ensures Words(Join(ws) + tail) == ws
  {
    if ws == [] {
      WordsBlank(tail, []);
      assert tail + [] == tail;
      assert Join(ws) + tail == tail;
    } else if |ws| == 1 {
      WordsWord(ws[0], tail);
      WordsBlank(tail, []);
      assert tail + [] == tail;
    } else {
      var more := Join(ws[1..]) + tail;
      assert Words(more) == ws[1..] by {
        WordsJoin(ws[1..], tail);
      }
      assert Join(ws) + tail == ws[0] + (" " + more) by {
        Assoc4(ws[0], " ", Join(ws[1..]), tail);
      }
      WordsJoinStep(ws[0], more);
      HeadTail(ws);
    }
  }

  lemma Assoc4(a: string, b: string, c: string, d: string)
    ensures a + b + c + d == a + (b + (c + d))
  {
  }

  lemma HeadTail<T>(s: seq<T>)
    requires s != []
    ensures [s[0]] + s[1..] == s
  {
  }

  lemma WordsJoinStep(w: string, more: string)
    requires w != [] && NoSpace(w)
    ensures Words(w + (" " + more)) == [w] + Words(more)
  {
    WordsWord(w, " " + more);
    WordsBlank(" ", more);
  }

  /** A line of the ASCII writer: indentation, the words joined by spaces, a newline. */
  lemma WordsOfLine(indent: string, ws: seq<string>)
    requires forall i :: 0 <= i < |indent| ==> indent[i] == ' '
    requires forall k :: 0 <= k < |ws| ==> ws[k] != [] && NoSpace(ws[k])
    ensures Words(indent + Join(ws) + "\n") == ws
  {
    assert indent + Join(ws) + "\n" == indent + (Join(ws) + "\n");
    WordsBlank(indent, Join(ws) + "\n");
    WordsJoin(ws, "\n");
  }

  /**
   * Where `readline(limit)` stops when it starts at pos: just after the first
   * newline, after limit characters, or at the end of the data.
   */
  function LineEnd(data: string, pos: nat, limit: nat): (e: nat)
    requires pos <= |data|
    ensures pos <= e <= |data| && e <= pos + limit
    ensures limit > 0 && pos < |data| ==> e > pos
    ensures forall k :: pos <= k < e - 1 ==> data[k] != '\n'
    ensures e == |data| || e == pos + limit || data[e - 1] == '\n'
    decreases limit
  {
    if limit == 0 || pos == |data| then pos
    else if data[pos] == '\n' then pos + 1
    else LineEnd(data, pos + 1, limit - 1)
  }

  /** A line that ends in its first newline within the limit is read whole. */
  lemma {:induction false} LineEndAt(data: string, pos: nat, limit: nat, n: nat)
    requires pos < n <= |data| && n - pos <= limit
    requires data[n - 1] == '\n'
    requires forall k :: pos <= k < n - 1 ==> data[k] != '\n'
    ensures LineEnd(data, pos, limit) == n
    decreases limit
  {
    if data[pos] != '\n' {
      LineEndAt(data, pos + 1, limit - 1, n);
    }
  }

  /** A run of limit characters without a newline is cut at the limit. */
  lemma {:induction false} LineEndLimit(data: string, pos: nat, limit: nat)
    requires pos + limit <= |data|
    requires forall k :: pos <= k < pos + limit ==> data[k] != '\n'
    ensures LineEnd(data, pos, limit) == pos + limit
    decreases limit
  {
    if limit > 0 {
      LineEndLimit(data, pos + 1, limit - 1);
    }
  }

  // ---------------------------------------------------------------------
  // Decimal digits

  predicate IsDigit(c: char) {
    '0' <= c <= '9'
  }

  predicate AllDigits(s: string) {
    forall i :: 0 <= i < |s| ==> IsDigit(s[i])
  }

  function DigitChar(d: nat): (c: char)
    requires d < 10
    ensures IsDigit(c) && c as int - '0' as int == d
  {
    ('0' as int + d) as char
  }

  function Pow10(k: nat): (r: nat)
    ensures r >= 1
  {
    if k == 0 then 1 else 10 * Pow10(k - 1)
  }

  /** The number a string of decimal digits denotes. */
  function DigitsValue(s: string): nat
    requires AllDigits(s)
  {
    if s == [] then 0 else DigitsValue(s[..|s| - 1]) * 10 + (s[|s| - 1] as int - '0' as int)
  }

  /** The decimal digits of n, as `%d` prints it: no leading zero, "0" for zero. */
  function Digits(n: nat): (r: string)
    ensures |r| >= 1 && AllDigits(r)
    ensures r == "0" <==> n == 0
  {
    if n < 10 then [DigitChar(n)] else Digits(n / 10) + [DigitChar(n % 10)]
  }

  /** The last `width` decimal digits of n, zero-filled. */
  function Pad(n: nat, width: nat): (r: string)
    ensures |r| == width && AllDigits(r)
  {
    if width == 0 then [] else Pad(n / 10, width - 1) + [DigitChar(n % 10)]
  }

  /** Reading back the digits of n gives n. */
  lemma {:induction false} DigitsRoundTrip(n: nat)
    ensures DigitsValue(Digits(n)) == n
  {
    if n >= 10 {
      DigitsRoundTrip(n / 10);
      var s := Digits(n);
      assert s[..|s| - 1] == Digits(n / 10);
    }
  }

  lemma DivBelow(n: nat, k: nat)
    requires n < Pow10(k + 1)
    ensures n / 10 < Pow10(k)
  {
  }

  /** Reading back the zero-filled digits of a number that fits gives the number. */
  lemma {:induction false} PadValue(n: nat, width: nat)
    requires n < Pow10(width)
    ensures DigitsValue(Pad(n, width)) == n
  {
    if width > 0 {
      DivBelow(n, width - 1);
      PadValue(n / 10, width - 1);
      var s := Pad(n, width);
      assert s[..|s| - 1] == Pad(n / 10, width - 1);
    }
  }

  /** Digits that are all '0' read as zero. */
  lemma {:induction false} ZerosValue(s: string)
    requires forall i :: 0 <= i < |s| ==> s[i] == '0'
    ensures AllDigits(s) && DigitsValue(s) == 0
  {
    if s != [] {
      ZerosValue(s[..|s| - 1]);
    }
  }

  // ---------------------------------------------------------------------
  // rstrip

  /**
   * `s.rstrip(c)`: the longest prefix of s that does not end in c, such that
   * everything after it is c.
   */
  function RStrip(s: string, c: char): (r: string)
    ensures |r| <= |s| && r == s[..|r|]
    ensures r == [] || r[|r| - 1] != c
    ensures forall k :: |r| <= k < |s| ==> s[k] == c
    decreases |s|
  {
    if s != [] && s[|s| - 1] == c then RStrip(s[..|s| - 1], c) else s
  }

  /** The three properties in the contract of RStrip single out its result. */
  lemma RStripUnique(s: string, c: char, r: string)
    requires |r| <= |s| && r == s[..|r|]
    requires r == [] || r[|r| - 1] != c
    requires forall k :: |r| <= k < |s| ==> s[k] == c
    ensures RStrip(s, c) == r
  {
    var q := RStrip(s, c);
    if |q| < |r| {
      assert false;
    } else if |r| < |q| {
      assert false;
    }
  }

  /** Stripping zeros from digits divides their value by ten per zero removed. */
  lemma {:induction false} StripZerosValue(s: string)
    requires AllDigits(s)
    ensures AllDigits(RStrip(s, '0'))
    ensures DigitsValue(RStrip(s, '0')) * Pow10(|s| - |RStrip(s, '0')|) == DigitsValue(s)
    decreases |s|
  {
    if s != [] && s[|s| - 1] == '0' {
      var init := s[..|s| - 1];
      StripZerosValue(init);
      var r := RStrip(init, '0');
      assert RStrip(s, '0') == r;
      var k := |init| - |r|;
      assert |s| - |r| == k + 1;
      assert Pow10(k + 1) == 10 * Pow10(k);
      assert DigitsValue(s) == DigitsValue(init) * 10;
      calc {
        DigitsValue(r) * Pow10(k + 1);
        DigitsValue(r) * (10 * Pow10(k));
        { assert DigitsValue(r) * (10 * Pow10(k)) == (DigitsValue(r) * Pow10(k)) * 10; }
        DigitsValue(init) * 10;
      }
    }
  }

  // ---------------------------------------------------------------------
  // _float_fmt

  /**
   * A float rounded to six decimals, as "%.6f" rounds it: its sign (a
   * negative value that rounds to zero keeps its minus) and its magnitude
   * as a whole number of millionths.
   */
  datatype Fixed = Fixed(negative: bool, millionths: nat)

  /** The "%.6f" text: sign, whole part, '.', exactly six decimals. */
  function Fixed6(f: Fixed): string {
    (if f.negative then "-" else "") + Digits(f.millionths / 1000000) + "." + Pad(f.millionths % 1000000, 6)
  }

  /** `_float_fmt`: "%.6f", trailing '0's then a trailing '.' removed, "-0" read as "0". */
  function FloatFmt(f: Fixed): string {
    var s := RStrip(RStrip(Fixed6(f), '0'), '.');
    if s == "-0" then "0" else s
  }

  /** The decimals that FloatFmt keeps of a fraction of millionths. */
  function Decimals(frac: nat): string {
    if frac == 0 then "" else "." + RStrip(Pad(frac, 6), '0')
  }

  /**
   * What `_float_fmt` produces: a minus only for a value that is not zero,
   * the whole part in full (stripping never reaches it), and the decimals
   * without trailing zeros, with no '.' at all when there are none.
   */
  lemma FloatFmtShape(f: Fixed)
    ensures FloatFmt(f) ==
      (if f.negative && f.millionths != 0 then "-" else "") +
      Digits(f.millionths / 1000000) + Decimals(f.millionths % 1000000)
  {
    if f.millionths % 1000000 == 0 {
      FloatFmtWhole(f);
    } else {
      FloatFmtFraction(f);
    }
  }

  lemma FloatFmtWhole(f: Fixed)
    requires f.millionths % 1000000 == 0
    ensures FloatFmt(f) == (if f.negative && f.millionths != 0 then "-" else "") + Digits(f.millionths / 1000000)
  {
    var sign := if f.negative then "-" else "";
    var whole := Digits(f.millionths / 1000000);
    var pad := Pad(0, 6);
    assert Fixed6(f) == sign + whole + "." + pad;
    PadZero(6);
    StripWhole(sign, whole, pad);
    MinusZero(f.negative, whole, f.millionths == 0);
  }

  lemma FloatFmtFraction(f: Fixed)
    requires f.millionths % 1000000 != 0
    ensures FloatFmt(f) ==
      (if f.negative then "-" else "") + Digits(f.millionths / 1000000) + Decimals(f.millionths % 1000000)
  {
    var sign := if f.negative then "-" else "";
    var whole := Digits(f.millionths / 1000000);
    var frac := f.millionths % 1000000;
    var pad := Pad(frac, 6);
    var t := RStrip(pad, '0');
    var u := sign + whole + "." + t;
    assert FloatFmt(f) == u by {
      DecimalsNonempty(frac);
      StripFraction(sign, whole, pad);
      FloatFmtOf(f, sign + whole + "." + pad, u);
    }
    assert sign + whole + Decimals(frac) == u by {
      assert Decimals(frac) == "." + t;
      ConcatAssoc(sign + whole, ".", t);
    }
  }

  lemma ConcatAssoc(a: string, b: string, c: string)
    ensures a + (b + c) == a + b + c
  {
  }

  /** FloatFmt of a value whose "%.6f" text strips to something longer than "-0". */
  lemma FloatFmtOf(f: Fixed, text: string, u: string)
    requires Fixed6(f) == text
    requires RStrip(RStrip(text, '0'), '.') == u && |u| >= 3
    ensures FloatFmt(f) == u
  {
  }

  /** A nonzero fraction keeps at least one decimal. */
  lemma DecimalsNonempty(frac: nat)
    requires 0 < frac < 1000000
    ensures RStrip(Pad(frac, 6), '0') != []
  {
    var pad := Pad(frac, 6);
    PadValue(frac, 6);
    if RStrip(pad, '0') == [] {
      ZerosValue(pad);
    }
  }

  /** The "-0" rule: a minus survives exactly when the whole part is not zero. */
  lemma MinusZero(negative: bool, whole: string, zero: bool)
    requires whole != [] && AllDigits(whole)
    requires whole == "0" <==> zero
    ensures var u := (if negative then "-" else "") + whole;
      (if u == "-0" then "0" else u) == (if negative && !zero then "-" else "") + whole
  {
    var u := (if negative then "-" else "") + whole;
    if u == "-0" {
      assert u[0] == '-';
      assert u[1..] == whole;
    }
  }

  lemma {:induction false} PadZero(width: nat)
    ensures forall i :: 0 <= i < width ==> Pad(0, width)[i] == '0'
  {
    if width > 0 {
      PadZero(width - 1);
    }
  }

  /** Stripping "%.6f" text whose decimals are all zero leaves the sign and the whole part. */
  lemma StripWhole(sign: string, whole: string, pad: string)
    requires whole != [] && AllDigits(whole)
    requires forall i :: 0 <= i < |pad| ==> pad[i] == '0'
    ensures RStrip(RStrip(sign + whole + "." + pad, '0'), '.') == sign + whole
  {
    var sw := sign + whole;
    var u := sw + ".";
    var s := u + pad;
    assert RStrip(s, '0') == u by {
      assert s[..|u|] == u;
      assert forall k :: |u| <= k < |s| ==> s[k] == pad[k - |u|];
      assert u[|u| - 1] == '.';
      RStripUnique(s, '0', u);
    }
    assert RStrip(u, '.') == sw by {
      assert u[..|sw|] == sw;
      assert sw[|sw| - 1] == whole[|whole| - 1];
      RStripUnique(u, '.', sw);
    }
  }

  /** Stripping "%.6f" text with a nonzero decimal keeps the '.' and the decimals up to the last nonzero one. */
  lemma StripFraction(sign: string, whole: string, pad: string)
    requires AllDigits(pad) && RStrip(pad, '0') != []
    ensures RStrip(RStrip(sign + whole + "." + pad, '0'), '.') == sign + whole + "." + RStrip(pad, '0')
  {
    var s := sign + whole + "." + pad;
    var t := RStrip(pad, '0');
    var u := sign + whole + "." + t;
    assert s[..|u|] == u;
    RStripUnique(s, '0', u);
    RStripUnique(u, '.', u);
  }

  /** The first position of c in s, or |s| when there is none. */
  function IndexOf(s: string, c: char): (i: nat)
    ensures i <= |s|
    ensures forall k :: 0 <= k < i ==> s[k] != c
    ensures i < |s| ==> s[i] == c
  {
    if s == [] || s[0] == c then 0 else 1 + IndexOf(s[1..], c)
  }

  lemma IndexOfAt(s: string, c: char, i: nat)
    requires i <= |s|
    requires forall k :: 0 <= k < i ==> s[k] != c
    requires i < |s| ==> s[i] == c
    ensures IndexOf(s, c) == i
  {
    var j := IndexOf(s, c);
    if j < i {
      assert false;
    } else if i < j {
      assert false;
    }
  }

  /**
   * Reading a decimal as "[-]digits[.digits]" with at most six decimals back
   * into a sign and a count of millionths; anything else is refused.
   */
  function ReadFixed(s: string): Option<Fixed> {
    var negative := |s| > 0 && s[0] == '-';
    var body := if negative then s[1..] else s;
    var i := IndexOf(body, '.');
    var whole := body[..i];
    var decimals := if i < |body| then body[i + 1..] else "";
    if whole == [] || !AllDigits(whole) || !AllDigits(decimals) || |decimals| > 6
      || (i < |body| && decimals == [])
    then None
    else Some(Fixed(negative, Millionths(whole, decimals)))
  }

  /** The millionths that a whole part and at most six decimals denote. */
  function Millionths(whole: string, decimals: string): nat
    requires AllDigits(whole) && AllDigits(decimals) && |decimals| <= 6
  {
    DigitsValue(whole) * 1000000 + DigitsValue(decimals) * Pow10(6 - |decimals|)
  }

  /**
   * `_float_fmt` loses nothing: its text reads back as the same number of
   * millionths, with the minus sign kept exactly when the value is not zero.
   */
  lemma FloatFmtRoundTrip(f: Fixed)
    ensures ReadFixed(FloatFmt(f)) == Some(Fixed(f.negative && f.millionths != 0, f.millionths))
  {
    if f.millionths % 1000000 == 0 {
      RoundTripWhole(f);
    } else {
      RoundTripFraction(f);
    }
  }

  lemma RoundTripWhole(f: Fixed)
    requires f.millionths % 1000000 == 0
    ensures ReadFixed(FloatFmt(f)) == Some(Fixed(f.negative && f.millionths != 0, f.millionths))
  {
    var q := f.millionths / 1000000;
    var negative := f.negative && f.millionths != 0;
    var x := (if negative then "-" else "") + Digits(q);
    assert FloatFmt(f) == x by {
      FloatFmtWhole(f);
    }
    var w := Digits(q);
    assert w != [] && AllDigits(w) && DigitsValue(w) == q by {
      DigitsRoundTrip(q);
    }
    assert Millionths(w, "") == f.millionths by {
      MillionthsWhole(w);
      SplitMillionths(f.millionths, q, 0);
    }
    ReadWhole(negative, w);
  }

  lemma MillionthsWhole(whole: string)
    requires AllDigits(whole)
    ensures Millionths(whole, "") == DigitsValue(whole) * 1000000
  {
    var z := DigitsValue("");
    assert z == 0;
    assert z * Pow10(6) == 0;
  }

  lemma MillionthsOf(whole: string, decimals: string, q: nat, frac: nat)
    requires AllDigits(whole) && AllDigits(decimals) && |decimals| <= 6
    requires DigitsValue(whole) == q
    requires DigitsValue(decimals) * Pow10(6 - |decimals|) == frac
    ensures Millionths(whole, decimals) == q * 1000000 + frac
  {
  }

  lemma SplitMillionths(m: nat, q: nat, frac: nat)
    requires q == m / 1000000 && frac == m % 1000000
    ensures q * 1000000 + frac == m
  {
  }

  lemma RoundTripFraction(f: Fixed)
    requires f.millionths % 1000000 != 0
    ensures ReadFixed(FloatFmt(f)) == Some(Fixed(f.negative && f.millionths != 0, f.millionths))
  {
    var q := f.millionths / 1000000;
    var frac := f.millionths % 1000000;
    var t := RStrip(Pad(frac, 6), '0');
    var x := (if f.negative then "-" else "") + Digits(q) + ("." + t);
    assert FloatFmt(f) == x by {
      FloatFmtFraction(f);
    }
    DigitsRoundTrip(q);
    DecimalsNonempty(frac);
    DecimalsValue(frac);
    SplitMillionths(f.millionths, q, frac);
    ReadParts(f.negative, Digits(q), t, q, frac);
  }

  lemma ReadParts(negative: bool, whole: string, t: string, q: nat, frac: nat)
    requires whole != [] && AllDigits(whole) && DigitsValue(whole) == q
    requires t != [] && AllDigits(t) && |t| <= 6
    requires DigitsValue(t) * Pow10(6 - |t|) == frac
    ensures ReadFixed((if negative then "-" else "") + whole + ("." + t)) == Some(Fixed(negative, q * 1000000 + frac))
  {
    var m := q * 1000000 + frac;
    assert Millionths(whole, t) == m by {
      MillionthsOf(whole, t, q, frac);
    }
    ReadWithDecimals(negative, whole, t, m);
  }

  /** The kept decimals denote the fraction: their value, shifted back by the zeros removed. */
  lemma DecimalsValue(frac: nat)
    requires frac < 1000000
    ensures AllDigits(RStrip(Pad(frac, 6), '0'))
    ensures DigitsValue(RStrip(Pad(frac, 6), '0')) * Pow10(6 - |RStrip(Pad(frac, 6), '0')|) == frac
  {
    PadValue(frac, 6);
    StripZerosValue(Pad(frac, 6));
  }

  /** The sign of "[-]digits...": a minus is read exactly when one was written. */
  lemma ReadSign(negative: bool, body: string)
    requires body != [] && IsDigit(body[0])
    ensures var s := (if negative then "-" else "") + body;
      (|s| > 0 && s[0] == '-') == negative && (if negative then s[1..] else s) == body
  {
    var s := (if negative then "-" else "") + body;
    if negative {
      assert s[1..] == body;
    } else {
      assert s[0] == body[0];
    }
  }

  lemma ReadWhole(negative: bool, whole: string)
    requires whole != [] && AllDigits(whole)
    ensures ReadFixed((if negative then "-" else "") + whole) == Some(Fixed(negative, Millionths(whole, "")))
  {
    ReadSign(negative, whole);
    IndexOfAt(whole, '.', |whole|);
    assert whole[..|whole|] == whole;
  }

  lemma ReadWithDecimals(negative: bool, whole: string, t: string, m: nat)
    requires whole != [] && AllDigits(whole)
    requires t != [] && AllDigits(t) && |t| <= 6
    requires Millionths(whole, t) == m
    ensures ReadFixed((if negative then "-" else "") + whole + ("." + t)) == Some(Fixed(negative, m))
  {
    var dt := "." + t;
    var body := whole + dt;
    assert (if negative then "-" else "") + whole + dt == (if negative then "-" else "") + body;
    ReadSign(negative, body);
    IndexOfAt(body, '.', |whole|);
    assert body[..|whole|] == whole;
    assert body[|whole|..] == dt;
    assert dt[1..] == t;
    assert body[|whole| + 1..] == dt[1..];
  }

  /** The characters of `_float_fmt`'s text: digits, '-' and '.', so no whitespace and no capitals. */
  lemma FloatFmtCharacters(f: Fixed)
    ensures FloatFmt(f) != []
    ensures forall i :: 0 <= i < |FloatFmt(f)| ==>
      IsDigit(FloatFmt(f)[i]) || FloatFmt(f)[i] == '-' || FloatFmt(f)[i] == '.'
  {
    var sign := if f.negative && f.millionths != 0 then "-" else "";
    var whole := Digits(f.millionths / 1000000);
    var frac := f.millionths % 1000000;
    var dec := Decimals(frac);
    assert FloatFmt(f) == sign + whole + dec by {
      FloatFmtShape(f);
    }
    assert forall i :: 0 <= i < |dec| ==> IsDigit(dec[i]) || dec[i] == '.' by {
      if frac != 0 {
        var t := RStrip(Pad(frac, 6), '0');
        assert AllDigits(t);
        assert dec == "." + t;
      }
    }
    TextCharacters(sign, whole, dec);
  }

  lemma TextCharacters(sign: string, whole: string, dec: string)
    requires forall i :: 0 <= i < |sign| ==> sign[i] == '-'
    requires whole != [] && AllDigits(whole)
    requires forall i :: 0 <= i < |dec| ==> IsDigit(dec[i]) || dec[i] == '.'
    ensures sign + whole + dec != []
    ensures forall i :: 0 <= i < |sign + whole + dec| ==>
      IsDigit((sign + whole + dec)[i]) || (sign + whole + dec)[i] == '-' || (sign + whole + dec)[i] == '.'
  {
  }

  /** Zero-filling a number that ends in four zeros, digit by digit. */
  lemma PadSteps(d: nat, n: nat)
    requires d < 100 && n == d * 10000
    ensures Pad(n, 6) == Pad(d, 2) + "0000"
  {
    assert Pad(n, 6) == Pad(n / 10, 5) + "0";
    assert Pad(n / 10, 5) == Pad(n / 100, 4) + "0";
    assert Pad(n / 100, 4) == Pad(n / 1000, 3) + "0";
    assert Pad(n / 1000, 3) == Pad(d, 2) + "0";
  }

  lemma FloatFmtParts(f: Fixed, whole: string, t: string)
    requires f.millionths % 1000000 != 0
    requires Digits(f.millionths / 1000000) == whole
    requires RStrip(Pad(f.millionths % 1000000, 6), '0') == t
    ensures FloatFmt(f) == (if f.negative then "-" else "") + whole + "." + t
  {
    FloatFmtFraction(f);
  }

  lemma StripPad50()
    ensures RStrip(Pad(500000, 6), '0') == "5"
  {
    PadSteps(50, 500000);
    assert Pad(50, 2) == "50";
    assert "50" + "0000" == "500000";
    RStripUnique("500000", '0', "5");
  }

  lemma StripPad25()
    ensures RStrip(Pad(250000, 6), '0') == "25"
  {
    PadSteps(25, 250000);
    assert Pad(25, 2) == "25";
    assert "25" + "0000" == "250000";
    RStripUnique("250000", '0', "25");
  }

  /** 1.5 prints as "1.5". */
  lemma FloatFmtExampleHalf(f: Fixed)
    requires !f.negative && f.millionths == 1500000
    ensures FloatFmt(f) == "1.5"
  {
    assert f.millionths / 1000000 == 1 && f.millionths % 1000000 == 500000;
    assert Digits(1) == "1";
    StripPad50();
    FloatFmtParts(f, "1", "5");
    assert "" + "1" + "." + "5" == "1.5";
  }

  /** Ten prints as "10": stripping zeros stops at the '.'. */
  lemma FloatFmtExampleTen(f: Fixed)
    requires !f.negative && f.millionths == 10000000
    ensures FloatFmt(f) == "10"
  {
    FloatFmtWhole(f);
    assert Digits(10) == Digits(1) + [DigitChar(0)];
  }

  /** A negative value that rounds to zero prints as "0". */
  lemma FloatFmtExampleNegativeZero(f: Fixed)
    requires f.negative && f.millionths == 0
    ensures FloatFmt(f) == "0"
  {
    FloatFmtWhole(f);
  }

  /** -0.25 prints as "-0.25". */
  lemma FloatFmtExampleQuarter(f: Fixed)
    requires f.negative && f.millionths == 250000
    ensures FloatFmt(f) == "-0.25"
  {
    assert f.millionths / 1000000 == 0 && f.millionths % 1000000 == 250000;
    assert Digits(0) == "0";
    StripPad25();
    FloatFmtParts(f, "0", "25");
    QuarterSpelled();
  }

  lemma QuarterSpelled()
    ensures "-" + "0" + "." + "25" == "-0.25"
  {
  }
}
