/** Text as bytes, read as UTF-8 the way Go reads it: runes, whitespace, and trimming. */
module Runes {
  type Byte = b: int | 0 <= b < 256
  type Bytes = seq<Byte>

  const RUNE_ERROR := 0xFFFD

  datatype Rune = Rune(value: nat, width: nat)

  predicate Continues(s: Bytes, i: nat) {
    i < |s| && 0x80 <= s[i] <= 0xBF
  }

  /** The least and greatest second byte of a three-byte or four-byte rune. */
  function SecondRange(first: Byte): (int, int) {
    if first == 0xE0 then (0xA0, 0xBF)
    else if first == 0xED then (0x80, 0x9F)
    else if first == 0xF0 then (0x90, 0xBF)
    else if first == 0xF4 then (0x80, 0x8F)
    else (0x80, 0xBF)
  }

  predicate SecondFits(s: Bytes, i: nat)
    requires i < |s|
  {
    i + 1 < |s| && SecondRange(s[i]).0 <= s[i + 1] <= SecondRange(s[i]).1
  }

  function Bits(b: Byte, base: int): int {
    b - base
  }

  /** The rune starting at byte `i`; a byte that starts none is an error of width one. */
  function RuneAt(s: Bytes, i: nat): (r: Rune)
    requires i < |s|
    ensures 1 <= r.width <= 4 && i + r.width <= |s|
    ensures s[i] < 0x80 ==> r == Rune(s[i], 1)
    ensures s[i] >= 0x80 ==> r.value >= 0x80
    ensures r.width == 1 && s[i] >= 0x80 ==> r.value == RUNE_ERROR
    ensures forall j | i < j < i + r.width :: Continues(s, j)
  {
    var b := s[i];
    if b < 0x80 then Rune(b, 1)
    else if 0xC2 <= b <= 0xDF && Continues(s, i + 1) then Rune(Bits(b, 0xC0) * 0x40 + Bits(s[i + 1], 0x80), 2)
    else if 0xE0 <= b <= 0xEF && SecondFits(s, i) && Continues(s, i + 2) then
      Rune(Bits(b, 0xE0) * 0x1000 + Bits(s[i + 1], 0x80) * 0x40 + Bits(s[i + 2], 0x80), 3)
    else if 0xF0 <= b <= 0xF4 && SecondFits(s, i) && Continues(s, i + 2) && Continues(s, i + 3) then
      Rune(Bits(b, 0xF0) * 0x40000 + Bits(s[i + 1], 0x80) * 0x1000 + Bits(s[i + 2], 0x80) * 0x40
             + Bits(s[i + 3], 0x80), 4)
    else Rune(RUNE_ERROR, 1)
  }

  predicate IsSpace(value: nat) {
    || 9 <= value <= 13 || value == 32 || value == 0x85 || value == 0xA0 || value == 0x1680 || 0x2000 <= value <= 0x200A
    || value == 0x2028 || value == 0x2029 || value == 0x202F || value == 0x205F || value == 0x3000
  }

  predicate IsScalar(v: nat) {
    v < 0xD800 || 0xE000 <= v < 0x110000
  }

  /** The UTF-8 encoding of a Unicode scalar value (section 3 of RFC 3629). */
  function Encoded(v: nat): Bytes
    requires IsScalar(v)
  {
    var low, middle, high := v % 0x40, v / 0x40 % 0x40, v / 0x40 / 0x40 % 0x40;
    if v < 0x80 then [v]
    else if v < 0x800 then [0xC0 + v / 0x40, 0x80 + low]
    else if v < 0x10000 then [0xE0 + v / 0x40 / 0x40, 0x80 + middle, 0x80 + low]
    else [0xF0 + v / 0x40 / 0x40 / 0x40, 0x80 + high, 0x80 + middle, 0x80 + low]
  }

  lemma DecodeTwo(v: nat, s: Bytes, n: nat)
    requires 0x80 <= v < 0x800 && n + 1 < |s| && s[n] == 0xC0 + v / 0x40 && s[n + 1] == 0x80 + v % 0x40
    ensures RuneAt(s, n) == Rune(v, 2)
  {
  }

  lemma DecodeThree(v: nat, high: nat, middle: nat, low: nat, s: Bytes, n: nat)
    requires 0x800 <= v < 0x10000 && IsScalar(v) && v == high * 0x1000 + middle * 0x40 + low
    requires high < 0x10 && middle < 0x40 && low < 0x40
    requires n + 2 < |s| && s[n] == 0xE0 + high && s[n + 1] == 0x80 + middle && s[n + 2] == 0x80 + low
    ensures RuneAt(s, n) == Rune(v, 3)
  {
  }

  lemma DecodeFour(v: nat, top: nat, high: nat, middle: nat, low: nat, s: Bytes, n: nat)
    requires 0x10000 <= v < 0x110000 && v == top * 0x40000 + high * 0x1000 + middle * 0x40 + low
    requires high < 0x40 && middle < 0x40 && low < 0x40
    requires n + 3 < |s| && s[n] == 0xF0 + top && s[n + 1] == 0x80 + high && s[n + 2] == 0x80 + middle
      && s[n + 3] == 0x80 + low
    ensures RuneAt(s, n) == Rune(v, 4)
  {
  }

  /** Every scalar value is read back from its encoding, whatever stands around it. */
  lemma DecodeEncoded(v: nat, before: Bytes, after: Bytes)
    requires IsScalar(v)
    ensures RuneAt(before + Encoded(v) + after, |before|) == Rune(v, |Encoded(v)|)
  {
    var s, n, code := before + Encoded(v) + after, |before|, Encoded(v);
    var q, r := v / 0x40, v / 0x40 / 0x40;
    assert v == q * 0x40 + v % 0x40 && q == r * 0x40 + q % 0x40;
    EncodedAt(before, code, after);
    if 0x80 <= v < 0x800 {
      DecodeTwo(v, s, n);
    } else if 0x800 <= v < 0x10000 {
      DecodeThree(v, r, q % 0x40, v % 0x40, s, n);
    } else if 0x10000 <= v {
      assert r == r / 0x40 * 0x40 + r % 0x40;
      DecodeFour(v, r / 0x40, r % 0x40, q % 0x40, v % 0x40, s, n);
    }
  }

  lemma EncodedAt(before: Bytes, code: Bytes, after: Bytes)
    requires code != []
    ensures var s, n := before + code + after, |before|;
            && s[n] == code[0] && (|code| > 1 ==> s[n + 1] == code[1])
            && (|code| > 2 ==> s[n + 2] == code[2]) && (|code| > 3 ==> s[n + 3] == code[3])
  {
  }

  /** Whitespace in Unicode: 25 runes. */
  lemma WhitespaceRunes(v: nat)
    ensures IsSpace(v) <==>
      v in {9, 10, 11, 12, 13, 0x20, 0x85, 0xA0, 0x1680, 0x2000, 0x2001, 0x2002, 0x2003, 0x2004, 0x2005, 0x2006, 0x2007,
            0x2008, 0x2009, 0x200A, 0x2028, 0x2029, 0x202F, 0x205F, 0x3000}
  {
  }

  /** ASCII whitespace. */
  predicate Blank(b: Byte) {
    9 <= b <= 13 || b == 32
  }

  predicate WideSpaceEnd(second: Byte, third: Byte) {
    if second == 0x80 then 0x80 <= third <= 0x8A || third == 0xA8 || third == 0xA9 || third == 0xAF
    else second == 0x81 && third == 0x9F
  }

  /** The length of the encoded whitespace rune that starts at byte `i`, zero if there is none. */
  function SpaceWidth(s: Bytes, i: nat): (width: nat)
    requires i < |s|
    ensures i + width <= |s| && width <= 3
  {
    if s[i] < 0x80 then if Blank(s[i]) then 1 else 0
    else if i + 1 == |s| then 0
    else if s[i] == 0xC2 then if s[i + 1] == 0x85 || s[i + 1] == 0xA0 then 2 else 0
    else if i + 2 == |s| then 0
    else if s[i] == 0xE1 then if s[i + 1] == 0x9A && s[i + 2] == 0x80 then 3 else 0
    else if s[i] == 0xE2 then if WideSpaceEnd(s[i + 1], s[i + 2]) then 3 else 0
    else if s[i] == 0xE3 then if s[i + 1] == 0x80 && s[i + 2] == 0x80 then 3 else 0
    else 0
  }

  predicate SpaceAt(s: Bytes, i: nat) {
    i < |s| && SpaceWidth(s, i) > 0
  }

  /** The encodings listed are exactly those of the runes that are whitespace. */
  lemma SpaceIsWhitespaceRune(s: Bytes, i: nat)
    requires i < |s|
    ensures SpaceAt(s, i) <==> IsSpace(RuneAt(s, i).value)
    ensures SpaceAt(s, i) ==> RuneAt(s, i).width == SpaceWidth(s, i)
  {
  }

  /** Reading runes from byte `from` on, the reader gets to byte `i`. */
  predicate Reaches(s: Bytes, from: nat, i: nat)
    decreases |s| - from
  {
    from == i || (from < i && from < |s| && Reaches(s, from + RuneAt(s, from).width, i))
  }

  /** A rune, or the end of the text, starts at byte `i`. */
  predicate IsStart(s: Bytes, i: nat) {
    Reaches(s, 0, i)
  }

  lemma {:induction false} ReachesVia(s: Bytes, from: nat, mid: nat, i: nat)
    requires Reaches(s, from, mid) && mid <= i
    ensures Reaches(s, from, i) <==> Reaches(s, mid, i)
    decreases |s| - from
  {
    if from != mid {
      ReachesVia(s, from + RuneAt(s, from).width, mid, i);
    }
  }

  lemma {:induction false} ReachesForward(s: Bytes, from: nat, i: nat)
    requires Reaches(s, from, i)
    ensures from <= i
    decreases |s| - from
  {
  }

  /** Every start but the first is the end of exactly the rune before it. */
  lemma {:induction false} PreviousStart(s: Bytes, from: nat, i: nat) returns (p: nat)
    requires Reaches(s, from, i) && from < i
    ensures from <= p < i && p < |s| && Reaches(s, from, p) && p + RuneAt(s, p).width == i
    decreases |s| - from
  {
    var next := from + RuneAt(s, from).width;
    ReachesForward(s, next, i);
    if next == i {
      p := from;
    } else {
      p := PreviousStart(s, next, i);
    }
  }

  /** A byte that does not continue a rune starts one. */
  lemma {:induction false} ReachesUnlessContinues(s: Bytes, from: nat, i: nat)
    requires from <= i < |s|
    ensures Reaches(s, from, i) || Continues(s, i)
    decreases |s| - from
  {
    if from < i {
      var next := from + RuneAt(s, from).width;
      if next <= i {
        ReachesUnlessContinues(s, next, i);
      }
    }
  }

  // ---- trimming ----------------------------------------------------------------

  function TrimLeft(s: Bytes): Bytes {
    if SpaceAt(s, 0) then TrimLeft(s[SpaceWidth(s, 0)..]) else s
  }

  lemma {:induction false} TrimLeftStops(s: Bytes)
    ensures !SpaceAt(TrimLeft(s), 0)
  {
    if SpaceAt(s, 0) {
      TrimLeftStops(s[SpaceWidth(s, 0)..]);
    }
  }

  /** The least width, from `width` on, of a whitespace rune that ends the text. */
  function LastSpaceFrom(s: Bytes, width: nat): (found: nat)
    requires 0 < width
    ensures found <= |s|
    ensures found > 0 ==> SpaceWidth(s, |s| - found) == found
    decreases |s| - width
  {
    if width > |s| then 0
    else if SpaceWidth(s, |s| - width) == width then width
    else LastSpaceFrom(s, width + 1)
  }

  /** The width of the whitespace rune that ends the text, zero if it does not end with one. */
  function LastSpace(s: Bytes): nat {
    LastSpaceFrom(s, 1)
  }

  lemma {:induction false} EndsWithSpace(s: Bytes, from: nat, width: nat)
    requires 0 < from <= width <= |s| && SpaceWidth(s, |s| - width) == width
    ensures LastSpaceFrom(s, from) > 0
    decreases |s| - from
  {
    if from < width {
      EndsWithSpace(s, from + 1, width);
    }
  }

  function TrimRight(s: Bytes): Bytes {
    if LastSpace(s) > 0 then TrimRight(s[..|s| - LastSpace(s)]) else s
  }

  lemma {:induction false} TrimRightStops(s: Bytes)
    ensures LastSpace(TrimRight(s)) == 0 && TrimRight(s) <= s
  {
    if LastSpace(s) > 0 {
      TrimRightStops(s[..|s| - LastSpace(s)]);
    }
  }

  function TrimSpace(s: Bytes): Bytes {
    TrimRight(TrimLeft(s))
  }

  /** Nothing but whitespace runes. */
  predicate AllSpace(s: Bytes) {
    s == [] || (SpaceAt(s, 0) && AllSpace(s[SpaceWidth(s, 0)..]))
  }

  /** The text is whitespace, then `r`, then whitespace, and `r` neither starts nor ends with whitespace. */
  ghost predicate Trimmed(s: Bytes, r: Bytes) {
    && (exists lead: Bytes, tail: Bytes | AllSpace(lead) && AllSpace(tail) :: s == lead + r + tail)
    && !SpaceAt(r, 0) && LastSpace(r) == 0
  }

  /** An encoded whitespace rune is determined by its own bytes. */
  lemma SpaceLocal(s: Bytes, t: Bytes, i: nat, j: nat)
    requires SpaceAt(s, i) && j + SpaceWidth(s, i) <= |t| && s[i..i + SpaceWidth(s, i)] == t[j..j + SpaceWidth(s, i)]
    ensures SpaceWidth(t, j) == SpaceWidth(s, i)
  {
    var width := SpaceWidth(s, i);
    var run := s[i..i + width];
    assert run[0] == s[i] && run[0] == t[j..j + width][0];
    if width >= 2 {
      assert run[1] == s[i + 1] && run[1] == t[j..j + width][1];
    }
    if width >= 3 {
      assert run[2] == s[i + 2] && run[2] == t[j..j + width][2];
    }
  }

  lemma AllSpaceCons(first: Bytes, rest: Bytes)
    requires first != [] && SpaceWidth(first, 0) == |first| && AllSpace(rest)
    ensures AllSpace(first + rest)
  {
    var s := first + rest;
    assert first[0..0 + |first|] == s[0..0 + |first|];
    SpaceLocal(first, s, 0, 0);
    assert s[|first|..] == rest;
  }

  lemma Regroup(whole: Bytes, first: Bytes, second: Bytes, third: Bytes)
    requires whole == first + (second + third)
    ensures whole == first + second + third
  {
  }

  lemma FirstSpace(s: Bytes)
    requires SpaceAt(s, 0)
    ensures var first := s[..SpaceWidth(s, 0)]; SpaceWidth(first, 0) == |first|
  {
    var width := SpaceWidth(s, 0);
    var first := s[..width];
    assert s[0..0 + width] == first[0..0 + width];
    SpaceLocal(s, first, 0, 0);
  }

  lemma {:induction false} TrimLeftMeaning(s: Bytes) returns (lead: Bytes)
    ensures AllSpace(lead) && s == lead + TrimLeft(s)
    decreases |s|
  {
    if SpaceAt(s, 0) {
      var width := SpaceWidth(s, 0);
      var rest := TrimLeftMeaning(s[width..]);
      var first := s[..width];
      FirstSpace(s);
      AllSpaceCons(first, rest);
      lead := first + rest;
      Regroup(s, first, rest, TrimLeft(s));
    } else {
      lead := [];
    }
  }

  lemma LastRuneSpace(s: Bytes)
    requires LastSpace(s) > 0
    ensures var last := s[|s| - LastSpace(s)..]; SpaceWidth(last, 0) == |last|
  {
    var width := LastSpace(s);
    var last := s[|s| - width..];
    assert s[|s| - width..|s| - width + width] == last[0..0 + width];
    SpaceLocal(s, last, |s| - width, 0);
  }

  lemma Moved(whole: Bytes, init: Bytes, last: Bytes, s: Bytes, tail: Bytes)
    requires whole == s + tail && s == init + last
    ensures whole == init + (last + tail)
  {
  }

  lemma {:induction false} TrimRightMeaning(s: Bytes, tail: Bytes, whole: Bytes) returns (more: Bytes)
    requires AllSpace(tail) && whole == s + tail
    ensures AllSpace(more) && whole == TrimRight(s) + more
    decreases |s|
  {
    var width := LastSpace(s);
    if width > 0 {
      LastRuneSpace(s);
      AllSpaceCons(s[|s| - width..], tail);
      Moved(whole, s[..|s| - width], s[|s| - width..], s, tail);
      more := TrimRightMeaning(s[..|s| - width], s[|s| - width..] + tail, whole);
    } else {
      more := tail;
    }
  }

  lemma SpaceOfPrefix(s: Bytes, t: Bytes)
    requires SpaceAt(s, 0) && s <= t
    ensures SpaceAt(t, 0)
  {
    var width := SpaceWidth(s, 0);
    assert s[0..0 + width] == t[0..0 + width];
    SpaceLocal(s, t, 0, 0);
  }

  lemma TrimSpaceMeaning(s: Bytes)
    ensures Trimmed(s, TrimSpace(s))
  {
    var lead := TrimLeftMeaning(s);
    var inner := TrimLeft(s);
    assert inner + [] == inner;
    var tail := TrimRightMeaning(inner, [], inner);
    var r := TrimSpace(s);
    TrimLeftStops(s);
    TrimRightStops(inner);
    Regroup(s, lead, r, tail);
    if SpaceAt(r, 0) {
      SpaceOfPrefix(r, inner);
    }
  }

  // ---- ASCII -------------------------------------------------------------------

  predicate Ascii(s: Bytes) {
    forall i | 0 <= i < |s| :: s[i] < 0x80
  }

  lemma {:induction false} AsciiStarts(s: Bytes, from: nat, i: nat)
    requires Ascii(s) && from <= i <= |s|
    ensures Reaches(s, from, i)
    decreases |s| - from
  {
    if from < i {
      assert RuneAt(s, from).width == 1;
      AsciiStarts(s, from + 1, i);
    }
  }

  function Spaces(n: nat): Bytes {
    seq(n, _ => 32)
  }

  /** ASCII text without whitespace at either end. */
  predicate Plain(s: Bytes) {
    Ascii(s) && (s == [] || (!Blank(s[0]) && !Blank(s[|s| - 1])))
  }

  lemma {:induction false} TrimLeftSpaces(n: nat, s: Bytes)
    requires !SpaceAt(s, 0)
    ensures TrimLeft(Spaces(n) + s) == s
  {
    var t := Spaces(n) + s;
    if n == 0 {
      assert t == s;
    } else {
      assert t[0] == 32;
      assert t[1..] == Spaces(n - 1) + s;
      TrimLeftSpaces(n - 1, s);
    }
  }

  lemma LastIsSpace(s: Bytes)
    requires s != [] && s[|s| - 1] == 32
    ensures LastSpace(s) == 1
  {
  }

  lemma {:induction false} TrimRightSpaces(n: nat, s: Bytes)
    requires LastSpace(s) == 0
    ensures TrimRight(s + Spaces(n)) == s
  {
    var t := s + Spaces(n);
    if n == 0 {
      assert t == s;
    } else {
      LastIsSpace(t);
      assert t[..|t| - 1] == s + Spaces(n - 1);
      TrimRightSpaces(n - 1, s);
    }
  }

  lemma {:induction false} TrimBlanks(n: nat)
    ensures TrimLeft(Spaces(n)) == []
  {
    assert Spaces(n) + [] == Spaces(n);
    TrimLeftSpaces(n, []);
  }

  /** Trimming removes exactly the spaces put around a text. */
  lemma TrimPadded(before: nat, s: Bytes, after: nat)
    requires Plain(s)
    ensures TrimSpace(Spaces(before) + s + Spaces(after)) == s
  {
    if s == [] {
      assert Spaces(before) + s + Spaces(after) == Spaces(before + after);
      TrimBlanks(before + after);
      assert TrimRight([]) == [];
    } else {
      var inner := s + Spaces(after);
      assert inner[0] == s[0];
      assert Spaces(before) + s + Spaces(after) == Spaces(before) + inner;
      TrimLeftSpaces(before, inner);
      PlainEnd(s);
      TrimRightSpaces(after, s);
    }
  }

  lemma {:induction false} NoLastSpace(s: Bytes, width: nat)
    requires Ascii(s) && 0 < width && (width == 1 && s != [] ==> !Blank(s[|s| - 1]))
    ensures LastSpaceFrom(s, width) == 0
    decreases |s| - width
  {
    if width <= |s| {
      NoLastSpace(s, width + 1);
    }
  }

  lemma PlainEnd(s: Bytes)
    requires Plain(s)
    ensures LastSpace(s) == 0
  {
    NoLastSpace(s, 1);
  }
}
