/** Reading a table whose columns are separated by runs of spaces: the header decides where every line is cut. */
module SpaceTable {
  import opened Runes

  function IncreaseWithMax(value: int, max: int): (r: int)
    ensures r <= max && (value < max ==> r == value + 1)
  {
    if value + 1 > max then max else value + 1
  }

  function DecreaseWithMin(value: int, min: int): (r: int)
    ensures r >= min && (value > min ==> r == value - 1)
  {
    if value - 1 < min then min else value - 1
  }

  // ---- separators ----------------------------------------------------------------

  ghost predicate Increasing(s: seq<nat>) {
    forall i, j | 0 <= i < j < |s| :: s[i] < s[j]
  }

  /**
   A whitespace rune starts here, the next byte is not whitespace and the previous one is; the ends count as their
   own neighbours.
   */
  predicate Separator(line: Bytes, i: nat) {
    && i < |line| && IsStart(line, i) && SpaceAt(line, i)
    && !IsSpace(line[IncreaseWithMax(i, |line| - 1)])
    && IsSpace(line[DecreaseWithMin(i, 0)])
  }

  /** The separators among the runes from byte `i` on. */
  ghost function SeparatorsFrom(line: Bytes, i: nat): seq<nat>
    decreases |line| - i
  {
    if i >= |line| then []
    else (if Separator(line, i) then [i] else []) + SeparatorsFrom(line, i + RuneAt(line, i).width)
  }

  ghost function SeparatorsOf(line: Bytes): seq<nat> {
    SeparatorsFrom(line, 0)
  }

  lemma SeparatorsFromNext(line: Bytes, i: nat, j: nat)
    requires i < |line| && IsStart(line, i)
    ensures var rest := SeparatorsFrom(line, i + RuneAt(line, i).width);
            && SeparatorsFrom(line, i) == (if Separator(line, i) then [i] + rest else rest)
            && (i < j < i + RuneAt(line, i).width ==> !Separator(line, j))
  {
    NextStart(line, i);
    var rest := SeparatorsFrom(line, i + RuneAt(line, i).width);
    assert [] + rest == rest;
  }

  lemma {:induction false} SeparatorsFromMembers(line: Bytes, i: nat, j: nat)
    requires IsStart(line, i)
    ensures j in SeparatorsFrom(line, i) <==> i <= j && Separator(line, j)
    decreases |line| - i
  {
    if i < |line| {
      NextStart(line, i);
      SeparatorsFromNext(line, i, j);
      SeparatorsFromMembers(line, i + RuneAt(line, i).width, j);
    }
  }

  lemma {:induction false} SeparatorsFromIncrease(line: Bytes, i: nat)
    requires IsStart(line, i)
    ensures Increasing(SeparatorsFrom(line, i))
    decreases |line| - i
  {
    if i < |line| {
      var next := i + RuneAt(line, i).width;
      NextStart(line, i);
      SeparatorsFromNext(line, i, i);
      SeparatorsFromIncrease(line, next);
      forall j | j in SeparatorsFrom(line, next) ensures i < j {
        SeparatorsFromMembers(line, next, j);
      }
      IncreasingCons(i, SeparatorsFrom(line, next));
    }
  }

  lemma IncreasingCons(first: nat, rest: seq<nat>)
    requires Increasing(rest) && forall j | j in rest :: first < j
    ensures Increasing([first] + rest)
  {
    var s := [first] + rest;
    forall i, j | 0 <= i < j < |s| ensures s[i] < s[j] {
      assert s[j] == rest[j - 1] && rest[j - 1] in rest;
    }
  }

  /** The separators are exactly the positions that qualify, in increasing order. */
  lemma SeparatorsMeaning(line: Bytes)
    ensures Increasing(SeparatorsOf(line))
    ensures forall i: nat :: i in SeparatorsOf(line) <==> Separator(line, i)
  {
    SeparatorsFromIncrease(line, 0);
    forall i: nat ensures i in SeparatorsOf(line) <==> Separator(line, i) {
      SeparatorsFromMembers(line, 0, i);
    }
  }

  method GetSeparators(line: Bytes) returns (separators: seq<nat>)
    ensures separators == SeparatorsOf(line)
    ensures Increasing(separators)
  {
    separators := [];
    var index := 0;
    while index < |line|
      invariant 0 <= index <= |line| && IsStart(line, index)
      invariant SeparatorsOf(line) == separators + SeparatorsFrom(line, index)
      decreases |line| - index
    {
      var rune := RuneAt(line, index);
      NextStart(line, index);
      SpaceIsWhitespaceRune(line, index);
      SeparatorsNext(line, index, separators);
      var isCurrentCharSpace := IsSpace(rune.value);
      if !isCurrentCharSpace {
        index := index + rune.width;
        continue;
      }
      var previousIdx := DecreaseWithMin(index, 0);
      var nextIdx := IncreaseWithMax(index, |line| - 1);
      var isNextSpace := IsSpace(line[nextIdx]);
      var wasPrevSpace := IsSpace(line[previousIdx]);
      if isCurrentCharSpace && isNextSpace {
        index := index + rune.width;
        continue;
      }
      if isCurrentCharSpace && !wasPrevSpace && !isNextSpace {
        index := index + rune.width;
        continue;
      }
      separators := separators + [index];
      index := index + rune.width;
    }
    SeparatorsMeaning(line);
  }

  lemma SeparatorsNext(line: Bytes, i: nat, found: seq<nat>)
    requires i < |line| && SeparatorsOf(line) == found + SeparatorsFrom(line, i)
    ensures SeparatorsOf(line)
      == (if Separator(line, i) then found + [i] else found) + SeparatorsFrom(line, i + RuneAt(line, i).width)
  {
    var rest := SeparatorsFrom(line, i + RuneAt(line, i).width);
    Regroup(found, [i], rest);
  }

  lemma Regroup(first: seq<nat>, second: seq<nat>, third: seq<nat>)
    ensures first + (second + third) == first + second + third && first + ([] + third) == first + third
  {
  }

  lemma NextStart(line: Bytes, i: nat)
    requires i < |line| && IsStart(line, i)
    ensures IsStart(line, i + RuneAt(line, i).width)
    ensures forall j | i < j < i + RuneAt(line, i).width :: !IsStart(line, j)
  {
    var next := i + RuneAt(line, i).width;
    ReachesVia(line, 0, i, next);
    forall j | i < j < next ensures !IsStart(line, j) {
      ReachesVia(line, 0, i, j);
      if Reaches(line, next, j) {
        ReachesForward(line, next, j);
      }
    }
  }

  /** The last byte of a gap between columns: a gap is two blanks or more, or leading blanks. */
  predicate GapEnd(line: Bytes, i: nat) {
    i + 1 < |line| && Blank(line[i]) && !Blank(line[i + 1]) && (i == 0 || Blank(line[i - 1]))
  }

  /** On ASCII text the separators are exactly the last blanks of the gaps. */
  lemma AsciiSeparators(line: Bytes, i: nat)
    requires Ascii(line)
    ensures Separator(line, i) <==> GapEnd(line, i)
  {
    if i < |line| {
      AsciiStarts(line, 0, i);
    }
  }

  // ---- gaps between runes ----------------------------------------------------------

  /** A whitespace rune with a whitespace rune, or nothing, before it and another rune after it. */
  ghost predicate RuneGapEnd(line: Bytes, i: nat) {
    && IsStart(line, i) && SpaceAt(line, i)
    && i + RuneAt(line, i).width < |line| && !SpaceAt(line, i + RuneAt(line, i).width)
    && (i == 0 || exists p: nat | IsStart(line, p) && SpaceAt(line, p) :: p + RuneAt(line, p).width == i)
  }

  /** A byte inside a longer rune, or a stray one, that looks like whitespace when read alone. */
  predicate LooksBlank(b: Byte) {
    b == 0x85 || b == 0xA0
  }

  /** The byte is whitespace when read alone. */
  predicate White(b: Byte) {
    Blank(b) || LooksBlank(b)
  }

  /** Nothing, or whitespace, before byte `i`. */
  predicate GapBefore(line: Bytes, i: nat)
    requires i <= |line|
  {
    i == 0 || LastSpace(line[..i]) > 0
  }

  /** Something other than whitespace from byte `i` on. */
  predicate TextFrom(line: Bytes, i: nat) {
    i < |line| && !SpaceAt(line, i)
  }

  lemma RuneBefore(line: Bytes, i: nat)
    requires 0 < i < |line| && IsStart(line, i)
    ensures (exists p: nat | IsStart(line, p) && SpaceAt(line, p) :: p + RuneAt(line, p).width == i) <==>
      LastSpace(line[..i]) > 0
  {
    var before := line[..i];
    forall p: nat | IsStart(line, p) && SpaceAt(line, p) && p + RuneAt(line, p).width == i
      ensures LastSpace(before) > 0
    {
      SpaceIsWhitespaceRune(line, p);
      SpaceInPrefix(line, before, p);
      EndsWithSpace(before, 1, i - p);
    }
    if LastSpace(before) > 0 {
      SpaceBefore(line, before, i - LastSpace(before));
    }
  }

  lemma SpaceInPrefix(line: Bytes, before: Bytes, p: nat)
    requires SpaceAt(line, p) && before == line[..p + SpaceWidth(line, p)]
    ensures SpaceWidth(before, p) == SpaceWidth(line, p)
  {
    assert line[p..p + SpaceWidth(line, p)] == before[p..p + SpaceWidth(line, p)];
    SpaceLocal(line, before, p, p);
  }

  lemma SpaceBefore(line: Bytes, before: Bytes, p: nat)
    requires before <= line && SpaceAt(before, p) && p + SpaceWidth(before, p) == |before|
    ensures IsStart(line, p) && SpaceAt(line, p) && p + RuneAt(line, p).width == |before|
  {
    assert before[p..p + SpaceWidth(before, p)] == line[p..p + SpaceWidth(before, p)];
    SpaceLocal(before, line, p, p);
    SpaceIsWhitespaceRune(line, p);
    ReachesUnlessContinues(line, 0, p);
  }

  lemma RuneGapEndBytes(line: Bytes, i: nat)
    requires IsStart(line, i) && SpaceAt(line, i)
    ensures RuneGapEnd(line, i) <==> GapBefore(line, i) && TextFrom(line, i + SpaceWidth(line, i))
  {
    SpaceIsWhitespaceRune(line, i);
    if 0 < i {
      RuneBefore(line, i);
    }
  }

  /**
   Where a line is cut, by the length of the blank: a blank of two bytes never cuts, one of three bytes does after a
   white byte.
   */
  lemma SeparatorByWidth(line: Bytes, i: nat)
    requires IsStart(line, i) && SpaceAt(line, i)
    ensures Separator(line, i) <==>
      match SpaceWidth(line, i)
      case 1 => i + 1 < |line| && !White(line[i + 1]) && (i == 0 || White(line[i - 1]))
      case 2 => false
      case _ => 0 < i && White(line[i - 1])
  {
  }

  /**
   The bytes around the blank at `i` mislead. A blank of one byte: a stray byte that looks blank opens the next column;
   a longer blank follows; the word before ends in a byte that looks blank; the longer blank before does not. A blank of
   two bytes ends its gap. A blank of three bytes ends its gap after a byte that does not look blank, or does not end it
   after one that does.
   */
  predicate Misread(line: Bytes, i: nat)
    requires SpaceAt(line, i)
  {
    match SpaceWidth(line, i)
    case 1 =>
      || (i + 1 < |line| && LooksBlank(line[i + 1]) && GapBefore(line, i))
      || (i + 1 < |line| && SpaceWidth(line, i + 1) > 1 && (i == 0 || White(line[i - 1])))
      || (0 < i && i + 1 < |line| && LooksBlank(line[i - 1]) && !GapBefore(line, i) && !White(line[i + 1]))
      || (0 < i && !White(line[i - 1]) && GapBefore(line, i) && TextFrom(line, i + 1))
    case 2 => GapBefore(line, i) && TextFrom(line, i + 2)
    case _ => (0 < i && White(line[i - 1])) != (GapBefore(line, i) && TextFrom(line, i + 3))
  }

  lemma BlankBefore(line: Bytes, i: nat)
    requires 0 < i <= |line| && Blank(line[i - 1])
    ensures GapBefore(line, i)
  {
    EndsWithSpace(line[..i], 1, 1);
  }

  lemma SeparatorUnlessMisread(line: Bytes, i: nat)
    requires IsStart(line, i) && SpaceAt(line, i)
    ensures (Separator(line, i) <==> RuneGapEnd(line, i)) <==> !Misread(line, i)
  {
    SeparatorByWidth(line, i);
    RuneGapEndBytes(line, i);
    if 0 < i && Blank(line[i - 1]) {
      BlankBefore(line, i);
    }
  }

  /** In every line the separators are the ends of the gaps if and only if no blank is misread. */
  lemma SeparatorsAreGapEndsIff(line: Bytes)
    ensures (forall i: nat :: Separator(line, i) <==> RuneGapEnd(line, i))
      <==> (forall i: nat | IsStart(line, i) && SpaceAt(line, i) :: !Misread(line, i))
  {
    forall i: nat | IsStart(line, i) && SpaceAt(line, i)
      ensures (Separator(line, i) <==> RuneGapEnd(line, i)) <==> !Misread(line, i)
    {
      SeparatorUnlessMisread(line, i);
    }
    if exists i: nat :: IsStart(line, i) && SpaceAt(line, i) && Misread(line, i) {
      var i: nat :| IsStart(line, i) && SpaceAt(line, i) && Misread(line, i);
      assert !(Separator(line, i) <==> RuneGapEnd(line, i));
    }
  }

  /** The gap "A", space, U+3000, space, "B" is cut in its middle, and not at its end. */
  lemma WideBlankSplitsAGap()
    ensures var line := [65, 32, 0xE3, 0x80, 0x80, 32, 66];
            Separator(line, 2) && !RuneGapEnd(line, 2) && !Separator(line, 5) && RuneGapEnd(line, 5)
  {
    var line: Bytes := [65, 32, 0xE3, 0x80, 0x80, 32, 66];
    assert Reaches(line, 5, 5) && Reaches(line, 2, 5) && Reaches(line, 1, 5) && IsStart(line, 5);
    assert Reaches(line, 2, 2) && Reaches(line, 1, 2) && IsStart(line, 2);
    assert SpaceAt(line, 5) && 2 + RuneAt(line, 2).width == 5;
  }

  /** The name "à B" is cut in two: the second byte of "à" is 0xA0. */
  lemma NonBreakingByteSplitsAName()
    ensures var line := [0xC3, 0xA0, 32, 66]; Separator(line, 2) && !RuneGapEnd(line, 2)
  {
    var line: Bytes := [0xC3, 0xA0, 32, 66];
    assert RuneAt(line, 0).width == 2;
    assert Reaches(line, 2, 2) && IsStart(line, 2);
    forall p: nat | IsStart(line, p) && SpaceAt(line, p) ensures p + RuneAt(line, p).width != 2 {
    }
  }

  // ---- cells -----------------------------------------------------------------------

  function Clip(end: nat, line: Bytes): nat {
    if end > |line| then |line| else end
  }

  /** Where slice `k` starts: at the start of the line or at the separator before it. */
  function SliceStart(line: Bytes, separators: seq<nat>, k: nat): nat
    requires k <= |separators|
  {
    if k == 0 then 0 else Clip(separators[k - 1], line)
  }

  function SliceEnd(line: Bytes, separators: seq<nat>, k: nat): nat
    requires k <= |separators|
  {
    if k == |separators| then |line| else Clip(separators[k], line)
  }

  function Slice(line: Bytes, separators: seq<nat>, k: nat): Bytes
    requires k <= |separators|
  {
    var start, end := SliceStart(line, separators, k), SliceEnd(line, separators, k);
    if start <= end then line[start..end] else []
  }

  /** One cell per separator and one more: the trimmed slices between the separators. */
  function CellsOf(line: Bytes, separators: seq<nat>): (cells: seq<Bytes>)
    ensures |cells| == |separators| + 1
  {
    seq(|separators| + 1, k requires 0 <= k <= |separators| => TrimSpace(Slice(line, separators, k)))
  }

  lemma SliceIs(line: Bytes, separators: seq<nat>, k: nat, start: nat, end: nat)
    requires Increasing(separators) && k <= |separators|
    requires start == SliceStart(line, separators, k) && end == SliceEnd(line, separators, k)
    ensures start <= end <= |line| && line[start..end] == Slice(line, separators, k)
    ensures k < |separators| ==> end == SliceStart(line, separators, k + 1)
  {
  }

  lemma CellAt(line: Bytes, separators: seq<nat>, k: nat)
    requires k <= |separators|
    ensures CellsOf(line, separators)[k] == TrimSpace(Slice(line, separators, k))
  {
  }

  method SplitIntoCells(line: Bytes, separators: seq<nat>) returns (cells: seq<Bytes>)
    requires Increasing(separators)
    ensures cells == CellsOf(line, separators)
  {
    cells := [];
    var start := 0;
    var ends := separators + [|line|];
    for k := 0 to |ends|
      invariant k <= |separators| ==> start == SliceStart(line, separators, k)
      invariant cells == CellsOf(line, separators)[..k]
    {
      var end := ends[k];
      if end > |line| {
        end := |line|;
      }
      SliceIs(line, separators, k, start, end);
      CellAt(line, separators, k);
      var cell := TrimSpace(line[start..end]);
      start := end;
      cells := cells + [cell];
    }
  }

  function Concat(parts: seq<Bytes>): Bytes {
    if parts == [] then [] else Concat(parts[..|parts| - 1]) + parts[|parts| - 1]
  }

  function Slices(line: Bytes, separators: seq<nat>, n: nat): seq<Bytes>
    requires n <= |separators| + 1
  {
    seq(n, k requires 0 <= k < n => Slice(line, separators, k))
  }

  lemma {:induction false} SlicesPrefix(line: Bytes, separators: seq<nat>, n: nat)
    requires n <= |separators| && Increasing(separators)
    ensures Concat(Slices(line, separators, n)) == line[..SliceStart(line, separators, n)]
  {
    var parts := Slices(line, separators, n);
    if n > 0 {
      SlicesPrefix(line, separators, n - 1);
      assert parts[..n - 1] == Slices(line, separators, n - 1);
      assert parts[n - 1] == Slice(line, separators, n - 1);
    }
  }

  /** No part of a line is dropped or taken twice: the slices make up the line. */
  lemma SlicesMakeTheLine(line: Bytes, separators: seq<nat>)
    requires Increasing(separators)
    ensures Concat(Slices(line, separators, |separators| + 1)) == line
  {
    var n := |separators|;
    var parts := Slices(line, separators, n + 1);
    SlicesPrefix(line, separators, n);
    assert parts[..n] == Slices(line, separators, n);
    assert parts[n] == Slice(line, separators, n);
  }

  /** Each cell is its slice without the whitespace around it, so nothing but whitespace is lost. */
  lemma OnlyWhitespaceIsLost(line: Bytes, separators: seq<nat>, k: nat)
    requires k <= |separators|
    ensures Trimmed(Slice(line, separators, k), CellsOf(line, separators)[k])
  {
    CellAt(line, separators, k);
    TrimSpaceMeaning(Slice(line, separators, k));
  }

  // ---- tables ----------------------------------------------------------------------

  const TAB: Byte := 9
  const NEWLINE: Byte := 10
  const CARRIAGE_RETURN: Byte := 13

  datatype Table = Table(headers: seq<Bytes>, rows: seq<seq<Bytes>>)
  datatype TableOutput = TableOutput(table: Table, lines: seq<Bytes>)

  function ReplaceTabsWithSpaces(text: Bytes): (r: Bytes)
    ensures TAB !in r
  {
    if text == [] then [] else (if text[0] == TAB then Spaces(2) else [text[0]]) + ReplaceTabsWithSpaces(text[1..])
  }

  function FirstNewline(text: Bytes): (n: nat)
    ensures n <= |text|
  {
    if text == [] || text[0] == NEWLINE then 0 else 1 + FirstNewline(text[1..])
  }

  lemma {:induction false} FirstNewlineMeaning(text: Bytes)
    ensures var n := FirstNewline(text); NEWLINE !in text[..n] && (n < |text| ==> text[n] == NEWLINE)
  {
    if text != [] && text[0] != NEWLINE {
      FirstNewlineMeaning(text[1..]);
      var n := FirstNewline(text[1..]);
      assert text[..1 + n] == [text[0]] + text[1..][..n];
    }
  }

  function DropCarriageReturn(line: Bytes): Bytes {
    if line != [] && line[|line| - 1] == CARRIAGE_RETURN then line[..|line| - 1] else line
  }

  /** The lines a scanner delivers: without their line ends, and without an empty last line. */
  function ScanLines(text: Bytes): (lines: seq<Bytes>)
    ensures lines == [] <==> text == []
  {
    if text == [] then []
    else
      var n := FirstNewline(text);
      [DropCarriageReturn(text[..n])] + if n < |text| then ScanLines(text[n + 1..]) else []
  }

  lemma {:induction false} LinesHaveNoNewline(text: Bytes)
    ensures forall l | l in ScanLines(text) :: NEWLINE !in l
    decreases |text|
  {
    if text != [] {
      var n := FirstNewline(text);
      FirstNewlineMeaning(text);
      assert forall b | b in DropCarriageReturn(text[..n]) :: b in text[..n];
      if n < |text| {
        LinesHaveNoNewline(text[n + 1..]);
      }
    }
  }

  /** The cells of every line after the first one. */
  function RowsOf(lines: seq<Bytes>, separators: seq<nat>): (rows: seq<seq<Bytes>>)
    requires lines != []
    ensures |rows| == |lines| - 1
  {
    seq(|lines| - 1, k requires 0 <= k < |lines| - 1 => CellsOf(lines[k + 1], separators))
  }

  /** All lines are cut where the first one has its separators. */
  ghost function TableOf(lines: seq<Bytes>): Table {
    if lines == [] then Table([], [])
    else
      Table(CellsOf(lines[0], SeparatorsOf(lines[0])), RowsOf(lines, SeparatorsOf(lines[0])))
  }

  /** Every row has a cell for every header. */
  ghost predicate Rectangular(table: Table) {
    forall row | row in table.rows :: |row| == |table.headers|
  }

  lemma TableIsRectangular(lines: seq<Bytes>)
    ensures Rectangular(TableOf(lines))
  {
  }

  method TableOfLines(scanner: seq<Bytes>) returns (out: TableOutput)
    ensures out == TableOutput(TableOf(scanner), scanner)
  {
    var lines: seq<Bytes>, headers: seq<Bytes>, rows: seq<seq<Bytes>>, separators: seq<nat> := [], [], [], [];
    if scanner != [] {
      var line := scanner[0];
      separators := GetSeparators(line);
      lines := lines + [line];
      headers := SplitIntoCells(line, separators);
    }
    while |lines| < |scanner|
      invariant |lines| <= |scanner| && lines == scanner[..|lines|]
      invariant Increasing(separators)
      invariant scanner == [] ==> headers == [] && rows == []
      invariant scanner != [] ==> lines != [] && separators == SeparatorsOf(scanner[0])
      invariant scanner != [] ==>
        headers == CellsOf(scanner[0], separators) && rows == RowsOf(scanner, separators)[..|lines| - 1]
      decreases |scanner| - |lines|
    {
      var line := scanner[|lines|];
      var row := SplitIntoCells(line, separators);
      assert RowsOf(scanner, separators)[|lines| - 1] == row;
      lines := lines + [line];
      rows := rows + [row];
    }
    assert lines == scanner;
    out := TableOutput(Table(headers, rows), lines);
  }

  /** The text is cut into lines, the first line into headers, and every other line where the headers are. */
  method TableSeparated(input: Bytes) returns (out: TableOutput)
    ensures out.lines == ScanLines(TrimSpace(ReplaceTabsWithSpaces(input)))
    ensures out.table == TableOf(out.lines) && Rectangular(out.table)
  {
    out := TableOfLines(ScanLines(TrimSpace(ReplaceTabsWithSpaces(input))));
    TableIsRectangular(out.lines);
  }
}
