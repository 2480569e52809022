/** Reading back a table from the text it was printed as: through tabs, trimming and scanning. */
module SpaceTableText {
  import opened Runes
  import opened SpaceTable
  import opened SpaceTableLayout

  function JoinLines(lines: seq<Bytes>): Bytes
    requires lines != []
  {
    if |lines| == 1 then lines[0] else lines[0] + [NEWLINE] + JoinLines(lines[1..])
  }

  function Untabbed(lines: seq<Bytes>): (r: seq<Bytes>)
    ensures |r| == |lines|
  {
    seq(|lines|, i requires 0 <= i < |lines| => ReplaceTabsWithSpaces(lines[i]))
  }

  predicate AllBlank(s: Bytes) {
    forall i | 0 <= i < |s| :: Blank(s[i])
  }

  /** The line can be scanned as one line. */
  predicate OneLine(line: Bytes) {
    NEWLINE !in line && CARRIAGE_RETURN !in line
  }

  // ---- tabs ----------------------------------------------------------------------------

  lemma {:induction false} TabsConcat(a: Bytes, b: Bytes)
    ensures ReplaceTabsWithSpaces(a + b) == ReplaceTabsWithSpaces(a) + ReplaceTabsWithSpaces(b)
  {
    if a == [] {
      assert a + b == b;
    } else {
      assert (a + b)[0] == a[0] && (a + b)[1..] == a[1..] + b;
      TabsConcat(a[1..], b);
    }
  }

  lemma {:induction false} NoTabs(a: Bytes)
    requires 9 !in a
    ensures ReplaceTabsWithSpaces(a) == a
  {
    if a != [] {
      assert a[0] in a && forall x | x in a[1..] :: x in a;
      NoTabs(a[1..]);
    }
  }

  /** Each tab becomes two spaces, and nothing else changes. */
  lemma TabsMeaning(a: Bytes, b: Bytes)
    requires 9 !in a
    ensures ReplaceTabsWithSpaces(a) == a
    ensures ReplaceTabsWithSpaces(a + [9] + b) == a + [32, 32] + ReplaceTabsWithSpaces(b)
  {
    NoTabs(a);
    TabsConcat(a + [9], b);
    TabsConcat(a, [9]);
    OneTab();
  }

  lemma OneTab()
    ensures ReplaceTabsWithSpaces([9]) == [32, 32]
  {
    assert [9][1..] == [];
    assert ReplaceTabsWithSpaces([9]) == Spaces(2) + [];
  }

  lemma {:induction false} TabsKeep(s: Bytes)
    ensures AllBlank(s) ==> AllBlank(ReplaceTabsWithSpaces(s))
    ensures OneLine(s) ==> OneLine(ReplaceTabsWithSpaces(s))
  {
    if s != [] {
      assert s == [s[0]] + s[1..];
      TabsKeep(s[1..]);
    }
  }

  lemma TabsLine(line: Bytes, rest: Bytes)
    ensures ReplaceTabsWithSpaces(line + [NEWLINE] + rest)
      == ReplaceTabsWithSpaces(line) + [NEWLINE] + ReplaceTabsWithSpaces(rest)
  {
    TabsConcat(line + [NEWLINE], rest);
    TabsConcat(line, [NEWLINE]);
    assert [NEWLINE][1..] == [];
  }

  lemma {:induction false} TabsJoined(lines: seq<Bytes>)
    requires lines != []
    ensures ReplaceTabsWithSpaces(JoinLines(lines)) == JoinLines(Untabbed(lines))
  {
    if |lines| > 1 {
      TabsLine(lines[0], JoinLines(lines[1..]));
      TabsJoined(lines[1..]);
      assert Untabbed(lines)[1..] == Untabbed(lines[1..]);
    }
  }

  // ---- the end of the text ---------------------------------------------------------------

  /** The line up to its last byte that is not blank. */
  function Core(line: Bytes): (core: Bytes)
    ensures core <= line && AllBlank(line[|core|..])
    ensures core != [] ==> !Blank(core[|core| - 1])
  {
    if line == [] || !Blank(line[|line| - 1]) then line
    else
      var core := Core(line[..|line| - 1]);
      assert forall i | |core| <= i < |line| - 1 :: line[i] == line[..|line| - 1][|core|..][i - |core|];
      core
  }

  function WithLast(lines: seq<Bytes>, last: Bytes): seq<Bytes>
    requires lines != []
  {
    lines[..|lines| - 1] + [last]
  }

  lemma {:induction false} JoinWithLast(lines: seq<Bytes>, core: Bytes, blanks: Bytes)
    requires lines != [] && lines[|lines| - 1] == core + blanks
    ensures JoinLines(lines) == JoinLines(WithLast(lines, core)) + blanks
  {
    if |lines| > 1 {
      var rest := lines[1..];
      JoinWithLast(rest, core, blanks);
      assert WithLast(lines, core)[0] == lines[0] && WithLast(lines, core)[1..] == WithLast(rest, core);
      assert JoinLines(lines) == lines[0] + [NEWLINE] + (JoinLines(WithLast(rest, core)) + blanks);
    }
  }

  lemma {:induction false} TrimRightBlanks(s: Bytes, blanks: Bytes)
    requires LastSpace(s) == 0 && AllBlank(blanks)
    ensures TrimRight(s + blanks) == s
    decreases |blanks|
  {
    if blanks == [] {
      assert s + blanks == s;
    } else {
      var t := s + blanks;
      assert Blank(t[|t| - 1]) && LastSpace(t) == 1;
      assert t[..|t| - 1] == s + blanks[..|blanks| - 1];
      TrimRightBlanks(s, blanks[..|blanks| - 1]);
    }
  }

  lemma TrimTail(s: Bytes, blanks: Bytes)
    requires Ascii(s) && s != [] && !Blank(s[0]) && !Blank(s[|s| - 1]) && AllBlank(blanks)
    ensures TrimSpace(s + blanks) == s
  {
    assert (s + blanks)[0] == s[0];
    NoLastSpace(s, 1);
    TrimRightBlanks(s, blanks);
  }

  // ---- lines -----------------------------------------------------------------------------

  lemma {:induction false} FirstNewlineAfter(line: Bytes, rest: Bytes)
    requires NEWLINE !in line && (rest == [] || rest[0] == NEWLINE)
    ensures FirstNewline(line + rest) == |line|
  {
    if line != [] {
      assert (line + rest)[1..] == line[1..] + rest && line[0] in line;
      FirstNewlineAfter(line[1..], rest);
    } else {
      assert line + rest == rest;
    }
  }

  lemma KeepsEnd(line: Bytes)
    requires OneLine(line)
    ensures DropCarriageReturn(line) == line
  {
    assert line != [] ==> line[|line| - 1] in line;
  }

  lemma ScanLast(line: Bytes)
    requires OneLine(line) && line != []
    ensures ScanLines(line) == [line]
  {
    assert line + [] == line;
    FirstNewlineAfter(line, []);
    assert line[..|line|] == line;
    KeepsEnd(line);
  }

  lemma ScanFirst(line: Bytes, rest: Bytes)
    requires OneLine(line)
    ensures ScanLines(line + [NEWLINE] + rest) == [line] + ScanLines(rest)
  {
    var text := line + [NEWLINE] + rest;
    assert text == line + ([NEWLINE] + rest);
    FirstNewlineAfter(line, [NEWLINE] + rest);
    assert text[..|line|] == line && text[|line| + 1..] == rest;
    KeepsEnd(line);
  }

  lemma {:induction false} ScanJoined(lines: seq<Bytes>)
    requires lines != [] && lines[|lines| - 1] != [] && forall i | 0 <= i < |lines| :: OneLine(lines[i])
    ensures ScanLines(JoinLines(lines)) == lines
  {
    if |lines| == 1 {
      ScanLast(lines[0]);
    } else {
      var rest := lines[1..];
      ScanJoined(rest);
      ScanFirst(lines[0], JoinLines(rest));
      assert lines == [lines[0]] + rest;
    }
  }

  lemma {:induction false} JoinedShape(lines: seq<Bytes>)
    requires lines != [] && lines[0] != [] && lines[|lines| - 1] != [] && forall i | 0 <= i < |lines| :: Ascii(lines[i])
    ensures var text := JoinLines(lines);
            && text != [] && text[0] == lines[0][0] && text[|text| - 1] == lines[|lines| - 1][|lines[|lines| - 1]| - 1]
              && Ascii(text)
  {
    if |lines| > 1 {
      JoinedRest(lines[1..]);
    }
  }

  lemma {:induction false} JoinedRest(lines: seq<Bytes>)
    requires lines != [] && lines[|lines| - 1] != [] && forall i | 0 <= i < |lines| :: Ascii(lines[i])
    ensures var text := JoinLines(lines);
            text != [] && text[|text| - 1] == lines[|lines| - 1][|lines[|lines| - 1]| - 1] && Ascii(text)
  {
    if |lines| > 1 {
      JoinedRest(lines[1..]);
    }
  }

  // ---- a laid out line without its trailing blanks ------------------------------------------

  lemma TrailingAreSpaces(line: Bytes, cells: seq<Bytes>, widths: seq<nat>, n: nat, i: nat)
    requires LaidOut(line, cells, widths) && n <= i < |line| && AllBlank(line[n..])
    ensures line[i] == 32
  {
    var k := FindColumn(widths, i, |widths|);
    ColumnAt(line, cells, widths, |cells|, k);
    var c := cells[k];
    if i < Start(widths, k) + |c| {
      CellByte(line, c, widths, k, |c| - 1);
    }
  }

  lemma ShorterCell(line: Bytes, shorter: Bytes, c: Bytes, widths: seq<nat>, k: nat)
    requires k <= |widths| && CellIn(line, c, widths, k) && shorter <= line
    requires forall i | |shorter| <= i < |line| :: line[i] == 32
    ensures CellIn(shorter, c, widths, k)
  {
    if c != [] {
      CellByte(line, c, widths, k, |c| - 1);
      assert shorter[Start(widths, k)..Start(widths, k) + |c|] == line[Start(widths, k)..Start(widths, k) + |c|];
    }
  }

  lemma {:induction false} ShorterColumns(line: Bytes, shorter: Bytes, cells: seq<Bytes>, widths: seq<nat>, n: nat)
    requires n <= |cells| <= |widths| + 1 && Columns(line, cells, widths, n) && shorter <= line
    requires forall i | |shorter| <= i < |line| :: line[i] == 32
    ensures Columns(shorter, cells, widths, n)
  {
    if n > 0 {
      ShorterCell(line, shorter, cells[n - 1], widths, n - 1);
      ShorterColumns(line, shorter, cells, widths, n - 1);
    }
  }

  lemma CoreIsLaidOut(line: Bytes, cells: seq<Bytes>, widths: seq<nat>)
    requires LaidOut(line, cells, widths)
    ensures LaidOut(Core(line), cells, widths)
  {
    var core := Core(line);
    forall i | |core| <= i < |line| ensures line[i] == 32 {
      TrailingAreSpaces(line, cells, widths, |core|, i);
    }
    ShorterColumns(line, core, cells, widths, |cells|);
  }

  /** A line ends at its newline, without one carriage return before it. */
  lemma ScanOneLine(line: Bytes, rest: Bytes)
    requires 10 !in line
    ensures ScanLines(line + [10] + rest)
      == [if line != [] && line[|line| - 1] == 13 then line[..|line| - 1] else line] + ScanLines(rest)
    ensures line != [] ==>
      ScanLines(line) == [if line[|line| - 1] == 13 then line[..|line| - 1] else line]
  {
    var text := line + [10] + rest;
    assert text == line + ([10] + rest);
    FirstNewlineAfter(line, [10] + rest);
    assert text[..|line|] == line && text[|line| + 1..] == rest;
    FirstNewlineAfter(line, []);
    assert line + [] == line && line[..|line|] == line;
  }

  // ---- the round trip ------------------------------------------------------------------------

  /** The text is these lines, then blanks; its last line is not blank. */
  ghost predicate PrintedAs(input: Bytes, raw: seq<Bytes>) {
    && raw != [] && (forall i | 0 <= i < |raw| :: OneLine(raw[i]))
    && Core(ReplaceTabsWithSpaces(raw[|raw| - 1])) != []
    && exists tail: Bytes | AllBlank(tail) :: input == JoinLines(raw) + tail
  }

  lemma UntabbedLines(raw: seq<Bytes>) returns (blanks: Bytes)
    requires raw != []
    ensures AllBlank(blanks)
    ensures var lines := Untabbed(raw);
            ReplaceTabsWithSpaces(JoinLines(raw)) == JoinLines(WithLast(lines, Core(lines[|lines| - 1]))) + blanks
  {
    var lines := Untabbed(raw);
    var last := lines[|lines| - 1];
    var core := Core(last);
    blanks := last[|core|..];
    assert last == core + blanks;
    TabsJoined(raw);
    JoinWithLast(lines, core, blanks);
  }

  lemma BlanksConcat(a: Bytes, b: Bytes)
    requires AllBlank(a) && AllBlank(b)
    ensures AllBlank(a + b)
  {
  }

  lemma UntabbedInput(input: Bytes, raw: seq<Bytes>) returns (blanks: Bytes)
    requires PrintedAs(input, raw)
    ensures AllBlank(blanks)
    ensures var lines := Untabbed(raw);
            ReplaceTabsWithSpaces(input) == JoinLines(WithLast(lines, Core(lines[|lines| - 1]))) + blanks
  {
    var tail: Bytes :| AllBlank(tail) && input == JoinLines(raw) + tail;
    var lines := Untabbed(raw);
    var spaces := UntabbedLines(raw);
    TabsConcat(JoinLines(raw), tail);
    TabsKeep(tail);
    BlanksConcat(spaces, ReplaceTabsWithSpaces(tail));
    blanks := spaces + ReplaceTabsWithSpaces(tail);
    Regroup(ReplaceTabsWithSpaces(input), JoinLines(WithLast(lines, Core(lines[|lines| - 1]))), spaces,
            ReplaceTabsWithSpaces(tail));
  }

  lemma Regroup(whole: Bytes, a: Bytes, b: Bytes, c: Bytes)
    requires whole == a + b + c
    ensures whole == a + (b + c)
  {
  }

  lemma CoreIsOneLine(line: Bytes)
    requires OneLine(line)
    ensures OneLine(Core(line))
  {
    assert forall b | b in Core(line) :: b in line;
  }

  lemma LinesWithCore(lines: seq<Bytes>, table: Table, widths: seq<nat>)
    requires TableLaidOut(lines, table, widths)
    ensures TableLaidOut(WithLast(lines, Core(lines[|lines| - 1])), table, widths)
  {
    var n := |lines| - 1;
    if n == 0 {
      CoreIsLaidOut(lines[0], table.headers, widths);
    } else {
      CoreIsLaidOut(lines[n], table.rows[n - 1], widths);
    }
  }

  lemma HeaderStartsText(lines: seq<Bytes>, table: Table, widths: seq<nat>)
    requires TableLaidOut(lines, table, widths)
    ensures lines[0] != [] && !Blank(lines[0][0]) && forall i | 0 <= i < |lines| :: Ascii(lines[i])
  {
    ColumnAt(lines[0], table.headers, widths, |table.headers|, 0);
    HeaderAt(table.headers, widths, |table.headers|, 0);
    CellByte(lines[0], table.headers[0], widths, 0, 0);
    forall i | 0 <= i < |lines| ensures Ascii(lines[i]) {
      if i == 0 {
        LaidOutIsAscii(lines[0], table.headers, widths);
      } else {
        LaidOutIsAscii(lines[i], table.rows[i - 1], widths);
      }
    }
  }

  lemma CoresAreOneLine(raw: seq<Bytes>)
    requires raw != [] && forall i | 0 <= i < |raw| :: OneLine(raw[i])
    ensures var trimmed := WithLast(Untabbed(raw), Core(Untabbed(raw)[|raw| - 1]));
            forall i | 0 <= i < |trimmed| :: OneLine(trimmed[i])
  {
    var trimmed := WithLast(Untabbed(raw), Core(Untabbed(raw)[|raw| - 1]));
    forall i | 0 <= i < |trimmed| ensures OneLine(trimmed[i]) {
      TabsKeep(raw[i]);
      CoreIsOneLine(ReplaceTabsWithSpaces(raw[i]));
    }
  }

  lemma ScannedLines(input: Bytes, raw: seq<Bytes>, table: Table, widths: seq<nat>)
    requires PrintedAs(input, raw) && TableLaidOut(Untabbed(raw), table, widths)
    ensures var lines := Untabbed(raw);
            ScanLines(TrimSpace(ReplaceTabsWithSpaces(input))) == WithLast(lines, Core(lines[|lines| - 1]))
  {
    var lines := Untabbed(raw);
    var trimmed := WithLast(lines, Core(lines[|lines| - 1]));
    var blanks := UntabbedInput(input, raw);
    LinesWithCore(lines, table, widths);
    HeaderStartsText(trimmed, table, widths);
    JoinedShape(trimmed);
    TrimTail(JoinLines(trimmed), blanks);
    CoresAreOneLine(raw);
    ScanJoined(trimmed);
  }

  /**
   Round trip through the text: when the lines of a printed table, with each tab as two spaces, are laid out in columns,
   reading the text gives the table back. Blanks after the last line do not matter.
   */
  lemma PrintedTableReadsBack(input: Bytes, raw: seq<Bytes>, table: Table, widths: seq<nat>)
    requires PrintedAs(input, raw) && TableLaidOut(Untabbed(raw), table, widths)
    ensures TableOf(ScanLines(TrimSpace(ReplaceTabsWithSpaces(input)))) == table
  {
    var lines := Untabbed(raw);
    ScannedLines(input, raw, table, widths);
    LinesWithCore(lines, table, widths);
    TableReadsBack(WithLast(lines, Core(lines[|lines| - 1])), table, widths);
  }
}
