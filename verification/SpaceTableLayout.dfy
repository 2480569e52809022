/** What reading a table promises: lines laid out in columns are read back cell by cell. */
module SpaceTableLayout {
  import opened Runes
  import opened SpaceTable

  /** Where column `k` starts. */
  function Start(widths: seq<nat>, k: nat): nat
    requires k <= |widths|
  {
    if k == 0 then 0 else Start(widths, k - 1) + widths[k - 1]
  }

  /** Where column `k` ends in the line; the last one ends with the line. */
  function End(line: Bytes, widths: seq<nat>, k: nat): nat
    requires k <= |widths|
  {
    if k == |widths| then |line| else Clip(Start(widths, k + 1), line)
  }

  predicate OnlySpaces(line: Bytes, from: nat, to: nat)
    requires to <= |line|
  {
    forall i | from <= i < to :: line[i] == 32
  }

  /**
   The cell stands at the start of its column, narrower than the column, and is followed by spaces; trailing spaces
   are optional.
   */
  predicate CellIn(line: Bytes, c: Bytes, widths: seq<nat>, k: nat)
    requires k <= |widths|
  {
    && Plain(c)
    && (k < |widths| ==> |c| < widths[k])
    && (c != [] ==> Start(widths, k) + |c| <= |line| && line[Start(widths, k)..Start(widths, k) + |c|] == c)
    && OnlySpaces(line, Start(widths, k) + |c|, End(line, widths, k))
  }

  predicate Columns(line: Bytes, cells: seq<Bytes>, widths: seq<nat>, n: nat)
    requires n <= |cells| <= |widths| + 1
  {
    n == 0 || (CellIn(line, cells[n - 1], widths, n - 1) && Columns(line, cells, widths, n - 1))
  }

  /** The cells are laid out in columns of these widths; the last column has none. */
  predicate LaidOut(line: Bytes, cells: seq<Bytes>, widths: seq<nat>) {
    |cells| == |widths| + 1 && Columns(line, cells, widths, |cells|)
  }

  /** No two blanks in a row. */
  ghost predicate GapFree(c: Bytes) {
    forall i, j | 0 <= i < j < |c| && j == i + 1 :: !(Blank(c[i]) && Blank(c[j]))
  }

  /** A column name may have several words but no gap inside, and it is followed by two spaces at least. */
  ghost predicate Header(c: Bytes, widths: seq<nat>, k: nat)
    requires k <= |widths|
  {
    c != [] && GapFree(c) && (k < |widths| ==> |c| + 2 <= widths[k])
  }

  ghost predicate Headers(cells: seq<Bytes>, widths: seq<nat>, n: nat)
    requires n <= |cells| <= |widths| + 1
  {
    n == 0 || (Header(cells[n - 1], widths, n - 1) && Headers(cells, widths, n - 1))
  }

  lemma {:induction false} ColumnAt(line: Bytes, cells: seq<Bytes>, widths: seq<nat>, n: nat, k: nat)
    requires k < n <= |cells| <= |widths| + 1 && Columns(line, cells, widths, n)
    ensures CellIn(line, cells[k], widths, k)
  {
    if k < n - 1 {
      ColumnAt(line, cells, widths, n - 1, k);
    }
  }

  lemma {:induction false} HeaderAt(cells: seq<Bytes>, widths: seq<nat>, n: nat, k: nat)
    requires k < n <= |cells| <= |widths| + 1 && Headers(cells, widths, n)
    ensures Header(cells[k], widths, k)
  {
    if k < n - 1 {
      HeaderAt(cells, widths, n - 1, k);
    }
  }

  /** The column a position lies in. */
  lemma {:induction false} FindColumn(widths: seq<nat>, i: nat, n: nat) returns (k: nat)
    requires n <= |widths| && (n < |widths| ==> i < Start(widths, n + 1))
    ensures k <= n && Start(widths, k) <= i && (k < |widths| ==> i < Start(widths, k + 1))
  {
    if Start(widths, n) <= i {
      k := n;
    } else {
      k := FindColumn(widths, i, n - 1);
    }
  }

  lemma CellByte(line: Bytes, c: Bytes, widths: seq<nat>, k: nat, j: nat)
    requires k <= |widths| && CellIn(line, c, widths, k) && j < |c|
    ensures Start(widths, k) + j < |line| && line[Start(widths, k) + j] == c[j]
  {
    assert line[Start(widths, k)..Start(widths, k) + |c|][j] == c[j];
  }

  lemma ColumnIsAscii(line: Bytes, c: Bytes, widths: seq<nat>, k: nat, i: nat)
    requires k <= |widths| && CellIn(line, c, widths, k) && Start(widths, k) <= i < End(line, widths, k)
    ensures line[i] < 0x80
  {
    if i < Start(widths, k) + |c| {
      CellByte(line, c, widths, k, i - Start(widths, k));
    }
  }

  lemma LaidOutIsAscii(line: Bytes, cells: seq<Bytes>, widths: seq<nat>)
    requires LaidOut(line, cells, widths)
    ensures Ascii(line)
  {
    forall i | 0 <= i < |line| ensures line[i] < 0x80 {
      var k := FindColumn(widths, i, |widths|);
      ColumnAt(line, cells, widths, |cells|, k);
      ColumnIsAscii(line, cells[k], widths, k, i);
    }
  }

  /** The last position before a column, where a line is cut. */
  ghost predicate ColumnEdge(widths: seq<nat>, i: nat) {
    exists k: nat | 0 < k <= |widths| :: i + 1 == Start(widths, k)
  }

  lemma GapBeforeColumn(line: Bytes, cells: seq<Bytes>, widths: seq<nat>, k: nat)
    requires LaidOut(line, cells, widths) && Headers(cells, widths, |cells|) && 0 < k <= |widths|
    ensures Start(widths, k) >= 1 && GapEnd(line, Start(widths, k) - 1)
  {
    ColumnAt(line, cells, widths, |cells|, k - 1);
    ColumnAt(line, cells, widths, |cells|, k);
    HeaderAt(cells, widths, |cells|, k - 1);
    HeaderAt(cells, widths, |cells|, k);
    CellByte(line, cells[k], widths, k, 0);
  }

  /** Inside a header's column every blank before another byte is the only one of its gap. */
  lemma NoGapInColumn(line: Bytes, c: Bytes, widths: seq<nat>, k: nat, i: nat)
    requires k <= |widths| && CellIn(line, c, widths, k) && Header(c, widths, k)
    requires Start(widths, k) <= i && i + 1 < End(line, widths, k)
    ensures !GapEnd(line, i)
  {
    var j := i - Start(widths, k);
    if j + 1 < |c| {
      CellByte(line, c, widths, k, j);
      CellByte(line, c, widths, k, j + 1);
      if j > 0 {
        CellByte(line, c, widths, k, j - 1);
      }
    }
  }

  lemma GapIsBeforeColumn(line: Bytes, cells: seq<Bytes>, widths: seq<nat>, i: nat)
    requires LaidOut(line, cells, widths) && Headers(cells, widths, |cells|) && GapEnd(line, i)
    ensures ColumnEdge(widths, i)
  {
    var k := FindColumn(widths, i, |widths|);
    ColumnAt(line, cells, widths, |cells|, k);
    HeaderAt(cells, widths, |cells|, k);
    if i + 1 < End(line, widths, k) {
      NoGapInColumn(line, cells[k], widths, k, i);
    }
    assert i + 1 == Start(widths, k + 1);
  }

  lemma GapsOfHeader(line: Bytes, cells: seq<Bytes>, widths: seq<nat>, i: nat)
    requires LaidOut(line, cells, widths) && Headers(cells, widths, |cells|)
    ensures GapEnd(line, i) <==> ColumnEdge(widths, i)
  {
    if GapEnd(line, i) {
      GapIsBeforeColumn(line, cells, widths, i);
    } else if ColumnEdge(widths, i) {
      var k: nat :| 0 < k <= |widths| && i + 1 == Start(widths, k);
      GapBeforeColumn(line, cells, widths, k);
    }
  }

  /** A line is cut right before every column but the first. */
  ghost predicate CutsColumns(separators: seq<nat>, widths: seq<nat>) {
    |separators| == |widths| && forall k | 0 <= k < |separators| :: separators[k] + 1 == Start(widths, k + 1)
  }

  ghost predicate Edges(separators: seq<nat>, widths: seq<nat>) {
    && Increasing(separators)
    && (forall i: nat :: i in separators <==> ColumnEdge(widths, i))
    && (forall k | 0 <= k < |widths| :: widths[k] > 0)
  }

  /** The separators of a header line are the last positions before the columns. */
  lemma HeaderSeparators(line: Bytes, cells: seq<Bytes>, widths: seq<nat>)
    requires LaidOut(line, cells, widths) && Headers(cells, widths, |cells|)
    ensures CutsColumns(SeparatorsOf(line), widths)
  {
    HeaderEdges(line, cells, widths);
    InOrder(SeparatorsOf(line), widths, 0);
  }

  lemma HeaderEdges(line: Bytes, cells: seq<Bytes>, widths: seq<nat>)
    requires LaidOut(line, cells, widths) && Headers(cells, widths, |cells|)
    ensures Edges(SeparatorsOf(line), widths)
  {
    SeparatorsMeaning(line);
    LaidOutIsAscii(line, cells, widths);
    forall i: nat ensures i in SeparatorsOf(line) <==> ColumnEdge(widths, i) {
      GapsOfHeader(line, cells, widths, i);
      AsciiSeparators(line, i);
    }
    forall k | 0 <= k < |widths| ensures widths[k] > 0 {
      ColumnAt(line, cells, widths, |cells|, k);
    }
  }

  ghost predicate Matched(separators: seq<nat>, widths: seq<nat>, n: nat) {
    n <= |separators| && n <= |widths| && forall k | 0 <= k < n :: separators[k] + 1 == Start(widths, k + 1)
  }

  lemma {:induction false} StartGrows(widths: seq<nat>, j: nat, k: nat)
    requires j < k <= |widths|
    ensures Start(widths, j) + widths[j] <= Start(widths, k)
    decreases k
  {
    if j < k - 1 {
      StartGrows(widths, j, k - 1);
    }
  }

  /** Two increasing sequences with the same elements are equal, position by position. */
  lemma {:induction false} InOrder(separators: seq<nat>, widths: seq<nat>, n: nat)
    requires Edges(separators, widths) && Matched(separators, widths, n)
    ensures CutsColumns(separators, widths)
    decreases |widths| - n
  {
    if n < |separators| {
      var k := ColumnOf(separators, widths, n);
    }
    if n < |widths| {
      NextMatches(separators, widths, n);
      InOrder(separators, widths, n + 1);
    }
  }

  lemma ColumnOf(separators: seq<nat>, widths: seq<nat>, n: nat) returns (k: nat)
    requires Edges(separators, widths) && Matched(separators, widths, n) && n < |separators|
    ensures n < k <= |widths| && separators[n] + 1 == Start(widths, k)
  {
    assert separators[n] in separators;
    k :| 0 < k <= |widths| && separators[n] + 1 == Start(widths, k);
    var last := if k <= |separators| then separators[k - 1] else separators[n];
    assert last == separators[n] || k != n + 1;
  }

  lemma NextMatches(separators: seq<nat>, widths: seq<nat>, n: nat)
    requires Edges(separators, widths) && Matched(separators, widths, n) && n < |widths|
    ensures Matched(separators, widths, n + 1)
  {
    var i := Start(widths, n + 1) - 1;
    assert ColumnEdge(widths, i);
    var m: nat :| m < |separators| && separators[m] == i;
    if m < n {
      StartGrows(widths, m + 1, n + 1);
    }
    var k := ColumnOf(separators, widths, n);
    if n + 1 < k {
      StartGrows(widths, n + 1, k);
    }
  }

  /** A cell with only spaces around it is what trimming leaves. */
  lemma AroundCell(line: Bytes, lo: nat, s: nat, c: Bytes, hi: nat)
    requires lo <= s && s + |c| <= hi <= |line| && line[s..s + |c|] == c && Plain(c)
    requires OnlySpaces(line, lo, s) && OnlySpaces(line, s + |c|, hi)
    ensures TrimSpace(line[lo..hi]) == c
  {
    var e := s + |c|;
    SpacesAre(line, lo, s);
    SpacesAre(line, e, hi);
    assert line[lo..hi] == line[lo..s] + line[s..e] + line[e..hi];
    TrimPadded(s - lo, c, hi - e);
  }

  lemma SpacesAre(line: Bytes, from: nat, to: nat)
    requires from <= to <= |line| && OnlySpaces(line, from, to)
    ensures line[from..to] == Spaces(to - from)
  {
    forall i | 0 <= i < to - from ensures line[from..to][i] == 32 {
      assert line[from..to][i] == line[from + i];
    }
  }

  /** The slice of a column starts with the last space of the column before. */
  lemma SliceBounds(line: Bytes, cells: seq<Bytes>, widths: seq<nat>, separators: seq<nat>, k: nat)
    requires LaidOut(line, cells, widths) && CutsColumns(separators, widths) && k <= |widths|
    ensures var lo, hi := SliceStart(line, separators, k), SliceEnd(line, separators, k);
            && lo <= hi && (lo < Start(widths, k) ==> OnlySpaces(line, lo, Clip(Start(widths, k), line)))
            && (k == 0 || lo == Clip(Start(widths, k) - 1, line))
            && OnlySpaces(line, Start(widths, k) + |cells[k]|, hi)
            && (cells[k] != [] ==> lo <= Start(widths, k) && Start(widths, k) + |cells[k]| <= hi)
  {
    ColumnAt(line, cells, widths, |cells|, k);
    if k > 0 {
      ColumnAt(line, cells, widths, |cells|, k - 1);
      assert separators[k - 1] + 1 == Start(widths, k);
      assert Start(widths, k) == Start(widths, k - 1) + widths[k - 1];
    }
    if k < |widths| {
      assert separators[k] + 1 == Start(widths, k + 1);
    }
  }

  lemma SliceOfCell(line: Bytes, cells: seq<Bytes>, widths: seq<nat>, separators: seq<nat>, k: nat)
    requires LaidOut(line, cells, widths) && CutsColumns(separators, widths) && k <= |widths|
    ensures TrimSpace(Slice(line, separators, k)) == cells[k]
  {
    var lo, hi, s, c := SliceStart(line, separators, k), SliceEnd(line, separators, k), Start(widths, k), cells[k];
    SliceBounds(line, cells, widths, separators, k);
    ColumnAt(line, cells, widths, |cells|, k);
    AroundCell(line, lo, if c != [] then s else lo, c, hi);
  }

  lemma LineReadsBack(line: Bytes, cells: seq<Bytes>, widths: seq<nat>, separators: seq<nat>)
    requires LaidOut(line, cells, widths) && CutsColumns(separators, widths)
    ensures CellsOf(line, separators) == cells
  {
    forall k | 0 <= k < |cells| ensures CellsOf(line, separators)[k] == cells[k] {
      CellAt(line, separators, k);
      SliceOfCell(line, cells, widths, separators, k);
    }
  }

  /** Every line is laid out in the columns of the header. */
  ghost predicate TableLaidOut(lines: seq<Bytes>, table: Table, widths: seq<nat>) {
    && |lines| == |table.rows| + 1
    && LaidOut(lines[0], table.headers, widths) && Headers(table.headers, widths, |table.headers|)
    && forall k | 0 <= k < |table.rows| :: LaidOut(lines[k + 1], table.rows[k], widths)
  }

  /**
   Reading a table that was laid out in columns gives the table back, with column names of several words kept whole.
   */
  lemma TableReadsBack(lines: seq<Bytes>, table: Table, widths: seq<nat>)
    requires TableLaidOut(lines, table, widths)
    ensures TableOf(lines) == table
  {
    var separators := SeparatorsOf(lines[0]);
    HeaderSeparators(lines[0], table.headers, widths);
    LineReadsBack(lines[0], table.headers, widths, separators);
    forall k | 0 <= k < |table.rows| ensures TableOf(lines).rows[k] == table.rows[k] {
      LineReadsBack(lines[k + 1], table.rows[k], widths, separators);
    }
  }
}
