/** The ordered index of visual rows over logical lines, and the anchors that address it. */
module RowIndex {
  import opened Utf8
  import opened Wrapping
  import opened Highlighting

  /** A logical line under its key. `starts` are offsets in `text`; `origin` is the offset of
      the text in the line as it was before its front was dropped. */
  datatype LogicalLine = LogicalLine(
    id: nat, text: seq<Byte>, origin: nat, starts: seq<nat>, firstRow: Option<nat>, width: nat, colors: seq<ColorRange>)

  datatype RowStart = RowStart(row: nat, id: nat)

  datatype Position = Position(line: nat, byte: nat)

  /** The lines and rows of a transcript, both in the order of their keys. */
  datatype Index = Index(lines: seq<LogicalLine>, rows: seq<RowStart>, nextRow: nat)

  // ---- Queries ----

  function FirstRow(ix: Index): nat {
    if ix.rows == [] then 0 else ix.rows[0].row
  }

  function Minus(a: nat, b: nat): nat {
    if a < b then 0 else a - b
  }

  function RowCount(ix: Index): nat {
    Minus(ix.nextRow, FirstRow(ix))
  }

  /** The last entry that is not behind `row`. */
  function LastAtMost(rows: seq<RowStart>, row: nat): (i: nat)
    requires rows != [] && rows[0].row <= row
    ensures i < |rows| && rows[i].row <= row && (i + 1 < |rows| ==> row < rows[i + 1].row)
  {
    if rows[|rows| - 1].row <= row then |rows| - 1 else LastAtMost(rows[..|rows| - 1], row)
  }

  /** How many leading starts do not lie behind `byte`. */
  function PartitionPoint(starts: seq<nat>, origin: nat, byte: nat): (n: nat)
    ensures n <= |starts| && (forall i :: 0 <= i < n ==> origin + starts[i] <= byte)
    ensures n < |starts| ==> byte < origin + starts[n]
  {
    if starts == [] || byte < origin + starts[0] then 0 else 1 + PartitionPoint(starts[1..], origin, byte)
  }

  /** The first line whose key is not below `id`; the number of lines if there is none. */
  function FirstFrom(lines: seq<LogicalLine>, id: nat): (i: nat)
    ensures i <= |lines| && (forall j :: 0 <= j < i ==> lines[j].id < id)
    ensures i < |lines| ==> id <= lines[i].id
  {
    if lines == [] || id <= lines[0].id then 0 else 1 + FirstFrom(lines[1..], id)
  }

  function RowOf(ix: Index, p: Position): nat {
    var i := FirstFrom(ix.lines, p.line);
    if i < |ix.lines| && ix.lines[i].id == p.line then
      var line := ix.lines[i];
      (if line.firstRow.Some? then line.firstRow.value else ix.nextRow)
      + Minus(PartitionPoint(line.starts, line.origin, p.byte), 1)
    else if i < |ix.lines| && ix.lines[i].firstRow.Some? then ix.lines[i].firstRow.value
    else Minus(ix.nextRow, 1)
  }

  function Max(a: nat, b: nat): nat {
    if a < b then b else a
  }

  function Min(a: nat, b: nat): nat {
    if a < b then a else b
  }

  function PositionAt(ix: Index, row: nat): Option<Position> {
    var row := Min(Max(row, FirstRow(ix)), Minus(ix.nextRow, 1));
    if ix.rows == [] || row < ix.rows[0].row then None
    else
      var entry := ix.rows[LastAtMost(ix.rows, row)];
      var i := FirstFrom(ix.lines, entry.id);
      if i < |ix.lines| && row - entry.row < |ix.lines[i].starts|
      then Some(Position(entry.id, ix.lines[i].origin + ix.lines[i].starts[row - entry.row]))
      else None
  }

  function OffsetOf(ix: Index, p: Position): nat {
    Minus(RowOf(ix, p), FirstRow(ix))
  }

  function AtOffset(ix: Index, offset: nat): Option<Position> {
    PositionAt(ix, FirstRow(ix) + offset)
  }

  // ---- What the index stands for ----

  /** The bytes of row `j` of a line. */
  function RowText(line: LogicalLine, j: nat): seq<Byte>
    requires j < |line.starts|
  {
    var a := line.starts[j];
    var b := RowEnd(line.text, line.starts, j);
    if a <= b <= |line.text| then line.text[a..b] else []
  }

  function LineRows(line: LogicalLine): seq<seq<Byte>> {
    seq(|line.starts|, j requires 0 <= j < |line.starts| => RowText(line, j))
  }

  /** The rows of all lines laid end to end. */
  function AllRows(lines: seq<LogicalLine>): seq<seq<Byte>> {
    if lines == [] then [] else AllRows(lines[..|lines| - 1]) + LineRows(lines[|lines| - 1])
  }

  predicate Consecutive(lines: seq<LogicalLine>) {
    forall i, j :: 0 <= i < j < |lines| ==> lines[j].id == lines[i].id + (j - i)
  }

  /** Entry `i` belongs to line `i`. */
  predicate Indexed(lines: seq<LogicalLine>, rows: seq<RowStart>) {
    && |rows| <= |lines|
    && forall i :: 0 <= i < |lines| ==>
         lines[i].firstRow == (if i < |rows| then Some(rows[i].row) else None)
         && (i < |rows| ==> rows[i].id == lines[i].id)
  }

  predicate RowsAscend(rows: seq<RowStart>) {
    forall i, j :: 0 <= i < j < |rows| ==> rows[i].row < rows[j].row
  }

  /** A line as one wrap from scratch leaves it. */
  predicate Exact(g: Segmenter, line: LogicalLine, width: nat) {
    line.starts == Rows(g, line.text, width) && line.width == width
  }

  /** Where the rows of line `i` end: at the next entry, or at the next row to give away. */
  function RowAfter(rows: seq<RowStart>, nextRow: nat, i: nat): nat
    requires i < |rows|
  {
    if i + 1 < |rows| then rows[i + 1].row else nextRow
  }

  /** The index after a layout: one entry for every line, starts consecutive by row count. */
  predicate LaidOut(g: Segmenter, ix: Index, width: nat) {
    && Consecutive(ix.lines)
    && Indexed(ix.lines, ix.rows) && |ix.rows| == |ix.lines|
    && (forall i :: 0 <= i < |ix.lines| ==> Exact(g, ix.lines[i], width))
    && (forall i :: 0 <= i < |ix.rows| ==> RowAfter(ix.rows, ix.nextRow, i) == ix.rows[i].row + |ix.lines[i].starts|)
    && (ix.rows == [] ==> ix.nextRow == 0)
  }

  lemma {:induction false} LaidRowsAt(g: Segmenter, ix: Index, width: nat, i: nat)
    requires LaidOut(g, ix, width) && i <= |ix.lines| && ix.lines != []
    ensures |AllRows(ix.lines[..i])| == (if i < |ix.lines| then ix.rows[i].row else ix.nextRow) - FirstRow(ix)
    decreases i
  {
    if i > 0 {
      LaidRowsAt(g, ix, width, i - 1);
      assert ix.lines[..i][..i - 1] == ix.lines[..i - 1];
      assert RowAfter(ix.rows, ix.nextRow, i - 1) == ix.rows[i - 1].row + |ix.lines[i - 1].starts|;
    }
  }

  lemma {:induction false} AllRowsAt(lines: seq<LogicalLine>, i: nat, j: nat)
    requires i < |lines| && j < |lines[i].starts|
    ensures |AllRows(lines[..i])| + j < |AllRows(lines)|
    ensures AllRows(lines)[|AllRows(lines[..i])| + j] == RowText(lines[i], j)
  {
    if i == |lines| - 1 {
      assert AllRows(lines) == AllRows(lines[..i]) + LineRows(lines[i]);
    } else {
      AllRowsAt(lines[..|lines| - 1], i, j);
      assert lines[..|lines| - 1][..i] == lines[..i];
    }
  }

  lemma {:induction false} LaidRowsAscend(g: Segmenter, ix: Index, width: nat, i: nat, j: nat)
    requires LaidOut(g, ix, width) && i < j <= |ix.rows|
    ensures ix.rows[i].row + |ix.lines[i].starts| <= RowAfter(ix.rows, ix.nextRow, j - 1)
    ensures ix.rows[i].row < RowAfter(ix.rows, ix.nextRow, j - 1)
    decreases j
  {
    hide LaidOut;
    LaidEntry(g, ix, width, i);
    if i < j - 1 {
      LaidRowsAscend(g, ix, width, i, j - 1);
      LaidEntry(g, ix, width, j - 1);
    }
  }

  lemma LaidEntry(g: Segmenter, ix: Index, width: nat, i: nat)
    requires LaidOut(g, ix, width) && i < |ix.rows|
    ensures |ix.lines| == |ix.rows| && |ix.lines[i].starts| > 0
    ensures RowAfter(ix.rows, ix.nextRow, i) == ix.rows[i].row + |ix.lines[i].starts|
  {
    assert Exact(g, ix.lines[i], width);
    hide Consecutive, Indexed;
  }

  /** The line a retained row belongs to, and its place in that line. */
  lemma RowIsInLine(g: Segmenter, ix: Index, width: nat, row: nat)
    requires LaidOut(g, ix, width) && FirstRow(ix) <= row < ix.nextRow
    ensures ix.rows != [] && ix.rows[0].row <= row
    ensures var i := LastAtMost(ix.rows, row);
            && i < |ix.lines| && row - ix.rows[i].row < |ix.lines[i].starts|
            && ix.rows[i].id == ix.lines[i].id
            && FirstFrom(ix.lines, ix.rows[i].id) == i
  {
    var i := LastAtMost(ix.rows, row);
    assert RowAfter(ix.rows, ix.nextRow, i) == ix.rows[i].row + |ix.lines[i].starts|;
    LineIsFound(ix.lines, i);
  }

  lemma NothingFound(lines: seq<LogicalLine>, id: nat)
    requires forall i :: 0 <= i < |lines| ==> lines[i].id < id
    ensures FirstFrom(lines, id) == |lines|
  {
  }

  /** An anchor whose line has expired resolves to the first row that is left, and one behind all
      lines to the last. */
  lemma ExpiredAnchor(g: Segmenter, ix: Index, width: nat, p: Position)
    requires LaidOut(g, ix, width)
    ensures ix.lines != [] && p.line < ix.lines[0].id ==> RowOf(ix, p) == FirstRow(ix)
    ensures (forall i :: 0 <= i < |ix.lines| ==> ix.lines[i].id < p.line) ==> RowOf(ix, p) == Minus(ix.nextRow, 1)
  {
    if forall i :: 0 <= i < |ix.lines| ==> ix.lines[i].id < p.line {
      NothingFound(ix.lines, p.line);
    }
    hide PartitionPoint, Exact, RowAfter;
  }

  lemma LineIsFound(lines: seq<LogicalLine>, i: nat)
    requires Consecutive(lines) && i < |lines|
    ensures FirstFrom(lines, lines[i].id) == i
  {
    forall k | 0 <= k < i ensures lines[k].id < lines[i].id {
      assert lines[i].id == lines[k].id + (i - k);
    }
  }

  lemma PartitionOfStart(g: Segmenter, line: LogicalLine, width: nat, j: nat)
    requires Exact(g, line, width) && j < |line.starts|
    ensures PartitionPoint(line.starts, line.origin, line.origin + line.starts[j]) == j + 1
  {
    RowsIncreasing(g, line.text, width);
    assert j + 1 < |line.starts| ==> line.starts[j] < line.starts[j + 1];
    assert forall i :: 0 <= i < j ==> line.starts[i] < line.starts[j];
  }

  lemma RowOfLine(ix: Index, i: nat, byte: nat)
    requires Consecutive(ix.lines) && Indexed(ix.lines, ix.rows) && i < |ix.rows|
    ensures RowOf(ix, Position(ix.lines[i].id, byte)) ==
            ix.rows[i].row + Minus(PartitionPoint(ix.lines[i].starts, ix.lines[i].origin, byte), 1)
  {
    LineIsFound(ix.lines, i);
  }

  lemma PositionOfRow(g: Segmenter, ix: Index, width: nat, row: nat)
    requires LaidOut(g, ix, width) && FirstRow(ix) <= row < ix.nextRow
    ensures ix.rows != [] && ix.rows[0].row <= row
    ensures var i := LastAtMost(ix.rows, row);
            && i < |ix.lines| && ix.rows[i].row <= row && row - ix.rows[i].row < |ix.lines[i].starts|
            && PositionAt(ix, row) == Some(Position(ix.lines[i].id, ix.lines[i].origin + ix.lines[i].starts[row - ix.rows[i].row]))
  {
    hide Consecutive, Indexed, Exact, FirstFrom, LastAtMost, LaidOut;
    RowIsInLine(g, ix, width, row);
  }

  lemma LaidLine(g: Segmenter, ix: Index, width: nat, i: nat)
    requires LaidOut(g, ix, width) && i < |ix.lines|
    ensures i < |ix.rows| && Consecutive(ix.lines) && Indexed(ix.lines, ix.rows) && Exact(g, ix.lines[i], width)
    ensures FirstRow(ix) <= ix.rows[i].row
  {
    if i > 0 {
      LaidRowsAscend(g, ix, width, 0, i);
    }
  }

  /** An anchor taken from a retained row leads back to that row. */
  lemma RoundTrip(g: Segmenter, ix: Index, width: nat, row: nat)
    requires LaidOut(g, ix, width) && FirstRow(ix) <= row < ix.nextRow
    ensures PositionAt(ix, row).Some?
    ensures RowOf(ix, PositionAt(ix, row).value) == row
  {
    hide PositionAt, RowOf, Exact;
    PositionOfRow(g, ix, width, row);
    var i := LastAtMost(ix.rows, row);
    PartitionOfStart(g, ix.lines[i], width, row - ix.rows[i].row);
    RowOfLine(ix, i, PositionAt(ix, row).value.byte);
  }

  /** Row `j` of the line shows the byte `at`; behind the end of the text it is the last row. */
  predicate Shows(line: LogicalLine, j: nat, at: nat) {
    && j < |line.starts| && line.starts[j] <= RowEnd(line.text, line.starts, j) <= |line.text|
    && line.starts[j] <= at && (at < RowEnd(line.text, line.starts, j) || j == |line.starts| - 1)
    && RowText(line, j) == line.text[line.starts[j]..RowEnd(line.text, line.starts, j)]
  }

  lemma PartitionShowsByte(g: Segmenter, line: LogicalLine, width: nat, at: nat)
    requires Exact(g, line, width)
    ensures var n := PartitionPoint(line.starts, line.origin, line.origin + at);
            1 <= n <= |line.starts| && Shows(line, n - 1, at)
  {
    RowsIncreasing(g, line.text, width);
    hide Rows;
  }

  /** A byte of a retained line is shown in the row its anchor resolves to. */
  lemma AnchorShowsItsByte(g: Segmenter, ix: Index, width: nat, i: nat, at: nat) returns (j: nat)
    requires LaidOut(g, ix, width) && i < |ix.lines|
    ensures i < |ix.rows| && j < |ix.lines[i].starts| && FirstRow(ix) <= ix.rows[i].row
    ensures RowOf(ix, Position(ix.lines[i].id, ix.lines[i].origin + at)) == ix.rows[i].row + j
    ensures Shows(ix.lines[i], j, at)
    ensures ix.rows[i].row + j - FirstRow(ix) < |AllRows(ix.lines)|
    ensures AllRows(ix.lines)[ix.rows[i].row + j - FirstRow(ix)] == RowText(ix.lines[i], j)
  {
    hide *;
    LaidLine(g, ix, width, i);
    var line := ix.lines[i];
    RowOfLine(ix, i, line.origin + at);
    PartitionShowsByte(g, line, width, at);
    LaidRowsAt(g, ix, width, i);
    j := PartitionPoint(line.starts, line.origin, line.origin + at) - 1;
    OneLess(j + 1);
    AllRowsAt(ix.lines, i, j);
  }

  lemma OneLess(n: nat)
    requires n >= 1
    ensures Minus(n, 1) == n - 1
  {
  }

  lemma RowCountIsAllRows(g: Segmenter, ix: Index, width: nat)
    requires LaidOut(g, ix, width)
    ensures RowCount(ix) == |AllRows(ix.lines)|
    ensures ix.lines != [] ==> FirstRow(ix) < ix.nextRow
    ensures ix.rows == [] ==> RowCount(ix) == 0
  {
    if ix.lines != [] {
      LaidRowsAt(g, ix, width, |ix.lines|);
      assert ix.lines[..|ix.lines|] == ix.lines;
      LaidRowsAscend(g, ix, width, 0, |ix.rows|);
    }
  }

  // ---- Anchors across changes ----

  /** `b` is a later state of the line `a`: the front may be gone, and text may have come. */
  predicate Continues(a: LogicalLine, b: LogicalLine) {
    && b.id == a.id && a.origin <= b.origin
    && (b.origin <= a.origin + |a.text| ==> a.text[b.origin - a.origin..] <= b.text)
  }

  /** `b` is a later state of the lines `a`: lines go at the front and come at the end. */
  predicate Survives(a: seq<LogicalLine>, b: seq<LogicalLine>) {
    a == [] ||
    (&& b != [] && a[0].id <= b[0].id && |a| <= |b| + (b[0].id - a[0].id)
     && forall i :: 0 <= i < |b| && i + (b[0].id - a[0].id) < |a| ==> Continues(a[i + (b[0].id - a[0].id)], b[i]))
  }

  lemma ContinuesTransitive(a: LogicalLine, b: LogicalLine, c: LogicalLine)
    requires Continues(a, b) && Continues(b, c)
    ensures Continues(a, c)
  {
    if c.origin <= a.origin + |a.text| {
      var kept := a.text[b.origin - a.origin..];
      assert a.text[c.origin - a.origin..] == kept[c.origin - b.origin..];
      assert kept[c.origin - b.origin..] <= b.text[c.origin - b.origin..];
    }
  }

  lemma SurvivesTransitive(a: seq<LogicalLine>, b: seq<LogicalLine>, c: seq<LogicalLine>)
    requires Survives(a, b) && Survives(b, c)
    ensures Survives(a, c)
  {
    if a != [] {
      var d := b[0].id - a[0].id;
      var e := c[0].id - b[0].id;
      forall i | 0 <= i < |c| && i + e + d < |a| ensures Continues(a[i + e + d], c[i]) {
        assert Continues(a[(i + e) + d], b[i + e]);
        assert Continues(b[i + e], c[i]);
        ContinuesTransitive(a[i + e + d], b[i + e], c[i]);
      }
    }
  }

  lemma SurvivesRefl(a: seq<LogicalLine>)
    ensures Survives(a, a)
  {
  }

  /** A retained byte stays where its anchor says. */
  lemma ByteStays(a: seq<LogicalLine>, j: nat, at: nat, b: seq<LogicalLine>, i: nat)
    requires Survives(a, b) && j < |a| && at < |a[j].text| && i < |b|
    requires i + b[0].id == j + a[0].id && b[i].origin <= a[j].origin + at
    ensures b[i].id == a[j].id
    ensures a[j].origin + at - b[i].origin < |b[i].text|
    ensures b[i].text[a[j].origin + at - b[i].origin] == a[j].text[at]
  {
    assert Continues(a[i + (b[0].id - a[0].id)], b[i]);
    var kept := a[j].text[b[i].origin - a[j].origin..];
    assert kept[a[j].origin + at - b[i].origin] == a[j].text[at];
  }

  /** A retained byte is shown in the row its anchor resolves to: at any width, and after
      whatever has been added or dropped since the anchor was taken. */
  lemma AnchorSurvives(g: Segmenter, a: seq<LogicalLine>, j: nat, at: nat, ix: Index, width: nat, i: nat) returns (row: nat)
    requires j < |a| && at < |a[j].text|
    requires LaidOut(g, ix, width) && Survives(a, ix.lines)
    requires i < |ix.lines| && i + ix.lines[0].id == j + a[0].id && ix.lines[i].origin <= a[j].origin + at
    ensures i < |ix.rows| && row < |ix.lines[i].starts|
    ensures var here := a[j].origin + at - ix.lines[i].origin;
            && here < |ix.lines[i].text| && ix.lines[i].text[here] == a[j].text[at]
            && Shows(ix.lines[i], row, here)
    ensures RowOf(ix, Position(a[j].id, a[j].origin + at)) == ix.rows[i].row + row
  {
    hide *;
    ByteStays(a, j, at, ix.lines, i);
    row := AnchorShowsItsByte(g, ix, width, i, a[j].origin + at - ix.lines[i].origin);
  }
}
