/** What adding text, dropping text and laying out one more line do to the row index. */
module IndexUpdates {
  import opened Utf8
  import opened Wrapping
  import opened Highlighting
  import opened Retention
  import opened RowIndex

  function TextsOf(lines: seq<LogicalLine>): (texts: seq<seq<Byte>>)
    ensures |texts| == |lines| && forall i :: 0 <= i < |lines| ==> texts[i] == lines[i].text
  {
    seq(|lines|, i requires 0 <= i < |lines| => lines[i].text)
  }

  /** A line as an earlier layout left it, perhaps with text added since. */
  ghost predicate Partial(g: Segmenter, line: LogicalLine) {
    line.width == 0 || exists k :: 0 <= k <= |line.text| && line.starts == Rows(g, line.text[..k], line.width)
  }

  ghost predicate AllPartial(g: Segmenter, lines: seq<LogicalLine>) {
    forall i :: 0 <= i < |lines| ==> Partial(g, lines[i])
  }

  /** Keys and row entries belong together and ascend. */
  predicate Ordering(lines: seq<LogicalLine>, rows: seq<RowStart>) {
    Consecutive(lines) && Indexed(lines, rows) && RowsAscend(rows)
  }

  /** The first `clean` lines are as a layout from scratch leaves them. */
  ghost predicate CleanUpTo(g: Segmenter, ix: Index, width: nat, clean: nat)
    requires |ix.rows| <= |ix.lines|
  {
    && clean <= |ix.rows|
    && forall i :: 0 <= i < clean ==> Exact(g, ix.lines[i], width) && RowAfter(ix.rows, ix.nextRow, i) == ix.rows[i].row + |ix.lines[i].starts|
  }

  ghost predicate Wrapped(g: Segmenter, ix: Index, width: nat, clean: nat) {
    && Ordering(ix.lines, ix.rows)
    && CleanUpTo(g, ix, width, clean)
    && AllPartial(g, ix.lines)
    && (ix.lines == [] ==> ix.nextRow == 0)
  }

  /** How many leading lines a pending change leaves alone. */
  function CleanCount(lines: seq<LogicalLine>, dirty: Option<nat>): (n: nat)
    ensures n <= |lines|
  {
    if dirty.None? then |lines| else FirstFrom(lines, dirty.value)
  }

  function Earlier(dirty: Option<nat>, id: nat): Option<nat> {
    if dirty.Some? && dirty.value <= id then dirty else Some(id)
  }

  lemma FirstFromId(lines: seq<LogicalLine>, id: nat)
    requires Consecutive(lines) && lines != []
    ensures FirstFrom(lines, id) == if id <= lines[0].id then 0 else Min(id - lines[0].id, |lines|)
  {
    var n := FirstFrom(lines, id);
    assert n < |lines| ==> n == 0 || lines[n].id == lines[0].id + n;
    assert n > 0 ==> n == 1 || lines[n - 1].id == lines[0].id + (n - 1);
  }

  lemma WrappedIsLaidOut(g: Segmenter, ix: Index, width: nat)
    requires Wrapped(g, ix, width, |ix.lines|)
    ensures LaidOut(g, ix, width)
  {
  }

  // ---- What the operations do to the index ----

  lemma GrowLast(g: Segmenter, ix: Index, width: nat, clean: nat, more: seq<Byte>, after: nat)
    requires Wrapped(g, ix, width, clean) && ix.lines != [] && after <= clean && after < |ix.lines|
    ensures var last := ix.lines[|ix.lines| - 1];
            Wrapped(g, ix.(lines := ix.lines[|ix.lines| - 1 := last.(text := last.text + more)]), width, after)
  {
    var n := |ix.lines| - 1;
    var last := ix.lines[n];
    var grown := last.(text := last.text + more);
    if last.width != 0 {
      var k :| 0 <= k <= |last.text| && last.starts == Rows(g, last.text[..k], last.width);
      assert grown.text[..k] == last.text[..k];
    }
    assert Partial(g, grown);
  }

  lemma AddLast(g: Segmenter, ix: Index, width: nat, clean: nat, line: LogicalLine)
    requires Wrapped(g, ix, width, clean) && line.firstRow == None && line.width == 0
    requires ix.lines == [] || line.id == ix.lines[0].id + |ix.lines|
    requires ix.lines == [] ==> ix.rows == []
    ensures Wrapped(g, ix.(lines := ix.lines + [line]), width, clean)
  {
    var longer := ix.lines + [line];
    forall i, j | 0 <= i < j < |longer| ensures longer[j].id == longer[i].id + (j - i) {
      assert i == 0 || ix.lines[i].id == ix.lines[0].id + i;
    }
  }

  lemma DropFirst(g: Segmenter, ix: Index, width: nat, clean: nat)
    requires Wrapped(g, ix, width, clean) && |ix.lines| > 1
    ensures Wrapped(g, Index(ix.lines[1..], if ix.rows == [] then [] else ix.rows[1..], ix.nextRow), width, Minus(clean, 1))
  {
    var shorter := Index(ix.lines[1..], if ix.rows == [] then [] else ix.rows[1..], ix.nextRow);
    forall i | 0 <= i < Minus(clean, 1)
      ensures Exact(g, shorter.lines[i], width) && RowAfter(shorter.rows, ix.nextRow, i) == shorter.rows[i].row + |shorter.lines[i].starts|
    {
      assert RowAfter(ix.rows, ix.nextRow, i + 1) == ix.rows[i + 1].row + |ix.lines[i + 1].starts|;
    }
  }

  /** A layout makes one line after another exact. */
  lemma LayOne(g: Segmenter, ix: Index, width: nat, i: nat, line: LogicalLine)
    requires Wrapped(g, ix, width, i) && i == |ix.rows| < |ix.lines|
    requires i == 0 || ix.nextRow == ix.rows[i - 1].row + |ix.lines[i - 1].starts|
    requires line == ix.lines[i].(starts := Rows(g, ix.lines[i].text, width), width := width, firstRow := Some(ix.nextRow))
    ensures Wrapped(g, Index(ix.lines[i := line], ix.rows + [RowStart(ix.nextRow, line.id)], ix.nextRow + |line.starts|), width, i + 1)
  {
    var rows := ix.rows + [RowStart(ix.nextRow, line.id)];
    var lines := ix.lines[i := line];
    assert line.text[..|line.text|] == line.text;
    assert Partial(g, line);
    forall j | 0 <= j < i ensures rows[j].row < ix.nextRow {
      assert i > 0 && Exact(g, ix.lines[i - 1], width);
      assert j < i - 1 ==> ix.rows[j].row < ix.rows[i - 1].row;
    }
  }

  /** Forgetting the rows from `keep` on leaves an index that a layout can continue. */
  lemma ForgetRows(g: Segmenter, ix: Index, width: nat, clean: nat, lines: seq<LogicalLine>)
    requires Wrapped(g, ix, width, clean) && ix.lines != []
    requires |lines| == |ix.lines|
    requires forall i :: 0 <= i < |lines| ==> lines[i] == if i < clean then ix.lines[i] else ix.lines[i].(firstRow := None)
    ensures var row := if clean < |ix.rows| then ix.rows[clean].row else ix.nextRow;
            && Wrapped(g, Index(lines, ix.rows[..clean], row), width, clean)
            && (clean == 0 || row == ix.rows[clean - 1].row + |ix.lines[clean - 1].starts|)
  {
    var row := if clean < |ix.rows| then ix.rows[clean].row else ix.nextRow;
    forall i | 0 <= i < |lines| ensures Partial(g, lines[i]) {
      PartialSame(g, ix.lines[i], lines[i]);
    }
    hide Partial, Exact;
    ForgetKeepsOrdering(ix, clean, lines);
    hide Ordering, AllPartial;
    assert clean > 0 ==> RowAfter(ix.rows, ix.nextRow, clean - 1) == ix.rows[clean - 1].row + |ix.lines[clean - 1].starts|;
    assert CleanUpTo(g, Index(lines, ix.rows[..clean], row), width, clean) by {
      forall i | 0 <= i < clean ensures RowAfter(ix.rows[..clean], row, i) == ix.rows[i].row + |lines[i].starts| {
        assert RowAfter(ix.rows, ix.nextRow, i) == ix.rows[i].row + |ix.lines[i].starts|;
      }
    }
  }

  lemma ForgetKeepsOrdering(ix: Index, clean: nat, lines: seq<LogicalLine>)
    requires Ordering(ix.lines, ix.rows) && clean <= |ix.rows| && |lines| == |ix.lines|
    requires forall i :: 0 <= i < |lines| ==> lines[i] == if i < clean then ix.lines[i] else ix.lines[i].(firstRow := None)
    ensures Ordering(lines, ix.rows[..clean])
  {
  }

  lemma PartialSame(g: Segmenter, a: LogicalLine, b: LogicalLine)
    requires a.text == b.text && a.starts == b.starts && a.width == b.width && Partial(g, a)
    ensures Partial(g, b)
  {
  }

  /** One line is wrapped again: from the row before the last when only its end can have
      changed, and from the start otherwise. The result is a wrap from scratch. */
  method Reflow(g: Segmenter, line: LogicalLine, width: nat) returns (wrapped: LogicalLine, examined: nat)
    requires Lawful(g) && Partial(g, line) && width >= 1
    ensures wrapped == line.(starts := Rows(g, line.text, width), width := width)
    ensures examined <= |line.text|
    ensures line.width != width || line.starts == [] ==> examined == |line.text|
    ensures line.width == width && |line.starts| >= 2 ==> examined + line.starts[|line.starts| - 2] == |line.text|
  {
    hide Lawful, Partial, Rows, Wrap;
    var starts: seq<nat> := [0];
    var from: nat := 0;
    RowsFromStart(g, line.text, width);
    if line.width == width && line.starts != [] {
      RestartPoint(g, line, width);
      var keep: nat := if |line.starts| < 2 then 0 else |line.starts| - 2;
      from := line.starts[keep];
      starts := line.starts[..keep + 1];
    }
    var columns: nat := 0;
    var at := from;
    while at < |line.text|
      invariant from <= at <= |line.text|
      invariant Rows(g, line.text, width) == starts + Wrap(g, line.text, at, columns, width)
    {
      WrapStep(g, line.text, at, columns, width);
      var n := First(g, line.text[at..]);
      var cells := g.cells(line.text[at..at + n]);
      if columns > 0 && columns + cells > width {
        starts := starts + [at];
        columns := 0;
      }
      columns := columns + cells;
      at := at + n;
    }
    WrapStep(g, line.text, at, columns, width);
    wrapped := line.(starts := starts, width := width);
    examined := |line.text| - from;
  }

  lemma RowsFromStart(g: Segmenter, text: seq<Byte>, width: nat)
    ensures Rows(g, text, width) == [0] + Wrap(g, text, 0, 0, width)
  {
  }

  lemma RestartPoint(g: Segmenter, line: LogicalLine, width: nat)
    requires Lawful(g) && Partial(g, line) && width >= 1 && line.width == width && line.starts != []
    ensures var keep := if |line.starts| < 2 then 0 else |line.starts| - 2;
            && line.starts[keep] <= |line.text|
            && Rows(g, line.text, width) == line.starts[..keep + 1] + Wrap(g, line.text, line.starts[keep], 0, width)
  {
    var k: nat :| k <= |line.text| && line.starts == Rows(g, line.text[..k], line.width);
    RowsRestart(g, line.text, k, width);
  }
}
