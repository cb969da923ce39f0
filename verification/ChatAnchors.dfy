/** An anchor keeps its place: whatever has been added, dropped, resized or folded since it was
    taken, it leads to the row that shows its byte, or to the fold row that hides it. */
module ChatAnchors {
  import opened Utf8
  import opened Wrapping
  import opened RowIndex
  import opened Folding
  import opened ChatRows
  import opened ChatUpdates

  /** The row a body offset has in its block is a row of the block. */
  lemma BodyAnchor(g: Segmenter, v: BlockView, width: nat, expanded: bool, p: Position)
    requires BlockLaidOut(g, v, width, expanded) && OffsetOf(v.ix, p) < v.bodyRows
    ensures LocalRow(v, Body(p), expanded) < v.height
    ensures var cell := CellOf(v, PartAt(v, LocalRow(v, Body(p), expanded), expanded));
            cell == if IsHidden(v, expanded, OffsetOf(v.ix, p)) then Hidden(Minus(v.bodyRows, PREVIEW_HEAD + PREVIEW_TAIL))
                    else TextRow(ShownAt(v.ix, OffsetOf(v.ix, p)))
  {
    if IsHidden(v, expanded, OffsetOf(v.ix, p)) {
      HiddenAnchor(g, v, width, p);
    } else {
      ShownAnchor(g, v, width, expanded, p);
    }
    hide LaidOut, RowCount, OffsetOf, PartAt;
  }

  predicate IsHidden(v: BlockView, expanded: bool, offset: nat) {
    Folded(v, expanded) && PREVIEW_HEAD <= offset < v.bodyRows - PREVIEW_TAIL
  }

  /** The row of an anchor, in the rows of all blocks laid end to end. */
  lemma AnchorCell(g: Segmenter, cx: ChatIndex, width: nat, expanded: bool, q: nat, part: Part)
    requires ChatLaidOut(g, cx, width, expanded) && q < |cx.blocks|
    requires LocalRow(cx.blocks[q].view, part, expanded) < cx.blocks[q].view.height
    ensures var v := cx.blocks[q].view;
            var row := RowOfAnchor(cx, Anchor(cx.blocks[q].id, part), expanded);
            CellAt(cx, row, expanded) == Some(CellOf(v, PartAt(v, LocalRow(v, part, expanded), expanded)))
  {
    hide *;
    var v := cx.blocks[q].view;
    var local := LocalRow(v, part, expanded);
    IndexShape(g, cx, width, expanded);
    BlockIsFound(cx.blocks, q);
    PlacedRow(cx, q, part, expanded);
    BlockIsLaidOut(g, cx, width, expanded, q);
    DrawsBlockRows(g, v, width, expanded, local);
    CellsUpTo(g, cx, width, expanded, q);
    CellsAt(cx.blocks, expanded, q, local);
    CellsAreAllRows(g, cx, width, expanded);
    FirstIsFirst(g, cx, width, expanded, q);
    CellAtIs(cx, cx.rows[q].row + local, expanded);
  }

  lemma FirstIsFirst(g: Segmenter, cx: ChatIndex, width: nat, expanded: bool, q: nat)
    requires ChatLaidOut(g, cx, width, expanded) && q < |cx.blocks|
    ensures q < |cx.rows| && FirstOf(cx) <= cx.rows[q].row
  {
    hide Current;
  }

  lemma CellAtIs(cx: ChatIndex, row: nat, expanded: bool)
    requires FirstOf(cx) <= row && row - FirstOf(cx) < |AllCells(cx.blocks, expanded)| == cx.nextRow - FirstOf(cx)
    ensures CellAt(cx, row, expanded) == Some(AllCells(cx.blocks, expanded)[row - FirstOf(cx)])
  {
    hide AllCells, FirstOf;
  }

  lemma PlacedRow(cx: ChatIndex, q: nat, part: Part, expanded: bool)
    requires Listed(cx.blocks, cx.rows) && q < |cx.blocks| == |cx.rows| && BlockFrom(cx.blocks, cx.blocks[q].id) == q
    ensures RowOfAnchor(cx, Anchor(cx.blocks[q].id, part), expanded) == cx.rows[q].row + LocalRow(cx.blocks[q].view, part, expanded)
  {
    hide LocalRow;
  }

  lemma BlockSurvives(a: seq<Shot>, p: nat, b: seq<Shot>, q: nat)
    requires BlocksSurvive(a, b) && p < |a| && q < |b| && q + b[0].entry.id == p + a[0].entry.id
    ensures Survives(a[p].entry.view.ix.lines, b[q].entry.view.ix.lines)
  {
    hide Survives;
    assert q + (b[0].entry.id - a[0].entry.id) == p;
  }

  /** Byte `at` of line `j` then is still there, in line `i` now. */
  predicate Stays(was: seq<LogicalLine>, j: nat, at: nat, now: seq<LogicalLine>, i: nat) {
    && j < |was| && at < |was[j].text| && i < |now|
    && i + now[0].id == j + was[0].id && now[i].origin <= was[j].origin + at
  }

  /** Row `row` of the line shows what was byte `at` of `was`. */
  predicate ShowsByte(line: LogicalLine, row: nat, was: LogicalLine, at: nat) {
    && at < |was.text| && line.origin <= was.origin + at
    && var here := was.origin + at - line.origin;
       here < |line.text| && line.text[here] == was.text[at] && Shows(line, row, here)
  }

  function TextOfRow(line: LogicalLine, row: nat): seq<Byte> {
    if row < |line.starts| then RowText(line, row) else []
  }

  function AnchorOf(line: LogicalLine, at: nat): Position {
    Position(line.id, line.origin + at)
  }

  /** What a row of the whole chat shows, if there is such a row. */
  function CellAt(cx: ChatIndex, row: nat, expanded: bool): Option<Cell> {
    var all := AllCells(cx.blocks, expanded);
    if FirstOf(cx) <= row < cx.nextRow && row - FirstOf(cx) < |all| then Some(all[row - FirstOf(cx)]) else None
  }

  /** The offset of an anchor in a laid-out text, and what the row there shows. */
  lemma AnchorOffset(g: Segmenter, was: seq<LogicalLine>, j: nat, at: nat, ix: Index, width: nat, i: nat) returns (row: nat)
    requires LaidOut(g, ix, width) && Survives(was, ix.lines) && Stays(was, j, at, ix.lines, i)
    ensures ShowsByte(ix.lines[i], row, was[j], at)
    ensures OffsetOf(ix, AnchorOf(was[j], at)) < RowCount(ix)
    ensures ShownAt(ix, OffsetOf(ix, AnchorOf(was[j], at))) == TextOfRow(ix.lines[i], row)
  {
    hide LaidOut, Survives, RowCount, OffsetOf, ShownAt, Shows, RowText, AllRows, RowOf, FirstRow;
    ByteStays(was, j, at, ix.lines, i);
    row := AnchorShowsItsByte(g, ix, width, i, was[j].origin + at - ix.lines[i].origin);
    RowCountIsAllRows(g, ix, width);
    OffsetIs(ix, AnchorOf(was[j], at));
  }

  lemma OffsetIs(ix: Index, p: Position)
    ensures FirstRow(ix) <= RowOf(ix, p) ==> OffsetOf(ix, p) == RowOf(ix, p) - FirstRow(ix)
    ensures OffsetOf(ix, p) < |AllRows(ix.lines)| ==> ShownAt(ix, OffsetOf(ix, p)) == AllRows(ix.lines)[OffsetOf(ix, p)]
  {
    hide RowOf, AllRows;
  }

  /** Byte `at` of line `j` of block `p`, and an index laid out at any later time and any width
      in which the block and the byte are still there: the anchor resolves to a retained row,
      and that row shows the byte unless a fold hides it. */
  lemma AnchorKeepsItsByte(g: Segmenter, a: seq<Shot>, p: nat, j: nat, at: nat,
                           b: seq<Shot>, book: Book, q: nat, i: nat, width: nat, expanded: bool) returns (row: nat)
    requires BlocksSurvive(a, b) && ChatLaidOut(g, IndexOf(b, book), width, expanded)
    requires p < |a| && q < |b| && q + b[0].entry.id == p + a[0].entry.id
    requires Stays(a[p].entry.view.ix.lines, j, at, b[q].entry.view.ix.lines, i)
    ensures var was, v := a[p].entry.view.ix.lines[j], b[q].entry.view;
            var cx := IndexOf(b, book);
            && ShowsByte(v.ix.lines[i], row, was, at)
            && CellAt(cx, RowOfAnchor(cx, Anchor(b[q].entry.id, Body(AnchorOf(was, at))), expanded), expanded) == Some(
                 if IsHidden(v, expanded, OffsetOf(v.ix, AnchorOf(was, at))) then Hidden(Minus(v.bodyRows, PREVIEW_HEAD + PREVIEW_TAIL))
                 else TextRow(TextOfRow(v.ix.lines[i], row)))
  {
    hide BlocksSurvive, ChatWrapped, Survives, ShowsByte, CellAt, RowOfAnchor, OffsetOf, TextOfRow, IsHidden, PartAt, LocalRow, CellOf, BlockLaidOut, AnchorOf;
    BlockSurvives(a, p, b, q);
    var cx := IndexOf(b, book);
    IndexIs(b, book, q);
    var was, v := a[p].entry.view.ix.lines, b[q].entry.view;
    BlockIsLaidOut(g, cx, width, expanded, q);
    LaidParts(g, v, width, expanded);
    row := AnchorOffset(g, was, j, at, v.ix, width, i);
    BodyAnchor(g, v, width, expanded, AnchorOf(was[j], at));
    AnchorCell(g, cx, width, expanded, q, Body(AnchorOf(was[j], at)));
  }

  lemma IndexIs(b: seq<Shot>, book: Book, q: nat)
    requires q < |b|
    ensures q < |IndexOf(b, book).blocks| && IndexOf(b, book).blocks[q] == b[q].entry
  {
  }

  lemma LaidParts(g: Segmenter, v: BlockView, width: nat, expanded: bool)
    requires BlockLaidOut(g, v, width, expanded)
    ensures LaidOut(g, v.ix, width) && v.bodyRows == RowCount(v.ix)
  {
  }
}
