/** One activity block: a header, the rows of its text or a folded preview of them, and a gap. */
module Folding {
  import opened Utf8
  import opened Wrapping
  import opened RowIndex

  const PREVIEW_HEAD: nat := 6
  const PREVIEW_TAIL: nat := 2
  const COLLAPSE_AFTER: nat := 12

  /** A place in a block. */
  datatype Part = Header | Body(position: Position) | Fold | Gap

  /** What one visual row of a block shows. */
  datatype Cell = Heading | TextRow(text: seq<Byte>) | Hidden(count: nat) | Blank

  /** What the layout knows about a block: the index of its text, whether it may be folded,
      and the numbers it has cached. */
  datatype BlockView = BlockView(user: bool, ix: Index, bodyRows: nat, height: nat)

  predicate Folded(v: BlockView, expanded: bool) {
    !expanded && !v.user && v.bodyRows > COLLAPSE_AFTER
  }

  function BodyHeight(v: BlockView, expanded: bool): nat {
    if Folded(v, expanded) then PREVIEW_HEAD + PREVIEW_TAIL + 1 else v.bodyRows
  }

  /** The cached numbers belong to the index, and the index to the text. */
  ghost predicate BlockLaidOut(g: Segmenter, v: BlockView, width: nat, expanded: bool) {
    LaidOut(g, v.ix, width) && v.bodyRows == RowCount(v.ix) && v.height == 2 + BodyHeight(v, expanded)
  }

  function LocalRow(v: BlockView, part: Part, expanded: bool): nat {
    match part
    case Header => 0
    case Gap => Minus(v.height, 1)
    case Fold => 1 + Min(PREVIEW_HEAD, BodyHeight(v, expanded))
    case Body(position) =>
      var offset := OffsetOf(v.ix, position);
      1 + if !Folded(v, expanded) || offset < PREVIEW_HEAD then offset
          else if offset >= v.bodyRows - PREVIEW_TAIL then PREVIEW_HEAD + 1 + offset - (v.bodyRows - PREVIEW_TAIL)
          else PREVIEW_HEAD
  }

  function PartAt(v: BlockView, local: nat, expanded: bool): Part {
    if local == 0 then Header
    else if local >= Minus(v.height, 1) then Gap
    else
      var offset := local - 1;
      if Folded(v, expanded) && offset == PREVIEW_HEAD then Fold
      else
        var inText := if Folded(v, expanded) && offset > PREVIEW_HEAD
                      then v.bodyRows - PREVIEW_TAIL + offset - PREVIEW_HEAD - 1 else offset;
        match AtOffset(v.ix, inText)
        case None => Gap
        case Some(position) => Body(position)
  }

  /** The rows of a block, said without the index: all of its text between header and gap, or
      its first and last rows around one that counts the others. */
  function BlockRows(v: BlockView, expanded: bool): seq<Cell> {
    var rows := AllRows(v.ix.lines);
    var texts := seq(|rows|, i requires 0 <= i < |rows| => TextRow(rows[i]));
    [Heading]
    + (if !expanded && !v.user && |rows| > COLLAPSE_AFTER
       then texts[..PREVIEW_HEAD] + [Hidden(|rows| - PREVIEW_HEAD - PREVIEW_TAIL)] + texts[|rows| - PREVIEW_TAIL..]
       else texts)
    + [Blank]
  }

  /** The row that is drawn for a part, from the index. */
  function CellOf(v: BlockView, part: Part): Cell {
    match part
    case Header => Heading
    case Gap => Blank
    case Fold => Hidden(Minus(v.bodyRows, PREVIEW_HEAD + PREVIEW_TAIL))
    case Body(position) => TextRow(ShownAt(v.ix, OffsetOf(v.ix, position)))
  }

  /** The text of the row `offset` rows behind the first, nothing outside of the index. */
  function ShownAt(ix: Index, offset: nat): seq<Byte> {
    if offset < |AllRows(ix.lines)| then AllRows(ix.lines)[offset] else []
  }

  lemma OffsetRoundTrip(g: Segmenter, ix: Index, width: nat, offset: nat)
    requires LaidOut(g, ix, width) && offset < RowCount(ix)
    ensures AtOffset(ix, offset).Some? && OffsetOf(ix, AtOffset(ix, offset).value) == offset
  {
    hide LaidOut, PositionAt, RowOf;
    RoundTrip(g, ix, width, FirstRow(ix) + offset);
  }

  /** The offset in the text that local row `local` shows, and that it is one of the text. */
  function InText(v: BlockView, local: nat, expanded: bool): nat
    requires 0 < local
  {
    if Folded(v, expanded) && local - 1 > PREVIEW_HEAD then v.bodyRows - PREVIEW_TAIL + (local - 1) - PREVIEW_HEAD - 1 else local - 1
  }

  lemma BodyPart(g: Segmenter, v: BlockView, width: nat, expanded: bool, local: nat)
    requires BlockLaidOut(g, v, width, expanded) && 0 < local < v.height - 1
    requires !(Folded(v, expanded) && local - 1 == PREVIEW_HEAD)
    ensures var part := PartAt(v, local, expanded);
            && part.Body? && OffsetOf(v.ix, part.position) == InText(v, local, expanded) < v.bodyRows
  {
    hide LaidOut, AtOffset, OffsetOf, RowCount;
    OffsetRoundTrip(g, v.ix, width, InText(v, local, expanded));
  }

  /** The place taken from a row of a block is in that row, folded or not. */
  lemma LocalRoundTrip(g: Segmenter, v: BlockView, width: nat, expanded: bool, local: nat)
    requires BlockLaidOut(g, v, width, expanded) && local < v.height
    ensures LocalRow(v, PartAt(v, local, expanded), expanded) == local
  {
    if 0 < local < v.height - 1 && !(Folded(v, expanded) && local - 1 == PREVIEW_HEAD) {
      BodyPart(g, v, width, expanded, local);
    }
  }

  /** Every row of a block is drawn as its unindexed description says. */
  lemma DrawsBlockRows(g: Segmenter, v: BlockView, width: nat, expanded: bool, local: nat)
    requires BlockLaidOut(g, v, width, expanded) && local < v.height
    ensures |BlockRows(v, expanded)| == v.height
    ensures CellOf(v, PartAt(v, local, expanded)) == BlockRows(v, expanded)[local]
  {
    hide LaidOut, AtOffset, OffsetOf, AllRows;
    RowCountIsAllRows(g, v.ix, width);
    if 0 < local < v.height - 1 && !(Folded(v, expanded) && local - 1 == PREVIEW_HEAD) {
      BodyPart(g, v, width, expanded, local);
    }
  }

  /** An anchor into text that a fold hides is shown as the fold row, and at its own row again
      as soon as the block is expanded. */
  lemma HiddenAnchor(g: Segmenter, v: BlockView, width: nat, p: Position)
    requires BlockLaidOut(g, v, width, false) && Folded(v, false)
    requires PREVIEW_HEAD <= OffsetOf(v.ix, p) < v.bodyRows - PREVIEW_TAIL
    ensures PartAt(v, LocalRow(v, Body(p), false), false) == Fold
    ensures var open := v.(height := 2 + BodyHeight(v, true));
            && BlockLaidOut(g, open, width, true)
            && LocalRow(open, Body(p), true) == 1 + OffsetOf(v.ix, p)
            && CellOf(open, PartAt(open, LocalRow(open, Body(p), true), true)) == TextRow(ShownAt(v.ix, OffsetOf(v.ix, p)))
  {
    hide LaidOut, AtOffset, RowCount;
    var open := v.(height := 2 + BodyHeight(v, true));
    BodyPart(g, open, width, true, 1 + OffsetOf(v.ix, p));
  }

  /** An anchor into text that the preview shows keeps its row text in the preview. */
  lemma ShownAnchor(g: Segmenter, v: BlockView, width: nat, expanded: bool, p: Position)
    requires BlockLaidOut(g, v, width, expanded)
    requires OffsetOf(v.ix, p) < v.bodyRows
    requires !Folded(v, expanded) || OffsetOf(v.ix, p) < PREVIEW_HEAD || OffsetOf(v.ix, p) >= v.bodyRows - PREVIEW_TAIL
    ensures CellOf(v, PartAt(v, LocalRow(v, Body(p), expanded), expanded)) == TextRow(ShownAt(v.ix, OffsetOf(v.ix, p)))
  {
    hide LaidOut, AtOffset, RowCount, OffsetOf;
    BodyPart(g, v, width, expanded, LocalRow(v, Body(p), expanded));
  }
}
