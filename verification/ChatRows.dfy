/** The ordered index of visual rows over activity blocks, anchors in it and windows on it. */
module ChatRows {
  import opened Utf8
  import opened Wrapping
  import opened RowIndex
  import opened Folding

  datatype Anchor = Anchor(block: nat, part: Part)

  /** A block under its key, with the row at which it was laid out. */
  datatype Entry = Entry(id: nat, start: Option<nat>, view: BlockView)

  datatype ChatIndex = ChatIndex(blocks: seq<Entry>, rows: seq<RowStart>, nextRow: nat)

  // ---- Queries ----

  function FirstOf(cx: ChatIndex): nat {
    if cx.rows == [] then 0 else cx.rows[0].row
  }

  function TailTop(cx: ChatIndex, height: nat): nat {
    Max(FirstOf(cx), Minus(cx.nextRow, height))
  }

  function BlockFrom(blocks: seq<Entry>, id: nat): (i: nat)
    ensures i <= |blocks| && (forall j :: 0 <= j < i ==> blocks[j].id < id)
    ensures i < |blocks| ==> id <= blocks[i].id
  {
    if blocks == [] || id <= blocks[0].id then 0 else 1 + BlockFrom(blocks[1..], id)
  }

  function RowOfAnchor(cx: ChatIndex, anchor: Anchor, expanded: bool): nat {
    var i := BlockFrom(cx.blocks, anchor.block);
    if i < |cx.blocks| && cx.blocks[i].id == anchor.block then
      (if cx.blocks[i].start.Some? then cx.blocks[i].start.value else cx.nextRow) + LocalRow(cx.blocks[i].view, anchor.part, expanded)
    else if i < |cx.blocks| && cx.blocks[i].start.Some? then cx.blocks[i].start.value
    else Minus(cx.nextRow, 1)
  }

  function AtRow(cx: ChatIndex, row: nat, expanded: bool): Option<Anchor> {
    var row := Min(Max(row, FirstOf(cx)), Minus(cx.nextRow, 1));
    if cx.rows == [] || row < cx.rows[0].row then None
    else
      var entry := cx.rows[LastAtMost(cx.rows, row)];
      var i := BlockFrom(cx.blocks, entry.id);
      if i < |cx.blocks| then Some(Anchor(entry.id, PartAt(cx.blocks[i].view, row - entry.row, expanded))) else None
  }

  function Clamp(row: int, low: nat, high: nat): nat
    requires low <= high
  {
    if row < low then low else if row > high then high else row
  }

  /** The first row a view of this height shows, without an anchor the newest rows. */
  function TopOf(cx: ChatIndex, anchor: Option<Anchor>, height: nat, expanded: bool): nat {
    Clamp(if anchor.Some? then RowOfAnchor(cx, anchor.value, expanded) else TailTop(cx, height), FirstOf(cx), TailTop(cx, height))
  }

  function Scroll(cx: ChatIndex, anchor: Option<Anchor>, delta: int, height: nat, expanded: bool): Option<Anchor> {
    var target := Clamp(TopOf(cx, anchor, height, expanded) + delta, FirstOf(cx), TailTop(cx, height));
    if target == TailTop(cx, height) then None else AtRow(cx, target, expanded)
  }

  /** The number of rows, and how many lie above the view. */
  function ScrollMetrics(cx: ChatIndex, anchor: Option<Anchor>, height: nat, expanded: bool): (nat, nat) {
    (Minus(cx.nextRow, FirstOf(cx)), TopOf(cx, anchor, height, expanded) - FirstOf(cx))
  }

  function Oldest(cx: ChatIndex, expanded: bool): Option<Anchor> {
    AtRow(cx, FirstOf(cx), expanded)
  }

  // ---- What the index stands for ----

  function AllCells(blocks: seq<Entry>, expanded: bool): seq<Cell> {
    if blocks == [] then [] else AllCells(blocks[..|blocks| - 1], expanded) + BlockRows(blocks[|blocks| - 1].view, expanded)
  }

  predicate InOrder(blocks: seq<Entry>) {
    forall i, j :: 0 <= i < j < |blocks| ==> blocks[j].id == blocks[i].id + (j - i)
  }

  predicate Listed(blocks: seq<Entry>, rows: seq<RowStart>) {
    && |rows| <= |blocks|
    && forall i :: 0 <= i < |blocks| ==>
         blocks[i].start == (if i < |rows| then Some(rows[i].row) else None)
         && (i < |rows| ==> rows[i].id == blocks[i].id)
  }

  ghost predicate Current(g: Segmenter, cx: ChatIndex, width: nat, expanded: bool, i: nat)
    requires i < |cx.rows| <= |cx.blocks|
  {
    && BlockLaidOut(g, cx.blocks[i].view, width, expanded)
    && RowAfter(cx.rows, cx.nextRow, i) == cx.rows[i].row + cx.blocks[i].view.height
  }

  /** The index up to the first changed block. */
  ghost predicate ChatWrapped(g: Segmenter, cx: ChatIndex, width: nat, expanded: bool, clean: nat) {
    && InOrder(cx.blocks) && Listed(cx.blocks, cx.rows) && RowsAscend(cx.rows)
    && clean <= |cx.rows|
    && (forall i :: 0 <= i < clean ==> Current(g, cx, width, expanded, i))
    && (cx.blocks == [] ==> cx.nextRow == 0)
  }

  /** The index after a layout. */
  ghost predicate ChatLaidOut(g: Segmenter, cx: ChatIndex, width: nat, expanded: bool) {
    ChatWrapped(g, cx, width, expanded, |cx.blocks|)
  }

  lemma BlockIsFound(blocks: seq<Entry>, i: nat)
    requires InOrder(blocks) && i < |blocks|
    ensures BlockFrom(blocks, blocks[i].id) == i
  {
    forall k | 0 <= k < i ensures blocks[k].id < blocks[i].id {
      assert blocks[i].id == blocks[k].id + (i - k);
    }
  }

  lemma BlockRowCount(g: Segmenter, cx: ChatIndex, width: nat, expanded: bool, i: nat)
    requires ChatLaidOut(g, cx, width, expanded) && i < |cx.blocks|
    ensures |BlockRows(cx.blocks[i].view, expanded)| == cx.blocks[i].view.height >= 2
    ensures (if i + 1 < |cx.rows| then cx.rows[i + 1].row else cx.nextRow) == cx.rows[i].row + cx.blocks[i].view.height
  {
    assert Current(g, cx, width, expanded, i);
    DrawsBlockRows(g, cx.blocks[i].view, width, expanded, 0);
  }

  lemma {:induction false} CellsUpTo(g: Segmenter, cx: ChatIndex, width: nat, expanded: bool, i: nat)
    requires ChatLaidOut(g, cx, width, expanded) && i <= |cx.blocks| && cx.blocks != []
    ensures |AllCells(cx.blocks[..i], expanded)| == (if i < |cx.blocks| then cx.rows[i].row else cx.nextRow) - FirstOf(cx)
    decreases i
  {
    hide BlockRows, ChatWrapped;
    if i > 0 {
      CellsUpTo(g, cx, width, expanded, i - 1);
      assert cx.blocks[..i][..i - 1] == cx.blocks[..i - 1];
      BlockRowCount(g, cx, width, expanded, i - 1);
      IndexShape(g, cx, width, expanded);
    } else {
      IndexShape(g, cx, width, expanded);
    }
  }

  lemma IndexShape(g: Segmenter, cx: ChatIndex, width: nat, expanded: bool)
    requires ChatLaidOut(g, cx, width, expanded)
    ensures |cx.rows| == |cx.blocks| && InOrder(cx.blocks) && Listed(cx.blocks, cx.rows) && RowsAscend(cx.rows)
  {
  }

  lemma {:induction false} CellsAt(blocks: seq<Entry>, expanded: bool, i: nat, j: nat)
    requires i < |blocks| && j < |BlockRows(blocks[i].view, expanded)|
    ensures |AllCells(blocks[..i], expanded)| + j < |AllCells(blocks, expanded)|
    ensures AllCells(blocks, expanded)[|AllCells(blocks[..i], expanded)| + j] == BlockRows(blocks[i].view, expanded)[j]
  {
    hide BlockRows;
    if i < |blocks| - 1 {
      CellsAt(blocks[..|blocks| - 1], expanded, i, j);
      assert blocks[..|blocks| - 1][..i] == blocks[..i];
    }
  }

  /** The block a retained row lies in. */
  lemma RowIsInBlock(g: Segmenter, cx: ChatIndex, width: nat, expanded: bool, row: nat)
    requires ChatLaidOut(g, cx, width, expanded) && FirstOf(cx) <= row < cx.nextRow
    ensures cx.rows != [] && cx.rows[0].row <= row
    ensures var i := LastAtMost(cx.rows, row);
            && i < |cx.blocks| && row - cx.rows[i].row < cx.blocks[i].view.height
            && cx.rows[i].id == cx.blocks[i].id && BlockFrom(cx.blocks, cx.blocks[i].id) == i
            && BlockLaidOut(g, cx.blocks[i].view, width, expanded)
            && cx.blocks[i].start == Some(cx.rows[i].row)
  {
    hide BlockRows, BlockLaidOut;
    var i := LastAtMost(cx.rows, row);
    assert Current(g, cx, width, expanded, i);
    BlockRowCount(g, cx, width, expanded, i);
    BlockIsFound(cx.blocks, i);
  }

  /** An anchor taken from any retained row leads back to that row, in both views. */
  lemma ChatRoundTrip(g: Segmenter, cx: ChatIndex, width: nat, expanded: bool, row: nat)
    requires ChatLaidOut(g, cx, width, expanded) && FirstOf(cx) <= row < cx.nextRow
    ensures AtRow(cx, row, expanded).Some?
    ensures RowOfAnchor(cx, AtRow(cx, row, expanded).value, expanded) == row
  {
    hide ChatWrapped, PartAt, LocalRow, BlockLaidOut, AtRow;
    RowIsInBlock(g, cx, width, expanded, row);
    AtRowIs(cx, row, expanded);
    var i := LastAtMost(cx.rows, row);
    LocalRoundTrip(g, cx.blocks[i].view, width, expanded, row - cx.rows[i].row);
  }

  lemma NoBlockFound(blocks: seq<Entry>, id: nat)
    requires forall i :: 0 <= i < |blocks| ==> blocks[i].id < id
    ensures BlockFrom(blocks, id) == |blocks|
  {
  }

  /** An anchor whose block has expired resolves to the first row that is left, and one behind all
      blocks to the last. */
  lemma ExpiredBlock(g: Segmenter, cx: ChatIndex, width: nat, expanded: bool, anchor: Anchor)
    requires ChatLaidOut(g, cx, width, expanded)
    ensures cx.blocks != [] && anchor.block < cx.blocks[0].id ==> RowOfAnchor(cx, anchor, expanded) == FirstOf(cx)
    ensures (forall i :: 0 <= i < |cx.blocks| ==> cx.blocks[i].id < anchor.block) ==> RowOfAnchor(cx, anchor, expanded) == Minus(cx.nextRow, 1)
  {
    IndexShape(g, cx, width, expanded);
    if forall i :: 0 <= i < |cx.blocks| ==> cx.blocks[i].id < anchor.block {
      NoBlockFound(cx.blocks, anchor.block);
    }
    hide ChatWrapped, LocalRow;
  }

  lemma AtRowIs(cx: ChatIndex, row: nat, expanded: bool)
    requires FirstOf(cx) <= row < cx.nextRow && cx.rows != []
    requires var i := LastAtMost(cx.rows, row);
             i < |cx.blocks| && cx.rows[i].id == cx.blocks[i].id && BlockFrom(cx.blocks, cx.blocks[i].id) == i
    ensures var i := LastAtMost(cx.rows, row);
            AtRow(cx, row, expanded) == Some(Anchor(cx.blocks[i].id, PartAt(cx.blocks[i].view, row - cx.rows[i].row, expanded)))
  {
    hide PartAt;
  }

  /** Scrolling moves the top row by just as much as is asked for, up or down, but not beyond the
      oldest row or the newest view. */
  lemma ScrollMoves(g: Segmenter, cx: ChatIndex, width: nat, expanded: bool, anchor: Option<Anchor>, delta: int, height: nat)
    requires ChatLaidOut(g, cx, width, expanded)
    ensures var top, next := TopOf(cx, anchor, height, expanded), TopOf(cx, Scroll(cx, anchor, delta, height, expanded), height, expanded);
            && (FirstOf(cx) <= top + delta <= TailTop(cx, height) ==> next == top + delta)
            && (top + delta < FirstOf(cx) ==> next == FirstOf(cx))
            && (top + delta > TailTop(cx, height) ==> next == TailTop(cx, height))
  {
    hide *;
    CellsAreAllRows(g, cx, width, expanded);
    var target := ScrollTarget(cx, anchor, delta, height, expanded);
    if target < TailTop(cx, height) {
      ChatRoundTrip(g, cx, width, expanded, target);
    }
    ScrollLeads(cx, anchor, delta, height, expanded, target);
  }

  lemma ScrollTarget(cx: ChatIndex, anchor: Option<Anchor>, delta: int, height: nat, expanded: bool) returns (target: nat)
    requires FirstOf(cx) <= cx.nextRow
    ensures target == Clamp(TopOf(cx, anchor, height, expanded) + delta, FirstOf(cx), TailTop(cx, height))
    ensures FirstOf(cx) <= target <= TailTop(cx, height) <= cx.nextRow
  {
    hide RowOfAnchor;
    target := Clamp(TopOf(cx, anchor, height, expanded) + delta, FirstOf(cx), TailTop(cx, height));
  }

  lemma ScrollLeads(cx: ChatIndex, anchor: Option<Anchor>, delta: int, height: nat, expanded: bool, target: nat)
    requires FirstOf(cx) <= target <= TailTop(cx, height)
    requires target == Clamp(TopOf(cx, anchor, height, expanded) + delta, FirstOf(cx), TailTop(cx, height))
    requires target < TailTop(cx, height) ==> AtRow(cx, target, expanded).Some? && RowOfAnchor(cx, AtRow(cx, target, expanded).value, expanded) == target
    ensures TopOf(cx, Scroll(cx, anchor, delta, height, expanded), height, expanded) == target
    ensures var top := TopOf(cx, anchor, height, expanded);
            && (FirstOf(cx) <= top + delta <= TailTop(cx, height) ==> target == top + delta)
            && (top + delta < FirstOf(cx) ==> target == FirstOf(cx))
            && (top + delta > TailTop(cx, height) ==> target == TailTop(cx, height))
  {
    hide RowOfAnchor, AtRow, FirstOf, TailTop;
  }

  lemma CellsAreAllRows(g: Segmenter, cx: ChatIndex, width: nat, expanded: bool)
    requires ChatLaidOut(g, cx, width, expanded)
    ensures FirstOf(cx) + |AllCells(cx.blocks, expanded)| == cx.nextRow
    ensures cx.rows != [] ==> FirstOf(cx) < cx.nextRow
    ensures cx.rows == [] ==> AllCells(cx.blocks, expanded) == []
  {
    hide BlockRows, BlockLaidOut;
    if cx.blocks != [] {
      CellsUpTo(g, cx, width, expanded, |cx.blocks|);
      assert cx.blocks[..|cx.blocks|] == cx.blocks;
      CellsUpTo(g, cx, width, expanded, |cx.blocks| - 1);
      BlockRowCount(g, cx, width, expanded, |cx.blocks| - 1);
    }
  }

  /** `part` stands in `all` from `from` on. */
  ghost predicate At<T>(part: seq<T>, all: seq<T>, from: nat) {
    from + |part| <= |all| && forall k :: 0 <= k < |part| ==> part[k] == all[from + k]
  }

  lemma AtGoesOn<T>(a: seq<T>, b: seq<T>, all: seq<T>, from: nat)
    requires At(a, all, from) && At(b, all, from + |a|)
    ensures At(a + b, all, from)
  {
  }

  lemma AtInside<T>(part: seq<T>, middle: seq<T>, all: seq<T>, base: nat, from: nat)
    requires At(part, middle, from) && At(middle, all, base)
    ensures At(part, all, base + from)
  {
    forall k | 0 <= k < |part| ensures part[k] == all[base + from + k] {
      assert middle[from + k] == all[base + (from + k)];
    }
  }

  /** The rows a view shows: from its top row on, as many as it is high. */
  method Window(g: Segmenter, cx: ChatIndex, width: nat, anchor: Option<Anchor>, height: nat, expanded: bool) returns (result: seq<Cell>)
    requires ChatLaidOut(g, cx, width, expanded)
    ensures At(result, AllCells(cx.blocks, expanded), TopOf(cx, anchor, height, expanded) - FirstOf(cx))
    ensures |result| == if height < |AllCells(cx.blocks, expanded)| then height else |AllCells(cx.blocks, expanded)|
  {
    hide *;
    result := [];
    CellsAreAllRows(g, cx, width, expanded);
    TopIsInView(cx, anchor, height, expanded);
    ghost var all := AllCells(cx.blocks, expanded);
    var top := TopOf(cx, anchor, height, expanded);
    NothingAt(all, top - FirstOf(cx));
    if height == 0 || cx.rows == [] {
      return;
    }
    RowIsInBlock(g, cx, width, expanded, top);
    var first := LastAtMost(cx.rows, top);
    for i := first to |cx.rows|
      invariant |result| < height
      invariant i == first ==> result == []
      invariant i > first ==> top + |result| == if i < |cx.rows| then cx.rows[i].row else cx.nextRow
      invariant At(result, all, top - FirstOf(cx))
    {
      var block := BlockOf(g, cx, width, expanded, i);
      var local: nat := if cx.rows[i].row < top then top - cx.rows[i].row else 0;
      var more := BlockCells(g, block, width, expanded, local, height - |result|);
      AtInside(more, BlockRows(block, expanded), all, cx.rows[i].row - FirstOf(cx), local);
      AtGoesOn(result, more, all, top - FirstOf(cx));
      result := result + more;
      if |result| == height {
        return;
      }
    }
  }

  lemma NothingAt<T>(all: seq<T>, from: nat)
    requires from <= |all|
    ensures At([], all, from)
  {
  }

  /** The block an index entry belongs to; its rows stand where the entry says. */
  method BlockOf(g: Segmenter, cx: ChatIndex, width: nat, expanded: bool, i: nat) returns (v: BlockView)
    requires ChatLaidOut(g, cx, width, expanded) && i < |cx.rows|
    ensures i < |cx.blocks| && v == cx.blocks[i].view && BlockLaidOut(g, v, width, expanded) && v.height >= 2
    ensures FirstOf(cx) <= cx.rows[i].row
    ensures At(BlockRows(v, expanded), AllCells(cx.blocks, expanded), cx.rows[i].row - FirstOf(cx))
    ensures (if i + 1 < |cx.rows| then cx.rows[i + 1].row else cx.nextRow) == cx.rows[i].row + v.height
  {
    hide *;
    IndexShape(g, cx, width, expanded);
    ListedAt(cx, i);
    BlockIsFound(cx.blocks, i);
    BlockRowCount(g, cx, width, expanded, i);
    BlockIsLaidOut(g, cx, width, expanded, i);
    CellsUpTo(g, cx, width, expanded, i);
    CellsSlice(cx.blocks, expanded, i);
    v := cx.blocks[BlockFrom(cx.blocks, cx.rows[i].id)].view;
  }

  /** The rows of one block from `from` on, at most `count`. */
  method BlockCells(g: Segmenter, v: BlockView, width: nat, expanded: bool, from: nat, count: nat) returns (result: seq<Cell>)
    requires BlockLaidOut(g, v, width, expanded) && from < v.height
    ensures |result| == if count < v.height - from then count else v.height - from
    ensures At(result, BlockRows(v, expanded), from)
  {
    hide *;
    DrawsBlockRows(g, v, width, expanded, from);
    ghost var rows := BlockRows(v, expanded);
    result := [];
    NothingAt(rows, from);
    var local := from;
    while local < v.height && |result| < count
      invariant from <= local <= v.height && |result| == local - from <= count
      invariant At(result, rows, from)
    {
      DrawsBlockRows(g, v, width, expanded, local);
      var cell := CellOf(v, PartAt(v, local, expanded));
      OneAt(cell, rows, local);
      AtGoesOn(result, [cell], rows, from);
      result := result + [cell];
      local := local + 1;
    }
  }

  lemma OneAt<T>(x: T, all: seq<T>, from: nat)
    requires from < |all| && all[from] == x
    ensures At([x], all, from)
  {
  }

  lemma CellsSlice(blocks: seq<Entry>, expanded: bool, i: nat)
    requires i < |blocks|
    ensures var p := |AllCells(blocks[..i], expanded)|;
            At(BlockRows(blocks[i].view, expanded), AllCells(blocks, expanded), p)
  {
    hide AllCells, BlockRows;
    var p := |AllCells(blocks[..i], expanded)|;
    var rows := BlockRows(blocks[i].view, expanded);
    HasRows(blocks[i].view, expanded);
    CellsAt(blocks, expanded, i, |rows| - 1);
    forall j | 0 <= j < |rows| ensures p + j < |AllCells(blocks, expanded)| && AllCells(blocks, expanded)[p + j] == rows[j] {
      CellsAt(blocks, expanded, i, j);
    }
  }

  lemma HasRows(v: BlockView, expanded: bool)
    ensures BlockRows(v, expanded) != []
  {
  }

  lemma ListedAt(cx: ChatIndex, i: nat)
    requires Listed(cx.blocks, cx.rows) && i < |cx.rows|
    ensures i < |cx.blocks| && cx.rows[i].id == cx.blocks[i].id
  {
  }

  lemma BlockIsLaidOut(g: Segmenter, cx: ChatIndex, width: nat, expanded: bool, i: nat)
    requires ChatLaidOut(g, cx, width, expanded) && i < |cx.blocks|
    ensures BlockLaidOut(g, cx.blocks[i].view, width, expanded)
  {
    assert Current(g, cx, width, expanded, i);
  }

  lemma TopIsInView(cx: ChatIndex, anchor: Option<Anchor>, height: nat, expanded: bool)
    ensures FirstOf(cx) <= TopOf(cx, anchor, height, expanded)
    ensures FirstOf(cx) < cx.nextRow && height > 0 ==> TopOf(cx, anchor, height, expanded) < cx.nextRow
    ensures FirstOf(cx) <= cx.nextRow ==> TopOf(cx, anchor, height, expanded) <= cx.nextRow
    ensures var top := TopOf(cx, anchor, height, expanded);
            FirstOf(cx) <= cx.nextRow ==> height <= cx.nextRow - top || top == FirstOf(cx)
  {
    hide RowOfAnchor;
  }
}
