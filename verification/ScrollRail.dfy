/** The scrollbar beside the chat: where the thumb is drawn and what dragging it means. */
module ScrollRails {
  import opened Utf8
  import opened Wrapping
  import opened RowIndex
  import opened Folding
  import opened ChatRows

  datatype ScrollRail = ScrollRail(y: nat, height: nat, maxTop: nat, thumb: nat, top: nat)

  function Thumb(height: nat, length: nat): nat {
    var share := height * height / Max(length, 1);
    if share < 1 then 1 else Min(share, Max(height, 1))
  }

  /** A rail for `length` rows of which `position` lie above the view; `top` is 16 bits wide. */
  function NewRail(y: nat, height: nat, length: nat, position: nat): ScrollRail {
    var maxTop := Minus(length, height);
    var thumb := Thumb(height, length);
    var travel := Minus(height, thumb);
    ScrollRail(y, height, maxTop, thumb, if maxTop == 0 then 0 else position * travel / maxTop % 0x10000)
  }

  function Travel(rail: ScrollRail): nat {
    Minus(rail.height, rail.thumb)
  }

  /** How many rows lie above the view when the thumb, held at its cell `grab`, is at `row`. */
  function PositionOf(rail: ScrollRail, row: nat, grab: nat): nat {
    var offset := Min(Minus(Minus(row, rail.y), grab), Travel(rail));
    if Travel(rail) == 0 then 0 else offset * rail.maxTop / Travel(rail)
  }

  lemma FactorBelow(x: int, y: int, d: nat)
    requires x * d < y * d
    ensures x < y
  {
    assert 0 < (y - x) * d;
  }

  lemma Scaled(x: int, y: int, d: nat)
    requires x <= y
    ensures x * d <= y * d
  {
    assert 0 <= (y - x) * d;
  }

  lemma DivBounds(a: nat, d: nat)
    requires d > 0
    ensures a / d * d <= a < a / d * d + d
  {
  }

  lemma DivIs(a: nat, d: nat, q: nat)
    requires d > 0 && q * d <= a < q * d + d
    ensures a / d == q
  {
    DivBounds(a, d);
    FactorBelow(a / d, q + 1, d);
    FactorBelow(q, a / d + 1, d);
  }

  lemma DivMonotone(a: nat, b: nat, d: nat)
    requires d > 0 && a <= b
    ensures a / d <= b / d
  {
    DivBounds(a, d);
    DivBounds(b, d);
    FactorBelow(a / d, b / d + 1, d);
  }

  lemma DivAtMost(a: nat, d: nat, limit: nat)
    requires d > 0 && a <= limit * d
    ensures a / d <= limit
  {
    DivIs(limit * d, d, limit);
    DivMonotone(a, limit * d, d);
  }

  /** The thumb is inside the rail exactly when the rail has any height. */
  lemma ThumbInside(y: nat, height: nat, length: nat, position: nat)
    ensures var rail := NewRail(y, height, length, position);
            rail.thumb <= rail.height <==> height >= 1
    ensures NewRail(y, height, length, position).thumb >= 1
  {
  }

  /** The thumb has the share of the rail that the view has of the text, rounded down, but at least
      one cell and at most the whole rail. */
  lemma ThumbIsShare(height: nat, length: nat)
    requires height > 0
    ensures var thumb := Thumb(height, length);
            && 1 <= thumb <= height
            && (thumb > 1 ==> thumb * length <= height * height)
            && (thumb < height ==> height * height < (thumb + 1) * length)
  {
    hide *;
    var thumb := Thumb(height, length);
    if length > 0 {
      var share := height * height / length;
      DivBounds(height * height, length);
      ThumbOf(height, length, share);
      Scaled(if share < 1 then share else Thumb(height, length), share, length);
      ShareLength(share, length);
      ShareLength(thumb, length);
    } else {
      ThumbOfNothing(height);
    }
  }

  lemma ThumbOfNothing(height: nat)
    requires height > 0
    ensures Thumb(height, 0) == height && 0 <= height * height
  {
    DivIs(height * height, 1, height * height);
    Scaled(1, height, height);
  }

  lemma ThumbOf(height: nat, length: nat, share: nat)
    requires height > 0 && length > 0 && share == height * height / length
    ensures share < 1 ==> Thumb(height, length) == 1
    ensures share >= 1 ==> 1 <= Thumb(height, length) <= height && Thumb(height, length) <= share
    ensures Thumb(height, length) < height && share >= 1 ==> Thumb(height, length) == share
  {
  }

  lemma ShareLength(share: nat, length: nat)
    ensures (share + 1) * length == share * length + length
    ensures share == 0 ==> (1 + 1) * length >= (share + 1) * length
  {
  }

  /** Where there is something to scroll, the thumb never moves further than the text. */
  lemma TravelFits(y: nat, height: nat, length: nat, position: nat)
    requires height < length
    ensures var rail := NewRail(y, height, length, position); Travel(rail) <= rail.maxTop
  {
    var share := height * height / length;
    DivBounds(height * height, length);
    var travel := Travel(NewRail(y, height, length, position));
    if height > 0 {
      ShareIsSmall(height, length);
      if share == 0 {
        SquareBelow(height, length);
      } else {
        TravelBelow(height, length, share);
      }
    }
  }

  lemma ShareIsSmall(height: nat, length: nat)
    requires 0 < height < length
    ensures height * height / length < height
  {
    DivBounds(height * height, length);
    Scaled(height, length - 1, height);
    assert height * length == length * height;
    FactorBelow(height * height / length, height, length);
  }

  lemma SquareBelow(height: nat, length: nat)
    requires 0 < height && height * height < length
    ensures height - 1 <= length - height
  {
    assert 2 * height <= height * height + 1 by {
      assert (height - 1) * (height - 1) >= 0;
    }
  }

  lemma TravelBelow(height: nat, length: nat, share: nat)
    requires 0 < height < length && height * height < share * length + length
    ensures height - share <= length - height
  {
    var rest := length - height;
    assert (height + rest) * (height - rest) == height * height - rest * rest;
    assert (height - rest) * length <= height * height < (share + 1) * length;
    FactorBelow(height - rest, share + 1, length);
  }

  /** The drawn thumb stays inside the rail and stands at its ends exactly for the two ends
      of the text. */
  lemma ThumbEnds(y: nat, height: nat, length: nat, position: nat)
    requires 0 < height < length && height < 0x10000 && position <= length - height
    ensures var rail := NewRail(y, height, length, position);
            && rail.top == position * Travel(rail) / rail.maxTop
            && rail.top + rail.thumb <= rail.height
            && (position == 0 ==> rail.top == 0)
            && (position == rail.maxTop ==> rail.top + rail.thumb == rail.height)
  {
    hide *;
    ThumbIsInside(height, length);
    var q := TopAt(position, height - Thumb(height, length), length - height);
    RailIs(y, height, length, position, q);
  }

  lemma TopAt(position: nat, travel: nat, maxTop: nat) returns (q: nat)
    requires position <= maxTop && 0 < maxTop
    ensures q == position * travel / maxTop && q <= travel
    ensures (position == 0 ==> q == 0) && (position == maxTop ==> q == travel)
  {
    TopOfThumb(position, travel, maxTop);
    q := position * travel / maxTop;
  }

  lemma RailIs(y: nat, height: nat, length: nat, position: nat, q: nat)
    requires 0 < height < length && 1 <= Thumb(height, length) <= height && q < 0x10000
    requires q == position * (height - Thumb(height, length)) / (length - height)
    ensures var rail := NewRail(y, height, length, position);
            && rail.maxTop == length - height && rail.height == height && rail.thumb == Thumb(height, length)
            && Travel(rail) == height - Thumb(height, length) && rail.top == q
            && q == position * Travel(rail) / rail.maxTop
  {
    hide Thumb;
  }

  lemma ThumbIsInside(height: nat, length: nat)
    requires height >= 1
    ensures 1 <= Thumb(height, length) <= height
  {
  }

  lemma TopOfThumb(position: nat, travel: nat, maxTop: nat)
    requires position <= maxTop && 0 < maxTop
    ensures position * travel / maxTop <= travel
    ensures position == 0 ==> position * travel / maxTop == 0
    ensures position == maxTop ==> position * travel / maxTop == travel
  {
    Scaled(position, maxTop, travel);
    assert travel * maxTop == maxTop * travel;
    DivAtMost(position * travel, maxTop, travel);
    DivIs(travel * maxTop, maxTop, travel);
  }

  /** Dragging is monotone, stays inside the text and reaches both of its ends. */
  lemma DragRange(rail: ScrollRail, row: nat, lower: nat, grab: nat)
    requires row <= lower
    ensures PositionOf(rail, row, grab) <= PositionOf(rail, lower, grab) <= rail.maxTop
    ensures row <= rail.y + grab ==> PositionOf(rail, row, grab) == 0
    ensures Travel(rail) > 0 && rail.y + grab + Travel(rail) <= row ==> PositionOf(rail, row, grab) == rail.maxTop
  {
    var travel := Travel(rail);
    if travel > 0 {
      var a := Min(Minus(Minus(row, rail.y), grab), travel);
      var b := Min(Minus(Minus(lower, rail.y), grab), travel);
      Scaled(a, b, rail.maxTop);
      Scaled(b, travel, rail.maxTop);
      assert rail.maxTop * travel == travel * rail.maxTop;
      DivMonotone(a * rail.maxTop, b * rail.maxTop, travel);
      DivAtMost(b * rail.maxTop, travel, rail.maxTop);
      DivIs(rail.maxTop * travel, travel, rail.maxTop);
    }
  }

  /** Drawing the thumb for the position of a cell puts it at that cell or one above. */
  lemma CellRoundTrip(y: nat, height: nat, length: nat, position: nat, grab: nat, cell: nat)
    requires 0 < height < length && height < 0x10000
    requires cell <= Travel(NewRail(y, height, length, position))
    ensures var rail := NewRail(y, height, length, position);
            var again := NewRail(y, height, length, PositionOf(rail, y + grab + cell, grab));
            again.top <= cell <= again.top + 1
  {
    var rail := NewRail(y, height, length, position);
    var travel := Travel(rail);
    TravelFits(y, height, length, position);
    DragRange(rail, y + grab + cell, y + grab + cell, grab);
    ThumbEnds(y, height, length, PositionOf(rail, y + grab + cell, grab));
    if travel > 0 {
      TwoDivisions(cell, rail.maxTop, travel);
    }
  }

  lemma TwoDivisions(cell: nat, maxTop: nat, travel: nat)
    requires 0 < travel <= maxTop
    ensures var back := cell * maxTop / travel * travel / maxTop; back <= cell <= back + 1
  {
    var p := cell * maxTop / travel;
    DivBounds(cell * maxTop, travel);
    DivAtMost(p * travel, maxTop, cell);
    DivBounds(p * travel, maxTop);
    var back := p * travel / maxTop;
    assert (back + 2) * maxTop == back * maxTop + maxTop + maxTop;
    FactorBelow(cell, back + 2, maxTop);
  }

  /** Dragging in a chat that has not changed scrolls to exactly the position of the rail. */
  lemma DragScrollsExactly(g: Segmenter, cx: ChatIndex, width: nat, expanded: bool, y: nat, height: nat, held: Option<Anchor>, row: nat, grab: nat)
    requires ChatLaidOut(g, cx, width, expanded)
    ensures var (length, above) := ScrollMetrics(cx, held, height, expanded);
            var position := PositionOf(NewRail(y, height, length, above), row, grab);
            var anchor := Scroll(cx, Oldest(cx, expanded), position, height, expanded);
            ScrollMetrics(cx, anchor, height, expanded) == (length, position)
  {
    hide *;
    MetricsAre(cx, held, height, expanded);
    var length := Minus(cx.nextRow, FirstOf(cx));
    var above := TopOf(cx, held, height, expanded) - FirstOf(cx);
    RailEnds(y, height, length, above);
    var position := PositionOf(NewRail(y, height, length, above), row, grab);
    DragRange(NewRail(y, height, length, above), row, row, grab);
    ScrollFromOldest(g, cx, width, expanded, height, position);
    MetricsAre(cx, Scroll(cx, Oldest(cx, expanded), position, height, expanded), height, expanded);
  }

  lemma RailEnds(y: nat, height: nat, length: nat, position: nat)
    ensures NewRail(y, height, length, position).maxTop == Minus(length, height)
  {
  }

  lemma MetricsAre(cx: ChatIndex, anchor: Option<Anchor>, height: nat, expanded: bool)
    ensures TopOf(cx, anchor, height, expanded) >= FirstOf(cx)
    ensures ScrollMetrics(cx, anchor, height, expanded) == (Minus(cx.nextRow, FirstOf(cx)), TopOf(cx, anchor, height, expanded) - FirstOf(cx))
  {
    hide RowOfAnchor;
  }

  lemma ScrollFromOldest(g: Segmenter, cx: ChatIndex, width: nat, expanded: bool, height: nat, position: nat)
    requires ChatLaidOut(g, cx, width, expanded)
    requires position <= Minus(Minus(cx.nextRow, FirstOf(cx)), height)
    ensures TopOf(cx, Scroll(cx, Oldest(cx, expanded), position, height, expanded), height, expanded) == FirstOf(cx) + position
  {
    hide *;
    CellsAreAllRows(g, cx, width, expanded);
    var first := FirstOf(cx);
    TailIs(cx, height);
    OldestIs(cx, expanded);
    if cx.rows != [] {
      ChatRoundTrip(g, cx, width, expanded, first);
      if first + position < TailTop(cx, height) {
        ChatRoundTrip(g, cx, width, expanded, first + position);
      }
    }
    ScrollLands(cx, height, expanded, position);
  }

  lemma OldestIs(cx: ChatIndex, expanded: bool)
    ensures Oldest(cx, expanded) == AtRow(cx, FirstOf(cx), expanded)
  {
  }

  lemma TailIs(cx: ChatIndex, height: nat)
    requires FirstOf(cx) <= cx.nextRow
    ensures TailTop(cx, height) == FirstOf(cx) + Minus(Minus(cx.nextRow, FirstOf(cx)), height) <= cx.nextRow
    ensures Minus(Minus(cx.nextRow, FirstOf(cx)), height) <= Minus(cx.nextRow, FirstOf(cx))
  {
  }

  lemma ScrollLands(cx: ChatIndex, height: nat, expanded: bool, position: nat)
    requires var first := FirstOf(cx);
             && first + position <= TailTop(cx, height)
             && (cx.rows != [] ==> AtRow(cx, first, expanded).Some? && RowOfAnchor(cx, AtRow(cx, first, expanded).value, expanded) == first)
             && (cx.rows == [] ==> TailTop(cx, height) == first)
             && (cx.rows != [] && first + position < TailTop(cx, height) ==>
                 AtRow(cx, first + position, expanded).Some?
                 && RowOfAnchor(cx, AtRow(cx, first + position, expanded).value, expanded) == first + position)
    requires Oldest(cx, expanded) == AtRow(cx, FirstOf(cx), expanded)
    ensures TopOf(cx, Scroll(cx, Oldest(cx, expanded), position, height, expanded), height, expanded) == FirstOf(cx) + position
  {
    hide RowOfAnchor, AtRow, TailTop, FirstOf, Oldest;
    FirstBelowTail(cx, height);
  }

  lemma FirstBelowTail(cx: ChatIndex, height: nat)
    ensures FirstOf(cx) <= TailTop(cx, height)
  {
  }
}
