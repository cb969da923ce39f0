/** The bounded transcript: text arrives in pieces, old text expires, and a layout brings the
    row index and the colours up to date by looking only at what has changed. */
module Transcripts {
  import opened Utf8
  import opened Wrapping
  import opened Highlighting
  import opened Retention
  import opened RowIndex
  import opened IndexUpdates

  /** The last coloured line with the parser states before and behind it. */
  datatype Tail = Tail(id: nat, before: State, after: State)

  /** What the cached colours and parser states are worth while nothing has expired. */
  ghost predicate Coloured(sx: Syntax, source: Source, lines: seq<LogicalLine>, dirty: Option<nat>, tail: Option<Tail>) {
    var texts := TextsOf(lines);
    var clean := CleanCount(lines, dirty);
    && (lines != [] ==> lines[0].id == 0)
    && (forall i :: 0 <= i < clean ==> lines[i].colors == ColorsOf(sx, source, texts, i))
    && (!source.Plain? && tail.None? ==> clean == 0)
    && (!source.Plain? && tail.Some? ==>
          && tail.value.id < |lines| && (clean == tail.value.id || clean == tail.value.id + 1)
          && tail.value.before == StateAfter(sx, source, texts[..tail.value.id])
          && (clean == tail.value.id + 1 ==> tail.value.after == StateAfter(sx, source, texts[..clean])))
    && (source.Plain? ==> forall i :: 0 <= i < |lines| ==> lines[i].colors == [])
  }

  predicate ColorsOrdered(lines: seq<LogicalLine>) {
    forall i :: 0 <= i < |lines| ==> Ordered(lines[i].colors)
  }

  /** The row index up to the first changed line, and the keys. */
  ghost predicate IndexOk(g: Segmenter, ix: Index, width: nat, nextLine: nat, dirty: Option<nat>) {
    && Wrapped(g, ix, width, CleanCount(ix.lines, dirty))
    && (ix.lines == [] ==> nextLine == 0 && ix.rows == [] && dirty == None)
    && (ix.lines != [] ==> nextLine == ix.lines[0].id + |ix.lines|)
    && (dirty.Some? ==> dirty.value < nextLine)
    && (dirty.None? ==> |ix.rows| == |ix.lines|)
  }

  /** The colours up to the first changed line; nothing is promised once text has expired. */
  ghost predicate ColorsOk(sx: Syntax, source: Source, lines: seq<LogicalLine>, nextLine: nat, dirty: Option<nat>, tail: Option<Tail>, expired: bool) {
    && ColorsOrdered(lines)
    && (lines == [] ==> dirty == None && tail == None)
    && (dirty.Some? ==> dirty.value < nextLine)
    && (!expired ==> Coloured(sx, source, lines, dirty, tail))
  }

  /** Two versions of the lines that differ at most in their colours. */
  predicate SameButColors(a: seq<LogicalLine>, b: seq<LogicalLine>) {
    |a| == |b| && forall i :: 0 <= i < |a| ==> b[i] == a[i].(colors := b[i].colors)
  }

  lemma ColorsDoNotMatter(g: Segmenter, ix: Index, width: nat, clean: nat, lines: seq<LogicalLine>)
    requires Wrapped(g, ix, width, clean) && SameButColors(ix.lines, lines)
    ensures Wrapped(g, ix.(lines := lines), width, clean)
    ensures TextsOf(lines) == TextsOf(ix.lines)
    ensures forall dirty :: CleanCount(lines, dirty) == CleanCount(ix.lines, dirty)
  {
    forall i | 0 <= i < |lines| ensures Partial(g, lines[i]) {
      PartialSame(g, ix.lines[i], lines[i]);
    }
    hide Partial;
    forall id ensures FirstFrom(lines, id) == FirstFrom(ix.lines, id) {
      SameIdsSameFirst(ix.lines, lines, id);
    }
  }

  lemma {:induction false} SameIdsSameFirst(a: seq<LogicalLine>, b: seq<LogicalLine>, id: nat)
    requires |a| == |b| && forall i :: 0 <= i < |a| ==> a[i].id == b[i].id
    ensures FirstFrom(a, id) == FirstFrom(b, id)
  {
    if a != [] {
      SameIdsSameFirst(a[1..], b[1..], id);
    }
  }

  class Transcript {
    const g: Segmenter
    const sx: Syntax
    const source: Source
    var lines: seq<LogicalLine>
    var rows: seq<RowStart>
    var nextLine: nat
    var nextRow: nat
    var bytes: nat
    var width: nat
    var dirtyFrom: Option<nat>
    var expired: bool
    var colorDirty: Option<nat>
    var colorTail: Option<Tail>

    function View(): Index
      reads this
    {
      Index(lines, rows, nextRow)
    }

    /** What is kept of the text, apart from how it is shown. */
    ghost function Kept(): Retained
      reads this
    {
      Retained(TextsOf(lines), expired)
    }

    /** The counters and the two incremental caches agree with the lines. */
    ghost predicate Consistent()
      reads this
    {
      && Lawful(g)
      && IndexOk(g, View(), width, nextLine, dirtyFrom)
      && bytes == Size(TextsOf(lines))
      && ColorsOk(sx, source, lines, nextLine, colorDirty, colorTail, expired)
    }

    ghost predicate Valid()
      reads this
    {
      Consistent() && bytes <= MAX_TRANSCRIPT_BYTES && |lines| <= MAX_TRANSCRIPT_LINES
    }

    constructor (g: Segmenter, sx: Syntax, source: Source)
      requires Lawful(g)
      ensures Valid() && Kept() == EMPTY && this.g == g && this.sx == sx && this.source == source
      ensures View() == Index([], [], 0) && dirtyFrom == None
    {
      this.g, this.sx, this.source := g, sx, source;
      lines, rows, nextLine, nextRow, bytes, width := [], [], 0, 0, 0, 0;
      dirtyFrom, expired, colorDirty, colorTail := None, false, None, None;
    }

    method TrimToLimits(maxBytes: nat, maxLines: nat)
      requires Consistent()
      modifies this
      ensures Consistent() && bytes <= Max(maxBytes, 1) && |lines| <= Max(maxLines, 1)
      ensures TextsOf(lines) == Trim(old(TextsOf(lines)), Max(maxBytes, 1), Max(maxLines, 1))
      ensures expired == (old(expired) || Over(old(TextsOf(lines)), Max(maxBytes, 1), Max(maxLines, 1)))
      ensures Survives(old(lines), lines)
    {
      hide Lawful, IndexOk, ColorsOk, Trim, Size, Survives;
      SurvivesRefl(lines);
      var maxBytes, maxLines := Max(maxBytes, 1), Max(maxLines, 1);
      TrimStep(TextsOf(lines), maxBytes, maxLines);
      while bytes > maxBytes || |lines| > maxLines
        invariant Consistent()
        invariant Trim(TextsOf(lines), maxBytes, maxLines) == Trim(old(TextsOf(lines)), maxBytes, maxLines)
        invariant (expired || Over(TextsOf(lines), maxBytes, maxLines)) == (old(expired) || Over(old(TextsOf(lines)), maxBytes, maxLines))
        invariant Survives(old(lines), lines)
        invariant Over(TextsOf(lines), maxBytes, maxLines) <==> bytes > maxBytes || |lines| > maxLines
        invariant !Over(TextsOf(lines), maxBytes, maxLines) ==> TextsOf(lines) == Trim(TextsOf(lines), maxBytes, maxLines)
        decreases bytes
      {
        TrimStep(TextsOf(lines), maxBytes, maxLines);
        ColorsExpire(sx, source, lines, nextLine, colorDirty, colorTail, expired);
        expired := true;
        ghost var was := lines;
        if |lines| > 1 {
          PopFirst();
        } else {
          CutFront(bytes - maxBytes, maxBytes, maxLines);
        }
        SurvivesTransitive(old(lines), was, lines);
        TrimStep(TextsOf(lines), maxBytes, maxLines);
      }
    }

    method PopFirst()
      requires Consistent() && expired && |lines| > 1
      modifies this
      ensures Consistent() && expired && bytes < old(bytes)
      ensures TextsOf(lines) == old(TextsOf(lines))[1..] && Survives(old(lines), lines)
    {
      hide Lawful, IndexOk, ColorsOk, Survives;
      LaterPop(g, View(), width, nextLine, dirtyFrom);
      IndexPop(g, View(), width, nextLine, dirtyFrom);
      ColorsPop(sx, source, lines, nextLine, colorDirty, colorTail);
      bytes := bytes - (|lines[0].text| + 1);
      if lines[0].firstRow.Some? {
        rows := rows[1..];
      }
      lines := lines[1..];
      assert TextsOf(lines) == old(TextsOf(lines))[1..];
    }

    method CutFront(at: nat, ghost maxBytes: nat, ghost maxLines: nat)
      requires Consistent() && expired && |lines| == 1 && maxBytes >= 1 && maxLines >= 1
      requires bytes > maxBytes && at == bytes - maxBytes
      modifies this
      ensures Consistent() && expired && bytes < old(bytes)
      ensures TextsOf(lines) == Trim(old(TextsOf(lines)), maxBytes, maxLines) && Survives(old(lines), lines)
    {
      hide Lawful, IndexOk, ColorsOk, Survives, Trim, Size, Cut;
      var line := lines[0];
      assert lines == [line];
      CutTrims(line, maxBytes, maxLines);
      var cut := NextBoundary(line.text, at);
      IndexCut(g, View(), width, nextLine, dirtyFrom, cut);
      ColorsCut(sx, source, lines, nextLine, colorDirty, colorTail, cut);
      LaterCut(line, cut);
      lines := [CutLine(line, cut)];
      bytes := bytes - cut;
      assert TextsOf(lines) == [line.text[cut..]];
      dirtyFrom, colorDirty := Earlier(dirtyFrom, line.id), Earlier(colorDirty, line.id);
    }

    method EnforceLimits()
      requires Consistent()
      modifies this
      ensures Valid() && Kept() == Limited(old(TextsOf(lines)), old(expired)) && Survives(old(lines), lines)
    {
      TrimToLimits(MAX_TRANSCRIPT_BYTES, MAX_TRANSCRIPT_LINES);
    }

    method NewLine()
      requires Consistent()
      modifies this
      ensures Valid() && Kept() == Limited(old(TextsOf(lines)) + [[]], old(expired)) && Survives(old(lines), lines)
    {
      AddEmptyLine();
      ghost var was := lines;
      EnforceLimits();
      SurvivesTransitive(old(lines), was, lines);
    }

    method AddEmptyLine()
      requires Consistent()
      modifies this
      ensures Consistent() && expired == old(expired)
      ensures TextsOf(lines) == old(TextsOf(lines)) + [[]] && Survives(old(lines), lines)
    {
      hide Lawful, IndexOk, ColorsOk, Survives;
      var line := LogicalLine(nextLine, [], 0, [], None, 0, []);
      IndexAddLine(g, View(), width, nextLine, dirtyFrom, line);
      ColorsAddLine(sx, source, View(), width, g, nextLine, dirtyFrom, colorDirty, colorTail, expired, line);
      SizeOneMore(TextsOf(lines));
      LaterAdd(lines, line);
      nextLine := nextLine + 1;
      lines := lines + [line];
      bytes := bytes + 1;
      dirtyFrom, colorDirty := Earlier(dirtyFrom, line.id), Earlier(colorDirty, line.id);
      assert TextsOf(lines) == old(TextsOf(lines)) + [[]];
    }

    method EnsureLine()
      requires Valid()
      modifies this
      ensures Valid() && lines != []
      ensures Kept() == old(Kept()).(lines := if old(lines) == [] then [[]] else old(TextsOf(lines))) && Survives(old(lines), lines)
    {
      SurvivesRefl(lines);
      if lines == [] {
        NewLine();
        assert Size([[]]) == 1;
      }
    }

    method AppendFragment(fragment: seq<Byte>)
      requires Valid()
      modifies this
      ensures Valid() && Kept() == AddText(old(Kept()), fragment) && Survives(old(lines), lines)
    {
      hide Survives;
      SurvivesRefl(lines);
      if fragment == [] {
        return;
      }
      EnsureLine();
      ghost var texts := TextsOf(lines);
      ghost var was := lines;
      PushText(fragment);
      SurvivesTransitive(old(lines), was, lines);
      was := lines;
      assert old(lines) == [] ==> AddToLast(texts, fragment) == [[] + fragment] && [] + fragment == fragment;
      EnforceLimits();
      SurvivesTransitive(old(lines), was, lines);
    }

    method PushText(fragment: seq<Byte>)
      requires Consistent() && lines != [] && fragment != []
      modifies this
      ensures Consistent() && expired == old(expired)
      ensures TextsOf(lines) == AddToLast(old(TextsOf(lines)), fragment) && Survives(old(lines), lines)
    {
      hide Lawful, IndexOk, ColorsOk, Survives;
      var last := |lines| - 1;
      var line := lines[last];
      var grown := lines[last := line.(text := line.text + fragment)];
      assert TextsOf(grown) == AddToLast(TextsOf(lines), fragment);
      JoinAddToLast(TextsOf(lines), fragment);
      IndexGrow(g, View(), width, nextLine, dirtyFrom, fragment);
      LaterGrow(lines, fragment);
      ColorsGrow(sx, source, View(), width, g, nextLine, dirtyFrom, colorDirty, colorTail, expired, fragment);
      lines := grown;
      bytes := bytes + |fragment|;
      dirtyFrom, colorDirty := Earlier(dirtyFrom, line.id), Earlier(colorDirty, line.id);
    }

    /** Text arrives character by character into a fragment that is handed over at line ends
        and from 4096 bytes on. The lines kept are those of a feed without fragments. */
    method Append(text: seq<char>)
      requires Valid()
      modifies this
      ensures Valid() && Kept() == Feed(old(Kept()), text)
      ensures Survives(old(lines), lines)
    {
      hide *;
      SurvivesRefl(lines);
      FeedNothing(Kept());
      if text == [] {
        return;
      }
      var fragment: seq<Byte> := [];
      for k := 0 to |text|
        invariant Valid() && Survives(old(lines), lines)
        invariant fragment == [] || !Continuation(fragment[0])
        invariant AddText(Kept(), fragment) == Feed(old(Kept()), text[..k])
      {
        FeedNext(old(Kept()), text, k);
        ghost var was := lines;
        if text[k] == '\n' {
          EndLine(fragment);
          FeedNothing(Kept());
          fragment := [];
        } else {
          SurvivesRefl(lines);
          AddTextSplits(Kept(), fragment, Clean(text[k]));
          fragment := fragment + Clean(text[k]);
        }
        SurvivesTransitive(old(lines), was, lines);
        if |fragment| >= 4096 {
          was := lines;
          AppendFragment(fragment);
          FeedNothing(Kept());
          fragment := [];
          SurvivesTransitive(old(lines), was, lines);
        }
      }
      assert text[..|text|] == text;
      ghost var was := lines;
      AppendFragment(fragment);
      SurvivesTransitive(old(lines), was, lines);
    }

    lemma Pieces()
      requires Valid()
      ensures Lawful(g) && IndexOk(g, Index(lines, rows, nextRow), width, nextLine, dirtyFrom) && bytes == Size(TextsOf(lines))
      ensures ColorsOk(sx, source, lines, nextLine, colorDirty, colorTail, expired)
      ensures bytes <= MAX_TRANSCRIPT_BYTES && |lines| <= MAX_TRANSCRIPT_LINES
    {
    }

    lemma FromPieces()
      requires Lawful(g) && IndexOk(g, Index(lines, rows, nextRow), width, nextLine, dirtyFrom) && bytes == Size(TextsOf(lines))
      requires ColorsOk(sx, source, lines, nextLine, colorDirty, colorTail, expired)
      requires bytes <= MAX_TRANSCRIPT_BYTES && |lines| <= MAX_TRANSCRIPT_LINES
      ensures Valid()
    {
    }

    method EndLine(fragment: seq<Byte>)
      requires Valid()
      modifies this
      ensures Valid() && Kept() == AddLine(AddText(old(Kept()), fragment)) && Survives(old(lines), lines)
    {
      hide Survives;
      AppendFragment(fragment);
      ghost var was := lines;
      EnsureLine();
      SurvivesTransitive(old(lines), was, lines);
      was := lines;
      NewLine();
      SurvivesTransitive(old(lines), was, lines);
    }

    /** Brings colours, row starts and row index up to date for a view of this width. Only
        lines from the first changed one on are looked at; the result is that of wrapping and
        colouring all lines from scratch. */
    method Layout(newWidth: nat) returns (examined: nat)
      requires Valid()
      modifies this
      ensures Valid() && SameText(old(lines), lines) && Survives(old(lines), lines) && expired == old(expired)
      ensures width == Max(newWidth, 1) && dirtyFrom == None
      ensures LaidOut(g, View(), width)
      ensures !expired ==> forall i :: 0 <= i < |lines| ==> lines[i].colors == ColorsOf(sx, source, TextsOf(lines), i)
      ensures old(dirtyFrom) == None && old(width) == width ==> examined == 0
    {
      hide Lawful, IndexOk, ColorsOk, Wrapped, LaidOut, Coloured, Survives;
      Highlight();
      var newWidth := Max(newWidth, 1);
      label coloured:
      if newWidth != width {
        ForgetLayout(newWidth);
        assert SameText(old@coloured(lines), lines);
      }
      SameTextTransitive(old(lines), old@coloured(lines), lines);
      ColorsCurrent(sx, source, lines, nextLine, colorTail, expired);
      if dirtyFrom.None? {
        IndexCurrent(g, View(), width, nextLine);
        LaterSame(old(lines), lines);
        return 0;
      }
      label before:
      examined := LayFrom(FirstFrom(lines, dirtyFrom.value));
      SameTextTransitive(old(lines), old@before(lines), lines);
      ColorsCurrent(sx, source, lines, nextLine, colorTail, expired);
      LaterSame(old(lines), lines);
    }

    /** A new width makes every row start and row entry stale. */
    method ForgetLayout(newWidth: nat)
      requires Valid() && newWidth >= 1
      modifies this`lines, this`rows, this`nextRow, this`dirtyFrom, this`width
      ensures Valid() && SameText(old(lines), lines) && width == newWidth
      ensures forall i :: 0 <= i < |lines| ==> lines[i].colors == old(lines)[i].colors
    {
      hide Lawful, ColorsOk, IndexOk;
      ghost var was, ix := lines, View();
      assert IndexOk(g, ix, width, nextLine, dirtyFrom);
      for i := 0 to |lines|
        invariant |lines| == |was| && width == old(width) && dirtyFrom == old(dirtyFrom)
        invariant forall j :: 0 <= j < |lines| ==> lines[j] == if j < i then Unlaid(was[j]) else was[j]
      {
        lines := lines[i := Unlaid(lines[i])];
      }
      IndexReset(g, ix, width, nextLine, dirtyFrom, lines, newWidth);
      rows, nextRow := [], 0;
      dirtyFrom := if lines == [] then None else Some(lines[0].id);
      width := newWidth;
      SameTextSameColors(sx, source, was, lines, nextLine, colorDirty, colorTail, expired);
    }

    method LayFrom(first: nat) returns (examined: nat)
      requires Valid() && width >= 1 && dirtyFrom.Some? && first == FirstFrom(lines, dirtyFrom.value)
      modifies this`lines, this`rows, this`nextRow, this`dirtyFrom
      ensures Valid() && SameText(old(lines), lines) && dirtyFrom == None
      ensures forall i :: 0 <= i < |lines| ==> lines[i].colors == old(lines)[i].colors
      ensures LaidOut(g, View(), width)
    {
      hide Lawful, IndexOk, ColorsOk, Wrapped, LaidOut, Partial, Forgotten, SameTextAndColors, SameText, FirstFrom, RowsBefore, TextsOf, Rows, Size;
      ghost var was := lines;
      SameRefl(lines);
      ghost var ix := LayStart(g, View(), width, nextLine, dirtyFrom);
      dirtyFrom := None;
      var row: nat := if lines[first].firstRow.Some? then lines[first].firstRow.value else nextRow;
      rows := RowsBefore(rows, row);
      examined := 0;
      for i := first to |lines|
        invariant SameTextAndColors(was, lines) && |lines| == |was| && dirtyFrom == None
        invariant Wrapped(g, ix, width, i) && ix == Index(Forgotten(lines, i), rows, row) && |rows| == i
        invariant i == 0 || row == rows[i - 1].row + |lines[i - 1].starts|
      {
        ForgottenStep(lines, i);
        LinePartial(g, ix, width, i, lines[i]);
        var line, n := Reflow(g, lines[i], width);
        line := line.(firstRow := Some(row));
        examined := examined + n;
        LayOne(g, ix, width, i, line);
        ForgottenUpdate(lines, i, line);
        SameUpdate(was, lines, i, line);
        lines := lines[i := line];
        rows := rows + [RowStart(row, line.id)];
        row := row + |line.starts|;
        ix := Index(Forgotten(lines, i + 1), rows, row);
      }
      nextRow := row;
      ForgottenNone(lines);
      SameIsSame(was, lines);
      SameTextSameColors(sx, source, was, lines, nextLine, colorDirty, colorTail, expired);
      LayDone(g, View(), width, nextLine);
    }

    /** Colours lines from the first changed one on, starting from a saved parser state. */
    method Highlight()
      requires Valid()
      modifies this`lines, this`colorDirty, this`colorTail
      ensures Valid() && SameButColors(old(lines), lines) && colorDirty == None
    {
      if colorDirty.None? {
        return;
      }
      var first := FirstFrom(lines, colorDirty.value);
      if source.Plain? {
        PlainColors(sx, source, lines, nextLine, colorDirty, colorTail, expired);
        colorDirty := None;
        return;
      }
      HighlightFrom(first);
    }

    method HighlightFrom(first: nat)
      requires Valid() && !source.Plain? && colorDirty.Some? && first == FirstFrom(lines, colorDirty.value)
      modifies this`lines, this`colorDirty, this`colorTail
      ensures Valid() && SameButColors(old(lines), lines) && colorDirty == None
    {
      hide *;
      Pieces();
      ghost var was := lines;
      ghost var texts := TextsOf(lines);
      ColorFirst(g, sx, source, Index(lines, rows, nextRow), width, nextLine, dirtyFrom, colorDirty, colorTail, expired);
      var id := lines[first].id;
      var state :=
        if colorTail.Some? && colorTail.value.id == id then colorTail.value.before
        else if colorTail.Some? && colorTail.value.id < id then colorTail.value.after
        else NewState(sx, source);
      PassingStart(sx, source, lines, nextLine, colorDirty, colorTail, expired, state);
      colorDirty := None;
      for i := first to |lines|
        invariant |lines| == |was| && SameButColors(was, lines) && ColorsOrdered(lines) && TextsOf(lines) == texts
        invariant colorDirty == None
        invariant !expired ==> Passing(sx, source, texts, lines, first, i, state, colorTail)
      {
        var before := state;
        var line := Colour(sx, state, lines[i].text);
        state := line.state;
        PassingStep(sx, source, was, lines, first, i, before, colorTail, expired);
        lines := lines[i := lines[i].(colors := line.colors)];
        colorTail := Some(Tail(lines[i].id, before, state));
      }
      PassingDone(sx, source, lines, nextLine, first, state, colorTail, expired);
      SameButColorsIndex(g, Index(was, rows, nextRow), width, nextLine, dirtyFrom, lines);
      FromPieces();
    }

    /** The rows from `offset` on, as many as the view is high: no more, and none moved, each byte
        in the style its line gives it. */
    method StyledRows(offset: nat, height: nat) returns (result: seq<seq<Span>>)
      requires Valid() && LaidOut(g, View(), width)
      ensures var all := AllRows(lines);
              |result| == Min(height, Minus(|all|, offset)) && (result == [] || IsSlice(result, lines, offset))
    {
      hide Valid, Consistent, AllRows, AllStyles, LaidOut, LastAtMost, FirstFrom, IsSlice;
      result := [];
      RowCountIsAllRows(g, View(), width);
      NoSlice(lines, offset);
      if height == 0 || rows == [] || offset >= RowCount(View()) {
        return;
      }
      var top := FirstRow(View()) + offset;
      TopIsInside(View(), offset);
      RowIsInLine(g, View(), width, top);
      var first := LastAtMost(rows, top);
      for i := first to |rows|
        invariant |result| < height
        invariant |result| == Minus(if i < |rows| then rows[i].row else nextRow, top)
        invariant first < i < |rows| ==> top <= rows[i].row
        invariant IsSlice(result, lines, offset)
      {
        LaidNext(g, View(), width, i);
        var found := LineAt(rows[i].id);
        var from := Minus(top, rows[i].row);
        LineIsReady(i);
        var more := RowsOfLine(g, found, width, from, height - |result|);
        LaidRowsAt(g, View(), width, i);
        SliceGoesOn(result, more, lines, offset, i, from);
        result := result + more;
        if |result| == height {
          SliceFits(result, lines, offset);
          return;
        }
      }
    }

    lemma LineIsReady(i: nat)
      requires Valid() && LaidOut(g, View(), width) && i < |lines|
      ensures Exact(g, lines[i], width) && Ordered(lines[i].colors)
    {
      LaidLine(g, View(), width, i);
      hide Lawful, IndexOk, LaidOut, Exact, Ordered;
    }

    /** The line under a key the index mentions. */
    function LineAt(id: nat): LogicalLine
      requires FirstFrom(lines, id) < |lines|
      reads this
    {
      lines[FirstFrom(lines, id)]
    }
  }

  /** A piece of one row in one style. */
  datatype Span = Span(text: seq<Byte>, style: Option<nat>)

  function Content(spans: seq<Span>): seq<Byte> {
    if spans == [] then [] else Content(spans[..|spans| - 1]) + spans[|spans| - 1].text
  }

  /** The style of each byte. */
  function Styles(spans: seq<Span>): (styles: seq<Option<nat>>) {
    if spans == [] then []
    else
      var last := spans[|spans| - 1];
      Styles(spans[..|spans| - 1]) + seq(|last.text|, _ => last.style)
  }

  /** The styles a line gives to the bytes of one of its rows. */
  function RowStyles(line: LogicalLine, j: nat): seq<Option<nat>>
    requires j < |line.starts|
  {
    seq(|RowText(line, j)|, k => if k >= 0 then StyleAt(line.colors, line.starts[j] + k) else None)
  }

  function LineStyles(line: LogicalLine): seq<seq<Option<nat>>> {
    seq(|line.starts|, j requires 0 <= j < |line.starts| => RowStyles(line, j))
  }

  /** The styles of all rows laid end to end. */
  function AllStyles(lines: seq<LogicalLine>): (styles: seq<seq<Option<nat>>>)
    ensures |styles| == |AllRows(lines)|
  {
    if lines == [] then [] else AllStyles(lines[..|lines| - 1]) + LineStyles(lines[|lines| - 1])
  }

  /** The spans are row `j` of the line, in its styles. */
  predicate Depicts(spans: seq<Span>, line: LogicalLine, j: nat)
    requires j < |line.starts|
  {
    Content(spans) == RowText(line, j) && Styles(spans) == RowStyles(line, j)
  }

  /** The rows shown are all rows from `offset` on, in their styles. */
  ghost predicate IsSlice(result: seq<seq<Span>>, lines: seq<LogicalLine>, offset: nat) {
    && offset + |result| <= |AllRows(lines)|
    && forall k :: 0 <= k < |result| ==>
         Content(result[k]) == AllRows(lines)[offset + k] && Styles(result[k]) == AllStyles(lines)[offset + k]
  }

  lemma {:induction false} AllStylesAt(lines: seq<LogicalLine>, i: nat, j: nat)
    requires i < |lines| && j < |lines[i].starts|
    ensures |AllRows(lines[..i])| + j < |AllRows(lines)|
    ensures AllStyles(lines)[|AllRows(lines[..i])| + j] == RowStyles(lines[i], j)
  {
    hide *;
    AllRowsAt(lines, i, j);
    var front := lines[..|lines| - 1];
    AllStylesStep(lines);
    if i == |lines| - 1 {
      LineStylesAt(lines[i], j);
      assert lines[..i] == front;
    } else {
      AllStylesAt(front, i, j);
      assert front[..i] == lines[..i] && front[i] == lines[i];
      AllStylesSize(front);
    }
  }

  lemma AllStylesStep(lines: seq<LogicalLine>)
    requires lines != []
    ensures AllStyles(lines) == AllStyles(lines[..|lines| - 1]) + LineStyles(lines[|lines| - 1])
    ensures |AllStyles(lines[..|lines| - 1])| == |AllRows(lines[..|lines| - 1])|
  {
    hide LineStyles;
  }

  lemma AllStylesSize(lines: seq<LogicalLine>)
    ensures |AllStyles(lines)| == |AllRows(lines)|
  {
    hide *;
  }

  lemma LineStylesAt(line: LogicalLine, j: nat)
    requires j < |line.starts|
    ensures j < |LineStyles(line)| && LineStyles(line)[j] == RowStyles(line, j)
  {
    hide RowStyles;
  }

  lemma FeedNothing(r: Retained)
    ensures AddText(r, []) == r && Feed(r, []) == r
  {
  }

  lemma FeedNext(r: Retained, text: seq<char>, k: nat)
    requires k < |text|
    ensures text[k] == '\n' ==> Feed(r, text[..k + 1]) == AddLine(Feed(r, text[..k]))
    ensures text[k] != '\n' ==> Feed(r, text[..k + 1]) == AddText(Feed(r, text[..k]), Clean(text[k]))
    ensures text[..0] == []
  {
    assert text[..k + 1][..k] == text[..k];
  }

  lemma SliceFits(result: seq<seq<Span>>, lines: seq<LogicalLine>, offset: nat)
    requires IsSlice(result, lines, offset)
    ensures offset + |result| <= |AllRows(lines)|
  {
  }

  lemma NoSlice(lines: seq<LogicalLine>, offset: nat)
    ensures offset <= |AllRows(lines)| ==> IsSlice([], lines, offset)
  {
  }

  lemma SliceGoesOn(result: seq<seq<Span>>, more: seq<seq<Span>>, lines: seq<LogicalLine>, offset: nat, i: nat, from: nat)
    requires IsSlice(result, lines, offset) && i < |lines| && from + |more| <= |lines[i].starts|
    requires offset + |result| == |AllRows(lines[..i])| + from
    requires forall k :: 0 <= k < |more| ==> Depicts(more[k], lines[i], from + k)
    ensures IsSlice(result + more, lines, offset)
  {
    hide AllRows, AllStyles, Content, Styles, RowText, RowStyles;
    forall k | 0 <= k < |more|
      ensures offset + |result| + k < |AllRows(lines)|
      ensures Content(more[k]) == AllRows(lines)[offset + |result| + k] && Styles(more[k]) == AllStyles(lines)[offset + |result| + k]
    {
      AllRowsAt(lines, i, from + k);
      AllStylesAt(lines, i, from + k);
    }
    if more != [] {
      AllRowsAt(lines, i, from + |more| - 1);
    }
  }

  lemma ContentMore(spans: seq<Span>, span: Span)
    ensures Content(spans + [span]) == Content(spans) + span.text
  {
    assert (spans + [span])[..|spans|] == spans;
  }

  /** The bytes from `start` on have been given the styles of the line. */
  predicate Styled(spans: seq<Span>, colors: seq<ColorRange>, start: nat, end: nat) {
    && start + |Styles(spans)| == end
    && forall at :: start <= at < end ==> Styles(spans)[at - start] == StyleAt(colors, at)
  }

  lemma StyledMore(spans: seq<Span>, span: Span, colors: seq<ColorRange>, start: nat, end: nat)
    requires Styled(spans, colors, start, end)
    requires forall at :: end <= at < end + |span.text| ==> StyleAt(colors, at) == span.style
    ensures Styled(spans + [span], colors, start, end + |span.text|)
  {
    assert (spans + [span])[..|spans|] == spans;
    assert Styles(spans + [span]) == Styles(spans) + seq(|span.text|, _ => span.style);
    hide Styles, StyleAt;
  }

  lemma StyledRow(spans: seq<Span>, line: LogicalLine, j: nat)
    requires j < |line.starts| && line.starts[j] <= RowEnd(line.text, line.starts, j) <= |line.text|
    requires Styled(spans, line.colors, line.starts[j], RowEnd(line.text, line.starts, j))
    ensures Styles(spans) == RowStyles(line, j)
  {
    hide Styles, StyleAt, RowEnd;
    forall k | 0 <= k < |Styles(spans)| ensures Styles(spans)[k] == RowStyles(line, j)[k] {
      assert Styles(spans)[line.starts[j] + k - line.starts[j]] == StyleAt(line.colors, line.starts[j] + k);
    }
  }

  /** A row has been shown up to `end`. */
  predicate Partly(spans: seq<Span>, line: LogicalLine, start: nat, end: nat) {
    start <= end <= |line.text| && Content(spans) == line.text[start..end] && Styled(spans, line.colors, start, end)
  }

  lemma NoPiece(line: LogicalLine, start: nat)
    requires start <= |line.text|
    ensures Partly([], line, start, start)
  {
    ContentEmpty();
    NotStyled(line.colors, start);
  }

  lemma OnePiece(spans: seq<Span>, line: LogicalLine, start: nat, from: nat, to: nat, style: Option<nat>)
    requires Partly(spans, line, start, from) && from <= to <= |line.text|
    requires forall at :: from <= at < to ==> StyleAt(line.colors, at) == style
    ensures Partly(spans + [Span(line.text[from..to], style)], line, start, to)
  {
    var piece := Span(line.text[from..to], style);
    hide Content, Styled, StyleAt;
    ContentMore(spans, piece);
    Joined(line.text, start, from, to);
    StyledMore(spans, piece, line.colors, start, from);
  }

  lemma WholeRow(spans: seq<Span>, line: LogicalLine, j: nat)
    requires j < |line.starts| && Partly(spans, line, line.starts[j], RowEnd(line.text, line.starts, j))
    ensures Depicts(spans, line, j)
  {
    hide Content, Styled;
    StyledRow(spans, line, j);
  }

  lemma RowInside(g: Segmenter, line: LogicalLine, width: nat, j: nat)
    requires Exact(g, line, width) && j < |line.starts|
    ensures line.starts[j] <= RowEnd(line.text, line.starts, j) <= |line.text|
  {
    RowsIncreasing(g, line.text, width);
    hide Rows;
  }

  /** The rows of one line from `from` on, at most `count`. */
  method RowsOfLine(g: Segmenter, line: LogicalLine, width: nat, from: nat, count: nat) returns (result: seq<seq<Span>>)
    requires Exact(g, line, width) && Ordered(line.colors) && from <= |line.starts|
    ensures |result| == Min(count, |line.starts| - from)
    ensures forall k :: 0 <= k < |result| ==> Depicts(result[k], line, from + k)
  {
    hide Depicts, Exact, Ordered;
    result := [];
    var index := from;
    while index < |line.starts| && |result| < count
      invariant from <= index <= |line.starts| && |result| == index - from <= count
      invariant forall k :: 0 <= k < |result| ==> Depicts(result[k], line, from + k)
    {
      var spans := SpansOf(g, line, width, index);
      result := result + [spans];
      index := index + 1;
    }
  }

  /** The pieces of row `index`: together they are the row, each byte in the style of the line. */
  method SpansOf(g: Segmenter, line: LogicalLine, width: nat, index: nat) returns (spans: seq<Span>)
    requires Exact(g, line, width) && index < |line.starts| && Ordered(line.colors)
    ensures Depicts(spans, line, index)
  {
    hide Exact, Depicts, Partly, StyleAt, Ordered, RowEnd;
    RowInside(g, line, width, index);
    var start := line.starts[index];
    var end := RowEnd(line.text, line.starts, index);
    spans := [];
    NoPiece(line, start);
    var from := 0;
    var k := 0;
    while k < |line.colors|
      invariant k <= |line.colors| && from == (if k == 0 then 0 else line.colors[k - 1].end)
      invariant Partly(spans, line, start, Min(Max(from, start), end))
    {
      var range := line.colors[k];
      RangeStyles(line.colors, k);
      if range.end > start && from < end {
        OnePiece(spans, line, start, Max(from, start), Min(range.end, end), Some(range.style));
        spans := spans + [Span(line.text[Max(from, start)..Min(range.end, end)], Some(range.style))];
      }
      from := range.end;
      k := k + 1;
      if from >= end {
        break;
      }
    }
    if from < end {
      NoRangeStyles(line.colors, from);
      OnePiece(spans, line, start, Max(from, start), end, None);
      spans := spans + [Span(line.text[Max(from, start)..end], None)];
    }
    WholeRow(spans, line, index);
  }

  lemma NotStyled(colors: seq<ColorRange>, start: nat)
    ensures Styled([], colors, start, start)
  {
  }

  /** Between the range in front and its own end a range gives its style. */
  lemma {:induction false} RangeStyles(colors: seq<ColorRange>, k: nat)
    requires Ordered(colors) && k < |colors|
    ensures forall at :: (k == 0 || colors[k - 1].end <= at) && 0 <= at < colors[k].end ==> StyleAt(colors, at) == Some(colors[k].style)
    ensures k > 0 ==> colors[k - 1].end <= colors[k].end
  {
    var n := |colors| - 1;
    if k < n {
      RangeStyles(colors[..n], k);
    } else {
      if k > 0 {
        NoRangeStyles(colors[..n], colors[k - 1].end);
      }
    }
  }

  lemma {:induction false} NoRangeStyles(colors: seq<ColorRange>, from: nat)
    requires Ordered(colors) && (colors != [] ==> colors[|colors| - 1].end <= from)
    ensures forall at :: from <= at ==> StyleAt(colors, at) == None
  {
    if colors != [] {
      NoRangeStyles(colors[..|colors| - 1], from);
    }
  }

  lemma Joined(text: seq<Byte>, a: nat, b: nat, c: nat)
    requires a <= b <= c <= |text|
    ensures text[a..b] + text[b..c] == text[a..c]
  {
  }

  lemma ContentEmpty()
    ensures Content([]) == []
  {
  }

  /** Two versions of the lines with the same keys, texts and origins. */
  predicate SameText(a: seq<LogicalLine>, b: seq<LogicalLine>) {
    |a| == |b| && forall i :: 0 <= i < |a| ==> b[i].id == a[i].id && b[i].text == a[i].text && b[i].origin == a[i].origin
  }

  lemma SameTextTransitive(a: seq<LogicalLine>, b: seq<LogicalLine>, c: seq<LogicalLine>)
    requires SameText(a, b) && SameText(b, c)
    ensures SameText(a, c)
  {
  }

  lemma SameTextSameColors(sx: Syntax, source: Source, a: seq<LogicalLine>, b: seq<LogicalLine>, nextLine: nat,
                           dirty: Option<nat>, tail: Option<Tail>, expired: bool)
    requires SameText(a, b) && ColorsOk(sx, source, a, nextLine, dirty, tail, expired)
    requires forall i :: 0 <= i < |a| ==> b[i].colors == a[i].colors
    ensures ColorsOk(sx, source, b, nextLine, dirty, tail, expired) && TextsOf(a) == TextsOf(b)
  {
    assert TextsOf(a) == TextsOf(b);
    if dirty.Some? {
      SameIdsSameFirst(a, b, dirty.value);
    }
  }

  lemma ColorsCurrent(sx: Syntax, source: Source, lines: seq<LogicalLine>, nextLine: nat, tail: Option<Tail>, expired: bool)
    requires ColorsOk(sx, source, lines, nextLine, None, tail, expired)
    ensures !expired ==> forall i :: 0 <= i < |lines| ==> lines[i].colors == ColorsOf(sx, source, TextsOf(lines), i)
  {
  }

  function Unlaid(line: LogicalLine): LogicalLine {
    line.(firstRow := None, width := 0)
  }

  lemma IndexReset(g: Segmenter, ix: Index, width: nat, nextLine: nat, dirty: Option<nat>, lines: seq<LogicalLine>, newWidth: nat)
    requires IndexOk(g, ix, width, nextLine, dirty) && |lines| == |ix.lines|
    requires forall i :: 0 <= i < |lines| ==> lines[i] == Unlaid(ix.lines[i])
    ensures IndexOk(g, Index(lines, [], 0), newWidth, nextLine, if lines == [] then None else Some(lines[0].id))
  {
  }

  lemma IndexCurrent(g: Segmenter, ix: Index, width: nat, nextLine: nat)
    requires IndexOk(g, ix, width, nextLine, None)
    ensures LaidOut(g, ix, width)
  {
  }

  lemma LayDone(g: Segmenter, ix: Index, width: nat, nextLine: nat)
    requires Wrapped(g, ix, width, |ix.lines|) && ix.lines != [] && nextLine == ix.lines[0].id + |ix.lines|
    ensures IndexOk(g, ix, width, nextLine, None) && LaidOut(g, ix, width)
  {
  }

  /** The leading entries before `row`. */
  function RowsBefore(rows: seq<RowStart>, row: nat): seq<RowStart> {
    if rows == [] || row <= rows[0].row then [] else [rows[0]] + RowsBefore(rows[1..], row)
  }

  lemma {:induction false} RowsBeforeEntry(rows: seq<RowStart>, row: nat, n: nat)
    requires RowsAscend(rows) && n <= |rows|
    requires (forall i :: 0 <= i < n ==> rows[i].row < row) && (n < |rows| ==> row <= rows[n].row)
    ensures RowsBefore(rows, row) == rows[..n]
  {
    if n > 0 {
      RowsBeforeEntry(rows[1..], row, n - 1);
      assert rows[..n] == [rows[0]] + rows[1..][..n - 1];
    }
  }

  function Forgotten(lines: seq<LogicalLine>, clean: nat): seq<LogicalLine> {
    seq(|lines|, i requires 0 <= i < |lines| => if i < clean then lines[i] else lines[i].(firstRow := None))
  }

  lemma ForgottenStep(lines: seq<LogicalLine>, i: nat)
    requires i < |lines|
    ensures |Forgotten(lines, i)| == |lines| && Forgotten(lines, i)[i] == lines[i].(firstRow := None)
    ensures i > 0 ==> Forgotten(lines, i)[i - 1] == lines[i - 1]
  {
  }

  lemma ForgottenUpdate(lines: seq<LogicalLine>, i: nat, line: LogicalLine)
    requires i < |lines| && |Forgotten(lines, i)| == |lines|
    ensures Forgotten(lines, i)[i := line] == Forgotten(lines[i := line], i + 1)
  {
  }

  lemma ForgottenNone(lines: seq<LogicalLine>)
    ensures Forgotten(lines, |lines|) == lines
  {
  }

  ghost predicate SameTextAndColors(a: seq<LogicalLine>, b: seq<LogicalLine>) {
    SameText(a, b) && forall i :: 0 <= i < |a| ==> b[i].colors == a[i].colors
  }

  lemma SameRefl(a: seq<LogicalLine>)
    ensures SameTextAndColors(a, a)
  {
  }

  lemma SameUpdate(a: seq<LogicalLine>, b: seq<LogicalLine>, i: nat, line: LogicalLine)
    requires SameTextAndColors(a, b) && i < |b|
    requires line.id == b[i].id && line.text == b[i].text && line.origin == b[i].origin && line.colors == b[i].colors
    ensures SameTextAndColors(a, b[i := line]) && |a| == |b|
  {
  }

  lemma SameIsSame(a: seq<LogicalLine>, b: seq<LogicalLine>)
    requires SameTextAndColors(a, b)
    ensures SameText(a, b) && forall i :: 0 <= i < |a| ==> b[i].colors == a[i].colors
    ensures a != [] ==> b[0].id == a[0].id
  {
  }

  lemma LayStart(g: Segmenter, ix: Index, width: nat, nextLine: nat, dirty: Option<nat>) returns (forgot: Index)
    requires IndexOk(g, ix, width, nextLine, dirty) && dirty.Some?
    ensures var first := FirstFrom(ix.lines, dirty.value);
            && first < |ix.lines| && nextLine == ix.lines[0].id + |ix.lines|
            && var row := if ix.lines[first].firstRow.Some? then ix.lines[first].firstRow.value else ix.nextRow;
               && forgot == Index(Forgotten(ix.lines, first), RowsBefore(ix.rows, row), row)
               && |forgot.rows| == first && Wrapped(g, forgot, width, first)
               && (first == 0 || row == forgot.rows[first - 1].row + |ix.lines[first - 1].starts|)
  {
    FirstFromId(ix.lines, dirty.value);
    var first := FirstFrom(ix.lines, dirty.value);
    ForgetRows(g, ix, width, first, Forgotten(ix.lines, first));
    var row := if first < |ix.rows| then ix.rows[first].row else ix.nextRow;
    hide Partial, Exact, AllPartial;
    assert forall i :: 0 <= i < first ==> ix.rows[i].row < row by {
      RowsBelow(g, ix, width, first);
    }
    RowsBeforeEntry(ix.rows, row, first);
    forgot := Index(Forgotten(ix.lines, first), RowsBefore(ix.rows, row), row);
  }

  lemma RowsBelow(g: Segmenter, ix: Index, width: nat, clean: nat)
    requires Wrapped(g, ix, width, clean)
    ensures var row := if clean < |ix.rows| then ix.rows[clean].row else ix.nextRow;
            forall i :: 0 <= i < clean ==> ix.rows[i].row < row
  {
    if clean > 0 {
      assert Exact(g, ix.lines[clean - 1], width) && RowAfter(ix.rows, ix.nextRow, clean - 1) == ix.rows[clean - 1].row + |ix.lines[clean - 1].starts|;
      assert forall i :: 0 <= i < clean - 1 ==> ix.rows[i].row < ix.rows[clean - 1].row;
    }
  }

  lemma LinePartial(g: Segmenter, ix: Index, width: nat, i: nat, line: LogicalLine)
    requires Wrapped(g, ix, width, i) && i < |ix.lines|
    requires line.text == ix.lines[i].text && line.starts == ix.lines[i].starts && line.width == ix.lines[i].width
    ensures Partial(g, line)
  {
    PartialSame(g, ix.lines[i], line);
  }

  lemma ColorFirst(g: Segmenter, sx: Syntax, source: Source, ix: Index, width: nat, nextLine: nat,
                   dirtyFrom: Option<nat>, dirty: Option<nat>, tail: Option<Tail>, expired: bool)
    requires IndexOk(g, ix, width, nextLine, dirtyFrom) && ColorsOk(sx, source, ix.lines, nextLine, dirty, tail, expired)
    requires dirty.Some?
    ensures Consecutive(ix.lines) && FirstFrom(ix.lines, dirty.value) < |ix.lines|
    ensures nextLine == ix.lines[0].id + |ix.lines|
    ensures !expired ==> forall i :: 0 <= i < |ix.lines| ==> ix.lines[i].id == i
  {
    FirstFromId(ix.lines, dirty.value);
    assert forall i :: 0 < i < |ix.lines| ==> ix.lines[i].id == ix.lines[0].id + (i - 0);
  }

  lemma PlainColors(sx: Syntax, source: Source, lines: seq<LogicalLine>, nextLine: nat, dirty: Option<nat>, tail: Option<Tail>, expired: bool)
    requires ColorsOk(sx, source, lines, nextLine, dirty, tail, expired) && source.Plain?
    ensures ColorsOk(sx, source, lines, nextLine, None, tail, expired)
  {
    var texts := TextsOf(lines);
    forall i | 0 <= i < |lines| ensures ColorsOf(sx, source, texts, i) == [] {
      PlainPass(sx, texts[..i]);
      PlainIsPlain(sx, StateAfter(sx, source, texts[..i]), texts[i]);
    }
  }

  /** A pass over the lines that has come to line `i` and started at `first`. */
  ghost predicate Passing(sx: Syntax, source: Source, texts: seq<seq<Byte>>, lines: seq<LogicalLine>, first: nat, i: nat, state: State, tail: Option<Tail>) {
    && first <= i <= |lines| == |texts|
    && (forall j :: 0 <= j < |lines| ==> lines[j].id == j)
    && state == StateAfter(sx, source, texts[..i])
    && (forall j :: 0 <= j < i ==> lines[j].colors == ColorsOf(sx, source, texts, j))
    && (i > first ==> tail.Some? && tail.value.id == i - 1
                      && tail.value.before == StateAfter(sx, source, texts[..i - 1]) && tail.value.after == state)
  }

  lemma PassingStart(sx: Syntax, source: Source, lines: seq<LogicalLine>, nextLine: nat, dirty: Option<nat>, tail: Option<Tail>, expired: bool, state: State)
    requires ColorsOk(sx, source, lines, nextLine, dirty, tail, expired) && !source.Plain? && dirty.Some?
    requires FirstFrom(lines, dirty.value) < |lines|
    requires !expired ==> forall i :: 0 <= i < |lines| ==> lines[i].id == i
    requires state == var id := lines[FirstFrom(lines, dirty.value)].id;
             if tail.Some? && tail.value.id == id then tail.value.before
             else if tail.Some? && tail.value.id < id then tail.value.after
             else NewState(sx, source)
    ensures !expired ==> Passing(sx, source, TextsOf(lines), lines, FirstFrom(lines, dirty.value), FirstFrom(lines, dirty.value), state, tail)
    ensures ColorsOrdered(lines) && SameButColors(lines, lines)
  {
    NewStateAfter(sx, source);
    assert TextsOf(lines)[..0] == [];
  }

  lemma PassingStep(sx: Syntax, source: Source, was: seq<LogicalLine>, lines: seq<LogicalLine>, first: nat, i: nat, state: State, tail: Option<Tail>, expired: bool)
    requires i < |lines| && |lines| == |was| && SameButColors(was, lines) && ColorsOrdered(lines)
    requires !expired ==> Passing(sx, source, TextsOf(lines), lines, first, i, state, tail)
    ensures var line := LineOf(sx, state, lines[i].text);
            var next := lines[i := lines[i].(colors := line.colors)];
            && SameButColors(was, next) && ColorsOrdered(next) && TextsOf(next) == TextsOf(lines)
            && (!expired ==> Passing(sx, source, TextsOf(lines), next, first, i + 1, line.state, Some(Tail(lines[i].id, state, line.state))))
  {
    var line := LineOf(sx, state, lines[i].text);
    var next := lines[i := lines[i].(colors := line.colors)];
    LineIsOrdered(sx, state, lines[i].text);
    hide LineOf, Ordered;
    assert TextsOf(next) == TextsOf(lines);
    if !expired {
      StateStep(sx, source, TextsOf(lines), i);
    }
  }

  lemma PassingDone(sx: Syntax, source: Source, lines: seq<LogicalLine>, nextLine: nat, first: nat, state: State, tail: Option<Tail>, expired: bool)
    requires first < |lines| && ColorsOrdered(lines) && !source.Plain?
    requires !expired ==> Passing(sx, source, TextsOf(lines), lines, first, |lines|, state, tail)
    ensures ColorsOk(sx, source, lines, nextLine, None, tail, expired)
  {
    assert TextsOf(lines)[..|lines|] == TextsOf(lines);
  }

  lemma NewStateAfter(sx: Syntax, source: Source)
    ensures StateAfter(sx, source, []) == NewState(sx, source)
  {
  }

  lemma SameButColorsIndex(g: Segmenter, ix: Index, width: nat, nextLine: nat, dirty: Option<nat>, lines: seq<LogicalLine>)
    requires IndexOk(g, ix, width, nextLine, dirty) && SameButColors(ix.lines, lines)
    ensures IndexOk(g, ix.(lines := lines), width, nextLine, dirty) && TextsOf(lines) == TextsOf(ix.lines)
  {
    ColorsDoNotMatter(g, ix, width, CleanCount(ix.lines, dirty), lines);
  }

  lemma TopIsInside(ix: Index, offset: nat)
    requires offset < RowCount(ix)
    ensures FirstRow(ix) <= FirstRow(ix) + offset < ix.nextRow
  {
  }

  lemma LaidNext(g: Segmenter, ix: Index, width: nat, i: nat)
    requires LaidOut(g, ix, width) && i < |ix.rows|
    ensures |ix.rows| == |ix.lines| && ix.rows[i].id == ix.lines[i].id && FirstFrom(ix.lines, ix.rows[i].id) == i
    ensures (if i + 1 < |ix.rows| then ix.rows[i + 1].row else ix.nextRow) == ix.rows[i].row + |ix.lines[i].starts|
  {
    assert RowAfter(ix.rows, ix.nextRow, i) == ix.rows[i].row + |ix.lines[i].starts|;
    LineIsFound(ix.lines, i);
  }

  lemma FirstFromTail(lines: seq<LogicalLine>, dirty: Option<nat>)
    requires Consecutive(lines) && |lines| > 1
    ensures CleanCount(lines[1..], dirty) == Minus(CleanCount(lines, dirty), 1)
  {
  }

  lemma FirstFromMore(lines: seq<LogicalLine>, line: LogicalLine, dirty: Option<nat>)
    requires Consecutive(lines) && (lines == [] || line.id == lines[0].id + |lines|)
    requires lines == [] || dirty.None? || dirty.value < line.id
    requires lines == [] ==> dirty.None?
    ensures CleanCount(lines + [line], Earlier(dirty, line.id)) == CleanCount(lines, dirty)
  {
    var longer := lines + [line];
    assert lines != [] ==> longer[0] == lines[0];
    forall i, j | 0 <= i < j < |longer| ensures longer[j].id == longer[i].id + (j - i) {
      assert i == 0 || lines[i].id == lines[0].id + i;
    }
    FirstFromId(longer, Earlier(dirty, line.id).value);
    if lines != [] && dirty.Some? {
      FirstFromId(lines, dirty.value);
    }
  }

  lemma FirstFromGrown(lines: seq<LogicalLine>, grown: seq<LogicalLine>, dirty: Option<nat>)
    requires Consecutive(lines) && lines != [] && |grown| == |lines|
    requires forall i :: 0 <= i < |lines| ==> grown[i].id == lines[i].id
    ensures var last := |lines| - 1;
            CleanCount(grown, Earlier(dirty, lines[last].id)) == Min(CleanCount(lines, dirty), last)
  {
    var id := Earlier(dirty, lines[|lines| - 1].id).value;
    SameIdsSameFirst(lines, grown, id);
    FirstFromId(lines, id);
    assert lines[|lines| - 1].id == lines[0].id + (|lines| - 1);
    if dirty.Some? {
      FirstFromId(lines, dirty.value);
    }
  }

  lemma {:induction false} SizeOneMore(texts: seq<seq<Byte>>)
    ensures Size(texts + [[]]) == Size(texts) + 1
  {
    if texts != [] {
      SizeOneMore(texts[1..]);
      assert (texts + [[]])[1..] == texts[1..] + [[]];
    }
  }

  lemma ColouredOneMore(sx: Syntax, source: Source, lines: seq<LogicalLine>, dirty: Option<nat>, tail: Option<Tail>, line: LogicalLine)
    requires Coloured(sx, source, lines, dirty, tail) && line.colors == []
    requires CleanCount(lines + [line], Earlier(dirty, line.id)) == CleanCount(lines, dirty)
    requires lines == [] ==> line.id == 0
    ensures Coloured(sx, source, lines + [line], Earlier(dirty, line.id), tail)
  {
    var texts := TextsOf(lines);
    var longer := TextsOf(lines + [line]);
    assert longer == texts + [line.text];
    forall i | 0 <= i <= |lines| ensures longer[..i] == texts[..i] {
    }
  }

  lemma ColouredGrown(sx: Syntax, source: Source, lines: seq<LogicalLine>, grown: seq<LogicalLine>, dirty: Option<nat>, tail: Option<Tail>)
    requires Coloured(sx, source, lines, dirty, tail) && lines != [] && |grown| == |lines|
    requires forall i :: 0 <= i < |lines| - 1 ==> grown[i] == lines[i]
    requires grown[|lines| - 1] == lines[|lines| - 1].(text := grown[|lines| - 1].text)
    requires var id := lines[|lines| - 1].id;
             CleanCount(grown, Earlier(dirty, id)) == Min(CleanCount(lines, dirty), |lines| - 1)
    ensures Coloured(sx, source, grown, Earlier(dirty, lines[|lines| - 1].id), tail)
  {
    var texts := TextsOf(lines);
    var longer := TextsOf(grown);
    hide TextsOf, CleanCount, StateAfter, ColorsOf;
    forall i | 0 <= i <= |lines| - 1 ensures longer[..i] == texts[..i] {
    }
    forall i | 0 <= i < |lines| - 1 ensures ColorsOf(sx, source, longer, i) == ColorsOf(sx, source, texts, i) {
      ColorsOfPrefix(sx, source, longer, texts, i);
    }
  }

  lemma ColorsOfPrefix(sx: Syntax, source: Source, a: seq<seq<Byte>>, b: seq<seq<Byte>>, i: nat)
    requires i < |a| && i < |b| && a[..i] == b[..i] && a[i] == b[i]
    ensures ColorsOf(sx, source, a, i) == ColorsOf(sx, source, b, i)
  {
  }

  lemma TrimStep(texts: seq<seq<Byte>>, maxBytes: nat, maxLines: nat)
    requires maxBytes >= 1 && maxLines >= 1
    ensures !Over(texts, maxBytes, maxLines) ==> Trim(texts, maxBytes, maxLines) == texts
    ensures Over(texts, maxBytes, maxLines) && |texts| > 1 ==> Trim(texts, maxBytes, maxLines) == Trim(texts[1..], maxBytes, maxLines)
    ensures Over(texts, maxBytes, maxLines) ==> texts != [] && (|texts| == 1 ==> Size(texts) > maxBytes)
    ensures Over(Trim(texts, maxBytes, maxLines), maxBytes, maxLines) == false
    ensures Trim(Trim(texts, maxBytes, maxLines), maxBytes, maxLines) == Trim(texts, maxBytes, maxLines)
  {
    TrimKeepsLimits(texts, maxBytes, maxLines);
  }

  // ---- Anchors stay with their bytes ----

  lemma LaterPop(g: Segmenter, ix: Index, width: nat, nextLine: nat, dirty: Option<nat>)
    requires IndexOk(g, ix, width, nextLine, dirty) && |ix.lines| > 1
    ensures Survives(ix.lines, ix.lines[1..])
  {
    assert ix.lines[1].id == ix.lines[0].id + (1 - 0);
  }

  lemma LaterCut(line: LogicalLine, cut: nat)
    requires cut <= |line.text|
    ensures Survives([line], [CutLine(line, cut)])
  {
  }

  lemma LaterAdd(lines: seq<LogicalLine>, line: LogicalLine)
    ensures Survives(lines, lines + [line])
  {
  }

  lemma LaterGrow(lines: seq<LogicalLine>, more: seq<Byte>)
    requires lines != []
    ensures Survives(lines, GrownLines(lines, more))
  {
  }

  lemma LaterSame(a: seq<LogicalLine>, b: seq<LogicalLine>)
    requires SameText(a, b)
    ensures Survives(a, b)
  {
  }

  // ---- The two invariants, operation by operation ----

  lemma IndexPop(g: Segmenter, ix: Index, width: nat, nextLine: nat, dirty: Option<nat>)
    requires IndexOk(g, ix, width, nextLine, dirty) && |ix.lines| > 1
    ensures ix.lines[0].firstRow.Some? <==> ix.rows != []
    ensures IndexOk(g, Index(ix.lines[1..], if ix.rows == [] then [] else ix.rows[1..], ix.nextRow), width, nextLine, dirty)
  {
    DropFirst(g, ix, width, CleanCount(ix.lines, dirty));
    FirstFromTail(ix.lines, dirty);
  }

  lemma ColorsExpire(sx: Syntax, source: Source, lines: seq<LogicalLine>, nextLine: nat, dirty: Option<nat>, tail: Option<Tail>, expired: bool)
    requires ColorsOk(sx, source, lines, nextLine, dirty, tail, expired)
    ensures ColorsOk(sx, source, lines, nextLine, dirty, tail, true)
  {
  }

  lemma ColorsPop(sx: Syntax, source: Source, lines: seq<LogicalLine>, nextLine: nat, dirty: Option<nat>, tail: Option<Tail>)
    requires ColorsOk(sx, source, lines, nextLine, dirty, tail, true) && |lines| > 1
    ensures ColorsOk(sx, source, lines[1..], nextLine, dirty, tail, true)
  {
  }

  /** The first character boundary that is not before `at`. */
  method NextBoundary(text: seq<Byte>, at: nat) returns (cut: nat)
    requires at <= |text|
    ensures at <= cut <= |text| && cut == Cut(text, at)
  {
    cut := at;
    while cut < |text| && !Boundary(text, cut)
      invariant at <= cut <= |text|
      invariant Cut(text, cut) == Cut(text, at)
    {
      cut := cut + 1;
    }
  }

  lemma CutTrims(line: LogicalLine, maxBytes: nat, maxLines: nat)
    requires maxBytes >= 1 && maxLines >= 1 && Size(TextsOf([line])) > maxBytes
    ensures TextsOf([line]) == [line.text] && Size([line.text]) == |line.text| + 1
    ensures |line.text| + 1 - maxBytes <= |line.text|
    ensures var cut := Cut(line.text, |line.text| + 1 - maxBytes);
            && Trim([line.text], maxBytes, maxLines) == [line.text[cut..]]
            && Size([line.text[cut..]]) == |line.text| + 1 - cut
  {
    assert TextsOf([line]) == [line.text] && Size([line.text]) == |line.text| + 1;
    var cut := Cut(line.text, |line.text| + 1 - maxBytes);
    assert Size([line.text[cut..]]) == |line.text[cut..]| + 1;
  }

  function CutLine(line: LogicalLine, cut: nat): LogicalLine
    requires cut <= |line.text|
  {
    line.(text := line.text[cut..], origin := line.origin + cut, starts := [], colors := [], width := 0)
  }

  lemma IndexCut(g: Segmenter, ix: Index, width: nat, nextLine: nat, dirty: Option<nat>, cut: nat)
    requires IndexOk(g, ix, width, nextLine, dirty) && |ix.lines| == 1 && cut <= |ix.lines[0].text|
    ensures IndexOk(g, ix.(lines := [CutLine(ix.lines[0], cut)]), width, nextLine, Earlier(dirty, ix.lines[0].id))
  {
    FirstFromGrown(ix.lines, [CutLine(ix.lines[0], cut)], dirty);
  }

  lemma ColorsCut(sx: Syntax, source: Source, lines: seq<LogicalLine>, nextLine: nat, dirty: Option<nat>, tail: Option<Tail>, cut: nat)
    requires ColorsOk(sx, source, lines, nextLine, dirty, tail, true) && |lines| == 1 && cut <= |lines[0].text|
    requires lines[0].id < nextLine
    ensures ColorsOk(sx, source, [CutLine(lines[0], cut)], nextLine, Earlier(dirty, lines[0].id), tail, true)
  {
  }

  lemma IndexAddLine(g: Segmenter, ix: Index, width: nat, nextLine: nat, dirty: Option<nat>, line: LogicalLine)
    requires IndexOk(g, ix, width, nextLine, dirty)
    requires line == LogicalLine(nextLine, [], 0, [], None, 0, [])
    ensures IndexOk(g, ix.(lines := ix.lines + [line]), width, nextLine + 1, Earlier(dirty, line.id))
  {
    AddLast(g, ix, width, CleanCount(ix.lines, dirty), line);
    FirstFromMore(ix.lines, line, dirty);
  }

  lemma ColorsAddLine(sx: Syntax, source: Source, ix: Index, width: nat, g: Segmenter, nextLine: nat,
                      dirtyFrom: Option<nat>, dirty: Option<nat>, tail: Option<Tail>, expired: bool, line: LogicalLine)
    requires IndexOk(g, ix, width, nextLine, dirtyFrom) && ColorsOk(sx, source, ix.lines, nextLine, dirty, tail, expired)
    requires line == LogicalLine(nextLine, [], 0, [], None, 0, [])
    ensures ColorsOk(sx, source, ix.lines + [line], nextLine + 1, Earlier(dirty, line.id), tail, expired)
  {
    FirstFromMore(ix.lines, line, dirty);
    if !expired {
      ColouredOneMore(sx, source, ix.lines, dirty, tail, line);
    }
  }

  function GrownLines(lines: seq<LogicalLine>, more: seq<Byte>): seq<LogicalLine>
    requires lines != []
  {
    lines[|lines| - 1 := lines[|lines| - 1].(text := lines[|lines| - 1].text + more)]
  }

  lemma IdsOk(g: Segmenter, ix: Index, width: nat, nextLine: nat, dirty: Option<nat>)
    requires IndexOk(g, ix, width, nextLine, dirty) && ix.lines != []
    ensures Consecutive(ix.lines) && ix.lines[|ix.lines| - 1].id < nextLine
  {
    assert |ix.lines| > 1 ==> ix.lines[|ix.lines| - 1].id == ix.lines[0].id + (|ix.lines| - 1);
  }

  lemma IndexGrow(g: Segmenter, ix: Index, width: nat, nextLine: nat, dirty: Option<nat>, more: seq<Byte>)
    requires IndexOk(g, ix, width, nextLine, dirty) && ix.lines != []
    ensures IndexOk(g, ix.(lines := GrownLines(ix.lines, more)), width, nextLine, Earlier(dirty, ix.lines[|ix.lines| - 1].id))
  {
    FirstFromGrown(ix.lines, GrownLines(ix.lines, more), dirty);
    GrowLast(g, ix, width, CleanCount(ix.lines, dirty), more, Min(CleanCount(ix.lines, dirty), |ix.lines| - 1));
    assert ix.lines[|ix.lines| - 1].id == ix.lines[0].id + (|ix.lines| - 1);
  }

  lemma GrownLinesAre(lines: seq<LogicalLine>, more: seq<Byte>)
    requires lines != []
    ensures var grown := GrownLines(lines, more);
            && |grown| == |lines| && grown[|lines| - 1] == lines[|lines| - 1].(text := grown[|lines| - 1].text)
            && (forall i :: 0 <= i < |lines| - 1 ==> grown[i] == lines[i])
            && (forall i :: 0 <= i < |lines| ==> grown[i].id == lines[i].id)
            && (ColorsOrdered(lines) ==> ColorsOrdered(grown))
  {
  }

  lemma ColorsGrow(sx: Syntax, source: Source, ix: Index, width: nat, g: Segmenter, nextLine: nat,
                   dirtyFrom: Option<nat>, dirty: Option<nat>, tail: Option<Tail>, expired: bool, more: seq<Byte>)
    requires IndexOk(g, ix, width, nextLine, dirtyFrom) && ColorsOk(sx, source, ix.lines, nextLine, dirty, tail, expired)
    requires ix.lines != []
    ensures ColorsOk(sx, source, GrownLines(ix.lines, more), nextLine, Earlier(dirty, ix.lines[|ix.lines| - 1].id), tail, expired)
  {
    hide *;
    IdsOk(g, ix, width, nextLine, dirtyFrom);
    GrownLinesAre(ix.lines, more);
    FirstFromGrown(ix.lines, GrownLines(ix.lines, more), dirty);
    ColorsGrown(sx, source, ix.lines, GrownLines(ix.lines, more), nextLine, dirty, tail, expired);
  }

  lemma ColorsGrown(sx: Syntax, source: Source, lines: seq<LogicalLine>, grown: seq<LogicalLine>, nextLine: nat,
                    dirty: Option<nat>, tail: Option<Tail>, expired: bool)
    requires ColorsOk(sx, source, lines, nextLine, dirty, tail, expired) && lines != [] && |grown| == |lines|
    requires forall i :: 0 <= i < |lines| - 1 ==> grown[i] == lines[i]
    requires grown[|lines| - 1] == lines[|lines| - 1].(text := grown[|lines| - 1].text)
    requires ColorsOrdered(lines) ==> ColorsOrdered(grown)
    requires var id := lines[|lines| - 1].id;
             id < nextLine && CleanCount(grown, Earlier(dirty, id)) == Min(CleanCount(lines, dirty), |lines| - 1)
    ensures ColorsOk(sx, source, grown, nextLine, Earlier(dirty, lines[|lines| - 1].id), tail, expired)
  {
    hide Coloured, CleanCount, ColorsOrdered;
    if !expired {
      ColouredGrown(sx, source, lines, grown, dirty, tail);
    }
  }
}
