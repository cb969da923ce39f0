/** The colours of code, line by line. The syntax parser itself is a parameter. */
module Highlighting {
  import opened Utf8

  const MAX_CODE_BYTES: nat := 256 * 1024
  const MAX_CODE_LINES: nat := 4096
  const MAX_LINE_BYTES: nat := 8192
  const FENCE_STYLE: nat := 0

  datatype Source = Plain | Markdown | Code(language: seq<Byte>)

  /** One style up to a byte offset. */
  datatype ColorRange = ColorRange(end: nat, style: nat)

  /** A stretch of text with one style, as the parser returns it. */
  datatype Stretch = Stretch(style: nat, length: nat)

  datatype Parsed = Parsed(next: nat, stretches: seq<Stretch>)

  /** The text functions of the standard library and the syntax parser: the number of leading
      white-space bytes, the first word, the parser that belongs to a language, and one line. */
  datatype Syntax = Syntax(
    leading: seq<Byte> -> nat,
    word: seq<Byte> -> Option<seq<Byte>>,
    find: seq<Byte> -> Option<nat>,
    parse: (nat, seq<Byte>) -> Option<Parsed>)

  datatype State = State(markdown: bool, fence: Option<(Byte, nat)>, syntax: Option<nat>, bytes: nat, lines: nat)

  function NewState(sx: Syntax, source: Source): State {
    State(source.Markdown?, None, if source.Code? then sx.find(source.language) else None, 0, 0)
  }

  function TrimStart(sx: Syntax, text: seq<Byte>): seq<Byte> {
    if sx.leading(text) <= |text| then text[sx.leading(text)..] else []
  }

  function RunLength(text: seq<Byte>, marker: Byte): (n: nat)
    ensures n <= |text|
  {
    if text == [] || text[0] != marker then 0 else 1 + RunLength(text[1..], marker)
  }

  /** The marker and length of the fence a line may be. */
  function FenceOf(sx: Syntax, text: seq<Byte>): Option<(Byte, nat)> {
    var trimmed := TrimStart(sx, text);
    if trimmed == [] || (trimmed[0] != 0x60 && trimmed[0] != 0x7E) then None
    else
      var count := RunLength(trimmed, trimmed[0]);
      if count >= 3 then Some((trimmed[0], count)) else None
  }

  function FenceRest(sx: Syntax, text: seq<Byte>): seq<Byte> {
    var trimmed := TrimStart(sx, text);
    if trimmed == [] then [] else trimmed[RunLength(trimmed, trimmed[0])..]
  }

  datatype Line = Line(state: State, colors: seq<ColorRange>)

  predicate Closes(sx: Syntax, open: (Byte, nat), fence: (Byte, nat), text: seq<Byte>) {
    fence.0 == open.0 && fence.1 >= open.1 && TrimStart(sx, FenceRest(sx, text)) == []
  }

  /** The state after one line, and its colours. */
  function LineOf(sx: Syntax, state: State, text: seq<Byte>): Line {
    var fence := if state.markdown then FenceOf(sx, text) else None;
    if fence.Some? && state.fence.Some? && Closes(sx, state.fence.value, fence.value, text) then
      Line(state.(fence := None, syntax := None), [ColorRange(|text|, FENCE_STYLE)])
    else if fence.Some? && state.fence.None? then
      var language := sx.word(FenceRest(sx, text));
      Line(State(true, fence, if language.Some? then sx.find(language.value) else None, 0, 0), [ColorRange(|text|, FENCE_STYLE)])
    else if state.markdown && state.fence.None? then Line(state, [])
    else
      var bytes := state.bytes + |text|;
      var lines := state.lines + 1;
      var large := |text| > MAX_LINE_BYTES || bytes > MAX_CODE_BYTES || lines > MAX_CODE_LINES;
      var counted := state.(bytes := bytes, lines := lines, syntax := None);
      if large || state.syntax.None? then Line(counted, [])
      else
        match sx.parse(state.syntax.value, text)
        case None => Line(counted, [])
        case Some(parsed) => Line(counted.(syntax := Some(parsed.next)), Merged(parsed.stretches))
  }

  /** A line may be a fence if and only if it starts, behind white space, with three or more equal
      backticks or tildes; all of them count. */
  lemma FenceMeans(sx: Syntax, text: seq<Byte>, marker: Byte, n: nat)
    ensures var t := TrimStart(sx, text);
            FenceOf(sx, text) == Some((marker, n)) <==>
              && (marker == 0x60 || marker == 0x7E) && 3 <= n <= |t|
              && (forall i :: 0 <= i < n ==> t[i] == marker) && (n == |t| || t[n] != marker)
  {
    var t := TrimStart(sx, text);
    RunMeans(t, marker, n);
    if t != [] {
      RunMeans(t, t[0], RunLength(t, t[0]));
    }
    hide TrimStart, RunLength;
  }

  lemma {:induction false} RunMeans(text: seq<Byte>, marker: Byte, n: nat)
    ensures RunLength(text, marker) == n <==>
              n <= |text| && (forall i :: 0 <= i < n ==> text[i] == marker) && (n == |text| || text[n] != marker)
  {
    if text != [] && text[0] == marker && n > 0 {
      RunMeans(text[1..], marker, n - 1);
      assert forall i :: 0 <= i < |text| - 1 ==> text[1..][i] == text[i + 1];
      assert forall i :: 1 <= i < |text| ==> text[i] == text[1..][i - 1];
    }
  }

  /** In Markdown a fence opens where none is open, and is closed only by one of the same marker that
      is at least as long and has nothing behind it. Elsewhere no line opens or closes anything. */
  lemma FenceChanges(sx: Syntax, state: State, text: seq<Byte>)
    ensures var next := LineOf(sx, state, text).state;
            && next.markdown == state.markdown
            && (!state.markdown ==> next.fence == state.fence)
            && (state.markdown && state.fence.None? ==> next.fence == FenceOf(sx, text))
            && (state.markdown && state.fence.Some? ==>
                  next.fence == if FenceOf(sx, text).Some? && Closes(sx, state.fence.value, FenceOf(sx, text).value, text) then None else state.fence)
  {
    hide FenceOf, Closes, Merged;
  }

  /** A line that is no fence gets colours only while a parser is at work and no bound is passed: for
      the line, and for all bytes and lines since the code began. Past a bound there are none until
      a new fence. */
  lemma BoundsHold(sx: Syntax, state: State, text: seq<Byte>)
    requires !state.markdown || state.fence.Some?
    requires !(state.markdown && FenceOf(sx, text).Some? && Closes(sx, state.fence.value, FenceOf(sx, text).value, text))
    ensures var line := LineOf(sx, state, text);
            && line.state.bytes == state.bytes + |text| && line.state.lines == state.lines + 1
            && (line.colors != [] || line.state.syntax.Some? ==>
                  state.syntax.Some? && |text| <= 8192 && line.state.bytes <= 256 * 1024 && line.state.lines <= 4096)
            && (state.syntax.Some? && |text| <= 8192 && line.state.bytes <= 256 * 1024 && line.state.lines <= 4096 ==>
                  match sx.parse(state.syntax.value, text)
                  case None => line.colors == [] && line.state.syntax.None?
                  case Some(parsed) => line.colors == Merged(parsed.stretches) && line.state.syntax == Some(parsed.next))
  {
    hide FenceOf, Closes, Merged;
  }

  function Length(stretches: seq<Stretch>): nat {
    if stretches == [] then 0 else Length(stretches[..|stretches| - 1]) + stretches[|stretches| - 1].length
  }

  /** Neighbours with one style become one range. */
  function Merged(stretches: seq<Stretch>): seq<ColorRange> {
    if stretches == [] then []
    else Extend(Merged(stretches[..|stretches| - 1]), Length(stretches), stretches[|stretches| - 1].style)
  }

  function Extend(colors: seq<ColorRange>, end: nat, style: nat): seq<ColorRange> {
    if colors != [] && colors[|colors| - 1].style == style then colors[..|colors| - 1] + [ColorRange(end, style)]
    else colors + [ColorRange(end, style)]
  }

  predicate Ordered(colors: seq<ColorRange>) {
    forall i, j :: 0 <= i < j < |colors| ==> colors[i].end <= colors[j].end
  }

  /** The style at a byte: that of the first range that ends behind it. */
  function StyleAt(colors: seq<ColorRange>, at: nat): Option<nat> {
    if colors == [] then None
    else
      var before := StyleAt(colors[..|colors| - 1], at);
      if before.Some? then before
      else if at < colors[|colors| - 1].end then Some(colors[|colors| - 1].style) else None
  }

  /** The style the parser gave a byte. */
  function ParsedStyleAt(stretches: seq<Stretch>, at: nat): Option<nat> {
    if stretches == [] then None
    else
      var front := stretches[..|stretches| - 1];
      if at < Length(front) then ParsedStyleAt(front, at)
      else if at < Length(stretches) then Some(stretches[|stretches| - 1].style) else None
  }

  lemma {:induction false} MergedIsOrdered(stretches: seq<Stretch>)
    ensures var colors := Merged(stretches);
            && Ordered(colors)
            && (stretches != [] ==> colors != [] && colors[|colors| - 1].end == Length(stretches))
            && (forall i :: 0 <= i < |colors| ==> colors[i].end <= Length(stretches))
  {
    if stretches != [] {
      var front := stretches[..|stretches| - 1];
      MergedIsOrdered(front);
      ExtendIsOrdered(Merged(front), Length(front), Length(stretches), stretches[|stretches| - 1].style);
    }
  }

  lemma ExtendIsOrdered(colors: seq<ColorRange>, was: nat, end: nat, style: nat)
    requires Ordered(colors) && was <= end && forall i :: 0 <= i < |colors| ==> colors[i].end <= was
    ensures var next := Extend(colors, end, style);
            && Ordered(next) && next != [] && next[|next| - 1].end == end
            && forall i :: 0 <= i < |next| ==> next[i].end <= end
  {
  }

  /** Merging keeps the style of every byte, and gives none to a byte the parser left out. */
  lemma {:induction false} MergedKeepsStyles(stretches: seq<Stretch>, at: nat)
    ensures StyleAt(Merged(stretches), at) == ParsedStyleAt(stretches, at)
    ensures ParsedStyleAt(stretches, at).Some? <==> at < Length(stretches)
  {
    if stretches != [] {
      var front := stretches[..|stretches| - 1];
      MergedKeepsStyles(front, at);
      MergedIsOrdered(front);
      ExtendStyle(Merged(front), Length(front), Length(stretches), stretches[|stretches| - 1].style, at);
    }
  }

  lemma ExtendStyle(colors: seq<ColorRange>, was: nat, end: nat, style: nat, at: nat)
    requires was <= end && (StyleAt(colors, at).Some? <==> at < was)
    requires colors != [] ==> colors[|colors| - 1].end == was
    ensures StyleAt(Extend(colors, end, style), at) ==
            if at < was then StyleAt(colors, at) else if at < end then Some(style) else None
  {
    var longer := Extend(colors, end, style);
    assert longer[..|longer| - 1] == if colors != [] && colors[|colors| - 1].style == style then colors[..|colors| - 1] else colors;
  }

  lemma LineIsOrdered(sx: Syntax, state: State, text: seq<Byte>)
    ensures Ordered(LineOf(sx, state, text).colors)
  {
    if state.syntax.Some? && sx.parse(state.syntax.value, text).Some? {
      MergedIsOrdered(sx.parse(state.syntax.value, text).value.stretches);
    }
  }

  /** Plain text has no colours. */
  lemma PlainIsPlain(sx: Syntax, state: State, text: seq<Byte>)
    requires !state.markdown && state.syntax.None?
    ensures LineOf(sx, state, text).colors == []
    ensures !LineOf(sx, state, text).state.markdown && LineOf(sx, state, text).state.syntax.None?
  {
  }

  /** One line through the parser: the colours are collected stretch by stretch. */
  method Colour(sx: Syntax, state: State, text: seq<Byte>) returns (line: Line)
    ensures line == LineOf(sx, state, text)
  {
    hide FenceOf, Closes, Merged, FenceRest;
    var fence := if state.markdown then FenceOf(sx, text) else None;
    if fence.Some? {
      if state.fence.Some? {
        if Closes(sx, state.fence.value, fence.value, text) {
          return Line(state.(fence := None, syntax := None), [ColorRange(|text|, FENCE_STYLE)]);
        }
      } else {
        var language := sx.word(FenceRest(sx, text));
        return Line(State(true, fence, if language.Some? then sx.find(language.value) else None, 0, 0), [ColorRange(|text|, FENCE_STYLE)]);
      }
    }
    if state.markdown && state.fence.None? {
      return Line(state, []);
    }
    var next := state.(bytes := state.bytes + |text|, lines := state.lines + 1);
    if |text| > MAX_LINE_BYTES || next.bytes > MAX_CODE_BYTES || next.lines > MAX_CODE_LINES {
      next := next.(syntax := None);
    }
    if next.syntax.None? {
      return Line(next, []);
    }
    var parsed := sx.parse(next.syntax.value, text);
    next := next.(syntax := None);
    if parsed.None? {
      return Line(next, []);
    }
    var colors := Collect(parsed.value.stretches);
    line := Line(next.(syntax := Some(parsed.value.next)), colors);
  }

  method Collect(stretches: seq<Stretch>) returns (colors: seq<ColorRange>)
    ensures colors == Merged(stretches)
  {
    var end := 0;
    colors := [];
    for i := 0 to |stretches|
      invariant end == Length(stretches[..i])
      invariant colors == Merged(stretches[..i])
    {
      assert stretches[..i + 1][..i] == stretches[..i];
      end := end + stretches[i].length;
      if colors != [] && colors[|colors| - 1].style == stretches[i].style {
        colors := colors[..|colors| - 1] + [ColorRange(end, stretches[i].style)];
      } else {
        colors := colors + [ColorRange(end, stretches[i].style)];
      }
    }
    assert stretches[..|stretches|] == stretches;
  }

  // ---- A pass over all lines ----

  /** The state behind all these lines, from a fresh state. */
  function StateAfter(sx: Syntax, source: Source, texts: seq<seq<Byte>>): State {
    if texts == [] then NewState(sx, source)
    else LineOf(sx, StateAfter(sx, source, texts[..|texts| - 1]), texts[|texts| - 1]).state
  }

  /** The colours of line `i` in one pass over all lines. */
  function ColorsOf(sx: Syntax, source: Source, texts: seq<seq<Byte>>, i: nat): seq<ColorRange>
    requires i < |texts|
  {
    LineOf(sx, StateAfter(sx, source, texts[..i]), texts[i]).colors
  }

  lemma StateStep(sx: Syntax, source: Source, texts: seq<seq<Byte>>, i: nat)
    requires i < |texts|
    ensures StateAfter(sx, source, texts[..i + 1]) == LineOf(sx, StateAfter(sx, source, texts[..i]), texts[i]).state
  {
    assert texts[..i + 1][..i] == texts[..i];
  }

  lemma {:induction false} PlainPass(sx: Syntax, texts: seq<seq<Byte>>)
    ensures !StateAfter(sx, Plain, texts).markdown && StateAfter(sx, Plain, texts).syntax.None?
  {
    if texts != [] {
      PlainPass(sx, texts[..|texts| - 1]);
      PlainIsPlain(sx, StateAfter(sx, Plain, texts[..|texts| - 1]), texts[|texts| - 1]);
    }
  }
}
