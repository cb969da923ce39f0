/** What a transcript keeps of the text it was given, apart from how it is shown. */
module Retention {
  import opened Utf8

  const MAX_TRANSCRIPT_BYTES: nat := 1024 * 1024
  const MAX_TRANSCRIPT_LINES: nat := 16384
  const NEWLINE: Byte := 10

  /** The bytes of one character (section 3 of RFC 3629). */
  function Encode(c: char): (s: seq<Byte>)
    ensures s != [] && !Continuation(s[0])
  {
    var v := c as int;
    if v < 0x80 then [v]
    else if v < 0x800 then [0xC0 + v / 0x40, 0x80 + v % 0x40]
    else if v < 0x10000 then [0xE0 + v / 0x1000, 0x80 + v / 0x40 % 0x40, 0x80 + v % 0x40]
    else [0xF0 + v / 0x40000, 0x80 + v / 0x1000 % 0x40, 0x80 + v / 0x40 % 0x40, 0x80 + v % 0x40]
  }

  /** The control characters, category Cc. */
  predicate IsControl(c: char) {
    c as int < 0x20 || 0x7F <= c as int < 0xA0
  }

  /** What is kept of a character other than a line end. */
  function Clean(c: char): (s: seq<Byte>)
    requires c != '\n'
    ensures s != [] && !Continuation(s[0])
  {
    if c == '\t' then [0x20, 0x20, 0x20, 0x20]
    else if IsControl(c) then REPLACEMENT
    else Encode(c)
  }

  /** All that is kept of a text while nothing is dropped. */
  function Sanitised(text: seq<char>): seq<Byte> {
    if text == [] then []
    else
      var last := text[|text| - 1];
      Sanitised(text[..|text| - 1]) + if last == '\n' then [NEWLINE] else Clean(last)
  }

  /** The charge of some lines: their text and one byte for each line boundary. */
  function Size(lines: seq<seq<Byte>>): nat {
    if lines == [] then 0 else |lines[0]| + 1 + Size(lines[1..])
  }

  function Join(lines: seq<seq<Byte>>): seq<Byte> {
    if lines == [] then []
    else if |lines| == 1 then lines[0]
    else lines[0] + [NEWLINE] + Join(lines[1..])
  }

  predicate Boundary(s: seq<Byte>, at: nat) {
    at >= |s| || !Continuation(s[at])
  }

  /** The first character boundary that is not before `at`. */
  function Cut(s: seq<Byte>, at: nat): (cut: nat)
    requires at <= |s|
    ensures at <= cut <= |s| && Boundary(s, cut)
    ensures forall i :: at <= i < cut ==> !Boundary(s, i)
    decreases |s| - at
  {
    if Boundary(s, at) then at else Cut(s, at + 1)
  }

  predicate Over(lines: seq<seq<Byte>>, maxBytes: nat, maxLines: nat) {
    Size(lines) > maxBytes || |lines| > maxLines
  }

  /** Whole lines are dropped from the front while there is another one; a single line
      loses its front up to a character boundary. */
  function Trim(lines: seq<seq<Byte>>, maxBytes: nat, maxLines: nat): (kept: seq<seq<Byte>>)
    requires maxBytes >= 1 && maxLines >= 1
  {
    if !Over(lines, maxBytes, maxLines) then lines
    else if |lines| > 1 then Trim(lines[1..], maxBytes, maxLines)
    else
      assert lines[1..] == [] && Size(lines) == |lines[0]| + 1 + Size(lines[1..]);
      [lines[0][Cut(lines[0], Size(lines) - maxBytes)..]]
  }

  lemma {:induction false} TrimKeepsLimits(lines: seq<seq<Byte>>, maxBytes: nat, maxLines: nat)
    requires maxBytes >= 1 && maxLines >= 1
    ensures var kept := Trim(lines, maxBytes, maxLines);
            && Size(kept) <= maxBytes && |kept| <= maxLines
            && (lines != [] ==> kept != [])
  {
    if Over(lines, maxBytes, maxLines) && |lines| > 1 {
      TrimKeepsLimits(lines[1..], maxBytes, maxLines);
    }
  }

  lemma {:induction false} JoinSize(lines: seq<seq<Byte>>)
    ensures |Join(lines)| == if lines == [] then 0 else Size(lines) - 1
  {
    if |lines| > 1 {
      JoinSize(lines[1..]);
    }
  }

  ghost predicate Suffix(s: seq<Byte>, whole: seq<Byte>) {
    exists dropped: seq<Byte> :: whole == dropped + s
  }

  lemma SuffixBehind(front: seq<Byte>, s: seq<Byte>, whole: seq<Byte>)
    requires Suffix(s, whole)
    ensures Suffix(s, front + whole)
  {
    var dropped :| whole == dropped + s;
    assert front + whole == (front + dropped) + s;
  }

  lemma SuffixAppend(s: seq<Byte>, whole: seq<Byte>, more: seq<Byte>)
    requires Suffix(s, whole)
    ensures Suffix(s + more, whole + more)
  {
    var dropped :| whole == dropped + s;
    assert whole + more == dropped + (s + more);
  }

  lemma SuffixTransitive(a: seq<Byte>, b: seq<Byte>, c: seq<Byte>)
    requires Suffix(a, b) && Suffix(b, c)
    ensures Suffix(a, c)
  {
    var dropped :| c == dropped + b;
    SuffixBehind(dropped, a, b);
  }

  lemma {:induction false} TrimIsSuffix(lines: seq<seq<Byte>>, maxBytes: nat, maxLines: nat)
    requires maxBytes >= 1 && maxLines >= 1
    ensures var kept := Trim(lines, maxBytes, maxLines);
            && Suffix(Join(kept), Join(lines))
            && (Over(lines, maxBytes, maxLines) <==> |Join(kept)| < |Join(lines)|)
  {
    var kept := Trim(lines, maxBytes, maxLines);
    if !Over(lines, maxBytes, maxLines) {
      assert Join(lines) == [] + Join(lines);
    } else if |lines| > 1 {
      TrimIsSuffix(lines[1..], maxBytes, maxLines);
      SuffixBehind(lines[0] + [NEWLINE], Join(kept), Join(lines[1..]));
    } else {
      var cut := Cut(lines[0], Size(lines) - maxBytes);
      assert lines[0] == lines[0][..cut] + lines[0][cut..];
    }
  }

  /** Nothing goes that need not: a line is dropped only while the lines from it on are over a
      limit, and what a single line loses ends at the first character boundary that fits. */
  lemma {:induction false} TrimDropsOnlyWhatItMust(lines: seq<seq<Byte>>, maxBytes: nat, maxLines: nat)
    requires maxBytes >= 1 && maxLines >= 1 && lines != []
    ensures var kept := Trim(lines, maxBytes, maxLines);
            && 1 <= |kept| <= |lines|
            && var k := |lines| - |kept|;
               && (forall m :: 0 <= m < k ==> Over(lines[m..], maxBytes, maxLines))
               && (kept == lines[k..] || (|kept| == 1 && Over(lines[k..], maxBytes, maxLines) && LosesLeast(lines[k], kept[0], maxBytes)))
  {
    if Over(lines, maxBytes, maxLines) && |lines| > 1 {
      TrimDropsOnlyWhatItMust(lines[1..], maxBytes, maxLines);
      var k := |lines| - |Trim(lines, maxBytes, maxLines)|;
      assert lines[1..][k - 1..] == lines[k..];
      forall m | 0 <= m < k ensures Over(lines[m..], maxBytes, maxLines) {
        assert m > 0 ==> lines[1..][m - 1..] == lines[m..];
        assert lines[0..] == lines;
      }
    } else if Over(lines, maxBytes, maxLines) {
      assert lines == [lines[0]] && lines[0..] == lines;
      TrimSingle(lines[0], maxBytes, maxLines);
      assert Size([lines[0]]) == |lines[0]| + 1;
    } else {
      assert lines[0..] == lines;
    }
  }

  predicate LosesLeast(line: seq<Byte>, kept: seq<Byte>, maxBytes: nat) {
    && |kept| <= |line| && kept == line[|line| - |kept|..] && |kept| < maxBytes && Boundary(line, |line| - |kept|)
    && forall i :: 0 <= i < |line| - |kept| && Boundary(line, i) ==> |line| - i >= maxBytes
  }

  // ---- The state after an input ----

  /** The lines kept, and whether any text has been dropped. */
  datatype Retained = Retained(lines: seq<seq<Byte>>, expired: bool)

  const EMPTY := Retained([], false)

  function Limited(lines: seq<seq<Byte>>, expired: bool): Retained {
    Retained(Trim(lines, MAX_TRANSCRIPT_BYTES, MAX_TRANSCRIPT_LINES), expired || Over(lines, MAX_TRANSCRIPT_BYTES, MAX_TRANSCRIPT_LINES))
  }

  function AddToLast(lines: seq<seq<Byte>>, text: seq<Byte>): seq<seq<Byte>> {
    if lines == [] then [text] else lines[..|lines| - 1] + [lines[|lines| - 1] + text]
  }

  function AddText(r: Retained, text: seq<Byte>): Retained {
    if text == [] then r else Limited(AddToLast(r.lines, text), r.expired)
  }

  function AddLine(r: Retained): Retained {
    Limited((if r.lines == [] then [[]] else r.lines) + [[]], r.expired)
  }

  function FeedOne(r: Retained, c: char): Retained {
    if c == '\n' then AddLine(r) else AddText(r, Clean(c))
  }

  /** The state after a text, one character at a time. */
  function Feed(r: Retained, text: seq<char>): Retained {
    if text == [] then r else FeedOne(Feed(r, text[..|text| - 1]), text[|text| - 1])
  }

  /** It does not matter how the input is split into calls. */
  lemma {:induction false} FeedSplits(r: Retained, a: seq<char>, b: seq<char>)
    ensures Feed(Feed(r, a), b) == Feed(r, a + b)
    decreases b
  {
    if b == [] {
      assert a + b == a;
    } else {
      FeedSplits(r, a, b[..|b| - 1]);
      assert (a + b)[..|a + b| - 1] == a + b[..|b| - 1];
    }
  }

  lemma {:induction false} JoinAddToLast(lines: seq<seq<Byte>>, text: seq<Byte>)
    ensures Join(AddToLast(lines, text)) == Join(lines) + text
    ensures Size(AddToLast(lines, text)) == Size(lines) + |text| + if lines == [] then 1 else 0
  {
    if |lines| > 1 {
      JoinAddToLast(lines[1..], text);
      assert AddToLast(lines, text)[1..] == AddToLast(lines[1..], text);
    }
  }

  lemma {:induction false} JoinAddLine(lines: seq<seq<Byte>>)
    requires lines != []
    ensures Join(lines + [[]]) == Join(lines) + [NEWLINE]
  {
    if |lines| == 1 {
      assert (lines + [[]])[1..] == [[]];
    } else {
      JoinAddLine(lines[1..]);
      assert (lines + [[]])[1..] == lines[1..] + [[]];
    }
  }

  lemma FeedOneKeepsSuffix(r: Retained, c: char, input: seq<Byte>)
    requires Suffix(Join(r.lines), input) && (r.expired <==> |Join(r.lines)| < |input|)
    ensures var more := if c == '\n' then [NEWLINE] else Clean(c);
            var next := FeedOne(r, c);
            && Suffix(Join(next.lines), input + more)
            && (next.expired <==> |Join(next.lines)| < |input + more|)
  {
    var more := if c == '\n' then [NEWLINE] else Clean(c);
    var grown := if c == '\n' then (if r.lines == [] then [[]] else r.lines) + [[]] else AddToLast(r.lines, more);
    if c == '\n' {
      JoinAddLine(if r.lines == [] then [[]] else r.lines);
    } else {
      JoinAddToLast(r.lines, more);
    }
    SuffixAppend(Join(r.lines), input, more);
    TrimIsSuffix(grown, MAX_TRANSCRIPT_BYTES, MAX_TRANSCRIPT_LINES);
    SuffixTransitive(Join(FeedOne(r, c).lines), Join(grown), input + more);
  }

  /** The retained lines are the end of the sanitised input, and all of it exactly while the
      transcript has not expired. */
  lemma {:induction false} RetainedIsSuffix(text: seq<char>)
    ensures var r := Feed(EMPTY, text);
            && Suffix(Join(r.lines), Sanitised(text))
            && (r.expired <==> Join(r.lines) != Sanitised(text))
            && Size(r.lines) <= MAX_TRANSCRIPT_BYTES && |r.lines| <= MAX_TRANSCRIPT_LINES
  {
    var r := Feed(EMPTY, text);
    if text == [] {
      assert [] == [] + Join(r.lines);
    } else {
      var before := text[..|text| - 1];
      RetainedIsSuffix(before);
      var b := Feed(EMPTY, before);
      assert |Join(b.lines)| < |Sanitised(before)| <==> Join(b.lines) != Sanitised(before) by {
        SuffixIsShorter(Join(b.lines), Sanitised(before));
      }
      FeedOneKeepsSuffix(b, text[|text| - 1], Sanitised(before));
      SuffixIsShorter(Join(r.lines), Sanitised(text));
      FeedOneKeepsLimits(b, text[|text| - 1]);
    }
  }

  lemma SuffixIsShorter(s: seq<Byte>, whole: seq<Byte>)
    requires Suffix(s, whole)
    ensures |s| < |whole| <==> s != whole
  {
    var dropped :| whole == dropped + s;
  }

  lemma FeedOneKeepsLimits(r: Retained, c: char)
    ensures Size(FeedOne(r, c).lines) <= MAX_TRANSCRIPT_BYTES && |FeedOne(r, c).lines| <= MAX_TRANSCRIPT_LINES
  {
    var grown := if c == '\n' then (if r.lines == [] then [[]] else r.lines) + [[]] else AddToLast(r.lines, Clean(c));
    TrimKeepsLimits(grown, MAX_TRANSCRIPT_BYTES, MAX_TRANSCRIPT_LINES);
  }

  // ---- Appending in fragments ----

  lemma {:induction false} CutMoves(s: seq<Byte>, from: nat, at: nat)
    requires from <= at <= |s|
    ensures Cut(s[from..], at - from) + from == Cut(s, at)
    decreases |s| - at
  {
    if !Boundary(s, at) {
      CutMoves(s, from, at + 1);
    }
  }

  lemma {:induction false} CutSkips(s: seq<Byte>, at: nat, to: nat)
    requires at <= to <= |s| && Boundary(s, to)
    requires forall i :: at <= i < to ==> !Boundary(s, i)
    ensures Cut(s, at) == to
    decreases |s| - at
  {
    if at < to {
      CutSkips(s, at + 1, to);
    }
  }

  /** Trimming between two appends to the last line changes nothing. */
  lemma {:induction false} TrimThenAppend(lines: seq<seq<Byte>>, text: seq<Byte>, maxBytes: nat, maxLines: nat)
    requires maxBytes >= 1 && maxLines >= 1 && lines != []
    requires text != [] && !Continuation(text[0])
    ensures Trim(AddToLast(Trim(lines, maxBytes, maxLines), text), maxBytes, maxLines) == Trim(AddToLast(lines, text), maxBytes, maxLines)
  {
    JoinAddToLast(lines, text);
    if Over(lines, maxBytes, maxLines) {
      if |lines| > 1 {
        assert AddToLast(lines, text)[1..] == AddToLast(lines[1..], text);
        TrimThenAppend(lines[1..], text, maxBytes, maxLines);
      } else {
        TrimOneLine(lines[0], text, maxBytes, maxLines);
        assert lines == [lines[0]];
      }
    }
  }

  function TrimLine(line: seq<Byte>, maxBytes: nat): seq<Byte>
    requires maxBytes >= 1
  {
    if |line| < maxBytes then line else line[Cut(line, |line| + 1 - maxBytes)..]
  }

  lemma TrimSingle(line: seq<Byte>, maxBytes: nat, maxLines: nat)
    requires maxBytes >= 1 && maxLines >= 1
    ensures Trim([line], maxBytes, maxLines) == [TrimLine(line, maxBytes)]
  {
    assert Size([line]) == |line| + 1;
  }

  lemma TrimOneLine(line: seq<Byte>, text: seq<Byte>, maxBytes: nat, maxLines: nat)
    requires maxBytes >= 1 && maxLines >= 1
    requires |line| >= maxBytes && text != [] && !Continuation(text[0])
    ensures Trim(AddToLast(Trim([line], maxBytes, maxLines), text), maxBytes, maxLines) == Trim(AddToLast([line], text), maxBytes, maxLines)
  {
    var kept := TrimLine(line, maxBytes);
    TrimSingle(line, maxBytes, maxLines);
    TrimSingle(kept + text, maxBytes, maxLines);
    TrimSingle(line + text, maxBytes, maxLines);
    assert AddToLast([line], text) == [line + text] && AddToLast([kept], text) == [kept + text];
    TrimLineTwice(line, text, maxBytes);
  }

  lemma TrimLineTwice(line: seq<Byte>, text: seq<Byte>, maxBytes: nat)
    requires maxBytes >= 1
    requires |line| >= maxBytes && text != [] && !Continuation(text[0])
    ensures TrimLine(TrimLine(line, maxBytes) + text, maxBytes) == TrimLine(line + text, maxBytes)
  {
    var at := |line| + 1 - maxBytes;
    var cut := Cut(line, at);
    var all := line + text;
    var rest := line[cut..] + text;
    assert all[cut..] == rest;
    if at + |text| <= cut {
      forall i | at + |text| <= i < cut ensures !Boundary(all, i) {
        assert !Boundary(line, i) && all[i] == line[i];
      }
      CutSkips(all, at + |text|, cut);
    } else {
      CutMoves(all, cut, at + |text|);
    }
  }

  lemma {:induction false} AddToLastTwice(lines: seq<seq<Byte>>, a: seq<Byte>, b: seq<Byte>)
    ensures AddToLast(AddToLast(lines, a), b) == AddToLast(lines, a + b)
  {
    if lines != [] {
      var last := lines[|lines| - 1];
      assert last + a + b == last + (a + b);
    }
  }

  /** Two fragments of one line are as good as one. */
  lemma AddTextSplits(r: Retained, a: seq<Byte>, b: seq<Byte>)
    requires b == [] || !Continuation(b[0])
    ensures AddText(AddText(r, a), b) == AddText(r, a + b)
  {
    if a == [] {
      assert a + b == b;
    } else if b == [] {
      assert a + b == a;
    } else {
      var lines := AddToLast(r.lines, a);
      AddToLastTwice(r.lines, a, b);
      TrimThenAppend(lines, b, MAX_TRANSCRIPT_BYTES, MAX_TRANSCRIPT_LINES);
      JoinAddToLast(lines, b);
    }
  }
}
