/** Characters and their bytes: what the bytes of a well-formed text say, and what a transcript
    shows of the characters it was given. */
module Characters {
  import opened Utf8
  import opened Retention

  /** The Unicode scalar values. */
  predicate IsScalar(v: int) {
    0 <= v < 0xD800 || 0xE000 <= v < 0x110000
  }

  /** The number that the bits of one character make up (section 3 of RFC 3629): those of its first
      byte behind the mark of its length, and six of each further byte. */
  function Scalar(s: seq<Byte>): int
    requires WellFormed(s)
  {
    if |s| == 1 then s[0]
    else if |s| == 2 then Bits(s[0], 0xC0) * 0x40 + Bits(s[1], 0x80)
    else if |s| == 3 then Bits(s[0], 0xE0) * 0x1000 + Bits(s[1], 0x80) * 0x40 + Bits(s[2], 0x80)
    else Bits(s[0], 0xF0) * 0x40000 + Bits(s[1], 0x80) * 0x1000 + Bits(s[2], 0x80) * 0x40 + Bits(s[3], 0x80)
  }

  function Bits(b: Byte, mark: int): int {
    b as int - mark
  }

  lemma SixBits(v: nat)
    ensures v == v / 0x40 * 0x40 + v % 0x40
    ensures v / 0x1000 == v / 0x40 / 0x40 && v / 0x40000 == v / 0x1000 / 0x40
  {
  }

  /** The bytes of a character are well formed and say just this character. */
  lemma EncodeSays(c: char)
    ensures WellFormed(Encode(c)) && Scalar(Encode(c)) == c as int
    ensures forall i :: 1 <= i < |Encode(c)| ==> Continuation(Encode(c)[i])
  {
    var v := c as int;
    SixBits(v);
    SixBits(v / 0x40);
    SixBits(v / 0x1000);
    if v < 0x80 {
    } else if v < 0x800 {
      assert 0xC2 <= 0xC0 + v / 0x40 <= 0xDF;
    } else if v < 0x10000 {
      assert 0xE0 <= 0xE0 + v / 0x1000 <= 0xEF;
      assert v / 0x1000 == 0 ==> v / 0x40 % 0x40 >= 0x20;
      assert v / 0x1000 == 0xD ==> v / 0x40 % 0x40 < 0x20;
    } else {
      assert 0xF0 <= 0xF0 + v / 0x40000 <= 0xF4;
      assert v / 0x40000 == 0 ==> v / 0x1000 % 0x40 >= 0x10;
      assert v / 0x40000 == 4 ==> v / 0x1000 % 0x40 < 0x10;
    }
  }

  /** Every well-formed sequence of bytes is that of one character. */
  lemma WellFormedIsEncoded(s: seq<Byte>)
    requires WellFormed(s)
    ensures IsScalar(Scalar(s)) && Encode(Scalar(s) as char) == s
  {
    if |s| == 2 {
      Digits(Bits(s[0], 0xC0), Bits(s[1], 0x80));
    } else if |s| == 3 {
      ThreeDigits(Bits(s[0], 0xE0), Bits(s[1], 0x80), Bits(s[2], 0x80));
    } else if |s| == 4 {
      FourDigits(Bits(s[0], 0xF0), Bits(s[1], 0x80), Bits(s[2], 0x80), Bits(s[3], 0x80));
    }
  }

  lemma ThreeDigits(a: nat, b: nat, c: nat)
    requires b < 0x40 && c < 0x40
    ensures var v := a * 0x1000 + b * 0x40 + c; v / 0x1000 == a && v / 0x40 % 0x40 == b && v % 0x40 == c
  {
    Digits(a * 0x40 + b, c);
    Digits(a, b);
    SixBits(a * 0x1000 + b * 0x40 + c);
  }

  lemma FourDigits(a: nat, b: nat, c: nat, d: nat)
    requires b < 0x40 && c < 0x40 && d < 0x40
    ensures var v := a * 0x40000 + b * 0x1000 + c * 0x40 + d;
            v / 0x40000 == a && v / 0x1000 % 0x40 == b && v / 0x40 % 0x40 == c && v % 0x40 == d
  {
    ThreeDigits(a * 0x40 + b, c, d);
    Digits(a, b);
    SixBits(a * 0x40000 + b * 0x1000 + c * 0x40 + d);
  }

  lemma Digits(high: nat, low: nat)
    requires low < 0x40
    ensures (high * 0x40 + low) / 0x40 == high && (high * 0x40 + low) % 0x40 == low
  {
  }

  lemma OneCharacter(a: char, b: char)
    requires Encode(a) == Encode(b)
    ensures a == b
  {
    EncodeSays(a);
    EncodeSays(b);
  }

  function CharOf(s: seq<Byte>): (c: char)
    requires WellFormed(s)
    ensures Encode(c) == s
  {
    WellFormedIsEncoded(s);
    Scalar(s) as char
  }

  /** The characters of a string. */
  function Chars(s: seq<Byte>): seq<char>
    requires Valid(s)
  {
    if s == [] then [] else [CharOf(s[..Unit(s)])] + Chars(s[Unit(s)..])
  }

  lemma EncodeThen(c: char, rest: seq<Byte>)
    requires Valid(rest)
    ensures Valid(Encode(c) + rest) && Chars(Encode(c) + rest) == [c] + Chars(rest)
  {
    EncodeSays(c);
    UnitOfValid(Encode(c), rest);
  }

  function EncodeAll(text: seq<char>): (s: seq<Byte>) {
    if text == [] then [] else Encode(text[0]) + EncodeAll(text[1..])
  }

  /** Encoding and decoding undo each other. */
  lemma {:induction false} CharsOfEncoded(text: seq<char>)
    ensures Valid(EncodeAll(text)) && Chars(EncodeAll(text)) == text
  {
    if text != [] {
      CharsOfEncoded(text[1..]);
      EncodeThen(text[0], EncodeAll(text[1..]));
      hide Chars, Valid;
    }
  }

  lemma {:induction false} EncodedChars(s: seq<Byte>)
    requires Valid(s)
    ensures EncodeAll(Chars(s)) == s
  {
    hide *;
    if s == [] {
      NoCharacter();
    } else {
      var n := Unit(s);
      CharsStep(s);
      EncodedChars(s[n..]);
      EncodeStep(CharOf(s[..n]), Chars(s[n..]));
      assert s == s[..n] + s[n..];
    }
  }

  lemma NoCharacter()
    ensures Chars([]) == [] && EncodeAll([]) == []
  {
  }

  lemma CharsStep(s: seq<Byte>)
    requires Valid(s) && s != []
    ensures WellFormed(s[..Unit(s)]) && Valid(s[Unit(s)..])
    ensures Chars(s) == [CharOf(s[..Unit(s)])] + Chars(s[Unit(s)..])
  {
    hide Scalar, WellFormed;
  }

  lemma EncodeStep(c: char, rest: seq<char>)
    ensures EncodeAll([c] + rest) == Encode(c) + EncodeAll(rest)
  {
    assert ([c] + rest)[1..] == rest;
  }

  lemma {:induction false} EncodeTogether(a: seq<char>, b: seq<char>)
    ensures EncodeAll(a + b) == EncodeAll(a) + EncodeAll(b)
  {
    hide *;
    if a == [] {
      NoCharacter();
      assert a + b == b && [] + EncodeAll(b) == EncodeAll(b);
    } else {
      EncodeTogether(a[1..], b);
      EncodeStep(a[0], a[1..]);
      EncodeStep(a[0], a[1..] + b);
      assert a == [a[0]] + a[1..] && a + b == [a[0]] + (a[1..] + b);
      assert Encode(a[0]) + (EncodeAll(a[1..]) + EncodeAll(b)) == (Encode(a[0]) + EncodeAll(a[1..])) + EncodeAll(b);
    }
  }

  // ---- What a transcript shows ----

  /** A tab shows as four spaces, any other control character but a line end as the replacement
      character, and everything else as itself. */
  function Shown(c: char): seq<char> {
    if c == '\t' then "    " else if c != '\n' && IsControl(c) then ['\U{FFFD}'] else [c]
  }

  function AllShown(text: seq<char>): seq<char> {
    if text == [] then [] else AllShown(text[..|text| - 1]) + Shown(text[|text| - 1])
  }

  lemma PiecesShow(c: char)
    ensures EncodeAll(Shown(c)) == if c == '\n' then [NEWLINE] else Clean(c)
  {
    if c == '\t' {
      assert EncodeAll("    ") == Encode(' ') + EncodeAll("   ");
      assert EncodeAll("   ") == Encode(' ') + EncodeAll("  ");
      assert EncodeAll("  ") == Encode(' ') + EncodeAll(" ");
      assert EncodeAll(" ") == Encode(' ') + EncodeAll("");
    } else {
      assert Shown(c) == [Shown(c)[0]];
      assert EncodeAll(Shown(c)) == Encode(Shown(c)[0]) + EncodeAll([]);
    }
  }

  /** The sanitised bytes of a text are those of the characters shown. */
  lemma {:induction false} SanitisedShows(text: seq<char>)
    ensures Sanitised(text) == EncodeAll(AllShown(text))
    ensures Valid(Sanitised(text)) && Chars(Sanitised(text)) == AllShown(text)
  {
    CharsOfEncoded(AllShown(text));
    hide Chars, Valid;
    if text != [] {
      var last := text[|text| - 1];
      SanitisedShows(text[..|text| - 1]);
      PiecesShow(last);
      EncodeTogether(AllShown(text[..|text| - 1]), Shown(last));
      hide EncodeAll, Clean, Shown;
    }
  }

  lemma NotInside(e: seq<Byte>, rest: seq<Byte>, dropped: seq<Byte>, s: seq<Byte>)
    requires e + rest == dropped + s && dropped != [] && s != [] && !Continuation(s[0])
    requires forall i :: 1 <= i < |e| ==> Continuation(e[i])
    ensures |e| <= |dropped|
  {
    assert forall i :: 1 <= i < |e| ==> Continuation((e + rest)[i]);
    assert (e + rest)[|dropped|] == s[0];
  }

  /** What starts with a character and ends a text consists of its last characters. */
  lemma {:induction false} LastCharacters(s: seq<Byte>, shown: seq<char>) returns (n: nat)
    requires Suffix(s, EncodeAll(shown)) && (s == [] || !Continuation(s[0]))
    ensures n <= |shown| && s == EncodeAll(shown[n..])
    decreases |shown|
  {
    var whole := EncodeAll(shown);
    var dropped :| whole == dropped + s;
    if dropped == [] {
      n := 0;
      assert shown[0..] == shown;
    } else if s == [] {
      n := |shown|;
    } else {
      var e, rest := Encode(shown[0]), EncodeAll(shown[1..]);
      EncodeSays(shown[0]);
      NotInside(e, rest, dropped, s);
      assert rest == dropped[|e|..] + s by {
        assert whole[|e|..] == rest && whole[|e|..] == dropped[|e|..] + s;
      }
      n := LastCharacters(s, shown[1..]);
      n := n + 1;
      assert shown[1..][n - 1..] == shown[n..];
    }
  }

  /** The retained lines are the last characters shown of what was given, and all of them exactly
      while the transcript has not expired. */
  lemma RetainedCharacters(text: seq<char>) returns (n: nat)
    ensures var r := Feed(EMPTY, text);
            && n <= |AllShown(text)| && (r.expired <==> n > 0)
            && Valid(Join(r.lines)) && Chars(Join(r.lines)) == AllShown(text)[n..]
  {
    var r := Feed(EMPTY, text);
    var shown := AllShown(text);
    RetainedIsSuffix(text);
    SanitisedShows(text);
    FeedStartsCharacters(text);
    hide Feed, AllShown, Chars, Valid;
    n := LastCharacters(Join(r.lines), shown);
    CharsOfEncoded(shown[n..]);
    assert shown[0..] == shown;
    if n > 0 {
      EncodeTogether(shown[..n], shown[n..]);
      assert shown == shown[..n] + shown[n..];
      assert EncodeAll(shown[..n]) != [];
    }
  }

  predicate Starts(lines: seq<seq<Byte>>) {
    forall i :: 0 <= i < |lines| ==> lines[i] == [] || !Continuation(lines[i][0])
  }

  lemma {:induction false} TrimStarts(lines: seq<seq<Byte>>, maxBytes: nat, maxLines: nat)
    requires maxBytes >= 1 && maxLines >= 1 && Starts(lines)
    ensures Starts(Trim(lines, maxBytes, maxLines))
  {
    if Over(lines, maxBytes, maxLines) && |lines| > 1 {
      TrimStarts(lines[1..], maxBytes, maxLines);
    }
  }

  lemma {:induction false} FeedStarts(text: seq<char>)
    ensures Starts(Feed(EMPTY, text).lines)
  {
    if text != [] {
      FeedStarts(text[..|text| - 1]);
      var r := Feed(EMPTY, text[..|text| - 1]);
      var c := text[|text| - 1];
      hide Feed;
      var grown := if c == '\n' then (if r.lines == [] then [[]] else r.lines) + [[]] else AddToLast(r.lines, Clean(c));
      TrimStarts(grown, MAX_TRANSCRIPT_BYTES, MAX_TRANSCRIPT_LINES);
    }
  }

  lemma FeedStartsCharacters(text: seq<char>)
    ensures var kept := Join(Feed(EMPTY, text).lines); kept == [] || !Continuation(kept[0])
  {
    FeedStarts(text);
    hide Feed;
  }
}
