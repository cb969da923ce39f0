/** UTF-8 as bytes: the syntax of section 4 of RFC 3629, lossy decoding by maximal
    subparts (section 3.9 of the Unicode Standard), and the streaming decoder that
    keeps one incomplete character between two reads of a pipe. */
module Utf8 {
  type Byte = b: int | 0 <= b < 256

  /** U+FFFD, the replacement character, as it is stored in a string. */
  const REPLACEMENT: seq<Byte> := [0xEF, 0xBF, 0xBD]

  predicate Continuation(b: Byte) {
    0x80 <= b <= 0xBF
  }

  /** How many bytes a character starting with this byte has; 0 for no character. */
  function Width(first: Byte): nat {
    if first < 0x80 then 1
    else if 0xC2 <= first <= 0xDF then 2
    else if 0xE0 <= first <= 0xEF then 3
    else if 0xF0 <= first <= 0xF4 then 4
    else 0
  }

  predicate SecondFits(first: Byte, second: Byte) {
    && Continuation(second)
    && (first == 0xE0 ==> 0xA0 <= second)
    && (first == 0xED ==> second <= 0x9F)
    && (first == 0xF0 ==> 0x90 <= second)
    && (first == 0xF4 ==> second <= 0x8F)
  }

  /** No byte of `s` rules out that `s` is a character or the beginning of one. */
  predicate Fits(s: seq<Byte>) {
    && 0 < |s| <= Width(s[0])
    && (|s| >= 2 ==> SecondFits(s[0], s[1]))
    && (|s| >= 3 ==> Continuation(s[2]))
    && (|s| >= 4 ==> Continuation(s[3]))
  }

  /** One character: the rule UTF8-char of the syntax. */
  predicate WellFormed(s: seq<Byte>) {
    Fits(s) && |s| == Width(s[0])
  }

  /** The beginning of some character, or all of it. */
  ghost predicate Begins(s: seq<Byte>) {
    s != [] && exists rest: seq<Byte> :: WellFormed(s + rest)
  }

  lemma FitsPrefix(s: seq<Byte>, n: nat)
    requires Fits(s) && 1 <= n <= |s|
    ensures Fits(s[..n])
  {
    assert s[..n][0] == s[0];
  }

  lemma UnfitStays(s: seq<Byte>, n: nat, m: nat)
    requires 1 <= n <= m <= |s| && !Fits(s[..n])
    ensures !Fits(s[..m])
  {
    assert s[..m][..n] == s[..n];
    if Fits(s[..m]) {
      FitsPrefix(s[..m], n);
    }
  }

  lemma {:induction false} FitsCompletes(s: seq<Byte>)
    requires Fits(s)
    ensures Begins(s)
    decreases 4 - |s|
  {
    if |s| == Width(s[0]) {
      assert s + [] == s;
    } else {
      var next: seq<Byte> := [if |s| == 1 && (s[0] == 0xE0 || s[0] == 0xF0) then 0xA0 else 0x80];
      FitsCompletes(s + next);
      var rest :| WellFormed(s + next + rest);
      assert s + (next + rest) == s + next + rest;
    }
  }

  lemma FitsBegins(s: seq<Byte>)
    ensures Fits(s) <==> Begins(s)
  {
    if Fits(s) {
      FitsCompletes(s);
    }
    if Begins(s) {
      var rest :| WellFormed(s + rest);
      FitsPrefix(s + rest, |s|);
      assert (s + rest)[..|s|] == s;
    }
  }

  // ---- Whole-sequence lossy decoding ----

  /** The bytes one step of decoding replaces or keeps: the longest prefix that begins a
      character, or one byte where none does. This is a character, or a maximal subpart. */
  ghost predicate IsUnit(s: seq<Byte>, n: nat) {
    && 1 <= n <= |s|
    && (n == 1 || Begins(s[..n]))
    && forall m :: n < m <= |s| ==> !Begins(s[..m])
  }

  function UnitFrom(s: seq<Byte>, n: nat): (u: nat)
    requires 1 <= n <= |s|
    ensures n <= u <= |s|
    decreases |s| - n
  {
    if n < |s| && Fits(s[..n + 1]) then UnitFrom(s, n + 1) else n
  }

  /** The length of the unit `s` starts with. */
  function Unit(s: seq<Byte>): (n: nat)
    requires s != []
    ensures 1 <= n <= |s|
  {
    UnitFrom(s, 1)
  }

  lemma {:induction false} UnitFromStops(s: seq<Byte>, n: nat)
    requires 1 <= n <= |s|
    requires n == 1 || Fits(s[..n])
    ensures var u := UnitFrom(s, n);
            && (u == 1 || Fits(s[..u]))
            && (forall m :: u < m <= |s| ==> !Fits(s[..m]))
    decreases |s| - n
  {
    if n < |s| && Fits(s[..n + 1]) {
      UnitFromStops(s, n + 1);
    } else {
      forall m | n < m <= |s| ensures !Fits(s[..m]) {
        UnfitStays(s, n + 1, m);
      }
    }
  }

  /** The unit is the longest beginning of some character, and nothing else is. */
  lemma UnitIsUnit(s: seq<Byte>)
    requires s != []
    ensures IsUnit(s, Unit(s))
    ensures forall n :: IsUnit(s, n) ==> n == Unit(s)
    ensures Fits(s[..Unit(s)]) || (Unit(s) == 1 && !Fits(s[..1]))
  {
    UnitFromStops(s, 1);
    forall m | 1 <= m <= |s| ensures Fits(s[..m]) <==> Begins(s[..m]) {
      FitsBegins(s[..m]);
    }
  }

  /** What a unit becomes: a character stays, anything else is replaced. */
  function Image(unit: seq<Byte>): seq<Byte> {
    if WellFormed(unit) then unit else REPLACEMENT
  }

  /** The decoding of a complete byte sequence: characters are kept, every maximal
      subpart of an ill-formed sequence becomes one replacement character. */
  function Lossy(s: seq<Byte>): (text: seq<Byte>) {
    if s == [] then []
    else
      var n := Unit(s);
      Image(s[..n]) + Lossy(s[n..])
  }

  /** A string: a sequence of characters. */
  predicate Valid(s: seq<Byte>) {
    s == [] || (WellFormed(s[..Unit(s)]) && Valid(s[Unit(s)..]))
  }

  /** Only one length can be the unit. */
  lemma UnitIsOnly(s: seq<Byte>, n: nat)
    requires 1 <= n <= |s| && (n == 1 || Fits(s[..n]))
    requires n == |s| || !Fits(s[..n + 1])
    ensures Unit(s) == n
  {
    UnitIsUnit(s);
    forall m | 1 <= m <= |s| ensures Fits(s[..m]) <==> Begins(s[..m]) {
      FitsBegins(s[..m]);
    }
    forall m | n < m <= |s| ensures !Fits(s[..m]) {
      UnfitStays(s, n + 1, m);
    }
  }

  /** What `s` starts with decides its unit as soon as the unit is over. */
  lemma UnitOfExtension(s: seq<Byte>, t: seq<Byte>)
    requires s != []
    requires var n := Unit(s); WellFormed(s[..n]) || !Fits(s[..n]) || n < |s|
    ensures Unit(s + t) == Unit(s)
  {
    var n := Unit(s);
    UnitIsUnit(s);
    var st := s + t;
    assert st[..n] == s[..n];
    if n < |s| {
      assert st[..n + 1] == s[..n + 1];
      FitsBegins(s[..n + 1]);
    } else if n < |st| {
      assert st[..n + 1][..n] == s[..n] && st[..n + 1][0] == s[..n][0];
      if Fits(st[..n + 1]) {
        FitsPrefix(st[..n + 1], n);
      }
    }
    UnitIsOnly(st, n);
  }

  lemma UnitOfValid(w: seq<Byte>, t: seq<Byte>)
    requires WellFormed(w)
    ensures Unit(w + t) == |w| && (w + t)[..|w|] == w && (w + t)[|w|..] == t
  {
    assert (w + t)[..|w|] == w;
    UnitIsOnly(w + t, |w|);
  }

  lemma {:induction false} LossyIsValid(s: seq<Byte>)
    ensures Valid(Lossy(s))
  {
    if s != [] {
      var n := Unit(s);
      LossyIsValid(s[n..]);
      UnitIsUnit(s);
      assert WellFormed(Image(s[..n]));
      UnitOfValid(Image(s[..n]), Lossy(s[n..]));
    }
  }

  lemma {:induction false} LossyKeepsStrings(s: seq<Byte>)
    ensures Lossy(s) == s <==> Valid(s)
  {
    LossyIsValid(s);
    if Valid(s) && s != [] {
      LossyKeepsStrings(s[Unit(s)..]);
      assert s == s[..Unit(s)] + s[Unit(s)..];
    }
  }

  // ---- Streaming ----

  /** The beginning of a character that more bytes can still complete. */
  predicate Incomplete(s: seq<Byte>) {
    Fits(s) && !WellFormed(s)
  }

  /** The incomplete character `s` ends with, if it ends with one. */
  function Carry(s: seq<Byte>): (tail: seq<Byte>)
    ensures |tail| <= 3
    ensures tail == [] || Incomplete(tail)
  {
    if s == [] then []
    else if Incomplete(s) then s
    else Carry(s[Unit(s)..])
  }

  /** The decoding of everything before `Carry(s)`. */
  function Settled(s: seq<Byte>): (text: seq<Byte>) {
    if s == [] || Incomplete(s) then []
    else
      var n := Unit(s);
      Image(s[..n]) + Settled(s[n..])
  }

  lemma UnitOfIncomplete(s: seq<Byte>)
    requires Incomplete(s)
    ensures Unit(s) == |s| && !WellFormed(s[..|s|])
  {
    assert s[..|s|] == s;
    UnitIsOnly(s, |s|);
  }

  lemma {:induction false} LossyIsSettledAndCarry(s: seq<Byte>)
    ensures Lossy(s) == Settled(s) + (if Carry(s) == [] then [] else REPLACEMENT)
  {
    if s == [] {
    } else if Incomplete(s) {
      UnitOfIncomplete(s);
    } else {
      LossyIsSettledAndCarry(s[Unit(s)..]);
    }
  }

  lemma UnitGoesOn(s: seq<Byte>, t: seq<Byte>)
    requires s != [] && !Incomplete(s)
    ensures Unit(s + t) == Unit(s) && !Incomplete(s + t)
    ensures (s + t)[..Unit(s)] == s[..Unit(s)] && (s + t)[Unit(s)..] == s[Unit(s)..] + t
  {
    UnitIsUnit(s);
    assert Unit(s) == |s| ==> s[..Unit(s)] == s;
    UnitOfExtension(s, t);
    assert (s + t)[..Unit(s)] == s[..Unit(s)];
    UnitIsUnit(s + t);
    if Incomplete(s + t) {
      UnitOfIncomplete(s + t);
    }
  }

  /** Decoding can stop after any prefix and go on from its carry. */
  lemma {:induction false} SettledSplits(s: seq<Byte>, t: seq<Byte>)
    ensures Settled(s + t) == Settled(s) + Settled(Carry(s) + t)
    ensures Carry(s + t) == Carry(Carry(s) + t)
  {
    if s == [] {
      assert s + t == t;
    } else if Incomplete(s) {
    } else {
      UnitGoesOn(s, t);
      SettledSplits(s[Unit(s)..], t);
      SettledSplitsStep(s, t);
    }
  }

  lemma Unfold(s: seq<Byte>)
    requires s != [] && !Incomplete(s)
    ensures Settled(s) == Image(s[..Unit(s)]) + Settled(s[Unit(s)..])
    ensures Carry(s) == Carry(s[Unit(s)..])
  {
  }

  lemma SettledSplitsStep(s: seq<Byte>, t: seq<Byte>)
    requires s != [] && !Incomplete(s)
    requires var rest := s[Unit(s)..];
             && Settled(rest + t) == Settled(rest) + Settled(Carry(rest) + t)
             && Carry(rest + t) == Carry(Carry(rest) + t)
    ensures Settled(s + t) == Settled(s) + Settled(Carry(s) + t)
    ensures Carry(s + t) == Carry(Carry(s) + t)
  {
    hide *;
    UnitGoesOn(s, t);
    Unfold(s);
    Unfold(s + t);
  }

  datatype Option<T> = None | Some(value: T)

  /** What the standard library reports about a byte slice: it is a string, or how long
      its longest string prefix is and how long the error behind it is, with no length
      when the slice ends inside a character. */
  datatype Check = Ok | Err(validUpTo: nat, errorLen: Option<nat>)

  function FromUtf8(s: seq<Byte>): (c: Check)
    ensures c.Ok? <==> Valid(s)
    ensures c.Err? ==>
              && c.validUpTo < |s| && Valid(s[..c.validUpTo])
              && var rest := s[c.validUpTo..];
                 && !WellFormed(rest[..Unit(rest)])
                 && c.errorLen == (if Incomplete(rest) then None else Some(Unit(rest)))
  {
    if s == [] then Ok
    else
      var n := Unit(s);
      if !WellFormed(s[..n]) then
        Err(0, if Incomplete(s) then None else Some(n))
      else
        match FromUtf8(s[n..])
        case Ok => Ok
        case Err(v, e) =>
          ValidLonger(s, v);
          Err(n + v, e)
  }

  lemma ValidLonger(s: seq<Byte>, v: nat)
    requires s != [] && WellFormed(s[..Unit(s)]) && Unit(s) + v <= |s| && Valid(s[Unit(s)..][..v])
    ensures Valid(s[..Unit(s) + v]) && s[Unit(s) + v..] == s[Unit(s)..][v..]
  {
    hide WellFormed, Unit;
    var n := Unit(s);
    UnitOfValid(s[..n], s[n..][..v]);
    assert s[..n + v] == s[..n] + s[n..][..v];
  }

  lemma ValidUnfold(p: seq<Byte>)
    requires p != []
    ensures Valid(p) <==> WellFormed(p[..Unit(p)]) && Valid(p[Unit(p)..])
  {
  }

  lemma {:induction false} SettledAfterString(p: seq<Byte>, s: seq<Byte>)
    requires Valid(p)
    ensures Settled(p + s) == p + Settled(s) && Carry(p + s) == Carry(s)
  {
    hide *;
    if p == [] {
      assert p + s == s;
    } else {
      ValidUnfold(p);
      var w := p[..Unit(p)];
      SettledAfterString(p[|w|..], s);
      SettledAfterCharacter(w, p[|w|..] + s);
      assert p == w + p[|w|..] && p + s == w + (p[|w|..] + s);
    }
  }

  lemma SettledAfterCharacter(w: seq<Byte>, s: seq<Byte>)
    requires WellFormed(w)
    ensures Settled(w + s) == w + Settled(s) && Carry(w + s) == Carry(s)
  {
    UnitOfValid(w, s);
    if Incomplete(w + s) {
      UnitOfIncomplete(w + s);
    }
  }

  lemma NothingSettles(s: seq<Byte>)
    requires s == [] || Incomplete(s)
    ensures Settled(s) == [] && Carry(s) == s
  {
  }

  lemma IllFormedImage(unit: seq<Byte>)
    requires !WellFormed(unit)
    ensures Image(unit) == REPLACEMENT
  {
  }

  /** A string is settled as it is. */
  lemma AfterString(text: seq<Byte>, whole: seq<Byte>, at: nat, n: nat)
    requires at + n <= |whole| && Valid(whole[at..][..n])
    requires Settled(whole) == text + Settled(whole[at..]) && Carry(whole) == Carry(whole[at..])
    ensures whole[at..][n..] == whole[at + n..] && (n == |whole[at..]| ==> whole[at..][..n] == whole[at..])
    ensures Settled(whole) == text + whole[at..][..n] + Settled(whole[at + n..]) && Carry(whole) == Carry(whole[at + n..])
  {
    hide *;
    var rest := whole[at..];
    assert rest == rest[..n] + rest[n..] && rest[n..] == whole[at + n..];
    SettledAfterString(rest[..n], rest[n..]);
    assert text + (rest[..n] + Settled(rest[n..])) == text + rest[..n] + Settled(rest[n..]);
  }

  /** An ill-formed piece is settled as one replacement. */
  lemma AfterIllFormed(text: seq<Byte>, whole: seq<Byte>, at: nat)
    requires at < |whole| && !Incomplete(whole[at..]) && !WellFormed(whole[at..][..Unit(whole[at..])])
    requires Settled(whole) == text + Settled(whole[at..]) && Carry(whole) == Carry(whole[at..])
    ensures var next := at + Unit(whole[at..]);
            next <= |whole| && Settled(whole) == text + REPLACEMENT + Settled(whole[next..]) && Carry(whole) == Carry(whole[next..])
  {
    hide *;
    var rest := whole[at..];
    var n := Unit(rest);
    Unfold(rest);
    IllFormedImage(rest[..n]);
    assert rest[n..] == whole[at + n..];
    assert text + (REPLACEMENT + Settled(rest[n..])) == text + REPLACEMENT + Settled(rest[n..]);
  }

  /** Keeps only an incomplete character between two reads. */
  class Utf8Decoder {
    var pending: seq<Byte>

    constructor ()
      ensures pending == []
    {
      pending := [];
    }

    method Decode(bytes: seq<Byte>, eof: bool) returns (text: seq<Byte>)
      modifies this
      ensures !eof ==> text == Settled(old(pending) + bytes) && pending == Carry(old(pending) + bytes)
      ensures eof ==> text == Lossy(old(pending) + bytes) && pending == []
    {
      hide *;
      pending := pending + bytes;
      ghost var whole := pending;
      text := [];
      var consumed := 0;
      while consumed < |pending|
        invariant pending == whole && 0 <= consumed <= |whole|
        invariant Settled(whole) == text + Settled(whole[consumed..])
        invariant Carry(whole) == Carry(whole[consumed..])
        decreases |whole| - consumed
      {
        var rest := pending[consumed..];
        match FromUtf8(rest)
        case Ok =>
          assert rest[..|rest|] == rest;
          AfterString(text, whole, consumed, |rest|);
          text := text + rest;
          consumed := |pending|;
        case Err(validUpTo, errorLen) =>
          AfterString(text, whole, consumed, validUpTo);
          text := text + rest[..validUpTo];
          consumed := consumed + validUpTo;
          match errorLen
          case Some(length) =>
            AfterIllFormed(text, whole, consumed);
            text := text + REPLACEMENT;
            consumed := consumed + length;
          case None =>
            break;
      }
      NothingSettles(whole[consumed..]);
      LossyIsSettledAndCarry(whole);
      pending := pending[consumed..];
      if eof && pending != [] {
        text := text + REPLACEMENT;
        pending := [];
      }
    }
  }

  /** The text of a decoder that reads `chunks` one by one from an empty state. */
  function Stream(pending: seq<Byte>, chunks: seq<seq<Byte>>): (r: (seq<Byte>, seq<Byte>))
    decreases chunks
  {
    if chunks == [] then ([], pending)
    else
      var s := pending + chunks[0];
      var (text, left) := Stream(Carry(s), chunks[1..]);
      (Settled(s) + text, left)
  }

  function Concat(chunks: seq<seq<Byte>>): seq<Byte> {
    if chunks == [] then [] else chunks[0] + Concat(chunks[1..])
  }

  lemma CarryIsCarry(s: seq<Byte>)
    requires s == Carry(s)
    ensures Settled(s) == []
  {
  }

  lemma CarryOfCarry(s: seq<Byte>)
    ensures Carry(Carry(s)) == Carry(s)
  {
  }

  lemma StreamStep(pending: seq<Byte>, chunks: seq<seq<Byte>>)
    ensures chunks == [] ==> Stream(pending, chunks) == ([], pending) && Concat(chunks) == []
    ensures chunks != [] ==>
              && var s := pending + chunks[0];
                 var after := Stream(Carry(s), chunks[1..]);
                 && Stream(pending, chunks) == (Settled(s) + after.0, after.1)
                 && Concat(chunks) == chunks[0] + Concat(chunks[1..])
  {
  }

  lemma {:induction false} StreamIsOneRead(pending: seq<Byte>, chunks: seq<seq<Byte>>)
    requires pending == Carry(pending)
    ensures Stream(pending, chunks) == (Settled(pending + Concat(chunks)), Carry(pending + Concat(chunks)))
    decreases chunks
  {
    hide *;
    StreamStep(pending, chunks);
    if chunks == [] {
      assert pending + Concat(chunks) == pending;
      CarryIsCarry(pending);
    } else {
      var s := pending + chunks[0];
      CarryOfCarry(s);
      StreamIsOneRead(Carry(s), chunks[1..]);
      SettledSplits(s, Concat(chunks[1..]));
      assert pending + Concat(chunks) == s + Concat(chunks[1..]);
    }
  }

  /** However a byte sequence is cut into reads, the decoder's texts and its text at the
      end of the stream add up to the lossy decoding of the whole sequence; between two
      reads at most three bytes wait, and they begin a character. */
  lemma PartitionIndependence(chunks: seq<seq<Byte>>)
    ensures var (text, left) := Stream([], chunks);
            && text + Lossy(left) == Lossy(Concat(chunks))
            && |left| <= 3 && (left == [] || Incomplete(left))
            && Valid(text)
  {
    var s := Concat(chunks);
    StreamIsOneRead([], chunks);
    assert [] + s == s;
    LossyFinishes(s);
    SettledIsValid(s);
  }

  /** The end of the stream turns the carry into what the whole decoding makes of it. */
  lemma LossyFinishes(s: seq<Byte>)
    ensures Settled(s) + Lossy(Carry(s)) == Lossy(s)
  {
    LossyIsSettledAndCarry(s);
    var c := Carry(s);
    if c != [] {
      UnitOfIncomplete(c);
      assert Lossy(c) == REPLACEMENT + Lossy(c[|c|..]);
    }
  }

  lemma {:induction false} SettledIsValid(s: seq<Byte>)
    ensures Valid(Settled(s))
  {
    if s != [] && !Incomplete(s) {
      var n := Unit(s);
      SettledIsValid(s[n..]);
      assert WellFormed(Image(s[..n]));
      UnitOfValid(Image(s[..n]), Settled(s[n..]));
    }
  }
}
