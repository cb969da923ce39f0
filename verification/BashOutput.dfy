/** The loop that collects the two output pipes of one Bash command. */
module BashOutput {
  import opened Utf8

  const MAX_BYTES: nat := 1024 * 1024

  datatype Pipe = Stdout | Stderr

  /** One completed read; no bytes means the end of that pipe. */
  datatype Read = Read(pipe: Pipe, bytes: seq<Byte>)

  datatype ToolOutput = ToolOutput(pipe: Pipe, text: seq<Byte>)

  /** The bytes that arrived on one pipe. */
  function BytesOf(arrived: seq<Read>, pipe: Pipe): seq<Byte> {
    if arrived == [] then []
    else
      var last := arrived[|arrived| - 1];
      BytesOf(arrived[..|arrived| - 1], pipe) + if last.pipe == pipe then last.bytes else []
  }

  /** The text presented under the name of one pipe. */
  function TextOf(events: seq<ToolOutput>, pipe: Pipe): seq<Byte> {
    if events == [] then []
    else
      var last := events[|events| - 1];
      TextOf(events[..|events| - 1], pipe) + if last.pipe == pipe then last.text else []
  }

  function AllText(events: seq<ToolOutput>): seq<Byte> {
    if events == [] then [] else AllText(events[..|events| - 1]) + events[|events| - 1].text
  }

  function Total(arrived: seq<Read>): nat {
    if arrived == [] then 0 else Total(arrived[..|arrived| - 1]) + |arrived[|arrived| - 1].bytes|
  }

  predicate Closed(arrived: seq<Read>, pipe: Pipe) {
    Read(pipe, []) in arrived
  }

  /** A pipe is not read again after its end. */
  predicate Polled(arrived: seq<Read>) {
    forall i, j :: 0 <= i < j < |arrived| && arrived[i].bytes == [] ==> arrived[j].pipe != arrived[i].pipe
  }

  /** What one pipe has contributed after some reads: all it can decode so far, or the
      lossy decoding of its bytes once it has ended. */
  ghost function Decoded(arrived: seq<Read>, pipe: Pipe): seq<Byte> {
    if Closed(arrived, pipe) then Lossy(BytesOf(arrived, pipe)) else Settled(BytesOf(arrived, pipe))
  }

  ghost predicate DecoderFollows(pending: seq<Byte>, arrived: seq<Read>, pipe: Pipe) {
    pending == if Closed(arrived, pipe) then [] else Carry(BytesOf(arrived, pipe))
  }

  /** The texts presented so far are what the two pipes have contributed so far. */
  ghost predicate FollowsBoth(events: seq<ToolOutput>, arrived: seq<Read>) {
    TextOf(events, Stdout) == Decoded(arrived, Stdout) && TextOf(events, Stderr) == Decoded(arrived, Stderr)
  }

  lemma ReadOne(arrived: seq<Read>, k: nat, pipe: Pipe)
    requires k < |arrived|
    ensures BytesOf(arrived[..k + 1], pipe) == BytesOf(arrived[..k], pipe) + (if arrived[k].pipe == pipe then arrived[k].bytes else [])
    ensures Closed(arrived[..k + 1], pipe) <==> Closed(arrived[..k], pipe) || arrived[k] == Read(pipe, [])
    ensures Total(arrived[..k + 1]) == Total(arrived[..k]) + |arrived[k].bytes|
  {
    assert arrived[..k + 1][..k] == arrived[..k];
    assert arrived[..k + 1] == arrived[..k] + [arrived[k]];
  }

  lemma {:induction false} TotalGrows(arrived: seq<Read>, k: nat)
    requires k <= |arrived|
    ensures Total(arrived[..k]) <= Total(arrived)
    decreases |arrived| - k
  {
    if k < |arrived| {
      ReadOne(arrived, k, Stdout);
      TotalGrows(arrived, k + 1);
    } else {
      assert arrived[..k] == arrived;
    }
  }

  lemma EmitOne(events: seq<ToolOutput>, event: ToolOutput, pipe: Pipe)
    ensures TextOf(events + [event], pipe) == TextOf(events, pipe) + (if event.pipe == pipe then event.text else [])
    ensures AllText(events + [event]) == AllText(events) + event.text
  {
    assert (events + [event])[..|events|] == events;
  }

  /** One read moves both descriptions of its pipe together. */
  lemma DecodeOne(arrived: seq<Read>, k: nat, pending: seq<Byte>, after: seq<Byte>, text: seq<Byte>)
    requires k < |arrived| && !Closed(arrived[..k], arrived[k].pipe)
    requires DecoderFollows(pending, arrived[..k], arrived[k].pipe)
    requires arrived[k].bytes != [] ==> text == Settled(pending + arrived[k].bytes) && after == Carry(pending + arrived[k].bytes)
    requires arrived[k].bytes == [] ==> text == Lossy(pending + arrived[k].bytes) && after == []
    ensures Decoded(arrived[..k + 1], arrived[k].pipe) == Decoded(arrived[..k], arrived[k].pipe) + text
    ensures DecoderFollows(after, arrived[..k + 1], arrived[k].pipe)
  {
    hide Settled, Lossy, Carry, BytesOf;
    var bytes := arrived[k].bytes;
    ReadOne(arrived, k, arrived[k].pipe);
    var before := BytesOf(arrived[..k], arrived[k].pipe);
    if bytes == [] {
      LossyFinishes(before);
      assert pending + bytes == pending && before + bytes == before;
    } else {
      SettledSplits(before, bytes);
    }
  }

  lemma OtherPipe(arrived: seq<Read>, k: nat, pending: seq<Byte>, pipe: Pipe)
    requires k < |arrived| && arrived[k].pipe != pipe && DecoderFollows(pending, arrived[..k], pipe)
    ensures Decoded(arrived[..k + 1], pipe) == Decoded(arrived[..k], pipe)
    ensures DecoderFollows(pending, arrived[..k + 1], pipe)
  {
    hide Settled, Lossy, Carry, BytesOf;
    ReadOne(arrived, k, pipe);
    assert BytesOf(arrived[..k], pipe) + [] == BytesOf(arrived[..k], pipe);
  }

  /** Collects both pipes in the order in which the reads complete. It succeeds exactly when
      both pipes end within the size limit. Then the text tagged with a pipe is the decoding
      of that pipe's bytes alone, however the reads of the two pipes interleave, and the
      result is the tagged text in the order of its presentation. */
  method Collect(arrived: seq<Read>) returns (ok: bool, output: seq<Byte>, events: seq<ToolOutput>)
    requires Polled(arrived)
    ensures ok <==> Closed(arrived, Stdout) && Closed(arrived, Stderr) && Total(arrived) <= MAX_BYTES
    ensures ok ==> TextOf(events, Stdout) == Lossy(BytesOf(arrived, Stdout))
    ensures ok ==> TextOf(events, Stderr) == Lossy(BytesOf(arrived, Stderr))
    ensures output == AllText(events)
    ensures forall e :: e in events ==> e.text != []
    ensures exists k :: 0 <= k <= |arrived| && FollowsBoth(events, arrived[..k])
  {
    hide Settled, Lossy, Carry, BytesOf, Decoded, DecoderFollows, TextOf, AllText;
    var outOpen, errOpen := true, true;
    var receivedBytes := 0;
    var outDecoder := new Utf8Decoder();
    var errDecoder := new Utf8Decoder();
    output, events := [], [];
    Start();
    var k := 0;
    while outOpen || errOpen
      invariant k <= |arrived| && receivedBytes == Total(arrived[..k]) <= MAX_BYTES
      invariant outOpen <==> !Closed(arrived[..k], Stdout)
      invariant errOpen <==> !Closed(arrived[..k], Stderr)
      invariant outDecoder != errDecoder && fresh(outDecoder) && fresh(errDecoder)
      invariant DecoderFollows(outDecoder.pending, arrived[..k], Stdout)
      invariant DecoderFollows(errDecoder.pending, arrived[..k], Stderr)
      invariant FollowsBoth(events, arrived[..k])
      invariant output == AllText(events)
      invariant forall e :: e in events ==> e.text != []
      decreases |arrived| - k
    {
      ghost var prefix := arrived[..k];
      if k == |arrived| {
        assert prefix == arrived;
        ok := false;
        return;
      }
      var read := arrived[k];
      StillOpen(arrived, k);
      ReadOne(arrived, k, read.pipe);
      TotalGrows(arrived, k + 1);
      if |read.bytes| > MAX_BYTES - receivedBytes {
        ok := false;
        return;
      }
      receivedBytes := receivedBytes + |read.bytes|;
      var text;
      if read.pipe == Stdout {
        outOpen := read.bytes != [];
        ghost var pending := outDecoder.pending;
        text := outDecoder.Decode(read.bytes, read.bytes == []);
        DecodeOne(arrived, k, pending, outDecoder.pending, text);
        OtherPipe(arrived, k, errDecoder.pending, Stderr);
        ReadOne(arrived, k, Stderr);
      } else {
        errOpen := read.bytes != [];
        ghost var pending := errDecoder.pending;
        text := errDecoder.Decode(read.bytes, read.bytes == []);
        DecodeOne(arrived, k, pending, errDecoder.pending, text);
        OtherPipe(arrived, k, outDecoder.pending, Stdout);
        ReadOne(arrived, k, Stdout);
      }
      output := output + text;
      if text != [] {
        EmitOne(events, ToolOutput(read.pipe, text), Stdout);
        EmitOne(events, ToolOutput(read.pipe, text), Stderr);
        events := events + [ToolOutput(read.pipe, text)];
      }
      k := k + 1;
    }
    BothClosed(arrived, k);
    assert arrived[..k] == arrived;
    DecodedAtEnd(arrived, Stdout);
    DecodedAtEnd(arrived, Stderr);
    ok := true;
  }

  lemma Start()
    ensures forall pipe :: Decoded([], pipe) == [] == TextOf([], pipe) && DecoderFollows([], [], pipe)
    ensures AllText([]) == []
  {
  }

  lemma DecodedAtEnd(arrived: seq<Read>, pipe: Pipe)
    requires Closed(arrived, pipe)
    ensures Decoded(arrived, pipe) == Lossy(BytesOf(arrived, pipe))
  {
  }

  /** Nothing is read after both pipes have ended. */
  lemma BothClosed(arrived: seq<Read>, k: nat)
    requires Polled(arrived) && k <= |arrived| && Closed(arrived[..k], Stdout) && Closed(arrived[..k], Stderr)
    ensures k == |arrived|
  {
    if k < |arrived| {
      StillOpen(arrived, k);
    }
  }

  lemma StillOpen(arrived: seq<Read>, k: nat)
    requires Polled(arrived) && k < |arrived|
    ensures !Closed(arrived[..k], arrived[k].pipe)
  {
    var end := Read(arrived[k].pipe, []);
    forall i | 0 <= i < k ensures arrived[..k][i] != end {
      assert arrived[i].bytes == [] ==> arrived[k].pipe != arrived[i].pipe;
    }
  }
}
