/** How the message of a model is put together from its stream. */
module Assembly {
  import opened Utf8
  import opened Conversations

  const MAX_TOOL_INPUT_BYTES: nat := 1024 * 1024
  const MAX_BLOCK_BYTES: nat := 4 * 1024 * 1024

  /** The parts of a message: a text or a tool call, whose input may arrive in fragments. */
  datatype Kind = Text | Tool(call: ToolCall)

  datatype Block = Block(kind: Kind, text: seq<Byte>, input: seq<Byte>, partial: seq<Byte>)

  datatype Stop = Natural | MaxTokens | WindowExceeded

  /** Events of the stream; `Start` may carry a beginning of the text or a whole input. */
  datatype Event =
    | Start(at: Option<nat>, kind: Kind, begun: seq<Byte>, input: seq<Byte>)
    | TextDelta(index: nat, delta: seq<Byte>)
    | InputDelta(index: nat, delta: seq<Byte>)
    | Reason(stop: Stop)
    | MessageStop
    | Failure
    | Other

  predicate EndsBlocks(event: Event) {
    event.MessageStop? || event.Failure?
  }

  /** The blocks behind one more event, unless it breaks the rules of the stream. */
  function Step(blocks: seq<Block>, event: Event): Option<seq<Block>> {
    match event
    case Start(index, kind, begun, input) =>
      if index != Some(|blocks|) || (kind.Tool? && |input| > MAX_TOOL_INPUT_BYTES) then None
      else Some(blocks + [Block(kind, begun, input, [])])
    case TextDelta(index, delta) =>
      // Some compatible text streams omit the empty start of their first block.
      var blocks := if blocks == [] && index == 0 then [Block(Text, [], [], [])] else blocks;
      if index >= |blocks| || |blocks[index].text| + |delta| > MAX_BLOCK_BYTES then None
      else Some(blocks[index := blocks[index].(text := blocks[index].text + delta)])
    case InputDelta(index, delta) =>
      if index >= |blocks| || |blocks[index].partial| + |delta| > MAX_TOOL_INPUT_BYTES then None
      else Some(blocks[index := blocks[index].(partial := blocks[index].partial + delta)])
    case _ => Some(blocks)
  }

  function Assembled(events: seq<Event>): Option<seq<Block>> {
    if events == [] then Some([])
    else
      var before := Assembled(events[..|events| - 1]);
      if before.None? || EndsBlocks(events[|events| - 1]) then None else Step(before.value, events[|events| - 1])
  }

  /** What one event sends for a block. */
  function TextPart(event: Event, i: nat): seq<Byte> {
    if event.Start? && event.at == Some(i) then event.begun else if event.TextDelta? && event.index == i then event.delta else []
  }

  function InputPart(event: Event, i: nat): seq<Byte> {
    if event.InputDelta? && event.index == i then event.delta else []
  }

  /** All text, and all input, that a stream has sent for one block. */
  function TextFor(events: seq<Event>, i: nat): seq<Byte> {
    if events == [] then [] else TextFor(events[..|events| - 1], i) + TextPart(events[|events| - 1], i)
  }

  function InputFor(events: seq<Event>, i: nat): seq<Byte> {
    if events == [] then [] else InputFor(events[..|events| - 1], i) + InputPart(events[|events| - 1], i)
  }

  /** One event adds what it sends for a block to that block and to no other. */
  lemma StepHolds(blocks: seq<Block>, event: Event, i: nat)
    requires Step(blocks, event).Some?
    ensures var after := Step(blocks, event).value;
            && |blocks| <= |after|
            && (i < |after| ==>
                  && after[i].text == (if i < |blocks| then blocks[i].text else []) + TextPart(event, i)
                  && after[i].partial == (if i < |blocks| then blocks[i].partial else []) + InputPart(event, i))
            && (i >= |after| ==> TextPart(event, i) == [] && InputPart(event, i) == [])
  {
  }

  lemma {:induction false} NothingForLater(events: seq<Event>, i: nat)
    requires Assembled(events).Some? && i >= |Assembled(events).value|
    ensures TextFor(events, i) == [] && InputFor(events, i) == []
  {
    if events != [] {
      var before, last := events[..|events| - 1], events[|events| - 1];
      StepHolds(Assembled(before).value, last, i);
      hide Step, TextPart, InputPart;
      NothingForLater(before, i);
    }
  }

  /** However the fragments of several blocks are interleaved, each block holds just its own,
      in the order they came. */
  lemma {:induction false} BlocksHoldTheirFragments(events: seq<Event>, i: nat)
    requires Assembled(events).Some? && i < |Assembled(events).value|
    ensures Assembled(events).value[i].text == TextFor(events, i)
    ensures Assembled(events).value[i].partial == InputFor(events, i)
  {
    hide Step, TextPart, InputPart;
    var before, last := events[..|events| - 1], events[|events| - 1];
    StepHolds(Assembled(before).value, last, i);
    if i < |Assembled(before).value| {
      BlocksHoldTheirFragments(before, i);
    } else {
      NothingForLater(before, i);
    }
  }

  /** The calls of a message, in the order of its blocks. */
  function CallsOf(blocks: seq<Block>): seq<ToolCall> {
    if blocks == [] then []
    else
      var last := blocks[|blocks| - 1];
      CallsOf(blocks[..|blocks| - 1]) + if last.kind.Tool? then [last.kind.call] else []
  }

  function ToolsIn(blocks: seq<Block>): nat {
    if blocks == [] then 0 else ToolsIn(blocks[1..]) + if blocks[0].kind.Tool? then 1 else 0
  }

  lemma {:induction false} ToolsMore(blocks: seq<Block>, b: Block)
    ensures ToolsIn(blocks + [b]) == ToolsIn(blocks) + if b.kind.Tool? then 1 else 0
  {
    if blocks != [] {
      assert (blocks + [b])[1..] == blocks[1..] + [b];
      ToolsMore(blocks[1..], b);
    } else {
      assert ([] + [b])[1..] == [];
    }
  }

  /** Each tool block gives the call at its place among them, and nothing else gives one. */
  lemma {:induction false} CallsAreTools(blocks: seq<Block>, i: nat)
    requires i < |blocks|
    ensures |CallsOf(blocks)| == ToolsIn(blocks)
    ensures blocks[i].kind.Tool? ==> ToolsIn(blocks[..i]) < |CallsOf(blocks)| && CallsOf(blocks)[ToolsIn(blocks[..i])] == blocks[i].kind.call
  {
    var n := |blocks| - 1;
    var before := blocks[..n];
    assert blocks == before + [blocks[n]];
    ToolsMore(before, blocks[n]);
    if n > 0 {
      CallsAreTools(before, if i < n then i else 0);
      assert i < n ==> before[..i] == blocks[..i];
    } else {
      assert before == [] && blocks[..0] == [];
    }
    hide ToolsIn;
  }

  /** Fragments take the place of an input that came with the start, if they can be read. */
  predicate InputsRead(blocks: seq<Block>, readable: seq<Byte> -> bool) {
    forall i :: 0 <= i < |blocks| && blocks[i].kind.Tool? && blocks[i].partial != [] ==> readable(blocks[i].partial)
  }

  /** The last reason to stop that a stream has given. */
  function ReasonOf(events: seq<Event>): Stop {
    if events == [] then Natural
    else if events[|events| - 1].Reason? then events[|events| - 1].stop
    else ReasonOf(events[..|events| - 1])
  }

  /** At `n` the message is complete: it has been assembled, is not cut short at a limit, and its
      inputs can be read. */
  predicate CompleteAt(stream: seq<Event>, n: nat, readable: seq<Byte> -> bool)
    requires n < |stream|
  {
    && stream[n].MessageStop? && Assembled(stream[..n]).Some?
    && InputsRead(Assembled(stream[..n]).value, readable) && ReasonOf(stream[..n]).Natural?
  }

  lemma {:induction false} AssembledPrefix(events: seq<Event>, n: nat)
    requires n <= |events| && Assembled(events).Some?
    ensures Assembled(events[..n]).Some?
    ensures n < |events| ==> !EndsBlocks(events[n]) && Assembled(events[..n + 1]).Some?
  {
    if n < |events| {
      var before := events[..|events| - 1];
      if n < |before| {
        AssembledPrefix(before, n);
        assert before[..n] == events[..n] && before[..n + 1] == events[..n + 1];
      } else {
        assert events[..n] == before && events[..n + 1] == events;
      }
    } else {
      assert events[..n] == events;
    }
  }

  lemma {:induction false} BrokenStays(stream: seq<Event>, n: nat, m: nat)
    requires n <= m <= |stream| && Assembled(stream[..n]).None?
    ensures Assembled(stream[..m]).None?
    decreases m
  {
    if n < m {
      BrokenStays(stream, n, m - 1);
      assert stream[..m][..m - 1] == stream[..m - 1];
    }
  }

  /** A stream that is broken or over at `n` completes no message elsewhere. */
  lemma CompleteNowhereElse(stream: seq<Event>, n: nat, m: nat, readable: seq<Byte> -> bool)
    requires n < |stream| && m < |stream| && m != n && Assembled(stream[..n]).Some? && Assembled(stream[..n + 1]).None?
    ensures !CompleteAt(stream, m, readable)
  {
    if m < n {
      AssembledPrefix(stream[..n], m);
    } else {
      BrokenStays(stream, n + 1, m);
    }
  }

  class Anthropic {
    var history: seq<Message>

    constructor ()
      ensures history == []
    {
      history := [];
    }

    method Prompt(text: seq<char>)
      modifies this
      ensures history == old(history) + [Said(text)]
    {
      history := history + [Said(text)];
    }

    /** Results of one batch belong into one message. */
    method AddToolResults(results: seq<ToolResult>)
      modifies this
      ensures history == AddResults(old(history), results)
    {
      if history != [] && history[|history| - 1].Results? {
        var last := |history| - 1;
        history := history[last := Results(history[last].results + results)];
      } else {
        history := history + [Results(results)];
      }
    }

    method Restore(saved: seq<Message>)
      modifies this
      ensures history == saved
    {
      history := saved;
    }

    /** The conversation gets the calls of the message, exactly those that are returned, if and
        only if the message is complete; otherwise it is left as it was: a stream that breaks off,
        fails, is cut short at a limit or holds an input that cannot be read adds nothing, and
        none of its calls is returned. */
    method Response(stream: seq<Event>, readable: seq<Byte> -> bool) returns (calls: Option<seq<ToolCall>>)
      modifies this
      ensures calls.Some? <==> exists n :: 0 <= n < |stream| && CompleteAt(stream, n, readable)
      ensures calls.None? ==> history == old(history)
      ensures calls.Some? ==> history == old(history) + [Assistant(calls.value)]
      ensures forall n :: 0 <= n < |stream| && CompleteAt(stream, n, readable) ==> calls == Some(CallsOf(Assembled(stream[..n]).value))
    {
      hide Step, CallsOf, InputsRead, ReasonOf;
      var blocks: seq<Block> := [];
      var stop := Natural;
      NothingAssembled();
      assert stream[..0] == [];
      for n := 0 to |stream|
        invariant history == old(history)
        invariant Assembled(stream[..n]) == Some(blocks)
        invariant ReasonOf(stream[..n]) == stop
      {
        var event := stream[n];
        OneMoreEvent(stream, n);
        if event.MessageStop? {
          forall m | 0 <= m < |stream| && m != n ensures !CompleteAt(stream, m, readable) {
            CompleteNowhereElse(stream, n, m, readable);
          }
          if !stop.Natural? {
            return None;
          }
          var found := Finish(blocks, readable);
          if found.Some? {
            history := history + [Assistant(found.value)];
            assert CompleteAt(stream, n, readable);
          }
          return found;
        }
        var next := None;
        if !event.Failure? {
          next := Accept(blocks, event);
        }
        if next.None? {
          forall m | 0 <= m < |stream| ensures !CompleteAt(stream, m, readable) {
            if m != n {
              CompleteNowhereElse(stream, n, m, readable);
            }
          }
          return None;
        }
        if event.Reason? {
          stop := event.stop;
        }
        blocks := next.value;
      }
      assert stream[..|stream|] == stream;
      forall m | 0 <= m < |stream| ensures !CompleteAt(stream, m, readable) {
        AssembledPrefix(stream, m);
      }
      return None;
    }

    lemma NothingAssembled()
      ensures Assembled([]) == Some([]) && ReasonOf([]) == Natural
    {
    }

    lemma OneMoreEvent(stream: seq<Event>, n: nat)
      requires n < |stream|
      ensures Assembled(stream[..n + 1]) ==
              if Assembled(stream[..n]).None? || EndsBlocks(stream[n]) then None else Step(Assembled(stream[..n]).value, stream[n])
      ensures ReasonOf(stream[..n + 1]) == if stream[n].Reason? then stream[n].stop else ReasonOf(stream[..n])
    {
      assert stream[..n + 1][..n] == stream[..n];
    }

    method Accept(blocks: seq<Block>, event: Event) returns (next: Option<seq<Block>>)
      ensures next == Step(blocks, event)
    {
      match event {
        case Start(index, kind, begun, input) =>
          if index != Some(|blocks|) || (kind.Tool? && |input| > MAX_TOOL_INPUT_BYTES) {
            return None;
          }
          return Some(blocks + [Block(kind, begun, input, [])]);
        case TextDelta(index, delta) =>
          var all := blocks;
          if all == [] && index == 0 {
            all := [Block(Text, [], [], [])];
          }
          if index >= |all| || |all[index].text| + |delta| > MAX_BLOCK_BYTES {
            return None;
          }
          return Some(all[index := all[index].(text := all[index].text + delta)]);
        case InputDelta(index, delta) =>
          if index >= |blocks| || |blocks[index].partial| + |delta| > MAX_TOOL_INPUT_BYTES {
            return None;
          }
          return Some(blocks[index := blocks[index].(partial := blocks[index].partial + delta)]);
        case _ => return Some(blocks);
      }
    }

    method Finish(blocks: seq<Block>, readable: seq<Byte> -> bool) returns (calls: Option<seq<ToolCall>>)
      ensures calls == if InputsRead(blocks, readable) then Some(CallsOf(blocks)) else None
    {
      var found: seq<ToolCall> := [];
      for k := 0 to |blocks|
        invariant found == CallsOf(blocks[..k]) && InputsRead(blocks[..k], readable)
      {
        assert blocks[..k + 1][..k] == blocks[..k];
        if blocks[k].kind.Tool? {
          if blocks[k].partial != [] && !readable(blocks[k].partial) {
            return None;
          }
          found := found + [blocks[k].kind.call];
        }
      }
      assert blocks[..|blocks|] == blocks;
      return Some(found);
    }
  }
}
