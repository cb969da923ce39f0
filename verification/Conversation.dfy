/** The conversation a provider is sent, and what it takes to be well formed. */
module Conversations {
  import opened Utf8

  datatype ToolCall = ToolCall(id: nat, name: nat)

  /** How a result came about. */
  datatype Origin = Executed(success: bool) | Superseded | Stopped | Unrecorded

  datatype ToolResult = ToolResult(id: nat, tool: nat, origin: Origin)

  /** A user text, a model message with its tool calls, or a user message of nothing but results. */
  datatype Message = Said(text: seq<char>) | Assistant(calls: seq<ToolCall>) | Results(results: seq<ToolResult>)

  function Ids(calls: seq<ToolCall>): (ids: seq<nat>)
    ensures |ids| == |calls| && forall i :: 0 <= i < |calls| ==> ids[i] == calls[i].id
  {
    seq(|calls|, i requires 0 <= i < |calls| => calls[i].id)
  }

  function IdsOf(results: seq<ToolResult>): (ids: seq<nat>)
    ensures |ids| == |results| && forall i :: 0 <= i < |results| ==> ids[i] == results[i].id
  {
    seq(|results|, i requires 0 <= i < |results| => results[i].id)
  }

  /** Results of one batch stay in one message, also when they arrive one at a time. */
  function AddResults(history: seq<Message>, results: seq<ToolResult>): seq<Message> {
    if history != [] && history[|history| - 1].Results?
    then history[..|history| - 1] + [Results(history[|history| - 1].results + results)]
    else history + [Results(results)]
  }

  /** The calls a history leaves unanswered; `None` if it is beyond repair: something other than
      their results, in call order, followed a message with calls, or results followed nothing
      that asked for them. */
  function Open(history: seq<Message>): Option<seq<nat>> {
    if history == [] then Some([])
    else
      var before := history[..|history| - 1];
      match history[|history| - 1]
      case Said(_) => if Open(before) == Some([]) then Some([]) else None
      case Assistant(calls) => if Open(before) == Some([]) then Some(Ids(calls)) else None
      case Results(results) =>
        if before != [] && Asks(before[|before| - 1]) && Open(before).Some? && IdsOf(results) <= Ids(before[|before| - 1].calls)
        then Some(Ids(before[|before| - 1].calls)[|results|..])
        else None
  }

  /** What a provider accepts: every message with calls is followed at once by one message with
      their results in call order, and results stand nowhere else. */
  predicate Paired(history: seq<Message>) {
    forall i :: 0 <= i < |history| ==> PairedAt(history, i)
  }

  predicate Asks(message: Message) {
    message.Assistant? && message.calls != []
  }

  predicate PairedAt(history: seq<Message>, i: nat)
    requires i < |history|
  {
    && (Asks(history[i]) ==>
          i + 1 < |history| && history[i + 1].Results? && IdsOf(history[i + 1].results) == Ids(history[i].calls))
    && (history[i].Results? ==> i > 0 && Asks(history[i - 1]))
  }

  /** What results for these calls leave open behind this history. */
  function Answered(history: seq<Message>, ids: seq<nat>): Option<seq<nat>> {
    if history != [] && Asks(history[|history| - 1]) && Open(history).Some? && ids <= Ids(history[|history| - 1].calls)
    then Some(Ids(history[|history| - 1].calls)[|ids|..])
    else None
  }

  lemma OpenMore(history: seq<Message>, message: Message)
    ensures message.Said? ==> Open(history + [message]) == if Open(history) == Some([]) then Some([]) else None
    ensures message.Assistant? ==> Open(history + [message]) == if Open(history) == Some([]) then Some(Ids(message.calls)) else None
    ensures message.Results? ==> Open(history + [message]) == Answered(history, IdsOf(message.results))
  {
    assert (history + [message])[..|history + [message]| - 1] == history;
  }

  lemma OpenLast(history: seq<Message>)
    requires history != [] && Open(history).Some?
    ensures history[|history| - 1].Assistant? ==> Open(history) == Some(Ids(history[|history| - 1].calls))
    ensures history[|history| - 1].Said? ==> Open(history) == Some([])
    ensures Open(history[..|history| - 1]).Some?
    ensures !history[|history| - 1].Results? ==> Open(history[..|history| - 1]) == Some([])
  {
  }

  /** With nothing left open a history is well formed, and the other way round. */
  lemma {:induction false} ClosedIsPaired(history: seq<Message>)
    ensures Open(history) == Some([]) <==> Paired(history)
  {
    if history != [] {
      var n := |history| - 1;
      var before, last := history[..n], history[n];
      assert history == before + [last];
      OpenMore(before, last);
      if !last.Results? {
        ClosedIsPaired(before);
        PairedMore(before, last);
      } else if n > 0 && Asks(before[n - 1]) {
        var earlier, asking := before[..n - 1], before[n - 1];
        assert before == earlier + [asking];
        OpenMore(earlier, asking);
        ClosedIsPaired(earlier);
        PairAtEnd(earlier, asking, last);
        assert history == earlier + [asking, last];
        PrefixIsAll(IdsOf(last.results), Ids(asking.calls));
      } else {
        assert !PairedAt(history, n);
      }
    }
  }

  lemma PrefixIsAll(a: seq<nat>, b: seq<nat>)
    ensures a <= b && b[|a|..] == [] <==> a == b
  {
  }

  lemma PairedMore(history: seq<Message>, message: Message)
    requires !message.Results?
    ensures Paired(history + [message]) <==> Paired(history) && !Asks(message)
  {
    var longer := history + [message];
    var n := |history|;
    hide Asks;
    forall i | 0 <= i < n ensures PairedAt(longer, i) <==> PairedAt(history, i) {
      assert longer[i] == history[i] && (i > 0 ==> longer[i - 1] == history[i - 1]);
      assert longer[i + 1] == if i + 1 < n then history[i + 1] else message;
    }
    assert PairedAt(longer, n) <==> !Asks(message);
  }

  lemma PairAtEnd(history: seq<Message>, asking: Message, answer: Message)
    requires Asks(asking) && answer.Results?
    ensures Paired(history + [asking, answer]) <==> Paired(history) && IdsOf(answer.results) == Ids(asking.calls)
  {
    var longer := history + [asking, answer];
    var n := |history|;
    forall i | 0 <= i < n ensures PairedAt(longer, i) <==> PairedAt(history, i) {
      assert longer[i] == history[i] && (i > 0 ==> longer[i - 1] == history[i - 1]);
      assert longer[i + 1] == if i + 1 < n then history[i + 1] else asking;
    }
    assert PairedAt(longer, n) <==> IdsOf(answer.results) == Ids(asking.calls);
    assert PairedAt(longer, n + 1);
  }

  lemma MergedResults(history: seq<Message>, results: seq<ToolResult>)
    requires history != [] && history[|history| - 1].Results? && results != []
    ensures Open(history) == None ==> Open(AddResults(history, results)) == None
    ensures Open(history).Some? && IdsOf(results) <= Open(history).value ==>
              Open(AddResults(history, results)) == Some(Open(history).value[|results|..])
  {
    hide *;
    var before := history[..|history| - 1];
    var had := history[|history| - 1].results;
    assert history == before + [Results(had)];
    AddedToLast(before, had, results);
    OpenMore(before, Results(had));
    OpenMore(before, Results(had + results));
    IdsTogether(had, results);
    AnsweredMore(before, IdsOf(had), IdsOf(results));
  }

  lemma AddedToLast(before: seq<Message>, had: seq<ToolResult>, results: seq<ToolResult>)
    ensures AddResults(before + [Results(had)], results) == before + [Results(had + results)]
  {
    assert (before + [Results(had)])[..|before|] == before;
  }

  lemma IdsTogether(a: seq<ToolResult>, b: seq<ToolResult>)
    ensures IdsOf(a + b) == IdsOf(a) + IdsOf(b)
  {
  }

  lemma AnsweredMore(history: seq<Message>, a: seq<nat>, b: seq<nat>)
    ensures Answered(history, a) == None ==> Answered(history, a + b) == None
    ensures Answered(history, a).Some? && b <= Answered(history, a).value ==>
              Answered(history, a + b) == Some(Answered(history, a).value[|b|..])
  {
    hide Open, Ids;
    if history != [] && Asks(history[|history| - 1]) {
      PrefixOfSum(a, b, Ids(history[|history| - 1].calls));
    }
  }

  lemma PrefixOfSum(a: seq<nat>, b: seq<nat>, all: seq<nat>)
    ensures a + b <= all <==> a <= all && b <= all[|a|..]
    ensures a + b <= all ==> all[|a + b|..] == all[|a|..][|b|..]
  {
    if a <= all && b <= all[|a|..] {
      assert all == a + all[|a|..];
      assert all[|a|..] == b + all[|a|..][|b|..];
      assert all == (a + b) + all[|a|..][|b|..];
    }
    if a + b <= all {
      assert all == (a + b) + all[|a + b|..];
      assert all == a + (b + all[|a + b|..]);
    }
  }

  /** Answers that come one after another are as good as answers that come together. */
  lemma ResultsTogether(history: seq<Message>, a: seq<ToolResult>, b: seq<ToolResult>)
    ensures AddResults(AddResults(history, a), b) == AddResults(history, a + b)
  {
    if history != [] && history[|history| - 1].Results? {
      var had := history[|history| - 1].results;
      assert had + a + b == had + (a + b);
    }
  }
}
