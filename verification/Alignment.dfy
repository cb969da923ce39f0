/** The calls a conversation leaves unanswered and the calls a session still has pending. */
module Alignment {
  import opened Utf8
  import opened Conversations
  import opened Compactions

  predicate Aligned(history: seq<Message>, pending: seq<ToolCall>) {
    Open(history) == Some(Ids(pending))
  }

  /** A call that is not pending waits for a result it will never get. */
  predicate Forgotten(history: seq<Message>, pending: seq<ToolCall>) {
    CutsOf(history).None? || exists id :: id in CutsOf(history).value.waiting && id !in Ids(pending)
  }

  predicate Astray(history: seq<Message>, pending: seq<ToolCall>) {
    && (Open(history) == None || (pending == [] && Open(history) != Some([])))
    && Forgotten(history, pending)
  }

  /** While `sound`, the calls unanswered in the history are exactly those pending. Once it is
      not, they never are again, and compaction cannot help either. */
  predicate Standing(history: seq<Message>, pending: seq<ToolCall>, sound: bool) {
    if sound then Aligned(history, pending) else Astray(history, pending)
  }

  lemma StandingMeans(history: seq<Message>, pending: seq<ToolCall>, sound: bool)
    requires Standing(history, pending, sound)
    ensures sound <==> Aligned(history, pending)
    ensures pending == [] ==> (sound <==> Paired(history))
    ensures pending == [] && !sound ==> Tail(history) == None
  {
    ClosedIsPaired(history);
    assert pending == [] ==> Ids(pending) == [];
  }

  lemma SaidStands(history: seq<Message>, text: seq<char>, sound: bool)
    requires Standing(history, [], sound)
    ensures Standing(history + [Said(text)], [], sound)
  {
    OpenMore(history, Said(text));
    CutsMore(history, Said(text));
    assert Ids([]) == [];
    hide Open, CutsOf;
  }

  /** New calls that become pending at once; and new calls that do not. */
  lemma CallsStand(history: seq<Message>, calls: seq<ToolCall>, sound: bool)
    requires Standing(history, [], sound)
    ensures Standing(history + [Assistant(calls)], calls, sound)
    ensures Standing(history + [Assistant(calls)], [], sound && calls == [])
  {
    OpenMore(history, Assistant(calls));
    CutsMore(history, Assistant(calls));
    assert Ids([]) == [];
    hide Open, CutsOf;
    CallsForgotten(history, calls);
  }

  lemma CallsForgotten(history: seq<Message>, calls: seq<ToolCall>)
    ensures Forgotten(history, []) ==> Forgotten(history + [Assistant(calls)], calls) && Forgotten(history + [Assistant(calls)], [])
    ensures calls != [] ==> Forgotten(history + [Assistant(calls)], [])
  {
    CutsMore(history, Assistant(calls));
    hide CutsOf;
    var after := CutsOf(history + [Assistant(calls)]);
    if after.Some? {
      if calls != [] {
        assert calls[0].id in Ids(calls) && calls[0].id in after.value.waiting;
      }
      if Forgotten(history, []) {
        var id :| id in CutsOf(history).value.waiting && id !in Ids([]);
        assert id in after.value.waiting && id !in Ids(calls);
      }
    }
  }

  lemma AnswersStand(history: seq<Message>, pending: seq<ToolCall>, results: seq<ToolResult>, sound: bool)
    requires Standing(history, pending, sound)
    requires 0 < |results| <= |pending| && IdsOf(results) == Ids(pending[..|results|])
    ensures Standing(AddResults(history, results), pending[|results|..], sound)
  {
    var rest := pending[|results|..];
    assert Ids(rest) == Ids(pending)[|results|..];
    assert IdsOf(results) <= Ids(pending);
    AnswersForgotten(history, pending, results);
    hide Forgotten;
    if history != [] && history[|history| - 1].Results? {
      MergedResults(history, results);
    } else {
      OpenMore(history, Results(results));
      if sound {
        OpenLast(history);
      }
    }
  }

  lemma AnswersForgotten(history: seq<Message>, pending: seq<ToolCall>, results: seq<ToolResult>)
    requires 0 < |results| <= |pending| && IdsOf(results) == Ids(pending[..|results|])
    ensures Forgotten(history, pending) ==> Forgotten(AddResults(history, results), pending[|results|..])
  {
    WaitingAnswered(history, results);
    hide CutsOf, AddResults;
    var after := CutsOf(AddResults(history, results));
    if Forgotten(history, pending) && after.Some? {
      var id :| id in CutsOf(history).value.waiting && id !in Ids(pending);
      forall k | 0 <= k < |results| ensures IdsOf(results)[k] != id {
        assert Ids(pending[..|results|])[k] == Ids(pending)[k];
      }
      assert id in after.value.waiting;
      forall k | 0 <= k < |pending| - |results| ensures Ids(pending[|results|..])[k] != id {
        assert Ids(pending[|results|..])[k] == Ids(pending)[|results| + k];
      }
    }
  }

  lemma WaitingAnswered(history: seq<Message>, results: seq<ToolResult>)
    ensures CutsOf(AddResults(history, results)).Some? ==>
              CutsOf(history).Some? && CutsOf(AddResults(history, results)).value.waiting == CutsOf(history).value.waiting - SetOf(IdsOf(results))
  {
    if history != [] && history[|history| - 1].Results? {
      var before := history[..|history| - 1];
      var had := history[|history| - 1].results;
      assert history == before + [Results(had)];
      AddedToLast(before, had, results);
      CutsMore(before, Results(had));
      CutsMore(before, Results(had + results));
      IdsTogether(had, results);
      hide CutsOf, AddResults, IdsOf, SetOf, Distinct;
      DistinctParts(IdsOf(had), IdsOf(results));
    } else {
      CutsMore(history, Results(results));
      hide CutsOf, SetOf, Distinct;
    }
  }

  lemma DistinctParts(a: seq<nat>, b: seq<nat>)
    ensures SetOf(a + b) == SetOf(a) + SetOf(b)
    ensures Distinct(a + b) ==> Distinct(a)
    ensures forall id :: id in a ==> id in a + b
  {
    if Distinct(a + b) {
      forall i, j | 0 <= i < j < |a| ensures a[i] != a[j] {
        assert (a + b)[i] == a[i] && (a + b)[j] == a[j];
      }
    }
  }

  // ---- A response ----

  /** The conversation and the pending calls behind a response: the history has its message at
      once, but the calls become pending only if the admission is settled, the context that was
      delivered with it is completed, and tools are enabled. */
  function AfterResponse(history: seq<Message>, calls: seq<ToolCall>, settled: bool, completed: bool, enabled: bool): (seq<Message>, seq<ToolCall>) {
    (history + [Assistant(calls)], if settled && completed && (calls == [] || enabled) then calls else [])
  }

  /** The calls unanswered are those pending if and only if no call is refused after it has
      become part of the history. */
  lemma ResponseKeepsAlignment(history: seq<Message>, calls: seq<ToolCall>, settled: bool, completed: bool, enabled: bool)
    requires Aligned(history, [])
    ensures var (after, pending) := AfterResponse(history, calls, settled, completed, enabled);
            Aligned(after, pending) <==> calls == [] || (settled && completed && enabled)
  {
    CallsStand(history, calls, true);
    StandingMeans(history + [Assistant(calls)], [], calls == []);
    StandingMeans(history + [Assistant(calls)], calls, true);
  }

  /** A response with one call whose admission cannot be settled: the turn ends with nothing
      pending, so the call is saved without a result, and any later prompt makes the
      conversation ill formed. */
  lemma RefusedCallIsForgotten()
    ensures var (after, pending) := AfterResponse([Said("fix it")], [ToolCall(7, 1)], false, true, true);
            && pending == [] && Open(after) == Some([7]) && !Aligned(after, pending)
            && !Paired(after + [Said("go on")])
  {
    var first: seq<Message> := [Said("fix it")];
    var after := first + [Assistant([ToolCall(7, 1)])];
    OpenMore([], Said("fix it"));
    assert [] + [Said("fix it")] == first;
    OpenMore(first, Assistant([ToolCall(7, 1)]));
    assert Ids([ToolCall(7, 1)]) == [7];
    OpenMore(after, Said("go on"));
    ClosedIsPaired(after + [Said("go on")]);
  }

  // ---- Settling and restoring ----

  function StoppedResults(calls: seq<ToolCall>): (results: seq<ToolResult>)
    ensures |results| == |calls| && forall i :: 0 <= i < |calls| ==> results[i] == ToolResult(calls[i].id, calls[i].name, Stopped)
  {
    seq(|calls|, i requires 0 <= i < |calls| => ToolResult(calls[i].id, calls[i].name, Stopped))
  }

  /** The last result recorded for a call. */
  function Recorded(results: seq<ToolResult>, call: ToolCall): (r: ToolResult)
    ensures r.id == call.id && r.tool == call.name
    ensures r in results || r.origin == Unrecorded
    ensures (exists other <- results :: other.id == call.id && other.tool == call.name) ==> r in results
  {
    if results == [] then ToolResult(call.id, call.name, Unrecorded)
    else
      var last := results[|results| - 1];
      if last.id == call.id && last.tool == call.name then last else Recorded(results[..|results| - 1], call)
  }

  function Replayed(calls: seq<ToolCall>, results: seq<ToolResult>): (answers: seq<ToolResult>)
    ensures |answers| == |calls| && forall i :: 0 <= i < |calls| ==> answers[i] == Recorded(results, calls[i])
  {
    seq(|calls|, i requires 0 <= i < |calls| => Recorded(results, calls[i]))
  }
}
