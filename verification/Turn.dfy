/** A turn as a function of the schedule: what becomes of the conversation, of the pending calls
    and of the waiting corrections, and how the turn ends. */
module Turns {
  import opened Utf8
  import opened Conversations
  import opened Compactions
  import opened Alignment
  import opened Commands
  import opened Deliveries

  const HELD: nat := 1
  const CORRECTED: nat := 2

  /** What a session holds, what happens next, and whether the turn has ended. */
  datatype Talk = Talk(history: seq<Message>, pending: seq<ToolCall>, completed: Option<ToolResult>, corrections: seq<seq<char>>,
                       batch: seq<seq<char>>, prompt: Option<seq<char>>, rest: seq<Moment>, end: Option<End>)

  // ---- Steps ----

  /** Commands that are already there are taken. */
  function Draining(t: Talk): (r: Talk)
    ensures |r.rest| <= |t.rest|
  {
    DrainShrinks(t.rest, t.corrections);
    var (drained, rest) := DrainOf(t.rest, t.corrections);
    t.(corrections := drained.corrections, rest := rest, end := drained.end)
  }

  lemma DrainingIs(t: Talk)
    ensures var (drained, rest) := DrainOf(t.rest, t.corrections);
            Draining(t) == t.(corrections := drained.corrections, rest := rest, end := drained.end)
  {
    hide DrainOf;
  }

  /** Something is tried that may fail. */
  function Trying(t: Talk): (r: Talk)
    ensures |r.rest| <= |t.rest|
  {
    var (ok, rest) := TryOf(t.rest);
    t.(rest := rest, end := if ok then None else Some(Failed))
  }

  /** A future that is no tool is awaited. */
  function Awaiting(t: Talk): (r: Talk)
    ensures |r.rest| <= |t.rest| && (r.end.None? ==> |r.rest| < |t.rest|)
  {
    SelectShrinks(t.rest, t.corrections, None, false);
    var w := Select(t.rest, t.corrections, None, false);
    t.(corrections := w.corrections, rest := w.rest, end := EndOf(w.got))
  }

  /** The hooks of a plugin are awaited. */
  function Pausing(t: Talk): (r: Talk)
    ensures |r.rest| <= |t.rest|
  {
    PauseShrinks(t.rest, t.corrections);
    var w := Pause(t.rest, t.corrections);
    t.(corrections := w.corrections, rest := w.rest, end := EndOf(w.got))
  }

  /** What the runtime has to say is put behind the conversation, which is saved. */
  function Informing(t: Talk): (r: Talk)
    ensures |r.rest| <= |t.rest|
  {
    var saved := Trying(t.(history := t.history + [Said(PLUGIN_CONTEXT)]));
    if saved.end.Some? then saved else Trying(saved)
  }

  /** The runtime is asked for something to say. */
  function Offering(t: Talk): (r: (Talk, nat))
    ensures |r.0.rest| <= |t.rest|
  {
    var tried := Trying(t);
    if tried.end.Some? then (tried, 0)
    else
      var (context, rest) := AskOf(tried.rest);
      (if context == 0 then tried.(rest := rest) else Informing(tried.(rest := rest)), context)
  }

  /** Waiting corrections are delivered. */
  function Delivering(t: Talk): (r: Talk)
    ensures |r.rest| <= |t.rest|
  {
    AllDeliveredShrinks(t.rest, t.corrections, t.history, t.prompt);
    var d := AllDelivered(t.rest, t.corrections, t.history, t.prompt);
    t.(history := d.history, prompt := d.prompt, batch := d.batch, corrections := d.corrections, rest := d.rest, end := d.end)
  }

  lemma {:induction false} AllDeliveredShrinks(q: seq<Moment>, corrections: seq<seq<char>>, history: seq<Message>, prompt: Option<seq<char>>)
    ensures |AllDelivered(q, corrections, history, prompt).rest| <= |q|
    decreases |q|
  {
    hide DeliveryOf;
    if corrections != [] {
      DeliveryShrinks(corrections, q, [], history, prompt);
      var d := DeliveryOf(corrections, q, [], history, prompt);
      if d.end.None? {
        AllDeliveredShrinks(d.rest, d.corrections, d.history, d.prompt);
      }
    }
  }

  // ---- Tools ----

  /** The call in front gets its result. */
  function Answering(t: Talk, origin: Origin): Talk
    requires t.pending != []
  {
    t.(history := AddResults(t.history, [ToolResult(t.pending[0].id, t.pending[0].name, origin)]), pending := t.pending[1..])
  }

  /** The tool of the call in front is awaited. */
  function Calling(t: Talk): (r: Talk)
    requires t.pending != []
    ensures |r.rest| <= |t.rest|
  {
    SelectShrinks(t.rest, t.corrections, Some(t.pending[0].id), false);
    var w := Select(t.rest, t.corrections, Some(t.pending[0].id), false);
    t.(corrections := w.corrections, rest := w.rest, end := EndOf(w.got), completed := ReceiptOf(t.rest, t.corrections, t.completed))
  }

  /** Whether the tool of the call in front succeeds. */
  predicate Success(t: Talk)
    requires t.pending != [] && Calling(t).end.None?
  {
    Select(t.rest, t.corrections, Some(t.pending[0].id), false).got.outcome.success
  }

  /** The call in front is executed; and what a plugin makes of its result. */
  function Executing(t: Talk): (r: (Talk, nat))
    requires t.pending != []
    ensures |r.0.rest| <= |t.rest| && (r.0.end.None? ==> |r.0.pending| < |t.pending|)
  {
    var called := Calling(t);
    if called.end.Some? then (called, 0) else Receiving(called, Success(t))
  }

  /** The tool of the call in front has come back. */
  function Receiving(t: Talk, success: bool): (r: (Talk, nat))
    requires t.pending != []
    ensures |r.0.rest| <= |t.rest| && (r.0.end.None? ==> |r.0.pending| < |t.pending|)
  {
    var tried := Trying(t);
    if tried.end.Some? then (tried, 0)
    else
      var (post, rest) := AskOf(tried.rest);
      (Releasing(Answering(tried.(rest := rest), Executed(success)).(completed := None), post), post)
  }

  lemma ReceivingStep(t: Talk, success: bool)
    requires t.pending != []
    ensures var tried := Trying(t);
            var (post, rest) := AskOf(tried.rest);
            && tried.pending == t.pending && tried.end != Some(Complete)
            && Receiving(t, success) == if tried.end.Some? then (tried, 0)
                                        else (Releasing(Answering(tried.(rest := rest), Executed(success)).(completed := None), post), post)
  {
    hide TryOf;
  }

  lemma AnsweringIs(t: Talk, origin: Origin)
    requires t.pending != []
    ensures var r := Answering(t, origin); r.rest == t.rest && r.end == t.end && r.pending == t.pending[1..]
  {
    hide AddResults;
  }

  /** The result is saved. If it is not held it is released, and commands are taken once more. */
  function Releasing(t: Talk, post: nat): (r: Talk)
    ensures |r.rest| <= |t.rest| && r.pending == t.pending
  {
    var saved := Trying(t);
    if saved.end.Some? then saved
    else if post == HELD then saved.(end := Some(Failed))
    else
      var released := Awaiting(saved);
      if released.end.Some? then released
      else
        var drained := Draining(released);
        if drained.end.Some? then drained else Trying(drained)
  }

  function Overruling(t: Talk): (r: Talk)
    ensures r.rest == t.rest
    decreases |t.pending|
  {
    if t.pending == [] then t else Overruling(Answering(t, Superseded))
  }

  /** The calls of a response, one after the other. */
  function RunningTools(t: Talk): (r: Talk)
    ensures |r.rest| <= |t.rest|
    decreases |t.pending|
  {
    if t.pending == [] then t
    else
      var drained := Draining(t);
      if drained.end.Some? then drained
      else if drained.corrections != [] then RunningTools(Answering(drained, Superseded))
      else
        var (after, post) := Executing(drained);
        if after.end.Some? then after
        else if post == CORRECTED then Overruling(after)
        else RunningTools(after)
  }

  function SupersededResults(calls: seq<ToolCall>): (results: seq<ToolResult>)
    ensures |results| == |calls| && forall i :: 0 <= i < |calls| ==> results[i] == ToolResult(calls[i].id, calls[i].name, Superseded)
  {
    seq(|calls|, i requires 0 <= i < |calls| => ToolResult(calls[i].id, calls[i].name, Superseded))
  }

  /** The first calls pending have been superseded; if the turn goes on, all of them. */
  predicate SupersedesOnly(t: Talk, r: Talk) {
    && |r.pending| <= |t.pending|
    && var k := |t.pending| - |r.pending|;
    && r.pending == t.pending[k..] && (r.end.None? ==> k == |t.pending|)
    && r.history == if k == 0 then t.history else AddResults(t.history, SupersededResults(t.pending[..k]))
  }

  lemma ControlKeepsWaiting(c: Command, corrections: seq<seq<char>>, q: seq<Moment>)
    requires corrections != []
    ensures ControlStep(c, corrections, q).0.corrections != []
  {
  }

  lemma {:induction false} DrainKeepsWaiting(q: seq<Moment>, corrections: seq<seq<char>>)
    requires corrections != []
    ensures DrainOf(q, corrections).0.corrections != []
    decreases |q|
  {
    hide ControlStep;
    if q != [] && q[0].Arrives? {
      var (after, rest) := ControlStep(q[0].command, corrections, q[1..]);
      ControlShrinks(q[0].command, corrections, q[1..]);
      ControlKeepsWaiting(q[0].command, corrections, q[1..]);
      DrainKeepsWaiting(rest, after.corrections);
    }
  }

  /** Commands that are there when the turn of a call comes are taken first. If a correction waits
      then, no tool of the response runs any more: every call that gets a result is superseded,
      and all are if the turn goes on. */
  lemma {:induction false} CorrectionComesFirst(t: Talk)
    requires t.end.None? && t.pending != [] && Draining(t).corrections != []
    ensures SupersedesOnly(t, RunningTools(t)) && (Draining(t).end.None? ==> |RunningTools(t).pending| < |t.pending|)
    decreases |t.pending|
  {
    hide *;
    var drained := Draining(t);
    SupersededStep(t);
    if drained.end.None? {
      var next := Answering(drained, Superseded);
      if next.pending != [] {
        DrainKeepsWaiting(next.rest, next.corrections);
        DrainingIs(next);
        CorrectionComesFirst(next);
      } else {
        NothingLeft(next);
      }
      SupersedesMore(t, next, RunningTools(next));
    }
  }

  lemma {:induction false} OverrulingSupersedes(t: Talk)
    requires t.end.None?
    ensures SupersedesOnly(t, Overruling(t)) && Overruling(t).end.None?
    decreases |t.pending|
  {
    hide AddResults;
    if t.pending != [] {
      var next := Answering(t, Superseded);
      OverrulingSupersedes(next);
      SupersedesMore(t, next, Overruling(next));
    }
  }

  /** Nor does any run behind a call for which a plugin has asked for a correction: whatever else
      is pending then is superseded. */
  lemma PluginComesFirst(t: Talk)
    requires t.end.None? && t.pending != []
    ensures var drained := Draining(t);
            drained.end.None? && drained.corrections == [] ==>
              var (after, post) := Executing(drained);
              after.end.None? && post == CORRECTED ==> RunningTools(t).pending == [] && SupersedesOnly(after, RunningTools(t))
  {
    hide Draining, Executing, Overruling;
    DrainingIs(t);
    var drained := Draining(t);
    if drained.end.None? && drained.corrections == [] {
      var (after, post) := Executing(drained);
      if after.end.None? {
        OverrulingSupersedes(after);
      }
    }
  }

  lemma SupersededStep(t: Talk)
    requires t.end.None? && t.pending != [] && Draining(t).corrections != []
    ensures var drained := Draining(t);
            && drained.pending == t.pending
            && if drained.end.Some? then RunningTools(t) == drained && SupersedesOnly(t, drained)
               else
                 var next := Answering(drained, Superseded);
                 && RunningTools(t) == RunningTools(next) && next.end.None? && next.corrections != [] && next.pending == t.pending[1..]
                 && next.history == AddResults(t.history, [ToolResult(t.pending[0].id, t.pending[0].name, Superseded)])
  {
    hide DrainOf, AddResults, Executing, Overruling;
    assert t.pending[0..] == t.pending;
  }

  lemma NothingLeft(t: Talk)
    requires t.pending == [] && t.end.None?
    ensures SupersedesOnly(t, RunningTools(t))
  {
  }

  lemma SupersedesMore(t: Talk, next: Talk, r: Talk)
    requires t.pending != [] && next.pending == t.pending[1..]
    requires next.history == AddResults(t.history, [ToolResult(t.pending[0].id, t.pending[0].name, Superseded)])
    requires SupersedesOnly(next, r)
    ensures SupersedesOnly(t, r) && |r.pending| < |t.pending|
  {
    hide AddResults;
    OneSuperseded(t.pending);
    SupersededTogether(t.history, t.pending, |next.pending| - |r.pending|);
  }

  lemma OneSuperseded(calls: seq<ToolCall>)
    requires calls != []
    ensures SupersededResults(calls[..1]) == [ToolResult(calls[0].id, calls[0].name, Superseded)]
  {
  }

  lemma SupersededTogether(history: seq<Message>, calls: seq<ToolCall>, more: nat)
    requires 1 + more <= |calls|
    ensures more > 0 ==>
              AddResults(AddResults(history, [ToolResult(calls[0].id, calls[0].name, Superseded)]), SupersededResults(calls[1..][..more])) ==
              AddResults(history, SupersededResults(calls[..1 + more]))
    ensures calls[1..][more..] == calls[1 + more..]
  {
    ResultsTogether(history, [ToolResult(calls[0].id, calls[0].name, Superseded)], SupersededResults(calls[1..][..more]));
    assert SupersededResults(calls[..1 + more]) == [ToolResult(calls[0].id, calls[0].name, Superseded)] + SupersededResults(calls[1..][..more]);
  }

  // ---- A request ----

  /** What a shutdown leaves of the schedule. */
  function Refusing(q: seq<Moment>): (rest: seq<Moment>)
    ensures |rest| <= |q|
  {
    if q == [] || !q[0].Arrives? then q else Refusing(q[1..])
  }

  /** What is left of the schedule when a failure of the provider has been observed. */
  function Observing(q: seq<Moment>): (rest: seq<Moment>)
    ensures |rest| <= |q|
  {
    if q == [] then []
    else if q[0].Done? || q[0].Fails? then q[1..]
    else if !q[0].Arrives? || q[0].command.Submit? then Observing(q[1..])
    else if q[0].command.Shutdown? then Refusing(q[1..])
    else q[1..]
  }

  /** The provider has failed, or something else has. A failure is observed if its admission
      could be settled and somebody wants to know. */
  function Failing(t: Talk): (r: (Talk, bool))
    ensures |r.0.rest| <= |t.rest|
  {
    var (settled, rest) := TryOf(t.rest);
    var (other, rest) := AskOf(rest);
    if other != 0 then (t.(rest := rest), false)
    else if !settled then (t.(rest := rest), true)
    else
      var (planned, rest) := AskOf(rest);
      (t.(rest := if planned == 0 then rest else Observing(rest)), true)
  }

  /** The response has come. */
  function Responding(t: Talk, calls: seq<ToolCall>, context: nat, enabled: bool): (r: Talk)
    ensures |r.rest| <= |t.rest|
  {
    var (settled, rest) := TryOf(t.rest);
    var (completed, rest) := if settled && context != 0 then TryOf(rest) else (true, rest);
    var (history, pending) := AfterResponse(t.history, calls, settled, completed, enabled);
    t.(history := history, pending := pending, rest := rest,
       end := if settled && completed && (calls == [] || enabled) then None else Some(Failed))
  }

  datatype Request = Request(talk: Talk, finished: bool, providerFailed: bool)

  function Requesting(t: Talk, enabled: bool): (r: Request)
    ensures |r.talk.rest| <= |t.rest| && (r.talk.end.None? ==> |r.talk.rest| < |t.rest| && !r.providerFailed)
  {
    var (offered, context) := Offering(t);
    if offered.end.Some? then Request(offered, false, false)
    else
      var got := Select(offered.rest, offered.corrections, None, false).got;
      var asked := Awaiting(offered);
      if got.Errored? then
        var (failed, provider) := Failing(asked);
        Request(failed, false, provider)
      else if asked.end.Some? then Request(asked, false, false)
      else Request(Responding(asked, got.outcome.calls, context, enabled), got.outcome.calls == [], false)
  }

  // ---- A round ----

  /** The conversation is compacted. */
  function Compacting(t: Talk): (r: Talk)
    ensures |r.rest| <= |t.rest|
  {
    if Tail(t.history).None? || t.prompt.None? then t.(end := Some(Failed))
    else
      QuietShrinks(t.rest);
      var (got, rest) := QuietOf(t.rest);
      if !got.Returned? then t.(rest := rest, end := EndOf(got))
      else
        var (objective, rest) := AskOf(rest);
        var (ok, rest) := TryOf(rest);
        var replaced := t.(history := Summarised(t.history, t.prompt.value, objective != 0), rest := rest);
        if ok then Resuming(replaced)
        else
          var (installed, rest) := AskOf(rest);
          (if installed != 0 then replaced else t).(rest := rest, end := Some(Failed))
  }

  /** The hooks behind a compaction may hold it, or say something. */
  function Resuming(t: Talk): (r: Talk)
    ensures |r.rest| <= |t.rest|
  {
    QuietShrinks(t.rest);
    var (got, rest) := QuietOf(t.rest);
    if !got.Returned? then t.(rest := rest, end := EndOf(got))
    else if got.outcome.hold then t.(rest := rest, end := Some(Failed))
    else
      var tried := Trying(t.(rest := rest));
      if tried.end.Some? then tried
      else Trying(if got.outcome.correction || got.outcome.context then tried.(history := tried.history + [Said(PLUGIN_CONTEXT)]) else tried)
  }

  lemma {:induction false} QuietShrinks(q: seq<Moment>)
    ensures |QuietOf(q).1| <= |q|
    decreases |q|
  {
    if q != [] {
      QuietShrinks(q[1..]);
    }
  }

  /** Up to the point where the model may be asked. */
  function Preparing(t: Talk): (r: Talk)
    ensures |r.rest| <= |t.rest|
  {
    var drained := Draining(t);
    if drained.end.Some? then drained
    else
      var delivered := Delivering(drained);
      if delivered.end.Some? then delivered
      else
        var compacted := MakingRoom(delivered);
        if compacted.end.Some? then compacted else Offering(compacted).0
  }

  /** A conversation that is large is compacted. */
  function MakingRoom(t: Talk): (r: Talk)
    ensures |r.rest| <= |t.rest|
  {
    var (large, rest) := AskOf(t.rest);
    if large == 0 then t.(rest := rest) else Compacting(t.(rest := rest))
  }

  /** What has been said before the model is asked: the corrections that wait, in front of that
      a summary if the conversation has been compacted. */
  lemma PreparedInOrder(t: Talk)
    ensures var (drained, rest) := DrainOf(t.rest, t.corrections);
            var d := AllDelivered(rest, drained.corrections, t.history, t.prompt);
            drained.end.None? && d.end.None? ==>
              var (large, rest) := AskOf(d.rest);
              var (replacing, objective) := Replacing(rest);
              && Preparing(t).prompt == d.prompt
              && (if large != 0 && replacing && Tail(d.history).Some? && d.prompt.Some? then Summarised(d.history, d.prompt.value, objective)
                  else d.history) <= Preparing(t).history
  {
    hide DrainOf, AllDelivered, QuietOf, Tail, Summarised;
  }

  /** A plugin asks for more work. */
  function Demanding(t: Talk): (r: Talk)
    ensures |r.rest| <= |t.rest|
  {
    var tried := Trying(t);
    if tried.end.Some? then tried else Trying(tried.(history := tried.history + [Said(PLUGIN_CONTEXT)]))
  }

  /** A plugin may hold the end of the turn, or ask for more work. */
  function StopGate(t: Talk): (r: Talk)
    ensures |r.rest| <= |t.rest|
  {
    var paused := Pausing(t);
    if paused.end.Some? then paused
    else
      var outcome := Pause(t.rest, t.corrections).got.outcome;
      var drained := Draining(paused);
      if drained.end.Some? then drained
      else if outcome.hold then drained.(end := Some(Failed))
      else if outcome.correction then Demanding(drained)
      else if drained.corrections == [] then drained.(end := Some(Complete))
      else drained
  }

  /** What follows the tools of a response. */
  function Concluding(t: Talk, finished: bool): (r: Talk)
    ensures |r.rest| <= |t.rest|
  {
    var (observed, context) := Offering(t);
    if observed.end.Some? then observed
    else
      var delivered := Delivering(observed);
      if delivered.end.Some? then delivered
      else
        var saved := Trying(delivered);
        if saved.end.Some? || !finished || observed.corrections != [] || context != 0 then saved else StopGate(saved)
  }

  function Round(t: Talk, enabled: bool): (r: (Talk, bool))
    ensures |r.0.rest| <= |t.rest| && (r.0.end.None? ==> |r.0.rest| < |t.rest|)
  {
    var prepared := Preparing(t);
    if prepared.end.Some? then (prepared, false)
    else
      var asked := Requesting(prepared, enabled);
      if asked.talk.end.Some? then (asked.talk, asked.providerFailed)
      else
        var saved := Trying(asked.talk);
        if saved.end.Some? then (saved, false)
        else
          var run := RunningTools(saved);
          (if run.end.Some? then run else Concluding(run, asked.finished), false)
  }

  function Rounds(t: Talk, enabled: bool): (r: (Talk, bool))
    ensures |r.0.rest| <= |t.rest| && r.0.end.Some?
    decreases |t.rest|
  {
    var (after, providerFailed) := Round(t, enabled);
    if after.end.Some? then (after, providerFailed) else Rounds(after, enabled)
  }

  lemma RoundsStep(t: Talk, enabled: bool)
    ensures Rounds(t, enabled) == var r := Round(t, enabled); if r.0.end.Some? then r else Rounds(r.0, enabled)
  {
    hide Round;
  }

  // ---- A turn ----

  /** The prompt is said, unless the hooks hold it. */
  function Opening(t: Talk, prompt: seq<char>, plugin: bool): (r: Talk)
    ensures |r.rest| <= |t.rest|
  {
    if plugin then Trying(t.(history := t.history + [Said(prompt)]))
    else
      PauseShrinks(t.rest, t.corrections);
      var w := Pause(t.rest, t.corrections);
      var paused := t.(corrections := w.corrections, rest := w.rest, end := SubmitEnd(w.got));
      if paused.end.Some? then paused
      else Trying(paused.(history := t.history + SaidWith(prompt, w.got.outcome.context), prompt := Some(prompt)))
  }

  function Running(t: Talk, prompt: seq<char>, plugin: bool, enabled: bool): (r: (Talk, bool))
    ensures |r.0.rest| <= |t.rest| && r.0.end.Some?
  {
    var begun := Opening(t.(corrections := [], batch := []), prompt, plugin);
    if begun.end.Some? then (begun, false) else Rounds(begun, enabled)
  }

  /** Calls still pending get the receipt a tool has left, if it is that of the call in front,
      and for the others that they were stopped. */
  function Settling(t: Talk): (r: Talk)
    ensures r.rest == t.rest
  {
    var results := if t.completed.Some? && t.pending != [] && t.completed.value.id == t.pending[0].id
                   then [t.completed.value] + StoppedResults(t.pending[1..]) else StoppedResults(t.pending);
    t.(history := if t.pending == [] then t.history else AddResults(t.history, results), pending := [], completed := None)
  }

  /** What is done whatever has happened, to a turn that ends with `end`. */
  function Closing(t: Talk, end: End, providerFailed: bool): (r: Talk)
    ensures |r.rest| <= |t.rest| && r.pending == [] && r.end.Some?
  {
    Leaving(Settling(t), end, providerFailed)
  }

  /** Services are stopped if the turn is not complete, and the state is saved. */
  function Leaving(t: Talk, end: End, providerFailed: bool): (r: Talk)
    ensures |r.rest| <= |t.rest| && r.pending == t.pending && r.end.Some?
  {
    var (closed, rest) := if end == Complete then (true, t.rest) else TryOf(t.rest);
    if !closed && !providerFailed then t.(rest := rest, end := Some(Failed))
    else
      var (saved, rest) := TryOf(rest);
      t.(rest := rest, end := Some(if !saved && !providerFailed then Failed else end))
  }

  /** The end of the turn is recorded, and the turn is closed. */
  function Finishing(t: Talk, end: End, providerFailed: bool): (r: Talk)
    ensures |r.rest| <= |t.rest| && r.pending == [] && r.end.Some?
  {
    var noted := Trying(t);
    Closing(noted.(end := None), if noted.end.Some? && !providerFailed then Failed else end, providerFailed)
  }

  function Turn(t: Talk, prompt: seq<char>, plugin: bool, enabled: bool): (r: Talk)
    ensures |r.rest| <= |t.rest| && r.end.Some?
  {
    var begun := Trying(t);
    if begun.end.Some? then Closing(begun.(end := None), Failed, false)
    else Conversing(begun, prompt, plugin, enabled)
  }

  /** A turn that could be recorded. */
  function Conversing(t: Talk, prompt: seq<char>, plugin: bool, enabled: bool): (r: Talk)
    ensures |r.rest| <= |t.rest| && r.end.Some?
  {
    var (run, providerFailed) := Running(t, prompt, plugin, enabled);
    if run.end == Some(Unfinished) then run else Finishing(run.(end := None), run.end.value, providerFailed)
  }
}
