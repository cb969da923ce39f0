/** What a running turn does with the commands that reach it, and what it may see while it
    waits: a schedule of moments stands for everything outside of the session. */
module Commands {
  import opened Utf8
  import opened Conversations
  import opened Alignment

  const CORRECTION_CAPACITY: nat := 32

  /** A text a developer has submitted; workflow controls are not for the model. */
  datatype Draft = Draft(text: seq<char>, control: bool)

  /** `live` says whether somebody still waits for the reply; `Closed` that no command will come. */
  datatype Command = Cancel | Shutdown | Closed | Prompt(draft: Draft) | Submit(draft: Draft, live: bool)

  /** What a model, a tool or a plugin comes back with. */
  datatype Outcome = Outcome(hold: bool, correction: bool, context: bool, calls: seq<ToolCall>, success: bool)

  /** `Idle`: nothing to receive, the awaited future has been polled and is not ready. `Receipt`:
      a tool has left its receipt. `Says`: an answer of the runtime that is not awaited. */
  datatype Moment = Arrives(command: Command) | Idle | Receipt(result: ToolResult) | Fails | Done(outcome: Outcome) | Says(n: nat)

  datatype End = Complete | Cancelled | ShuttingDown | CommandsClosed | Failed | Unfinished

  /** What can be seen of a session. `Entered`: a tool is chosen; `Finished`: its future has come
      back; `Resulted`: a call has got its result; `Overruled`: a plugin has asked for a correction. */
  datatype Note =
    | Replied(text: seq<char>, accepted: bool)
    | Admitted(text: seq<char>)
    | Prompted(text: seq<char>, history: seq<Message>)
    | Delivered(text: seq<char>, history: seq<Message>)
    | Compacted(prompt: seq<char>, objective: bool, before: seq<Message>, history: seq<Message>)
    | Stopping(active: bool)
    | Blocked
    | Asked(history: seq<Message>, sound: bool)
    | Refused(calls: seq<ToolCall>)
    | Entered(id: nat)
    | Started(id: nat)
    | Finished(id: nat, success: bool)
    | Resulted(result: ToolResult)
    | Overruled
    | Saved(history: seq<Message>, pending: seq<ToolCall>, developerPrompt: Option<seq<char>>, sound: bool)

  // ---- One command ----

  datatype Controlled = Controlled(notes: seq<Note>, corrections: seq<seq<char>>, end: Option<End>)

  /** Whether a command leads to a notice, whose publication may fail. */
  predicate Notices(c: Command, corrections: seq<seq<char>>) {
    c.Prompt? || (c.Submit? && !c.draft.control && (|corrections| >= CORRECTION_CAPACITY || c.live))
  }

  function ControlOf(c: Command, corrections: seq<seq<char>>, heard: bool): Controlled {
    var end := if heard then None else Some(Failed);
    match c
    case Cancel => Controlled([], corrections, Some(Cancelled))
    case Shutdown => Controlled([], corrections, Some(ShuttingDown))
    case Closed => Controlled([], corrections, Some(CommandsClosed))
    case Prompt(draft) =>
      if draft.control || |corrections| >= CORRECTION_CAPACITY then Controlled([], corrections, end)
      else Controlled([Admitted(draft.text)], corrections + [draft.text], end)
    case Submit(draft, live) =>
      if draft.control then Controlled([Replied(draft.text, false)], corrections, None)
      else if |corrections| >= CORRECTION_CAPACITY then Controlled([Replied(draft.text, false)], corrections, end)
      else if live then Controlled([Replied(draft.text, true), Admitted(draft.text)], corrections + [draft.text], end)
      else Controlled([Replied(draft.text, true)], corrections, None)
  }

  /** A command with the moments behind it. */
  function ControlStep(c: Command, corrections: seq<seq<char>>, q: seq<Moment>): (Controlled, seq<Moment>) {
    if Notices(c, corrections) && q != [] && q[0].Fails? then (ControlOf(c, corrections, false), q[1..])
    else (ControlOf(c, corrections, true), q)
  }

  function RepliesIn(notes: seq<Note>): (replies: seq<Note>)
    ensures forall note <- replies :: note.Replied?
  {
    if notes == [] then []
    else RepliesIn(notes[..|notes| - 1]) + if notes[|notes| - 1].Replied? then [notes[|notes| - 1]] else []
  }

  function AdmittedIn(notes: seq<Note>): seq<seq<char>> {
    if notes == [] then []
    else AdmittedIn(notes[..|notes| - 1]) + if notes[|notes| - 1].Admitted? then [notes[|notes| - 1].text] else []
  }

  function DeliveredIn(notes: seq<Note>): seq<seq<char>> {
    if notes == [] then []
    else DeliveredIn(notes[..|notes| - 1]) + if notes[|notes| - 1].Delivered? then [notes[|notes| - 1].text] else []
  }

  // ---- What has been answered ----

  /** The texts of the submissions in a schedule, and those of the replies in a log. */
  function SubmittedIn(q: seq<Moment>): seq<seq<char>> {
    if q == [] then [] else SubmittedIn(q[..|q| - 1]) + InHand(q[|q| - 1])
  }

  function InHand(m: Moment): seq<seq<char>> {
    if m.Arrives? && m.command.Submit? then [m.command.draft.text] else []
  }

  function AnsweredIn(notes: seq<Note>): seq<seq<char>> {
    if notes == [] then [] else AnsweredIn(notes[..|notes| - 1]) + AnsweredBy(notes[|notes| - 1])
  }

  function AnsweredBy(note: Note): seq<seq<char>> {
    if note.Replied? then [note.text] else []
  }

  /** `rest` is what remains of a schedule. Every submission in front of it has been answered, once
      and in order, but for those in hand; and nothing else has been answered. */
  predicate Follows(whole: seq<Moment>, rest: seq<Moment>, log: seq<Note>, inHand: seq<seq<char>>) {
    && |rest| <= |whole| && rest == whole[|whole| - |rest|..]
    && SubmittedIn(whole[..|whole| - |rest|]) == AnsweredIn(log) + inHand
  }

  lemma FollowsNext(whole: seq<Moment>, rest: seq<Moment>, log: seq<Note>)
    requires Follows(whole, rest, log, []) && rest != []
    ensures Follows(whole, rest[1..], log, InHand(rest[0]))
  {
    var n := |whole| - |rest|;
    assert whole[..n + 1][..n] == whole[..n] && whole[n] == rest[0];
    assert whole[n + 1..] == rest[1..];
    assert AnsweredIn(log) + [] == AnsweredIn(log);
    hide AnsweredIn, InHand;
  }

  lemma AnsweredMore(log: seq<Note>, note: Note)
    ensures AnsweredIn(log + [note]) == AnsweredIn(log) + AnsweredBy(note)
  {
    assert (log + [note])[..|log + [note]| - 1] == log;
  }

  lemma FollowsNote(whole: seq<Moment>, rest: seq<Moment>, log: seq<Note>, note: Note)
    requires Follows(whole, rest, log, AnsweredBy(note))
    ensures Follows(whole, rest, log + [note], [])
  {
    AnsweredMore(log, note);
    hide AnsweredIn, SubmittedIn, AnsweredBy;
    assert AnsweredIn(log) + AnsweredBy(note) + [] == AnsweredIn(log) + AnsweredBy(note);
  }

  lemma NoAnswer()
    ensures AnsweredIn([]) == []
  {
  }

  lemma OneAnswer(note: Note)
    ensures AnsweredIn([note]) == AnsweredBy(note)
  {
    hide AnsweredIn, AnsweredBy;
    NoAnswer();
    assert [] + [note] == [note];
    AnsweredMore([], note);
  }

  lemma TwoAnswers(a: Note, b: Note)
    ensures AnsweredIn([a, b]) == AnsweredBy(a) + AnsweredBy(b)
  {
    hide AnsweredIn, AnsweredBy;
    OneAnswer(a);
    assert [a] + [b] == [a, b];
    AnsweredMore([a], b);
  }

  lemma {:induction false} AnsweredTogether(log: seq<Note>, notes: seq<Note>)
    ensures AnsweredIn(log + notes) == AnsweredIn(log) + AnsweredIn(notes)
  {
    hide *;
    if notes == [] {
      NoAnswer();
      assert log + notes == log && AnsweredIn(log) + [] == AnsweredIn(log);
    } else {
      var before, last := notes[..|notes| - 1], notes[|notes| - 1];
      AnsweredTogether(log, before);
      assert log + notes == log + before + [last] && notes == before + [last];
      AnsweredMore(log + before, last);
      AnsweredMore(before, last);
    }
  }

  lemma FollowsNotes(whole: seq<Moment>, rest: seq<Moment>, log: seq<Note>, notes: seq<Note>)
    requires Follows(whole, rest, log, AnsweredIn(notes))
    ensures Follows(whole, rest, log + notes, [])
  {
    AnsweredTogether(log, notes);
    hide AnsweredIn, SubmittedIn;
    assert AnsweredIn(log) + AnsweredIn(notes) + [] == AnsweredIn(log) + AnsweredIn(notes);
  }

  lemma FollowsAll(whole: seq<Moment>)
    ensures Follows(whole, whole, [], [])
  {
    assert whole[..0] == [];
  }

  /** A command is answered if and only if it is a submission. */
  lemma ControlAnswers(c: Command, corrections: seq<seq<char>>, heard: bool)
    ensures AnsweredIn(ControlOf(c, corrections, heard).notes) == InHand(Arrives(c))
  {
    NoAnswer();
    if c.Submit? || c.Prompt? {
      OneAnswer(Replied(c.draft.text, false));
      OneAnswer(Replied(c.draft.text, true));
      OneAnswer(Admitted(c.draft.text));
      TwoAnswers(Replied(c.draft.text, true), Admitted(c.draft.text));
    }
    hide AnsweredIn;
  }

  lemma OneNote(note: Note)
    ensures RepliesIn([note]) == if note.Replied? then [note] else []
    ensures AdmittedIn([note]) == if note.Admitted? then [note.text] else []
  {
    assert [note][..0] == [];
  }

  /** Every submission is answered once. It is accepted if and only if it is no control and
      there is room, and then queued behind the others if somebody hears the answer. The queue
      never holds more than its capacity. */
  lemma SubmissionIsAnswered(draft: Draft, live: bool, corrections: seq<seq<char>>, heard: bool)
    requires |corrections| <= CORRECTION_CAPACITY
    ensures var after := ControlOf(Submit(draft, live), corrections, heard);
            var accepted := !draft.control && |corrections| < CORRECTION_CAPACITY;
            && RepliesIn(after.notes) == [Replied(draft.text, accepted)]
            && AdmittedIn(after.notes) == (if accepted && live then [draft.text] else [])
            && after.corrections == corrections + AdmittedIn(after.notes) && |after.corrections| <= CORRECTION_CAPACITY
  {
    NoNote();
    OneNote(Replied(draft.text, true));
    OneNote(Replied(draft.text, false));
    TwoNotes(Replied(draft.text, true), Admitted(draft.text));
    hide RepliesIn, AdmittedIn;
  }

  /** Nothing else is answered, and only a prompt can be admitted without an answer. */
  lemma OthersAreNotAnswered(c: Command, corrections: seq<seq<char>>, heard: bool)
    requires |corrections| <= CORRECTION_CAPACITY && !c.Submit?
    ensures var after := ControlOf(c, corrections, heard);
            && RepliesIn(after.notes) == []
            && AdmittedIn(after.notes) == (if c.Prompt? && !c.draft.control && |corrections| < CORRECTION_CAPACITY then [c.draft.text] else [])
            && after.corrections == corrections + AdmittedIn(after.notes) && |after.corrections| <= CORRECTION_CAPACITY
  {
    NoNote();
    if c.Prompt? {
      OneNote(Admitted(c.draft.text));
    }
    hide RepliesIn, AdmittedIn;
  }

  /** The queue grows by what is admitted. */
  lemma QueueGrows(c: Command, corrections: seq<seq<char>>, heard: bool)
    requires |corrections| <= CORRECTION_CAPACITY
    ensures var after := ControlOf(c, corrections, heard);
            after.corrections == corrections + AdmittedIn(after.notes) && |after.corrections| <= CORRECTION_CAPACITY
  {
    hide ControlOf, AdmittedIn;
    if c.Submit? {
      SubmissionIsAnswered(c.draft, c.live, corrections, heard);
    } else {
      OthersAreNotAnswered(c, corrections, heard);
    }
  }

  lemma NoNote()
    ensures RepliesIn([]) == [] && AdmittedIn([]) == []
  {
  }

  lemma TwoNotes(a: Note, b: Note)
    ensures RepliesIn([a, b]) == (if a.Replied? then [a] else []) + (if b.Replied? then [b] else [])
    ensures AdmittedIn([a, b]) == (if a.Admitted? then [a.text] else []) + (if b.Admitted? then [b.text] else [])
  {
    OneNote(a);
    assert [a, b][..1] == [a];
  }

  // ---- Waiting ----

  datatype Got = Ended(end: End) | Returned(outcome: Outcome) | Errored | Suspended

  datatype Waited = Waited(notes: seq<Note>, corrections: seq<seq<char>>, rest: seq<Moment>, got: Got)

  function Behind(notes: seq<Note>, w: Waited): Waited {
    w.(notes := notes + w.notes)
  }

  /** Waiting for a future while commands come first. A tool counts as started once its future
      has been polled, and commands are looked at before that. */
  function Select(q: seq<Moment>, corrections: seq<seq<char>>, tool: Option<nat>, started: bool): Waited
    decreases |q|
  {
    if q == [] then Waited([], corrections, [], Suspended)
    else if q[0].Arrives? then
      var (after, rest) := ControlStep(q[0].command, corrections, q[1..]);
      if after.end.Some? then Waited(after.notes, after.corrections, rest, Ended(after.end.value))
      else Behind(after.notes, Select(rest, after.corrections, tool, started))
    else
      var start := if tool.Some? && !started then [Started(tool.value)] else [];
      if q[0].Done? then Waited(start + FinishOf(tool, q[0].outcome), corrections, q[1..], Returned(q[0].outcome))
      else if q[0].Fails? then Waited(start, corrections, q[1..], Errored)
      else Behind(start, Select(q[1..], corrections, tool, true))
  }

  function FinishOf(tool: Option<nat>, outcome: Outcome): seq<Note> {
    if tool.Some? then [Finished(tool.value, outcome.success)] else []
  }

  /** The last receipt that is left while a tool is awaited. */
  function ReceiptOf(q: seq<Moment>, corrections: seq<seq<char>>, receipt: Option<ToolResult>): Option<ToolResult>
    decreases |q|
  {
    if q == [] || q[0].Done? || q[0].Fails? then receipt
    else if q[0].Arrives? then
      var (after, rest) := ControlStep(q[0].command, corrections, q[1..]);
      if after.end.Some? then receipt else ReceiptOf(rest, after.corrections, receipt)
    else ReceiptOf(q[1..], corrections, if q[0].Receipt? then Some(q[0].result) else receipt)
  }

  // ---- Tools that start late ----

  /** The commands in front of the first poll of the awaited future. */
  function Lead(q: seq<Moment>): (k: nat)
    ensures k <= |q| && (forall i :: 0 <= i < k ==> q[i].Arrives?) && (k < |q| ==> !q[k].Arrives?)
  {
    if q == [] || !q[0].Arrives? then 0 else 1 + Lead(q[1..])
  }

  predicate Stops(c: Command) {
    c.Cancel? || c.Shutdown? || c.Closed?
  }

  /** A command whose text is for the model and will not be lost. */
  predicate Adds(c: Command) {
    (c.Prompt? && !c.draft.control) || (c.Submit? && !c.draft.control && c.live)
  }

  /** A command in front of the poll ends the turn by itself or by a notice that cannot be published. */
  predicate EndsTurn(q: seq<Moment>, corrections: seq<seq<char>>, i: nat)
    requires i < Lead(q)
  {
    || Stops(q[i].command)
    || (i + 1 < |q| && q[i + 1].Fails? && Notices(q[i].command, QueuedAfter(corrections, q, i)))
  }

  /** The queue when `i` commands have been obeyed. */
  function QueuedAfter(corrections: seq<seq<char>>, q: seq<Moment>, i: nat): seq<seq<char>>
    requires i <= Lead(q)
  {
    if i == 0 then corrections
    else ControlOf(q[i - 1].command, QueuedAfter(corrections, q, i - 1), true).corrections
  }

  predicate IsPolled(q: seq<Moment>, corrections: seq<seq<char>>) {
    Lead(q) < |q| && forall i :: 0 <= i < Lead(q) ==> !EndsTurn(q, corrections, i)
  }

  /** There is room, and a text for the model comes in front of the first poll. */
  predicate GetsCorrected(q: seq<Moment>, corrections: seq<seq<char>>) {
    |corrections| < CORRECTION_CAPACITY && exists i :: 0 <= i < Lead(q) && Adds(q[i].command)
  }

  predicate HasStart(notes: seq<Note>) {
    exists j :: 0 <= j < |notes| && notes[j].Started?
  }

  predicate HasAdmission(notes: seq<Note>) {
    exists i :: 0 <= i < |notes| && notes[i].Admitted?
  }

  predicate StartsLate(notes: seq<Note>) {
    exists i, j :: 0 <= i < j < |notes| && notes[i].Admitted? && notes[j].Started?
  }

  lemma StartsLateParts(a: seq<Note>, b: seq<Note>)
    ensures HasStart(a + b) <==> HasStart(a) || HasStart(b)
    ensures HasAdmission(a + b) <==> HasAdmission(a) || HasAdmission(b)
    ensures StartsLate(a + b) <==> StartsLate(a) || StartsLate(b) || (HasAdmission(a) && HasStart(b))
  {
    var c := a + b;
    assert forall i :: 0 <= i < |a| ==> c[i] == a[i];
    assert forall i :: 0 <= i < |b| ==> c[|a| + i] == b[i];
    if HasStart(b) {
      var j :| 0 <= j < |b| && b[j].Started?;
      assert c[|a| + j].Started?;
    }
    if HasAdmission(b) {
      var i :| 0 <= i < |b| && b[i].Admitted?;
      assert c[|a| + i].Admitted?;
    }
    if StartsLate(b) {
      var i, j :| 0 <= i < j < |b| && b[i].Admitted? && b[j].Started?;
      assert c[|a| + i].Admitted? && c[|a| + j].Started?;
    }
    if StartsLate(c) {
      var i, j :| 0 <= i < j < |c| && c[i].Admitted? && c[j].Started?;
      if |a| <= i {
        assert b[i - |a|].Admitted? && b[j - |a|].Started?;
      }
    }
  }

  /** Once it has been started a tool is not started again. */
  lemma {:induction false} StartsOnce(q: seq<Moment>, corrections: seq<seq<char>>, tool: Option<nat>)
    ensures !HasStart(Select(q, corrections, tool, true).notes)
    decreases |q|
  {
    if q != [] && q[0].Arrives? {
      var (after, rest) := ControlStep(q[0].command, corrections, q[1..]);
      StartsOnce(rest, after.corrections, tool);
      StartsLateParts(after.notes, Select(rest, after.corrections, tool, true).notes);
    } else if q != [] && !q[0].Done? && !q[0].Fails? {
      StartsOnce(q[1..], corrections, tool);
      assert [] + Select(q[1..], corrections, tool, true).notes == Select(q[1..], corrections, tool, true).notes;
    }
  }

  lemma ControlAdmits(c: Command, corrections: seq<seq<char>>, heard: bool)
    requires |corrections| <= CORRECTION_CAPACITY
    ensures var notes := ControlOf(c, corrections, heard).notes;
            && (HasAdmission(notes) <==> Adds(c) && |corrections| < CORRECTION_CAPACITY)
            && !HasStart(notes) && !StartsLate(notes)
    ensures ControlOf(c, corrections, heard).end.Some? <==> Stops(c) || (Notices(c, corrections) && !heard)
    ensures |ControlOf(c, corrections, heard).corrections| == |corrections| + if Adds(c) && |corrections| < CORRECTION_CAPACITY then 1 else 0
  {
    var notes := ControlOf(c, corrections, heard).notes;
    assert Adds(c) && |corrections| < CORRECTION_CAPACITY ==> notes[|notes| - 1].Admitted?;
  }

  /** One command less in front of the poll. */
  lemma LeadStep(q: seq<Moment>, corrections: seq<seq<char>>)
    requires q != [] && q[0].Arrives? && !EndsTurn(q, corrections, 0)
    ensures var next := ControlOf(q[0].command, corrections, true).corrections;
            IsPolled(q, corrections) <==> IsPolled(q[1..], next)
  {
    var next := ControlOf(q[0].command, corrections, true).corrections;
    assert Lead(q) == 1 + Lead(q[1..]);
    forall i | 0 <= i < Lead(q[1..]) ensures EndsTurn(q, corrections, i + 1) <==> EndsTurn(q[1..], next, i) {
      QueuedAfterStep(q, corrections, i);
    }
    if IsPolled(q[1..], next) {
      forall i | 0 <= i < Lead(q) ensures !EndsTurn(q, corrections, i) {
        assert i > 0 ==> !EndsTurn(q[1..], next, i - 1);
      }
    }
  }

  lemma {:induction false} QueuedAfterStep(q: seq<Moment>, corrections: seq<seq<char>>, i: nat)
    requires q != [] && q[0].Arrives? && i <= Lead(q[1..])
    ensures QueuedAfter(corrections, q, i + 1) == QueuedAfter(ControlOf(q[0].command, corrections, true).corrections, q[1..], i)
  {
    if i > 0 {
      QueuedAfterStep(q, corrections, i - 1);
    }
  }

  /** A tool that is awaited starts if and only if it is polled, which no command prevents. It
      starts after a correction has been admitted if and only if, moreover, there is room in the
      queue and a text for the model arrives in front of the first poll. */
  lemma {:induction false} ToolStartsLateIff(q: seq<Moment>, corrections: seq<seq<char>>, id: nat)
    requires |corrections| <= CORRECTION_CAPACITY
    ensures HasStart(Select(q, corrections, Some(id), false).notes) <==> IsPolled(q, corrections)
    ensures StartsLate(Select(q, corrections, Some(id), false).notes) <==> IsPolled(q, corrections) && GetsCorrected(q, corrections)
    decreases |q|
  {
    if q != [] && q[0].Arrives? {
      CommandBeforePoll(q, corrections, id);
    } else if q != [] {
      assert [Started(id)][0].Started? && ([Started(id)] + FinishOf(Some(id), Outcome(false, false, false, [], q[0].Done? && q[0].outcome.success)))[0].Started?;
      if !q[0].Done? && !q[0].Fails? {
        StartsOnce(q[1..], corrections, Some(id));
        StartsLateParts([Started(id)], Select(q[1..], corrections, Some(id), true).notes);
      }
    }
  }

  lemma {:induction false} CommandBeforePoll(q: seq<Moment>, corrections: seq<seq<char>>, id: nat)
    requires |corrections| <= CORRECTION_CAPACITY && q != [] && q[0].Arrives?
    ensures HasStart(Select(q, corrections, Some(id), false).notes) <==> IsPolled(q, corrections)
    ensures StartsLate(Select(q, corrections, Some(id), false).notes) <==> IsPolled(q, corrections) && GetsCorrected(q, corrections)
    decreases |q|, 0
  {
    var c := q[0].command;
    var (after, rest) := ControlStep(c, corrections, q[1..]);
    var heard := !(Notices(c, corrections) && q[1..] != [] && q[1..][0].Fails?);
    ControlAdmits(c, corrections, heard);
    assert EndsTurn(q, corrections, 0) <==> after.end.Some?;
    if after.end.None? {
      ToolStartsLateIff(rest, after.corrections, id);
      StartsLateParts(after.notes, Select(rest, after.corrections, Some(id), false).notes);
      LeadStep(q, corrections);
      CorrectedStep(q, corrections);
    }
  }

  lemma CorrectedStep(q: seq<Moment>, corrections: seq<seq<char>>)
    requires |corrections| <= CORRECTION_CAPACITY && q != [] && q[0].Arrives?
    ensures var next := ControlOf(q[0].command, corrections, true).corrections;
            GetsCorrected(q, corrections) <==>
            |corrections| < CORRECTION_CAPACITY && (Adds(q[0].command) || GetsCorrected(q[1..], next))
  {
    ControlAdmits(q[0].command, corrections, true);
    assert forall i :: 0 <= i < Lead(q[1..]) ==> q[1..][i] == q[i + 1];
    if exists i :: 0 <= i < Lead(q[1..]) && Adds(q[1..][i].command) {
      var i :| 0 <= i < Lead(q[1..]) && Adds(q[1..][i].command);
      assert Adds(q[i + 1].command);
    }
  }

  /** Such a schedule: the correction comes between the last look at the queue and the first poll
      of the tool. */
  lemma ToolStartsAfterCorrection(id: nat, outcome: Outcome)
    ensures Select([Arrives(Submit(Draft("stop", false), true)), Done(outcome)], [], Some(id), false) ==
            Waited([Replied("stop", true), Admitted("stop"), Started(id), Finished(id, outcome.success)], ["stop"], [], Returned(outcome))
  {
    var q := [Arrives(Submit(Draft("stop", false), true)), Done(outcome)];
    assert q[1..] == [Done(outcome)];
    assert Select([Done(outcome)], ["stop"], Some(id), false) == Waited([Started(id)] + [Finished(id, outcome.success)], ["stop"], [], Returned(outcome));
  }

  // ---- More corrections than the queue holds ----

  /** A batch that is being delivered does not count against the capacity. So one command makes
      more than the capacity wait if and only if it admits a text while batch and queue together
      are full; without a batch it never does. */
  lemma CrowdsIff(c: Command, batch: seq<seq<char>>, corrections: seq<seq<char>>, heard: bool)
    requires |corrections| <= CORRECTION_CAPACITY
    ensures var before, after := |batch| + |corrections|, |batch| + |ControlOf(c, corrections, heard).corrections|;
            && (before < after && after > CORRECTION_CAPACITY <==>
                Adds(c) && |corrections| < CORRECTION_CAPACITY && before >= CORRECTION_CAPACITY)
            && (batch == [] ==> after <= CORRECTION_CAPACITY)
            && (|batch| <= CORRECTION_CAPACITY ==> after <= 2 * CORRECTION_CAPACITY)
  {
    ControlAdmits(c, corrections, heard);
    hide ControlOf;
  }

  // ---- The order of events ----

  /** `clear`: no correction has been admitted since the model was last asked; `overruled`: a
      plugin has asked for one since. `open`: the tool entered has not got its result; `outcome`:
      what it has come back with; `results`: those given since the model was last asked. */
  datatype Watch = Watch(clear: bool, overruled: bool, entered: Option<nat>, started: bool, open: bool, outcome: Option<bool>,
                         results: seq<ToolResult>, ok: bool)

  function Watching(w: Watch, note: Note): Watch {
    match note
    case Asked(_, _) => Watch(true, false, None, w.started, false, None, [], w.ok)
    case Admitted(_) => w.(clear := false)
    case Overruled => w.(overruled := true, ok := w.ok && !w.open)
    case Entered(id) => Watch(w.clear, w.overruled, Some(id), false, true, None, w.results, w.ok && w.clear && !w.overruled && !w.open)
    case Started(id) => w.(started := true, ok := w.ok && w.open && w.entered == Some(id) && !w.started)
    case Finished(id, success) =>
      w.(outcome := Some(success), ok := w.ok && w.open && w.entered == Some(id) && w.started && w.outcome == None)
    case Resulted(result) => w.(open := false, outcome := None, results := w.results + [result], ok := w.ok && IsDue(w, result))
    case _ => w
  }

  /** A tool in progress gives what it has come back with; without one, a call can only be
      answered as superseded, and only behind a correction. */
  predicate IsDue(w: Watch, result: ToolResult) {
    match result.origin
    case Executed(success) => w.open && w.entered == Some(result.id) && w.outcome == Some(success)
    case Superseded => !w.open && (!w.clear || w.overruled)
    case _ => false
  }

  /** All but what an admission changes. */
  function Apart(w: Watch): Watch {
    w.(clear := true)
  }

  const UNWATCHED: Watch := Watch(true, false, None, false, false, None, [], true)

  function Watched(log: seq<Note>): Watch {
    if log == [] then UNWATCHED else Watching(Watched(log[..|log| - 1]), log[|log| - 1])
  }

  lemma WatchedMore(log: seq<Note>, note: Note)
    ensures Watched(log + [note]) == Watching(Watched(log), note)
  {
    assert (log + [note])[..|log + [note]| - 1] == log;
  }

  /** No tool is chosen after a correction until the model has been asked again. So of all the
      tools of a response at most one starts after a correction: the one chosen before it. */
  lemma {:induction false} NoToolIsChosenAfterCorrection(log: seq<Note>, i: nat, j: nat)
    requires Watched(log).ok && i < j < |log| && log[i].Admitted?
    requires forall k :: i < k <= j ==> !log[k].Asked?
    ensures !log[j].Entered? && !Watched(log[..j + 1]).clear
    ensures Watched(log[..j + 1]).entered == Watched(log[..i]).entered
    decreases j
  {
    hide Watched;
    WatchedPrefix(log, j + 1);
    assert log[..j + 1] == log[..j] + [log[j]];
    if i < j - 1 {
      NoToolIsChosenAfterCorrection(log, i, j - 1);
    } else {
      assert log[..j] == log[..i] + [log[i]];
      WatchedMore(log[..i], log[i]);
    }
    NothingIsChosen(log[..j], log[j]);
  }

  lemma NothingIsChosen(log: seq<Note>, note: Note)
    requires Watched(log + [note]).ok && !Watched(log).clear && !note.Asked?
    ensures !note.Entered? && !Watched(log + [note]).clear && Watched(log + [note]).entered == Watched(log).entered
  {
    WatchedMore(log, note);
    hide Watched;
  }

  lemma {:induction false} WatchedPrefix(log: seq<Note>, n: nat)
    requires n <= |log| && Watched(log).ok
    ensures Watched(log[..n]).ok
  {
    if n < |log| {
      WatchedPrefix(log[..|log| - 1], n);
      assert log[..|log| - 1][..n] == log[..n];
    } else {
      assert log[..n] == log;
    }
  }
}
