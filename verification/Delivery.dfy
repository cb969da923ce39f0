/** What becomes of waiting corrections and of the conversation, as functions of the schedule. */
module Deliveries {
  import opened Utf8
  import opened Conversations
  import opened Compactions
  import opened Commands

  const PLUGIN_CONTEXT: seq<char> := "plugin context"

  /** How a turn ends that was waiting. */
  function EndOf(got: Got): (end: Option<End>)
    ensures end.None? <==> got.Returned?
    ensures got != Ended(Complete) ==> end != Some(Complete)
  {
    match got
    case Ended(end) => Some(end)
    case Errored => Some(Failed)
    case Suspended => Some(Unfinished)
    case Returned(_) => None
  }

  /** Commands that are already there. */
  function DrainOf(q: seq<Moment>, corrections: seq<seq<char>>): (Controlled, seq<Moment>)
    decreases |q|
  {
    if q == [] || !q[0].Arrives? then
      (Controlled([], corrections, None), if q != [] && q[0].Idle? then q[1..] else q)
    else
      var (after, rest) := ControlStep(q[0].command, corrections, q[1..]);
      if after.end.Some? then (after, rest)
      else
        var (more, left) := DrainOf(rest, after.corrections);
        (Controlled(after.notes + more.notes, more.corrections, more.end), left)
  }

  /** A plugin occurrence: queued commands first, then its hooks are awaited. */
  function Pause(q: seq<Moment>, corrections: seq<seq<char>>): Waited {
    var (drained, rest) := DrainOf(q, corrections);
    if drained.end.Some? then Waited(drained.notes, drained.corrections, rest, Ended(drained.end.value))
    else Behind(drained.notes, Select(rest, drained.corrections, None, false))
  }

  /** The hooks may hold what is submitted. */
  function SubmitEnd(got: Got): (end: Option<End>)
    ensures end.None? ==> got.Returned?
  {
    if got.Returned? && got.outcome.hold then Some(Failed) else EndOf(got)
  }

  function SaidWith(text: seq<char>, context: bool): seq<Message> {
    [Said(text)] + if context then [Said(PLUGIN_CONTEXT)] else []
  }

  /** `prompt`: what the developer said last. */
  datatype Delivery = Delivery(history: seq<Message>, prompt: Option<seq<char>>, batch: seq<seq<char>>, corrections: seq<seq<char>>,
                               rest: seq<Moment>, end: Option<End>)

  /** A batch is delivered text by text, while others may come. */
  function DeliveryOf(batch: seq<seq<char>>, q: seq<Moment>, corrections: seq<seq<char>>, history: seq<Message>, prompt: Option<seq<char>>): Delivery
    decreases |batch|
  {
    if batch == [] then Delivery(history, prompt, [], corrections, q, None)
    else
      var w := Pause(q, corrections);
      var end := SubmitEnd(w.got);
      if end.Some? then Delivery(history, prompt, batch, w.corrections, w.rest, end)
      else DeliveryOf(batch[1..], w.rest, w.corrections, history + SaidWith(batch[0], w.got.outcome.context), Some(batch[0]))
  }

  lemma DeliveryStep(batch: seq<seq<char>>, q: seq<Moment>, corrections: seq<seq<char>>, history: seq<Message>, prompt: Option<seq<char>>)
    ensures DeliveryOf(batch, q, corrections, history, prompt) ==
            if batch == [] then Delivery(history, prompt, [], corrections, q, None)
            else
              var w := Pause(q, corrections);
              var end := SubmitEnd(w.got);
              if end.Some? then Delivery(history, prompt, batch, w.corrections, w.rest, end)
              else DeliveryOf(batch[1..], w.rest, w.corrections, history + SaidWith(batch[0], w.got.outcome.context), Some(batch[0]))
  {
    hide Pause;
  }

  /** Batch by batch, until none waits. */
  function AllDelivered(q: seq<Moment>, corrections: seq<seq<char>>, history: seq<Message>, prompt: Option<seq<char>>): Delivery
    decreases |q|
  {
    if corrections == [] then Delivery(history, prompt, [], [], q, None)
    else
      var d := DeliveryOf(corrections, q, [], history, prompt);
      if d.end.Some? then d
      else
        DeliveryShrinks(corrections, q, [], history, prompt);
        AllDelivered(d.rest, d.corrections, d.history, d.prompt)
  }

  lemma ControlShrinks(c: Command, corrections: seq<seq<char>>, q: seq<Moment>)
    ensures |ControlStep(c, corrections, q).1| <= |q|
  {
    hide ControlOf;
  }

  lemma {:induction false} SelectShrinks(q: seq<Moment>, corrections: seq<seq<char>>, tool: Option<nat>, started: bool)
    ensures var w := Select(q, corrections, tool, started); |w.rest| <= |q| && (w.got.Returned? ==> |w.rest| < |q|)
    decreases |q|
  {
    hide ControlStep;
    if q != [] && q[0].Arrives? {
      var (after, rest) := ControlStep(q[0].command, corrections, q[1..]);
      ControlShrinks(q[0].command, corrections, q[1..]);
      SelectShrinks(rest, after.corrections, tool, started);
    } else if q != [] {
      SelectShrinks(q[1..], corrections, tool, true);
    }
  }

  lemma {:induction false} DrainShrinks(q: seq<Moment>, corrections: seq<seq<char>>)
    ensures |DrainOf(q, corrections).1| <= |q|
    decreases |q|
  {
    hide ControlStep;
    if q != [] && q[0].Arrives? {
      var (after, rest) := ControlStep(q[0].command, corrections, q[1..]);
      ControlShrinks(q[0].command, corrections, q[1..]);
      DrainShrinks(rest, after.corrections);
    }
  }

  lemma PauseShrinks(q: seq<Moment>, corrections: seq<seq<char>>)
    ensures var w := Pause(q, corrections); |w.rest| <= |q| && (w.got.Returned? ==> |w.rest| < |q|)
  {
    hide DrainOf, Select;
    DrainShrinks(q, corrections);
    var (drained, rest) := DrainOf(q, corrections);
    SelectShrinks(rest, drained.corrections, None, false);
  }

  lemma {:induction false} DeliveryShrinks(batch: seq<seq<char>>, q: seq<Moment>, corrections: seq<seq<char>>, history: seq<Message>, prompt: Option<seq<char>>)
    ensures var d := DeliveryOf(batch, q, corrections, history, prompt);
            |d.rest| <= |q| && (batch != [] && d.end.None? ==> |d.rest| < |q|)
    decreases |batch|
  {
    if batch != [] {
      hide Pause;
      var w := Pause(q, corrections);
      PauseShrinks(q, corrections);
      if SubmitEnd(w.got).None? {
        DeliveryShrinks(batch[1..], w.rest, w.corrections, history + SaidWith(batch[0], w.got.outcome.context), Some(batch[0]));
      }
    }
  }

  // ---- How many wait ----

  lemma ControlBounded(c: Command, corrections: seq<seq<char>>, q: seq<Moment>)
    requires |corrections| <= CORRECTION_CAPACITY
    ensures |ControlStep(c, corrections, q).0.corrections| <= CORRECTION_CAPACITY
  {
  }

  lemma {:induction false} SelectBounded(q: seq<Moment>, corrections: seq<seq<char>>, tool: Option<nat>, started: bool)
    requires |corrections| <= CORRECTION_CAPACITY
    ensures |Select(q, corrections, tool, started).corrections| <= CORRECTION_CAPACITY
    decreases |q|
  {
    hide ControlStep;
    if q != [] && q[0].Arrives? {
      var (after, rest) := ControlStep(q[0].command, corrections, q[1..]);
      ControlBounded(q[0].command, corrections, q[1..]);
      ControlShrinks(q[0].command, corrections, q[1..]);
      SelectBounded(rest, after.corrections, tool, started);
    } else if q != [] {
      SelectBounded(q[1..], corrections, tool, true);
    }
  }

  lemma {:induction false} DrainBounded(q: seq<Moment>, corrections: seq<seq<char>>)
    requires |corrections| <= CORRECTION_CAPACITY
    ensures |DrainOf(q, corrections).0.corrections| <= CORRECTION_CAPACITY
    decreases |q|
  {
    hide ControlStep;
    if q != [] && q[0].Arrives? {
      var (after, rest) := ControlStep(q[0].command, corrections, q[1..]);
      ControlBounded(q[0].command, corrections, q[1..]);
      ControlShrinks(q[0].command, corrections, q[1..]);
      DrainBounded(rest, after.corrections);
    }
  }

  /** Whatever happens while a batch is delivered, at most twice the capacity waits, and at most
      the capacity when the batch has been delivered. */
  lemma {:induction false} AtMostTwiceWaits(batch: seq<seq<char>>, q: seq<Moment>, corrections: seq<seq<char>>,
                                            history: seq<Message>, prompt: Option<seq<char>>)
    requires |batch| <= CORRECTION_CAPACITY && |corrections| <= CORRECTION_CAPACITY
    ensures var d := DeliveryOf(batch, q, corrections, history, prompt);
            && |d.batch| + |d.corrections| <= 64
            && (d.end.None? ==> d.batch == [] && |d.corrections| <= 32)
    decreases |batch|
  {
    if batch != [] {
      hide DrainOf, Select;
      var (drained, rest) := DrainOf(q, corrections);
      DrainBounded(q, corrections);
      SelectBounded(rest, drained.corrections, None, false);
      var w := Pause(q, corrections);
      hide Pause;
      if SubmitEnd(w.got).None? {
        AtMostTwiceWaits(batch[1..], w.rest, w.corrections, history + SaidWith(batch[0], w.got.outcome.context), Some(batch[0]));
      }
    }
  }

  // ---- Compaction ----

  /** During a compaction commands admit nothing. */
  function QuietOf(q: seq<Moment>): (Got, seq<Moment>)
    decreases |q|
  {
    if q == [] then (Suspended, [])
    else
      match q[0]
      case Arrives(Cancel) => (Ended(Cancelled), q[1..])
      case Arrives(Shutdown) => (Ended(ShuttingDown), q[1..])
      case Arrives(Closed) => (Ended(CommandsClosed), q[1..])
      case Arrives(Submit(_, _)) => QuietOf(q[1..])
      case Arrives(Prompt(_)) => if q[1..] != [] && q[1].Fails? then (Errored, q[2..]) else QuietOf(q[1..])
      case Done(outcome) => (Returned(outcome), q[1..])
      case Fails => (Errored, q[1..])
      case _ => QuietOf(q[1..])
  }

  /** A question that is not awaited, and a call that may fail. */
  function AskOf(q: seq<Moment>): (nat, seq<Moment>) {
    if q != [] && q[0].Says? then (q[0].n, q[1..]) else (0, q)
  }

  function TryOf(q: seq<Moment>): (bool, seq<Moment>) {
    if q != [] && q[0].Fails? then (false, q[1..]) else (true, q)
  }

  /** The conversation is replaced, and whether the objective is put in front: the summary comes,
      and its record is installed, even if the installation reports a failure. */
  function Replacing(q: seq<Moment>): (bool, bool) {
    var (got, rest) := QuietOf(q);
    if !got.Returned? then (false, false)
    else
      var (objective, rest) := AskOf(rest);
      var (ok, rest) := TryOf(rest);
      (ok || AskOf(rest).0 != 0, objective != 0)
  }

  // ---- Runs ----

  function Submissions(texts: seq<seq<char>>): (q: seq<Moment>)
    ensures |q| == |texts| && forall i :: 0 <= i < |q| ==> q[i] == Arrives(Submit(Draft(texts[i], false), true))
  {
    seq(|texts|, i requires 0 <= i < |texts| => Arrives(Submit(Draft(texts[i], false), true)))
  }

  /** Submissions that find room are all queued. */
  lemma {:induction false} SubmissionsAreQueued(texts: seq<seq<char>>, corrections: seq<seq<char>>, rest: seq<Moment>)
    requires |corrections| + |texts| <= CORRECTION_CAPACITY
    ensures var (drained, left) := DrainOf(Submissions(texts) + [Idle] + rest, corrections);
            drained.corrections == corrections + texts && drained.end.None? && left == rest
    decreases |texts|
  {
    var q := Submissions(texts) + [Idle] + rest;
    if texts == [] {
      assert q[0] == Idle && q[1..] == rest;
    } else {
      assert q[1..] == Submissions(texts[1..]) + [Idle] + rest;
      assert q[0] == Arrives(Submit(Draft(texts[0], false), true));
      assert !q[1].Fails?;
      SubmissionsAreQueued(texts[1..], corrections + [texts[0]], rest);
      assert corrections + [texts[0]] + texts[1..] == corrections + texts;
      hide DrainOf, Submissions;
      assert ControlStep(q[0].command, corrections, q[1..]).0.corrections == corrections + [texts[0]];
      DrainStep(q, corrections);
    }
  }

  lemma DrainStep(q: seq<Moment>, corrections: seq<seq<char>>)
    requires q != [] && q[0].Arrives?
    ensures var (after, rest) := ControlStep(q[0].command, corrections, q[1..]);
            DrainOf(q, corrections) == if after.end.Some? then (after, rest) else After(after.notes, DrainOf(rest, after.corrections))
  {
  }

  function After(notes: seq<Note>, d: (Controlled, seq<Moment>)): (Controlled, seq<Moment>) {
    (Controlled(notes + d.0.notes, d.0.corrections, d.0.end), d.1)
  }

  lemma DrainedAfter(notes: seq<Note>, d: (Controlled, seq<Moment>))
    ensures After(notes, d) == (Controlled(notes + d.0.notes, d.0.corrections, d.0.end), d.1)
    ensures notes == [] ==> After(notes, d) == d
  {
    assert [] + d.0.notes == d.0.notes;
  }

  lemma DrainedTwice(a: seq<Note>, b: seq<Note>, d: (Controlled, seq<Moment>))
    ensures After(a, After(b, d)) == After(a + b, d)
  {
    assert a + b + d.0.notes == a + (b + d.0.notes);
  }

  lemma DrainEnds(q: seq<Moment>, corrections: seq<seq<char>>)
    requires q == [] || !q[0].Arrives?
    ensures DrainOf(q, corrections) == (Controlled([], corrections, None), if q != [] && q[0].Idle? then q[1..] else q)
  {
  }

  /** A run in which more than the capacity waits: 32 submissions are queued, their batch is
      taken, and one more arrives while the hooks of the first are awaited. */
  lemma MoreThanCapacityWaits(texts: seq<seq<char>>, more: seq<char>, history: seq<Message>, prompt: Option<seq<char>>)
    requires |texts| == CORRECTION_CAPACITY
    ensures var awaiting := [Idle, Arrives(Submit(Draft(more, false), true))];
            var (drained, left) := DrainOf(Submissions(texts) + [Idle] + awaiting, []);
            && drained.corrections == texts && drained.end.None? && left == awaiting
            && var d := DeliveryOf(drained.corrections, left, [], history, prompt);
               && d == Delivery(history, prompt, texts, [more], [], Some(Unfinished))
               && |d.batch| + |d.corrections| == 33
  {
    var awaiting := [Idle, Arrives(Submit(Draft(more, false), true))];
    SubmissionsAreQueued(texts, [], awaiting);
    assert [] + texts == texts;
    hide Submissions;
    assert awaiting[1..] == [Arrives(Submit(Draft(more, false), true))];
    assert DrainOf(awaiting, []) == (Controlled([], [], None), awaiting[1..]);
    assert Select(awaiting[1..], [], None, false) ==
           Behind([Replied(more, true), Admitted(more)], Select([], [more], None, false));
    assert Pause(awaiting, []).corrections == [more] && Pause(awaiting, []).rest == [] && Pause(awaiting, []).got == Suspended;
  }

  /** An answer of the hooks that lets a text pass. */
  const PASS: Outcome := Outcome(false, false, false, [], true)

  lemma PassIs(rest: seq<Moment>)
    ensures var w := Pause([Idle, Done(PASS)] + rest, []);
            w.corrections == [] && w.rest == rest && w.got == Returned(PASS)
  {
    var q := [Idle, Done(PASS)] + rest;
    assert q[1..] == [Done(PASS)] + rest && q[1..][1..] == rest;
    assert DrainOf(q, []) == (Controlled([], [], None), q[1..]);
    assert Select(q[1..], [], None, false) == Waited([], [], rest, Returned(PASS));
  }

  /** A run in which a correction is lost before any request has held it: three corrections wait
      behind the prompt and are delivered in one batch, and then the conversation is found to be
      large and is compacted, which keeps the last two. */
  lemma FirstCorrectionIsForgotten(p: seq<char>, a: seq<char>, b: seq<char>, c: seq<char>)
    requires a != b && a != c && a != SUMMARY && a != OBJECTIVE
    ensures var moments := Submissions([a, b, c]) + [Idle] + ([Idle, Done(PASS), Idle, Done(PASS), Idle, Done(PASS)] + [Says(1), Done(PASS)]);
            var (drained, left) := DrainOf(moments, []);
            var d := AllDelivered(left, drained.corrections, [Said(p)], Some(p));
            && drained.end.None? && d == Delivery([Said(p), Said(a), Said(b), Said(c)], Some(c), [], [], [Says(1), Done(PASS)], None)
            && AskOf(d.rest) == (1, [Done(PASS)]) && Replacing([Done(PASS)]) == (true, false)
            && Tail(d.history) == Some([Said(b), Said(c)])
            && Said(a) !in Summarised(d.history, c, false)
  {
    hide *;
    var passing: seq<Moment> := [Idle, Done(PASS), Idle, Done(PASS), Idle, Done(PASS)];
    var end: seq<Moment> := [Says(1), Done(PASS)];
    CapacityIs();
    SubmissionsAreQueued([a, b, c], [], passing + end);
    assert [] + [a, b, c] == [a, b, c];
    ThreePass(p, a, b, c, end);
    SummaryComes();
    FourTexts(p, a, b, c);
    NotKept([Said(p), Said(a), Said(b), Said(c)], a, b, c);
  }

  lemma CapacityIs()
    ensures CORRECTION_CAPACITY == 32
  {
  }

  lemma SummaryComes()
    ensures AskOf([Says(1), Done(PASS)]) == (1, [Done(PASS)]) && Replacing([Done(PASS)]) == (true, false)
  {
    assert [Says(1), Done(PASS)][1..] == [Done(PASS)];
  }

  lemma NotKept(history: seq<Message>, a: seq<char>, b: seq<char>, c: seq<char>)
    requires a != b && a != c && a != SUMMARY && a != OBJECTIVE && Tail(history) == Some([Said(b), Said(c)])
    ensures Said(a) !in Summarised(history, c, false)
  {
    hide Tail;
  }

  lemma ThreePass(p: seq<char>, a: seq<char>, b: seq<char>, c: seq<char>, end: seq<Moment>)
    ensures AllDelivered([Idle, Done(PASS), Idle, Done(PASS), Idle, Done(PASS)] + end, [a, b, c], [Said(p)], Some(p)) ==
            Delivery([Said(p), Said(a), Said(b), Said(c)], Some(c), [], [], end, None)
  {
    hide Pause;
    var one: seq<Moment> := [Idle, Done(PASS)];
    var passing := [Idle, Done(PASS), Idle, Done(PASS), Idle, Done(PASS)] + end;
    assert passing == one + (one + (one + end));
    PassIs(one + (one + end));
    PassIs(one + end);
    PassIs(end);
    var h0 := [Said(p)];
    var h1 := h0 + SaidWith(a, false);
    var h2 := h1 + SaidWith(b, false);
    var h3 := h2 + SaidWith(c, false);
    assert [a, b, c][1..] == [b, c] && [b, c][1..] == [c] && [c][1..] == [];
    assert DeliveryOf([], end, [], h3, Some(c)) == Delivery(h3, Some(c), [], [], end, None);
    assert DeliveryOf([c], one + end, [], h2, Some(b)) == DeliveryOf([], end, [], h3, Some(c));
    assert DeliveryOf([b, c], one + (one + end), [], h1, Some(a)) == DeliveryOf([c], one + end, [], h2, Some(b));
    assert DeliveryOf([a, b, c], passing, [], h0, Some(p)) == DeliveryOf([b, c], one + (one + end), [], h1, Some(a));
    assert h3 == [Said(p), Said(a), Said(b), Said(c)];
  }

  lemma FourTexts(p: seq<char>, a: seq<char>, b: seq<char>, c: seq<char>)
    ensures Tail([Said(p), Said(a), Said(b), Said(c)]) == Some([Said(b), Said(c)])
  {
    var one := [Said(p)];
    var two := [Said(p), Said(a)];
    var three := [Said(p), Said(a), Said(b)];
    var four := [Said(p), Said(a), Said(b), Said(c)];
    assert [] + [Said(p)] == one && one + [Said(a)] == two && two + [Said(b)] == three && three + [Said(c)] == four;
    CutsMore([], Said(p));
    CutsMore(one, Said(a));
    CutsMore(two, Said(b));
    CutsMore(three, Said(c));
    assert CutsOf([]) == Some(Cuts({}, [0]));
    hide CutsOf;
    assert [0] + [1] == [0, 1] && [0, 1] + [2] == [0, 1, 2] && [0, 1, 2] + [3] == [0, 1, 2, 3] && [0, 1, 2, 3] + [4] == [0, 1, 2, 3, 4];
    assert CutsOf(one) == Some(Cuts({}, [0, 1]));
    assert CutsOf(two) == Some(Cuts({}, [0, 1, 2]));
    assert CutsOf(three) == Some(Cuts({}, [0, 1, 2, 3]));
    assert CutsOf(four) == Some(Cuts({}, [0, 1, 2, 3, 4]));
    assert four[2..] == [Said(b), Said(c)];
  }
}
