/** Why turns end. */
module TurnEnds {
  import opened Utf8
  import opened Conversations
  import opened Compactions
  import opened Alignment
  import opened Commands
  import opened Deliveries
  import opened Turns

  /** A response without calls. */
  predicate Finishes(m: Moment) {
    m.Done? && m.outcome.calls == []
  }

  /** The hooks let a turn stop. */
  predicate Passes(m: Moment) {
    m.Done? && !m.outcome.hold && !m.outcome.correction
  }

  /** A call that fails, hooks that hold, a response with calls, or an answer that is not "no":
      the conversation is large, or a result is held. */
  predicate Breaks(m: Moment) {
    m.Fails? || (m.Done? && (m.outcome.hold || m.outcome.calls != [])) || (m.Says? && m.n != 0)
  }

  predicate SomeBreak(q: seq<Moment>) {
    exists i :: 0 <= i < |q| && Breaks(q[i])
  }

  predicate SomePass(q: seq<Moment>) {
    exists i :: 0 <= i < |q| && Passes(q[i])
  }

  predicate SomeFinish(q: seq<Moment>) {
    exists i :: 0 <= i < |q| && Finishes(q[i])
  }

  predicate FinishedAndPassed(q: seq<Moment>) {
    exists i, j :: 0 <= i < j < |q| && Finishes(q[i]) && Passes(q[j])
  }

  /** What must be among the moments spent when a turn ends. */
  predicate Caused(end: End, spent: seq<Moment>) {
    match end
    case Complete => FinishedAndPassed(spent)
    case Cancelled => Arrives(Cancel) in spent
    case ShuttingDown => Arrives(Shutdown) in spent
    case CommandsClosed => Arrives(Closed) in spent
    case Failed => SomeBreak(spent)
    case Unfinished => true
  }

  /** `rest` is what is left of `q`. */
  predicate Leaves(q: seq<Moment>, rest: seq<Moment>) {
    |rest| <= |q| && rest == q[|q| - |rest|..]
  }

  function Spent(q: seq<Moment>, rest: seq<Moment>): (spent: seq<Moment>)
    requires Leaves(q, rest)
    ensures q == spent + rest
  {
    q[..|q| - |rest|]
  }

  predicate Ends(q: seq<Moment>, rest: seq<Moment>, end: Option<End>) {
    && Leaves(q, rest)
    && (end.Some? ==> Caused(end.value, Spent(q, rest)))
    && (end == Some(Unfinished) ==> rest == [])
  }

  lemma SpentTogether(q: seq<Moment>, mid: seq<Moment>, rest: seq<Moment>)
    requires Leaves(q, mid) && Leaves(mid, rest)
    ensures Leaves(q, rest) && Spent(q, rest) == Spent(q, mid) + Spent(mid, rest)
  {
  }

  lemma CausedIn(end: End, a: seq<Moment>, b: seq<Moment>)
    ensures Caused(end, a) || Caused(end, b) ==> Caused(end, a + b)
    ensures SomeFinish(a) && SomePass(b) ==> FinishedAndPassed(a + b)
    ensures SomeFinish(a) || SomeFinish(b) ==> SomeFinish(a + b)
    ensures SomePass(a) || SomePass(b) ==> SomePass(a + b)
    ensures SomeBreak(a) || SomeBreak(b) ==> SomeBreak(a + b)
  {
    var c := a + b;
    assert forall i :: 0 <= i < |a| ==> c[i] == a[i];
    assert forall i :: 0 <= i < |b| ==> c[|a| + i] == b[i];
    hide Finishes, Passes, Breaks;
    if SomeFinish(b) {
      var i :| 0 <= i < |b| && Finishes(b[i]);
      assert Finishes(c[|a| + i]);
    }
    if SomePass(b) {
      var i :| 0 <= i < |b| && Passes(b[i]);
      assert Passes(c[|a| + i]);
    }
    if SomeBreak(b) {
      var i :| 0 <= i < |b| && Breaks(b[i]);
      assert Breaks(c[|a| + i]);
    }
    if FinishedAndPassed(b) {
      var i, j :| 0 <= i < j < |b| && Finishes(b[i]) && Passes(b[j]);
      assert Finishes(c[|a| + i]) && Passes(c[|a| + j]);
    }
  }

  /** What ends a later part of a turn ends the turn. */
  lemma EndsLater(q: seq<Moment>, mid: seq<Moment>, rest: seq<Moment>, end: Option<End>)
    requires Leaves(q, mid) && Ends(mid, rest, end)
    ensures Ends(q, rest, end)
  {
    SpentTogether(q, mid, rest);
    if end.Some? {
      CausedIn(end.value, Spent(q, mid), Spent(mid, rest));
    }
    hide Caused;
  }

  lemma NothingSpent(q: seq<Moment>)
    ensures Leaves(q, q) && Ends(q, q, None) && Spent(q, q) == []
  {
  }

  lemma OneSpent(q: seq<Moment>)
    requires q != []
    ensures Leaves(q, q[1..]) && Spent(q, q[1..]) == [q[0]]
    ensures Breaks(q[0]) ==> Ends(q, q[1..], Some(Failed))
    ensures Passes(q[0]) ==> SomePass([q[0]])
    ensures Finishes(q[0]) ==> SomeFinish([q[0]])
  {
    assert [q[0]][0] == q[0];
  }

  // ---- Steps ----

  lemma TryEnds(q: seq<Moment>)
    ensures var (ok, rest) := TryOf(q); Ends(q, rest, if ok then None else Some(Failed))
  {
    NothingSpent(q);
    if q != [] {
      OneSpent(q);
    }
  }

  /** An answer that is not "no" may break the turn. */
  lemma AskEnds(q: seq<Moment>)
    ensures var (n, rest) := AskOf(q); Ends(q, rest, if n == 0 then None else Some(Failed))
  {
    NothingSpent(q);
    if q != [] {
      OneSpent(q);
    }
  }

  /** A command ends a turn by itself, or by a notice that fails. */
  lemma ControlEnd(c: Command, corrections: seq<seq<char>>, heard: bool)
    ensures var end := ControlOf(c, corrections, heard).end;
            && (end == None || end == Some(Cancelled) || end == Some(ShuttingDown) || end == Some(CommandsClosed) || end == Some(Failed))
            && (end == Some(Cancelled) ==> c == Cancel) && (end == Some(ShuttingDown) ==> c == Shutdown)
            && (end == Some(CommandsClosed) ==> c == Closed) && (end == Some(Failed) ==> !heard)
  {
  }

  lemma ControlEnds(c: Command, corrections: seq<seq<char>>, q: seq<Moment>)
    requires q != [] && q[0] == Arrives(c)
    ensures var (after, rest) := ControlStep(c, corrections, q[1..]);
            Ends(q, rest, after.end) && after.end != Some(Complete) && after.end != Some(Unfinished) && |rest| < |q|
  {
    hide ControlOf, Notices, Breaks;
    OneSpent(q);
    ControlEnd(c, corrections, true);
    ControlEnd(c, corrections, false);
    if q[1..] != [] {
      FailsNext(q);
    }
    assert c in [Cancel, Shutdown, Closed] ==> Arrives(c) in Spent(q, q[1..]);
  }

  lemma FailsNext(q: seq<Moment>)
    requires q != [] && q[1..] != []
    ensures Leaves(q, q[1..][1..]) && (q[1..][0].Fails? ==> SomeBreak(Spent(q, q[1..][1..])))
    ensures q[0] in Spent(q, q[1..][1..])
  {
    var spent := Spent(q, q[1..][1..]);
    assert spent[0] == q[0] && spent[1] == q[1..][0];
    assert q[1..][0].Fails? ==> Breaks(spent[1]);
  }

  /** A future that is awaited returns, or else its wait has a cause to end. */
  lemma {:induction false} SelectEnds(q: seq<Moment>, corrections: seq<seq<char>>, tool: Option<nat>, started: bool)
    ensures var w := Select(q, corrections, tool, started);
            && Ends(q, w.rest, EndOf(w.got)) && EndOf(w.got) != Some(Complete)
            && (w.got.Returned? ==> Done(w.got.outcome) in Spent(q, w.rest))
    decreases |q|
  {
    hide ControlStep, Caused, Breaks;
    NothingSpent(q);
    if q != [] && q[0].Arrives? {
      var (after, rest) := ControlStep(q[0].command, corrections, q[1..]);
      ControlEnds(q[0].command, corrections, q);
      if after.end.None? {
        SelectEnds(rest, after.corrections, tool, started);
        var w := Select(rest, after.corrections, tool, started);
        EndsLater(q, rest, w.rest, EndOf(w.got));
        SpentTogether(q, rest, w.rest);
      }
    } else if q != [] {
      OneSpent(q);
      OneBreaks(q[0]);
      if !q[0].Done? && !q[0].Fails? {
        SelectEnds(q[1..], corrections, tool, true);
        var w := Select(q[1..], corrections, tool, true);
        EndsLater(q, q[1..], w.rest, EndOf(w.got));
        SpentTogether(q, q[1..], w.rest);
      }
    } else {
      NoneSpent();
    }
  }

  lemma OneBreaks(m: Moment)
    ensures m.Fails? ==> Breaks(m)
  {
  }

  lemma NoneSpent()
    ensures Ends([], [], Some(Unfinished))
  {
  }

  lemma {:induction false} DrainEnds(q: seq<Moment>, corrections: seq<seq<char>>)
    ensures var (drained, rest) := DrainOf(q, corrections); Ends(q, rest, drained.end) && drained.end != Some(Complete)
    decreases |q|
  {
    hide ControlStep, Caused, Breaks;
    NothingSpent(q);
    if q != [] && q[0].Arrives? {
      var (after, rest) := ControlStep(q[0].command, corrections, q[1..]);
      ControlEnds(q[0].command, corrections, q);
      if after.end.None? {
        DrainEnds(rest, after.corrections);
        var (more, left) := DrainOf(rest, after.corrections);
        EndsLater(q, rest, left, more.end);
      }
    } else if q != [] {
      OneSpent(q);
    }
  }

  lemma PauseEnds(q: seq<Moment>, corrections: seq<seq<char>>)
    ensures var w := Pause(q, corrections);
            && Ends(q, w.rest, EndOf(w.got)) && EndOf(w.got) != Some(Complete)
            && (w.got.Returned? ==> Done(w.got.outcome) in Spent(q, w.rest))
  {
    hide DrainOf, Select, Caused, Spent;
    var (drained, rest) := DrainOf(q, corrections);
    DrainEnds(q, corrections);
    if drained.end.None? {
      SelectEnds(rest, drained.corrections, None, false);
      var w := Select(rest, drained.corrections, None, false);
      EndsLater(q, rest, w.rest, EndOf(w.got));
      SpentTogether(q, rest, w.rest);
    }
  }

  /** Hooks that hold break a turn, and so do calls that are refused. */
  lemma OutcomeBreaks(outcome: Outcome, spent: seq<Moment>)
    requires Done(outcome) in spent
    ensures outcome.hold || outcome.calls != [] ==> SomeBreak(spent)
    ensures !outcome.hold && !outcome.correction ==> SomePass(spent)
    ensures outcome.calls == [] ==> SomeFinish(spent)
  {
    var i :| 0 <= i < |spent| && spent[i] == Done(outcome);
    assert outcome.hold || outcome.calls != [] ==> Breaks(spent[i]);
    assert !outcome.hold && !outcome.correction ==> Passes(spent[i]);
    assert outcome.calls == [] ==> Finishes(spent[i]);
  }

  lemma SubmitEnds(q: seq<Moment>, corrections: seq<seq<char>>)
    ensures var w := Pause(q, corrections); Ends(q, w.rest, SubmitEnd(w.got)) && SubmitEnd(w.got) != Some(Complete)
  {
    var w := Pause(q, corrections);
    PauseEnds(q, corrections);
    if w.got.Returned? {
      OutcomeBreaks(w.got.outcome, Spent(q, w.rest));
    }
    hide Pause, SomeBreak, Spent;
  }

  lemma {:induction false} DeliveryEnds(batch: seq<seq<char>>, q: seq<Moment>, corrections: seq<seq<char>>, history: seq<Message>, prompt: Option<seq<char>>)
    ensures var d := DeliveryOf(batch, q, corrections, history, prompt); Ends(q, d.rest, d.end) && d.end != Some(Complete)
    decreases |batch|
  {
    hide Pause, SubmitEnd, Caused;
    NothingSpent(q);
    if batch != [] {
      var w := Pause(q, corrections);
      SubmitEnds(q, corrections);
      DeliveryStep(batch, q, corrections, history, prompt);
      if SubmitEnd(w.got).None? {
        var longer := history + SaidWith(batch[0], w.got.outcome.context);
        DeliveryEnds(batch[1..], w.rest, w.corrections, longer, Some(batch[0]));
        var d := DeliveryOf(batch[1..], w.rest, w.corrections, longer, Some(batch[0]));
        EndsLater(q, w.rest, d.rest, d.end);
      }
    }
  }

  lemma {:induction false} AllDeliveredEnds(q: seq<Moment>, corrections: seq<seq<char>>, history: seq<Message>, prompt: Option<seq<char>>)
    ensures var d := AllDelivered(q, corrections, history, prompt); Ends(q, d.rest, d.end) && d.end != Some(Complete)
    decreases |q|
  {
    hide DeliveryOf, Caused;
    NothingSpent(q);
    if corrections != [] {
      var d := DeliveryOf(corrections, q, [], history, prompt);
      DeliveryEnds(corrections, q, [], history, prompt);
      DeliveryShrinks(corrections, q, [], history, prompt);
      if d.end.None? {
        AllDeliveredEnds(d.rest, d.corrections, d.history, d.prompt);
        var more := AllDelivered(d.rest, d.corrections, d.history, d.prompt);
        EndsLater(q, d.rest, more.rest, more.end);
      }
    }
  }

  lemma QuietStep(q: seq<Moment>)
    requires q != []
    ensures var (got, rest) := QuietOf(q);
            || (got, rest) == QuietOf(q[1..])
            || (got == Errored && q[1..] != [] && q[1].Fails? && rest == q[2..])
            || (rest == q[1..] && (
                || (q[0].Fails? && got == Errored)
                || (q[0] == Arrives(Cancel) && got == Ended(Cancelled))
                || (q[0] == Arrives(Shutdown) && got == Ended(ShuttingDown))
                || (q[0] == Arrives(Closed) && got == Ended(CommandsClosed))
                || (q[0].Done? && got == Returned(q[0].outcome))))
  {
  }

  lemma {:induction false} QuietEnds(q: seq<Moment>)
    ensures var (got, rest) := QuietOf(q);
            && Ends(q, rest, EndOf(got)) && EndOf(got) != Some(Complete)
            && (got.Returned? ==> Done(got.outcome) in Spent(q, rest))
    decreases |q|
  {
    if q == [] {
      NoneSpent();
    } else {
      hide QuietOf, Ends, Leaves, Spent;
      OneSpent(q);
      QuietEnds(q[1..]);
      var (got, rest) := QuietOf(q[1..]);
      EndsBegin(q[1..], rest, EndOf(got));
      EndsLater(q, q[1..], rest, EndOf(got));
      SpentTogether(q, q[1..], rest);
      QuietStep(q);
      QuietFails(q);
      DoneSpent(q);
    }
  }

  lemma DoneSpent(q: seq<Moment>)
    requires q != []
    ensures Leaves(q, q[1..]) && Ends(q, q[1..], None) && q[0] in Spent(q, q[1..])
  {
    assert Spent(q, q[1..])[0] == q[0];
  }

  lemma QuietFails(q: seq<Moment>)
    requires q != []
    ensures q[1..] != [] && q[1].Fails? ==> Ends(q, q[2..], Some(Failed))
    ensures q[0].Fails? ==> Ends(q, q[1..], Some(Failed))
    ensures q[0] == Arrives(Cancel) ==> Ends(q, q[1..], Some(Cancelled))
    ensures q[0] == Arrives(Shutdown) ==> Ends(q, q[1..], Some(ShuttingDown))
    ensures q[0] == Arrives(Closed) ==> Ends(q, q[1..], Some(CommandsClosed))
  {
    OneSpent(q);
    if q[1..] != [] && q[1].Fails? {
      OneSpent(q[1..]);
      EndsLater(q, q[1..], q[2..], Some(Failed));
    }
  }

  // ---- Parts of a round ----

  /** A part of a turn that has a cause if it ends, and completes nothing. */
  predicate Part(t: Talk, r: Talk) {
    Ends(t.rest, r.rest, r.end) && r.end != Some(Complete)
  }

  lemma PartThen(t: Talk, mid: Talk, r: Talk)
    requires Part(t, mid) && Part(mid, r)
    ensures Part(t, r)
  {
    hide Ends;
    EndsBegin(t.rest, mid.rest, mid.end);
    EndsLater(t.rest, mid.rest, r.rest, r.end);
  }

  lemma EndsBegin(q: seq<Moment>, rest: seq<Moment>, end: Option<End>)
    requires Ends(q, rest, end)
    ensures Leaves(q, rest) && Ends(q, rest, None)
  {
  }

  /** The end of a part may be another one if it has its cause. */
  lemma AskPart(t: Talk)
    ensures var (n, rest) := AskOf(t.rest);
            Part(t, t.(rest := rest, end := None)) && (n != 0 ==> Part(t, t.(rest := rest, end := Some(Failed))))
  {
    AskEnds(t.rest);
    var (n, rest) := AskOf(t.rest);
    EndsBegin(t.rest, rest, if n == 0 then None else Some(Failed));
  }

  lemma TryPart(t: Talk)
    ensures Part(t, Trying(t))
  {
    TryEnds(t.rest);
  }

  lemma DrainPart(t: Talk)
    ensures Part(t, Draining(t))
  {
    hide DrainOf;
    DrainEnds(t.rest, t.corrections);
  }

  lemma AwaitPart(t: Talk)
    ensures Part(t, Awaiting(t))
  {
    hide Select;
    SelectEnds(t.rest, t.corrections, None, false);
  }

  lemma DeliverPart(t: Talk)
    ensures Part(t, Delivering(t))
  {
    hide AllDelivered;
    AllDeliveredEnds(t.rest, t.corrections, t.history, t.prompt);
  }

  /** What is said does not matter for the end. */
  lemma PartOf(t: Talk, t': Talk, r: Talk, r': Talk)
    requires Part(t, r) && t.rest == t'.rest && r.rest == r'.rest && r.end == r'.end
    ensures Part(t', r')
  {
    hide Ends;
  }

  lemma OfferPart(t: Talk)
    ensures Part(t, Offering(t).0) && (Offering(t).0.end.None? || Offering(t).0.end == Some(Failed))
  {
    var tried := Trying(t);
    TryPart(t);
    if tried.end.None? {
      var (context, rest) := AskOf(tried.rest);
      AskPart(tried);
      var asked := tried.(rest := rest);
      hide Part;
      PartThen(t, tried, asked);
      if context != 0 {
        InformPart(asked);
        PartThen(t, asked, Informing(asked));
      }
    }
  }

  lemma InformPart(t: Talk)
    ensures Part(t, Informing(t)) && (Informing(t).end.None? || Informing(t).end == Some(Failed))
  {
    var said := t.(history := t.history + [Said(PLUGIN_CONTEXT)]);
    var saved := Trying(said);
    TryPart(said);
    PartOf(said, t, saved, saved);
    if saved.end.None? {
      TryPart(saved);
      PartThen(t, saved, Trying(saved));
    }
    hide Part;
  }

  // ---- Tools ----

  lemma CallPart(t: Talk)
    requires t.pending != []
    ensures Part(t, Calling(t))
  {
    hide Select, ReceiptOf;
    SelectEnds(t.rest, t.corrections, Some(t.pending[0].id), false);
  }

  lemma ReleasePart(t: Talk, n: nat, before: Talk)
    requires Part(before, t) && (n != 0 ==> Part(before, t.(end := Some(Failed))))
    ensures Part(before, Releasing(t, n))
  {
    hide Part, Trying, Awaiting, Draining;
    var saved := Trying(t);
    TryPart(t);
    PartThen(before, t, saved);
    if saved.end.None? && n == HELD {
      BrokenStill(before, t, saved);
    } else if saved.end.None? {
      var released := Awaiting(saved);
      AwaitPart(saved);
      PartThen(before, saved, released);
      if released.end.None? {
        var drained := Draining(released);
        DrainPart(released);
        PartThen(before, released, drained);
        if drained.end.None? {
          TryPart(drained);
          PartThen(before, drained, Trying(drained));
        }
      }
    }
  }

  /** A cause is not lost. */
  lemma BrokenStill(t: Talk, mid: Talk, r: Talk)
    requires Part(t, mid.(end := Some(Failed))) && Part(mid, r)
    ensures Part(t, r.(end := Some(Failed)))
  {
    var a, b := Spent(t.rest, mid.rest), Spent(mid.rest, r.rest);
    SpentTogether(t.rest, mid.rest, r.rest);
    CausedIn(Failed, a, b);
    hide SomeBreak, Spent;
  }

  lemma ExecutePart(t: Talk)
    requires t.pending != []
    ensures Part(t, Executing(t).0)
  {
    hide Part, Select, ReceiptOf, Receiving, Success;
    var called := Calling(t);
    CallPart(t);
    if called.end.None? {
      ReceivePart(t, called, Success(t));
    }
  }

  lemma ReceivePart(before: Talk, t: Talk, success: bool)
    requires Part(before, t) && t.end.None? && t.pending != []
    ensures Part(before, Receiving(t, success).0)
  {
    hide *;
    ReceivingStep(t, success);
    var tried := Trying(t);
    TryPart(t);
    PartThen(before, t, tried);
    if tried.end.None? {
      var (post, rest) := AskOf(tried.rest);
      AskPart(tried);
      var asked := tried.(rest := rest);
      AnsweringIs(asked, Executed(success));
      var answered := Answering(asked, Executed(success)).(completed := None);
      PartThen(before, tried, asked);
      PartOf(before, before, asked, answered);
      if post != 0 {
        PartThen(before, tried, asked.(end := Some(Failed)));
        PartOf(before, before, asked.(end := Some(Failed)), answered.(end := Some(Failed)));
      }
      ReleasePart(answered, post, before);
    }
  }

  lemma {:induction false} OverrulingEnds(t: Talk)
    ensures Overruling(t).end == t.end
    decreases |t.pending|
  {
    if t.pending != [] {
      AnsweringIs(t, Superseded);
      OverrulingEnds(Answering(t, Superseded));
    }
  }

  lemma {:induction false} RunToolsPart(t: Talk)
    requires t.end.None?
    ensures Part(t, RunningTools(t))
    decreases |t.pending|
  {
    hide Part, Draining, Executing, Overruling, Answering;
    if t.pending == [] {
      SamePart(t);
    } else {
      var drained := Draining(t);
      DrainPart(t);
      DrainingIs(t);
      if drained.end.None? && drained.corrections != [] {
        var answered := Answering(drained, Superseded);
        AnsweringIs(drained, Superseded);
        PartOf(t, t, drained, answered);
        RunToolsPart(answered);
        PartThen(t, answered, RunningTools(answered));
      } else if drained.end.None? {
        var (after, post) := Executing(drained);
        ExecutePart(drained);
        PartThen(t, drained, after);
        if after.end.None? && post == CORRECTED {
          OverrulingEnds(after);
          PartOf(t, t, after, Overruling(after));
        } else if after.end.None? {
          RunToolsPart(after);
          PartThen(t, after, RunningTools(after));
        }
      }
    }
  }

  lemma SamePart(t: Talk)
    requires t.end.None?
    ensures Part(t, t)
  {
    NothingSpent(t.rest);
  }

  // ---- A request ----

  lemma {:induction false} RefuseLeaves(q: seq<Moment>)
    ensures Leaves(q, Refusing(q))
  {
    NothingSpent(q);
    if q != [] && q[0].Arrives? {
      OneSpent(q);
      RefuseLeaves(q[1..]);
      SpentTogether(q, q[1..], Refusing(q[1..]));
    }
  }

  lemma {:induction false} ObserveLeaves(q: seq<Moment>)
    ensures Leaves(q, Observing(q))
  {
    NothingSpent(q);
    if q != [] {
      OneSpent(q);
      RefuseLeaves(q[1..]);
      SpentTogether(q, q[1..], Refusing(q[1..]));
      if !q[0].Done? && !q[0].Fails? {
        ObserveLeaves(q[1..]);
        SpentTogether(q, q[1..], Observing(q[1..]));
      }
    }
  }

  /** A failure stays one, whatever is spent behind it. */
  lemma FailPart(before: Talk, t: Talk)
    requires Part(before, t) && t.end == Some(Failed)
    ensures Part(before, Failing(t).0)
  {
    var (settled, rest) := TryOf(t.rest);
    TryEnds(t.rest);
    FailsStill(before, t, rest);
    var t1 := t.(rest := rest);
    var (other, rest1) := AskOf(rest);
    AskEnds(rest);
    FailsStill(before, t1, rest1);
    var t2 := t.(rest := rest1);
    var (planned, rest2) := AskOf(rest1);
    AskEnds(rest1);
    FailsStill(before, t2, rest2);
    ObserveLeaves(rest2);
    FailsStill(before, t.(rest := rest2), Observing(rest2));
    hide Part, Leaves, Ends;
  }

  lemma FailsStill(before: Talk, t: Talk, rest: seq<Moment>)
    requires Part(before, t) && t.end == Some(Failed) && Leaves(t.rest, rest)
    ensures Part(before, t.(rest := rest))
  {
    SpentTogether(before.rest, t.rest, rest);
    CausedIn(Failed, Spent(before.rest, t.rest), Spent(t.rest, rest));
    hide SomeBreak, Spent;
  }

  /** A response is refused if its admission or its context cannot be settled, or for its calls. */
  lemma RespondPart(before: Talk, t: Talk, calls: seq<ToolCall>, context: nat, enabled: bool)
    requires Part(before, t) && t.end.None?
    requires calls != [] ==> Part(before, t.(end := Some(Failed)))
    ensures var r := Responding(t, calls, context, enabled);
            Part(before, r) && (r.end == None || r.end == Some(Failed))
  {
    hide Part;
    var (settled, rest) := TryOf(t.rest);
    TryPart(t);
    var tried := Trying(t);
    PartThen(before, t, tried);
    if calls != [] {
      BrokenStill(before, t, tried);
    }
    if settled && context != 0 {
      var again := Trying(tried);
      TryPart(tried);
      PartThen(before, tried, again);
      if calls != [] {
        BrokenStill(before, tried, again);
      }
    }
    RespondedAs(before, t, tried, calls, context, enabled);
  }

  lemma RespondedAs(before: Talk, t: Talk, tried: Talk, calls: seq<ToolCall>, context: nat, enabled: bool)
    requires tried == Trying(t) && Part(before, tried) && t.end.None?
    requires calls != [] ==> Part(before, tried.(end := Some(Failed)))
    requires tried.end.None? && context != 0 ==> Part(before, Trying(tried)) && (calls != [] ==> Part(before, Trying(tried).(end := Some(Failed))))
    ensures var r := Responding(t, calls, context, enabled);
            Part(before, r) && (r.end == None || r.end == Some(Failed))
  {
    hide Ends;
  }

  lemma RequestPart(t: Talk, enabled: bool)
    requires t.end.None?
    ensures var r := Requesting(t, enabled);
            && Part(t, r.talk) && (r.finished && r.talk.end.None? ==> SomeFinish(Spent(t.rest, r.talk.rest)))
  {
    var (offered, context) := Offering(t);
    OfferPart(t);
    if offered.end.None? {
      AskedPart(t, offered, context, enabled);
    }
  }

  lemma AskedPart(t: Talk, offered: Talk, context: nat, enabled: bool)
    requires Offering(t) == (offered, context) && offered.end.None? && Part(t, offered)
    ensures var r := Requesting(t, enabled);
            && Part(t, r.talk) && (r.finished && r.talk.end.None? ==> SomeFinish(Spent(t.rest, r.talk.rest)))
  {
    hide Part, Offering, Select, Failing, Responding, SomeFinish, SomeBreak, Leaves, Spent;
    var asked := Awaiting(offered);
    AwaitPart(offered);
    PartThen(t, offered, asked);
    SelectEnds(offered.rest, offered.corrections, None, false);
    var got := Select(offered.rest, offered.corrections, None, false).got;
    if got.Errored? {
      FailPart(t, asked);
    } else if asked.end.None? {
      var calls := got.outcome.calls;
      OutcomeBreaks(got.outcome, Spent(offered.rest, asked.rest));
      if calls != [] {
        BrokenPart(t, offered, asked);
      }
      RespondPart(t, asked, calls, context, enabled);
      var r := Responding(asked, calls, context, enabled);
      if calls == [] {
        RespondPart(asked, asked, calls, context, enabled) by {
          SamePart(asked);
        }
        FinishIn(t, offered, asked, r);
      }
    }
  }

  lemma BrokenPart(t: Talk, mid: Talk, r: Talk)
    requires Part(t, mid) && Part(mid, r) && SomeBreak(Spent(mid.rest, r.rest))
    ensures Part(t, r.(end := Some(Failed)))
  {
    SpentTogether(t.rest, mid.rest, r.rest);
    CausedIn(Failed, Spent(t.rest, mid.rest), Spent(mid.rest, r.rest));
    hide SomeBreak, Spent;
  }

  lemma FinishIn(t: Talk, offered: Talk, asked: Talk, r: Talk)
    requires Part(t, offered) && Part(offered, asked) && Part(asked, r)
    requires SomeFinish(Spent(offered.rest, asked.rest))
    ensures SomeFinish(Spent(t.rest, r.rest))
  {
    SpentTogether(t.rest, offered.rest, asked.rest);
    SpentTogether(t.rest, asked.rest, r.rest);
    CausedIn(Failed, Spent(t.rest, offered.rest), Spent(offered.rest, asked.rest));
    CausedIn(Failed, Spent(t.rest, asked.rest), Spent(asked.rest, r.rest));
    hide SomeFinish, SomeBreak, Spent;
  }

  // ---- A round ----

  lemma QuietPart(t: Talk)
    ensures var (got, rest) := QuietOf(t.rest);
            && Part(t, t.(rest := rest, end := EndOf(got)))
            && (got.Returned? && got.outcome.hold ==> Part(t, t.(rest := rest, end := Some(Failed))))
  {
    QuietEnds(t.rest);
    var (got, rest) := QuietOf(t.rest);
    if got.Returned? {
      OutcomeBreaks(got.outcome, Spent(t.rest, rest));
    }
    hide SomeBreak, Spent, QuietOf;
  }

  lemma ResumePart(t: Talk)
    ensures Part(t, Resuming(t))
  {
    hide Part, QuietOf;
    QuietPart(t);
    var (got, rest) := QuietOf(t.rest);
    if got.Returned? && !got.outcome.hold {
      var quiet := t.(rest := rest, end := None);
      var tried := Trying(t.(rest := rest));
      TryPart(quiet);
      PartThen(t, quiet, tried);
      if tried.end.None? {
        var said := if got.outcome.correction || got.outcome.context then tried.(history := tried.history + [Said(PLUGIN_CONTEXT)]) else tried;
        PartOf(t, t, tried, said);
        TryPart(said);
        PartThen(t, said, Trying(said));
      }
    }
  }

  /** A compaction that is called for can always fail. */
  lemma CompactPart(before: Talk, t: Talk)
    requires Part(before, t) && t.end.None? && Part(before, t.(end := Some(Failed)))
    ensures Part(before, Compacting(t))
  {
    hide Part, QuietOf, Summarised, Tail, Resuming;
    if Tail(t.history).Some? && t.prompt.Some? {
      QuietPart(t);
      var (got, rest) := QuietOf(t.rest);
      var quiet := t.(rest := rest, end := EndOf(got));
      PartThen(before, t, quiet);
      if got.Returned? {
        BrokenStill(before, t, quiet);
        var (objective, rest1) := AskOf(rest);
        AskPart(quiet);
        var asked := quiet.(rest := rest1, end := None);
        PartThen(before, quiet, asked);
        BrokenStill(before, quiet, asked);
        InstallPart(before, t, asked, objective);
      }
    }
  }

  lemma InstallPart(before: Talk, t: Talk, asked: Talk, objective: nat)
    requires Part(before, asked) && Part(before, asked.(end := Some(Failed))) && asked.end.None?
    requires Tail(t.history).Some? && t.prompt.Some?
    requires var (got, rest) := QuietOf(t.rest); got.Returned? && AskOf(rest) == (objective, asked.rest) && asked == t.(rest := asked.rest, end := None)
    ensures Part(before, Compacting(t))
  {
    hide Part, QuietOf, Summarised, Tail, Resuming, AskOf;
    var (ok, rest) := TryOf(asked.rest);
    TryPart(asked);
    var tried := Trying(asked);
    PartThen(before, asked, tried);
    var replaced := t.(history := Summarised(t.history, t.prompt.value, objective != 0), rest := rest);
    if ok {
      PartOf(before, before, tried, replaced.(end := None));
      ResumePart(replaced.(end := None));
      ResumedAs(replaced);
      PartThen(before, replaced.(end := None), Resuming(replaced.(end := None)));
    } else {
      var (installed, rest1) := AskOf(rest);
      AskEnds(rest);
      EndsBegin(rest, rest1, if installed == 0 then None else Some(Failed));
      FailsStill(before, tried, rest1);
      PartOf(before, before, tried.(rest := rest1), (if installed != 0 then replaced else t).(rest := rest1, end := Some(Failed)));
    }
  }

  lemma ResumedAs(t: Talk)
    ensures Resuming(t.(end := None)) == Resuming(t)
  {
    hide QuietOf;
  }

  lemma RoomPart(before: Talk, t: Talk)
    requires Part(before, t) && t.end.None?
    ensures Part(before, MakingRoom(t))
  {
    hide Part, Compacting;
    var (large, rest) := AskOf(t.rest);
    AskPart(t);
    var asked := t.(rest := rest, end := None);
    assert asked == t.(rest := rest);
    PartThen(before, t, asked);
    if large != 0 {
      PartThen(before, t, t.(rest := rest, end := Some(Failed)));
      CompactPart(before, asked);
    }
  }

  lemma PreparePart(t: Talk)
    ensures Part(t, Preparing(t))
  {
    hide Part, DrainOf, AllDelivered, MakingRoom, Offering;
    var drained := Draining(t);
    DrainPart(t);
    if drained.end.None? {
      var delivered := Delivering(drained);
      DeliverPart(drained);
      PartThen(t, drained, delivered);
      if delivered.end.None? {
        RoomPart(t, delivered);
        var compacted := MakingRoom(delivered);
        if compacted.end.None? {
          OfferPart(compacted);
          PartThen(t, compacted, Offering(compacted).0);
        }
      }
    }
  }

  /** The turn is complete if and only if the hooks neither hold it nor ask for a correction,
      nothing that has arrived ends it, and no correction waits. */
  lemma CompletesIff(t: Talk)
    ensures var w := Pause(t.rest, t.corrections);
            var drained := DrainOf(w.rest, w.corrections).0;
            StopGate(t).end == Some(Complete) <==>
            w.got.Returned? && drained.end.None? && !w.got.outcome.hold && !w.got.outcome.correction && drained.corrections == []
    ensures StopGate(t).end == Some(Complete) ==> StopGate(t).corrections == []
  {
    hide Pause, DrainOf, Ends, Spent;
    var w := Pause(t.rest, t.corrections);
    PauseEnds(t.rest, t.corrections);
    DrainEnds(w.rest, w.corrections);
  }

  /** The end of a turn that stops: the hooks have let it pass. */
  lemma StopEnds(t: Talk)
    ensures var r := StopGate(t); if r.end == Some(Complete) then Leaves(t.rest, r.rest) && SomePass(Spent(t.rest, r.rest)) else Part(t, r)
  {
    hide Pause, DrainOf, SomePass, SomeBreak, Spent;
    var w := Pause(t.rest, t.corrections);
    PauseEnds(t.rest, t.corrections);
    var paused := Pausing(t);
    if paused.end.None? {
      OutcomeBreaks(w.got.outcome, Spent(t.rest, paused.rest));
      var drained := Draining(paused);
      DrainPart(paused);
      PartThen(t, paused, drained);
      if drained.end.None? {
        SpentTogether(t.rest, paused.rest, drained.rest);
        CausedIn(Failed, Spent(t.rest, paused.rest), Spent(paused.rest, drained.rest));
        StoppedAs(t, paused, drained, w.got.outcome);
      }
    }
  }

  lemma StoppedAs(t: Talk, paused: Talk, drained: Talk, outcome: Outcome)
    requires paused == Pausing(t) && drained == Draining(paused) && paused.end.None? && drained.end.None? && Part(t, drained)
    requires Pause(t.rest, t.corrections).got == Returned(outcome)
    requires outcome.hold ==> SomeBreak(Spent(t.rest, drained.rest))
    requires !outcome.hold && !outcome.correction ==> SomePass(Spent(t.rest, drained.rest))
    ensures var r := StopGate(t); if r.end == Some(Complete) then Leaves(t.rest, r.rest) && SomePass(Spent(t.rest, r.rest)) else Part(t, r)
  {
    hide Pausing, Draining, Pause, SomePass, SomeBreak, Spent;
    if !outcome.hold && outcome.correction {
      var tried := Trying(drained);
      TryPart(drained);
      PartThen(t, drained, tried);
      if tried.end.None? {
        var said := tried.(history := tried.history + [Said(PLUGIN_CONTEXT)]);
        PartOf(t, t, tried, said);
        TryPart(said);
        PartThen(t, said, Trying(said));
      }
    }
  }

  lemma ConcludeEnds(t: Talk, finished: bool)
    ensures var r := Concluding(t, finished);
            if r.end == Some(Complete) then finished && Leaves(t.rest, r.rest) && SomePass(Spent(t.rest, r.rest)) else Part(t, r)
  {
    hide Part, Offering, Delivering, StopGate, SomePass, Spent, Leaves;
    var (observed, context) := Offering(t);
    OfferPart(t);
    if observed.end.None? {
      var delivered := Delivering(observed);
      DeliverPart(observed);
      PartThen(t, observed, delivered);
      PartEnds(t, delivered);
      if delivered.end.None? {
        var saved := Trying(delivered);
        TryPart(delivered);
        PartThen(t, delivered, saved);
        if saved.end.None? {
          StopEnds(saved);
          PartOrPass(t, saved, StopGate(saved));
        }
      }
    }
  }

  lemma PartOrPass(t: Talk, mid: Talk, r: Talk)
    requires Part(t, mid)
    requires if r.end == Some(Complete) then Leaves(mid.rest, r.rest) && SomePass(Spent(mid.rest, r.rest)) else Part(mid, r)
    ensures if r.end == Some(Complete) then Leaves(t.rest, r.rest) && SomePass(Spent(t.rest, r.rest)) else Part(t, r)
  {
    if r.end == Some(Complete) {
      SpentTogether(t.rest, mid.rest, r.rest);
      CausedIn(Failed, Spent(t.rest, mid.rest), Spent(mid.rest, r.rest));
    } else {
      PartThen(t, mid, r);
    }
    hide SomePass, SomeBreak, Spent, Ends;
  }

  lemma RoundEnds(t: Talk, enabled: bool)
    ensures Ends(t.rest, Round(t, enabled).0.rest, Round(t, enabled).0.end)
  {
    hide Part, Ends, Preparing, Requesting, RunningTools, Concluding, SomeFinish, SomePass, Spent, Leaves;
    var prepared := Preparing(t);
    PreparePart(t);
    PartEnds(t, prepared);
    if prepared.end.None? {
      var asked := Requesting(prepared, enabled);
      RequestPart(prepared, enabled);
      PartThen(t, prepared, asked.talk);
      PartEnds(t, asked.talk);
      if asked.talk.end.None? {
        var saved := Trying(asked.talk);
        TryPart(asked.talk);
        PartThen(t, asked.talk, saved);
        PartEnds(t, saved);
        if saved.end.None? {
          var run := RunningTools(saved);
          RunToolsPart(saved);
          PartThen(t, saved, run);
          PartEnds(t, run);
          if run.end.None? {
            PartThen(asked.talk, saved, run);
            ConcludeEnds(run, asked.finished);
            RoundCompletes(t, prepared, asked, run);
          }
        }
      }
    }
  }

  lemma PartEnds(t: Talk, r: Talk)
    requires Part(t, r)
    ensures Ends(t.rest, r.rest, r.end) && r.end != Some(Complete)
  {
  }

  lemma RoundCompletes(t: Talk, prepared: Talk, asked: Request, run: Talk)
    requires Part(t, prepared) && Part(prepared, asked.talk) && Part(asked.talk, run)
    requires asked.finished ==> SomeFinish(Spent(prepared.rest, asked.talk.rest))
    requires var r := Concluding(run, asked.finished);
             if r.end == Some(Complete) then asked.finished && Leaves(run.rest, r.rest) && SomePass(Spent(run.rest, r.rest)) else Part(run, r)
    ensures var r := Concluding(run, asked.finished); Ends(t.rest, r.rest, r.end)
  {
    hide Concluding, SomeFinish, SomePass, FinishedAndPassed, Spent;
    var r := Concluding(run, asked.finished);
    PartThen(t, prepared, asked.talk);
    PartThen(t, asked.talk, run);
    if r.end == Some(Complete) {
      SpentTogether(asked.talk.rest, run.rest, r.rest);
      CausedIn(Complete, Spent(asked.talk.rest, run.rest), Spent(run.rest, r.rest));
      SpentTogether(prepared.rest, asked.talk.rest, r.rest);
      CausedIn(Complete, Spent(prepared.rest, asked.talk.rest), Spent(asked.talk.rest, r.rest));
      EndsLater(t.rest, prepared.rest, r.rest, Some(Complete));
    } else {
      PartThen(t, run, r);
    }
  }

  lemma {:induction false} RoundsEnd(t: Talk, enabled: bool)
    ensures Ends(t.rest, Rounds(t, enabled).0.rest, Rounds(t, enabled).0.end)
    decreases |t.rest|
  {
    hide Ends, Round;
    RoundEnds(t, enabled);
    RoundsStep(t, enabled);
    var after := Round(t, enabled).0;
    if after.end.None? {
      EndsBegin(t.rest, after.rest, after.end);
      RoundsEnd(after, enabled);
      EndsLater(t.rest, after.rest, Rounds(after, enabled).0.rest, Rounds(after, enabled).0.end);
    }
  }

  // ---- A turn ----

  lemma OpenPart(t: Talk, prompt: seq<char>, plugin: bool)
    ensures Part(t, Opening(t, prompt, plugin))
  {
    hide Pause, Part;
    if plugin {
      TryPart(t.(history := t.history + [Said(prompt)]));
      PartOf(t.(history := t.history + [Said(prompt)]), t, Opening(t, prompt, plugin), Opening(t, prompt, plugin));
    } else {
      var w := Pause(t.rest, t.corrections);
      SubmitEnds(t.rest, t.corrections);
      var paused := t.(corrections := w.corrections, rest := w.rest, end := SubmitEnd(w.got));
      PartIs(t, paused);
      if paused.end.None? {
        var said := paused.(history := t.history + SaidWith(prompt, w.got.outcome.context), prompt := Some(prompt));
        PartOf(t, t, paused, said);
        TryPart(said);
        PartThen(t, said, Trying(said));
      }
    }
  }

  lemma PartIs(t: Talk, r: Talk)
    requires Ends(t.rest, r.rest, r.end) && r.end != Some(Complete)
    ensures Part(t, r)
  {
  }

  lemma RunEnds(t: Talk, prompt: seq<char>, plugin: bool, enabled: bool)
    ensures var r := Running(t, prompt, plugin, enabled).0; Ends(t.rest, r.rest, r.end)
  {
    hide Ends, Opening, Rounds;
    var begun := Opening(t.(corrections := [], batch := []), prompt, plugin);
    OpenPart(t.(corrections := [], batch := []), prompt, plugin);
    PartEnds(t.(corrections := [], batch := []), begun);
    if begun.end.None? {
      EndsBegin(t.rest, begun.rest, None);
      RoundsEnd(begun, enabled);
      EndsLater(t.rest, begun.rest, Rounds(begun, enabled).0.rest, Rounds(begun, enabled).0.end);
    }
  }

  /** The end of a turn stands, unless what is done behind it fails. */
  lemma CloseEnds(q: seq<Moment>, t: Talk, end: End, providerFailed: bool)
    requires Leaves(q, t.rest) && Caused(end, Spent(q, t.rest)) && end != Unfinished
    ensures var r := Closing(t, end, providerFailed); Leaves(q, r.rest) && Caused(r.end.value, Spent(q, r.rest)) && r.end != Some(Unfinished)
  {
    hide Caused, Spent, Leaves;
    TriedStill(q, t, end);
    var (closed, rest) := if end == Complete then (true, t.rest) else TryOf(t.rest);
    TriedStill(q, t.(rest := rest), end);
  }

  lemma TriedStill(q: seq<Moment>, t: Talk, end: End)
    requires Leaves(q, t.rest) && Caused(end, Spent(q, t.rest))
    ensures var r := Trying(t); Leaves(q, r.rest) && Caused(end, Spent(q, r.rest)) && (r.end.Some? ==> r.end == Some(Failed) && Caused(Failed, Spent(q, r.rest)))
  {
    TryEnds(t.rest);
    var r := Trying(t);
    SpentTogether(q, t.rest, r.rest);
    CausedIn(end, Spent(q, t.rest), Spent(t.rest, r.rest));
    CausedIn(Failed, Spent(q, t.rest), Spent(t.rest, r.rest));
    hide Caused, Spent;
  }

  /** Every turn ends as something says that has happened meanwhile: it is complete only if the
      model has answered without calls and the hooks have let it stop behind that; it is cancelled
      or shut down only by such a command; it fails only if a call fails, hooks hold, a response
      has calls, or the runtime has said that a result is held or the conversation large; and it
      is unfinished only if nothing happens any more. */
  lemma TurnHasCause(t: Talk, prompt: seq<char>, plugin: bool, enabled: bool)
    ensures var r := Turn(t, prompt, plugin, enabled); Ends(t.rest, r.rest, r.end)
  {
    hide Running, Closing, Caused;
    var begun := Trying(t);
    TryEnds(t.rest);
    if begun.end.Some? {
      CloseEnds(t.rest, begun.(end := None), Failed, false);
    } else {
      var (run, providerFailed) := Running(begun, prompt, plugin, enabled);
      RunEnds(begun, prompt, plugin, enabled);
      EndsLater(t.rest, begun.rest, run.rest, run.end);
      if run.end != Some(Unfinished) {
        var noted := Trying(run);
        TriedStill(t.rest, run, run.end.value);
        CloseEnds(t.rest, noted.(end := None), if noted.end.Some? && !providerFailed then Failed else run.end.value, providerFailed);
      }
    }
  }
}
