/** The monitor of Claude SDK callbacks. A delivered callback is pending until a response starts
    or the turn reports its result; a result comes only behind a Stop that was let through. */
module ClaudeCallbacks {
  import opened Utf8

  const MAX_REQUESTS: nat := 1024
  const MAX_TEXT: nat := 65536

  datatype Verdict = Allowed | Corrected | Held

  /** What happens in a turn, as far as the order of callbacks is concerned. An operation is
      there if the plugins had something to do. */
  datatype Symbol =
    | Submitted(operation: Option<nat>)
    | Batched(operation: Option<nat>, held: bool)
    | StopAsked(operation: Option<nat>, verdict: Verdict, active: bool, last: Option<seq<char>>)
    | ResponseStarted(internal: bool)
    | ResponseEnded(text: Option<seq<char>>)
    | Finished

  predicate IsCallback(s: Symbol) {
    s.Submitted? || s.Batched? || s.StopAsked?
  }

  predicate Acknowledges(s: Symbol) {
    s.ResponseStarted? || s.Finished?
  }

  datatype Flags = Flags(
    submitted: bool, assistant: bool, text: Option<seq<char>>, responseOpen: bool, accepted: bool,
    awaitingCorrection: bool, awaitingBatch: bool, pending: Option<nat>, corrections: nat)

  const FRESH := Flags(false, false, None, false, false, false, false, None, 0)

  // ---- The flags ----

  predicate Allows(f: Flags, s: Symbol) {
    match s
    case Submitted(_) => f.pending.None? && !f.accepted && !f.submitted
    case Batched(operation, held) =>
      f.pending.None? && !f.accepted && f.submitted && f.assistant && !f.responseOpen && (held ==> operation.Some?)
    case StopAsked(operation, verdict, active, last) =>
      f.pending.None? && !f.accepted && f.submitted && f.assistant && !f.awaitingCorrection
      && last == f.text && active == (f.corrections > 0) && (!verdict.Allowed? ==> operation.Some?)
    case ResponseStarted(internal) =>
      f.submitted && !f.accepted && !f.responseOpen && (internal ==> (f.awaitingCorrection || f.awaitingBatch) && f.pending.Some?)
    case ResponseEnded(_) => f.responseOpen
    case Finished => f.submitted && f.accepted && !f.awaitingCorrection
  }

  function Next(f: Flags, s: Symbol): Flags {
    match s
    case Submitted(operation) => f.(submitted := true, pending := operation, awaitingBatch := false)
    case Batched(operation, held) => if held then f.(pending := operation) else f.(pending := operation, awaitingBatch := operation.Some?)
    case StopAsked(operation, verdict, _, _) =>
      if verdict.Held? then f.(pending := operation)
      else if verdict.Corrected? then
        f.(pending := operation, corrections := f.corrections + 1, awaitingCorrection := true, assistant := false, awaitingBatch := false)
      else f.(pending := operation, accepted := true, awaitingBatch := false)
    case ResponseStarted(_) =>
      f.(assistant := false, text := None, responseOpen := true, awaitingCorrection := false, awaitingBatch := false, pending := None)
    case ResponseEnded(text) => f.(responseOpen := false, assistant := true, text := text)
    case Finished => f.(pending := None)
  }

  function Machine(trace: seq<Symbol>): Option<Flags> {
    if trace == [] then Some(FRESH)
    else
      var f := Machine(trace[..|trace| - 1]);
      if f.Some? && Allows(f.value, trace[|trace| - 1]) then Some(Next(f.value, trace[|trace| - 1])) else None
  }

  lemma MachineMore(trace: seq<Symbol>, s: Symbol)
    ensures Machine(trace + [s]) ==
            var f := Machine(trace);
            if f.Some? && Allows(f.value, s) then Some(Next(f.value, s)) else None
  {
    assert (trace + [s])[..|trace + [s]| - 1] == trace;
  }

  // ---- The grammar ----

  /** What sends the model back to work: a batch of tools, or a Stop that was not let through. */
  datatype Ender = AfterBatch(operation: nat, held: bool) | AfterStop(operation: nat, corrected: bool)

  /** A response, batches nobody had anything to say about, and what ended the exchange. */
  datatype Exchange = Exchange(internal: bool, text: Option<seq<char>>, quiet: nat, ender: Option<Ender>)

  function Corrections(exchanges: seq<Exchange>): nat {
    if exchanges == [] then 0
    else
      var ender := exchanges[|exchanges| - 1].ender;
      Corrections(exchanges[..|exchanges| - 1]) + if ender.Some? && ender.value.AfterStop? && ender.value.corrected then 1 else 0
  }

  function Quiet(n: nat): seq<Symbol> {
    seq(n, _ => Batched(None, false))
  }

  function RenderExchange(x: Exchange, active: bool): seq<Symbol> {
    [ResponseStarted(x.internal), ResponseEnded(x.text)] + Quiet(x.quiet)
    + match x.ender
      case None => []
      case Some(AfterBatch(operation, held)) => [Batched(Some(operation), held)]
      case Some(AfterStop(operation, corrected)) => [StopAsked(Some(operation), if corrected then Corrected else Held, active, x.text)]
  }

  function RenderAll(exchanges: seq<Exchange>): seq<Symbol> {
    if exchanges == [] then []
    else
      var before := exchanges[..|exchanges| - 1];
      RenderAll(before) + RenderExchange(exchanges[|exchanges| - 1], Corrections(before) > 0)
  }

  /** A response without a command identity of its own continues a batch or a correction. */
  predicate MayBeInternal(exchanges: seq<Exchange>) {
    exchanges != []
    && match exchanges[|exchanges| - 1].ender
       case None => false
       case Some(AfterBatch(_, held)) => !held
       case Some(AfterStop(_, corrected)) => corrected
  }

  predicate Continued(exchanges: seq<Exchange>) {
    exchanges != [] ==>
      (exchanges[|exchanges| - 1].internal ==> MayBeInternal(exchanges[..|exchanges| - 1])) && Continued(exchanges[..|exchanges| - 1])
  }

  /** How far a turn has come. */
  datatype Shape =
    | Opening
    | Working(submission: Option<nat>, exchanges: seq<Exchange>, started: Option<bool>)
    | Over(submission: Option<nat>, exchanges: seq<Exchange>, operation: Option<nat>, results: nat)

  predicate WellFormed(shape: Shape) {
    match shape
    case Opening => true
    case Working(_, exchanges, started) => Continued(exchanges) && (started == Some(true) ==> MayBeInternal(exchanges))
    case Over(_, exchanges, _, _) => Continued(exchanges) && exchanges != [] && exchanges[|exchanges| - 1].ender.None?
  }

  function Results(n: nat): seq<Symbol> {
    seq(n, _ => Finished)
  }

  function LastText(exchanges: seq<Exchange>): Option<seq<char>> {
    if exchanges == [] then None else exchanges[|exchanges| - 1].text
  }

  /** A turn: the submission, exchanges, a Stop that was let through, and then only results. */
  function Render(shape: Shape): seq<Symbol> {
    match shape
    case Opening => []
    case Working(submission, exchanges, started) =>
      [Submitted(submission)] + RenderAll(exchanges) + if started.Some? then [ResponseStarted(started.value)] else []
    case Over(submission, exchanges, operation, results) =>
      [Submitted(submission)] + RenderAll(exchanges)
      + [StopAsked(operation, Allowed, Corrections(exchanges) > 0, LastText(exchanges))] + Results(results)
  }

  // ---- The flags accept exactly the grammar ----

  function FlagsOf(shape: Shape): Flags {
    match shape
    case Opening => FRESH
    case Working(submission, exchanges, started) =>
      if started.Some? then Flags(true, false, None, true, false, false, false, None, Corrections(exchanges))
      else if exchanges == [] then FRESH.(submitted := true, pending := submission)
      else
        var last := exchanges[|exchanges| - 1];
        (match last.ender
         case None => Flags(true, true, last.text, false, false, false, false, None, Corrections(exchanges))
         case Some(AfterBatch(operation, held)) =>
           Flags(true, true, last.text, false, false, false, !held, Some(operation), Corrections(exchanges))
         case Some(AfterStop(operation, corrected)) =>
           Flags(true, !corrected, last.text, false, false, corrected, false, Some(operation), Corrections(exchanges)))
    case Over(_, exchanges, operation, results) =>
      Flags(true, true, LastText(exchanges), false, true, false, false, if results > 0 then None else operation, Corrections(exchanges))
  }

  function WithLast(exchanges: seq<Exchange>, last: Exchange): seq<Exchange>
    requires exchanges != []
  {
    exchanges[..|exchanges| - 1] + [last]
  }

  function Extend(shape: Shape, s: Symbol): Shape
    requires WellFormed(shape) && Allows(FlagsOf(shape), s)
  {
    match shape
    case Opening => Working(s.operation, [], None)
    case Working(submission, exchanges, started) =>
      if started.Some? then Working(submission, exchanges + [Exchange(started.value, s.text, 0, None)], None)
      else if s.ResponseStarted? then Working(submission, exchanges, Some(s.internal))
      else
        var last := exchanges[|exchanges| - 1];
        if s.Batched? then
          Working(submission, WithLast(exchanges, if s.operation.None? then last.(quiet := last.quiet + 1) else last.(ender := Some(AfterBatch(s.operation.value, s.held)))), None)
        else if s.verdict.Allowed? then Over(submission, exchanges, s.operation, 0)
        else Working(submission, WithLast(exchanges, last.(ender := Some(AfterStop(s.operation.value, s.verdict.Corrected?)))), None)
    case Over(submission, exchanges, operation, results) => Over(submission, exchanges, operation, results + 1)
  }

  lemma LastReplaced(exchanges: seq<Exchange>, last: Exchange)
    requires exchanges != []
    ensures var next := WithLast(exchanges, last);
            && next != [] && next[|next| - 1] == last && next[..|next| - 1] == exchanges[..|exchanges| - 1]
  {
  }

  lemma OneMore(exchanges: seq<Exchange>, x: Exchange)
    ensures (exchanges + [x])[..|exchanges + [x]| - 1] == exchanges
    ensures RenderAll(exchanges + [x]) == RenderAll(exchanges) + RenderExchange(x, Corrections(exchanges) > 0)
    ensures Continued(exchanges + [x]) <==> Continued(exchanges) && (x.internal ==> MayBeInternal(exchanges))
    ensures Corrections(exchanges + [x]) ==
            Corrections(exchanges) + if x.ender.Some? && x.ender.value.AfterStop? && x.ender.value.corrected then 1 else 0
  {
    assert (exchanges + [x])[..|exchanges + [x]| - 1] == exchanges;
  }

  lemma ExtendKeeps(shape: Shape, s: Symbol)
    requires WellFormed(shape) && Allows(FlagsOf(shape), s)
    ensures WellFormed(Extend(shape, s))
    ensures FlagsOf(Extend(shape, s)) == Next(FlagsOf(shape), s)
  {
    match shape {
      case Opening =>
        NothingYet();
        hide Continued, Corrections, MayBeInternal;
      case Working(_, _, _) =>
        if shape.started.Some? || s.ResponseStarted? {
          StartKeeps(shape, s);
        } else {
          FollowerKeeps(shape, s);
        }
      case Over(_, _, _, _) =>
        hide Continued, Corrections, MayBeInternal;
    }
  }

  lemma NothingYet()
    ensures Continued([]) && Corrections([]) == 0 && !MayBeInternal([])
  {
  }

  lemma StartKeeps(shape: Shape, s: Symbol)
    requires WellFormed(shape) && Allows(FlagsOf(shape), s) && shape.Working? && (shape.started.Some? || s.ResponseStarted?)
    ensures WellFormed(Extend(shape, s))
    ensures FlagsOf(Extend(shape, s)) == Next(FlagsOf(shape), s)
  {
    if shape.started.Some? {
      OneMore(shape.exchanges, Exchange(shape.started.value, s.text, 0, None));
    }
    hide Continued, Corrections, RenderAll;
  }

  lemma FollowerKeeps(shape: Shape, s: Symbol)
    requires WellFormed(shape) && Allows(FlagsOf(shape), s) && shape.Working? && shape.started.None? && !s.ResponseStarted?
    ensures WellFormed(Extend(shape, s))
    ensures FlagsOf(Extend(shape, s)) == Next(FlagsOf(shape), s)
  {
    hide Continued, Corrections, RenderAll, MayBeInternal;
    var before, last := shape.exchanges[..|shape.exchanges| - 1], shape.exchanges[|shape.exchanges| - 1];
    assert shape.exchanges == before + [last];
    OneMore(before, last);
    if s.Batched? {
      OneMore(before, if s.operation.None? then last.(quiet := last.quiet + 1) else last.(ender := Some(AfterBatch(s.operation.value, s.held))));
    } else if !s.verdict.Allowed? {
      OneMore(before, last.(ender := Some(AfterStop(s.operation.value, s.verdict.Corrected?))));
    }
  }

  lemma ExtendRenders(shape: Shape, s: Symbol)
    requires WellFormed(shape) && Allows(FlagsOf(shape), s)
    ensures Render(Extend(shape, s)) == Render(shape) + [s]
  {
    match shape {
      case Opening =>
        assert RenderAll([]) == [];
      case Working(_, exchanges, started) =>
        if started.Some? || s.ResponseStarted? {
          StartRenders(shape, s);
        } else {
          FollowerRenders(shape, s);
        }
      case Over(_, _, _, results) =>
        assert Results(results + 1) == Results(results) + [Finished];
    }
  }

  lemma StartRenders(shape: Shape, s: Symbol)
    requires WellFormed(shape) && Allows(FlagsOf(shape), s) && shape.Working? && (shape.started.Some? || s.ResponseStarted?)
    ensures Render(Extend(shape, s)) == Render(shape) + [s]
  {
    hide WellFormed, Allows, RenderAll;
    if shape.started.Some? {
      OpenOnlyEnds(shape, s);
      EndedRenders(shape.submission, shape.exchanges, shape.started.value, s.text);
      hide Render;
    }
    hide FlagsOf;
  }

  lemma OpenOnlyEnds(shape: Shape, s: Symbol)
    requires WellFormed(shape) && Allows(FlagsOf(shape), s) && shape.Working? && shape.started.Some?
    ensures s.ResponseEnded?
  {
    hide Continued, MayBeInternal, Corrections;
  }

  lemma EndedRenders(submission: Option<nat>, exchanges: seq<Exchange>, internal: bool, text: Option<seq<char>>)
    ensures Render(Working(submission, exchanges + [Exchange(internal, text, 0, None)], None)) ==
            Render(Working(submission, exchanges, Some(internal))) + [ResponseEnded(text)]
  {
    var x := Exchange(internal, text, 0, None);
    OneMore(exchanges, x);
    JustRenders(internal, text, Corrections(exchanges) > 0);
    var before, rendered := RenderAll(exchanges), RenderAll(exchanges + [x]);
    assert rendered == before + [ResponseStarted(internal), ResponseEnded(text)];
    hide RenderAll, RenderExchange, Corrections, Continued, MayBeInternal;
    assert [Submitted(submission)] + rendered + [] == [Submitted(submission)] + before + [ResponseStarted(internal)] + [ResponseEnded(text)];
  }

  lemma JustRenders(internal: bool, text: Option<seq<char>>, active: bool)
    ensures RenderExchange(Exchange(internal, text, 0, None), active) == [ResponseStarted(internal), ResponseEnded(text)]
  {
    assert Quiet(0) == [];
  }

  lemma FollowerRenders(shape: Shape, s: Symbol)
    requires WellFormed(shape) && Allows(FlagsOf(shape), s) && shape.Working? && shape.started.None? && !s.ResponseStarted?
    ensures Render(Extend(shape, s)) == Render(shape) + [s]
  {
    hide WellFormed, Allows, FlagsOf, Continued, MayBeInternal, RenderAll, RenderExchange, Quiet, Corrections;
    FollowerIs(shape, s);
    var exchanges := shape.exchanges;
    var before, last := exchanges[..|exchanges| - 1], exchanges[|exchanges| - 1];
    assert exchanges == before + [last];
    LastStep(before, last, s);
    assert Results(0) == [];
  }

  /** What may follow in an exchange whose response has ended. */
  lemma FollowerIs(shape: Shape, s: Symbol)
    requires WellFormed(shape) && Allows(FlagsOf(shape), s) && shape.Working? && shape.started.None? && !s.ResponseStarted?
    ensures var exchanges := shape.exchanges;
            && exchanges != [] && var last := exchanges[|exchanges| - 1];
               && last.ender.None? && (s.Batched? || s.StopAsked?)
               && (s.Batched? && s.operation.None? ==> s == Batched(None, false))
               && (s.StopAsked? ==> s.active == (Corrections(exchanges) > 0) && s.last == last.text
                                    && Corrections(exchanges) == Corrections(exchanges[..|exchanges| - 1])
                                    && (!s.verdict.Allowed? ==> s.operation.Some?))
  {
    hide Continued, MayBeInternal, Corrections;
    var exchanges := shape.exchanges;
    if exchanges != [] {
      OneMore(exchanges[..|exchanges| - 1], exchanges[|exchanges| - 1]);
      assert exchanges == exchanges[..|exchanges| - 1] + [exchanges[|exchanges| - 1]];
    }
  }

  lemma LastStep(before: seq<Exchange>, last: Exchange, s: Symbol)
    requires last.ender.None?
    ensures s.Batched? && s == Batched(None, false) ==>
              RenderAll(before + [last.(quiet := last.quiet + 1)]) == RenderAll(before + [last]) + [s]
    ensures s.Batched? && s.operation.Some? ==>
              RenderAll(before + [last.(ender := Some(AfterBatch(s.operation.value, s.held)))]) == RenderAll(before + [last]) + [s]
    ensures s.StopAsked? && !s.verdict.Allowed? && s.operation.Some? && s.active == (Corrections(before) > 0) && s.last == last.text ==>
              RenderAll(before + [last.(ender := Some(AfterStop(s.operation.value, s.verdict.Corrected?)))]) == RenderAll(before + [last]) + [s]
  {
    hide RenderAll, Corrections, Quiet;
    var active := Corrections(before) > 0;
    OneMore(before, last);
    if s == Batched(None, false) {
      OneMore(before, last.(quiet := last.quiet + 1));
      QuietMore(last, active);
    } else if s.Batched? && s.operation.Some? {
      OneMore(before, last.(ender := Some(AfterBatch(s.operation.value, s.held))));
      EnderMore(last, AfterBatch(s.operation.value, s.held), active);
    } else if s.StopAsked? && !s.verdict.Allowed? && s.operation.Some? {
      OneMore(before, last.(ender := Some(AfterStop(s.operation.value, s.verdict.Corrected?))));
      EnderMore(last, AfterStop(s.operation.value, s.verdict.Corrected?), active);
    }
    hide RenderExchange;
  }

  lemma QuietMore(x: Exchange, active: bool)
    requires x.ender.None?
    ensures RenderExchange(x.(quiet := x.quiet + 1), active) == RenderExchange(x, active) + [Batched(None, false)]
  {
    assert Quiet(x.quiet + 1) == Quiet(x.quiet) + [Batched(None, false)];
    hide Quiet;
  }

  lemma EnderMore(x: Exchange, ender: Ender, active: bool)
    requires x.ender.None?
    ensures RenderExchange(x.(ender := Some(ender)), active) ==
            RenderExchange(x, active)
            + [if ender.AfterBatch? then Batched(Some(ender.operation), ender.held)
               else StopAsked(Some(ender.operation), if ender.corrected then Corrected else Held, active, x.text)]
  {
    hide Quiet;
  }

  lemma {:induction false} AcceptedIsGrammatical(trace: seq<Symbol>) returns (shape: Shape)
    requires Machine(trace).Some?
    ensures WellFormed(shape) && Render(shape) == trace && FlagsOf(shape) == Machine(trace).value
  {
    if trace == [] {
      shape := Opening;
    } else {
      var before, s := trace[..|trace| - 1], trace[|trace| - 1];
      assert trace == before + [s];
      MachineMore(before, s);
      shape := AcceptedIsGrammatical(before);
      hide Machine, WellFormed, FlagsOf, Render, Allows, Next, Extend;
      ExtendKeeps(shape, s);
      ExtendRenders(shape, s);
      shape := Extend(shape, s);
    }
  }

  lemma Peel(shape: Shape) returns (before: Shape, s: Symbol)
    requires WellFormed(shape) && !shape.Opening?
    ensures WellFormed(before) && Allows(FlagsOf(before), s) && Extend(before, s) == shape
  {
    match shape {
      case Working(submission, exchanges, started) =>
        if started.Some? {
          before, s := Working(submission, exchanges, None), ResponseStarted(started.value);
        } else if exchanges == [] {
          before, s := Opening, Submitted(submission);
        } else {
          before, s := PeelExchange(submission, exchanges);
        }
      case Over(submission, exchanges, operation, results) =>
        if results > 0 {
          before, s := Over(submission, exchanges, operation, results - 1), Finished;
        } else {
          before := Working(submission, exchanges, None);
          s := StopAsked(operation, Allowed, Corrections(exchanges) > 0, LastText(exchanges));
        }
    }
  }

  lemma PeelExchange(submission: Option<nat>, exchanges: seq<Exchange>) returns (before: Shape, s: Symbol)
    requires Continued(exchanges) && exchanges != []
    ensures WellFormed(before) && Allows(FlagsOf(before), s) && Extend(before, s) == Working(submission, exchanges, None)
  {
    hide *;
    var rest, last := exchanges[..|exchanges| - 1], exchanges[|exchanges| - 1];
    assert exchanges == rest + [last];
    OneMore(rest, last);
    if last.ender.Some? {
      before, s := PeelEnder(submission, rest, last);
    } else if last.quiet > 0 {
      before, s := PeelQuiet(submission, rest, last);
    } else {
      before, s := PeelEnded(submission, rest, last);
    }
  }

  lemma PeelEnder(submission: Option<nat>, rest: seq<Exchange>, last: Exchange) returns (before: Shape, s: Symbol)
    requires Continued(rest + [last]) && last.ender.Some?
    ensures WellFormed(before) && Allows(FlagsOf(before), s) && Extend(before, s) == Working(submission, rest + [last], None)
  {
    hide Render, RenderAll, RenderExchange, Quiet, Continued, Corrections, MayBeInternal;
    var open := last.(ender := None);
    OneMore(rest, last);
    OneMore(rest, open);
    before := Working(submission, rest + [open], None);
    match last.ender.value {
      case AfterBatch(operation, held) => s := Batched(Some(operation), held);
      case AfterStop(operation, corrected) =>
        s := StopAsked(Some(operation), if corrected then Corrected else Held, Corrections(rest) > 0, last.text);
    }
  }

  lemma PeelQuiet(submission: Option<nat>, rest: seq<Exchange>, last: Exchange) returns (before: Shape, s: Symbol)
    requires Continued(rest + [last]) && last.ender.None? && last.quiet > 0
    ensures WellFormed(before) && Allows(FlagsOf(before), s) && Extend(before, s) == Working(submission, rest + [last], None)
  {
    hide Render, RenderAll, RenderExchange, Quiet, Continued, Corrections, MayBeInternal;
    var fewer := last.(quiet := last.quiet - 1);
    OneMore(rest, last);
    OneMore(rest, fewer);
    before, s := Working(submission, rest + [fewer], None), Batched(None, false);
  }

  lemma PeelEnded(submission: Option<nat>, rest: seq<Exchange>, last: Exchange) returns (before: Shape, s: Symbol)
    requires Continued(rest + [last]) && last.ender.None? && last.quiet == 0
    ensures WellFormed(before) && Allows(FlagsOf(before), s) && Extend(before, s) == Working(submission, rest + [last], None)
  {
    hide Render, RenderAll, RenderExchange, Quiet, Continued, Corrections;
    OneMore(rest, last);
    before, s := Working(submission, rest, Some(last.internal)), ResponseEnded(last.text);
  }

  lemma {:induction false} GrammaticalIsAccepted(shape: Shape)
    requires WellFormed(shape)
    ensures Machine(Render(shape)) == Some(FlagsOf(shape))
    decreases |Render(shape)|
  {
    if !shape.Opening? {
      var before, s := Peel(shape);
      hide WellFormed, FlagsOf, Render, Allows, Next, Extend;
      ExtendKeeps(before, s);
      ExtendRenders(before, s);
      GrammaticalIsAccepted(before);
      MachineMore(Render(before), s);
    } else {
      assert Machine([]) == Some(FRESH);
    }
  }

  /** The traces accepted are exactly those of the grammar. */
  lemma AcceptedIffGrammatical(trace: seq<Symbol>)
    ensures Machine(trace).Some? <==> exists shape :: WellFormed(shape) && Render(shape) == trace
  {
    hide Machine, WellFormed, Render;
    if Machine(trace).Some? {
      var shape := AcceptedIsGrammatical(trace);
    }
    forall shape | WellFormed(shape) && Render(shape) == trace ensures Machine(trace).Some? {
      GrammaticalIsAccepted(shape);
    }
  }

  // ---- Acknowledgement ----

  /** No callback can follow: one is pending, a Stop was let through, or no response has ended. */
  predicate Blocks(f: Flags) {
    f.submitted && (f.pending.Some? || f.accepted || !f.assistant)
  }

  lemma {:induction false} BlocksUntilAcknowledged(trace: seq<Symbol>, i: nat, j: nat)
    requires Machine(trace).Some? && i < j <= |trace| && IsCallback(trace[i]) && !(trace[i].Batched? && trace[i].operation.None?)
    requires forall k :: i < k < j ==> !Acknowledges(trace[k])
    ensures Machine(trace[..j]).Some? && Blocks(Machine(trace[..j]).value) && !Machine(trace[..j]).value.responseOpen
    decreases j
  {
    MachinePrefix(trace, j);
    MachinePrefix(trace, j - 1);
    assert trace[..j] == trace[..j - 1] + [trace[j - 1]];
    MachineMore(trace[..j - 1], trace[j - 1]);
    AssistantHasNoOpenResponse(trace[..j - 1]);
    hide Machine;
    if j - 1 > i {
      BlocksUntilAcknowledged(trace, i, j - 1);
    }
  }

  lemma AssistantHasNoOpenResponse(trace: seq<Symbol>)
    requires Machine(trace).Some?
    ensures var f := Machine(trace).value;
            && (f.responseOpen ==> f.submitted && !f.assistant && f.pending.None?) && (f.accepted ==> !f.responseOpen)
            && (f.assistant ==> f.submitted) && (!f.submitted ==> f.pending.None? && !f.accepted && !f.responseOpen && !f.assistant)
  {
    var shape := AcceptedIsGrammatical(trace);
    hide Machine, Render, WellFormed, Corrections, LastText;
  }

  lemma {:induction false} MachinePrefix(trace: seq<Symbol>, n: nat)
    requires n <= |trace| && Machine(trace).Some?
    ensures Machine(trace[..n]).Some?
  {
    if n < |trace| {
      MachinePrefix(trace[..|trace| - 1], n);
      assert trace[..|trace| - 1][..n] == trace[..n];
    } else {
      assert trace[..n] == trace;
    }
  }

  /** Between two callbacks a response has started, unless the first was a batch nobody had
      anything to say about. */
  lemma CallbackIsAcknowledged(trace: seq<Symbol>, i: nat, j: nat)
    requires Machine(trace).Some? && i < j < |trace| && IsCallback(trace[i]) && IsCallback(trace[j])
    ensures (trace[i].Batched? && trace[i].operation.None?) || exists k :: i < k < j && Acknowledges(trace[k])
  {
    if !(trace[i].Batched? && trace[i].operation.None?) && forall k :: i < k < j ==> !Acknowledges(trace[k]) {
      NoCallbackYet(trace, i, j);
    }
  }

  lemma NoCallbackYet(trace: seq<Symbol>, i: nat, j: nat)
    requires Machine(trace).Some? && i < j < |trace| && IsCallback(trace[i]) && !(trace[i].Batched? && trace[i].operation.None?)
    requires forall k :: i < k < j ==> !Acknowledges(trace[k])
    ensures !IsCallback(trace[j])
  {
    BlocksUntilAcknowledged(trace, i, j);
    MachinePrefix(trace, j + 1);
    assert trace[..j + 1] == trace[..j] + [trace[j]];
    MachineMore(trace[..j], trace[j]);
  }

  /** Behind a callback another may come at once if and only if the first was a batch nobody had
      anything to say about. */
  lemma CallbackFollowsIff(trace: seq<Symbol>, s: Symbol)
    ensures IsCallback(s) && Machine(trace + [s]).Some? ==>
              ((exists t :: IsCallback(t) && Machine(trace + [s] + [t]).Some?) <==> s.Batched? && s.operation.None?)
  {
    MachineMore(trace, s);
    if IsCallback(s) && Machine(trace + [s]).Some? {
      AssistantHasNoOpenResponse(trace);
      var f := Next(Machine(trace).value, s);
      forall t | IsCallback(t) ensures Machine(trace + [s] + [t]).Some? <==> Allows(f, t) {
        MachineMore(trace + [s], t);
      }
      hide Machine;
      if s.Batched? && s.operation.None? {
        assert Allows(f, s);
        assert Machine(trace + [s] + [s]).Some?;
      }
    }
  }

  function PendingAt(trace: seq<Symbol>, n: nat): Option<nat>
    requires n <= |trace|
  {
    if Machine(trace[..n]).Some? then Machine(trace[..n]).value.pending else None
  }

  /** The symbol at `k` takes away the operation that the callback at `i` has left pending. */
  predicate Clears(trace: seq<Symbol>, i: nat, k: nat)
    requires i < k < |trace| && IsCallback(trace[i])
  {
    && PendingAt(trace, k).Some? && PendingAt(trace, k) == trace[i].operation && PendingAt(trace, k + 1).None?
    && forall m :: i < m < k ==> !IsCallback(trace[m])
  }

  predicate FirstAcknowledges(trace: seq<Symbol>, i: nat, k: nat)
    requires i < k < |trace|
  {
    Acknowledges(trace[k]) && forall m :: i < m < k ==> !Acknowledges(trace[m])
  }

  lemma PendingStep(trace: seq<Symbol>, n: nat)
    requires n < |trace| && Machine(trace).Some?
    ensures PendingAt(trace, n + 1) ==
            if IsCallback(trace[n]) then trace[n].operation else if Acknowledges(trace[n]) then None else PendingAt(trace, n)
    ensures IsCallback(trace[n]) ==> PendingAt(trace, n).None?
  {
    hide Machine, Allows, Next, IsCallback, Acknowledges;
    MachinePrefix(trace, n);
    MachinePrefix(trace, n + 1);
    assert trace[..n + 1] == trace[..n] + [trace[n]];
    MachineMore(trace[..n], trace[n]);
    NextPending(Machine(trace[..n]).value, trace[n]);
  }

  lemma NextPending(f: Flags, s: Symbol)
    ensures Next(f, s).pending == if IsCallback(s) then s.operation else if Acknowledges(s) then None else f.pending
    ensures Allows(f, s) && IsCallback(s) ==> f.pending.None?
  {
  }

  /** What a callback leaves pending stays so until it is acknowledged. */
  lemma {:induction false} PendingBetween(trace: seq<Symbol>, i: nat, k: nat)
    requires Machine(trace).Some? && i < k <= |trace| && IsCallback(trace[i])
    requires forall m :: i < m < k ==> !IsCallback(trace[m])
    ensures PendingAt(trace, k) == if exists m :: i < m < k && Acknowledges(trace[m]) then None else trace[i].operation
    decreases k
  {
    hide Machine;
    PendingStep(trace, k - 1);
    if i < k - 1 {
      PendingBetween(trace, i, k - 1);
    }
  }

  /** The operation of a callback is taken away by exactly one symbol: by the first start of a
      response or result behind it. */
  lemma ClearedExactlyOnce(trace: seq<Symbol>, i: nat, k: nat)
    requires i < k < |trace| && IsCallback(trace[i])
    ensures Machine(trace).Some? && trace[i].operation.Some? ==> (Clears(trace, i, k) <==> FirstAcknowledges(trace, i, k))
  {
    hide Machine, PendingAt;
    if Machine(trace).Some? && trace[i].operation.Some? {
      PendingStep(trace, k);
      if FirstAcknowledges(trace, i, k) {
        forall m | i < m < k ensures !IsCallback(trace[m]) {
          NoCallbackYet(trace, i, m);
        }
      }
      if forall m :: i < m < k ==> !IsCallback(trace[m]) {
        PendingBetween(trace, i, k);
      }
    }
  }

  /** Such batches one behind the other. */
  lemma QuietBatchIsNotAcknowledged()
    ensures Machine([Submitted(None), ResponseStarted(false), ResponseEnded(None), Batched(None, false), Batched(None, false)]).Some?
  {
    var shape := Working(None, [Exchange(false, None, 2, None)], None);
    var trace := [Submitted(None), ResponseStarted(false), ResponseEnded(None), Batched(None, false), Batched(None, false)];
    OneMore([], Exchange(false, None, 2, None));
    assert [] + [Exchange(false, None, 2, None)] == [Exchange(false, None, 2, None)];
    assert Quiet(2) == [Batched(None, false), Batched(None, false)];
    assert Render(shape) == trace;
    assert Continued([]) && Continued([Exchange(false, None, 2, None)]);
    GrammaticalIsAccepted(shape);
  }

  /** While a callback is pending no response is open, and a result comes only behind a Stop
      that was let through with the right account of corrections. */
  lemma {:induction false} PendingClosesResponse(trace: seq<Symbol>)
    requires Machine(trace).Some?
    ensures var f := Machine(trace).value;
            && (f.pending.Some? ==> !f.responseOpen)
            && (f.accepted <==> exists i :: 0 <= i < |trace| && trace[i].StopAsked? && trace[i].verdict.Allowed?)
  {
    if trace != [] {
      var before, s := trace[..|trace| - 1], trace[|trace| - 1];
      PendingClosesResponse(before);
      assert trace == before + [s];
      MachineMore(before, s);
      var shape := AcceptedIsGrammatical(before);
      hide Machine, Render;
      if exists i :: 0 <= i < |before| && before[i].StopAsked? && before[i].verdict.Allowed? {
        var i :| 0 <= i < |before| && before[i].StopAsked? && before[i].verdict.Allowed?;
        assert trace[i] == before[i];
      }
      if s.StopAsked? && s.verdict.Allowed? {
        assert trace[|trace| - 1].StopAsked?;
      }
    }
  }

  // ---- The owner of the callbacks ----

  predicate IsSpace(c: char) {
    var v := c as int;
    0x9 <= v <= 0xD || v == 0x20 || v == 0xA0 || v == 0x1680 || 0x2000 <= v <= 0x200A
    || v == 0x2028 || v == 0x2029 || v == 0x202F || v == 0x205F || v == 0x3000 || v == 0xFEFF
  }

  function Trimmed(text: seq<char>): (r: seq<char>)
    ensures r != [] ==> !IsSpace(r[0]) && !IsSpace(r[|r| - 1])
  {
    if text == [] then []
    else if IsSpace(text[0]) then Trimmed(text[1..])
    else if IsSpace(text[|text| - 1]) then Trimmed(text[..|text| - 1])
    else text
  }

  predicate AllSpace(text: seq<char>) {
    forall i :: 0 <= i < |text| ==> IsSpace(text[i])
  }

  /** Trimming takes away nothing but white space, at both ends, and all of it there. */
  lemma {:induction false} TrimmedIsMiddle(text: seq<char>) returns (front: seq<char>, back: seq<char>)
    ensures text == front + Trimmed(text) + back && AllSpace(front) && AllSpace(back)
    ensures Trimmed(text) == [] <==> AllSpace(text)
  {
    front, back := [], [];
    if text == [] {
    } else if IsSpace(text[0]) {
      front, back := TrimmedIsMiddle(text[1..]);
      front := [text[0]] + front;
      assert text == [text[0]] + text[1..];
      assert AllSpace(text[1..]) <==> AllSpace(text);
    } else if IsSpace(text[|text| - 1]) {
      front, back := TrimmedIsMiddle(text[..|text| - 1]);
      back := back + [text[|text| - 1]];
      assert text == text[..|text| - 1] + [text[|text| - 1]];
      assert text[..|text| - 1][0] == text[0];
    } else {
      assert text == [] + text + [];
    }
  }

  /** The text block that is open behind an event. */
  function BlockAfter(block: Option<(nat, seq<char>)>, event: Event): Option<(nat, seq<char>)> {
    match event
    case BlockStart(index, text) => if text.Some? then Some((index, text.value)) else block
    case TextDelta(index, delta) => if block.Some? then Some((index, block.value.1 + delta)) else None
    case BlockStop(_) => None
    case _ => block
  }

  /** The text of a block as the callback will quote it. */
  function Quoted(text: seq<char>): Option<seq<char>> {
    if Trimmed(text) == [] then None else Some(Trimmed(text))
  }

  datatype Event = BlockStart(index: nat, text: Option<seq<char>>) | TextDelta(index: nat, delta: seq<char>) | BlockStop(index: nat) | MessageStop | OtherEvent

  datatype CommandState = CommandStarted | CommandCompleted | CommandCancelled | OtherState

  /** A message of the SDK; a response may leave out the identity of its command. */
  datatype Message =
    | Command(command: nat, state: CommandState)
    | MessageStart(owner: Option<nat>)
    | Stream(event: Event)
    | Result(command: nat)
    | OtherMessage

  datatype Kind = PromptSubmit | ToolBatch | Stop

  /** A callback request: its two identities, what it was registered for, and its input. */
  datatype Callback = Callback(
    request: nat, envelope: nat, kind: Kind, prompt: nat, transcript: nat, last: Option<seq<char>>, active: bool, genuine: bool)

  /** What the plugins make of it; a plugin asks for a correction only at a Stop. */
  datatype Dispatch = Failure | Nothing | Operation(id: nat, verdict: Verdict)

  function SymbolOf(input: Callback, dispatch: Dispatch): Symbol {
    var operation := if dispatch.Operation? then Some(dispatch.id) else None;
    var verdict := if dispatch.Operation? then dispatch.verdict else Allowed;
    match input.kind
    case PromptSubmit => Submitted(operation)
    case ToolBatch => Batched(operation, verdict.Held?)
    case Stop => StopAsked(operation, verdict, input.active, input.last)
  }

  class Callbacks {
    var requests: set<nat>
    var envelopes: set<nat>
    var backend: Option<nat>
    var command: nat
    var commandStarted: bool
    var promptId: Option<nat>
    var transcript: Option<nat>
    var retiredCommand: Option<(nat, CommandState)>
    var sequence: nat
    var corrections: nat
    var assistant: bool
    var assistantText: Option<seq<char>>
    var responseOpen: bool
    var textBlock: Option<(nat, seq<char>)>
    var accepted: bool
    var awaitingCorrection: bool
    var awaitingBatch: bool
    var pending: Option<nat>
    /** What this turn has shown so far, and the identities of all turns. */
    ghost var trace: seq<Symbol>
    ghost var handled: seq<(nat, nat)>

    /** The flags of this turn. While a response is open its text is still being gathered. */
    function State(): Flags
      reads this`promptId, this`assistant, this`assistantText, this`responseOpen, this`accepted, this`awaitingCorrection, this`awaitingBatch, this`pending, this`corrections
    {
      Flags(promptId.Some?, assistant, if responseOpen then None else assistantText, responseOpen, accepted, awaitingCorrection, awaitingBatch, pending, corrections)
    }

    /** No request and no envelope of any turn has come twice, and the sequence counts both. */
    ghost predicate Counted()
      reads this`handled, this`requests, this`envelopes, this`sequence
    {
      && (forall i, j :: 0 <= i < j < |handled| ==> handled[i].0 != handled[j].0 && handled[i].1 != handled[j].1)
      && (forall i :: 0 <= i < |handled| ==> handled[i].0 in requests && handled[i].1 in envelopes)
      && sequence == |handled| == |requests| == |envelopes| <= MAX_REQUESTS
    }

    /** This turn is one the flags accept. */
    ghost predicate Valid()
      reads this
    {
      && Machine(trace) == Some(State())
      && (textBlock.Some? ==> responseOpen)
      && (promptId.Some? ==> transcript.Some?)
      && Counted()
    }

    constructor ()
      ensures Valid() && trace == [] && handled == []
    {
      requests, envelopes, backend, command, commandStarted := {}, {}, None, 0, false;
      promptId, transcript, retiredCommand, sequence, corrections := None, None, None, 0, 0;
      assistant, assistantText, responseOpen, textBlock, accepted := false, None, false, None, false;
      awaitingCorrection, awaitingBatch, pending := false, false, None;
      trace, handled := [], [];
    }

    lemma BeginsValid()
      requires Counted() && trace == [] && promptId.None? && corrections == 0 && !assistant && assistantText.None?
      requires !responseOpen && textBlock.None? && !accepted && !awaitingCorrection && !awaitingBatch && pending.None?
      ensures Valid()
    {
    }

    lemma Parts()
      requires Valid()
      ensures Counted()
    {
    }

    method Begin(owner: nat, uuid: nat) returns (ok: bool)
      requires Valid()
      modifies this
      ensures ok <==> old(pending).None? && old(backend) != Some(owner)
      ensures ok ==> Valid() && trace == [] && handled == old(handled) && command == uuid && backend == Some(owner)
      ensures ok ==> !commandStarted && promptId.None? && textBlock.None?
      ensures requests == old(requests) && envelopes == old(envelopes) && retiredCommand == old(retiredCommand)
    {
      hide *;
      Parts();
      if pending.Some? || backend == Some(owner) {
        return false;
      }
      backend, command := Some(owner), uuid;
      Forget();
      trace := [];
      BeginsValid();
      return true;
    }

    method Forget()
      modifies this`commandStarted, this`promptId, this`transcript, this`corrections, this`assistant, this`assistantText, this`responseOpen, this`textBlock, this`accepted, this`awaitingCorrection, this`awaitingBatch
      ensures !commandStarted && promptId.None? && transcript.None? && corrections == 0 && !assistant && assistantText.None?
      ensures !responseOpen && textBlock.None? && !accepted && !awaitingCorrection && !awaitingBatch
    {
      commandStarted, promptId, transcript := false, None, None;
      corrections, assistant, assistantText, responseOpen, textBlock := 0, false, None, false, None;
      accepted, awaitingCorrection, awaitingBatch := false, false, false;
    }

    method Superseded()
      modifies this`retiredCommand
      ensures retiredCommand == Some((command, CommandCancelled))
    {
      retiredCommand := Some((command, CommandCancelled));
    }

    /** Whether the order, the identities and the input of a callback are as they must be. */
    predicate Admissible(input: Callback)
      reads this
    {
      && commandStarted && pending.None? && !accepted
      && input.request !in requests && |requests| < MAX_REQUESTS && input.envelope !in envelopes && input.genuine
      && match input.kind
         case PromptSubmit => promptId.None?
         case ToolBatch => promptId == Some(input.prompt) && transcript == Some(input.transcript) && assistant && !responseOpen
         case Stop =>
           promptId == Some(input.prompt) && transcript == Some(input.transcript) && assistant && !awaitingCorrection
           && input.last == assistantText && input.active == (corrections > 0)
    }

    /** A callback is handled once, under identities never seen before, if its symbol is allowed. */
    method Handle(input: Callback, dispatch: Dispatch, admitted: bool) returns (ok: bool)
      requires Valid()
      requires dispatch.Operation? && dispatch.verdict.Corrected? ==> input.kind.Stop?
      modifies this`requests, this`envelopes, this`sequence, this`handled, this`trace, this`promptId, this`transcript, this`pending, this`corrections, this`awaitingCorrection, this`assistant, this`awaitingBatch, this`accepted
      ensures ok <==> old(Admissible(input)) && !dispatch.Failure? && (dispatch.Operation? && dispatch.verdict.Corrected? ==> admitted)
      ensures ok ==> Valid() && trace == old(trace) + [SymbolOf(input, dispatch)]
      ensures ok ==> handled == old(handled) + [(input.request, input.envelope)]
                     && input.request !in old(requests) && input.envelope !in old(envelopes)
      ensures ok ==> promptId == Some(input.prompt) && transcript == Some(input.transcript)
      ensures !old(Admissible(input)) ==> Valid() && State() == old(State()) && requests == old(requests) && envelopes == old(envelopes)
    {
      hide Machine, Counted, Next, Allows, SymbolOf;
      ghost var symbol := SymbolOf(input, dispatch);
      if !Admissible(input) {
        return false;
      }
      AdmissibleIsAllowed(input, dispatch);
      MachineMore(trace, symbol);
      Remember(input);
      ok := Dispatched(input, dispatch, admitted);
      trace := trace + [symbol];
    }

    /** What the plugins' answer changes. */
    method Dispatched(input: Callback, dispatch: Dispatch, admitted: bool) returns (ok: bool)
      requires Allows(State(), SymbolOf(input, dispatch)) && !responseOpen && !awaitingBatch && textBlock.None?
      requires dispatch.Operation? && dispatch.verdict.Corrected? ==> input.kind.Stop?
      modifies this`promptId, this`transcript, this`pending, this`corrections, this`awaitingCorrection, this`assistant, this`awaitingBatch, this`accepted
      ensures ok <==> !dispatch.Failure? && (dispatch.Operation? && dispatch.verdict.Corrected? ==> admitted)
      ensures ok ==> State() == Next(old(State()), SymbolOf(input, dispatch)) && promptId == Some(input.prompt) && transcript == Some(input.transcript)
    {
      hide Allows, Next, SymbolOf;
      ghost var before := State();
      promptId, transcript := Some(input.prompt), Some(input.transcript);
      if dispatch.Failure? {
        return false;
      }
      if dispatch.Operation? {
        pending := Some(dispatch.id);
        if dispatch.verdict.Corrected? {
          if !admitted {
            return false;
          }
          corrections, awaitingCorrection, assistant := corrections + 1, true, false;
        }
      }
      if !(dispatch.Operation? && dispatch.verdict.Held?) {
        awaitingBatch := input.kind.ToolBatch? && pending.Some?;
        if input.kind.Stop? && !awaitingCorrection {
          accepted := true;
        }
      }
      NextIs(before, input, dispatch, State());
      return true;
    }

    lemma AdmissibleIsAllowed(input: Callback, dispatch: Dispatch)
      requires Valid() && Admissible(input)
      ensures Allows(State(), SymbolOf(input, dispatch))
      ensures !responseOpen && !awaitingBatch
    {
      var shape := AcceptedIsGrammatical(trace);
      hide Machine, Render, Counted;
    }

    method Remember(input: Callback)
      requires Counted() && input.request !in requests && input.envelope !in envelopes && |requests| < MAX_REQUESTS
      modifies this`requests, this`envelopes, this`sequence, this`handled
      ensures Counted() && handled == old(handled) + [(input.request, input.envelope)]
    {
      requests, envelopes, sequence := requests + {input.request}, envelopes + {input.envelope}, sequence + 1;
      handled := handled + [(input.request, input.envelope)];
    }

    /** A message belongs to the command, its symbol is allowed, and a pending operation has been
        delivered. */
    predicate Accepts(message: Message, delivered: bool)
      reads this
    {
      match message
      case Command(uuid, state) => retiredCommand == Some((uuid, state)) || (uuid == command && !(state.CommandStarted? && commandStarted))
      case MessageStart(owner) =>
        Allows(State(), ResponseStarted(owner.None?)) && (owner.Some? ==> owner.value == command) && (pending.Some? ==> delivered)
      case Stream(event) => Streams(event)
      case Result(uuid) => Allows(State(), Finished) && uuid == command && (pending.Some? ==> delivered)
      case OtherMessage => true
    }

    /** An event belongs to the open response: text blocks do not overlap, and hold at most 64 KiB. */
    predicate Streams(event: Event)
      reads this
    {
      && responseOpen
      && match event
         case BlockStart(_, text) => textBlock.None? && (text.Some? ==> |text.value| <= MAX_TEXT)
         case TextDelta(index, delta) => textBlock.Some? && textBlock.value.0 == index && |textBlock.value.1| + |delta| <= MAX_TEXT
         case BlockStop(index) => textBlock.Some? ==> textBlock.value.0 == index
         case MessageStop => textBlock.None?
         case OtherEvent => true
    }

    /** The last word on a command of an earlier turn; the first one on this. */
    predicate Retires(message: Message)
      reads this`retiredCommand
    {
      message.Command? && retiredCommand == Some((message.command, message.state))
    }

    predicate Begins(message: Message)
      reads this`retiredCommand
    {
      message.Command? && !Retires(message) && message.state.CommandStarted?
    }

    /** A message is accepted if and only if it belongs to the command, its symbol is allowed, and
        a pending operation has been delivered. */
    method Observe(message: Message, delivered: bool) returns (ok: bool)
      requires Valid()
      modifies this`retiredCommand, this`commandStarted, this`pending, this`trace, this`assistant, this`assistantText, this`responseOpen, this`awaitingCorrection, this`awaitingBatch, this`textBlock
      ensures ok <==> old(Accepts(message, delivered))
      ensures ok ==> Valid() && handled == old(handled)
      ensures ok ==> commandStarted == (old(commandStarted) || old(Begins(message)))
      ensures ok ==> retiredCommand == if message.Result? then Some((command, CommandCompleted)) else if old(Retires(message)) then None else old(retiredCommand)
      ensures ok ==> textBlock == if message.Stream? then BlockAfter(old(textBlock), message.event) else old(textBlock)
      ensures ok ==> trace == match message
                              case MessageStart(uuid) => old(trace) + [ResponseStarted(uuid.None?)]
                              case Stream(MessageStop) => old(trace) + [ResponseEnded(old(assistantText))]
                              case Result(_) => old(trace) + [Finished]
                              case _ => old(trace)
      ensures ok && message.Result? ==> message.command == command && old(accepted)
    {
      hide Machine, Counted, Next, Allows;
      ok := true;
      match message {
        case Command(uuid, state) =>
          if retiredCommand == Some((uuid, state)) {
            retiredCommand := None;
            return;
          }
          if uuid != command || (state.CommandStarted? && commandStarted) {
            return false;
          }
          commandStarted := commandStarted || state.CommandStarted?;
        case MessageStart(uuid) =>
          ok := StartResponse(uuid, delivered);
        case Stream(event) =>
          ok := ObserveStream(event);
        case Result(uuid) =>
          AllowsMeans(State(), true);
          if promptId.None? || !accepted || awaitingCorrection || uuid != command {
            return false;
          }
          retiredCommand := Some((command, CommandCompleted));
          if pending.Some? && !delivered {
            return false;
          }
          FinishIs(State());
          MachineMore(trace, Finished);
          pending := None;
          trace := trace + [Finished];
        case OtherMessage =>
      }
    }

    method StartResponse(uuid: Option<nat>, delivered: bool) returns (ok: bool)
      requires Valid()
      modifies this`assistant, this`assistantText, this`responseOpen, this`awaitingCorrection, this`awaitingBatch, this`pending, this`trace
      ensures ok <==> old(Accepts(MessageStart(uuid), delivered))
      ensures ok ==> Valid() && handled == old(handled) && trace == old(trace) + [ResponseStarted(uuid.None?)]
    {
      hide Machine, Counted, Next, Allows;
      AllowsMeans(State(), uuid.None?);
      if promptId.None? {
        return false;
      }
      if uuid != Some(command) && !((awaitingCorrection || awaitingBatch) && pending.Some? && uuid.None?) {
        return false;
      }
      if accepted || responseOpen || (pending.Some? && !delivered) {
        return false;
      }
      StartIs(State(), uuid.None?);
      MachineMore(trace, ResponseStarted(uuid.None?));
      assistant, assistantText, responseOpen, awaitingCorrection, awaitingBatch, pending := false, None, true, false, false, None;
      trace := trace + [ResponseStarted(uuid.None?)];
      return true;
    }

    /** The text of a response is that of its last text block. */
    method ObserveStream(event: Event) returns (ok: bool)
      requires Valid()
      modifies this`trace, this`assistant, this`assistantText, this`responseOpen, this`textBlock
      ensures ok <==> old(Streams(event))
      ensures ok ==> Valid() && handled == old(handled)
      ensures ok ==> trace == if event.MessageStop? then old(trace) + [ResponseEnded(old(assistantText))] else old(trace)
      ensures ok ==> assistantText == if event.BlockStop? && old(textBlock).Some? then Quoted(old(textBlock).value.1) else old(assistantText)
      ensures ok ==> textBlock == BlockAfter(old(textBlock), event)
    {
      hide Machine, Counted, Next, Allows;
      if !responseOpen {
        return false;
      }
      match event {
        case BlockStart(index, text) =>
          if textBlock.Some? || (text.Some? && |text.value| > MAX_TEXT) {
            return false;
          }
          if text.Some? {
            textBlock := Some((index, text.value));
          }
        case TextDelta(index, delta) =>
          if textBlock.None? || textBlock.value.0 != index || |textBlock.value.1| + |delta| > MAX_TEXT {
            return false;
          }
          textBlock := Some((index, textBlock.value.1 + delta));
        case BlockStop(index) =>
          if textBlock.Some? {
            if textBlock.value.0 != index {
              return false;
            }
            assistantText, textBlock := Quoted(textBlock.value.1), None;
          }
        case MessageStop =>
          if textBlock.Some? {
            return false;
          }
          EndIs(State(), assistantText);
          MachineMore(trace, ResponseEnded(assistantText));
          trace := trace + [ResponseEnded(assistantText)];
          responseOpen, assistant := false, true;
        case OtherEvent =>
      }
      return true;
    }
  }

  lemma NextIs(f: Flags, input: Callback, dispatch: Dispatch, after: Flags)
    requires Allows(f, SymbolOf(input, dispatch)) && !dispatch.Failure? && !f.responseOpen && !f.awaitingBatch
    requires dispatch.Operation? && dispatch.verdict.Corrected? ==> input.kind.Stop?
    requires after.submitted && after.text == f.text && after.responseOpen == f.responseOpen
    requires after.pending == if dispatch.Operation? then Some(dispatch.id) else f.pending
    requires var corrected := dispatch.Operation? && dispatch.verdict.Corrected?;
             var held := dispatch.Operation? && dispatch.verdict.Held?;
             && after.corrections == (if corrected then f.corrections + 1 else f.corrections)
             && after.awaitingCorrection == (corrected || f.awaitingCorrection)
             && after.assistant == (f.assistant && !corrected)
             && after.awaitingBatch == (if held then f.awaitingBatch else input.kind.ToolBatch? && after.pending.Some?)
             && after.accepted == (f.accepted || (!held && input.kind.Stop? && !after.awaitingCorrection))
    ensures after == Next(f, SymbolOf(input, dispatch))
  {
  }

  lemma AllowsMeans(f: Flags, internal: bool)
    ensures Allows(f, ResponseStarted(internal)) <==>
            f.submitted && !f.accepted && !f.responseOpen && (internal ==> (f.awaitingCorrection || f.awaitingBatch) && f.pending.Some?)
    ensures Allows(f, Finished) <==> f.submitted && f.accepted && !f.awaitingCorrection
  {
  }

  lemma StartIs(f: Flags, internal: bool)
    requires f.submitted && !f.accepted && !f.responseOpen && (internal ==> (f.awaitingCorrection || f.awaitingBatch) && f.pending.Some?)
    ensures Allows(f, ResponseStarted(internal))
    ensures Next(f, ResponseStarted(internal)) ==
            f.(assistant := false, text := None, responseOpen := true, awaitingCorrection := false, awaitingBatch := false, pending := None)
  {
  }

  lemma EndIs(f: Flags, text: Option<seq<char>>)
    requires f.responseOpen
    ensures Allows(f, ResponseEnded(text))
    ensures Next(f, ResponseEnded(text)) == f.(responseOpen := false, assistant := true, text := text)
  {
  }

  lemma FinishIs(f: Flags)
    requires f.submitted && f.accepted && !f.awaitingCorrection
    ensures Allows(f, Finished) && Next(f, Finished) == f.(pending := None)
  {
  }
}
