/** The monitor of ordinary Codex callbacks. It accepts a frame or a callback by looking at its
    flags; what it accepts over a turn is exactly a small grammar. */
module CodexCallbacks {
  import opened Utf8

  const MAX_DELIVERIES: nat := 1024

  datatype Hook = UserPromptSubmit | Stop

  datatype Item = Item(id: nat, text: seq<char>)

  /** What happens in a turn, as far as the order of callbacks is concerned. */
  datatype Symbol =
    | Started(hook: Hook)
    | Handled(hook: Hook, delivery: nat, active: bool, last: Option<seq<char>>, corrected: bool)
    | Completed(hook: Hook, blocked: bool)
    | ItemStarted(item: Item)
    | ItemCompleted(item: Item)
    | ToolCalled
    | TurnCompleted

  datatype Flags = Flags(
    run: Option<Hook>, sent: bool, submitted: bool, accepted: bool, correction: bool, corrections: nat,
    assistant: Option<Item>, assistantComplete: bool)

  const FRESH := Flags(None, false, false, false, false, 0, None, false)

  function TextOf(assistant: Option<Item>): Option<seq<char>> {
    if assistant.Some? then Some(assistant.value.text) else None
  }

  // ---- The flags ----

  predicate Allows(f: Flags, s: Symbol) {
    match s
    case Started(hook) =>
      f.run.None? && !f.accepted
      && (if hook.UserPromptSubmit? then !f.submitted else f.submitted && (f.assistantComplete || f.assistant.None?))
    case Handled(hook, _, active, last, corrected) =>
      f.run == Some(hook) && !f.sent && !f.accepted
      && (if hook.UserPromptSubmit? then !f.submitted && !corrected && !active && last == None
          else f.submitted && (f.assistantComplete || f.assistant.None?) && last == TextOf(f.assistant) && active == (f.corrections > 0))
    case Completed(hook, blocked) => f.run == Some(hook) && f.sent && blocked == f.correction
    case ItemStarted(_) => f.submitted && f.run.None? && !f.accepted && (f.assistant.None? || f.assistantComplete)
    case ItemCompleted(item) =>
      f.submitted && f.run.None? && !f.accepted && f.assistant.Some? && f.assistant.value.id == item.id && !f.assistantComplete
    case ToolCalled => f.submitted && f.run.None? && !f.accepted
    case TurnCompleted => f.accepted && f.run.None?
  }

  function Next(f: Flags, s: Symbol): Flags {
    match s
    case Started(hook) => f.(run := Some(hook), sent := false)
    case Handled(_, _, _, _, corrected) =>
      if corrected then f.(sent := true, correction := true, corrections := f.corrections + 1) else f.(sent := true)
    case Completed(hook, _) =>
      if hook.UserPromptSubmit? then f.(run := None, submitted := true)
      else if f.correction then f.(run := None, correction := false, assistant := None, assistantComplete := false)
      else f.(run := None, accepted := true)
    case ItemStarted(item) => f.(assistant := Some(item), assistantComplete := false)
    case ItemCompleted(item) => f.(assistant := Some(item), assistantComplete := true)
    case ToolCalled => f
    case TurnCompleted => f
  }

  /** The flags behind a trace; nothing if some part of it is refused. */
  function Machine(trace: seq<Symbol>): Option<Flags> {
    if trace == [] then Some(FRESH)
    else
      var f := Machine(trace[..|trace| - 1]);
      if f.Some? && Allows(f.value, trace[|trace| - 1]) then Some(Next(f.value, trace[|trace| - 1])) else None
  }

  lemma MachineMore(trace: seq<Symbol>, s: Symbol)
    ensures Machine(trace + [s]) ==
            var f := Machine(trace);
            if f.Some? && Allows(f.value, s) then Some(Next(f.value, s)) else None
  {
    assert (trace + [s])[..|trace + [s]| - 1] == trace;
  }

  // ---- The grammar ----

  /** The work between two hooks: assistant items, each started and completed, and tool calls.
      The value is the last item, and whether it is complete. */
  function Work(symbols: seq<Symbol>): Option<(Option<Item>, bool)> {
    if symbols == [] then Some((None, false))
    else
      var before := Work(symbols[..|symbols| - 1]);
      match symbols[|symbols| - 1]
      case ItemStarted(item) =>
        if before.Some? && (before.value.0.None? || before.value.1) then Some((Some(item), false)) else None
      case ItemCompleted(item) =>
        if before.Some? && before.value.0.Some? && before.value.0.value.id == item.id && !before.value.1 then Some((Some(item), true)) else None
      case ToolCalled => before
      case _ => None
  }

  predicate IsWork(symbols: seq<Symbol>) {
    Work(symbols).Some?
  }

  predicate IsClosedWork(symbols: seq<Symbol>) {
    Work(symbols).Some? && (Work(symbols).value.0.None? || Work(symbols).value.1)
  }

  function LastText(symbols: seq<Symbol>): Option<seq<char>> {
    if IsWork(symbols) then TextOf(Work(symbols).value.0) else None
  }

  function Submission(delivery: nat): seq<Symbol> {
    [Started(UserPromptSubmit), Handled(UserPromptSubmit, delivery, false, None, false), Completed(UserPromptSubmit, false)]
  }

  function StopHook(delivery: nat, active: bool, last: Option<seq<char>>, blocked: bool): seq<Symbol> {
    [Started(Stop), Handled(Stop, delivery, active, last, blocked), Completed(Stop, blocked)]
  }

  /** Work that was followed by a blocked Stop. */
  datatype Segment = Segment(work: seq<Symbol>, delivery: nat)

  function Blocked(segments: seq<Segment>): seq<Symbol> {
    if segments == [] then []
    else
      var last := segments[|segments| - 1];
      Blocked(segments[..|segments| - 1]) + last.work + StopHook(last.delivery, |segments| > 1, LastText(last.work), true)
  }

  /** How far a turn has come. */
  datatype Shape =
    | Opening
    | Submitting(handled: Option<nat>)
    | Working(submitted: nat, segments: seq<Segment>, work: seq<Symbol>)
    | Stopping(submitted: nat, segments: seq<Segment>, work: seq<Symbol>, answer: Option<(nat, bool)>)
    | Over(submitted: nat, segments: seq<Segment>, work: seq<Symbol>, delivery: nat, completions: nat)

  predicate WellFormed(shape: Shape) {
    match shape
    case Opening => true
    case Submitting(_) => true
    case Working(_, segments, work) => (forall s <- segments :: IsClosedWork(s.work)) && IsWork(work)
    case Stopping(_, segments, work, _) => (forall s <- segments :: IsClosedWork(s.work)) && IsClosedWork(work)
    case Over(_, segments, work, _, _) => (forall s <- segments :: IsClosedWork(s.work)) && IsClosedWork(work)
  }

  function Completions(n: nat): seq<Symbol> {
    seq(n, _ => TurnCompleted)
  }

  /** A turn: the submission, work and blocked Stops in turn, at last a Stop that is not
      blocked, and then nothing but its completion. */
  function Render(shape: Shape): seq<Symbol> {
    match shape
    case Opening => []
    case Submitting(handled) =>
      if handled.None? then [Started(UserPromptSubmit)]
      else [Started(UserPromptSubmit), Handled(UserPromptSubmit, handled.value, false, None, false)]
    case Working(submitted, segments, work) => Submission(submitted) + Blocked(segments) + work
    case Stopping(submitted, segments, work, answer) =>
      Submission(submitted) + Blocked(segments) + work
      + if answer.None? then [Started(Stop)]
        else [Started(Stop), Handled(Stop, answer.value.0, segments != [], LastText(work), answer.value.1)]
    case Over(submitted, segments, work, delivery, completions) =>
      Submission(submitted) + Blocked(segments) + work + StopHook(delivery, segments != [], LastText(work), false) + Completions(completions)
  }

  // ---- The flags accept exactly the grammar ----

  function FlagsOf(shape: Shape): Flags
    requires WellFormed(shape)
  {
    match shape
    case Opening => FRESH
    case Submitting(handled) => FRESH.(run := Some(UserPromptSubmit), sent := handled.Some?)
    case Working(_, segments, work) =>
      Flags(None, true, true, false, false, |segments|, Work(work).value.0, Work(work).value.1)
    case Stopping(_, segments, work, answer) =>
      var corrected := answer.Some? && answer.value.1;
      Flags(Some(Stop), answer.Some?, true, false, corrected, if corrected then |segments| + 1 else |segments|, Work(work).value.0, Work(work).value.1)
    case Over(_, segments, work, _, _) =>
      Flags(None, true, true, true, false, |segments|, Work(work).value.0, Work(work).value.1)
  }

  function Extend(shape: Shape, s: Symbol): Shape
    requires WellFormed(shape) && Allows(FlagsOf(shape), s)
  {
    match shape
    case Opening => Submitting(None)
    case Submitting(handled) => if handled.None? then Submitting(Some(s.delivery)) else Working(handled.value, [], [])
    case Working(submitted, segments, work) =>
      if s.Started? then Stopping(submitted, segments, work, None) else Working(submitted, segments, work + [s])
    case Stopping(submitted, segments, work, answer) =>
      if answer.None? then Stopping(submitted, segments, work, Some((s.delivery, s.corrected)))
      else if answer.value.1 then Working(submitted, segments + [Segment(work, answer.value.0)], [])
      else Over(submitted, segments, work, answer.value.0, 0)
    case Over(submitted, segments, work, delivery, completions) => Over(submitted, segments, work, delivery, completions + 1)
  }

  lemma WorkMore(work: seq<Symbol>, s: Symbol)
    ensures Work(work + [s]) ==
            var before := Work(work);
            if s.ItemStarted? then
              (if before.Some? && (before.value.0.None? || before.value.1) then Some((Some(s.item), false)) else None)
            else if s.ItemCompleted? then
              (if before.Some? && before.value.0.Some? && before.value.0.value.id == s.item.id && !before.value.1 then Some((Some(s.item), true)) else None)
            else if s.ToolCalled? then before
            else None
  {
    assert (work + [s])[..|work + [s]| - 1] == work;
  }

  lemma BlockedMore(segments: seq<Segment>, segment: Segment)
    ensures Blocked(segments + [segment]) ==
            Blocked(segments) + segment.work + StopHook(segment.delivery, segments != [], LastText(segment.work), true)
  {
    assert (segments + [segment])[..|segments + [segment]| - 1] == segments;
  }

  lemma ExtendKeeps(shape: Shape, s: Symbol)
    requires WellFormed(shape) && Allows(FlagsOf(shape), s)
    ensures WellFormed(Extend(shape, s))
    ensures FlagsOf(Extend(shape, s)) == Next(FlagsOf(shape), s)
  {
    NoWork();
    if shape.Working? {
      WorkMore(shape.work, s);
    }
    hide Work;
    match shape {
      case Opening =>
      case Submitting(_) =>
      case Working(_, _, _) =>
      case Stopping(_, segments, work, answer) => StopKeeps(shape, s);
      case Over(_, _, _, _, _) =>
    }
  }

  lemma StopKeeps(shape: Shape, s: Symbol)
    requires shape.Stopping? && WellFormed(shape) && Allows(FlagsOf(shape), s)
    ensures WellFormed(Extend(shape, s))
    ensures FlagsOf(Extend(shape, s)) == Next(FlagsOf(shape), s)
  {
    NoWork();
    hide Work;
  }

  lemma NoWork()
    ensures Work([]) == Some((None, false))
  {
  }

  lemma ExtendRenders(shape: Shape, s: Symbol)
    requires WellFormed(shape) && Allows(FlagsOf(shape), s)
    ensures Render(Extend(shape, s)) == Render(shape) + [s]
  {
    hide Work, LastText, IsClosedWork, Blocked;
    match shape {
      case Opening =>
      case Submitting(handled) =>
        if handled.Some? {
          NothingBlocked();
        }
      case Working(_, _, _) =>
      case Stopping(_, _, _, _) => StopRenders(shape, s);
      case Over(_, _, _, _, completions) =>
        assert Completions(completions + 1) == Completions(completions) + [TurnCompleted];
    }
  }

  lemma NothingBlocked()
    ensures Blocked([]) == []
  {
  }

  lemma StopRenders(shape: Shape, s: Symbol)
    requires shape.Stopping? && WellFormed(shape) && Allows(FlagsOf(shape), s)
    ensures Render(Extend(shape, s)) == Render(shape) + [s]
  {
    LastTextIs(shape.work);
    var Stopping(submitted, segments, work, answer) := shape;
    var front := Submission(submitted) + Blocked(segments) + work;
    if answer.None? {
      assert Render(shape) == front + [Started(Stop)];
      hide *;
      Together(front, [Started(Stop)], [s]);
    } else {
      var asked := [Started(Stop), Handled(Stop, answer.value.0, segments != [], LastText(work), answer.value.1)];
      assert Render(shape) == front + asked;
      assert asked + [s] == StopHook(answer.value.0, segments != [], LastText(work), answer.value.1);
      if answer.value.1 {
        BlockedMore(segments, Segment(work, answer.value.0));
        hide Work, LastText, IsClosedWork, Blocked, StopHook, Submission;
        Regroup(Submission(submitted), Blocked(segments), work, StopHook(answer.value.0, segments != [], LastText(work), true));
        Together(front, asked, [s]);
      } else {
        hide Work, LastText, IsClosedWork, Blocked, StopHook, Submission;
        assert Completions(0) == [];
        Together(front, asked, [s]);
      }
    }
  }

  lemma Together(a: seq<Symbol>, b: seq<Symbol>, c: seq<Symbol>)
    ensures a + b + c == a + (b + c)
  {
  }

  lemma Regroup(a: seq<Symbol>, b: seq<Symbol>, c: seq<Symbol>, d: seq<Symbol>)
    ensures a + (b + c + d) + [] == a + b + c + d
  {
  }

  lemma LastTextIs(work: seq<Symbol>)
    requires IsClosedWork(work)
    ensures Work(work).Some? && LastText(work) == TextOf(Work(work).value.0)
  {
  }

  /** Every trace the flags accept is one of the grammar, up to where the turn has come. */
  lemma {:induction false} AcceptedIsGrammatical(trace: seq<Symbol>, flags: Flags) returns (shape: Shape)
    requires Machine(trace) == Some(flags)
    ensures WellFormed(shape) && Render(shape) == trace && FlagsOf(shape) == flags
  {
    if trace == [] {
      shape := Opening;
    } else {
      var before, s := trace[..|trace| - 1], trace[|trace| - 1];
      assert trace == before + [s];
      MachineMore(before, s);
      shape := AcceptedIsGrammatical(before, Machine(before).value);
      hide Machine, WellFormed, FlagsOf, Render, Allows, Next, Extend;
      ExtendKeeps(shape, s);
      ExtendRenders(shape, s);
      shape := Extend(shape, s);
    }
  }

  lemma Peel(shape: Shape) returns (before: Shape, s: Symbol)
    requires WellFormed(shape) && !shape.Opening?
    ensures WellFormed(before) && Allows(FlagsOf(before), s) && Extend(before, s) == shape
  {
    match shape {
      case Submitting(handled) =>
        before, s := Opening, Started(UserPromptSubmit);
        if handled.Some? {
          before, s := Submitting(None), Handled(UserPromptSubmit, handled.value, false, None, false);
        }
      case Working(submitted, segments, work) =>
        if work != [] {
          before, s := Working(submitted, segments, work[..|work| - 1]), work[|work| - 1];
          assert work == work[..|work| - 1] + [work[|work| - 1]];
          WorkMore(work[..|work| - 1], work[|work| - 1]);
        } else if segments != [] {
          var last := segments[|segments| - 1];
          before, s := Stopping(submitted, segments[..|segments| - 1], last.work, Some((last.delivery, true))), Completed(Stop, true);
          assert segments == segments[..|segments| - 1] + [last];
        } else {
          before, s := Submitting(Some(submitted)), Completed(UserPromptSubmit, false);
        }
      case Stopping(submitted, segments, work, answer) =>
        before, s := Working(submitted, segments, work), Started(Stop);
        if answer.Some? {
          LastTextIs(work);
          before := Stopping(submitted, segments, work, None);
          s := Handled(Stop, answer.value.0, segments != [], LastText(work), answer.value.1);
        }
      case Over(submitted, segments, work, delivery, completions) =>
        before, s := Stopping(submitted, segments, work, Some((delivery, false))), Completed(Stop, false);
        if completions > 0 {
          before, s := Over(submitted, segments, work, delivery, completions - 1), TurnCompleted;
        }
    }
  }

  /** Every trace of the grammar is accepted. */
  lemma {:induction false} GrammaticalIsAccepted(shape: Shape)
    requires WellFormed(shape)
    ensures Machine(Render(shape)) == Some(FlagsOf(shape))
    decreases |Render(shape)|
  {
    if !shape.Opening? {
      var before, s := Peel(shape);
      hide WellFormed, FlagsOf, Render, Allows, Next, Extend;
      ExtendKeeps(before, s);
      ExtendRenders(before, s);
      GrammaticalIsAccepted(before);
      MachineMore(Render(before), s);
    }
  }

  /** The flags stand as they do exactly behind the traces of the grammar that have come so far;
      so the traces accepted are those of the grammar. */
  lemma AcceptedIffGrammatical(trace: seq<Symbol>, flags: Flags)
    ensures Machine(trace) == Some(flags) <==> exists shape :: WellFormed(shape) && Render(shape) == trace && FlagsOf(shape) == flags
  {
    hide Machine, WellFormed, Render, FlagsOf;
    if Machine(trace) == Some(flags) {
      var shape := AcceptedIsGrammatical(trace, flags);
    }
    forall shape | WellFormed(shape) && Render(shape) == trace && FlagsOf(shape) == flags ensures Machine(trace) == Some(flags) {
      GrammaticalIsAccepted(shape);
    }
  }

  // ---- The owner of the callbacks ----

  /** A frame of the backend. `Foreign` stands for one that names another thread, comes outside of the
      invocation, or is not from the private registration; `Other` for one that has nothing to do
      with the order. */
  datatype Frame =
    | TurnStarted(turn: nat)
    | StartReply(request: nat, turn: nat)
    | HookStarted(turn: nat, hook: Hook)
    | HookCompleted(turn: nat, hook: Hook, blocked: bool)
    | ItemStart(turn: nat, item: Item)
    | ItemComplete(turn: nat, item: Item)
    | Delta(turn: nat)
    | ToolCall(turn: nat)
    | TurnComplete(turn: nat, completed: bool)
    | Foreign
    | Other

  /** A callback as its envelope and its input describe it. */
  datatype Callback = Callback(delivery: nat, turn: Option<nat>, hook: Hook, active: bool, last: Option<seq<char>>, genuine: bool)

  /** What the plugins make of it; a plugin asks for a correction only at a Stop. */
  datatype Dispatch = Failure | Nothing | Operation(id: nat, hold: bool, correction: bool)

  /** The symbol a frame stands for, if it is one of those that are ordered. */
  function SymbolOf(frame: Frame): Option<Symbol> {
    match frame
    case HookStarted(_, hook) => Some(Started(hook))
    case HookCompleted(_, hook, blocked) => Some(Completed(hook, blocked))
    case ItemStart(_, item) => Some(ItemStarted(item))
    case ItemComplete(_, item) => Some(ItemCompleted(item))
    case ToolCall(_) => Some(ToolCalled)
    case TurnComplete(_, completed) => if completed then Some(TurnCompleted) else None
    case _ => None
  }

  predicate NamesTurn(frame: Frame) {
    frame.HookStarted? || frame.HookCompleted? || frame.ItemStart? || frame.ItemComplete? || frame.Delta? || frame.ToolCall? || frame.TurnComplete?
  }

  /** A frame that says which turn this is: the start, or the reply to the request for it. */
  predicate StartsTurn(frame: Frame, request: nat) {
    frame.TurnStarted? || (frame.StartReply? && frame.request == request)
  }

  /** The turn that the frames accepted since the request have named. */
  function TurnOf(taken: seq<Frame>, request: nat): Option<nat> {
    if taken == [] then None
    else
      var last := taken[|taken| - 1];
      if StartsTurn(last, request) then Some(last.turn) else TurnOf(taken[..|taken| - 1], request)
  }

  /** Each frame fits the turn named in front of it. */
  predicate OneTurn(taken: seq<Frame>, request: nat) {
    taken != [] ==>
      var before, last := taken[..|taken| - 1], taken[|taken| - 1];
      && OneTurn(before, request)
      && (StartsTurn(last, request) ==> TurnOf(before, request).None? || TurnOf(before, request) == Some(last.turn))
      && (NamesTurn(last) ==> TurnOf(before, request) == Some(last.turn))
  }

  lemma TakenMore(taken: seq<Frame>, frame: Frame, request: nat)
    requires OneTurn(taken, request)
    requires StartsTurn(frame, request) ==> TurnOf(taken, request).None? || TurnOf(taken, request) == Some(frame.turn)
    requires NamesTurn(frame) ==> TurnOf(taken, request) == Some(frame.turn)
    ensures OneTurn(taken + [frame], request)
    ensures TurnOf(taken + [frame], request) == if StartsTurn(frame, request) then Some(frame.turn) else TurnOf(taken, request)
  {
    assert (taken + [frame])[..|taken + [frame]| - 1] == taken;
  }

  predicate NamedIn(taken: seq<Frame>, request: nat) {
    exists i :: 0 <= i < |taken| && StartsTurn(taken[i], request)
  }

  /** Over a whole turn: it is named if and only if a start has been accepted, every accepted frame
      that names a turn names this one, and none does before it is named. */
  lemma {:induction false} OneTurnMeans(taken: seq<Frame>, request: nat)
    requires OneTurn(taken, request)
    ensures TurnOf(taken, request).Some? <==> NamedIn(taken, request)
    ensures forall i :: 0 <= i < |taken| && (NamesTurn(taken[i]) || StartsTurn(taken[i], request)) ==> TurnOf(taken, request) == Some(taken[i].turn)
    ensures forall i :: 0 <= i < |taken| && NamesTurn(taken[i]) ==> NamedIn(taken[..i], request)
  {
    if taken != [] {
      var n := |taken| - 1;
      var before := taken[..n];
      OneTurnMeans(before, request);
      assert forall i :: 0 <= i < n ==> taken[i] == before[i] && taken[..i] == before[..i];
      if NamedIn(before, request) {
        var i :| 0 <= i < |before| && StartsTurn(before[i], request);
        assert StartsTurn(taken[i], request);
      }
      assert StartsTurn(taken[n], request) ==> NamedIn(taken, request);
      hide TurnOf, StartsTurn, NamesTurn;
      assert NamedIn(taken, request) ==> NamedIn(before, request) || StartsTurn(taken[n], request);
    }
  }

  predicate Distinct(s: seq<nat>) {
    forall i, j :: 0 <= i < j < |s| ==> s[i] != s[j]
  }

  lemma HandledIs(f: Flags, input: Callback, corrected: bool)
    requires f.run == Some(input.hook) && !f.sent && !f.accepted && (corrected ==> input.hook.Stop?)
    requires if input.hook.UserPromptSubmit? then !f.submitted && !input.active && input.last.None?
             else f.submitted && (f.assistantComplete || f.assistant.None?) && input.last == TextOf(f.assistant) && input.active == (f.corrections > 0)
    ensures var symbol := Handled(input.hook, input.delivery, input.active, input.last, corrected);
            && Allows(f, symbol)
            && Next(f, symbol) == f.(sent := true, correction := f.correction || corrected,
                                     corrections := if corrected then f.corrections + 1 else f.corrections)
  {
  }

  class Callbacks {
    var backend: Option<nat>
    var request: nat
    var turn: Option<nat>
    var sequence: nat
    var deliveries: set<nat>
    var run: Option<Hook>
    var pending: Option<nat>
    var sent: bool
    var submitted: bool
    var accepted: bool
    var correction: bool
    var corrections: nat
    var assistant: Option<Item>
    var assistantComplete: bool
    /** What this turn has shown so far, and all deliveries of all turns. */
    ghost var trace: seq<Symbol>
    ghost var spent: seq<nat>
    /** The frames accepted since the turn began. */
    ghost var taken: seq<Frame>

    function State(): Flags
      reads this
    {
      Flags(run, sent, submitted, accepted, correction, corrections, assistant, assistantComplete)
    }

    /** No delivery of any turn has come twice, and the sequence counts them. */
    ghost predicate Counted()
      reads this`spent, this`deliveries, this`sequence
    {
      && Distinct(spent) && (forall d :: d in deliveries <==> d in spent)
      && sequence == |spent| == |deliveries| <= MAX_DELIVERIES
    }

    /** The turn is what its frames have named. */
    ghost predicate Named()
      reads this`turn, this`taken, this`request
    {
      OneTurn(taken, request) && turn == TurnOf(taken, request)
    }

    /** This turn is one the flags accept. */
    ghost predicate Valid()
      reads this
    {
      && Machine(trace) == Some(State())
      && (pending.Some? ==> run.Some? && sent)
      && Counted() && Named()
    }

    constructor ()
      ensures Valid() && trace == [] && spent == [] && taken == []
    {
      backend, request, turn, sequence, deliveries, run, pending := None, 0, None, 0, {}, None, None;
      sent, submitted, accepted, correction, corrections, assistant, assistantComplete := false, false, false, false, 0, None, false;
      trace, spent, taken := [], [], [];
    }

    /** A turn may begin as soon as no hook is open, also where the last one was cut short. */
    method Begin(owner: nat, request: nat, genuine: bool) returns (ok: bool)
      requires Valid()
      modifies this
      ensures ok <==> old(run).None? && old(backend) != Some(owner) && genuine
      ensures ok ==> Valid() && trace == [] && spent == old(spent) && taken == []
      ensures ok ==> backend == Some(owner) && this.request == request && turn.None?
    {
      hide *;
      Parts();
      if run.Some? || pending.Some? || backend == Some(owner) || !genuine {
        return false;
      }
      this.request, backend, turn := request, Some(owner), None;
      Forget();
      trace, taken := [], [];
      BeginsValid();
      return true;
    }

    method Forget()
      modifies this`submitted, this`accepted, this`correction, this`corrections, this`assistant, this`assistantComplete, this`sent
      ensures !submitted && !accepted && !correction && corrections == 0 && assistant.None? && !assistantComplete && !sent
    {
      submitted, accepted, correction, corrections, assistant, assistantComplete, sent := false, false, false, 0, None, false, false;
    }

    lemma Parts()
      requires Valid()
      ensures Counted() && (pending.Some? ==> run.Some?)
    {
    }

    lemma BeginsValid()
      requires Counted() && pending.None? && run.None? && !sent && trace == [] && taken == [] && turn.None?
      requires !submitted && !accepted && !correction && corrections == 0 && assistant.None? && !assistantComplete
      ensures Valid()
    {
    }

    predicate Ready()
      reads this
    {
      run.Some? && !sent
    }

    /** A frame fits the turn: a start names it or repeats its name, and any other frame that names
        a turn names this one, stands for a symbol that is allowed, and completes no hook whose
        answer has not been delivered. */
    predicate Observable(frame: Frame, delivered: bool)
      reads this
    {
      && !frame.Foreign?
      && (StartsTurn(frame, request) ==> turn.None? || turn == Some(frame.turn))
      && (NamesTurn(frame) ==>
            && turn == Some(frame.turn)
            && (SymbolOf(frame).Some? ==> Allows(State(), SymbolOf(frame).value))
            && (frame.HookCompleted? && pending.Some? ==> delivered))
    }

    /** A frame is accepted if and only if it fits the turn. A start leaves the turn named, and no
        other frame changes its name. */
    method Observe(frame: Frame, delivered: bool) returns (ok: bool)
      requires Valid()
      modifies this
      ensures ok <==> old(Observable(frame, delivered))
      ensures ok ==> Valid() && spent == old(spent) && request == old(request) && backend == old(backend)
      ensures ok ==> turn == if StartsTurn(frame, old(request)) then Some(frame.turn) else old(turn)
      ensures ok ==> taken == old(taken) + [frame]
      ensures ok ==> trace == if SymbolOf(frame).Some? then old(trace) + [SymbolOf(frame).value] else old(trace)
    {
      hide Machine, Distinct, OneTurn, TurnOf, Allows;
      if frame.Foreign? {
        return false;
      }
      if StartsTurn(frame, request) {
        if turn.Some? && turn.value != frame.turn {
          return false;
        }
        turn := Some(frame.turn);
        Take(frame, old(turn));
        return true;
      }
      if !NamesTurn(frame) {
        Take(frame, turn);
        return true;
      }
      if turn != Some(frame.turn) {
        return false;
      }
      ok := Track(frame, delivered);
      if ok {
        Take(frame, turn);
      }
    }

    ghost method Take(frame: Frame, was: Option<nat>)
      requires OneTurn(taken, request) && was == TurnOf(taken, request)
      requires StartsTurn(frame, request) ==> was.None? || was == Some(frame.turn)
      requires NamesTurn(frame) ==> was == Some(frame.turn)
      requires turn == if StartsTurn(frame, request) then Some(frame.turn) else was
      modifies this`taken
      ensures Named() && taken == old(taken) + [frame]
    {
      TakenMore(taken, frame, request);
      taken := taken + [frame];
    }

    method Track(frame: Frame, delivered: bool) returns (ok: bool)
      requires Valid() && NamesTurn(frame)
      modifies this`run, this`pending, this`sent, this`submitted, this`assistant, this`assistantComplete, this`correction, this`accepted, this`trace
      ensures ok <==> (SymbolOf(frame).Some? ==> Allows(old(State()), SymbolOf(frame).value))
                      && (frame.HookCompleted? && old(pending).Some? ==> delivered)
      ensures ok ==> Valid()
      ensures ok ==> trace == if SymbolOf(frame).Some? then old(trace) + [SymbolOf(frame).value] else old(trace)
    {
      hide Machine, Counted, Allows, Next, Named;
      if SymbolOf(frame).Some? {
        MachineMore(trace, SymbolOf(frame).value);
      }
      match frame {
        case HookStarted(_, hook) => ok := TrackStart(hook);
        case HookCompleted(_, hook, blocked) => ok := TrackCompletion(hook, blocked, delivered);
        case ItemStart(_, item) => ok := TrackItem(ItemStarted(item));
        case ItemComplete(_, item) => ok := TrackItem(ItemCompleted(item));
        case ToolCall(_) => ok := TrackItem(ToolCalled);
        case TurnComplete(_, completed) => ok := !completed || TurnMayComplete();
        case _ => ok := true;
      }
      if ok && SymbolOf(frame).Some? {
        trace := trace + [SymbolOf(frame).value];
      }
    }

    predicate TurnMayComplete()
      requires Valid()
      reads this
      ensures TurnMayComplete() <==> Allows(State(), TurnCompleted)
      ensures Next(State(), TurnCompleted) == State()
    {
      accepted && run.None? && pending.None?
    }

    method TrackStart(hook: Hook) returns (ok: bool)
      requires pending.Some? ==> run.Some?
      modifies this`run, this`sent
      ensures ok <==> Allows(old(State()), Started(hook))
      ensures ok ==> State() == Next(old(State()), Started(hook)) && pending.None?
      ensures !ok ==> State() == old(State())
    {
      if run.Some? || pending.Some? || accepted {
        return false;
      }
      if (hook.UserPromptSubmit? && submitted) || (hook.Stop? && !(submitted && (assistantComplete || assistant.None?))) {
        return false;
      }
      run, sent := Some(hook), false;
      return true;
    }

    method TrackCompletion(hook: Hook, blocked: bool, delivered: bool) returns (ok: bool)
      modifies this`run, this`pending, this`submitted, this`assistant, this`assistantComplete, this`correction, this`accepted
      ensures ok <==> Allows(old(State()), Completed(hook, blocked)) && (old(pending).Some? ==> delivered)
      ensures ok ==> State() == Next(old(State()), Completed(hook, blocked)) && pending.None?
    {
      if run.None? || !sent || run.value != hook || blocked != correction || (pending.Some? && !delivered) {
        return false;
      }
      pending, run := None, None;
      if hook.UserPromptSubmit? {
        submitted := true;
      } else if correction {
        assistant, assistantComplete, correction := None, false, false;
      } else {
        accepted := true;
      }
      return true;
    }

    method TrackItem(s: Symbol) returns (ok: bool)
      requires s.ItemStarted? || s.ItemCompleted? || s.ToolCalled?
      modifies this`assistant, this`assistantComplete
      ensures ok <==> Allows(old(State()), s)
      ensures ok ==> State() == Next(old(State()), s)
    {
      if !(submitted && run.None? && !accepted) {
        return false;
      }
      if s.ItemStarted? {
        if assistant.Some? && !assistantComplete {
          return false;
        }
        assistant, assistantComplete := Some(s.item), false;
      } else if s.ItemCompleted? {
        if assistant.None? || assistant.value.id != s.item.id || assistantComplete {
          return false;
        }
        assistant, assistantComplete := Some(s.item), true;
      }
      return true;
    }

    /** A callback is dispatched once, for the open hook, under a delivery never seen before. It is
        refused if and only if it is not admissible, its dispatch fails, or its correction is not
        admitted; one that is not admissible changes nothing. */
    method Handle(input: Callback, dispatch: Dispatch, admitted: bool) returns (ok: bool)
      requires Valid()
      requires dispatch.Operation? && dispatch.correction ==> input.hook.Stop?
      modifies this`sequence, this`deliveries, this`spent, this`pending, this`corrections, this`correction, this`trace
      ensures ok <==> old(Admissible(input)) && !dispatch.Failure? && (dispatch.Operation? && !dispatch.hold && dispatch.correction ==> admitted)
      ensures !old(Admissible(input)) ==> Valid() && State() == old(State()) && spent == old(spent) && deliveries == old(deliveries)
      ensures ok ==> var corrected := dispatch.Operation? && !dispatch.hold && dispatch.correction;
                     var symbol := Handled(input.hook, input.delivery, input.active, input.last, corrected);
                     && Allows(old(State()), symbol)
                     && State().(sent := true) == Next(old(State()), symbol) && !sent
                     && trace == old(trace) + [symbol] && spent == old(spent) + [input.delivery]
                     && input.delivery !in old(spent) && |old(spent)| < MAX_DELIVERIES
                     && sequence == old(sequence) + 1 && deliveries == old(deliveries) + {input.delivery}
                     && turn == old(turn) == input.turn
    {
      hide Machine, Distinct, Next, Allows;
      if !Admissible(input) {
        return false;
      }
      HandledIs(State(), input, dispatch.Operation? && !dispatch.hold && dispatch.correction);
      sequence, deliveries := sequence + 1, deliveries + {input.delivery};
      spent := spent + [input.delivery];
      ok := Dispatched(dispatch, admitted);
      trace := trace + [Handled(input.hook, input.delivery, input.active, input.last, dispatch.Operation? && !dispatch.hold && dispatch.correction)];
    }

    /** What the plugins' answer changes. */
    method Dispatched(dispatch: Dispatch, admitted: bool) returns (ok: bool)
      modifies this`pending, this`corrections, this`correction
      ensures ok <==> !dispatch.Failure? && (dispatch.Operation? && !dispatch.hold && dispatch.correction ==> admitted)
      ensures ok ==> var corrected := dispatch.Operation? && !dispatch.hold && dispatch.correction;
                     && State() == old(State()).(correction := old(correction) || corrected,
                                                 corrections := if corrected then old(corrections) + 1 else old(corrections))
    {
      if dispatch.Failure? {
        return false;
      }
      if dispatch.Operation? {
        pending := Some(dispatch.id);
        if !dispatch.hold && dispatch.correction {
          if !admitted {
            return false;
          }
          corrections, correction := corrections + 1, true;
        }
      }
      return true;
    }

    /** Whether a callback is for the open hook, not yet handled, and says what has been seen. */
    predicate Admissible(input: Callback)
      reads this
    {
      && run.Some? && !sent && pending.None? && !accepted
      && input.genuine && input.hook == run.value && input.turn == turn
      && |deliveries| < MAX_DELIVERIES && input.delivery !in deliveries
      && if input.hook.UserPromptSubmit? then !submitted && !input.active && input.last.None?
         else submitted && (assistantComplete || assistant.None?) && input.last == TextOf(assistant) && input.active == (corrections > 0)
    }

    method Sent(confirmed: bool) returns (ok: bool)
      requires Ready()
      modifies this`sent
      ensures sent && ok == confirmed
    {
      sent := true;
      return confirmed;
    }

    /** The relay handles a callback, writes the answer and marks it as sent; nothing comes
        between, and a failure on the way ends the owner. */
    method Ordinary(input: Callback, dispatch: Dispatch, admitted: bool, written: bool, confirmed: bool) returns (ok: bool)
      requires Valid()
      requires dispatch.Operation? && dispatch.correction ==> input.hook.Stop?
      modifies this
      ensures ok ==> Valid() && spent == old(spent) + [input.delivery] && input.delivery !in old(spent)
      ensures ok ==> exists corrected :: trace == old(trace) + [Handled(input.hook, input.delivery, input.active, input.last, corrected)]
    {
      hide Machine;
      ghost var corrected := dispatch.Operation? && !dispatch.hold && dispatch.correction;
      ghost var symbol := Handled(input.hook, input.delivery, input.active, input.last, corrected);
      MachineMore(trace, symbol);
      ok := Handle(input, dispatch, admitted);
      if !ok || !written {
        return false;
      }
      ok := Sent(confirmed);
      assert trace == old(trace) + [symbol];
    }
  }
}
