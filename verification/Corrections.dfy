/** The bounded channel between the commands of a session and a backend that is at work:
    corrections hold a permit each from their admission until they are part of a prompt. */
module Corrections {
  import opened Utf8
  import opened Commands

  type Text = seq<char>

  /** Free permits, what the channel holds, what the backend has taken out but not yet used. */
  datatype Channel = Channel(free: nat, queue: seq<Text>, drained: seq<Text>, open: bool)

  const NEW_CHANNEL := Channel(CORRECTION_CAPACITY, [], [], true)

  /** Full: there was a permit, but no room in the channel. */
  datatype Answer = Accepted | Unheard | Rejected | Full | TurnOver | Control | NotAsked

  /** The relay and the backend take turns in any order; `Hang` drops the receiver. */
  datatype Action = Relay(command: Command) | Receive | Apply | Hang

  const SEPARATOR: Text := "\n\n"

  /** The texts of all corrections taken out so far, in one prompt. */
  function JoinTexts(texts: seq<Text>): Text {
    if texts == [] then []
    else if |texts| == 1 then texts[0]
    else JoinTexts(texts[..|texts| - 1]) + SEPARATOR + texts[|texts| - 1]
  }

  /** An admission takes a permit first and a place in the channel second. */
  function Admit(s: Channel, text: Text, live: bool): (Channel, Answer) {
    if s.free == 0 then (s, Rejected)
    else if !s.open then (s, TurnOver)
    else if |s.queue| >= CORRECTION_CAPACITY then (s, Full)
    else if live then (s.(free := s.free - 1, queue := s.queue + [text]), Accepted)
    else (s, Unheard)
  }

  function Perform(s: Channel, action: Action): (Channel, Answer) {
    match action
    case Relay(Cancel) => (s, TurnOver)
    case Relay(Shutdown) => (s, TurnOver)
    case Relay(Closed) => (s, TurnOver)
    case Relay(Prompt(draft)) => if draft.control then (s, Control) else Admit(s, draft.text, true)
    case Relay(Submit(draft, live)) => if draft.control then (s, Control) else Admit(s, draft.text, live)
    case Receive => if s.queue == [] then (s, NotAsked) else (s.(queue := s.queue[1..], drained := s.drained + [s.queue[0]]), NotAsked)
    case Apply => (s.(free := s.free + |s.drained|, drained := []), NotAsked)
    case Hang => (s.(open := false), NotAsked)
  }

  function Run(actions: seq<Action>): Channel {
    if actions == [] then NEW_CHANNEL else Perform(Run(actions[..|actions| - 1]), actions[|actions| - 1]).0
  }

  function TextOf(c: Command): Text {
    if c.Prompt? || c.Submit? then c.draft.text else []
  }

  /** What has been accepted, and what has become part of a prompt, in order. */
  function AcceptedBy(actions: seq<Action>): seq<Text> {
    if actions == [] then []
    else
      var before, action := actions[..|actions| - 1], actions[|actions| - 1];
      AcceptedBy(before) + if Perform(Run(before), action).1.Accepted? then [TextOf(action.command)] else []
  }

  function AppliedBy(actions: seq<Action>): seq<Text> {
    if actions == [] then []
    else
      var before, action := actions[..|actions| - 1], actions[|actions| - 1];
      AppliedBy(before) + if action.Apply? then Run(before).drained else []
  }

  /** At every step the permits that are free, those of queued corrections and those of drained
      ones make up the capacity, and every accepted text is in one of three places, in the
      order of admission. So a permit always comes with a place in the channel. */
  lemma {:induction false} PermitsAreConserved(actions: seq<Action>)
    ensures var s := Run(actions);
            && s.free + |s.queue| + |s.drained| == CORRECTION_CAPACITY
            && AcceptedBy(actions) == AppliedBy(actions) + s.drained + s.queue
  {
    if actions != [] {
      var before, action := actions[..|actions| - 1], actions[|actions| - 1];
      PermitsAreConserved(before);
      StepConserves(Run(before), AcceptedBy(before), AppliedBy(before), action);
    }
  }

  lemma StepConserves(s: Channel, accepted: seq<Text>, applied: seq<Text>, action: Action)
    requires s.free + |s.queue| + |s.drained| == CORRECTION_CAPACITY && accepted == applied + s.drained + s.queue
    ensures var (next, answer) := Perform(s, action);
            && next.free + |next.queue| + |next.drained| == CORRECTION_CAPACITY
            && (accepted + if answer.Accepted? then [TextOf(action.command)] else []) ==
               (applied + if action.Apply? then s.drained else []) + next.drained + next.queue
  {
    match action {
      case Receive =>
        if s.queue != [] {
          assert s.queue == [s.queue[0]] + s.queue[1..];
        }
      case _ =>
    }
  }

  /** The branch for a full channel behind an acquired permit is never taken, and a correction
      is rejected if and only if all permits are held by corrections still waiting. */
  lemma NeverFull(actions: seq<Action>, c: Command)
    ensures var answer := Perform(Run(actions), Relay(c)).1;
            && answer != Full
            && ((c.Prompt? || c.Submit?) && !c.draft.control ==>
                  (answer.Rejected? <==> |Run(actions).queue| + |Run(actions).drained| == CORRECTION_CAPACITY))
  {
    PermitsAreConserved(actions);
    hide Run;
  }

  /** A text for the backend is accepted if and only if a permit is free, the backend is there to
      receive and somebody hears the answer; then it is the last in the channel and holds a permit.
      Otherwise nothing changes. */
  lemma AcceptedIff(actions: seq<Action>, c: Command)
    requires (c.Prompt? || c.Submit?) && !c.draft.control
    ensures var s := Run(actions);
            var (next, answer) := Perform(s, Relay(c));
            && (answer.Accepted? <==> s.free > 0 && s.open && (c.Prompt? || c.live))
            && (answer.Accepted? ==> next == Channel(s.free - 1, s.queue + [c.draft.text], s.drained, s.open))
            && (!answer.Accepted? ==> next == s)
  {
    PermitsAreConserved(actions);
    hide Run, AcceptedBy, AppliedBy;
  }

  /** Corrections become parts of prompts in the order in which they were accepted. */
  lemma AppliedInOrder(actions: seq<Action>)
    ensures AppliedBy(actions) <= AcceptedBy(actions)
    ensures Run(actions).queue == [] && Run(actions).drained == [] ==> AppliedBy(actions) == AcceptedBy(actions)
  {
    PermitsAreConserved(actions);
    hide Run, AppliedBy, AcceptedBy;
  }

  function Start(texts: seq<Text>, k: nat): nat
    requires k < |texts|
  {
    if k == 0 then 0 else |JoinTexts(texts[..k])| + |SEPARATOR|
  }

  /** Every correction is in the prompt as it was written, and in its place. */
  lemma {:induction false} PromptHoldsEach(texts: seq<Text>, k: nat)
    requires k < |texts|
    ensures Start(texts, k) + |texts[k]| <= |JoinTexts(texts)|
    ensures JoinTexts(texts)[Start(texts, k)..Start(texts, k) + |texts[k]|] == texts[k]
    ensures k > 0 ==> Start(texts, k) == Start(texts, k - 1) + |texts[k - 1]| + |SEPARATOR|
  {
    if k > 0 {
      assert texts[..k][..k - 1] == texts[..k - 1];
      assert k == 1 ==> texts[..k] == [texts[0]];
    }
    if k < |texts| - 1 {
      var before := texts[..|texts| - 1];
      PromptHoldsEach(before, k);
      assert before[..k] == texts[..k];
      assert |JoinTexts(before)| <= |JoinTexts(texts)| && JoinTexts(texts)[..|JoinTexts(before)|] == JoinTexts(before);
      var from, to := Start(texts, k), Start(texts, k) + |texts[k]|;
      assert JoinTexts(texts)[from..to] == JoinTexts(texts)[..|JoinTexts(before)|][from..to];
    }
  }

  // ---- The channel as an object ----

  class CorrectionChannel {
    var free: nat
    var queue: seq<Text>
    var drained: seq<Text>
    var open: bool

    function State(): Channel
      reads this
    {
      Channel(free, queue, drained, open)
    }

    constructor ()
      ensures State() == NEW_CHANNEL
    {
      free, queue, drained, open := CORRECTION_CAPACITY, [], [], true;
    }

    /** A permit that is not passed on with a correction goes back at once. */
    method RelayCommand(c: Command) returns (answer: Answer)
      modifies this
      ensures (State(), answer) == Perform(old(State()), Relay(c))
    {
      if c.Cancel? || c.Shutdown? || c.Closed? {
        return TurnOver;
      }
      if c.draft.control {
        return Control;
      }
      if free == 0 {
        return Rejected;
      }
      free := free - 1;
      if !open {
        free := free + 1;
        return TurnOver;
      }
      if |queue| >= CORRECTION_CAPACITY {
        free := free + 1;
        return Full;
      }
      var acknowledged := c.Prompt? || c.live;
      if !acknowledged {
        free := free + 1;
        return Unheard;
      }
      queue := queue + [c.draft.text];
      return Accepted;
    }

    method ReceiveCorrection()
      modifies this`queue, this`drained
      ensures State() == Perform(old(State()), Receive).0
    {
      if queue != [] {
        drained, queue := drained + [queue[0]], queue[1..];
      }
    }

    /** The next prompt; the permits of its corrections are free again. */
    method CorrectionPrompt() returns (prompt: Text)
      modifies this`free, this`drained
      ensures State() == Perform(old(State()), Apply).0
      ensures prompt == JoinTexts(old(drained))
    {
      prompt := [];
      for k := 0 to |drained|
        invariant prompt == JoinTexts(drained[..k]) && drained == old(drained) && free == old(free)
      {
        assert drained[..k + 1][..k] == drained[..k];
        if k > 0 {
          prompt := prompt + SEPARATOR;
        }
        prompt := prompt + drained[k];
      }
      assert drained[..|drained|] == drained;
      free, drained := free + |drained|, [];
    }
  }
}
