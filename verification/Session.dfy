/** The life of a session, one moment after another: what the owner waits for, what it answers, and
    what becomes of the drafts it has accepted. */
module Sessions {
  import opened Utf8
  import Commands

  type Text = seq<char>
  type Command = Commands.Command
  type End = Commands.End

  /** What reaches the owner: commands, and the progress of what it waits for. `admits`: the adapter
      would have somewhere to send a prompt now. */
  datatype Moment =
    | Arrives(command: Command, admits: bool)
    | Published
    | Unpublished(uiClosed: bool)
    | Ready
    | Observed
    | TurnEnds(end: End)

  /** Somebody hears a reply or has gone. `Dropped`: an accepted draft that no turn takes up. */
  datatype Note =
    | Received(text: Text)
    | Replied(text: Text, accepted: bool, heard: bool)
    | Prompted(text: Text)
    | Queued(text: Text)
    | Dropped(text: Text)

  /** The event that waits for the terminal: that the session is ready, with some initial events
      behind it; the start of a turn, for a draft or not; an error; the end of a turn. */
  datatype Waiting = ToOpen(events: nat) | ToTurn(draft: Option<Text>) | ToReport | ToFinish

  /** What the owner is at. */
  datatype Phase = Starting(initial: nat) | Announcing(event: Waiting) | Between | InTurn(waiting: nat) | Over

  // ---- One moment ----

  function Refusing(c: Command): seq<Note> {
    if c.Submit? then [Received(c.draft.text), Replied(c.draft.text, false, c.live)] else []
  }

  function DraftOf(event: Waiting): seq<Text> {
    if event.ToTurn? && event.draft.Some? then [event.draft.value] else []
  }

  function Dropping(event: Waiting): seq<Note> {
    if DraftOf(event) != [] then [Dropped(DraftOf(event)[0])] else []
  }

  function Publishes(event: Waiting): (Phase, seq<Note>) {
    match event
    case ToOpen(events) => (if events == 0 then Between else Announcing(ToOpen(events - 1)), [])
    case ToTurn(draft) => (InTurn(0), if draft.Some? then [Prompted(draft.value)] else [])
    case ToReport => (Announcing(ToFinish), [])
    case ToFinish => (Between, [])
  }

  function Announces(event: Waiting, m: Moment): (Phase, seq<Note>) {
    match m
    case Published => Publishes(event)
    case Unpublished(_) => (Over, Dropping(event))
    case Arrives(Shutdown, _) => (Over, Dropping(event))
    case Arrives(Closed, _) => (Over, Dropping(event))
    case Arrives(Cancel, _) => if event.ToTurn? then (Announcing(ToFinish), Dropping(event)) else (Announcing(event), [])
    case Arrives(c, _) => (Announcing(event), Refusing(c))
    case _ => (Announcing(event), [])
  }

  /** What a turn answers while `waiting` corrections are queued. */
  function Answering(c: Command, waiting: nat): seq<Note> {
    if !c.Submit? then []
    else if c.draft.control || waiting >= Commands.CORRECTION_CAPACITY then Refusing(c)
    else [Received(c.draft.text), Replied(c.draft.text, true, c.live)] + if c.live then [Queued(c.draft.text)] else []
  }

  function AfterTurn(end: End): Phase {
    match end
    case ShuttingDown => Over
    case CommandsClosed => Over
    case Failed => Announcing(ToReport)
    case _ => Announcing(ToFinish)
  }

  function Turns(waiting: nat, m: Moment): (Phase, seq<Note>) {
    match m
    case TurnEnds(end) => (if end.Unfinished? then InTurn(waiting) else AfterTurn(end), [])
    case Arrives(Cancel, _) => (AfterTurn(Commands.Cancelled), [])
    case Arrives(Shutdown, _) => (Over, [])
    case Arrives(Closed, _) => (Over, [])
    case Arrives(c, _) =>
      (InTurn(if Commands.Adds(c) && waiting < Commands.CORRECTION_CAPACITY then waiting + 1 else waiting), Answering(c, waiting))
    case _ => (InTurn(waiting), [])
  }

  function Step(p: Phase, m: Moment): (Phase, seq<Note>) {
    match p
    case Starting(initial) =>
      if m.Ready? then (Announcing(ToOpen(initial)), [])
      else if !m.Arrives? then (p, [])
      else if m.command.Shutdown? || m.command.Closed? then (Over, [])
      else if m.command.Cancel? then (Announcing(ToOpen(initial)), [])
      else (p, Refusing(m.command))
    case Announcing(event) => Announces(event, m)
    case Between =>
      if m.Observed? then (Announcing(ToTurn(None)), [])
      else if !m.Arrives? then (p, [])
      else
        (match m.command
         case Shutdown => (Over, [])
         case Closed => (Over, [])
         case Cancel => (p, [])
         case Prompt(_) => (if m.admits then Announcing(ToTurn(None)) else p, [])
         case Submit(draft, live) =>
           (if m.admits && live then Announcing(ToTurn(Some(draft.text))) else p,
            [Received(draft.text), Replied(draft.text, m.admits, live)]))
    case InTurn(waiting) => Turns(waiting, m)
    case Over => (p, if m.Arrives? then Refusing(m.command) else [])
  }

  /** What the owner is at behind these moments, and all it has noted. */
  function Life(q: seq<Moment>, initial: nat): (Phase, seq<Note>) {
    if q == [] then (Starting(initial), [])
    else
      var (phase, log) := Life(q[..|q| - 1], initial);
      var (next, notes) := Step(phase, q[|q| - 1]);
      (next, log + notes)
  }

  lemma LifeMore(q: seq<Moment>, m: Moment, initial: nat)
    ensures var (phase, log) := Life(q, initial);
            var (next, notes) := Step(phase, m);
            Life(q + [m], initial) == (next, log + notes)
  {
    assert (q + [m])[..|q + [m]| - 1] == q;
    hide Step;
  }

  // ---- The account of a session ----

  /** The submission that has no reply yet, and accepted drafts that have come to nothing yet. */
  datatype Account = Account(unanswered: Option<Text>, accepted: seq<Text>, ok: bool)

  function Booked(a: Account, note: Note): Account {
    match note
    case Received(text) => a.(unanswered := Some(text), ok := a.ok && a.unanswered.None?)
    case Replied(text, accepted, heard) =>
      Account(None, if accepted && heard then a.accepted + [text] else a.accepted, a.ok && a.unanswered == Some(text))
    case Prompted(text) => Resolved(a, text)
    case Queued(text) => Resolved(a, text)
    case Dropped(text) => Resolved(a, text)
  }

  function Resolved(a: Account, text: Text): Account {
    if a.accepted != [] && a.accepted[0] == text then a.(accepted := a.accepted[1..]) else a.(ok := false)
  }

  /** `ok`: every submission has had one reply, at once; every accepted draft has come to one
      thing, in order, and nothing else has. */
  function Read(log: seq<Note>): Account {
    if log == [] then Account(None, [], true) else Booked(Read(log[..|log| - 1]), log[|log| - 1])
  }

  lemma ReadMore(log: seq<Note>, note: Note)
    ensures Read(log + [note]) == Booked(Read(log), note)
  {
    assert (log + [note])[..|log + [note]| - 1] == log;
  }

  /** The account behind a few more notes. */
  function Few(a: Account, notes: seq<Note>): Account
    decreases |notes|
  {
    if notes == [] then a else Few(Booked(a, notes[0]), notes[1..])
  }

  lemma {:induction false} ReadFew(log: seq<Note>, notes: seq<Note>)
    ensures Read(log + notes) == Few(Read(log), notes)
    decreases |notes|
  {
    if notes == [] {
      assert log + notes == log;
    } else {
      ReadMore(log, notes[0]);
      ReadFew(log + [notes[0]], notes[1..]);
      assert log + [notes[0]] + notes[1..] == log + notes;
      hide Read, Booked;
    }
  }

  lemma FewOnes(a: Account, x: Note, y: Note, z: Note)
    ensures Few(a, []) == a && Few(a, [x]) == Booked(a, x) && Few(a, [x, y]) == Booked(Booked(a, x), y)
    ensures Few(a, [x, y, z]) == Booked(Booked(Booked(a, x), y), z)
  {
    hide Booked;
    assert [x][1..] == [] && [x, y][1..] == [y] && [x, y, z][1..] == [y, z] && [y, z][1..] == [z] && [y][1..] == [] && [z][1..] == [];
    var b := Booked(a, x);
    assert Few(b, []) == b && Few(b, [y]) == Few(Booked(b, y), []);
    assert Few(b, [y, z]) == Few(Booked(b, y), [z]) == Few(Booked(Booked(b, y), z), []);
  }

  /** The accepted draft that is on its way. */
  function OnItsWay(p: Phase): seq<Text> {
    if p.Announcing? then DraftOf(p.event) else []
  }

  /** The texts of the submissions in a schedule, and those a log says have been received. */
  function SubmittedIn(q: seq<Moment>): seq<Text> {
    if q == [] then [] else SubmittedIn(q[..|q| - 1]) + SubmittedBy(q[|q| - 1])
  }

  function SubmittedBy(m: Moment): seq<Text> {
    if m.Arrives? && m.command.Submit? then [m.command.draft.text] else []
  }

  function ReceivedIn(log: seq<Note>): seq<Text> {
    if log == [] then []
    else ReceivedIn(log[..|log| - 1]) + if log[|log| - 1].Received? then [log[|log| - 1].text] else []
  }

  lemma {:induction false} ReceivedTogether(log: seq<Note>, notes: seq<Note>)
    ensures ReceivedIn(log + notes) == ReceivedIn(log) + ReceivedIn(notes)
  {
    if notes == [] {
      assert log + notes == log;
    } else {
      ReceivedTogether(log, notes[..|notes| - 1]);
      assert (log + notes)[..|log + notes| - 1] == log + notes[..|notes| - 1];
    }
  }

  /** Notes that receive and answer what a moment submits, and take up, queue or drop what has been
      accepted. */
  predicate Accounts(p: Phase, m: Moment, next: Phase, notes: seq<Note>) {
    ReceivedIn(notes) == SubmittedBy(m) && Few(Account(None, OnItsWay(p), true), notes) == Account(None, OnItsWay(next), true)
  }

  lemma ReceivedOnes(x: Note, y: Note, z: Note)
    requires !y.Received? && !z.Received?
    ensures var first := if x.Received? then [x.text] else [];
            ReceivedIn([]) == [] && ReceivedIn([x]) == first && ReceivedIn([x, y]) == first && ReceivedIn([x, y, z]) == first
  {
    assert [x][..0] == [] && [x, y][..1] == [x] && [x, y, z][..2] == [x, y];
  }

  lemma NothingAccounts(p: Phase, m: Moment, next: Phase)
    requires OnItsWay(next) == OnItsWay(p) && SubmittedBy(m) == []
    ensures Accounts(p, m, next, [])
  {
  }

  lemma RefusingAccounts(p: Phase, m: Moment, next: Phase)
    requires OnItsWay(next) == OnItsWay(p) && m.Arrives?
    ensures Accounts(p, m, next, Refusing(m.command))
  {
    var c := m.command;
    if c.Submit? {
      var x, y := Received(c.draft.text), Replied(c.draft.text, false, c.live);
      FewOnes(Account(None, OnItsWay(p), true), x, y, y);
      ReceivedOnes(x, y, y);
    }
  }

  lemma DroppingAccounts(event: Waiting, m: Moment, next: Phase)
    requires OnItsWay(next) == [] && SubmittedBy(m) == []
    ensures Accounts(Announcing(event), m, next, Dropping(event))
    ensures event.ToTurn? && event.draft.Some? ==> Accounts(Announcing(event), m, next, [Prompted(event.draft.value)])
  {
    if event.ToTurn? && event.draft.Some? {
      var text := event.draft.value;
      assert [text][1..] == [];
      FewOnes(Account(None, [text], true), Dropped(text), Dropped(text), Dropped(text));
      FewOnes(Account(None, [text], true), Prompted(text), Dropped(text), Dropped(text));
      ReceivedOnes(Dropped(text), Dropped(text), Dropped(text));
      ReceivedOnes(Prompted(text), Dropped(text), Dropped(text));
    } else {
      NothingAccounts(Announcing(event), m, next);
    }
  }

  lemma SubmissionAccounts(p: Phase, m: Moment, accepted: bool)
    requires OnItsWay(p) == [] && m.Arrives? && m.command.Submit?
    ensures var text, live := m.command.draft.text, m.command.live;
            var notes := [Received(text), Replied(text, accepted, live)];
            && (forall next :: OnItsWay(next) == (if accepted && live then [text] else []) ==> Accounts(p, m, next, notes))
            && (accepted && live ==> forall next :: OnItsWay(next) == [] ==> Accounts(p, m, next, notes + [Queued(text)]))
  {
    var text, live := m.command.draft.text, m.command.live;
    var x, y, z := Received(text), Replied(text, accepted, live), Queued(text);
    FewOnes(Account(None, OnItsWay(p), true), x, y, z);
    ReceivedOnes(x, y, z);
    assert [] + [text] == [text] && [text][1..] == [];
    assert [x, y] + [z] == [x, y, z];
    hide Few, ReceivedIn, OnItsWay;
  }

  lemma AnnouncesAccounts(event: Waiting, m: Moment)
    ensures var (next, notes) := Announces(event, m); Accounts(Announcing(event), m, next, notes)
  {
    var (next, notes) := Announces(event, m);
    hide Accounts;
    if m.Arrives? && !m.command.Shutdown? && !m.command.Closed? && !m.command.Cancel? {
      RefusingAccounts(Announcing(event), m, next);
    } else if notes == [] {
      NothingAccounts(Announcing(event), m, next);
    } else {
      DroppingAccounts(event, m, next);
    }
  }

  lemma StepAccounts(p: Phase, m: Moment)
    ensures var (next, notes) := Step(p, m); Accounts(p, m, next, notes)
  {
    var (next, notes) := Step(p, m);
    hide Accounts;
    if p.Announcing? {
      AnnouncesAccounts(p.event, m);
    } else if !m.Arrives? || !m.command.Submit? {
      NothingAccounts(p, m, next);
    } else if p.Between? {
      SubmissionAccounts(p, m, m.admits);
    } else if p.InTurn? {
      SubmissionAccounts(p, m, true);
      RefusingAccounts(p, m, next);
      var answer := [Received(m.command.draft.text), Replied(m.command.draft.text, true, m.command.live)];
      assert answer + [] == answer;
    } else {
      RefusingAccounts(p, m, next);
    }
  }

  /** Over any moments: each submission is received, in order, and nothing else; each is answered
      exactly once, and at once; and every accepted draft that somebody waits for has become the
      prompt of a turn or a queued correction or has been dropped, but for one whose turn is being
      announced. */
  lemma {:induction false} LifeIsAccounted(q: seq<Moment>, initial: nat)
    ensures var (phase, log) := Life(q, initial);
            Read(log) == Account(None, OnItsWay(phase), true) && ReceivedIn(log) == SubmittedIn(q)
  {
    if q != [] {
      var before, m := q[..|q| - 1], q[|q| - 1];
      LifeIsAccounted(before, initial);
      var (phase, log) := Life(before, initial);
      var notes := Step(phase, m).1;
      StepAccounts(phase, m);
      ReadFew(log, notes);
      ReceivedTogether(log, notes);
      hide Step, Read, ReceivedIn, Few, SubmittedBy, OnItsWay;
    }
  }

  // ---- What is accepted, and what ends a session ----

  /** Where a submission is accepted: between turns if the adapter admits it, and in a turn if it
      is no control and fewer than 32 corrections wait. */
  predicate Accepts(p: Phase, m: Moment)
    requires m.Arrives? && m.command.Submit?
  {
    || (p.Between? && m.admits)
    || (p.InTurn? && !m.command.draft.control && p.waiting < 32)
  }

  /** A submission is accepted if and only if it comes where it can be; so a refusal has its cause:
      the session is starting or over, an event waits for the terminal, the adapter does not admit
      it, it is a control, or 32 wait. What is accepted and heard becomes a correction in a turn,
      and between turns the owner announces a turn for it. */
  lemma RepliesAreEarned(q: seq<Moment>, initial: nat, i: nat)
    requires i < |q| && q[i].Arrives? && q[i].command.Submit?
    ensures var phase, text, live := Life(q[..i], initial).0, q[i].command.draft.text, q[i].command.live;
            var (next, notes) := Step(phase, q[i]);
            && Life(q[..i + 1], initial) == (next, Life(q[..i], initial).1 + notes)
            && notes[..2] == [Received(text), Replied(text, Accepts(phase, q[i]), live)]
            && (Accepts(phase, q[i]) && live && phase.Between? <==> next == Announcing(ToTurn(Some(text))) && phase.Between?)
            && (Accepts(phase, q[i]) && live && phase.InTurn? <==> notes[2..] == [Queued(text)])
            && (Accepts(phase, q[i]) && live && phase.InTurn? ==> next == InTurn(phase.waiting + 1))
  {
    LifeMore(q[..i], q[i], initial);
    assert q[..i + 1] == q[..i] + [q[i]];
    hide Life;
  }

  /** A session that is not over ends with a shutdown, with the end of all commands, with an event
      that cannot be published, or with a turn that has heard of one of the first two. */
  predicate Ends(p: Phase, m: Moment) {
    !p.Over?
    && match m
       case Arrives(c, _) => c.Shutdown? || c.Closed?
       case Unpublished(_) => p.Announcing?
       case TurnEnds(end) => p.InTurn? && (end.ShuttingDown? || end.CommandsClosed?)
       case _ => false
  }

  predicate EndedIn(q: seq<Moment>, initial: nat) {
    exists i :: 0 <= i < |q| && Ends(Life(q[..i], initial).0, q[i])
  }

  lemma {:induction false} OverIff(q: seq<Moment>, initial: nat)
    ensures Life(q, initial).0.Over? <==> EndedIn(q, initial)
  {
    if q != [] {
      var n := |q| - 1;
      OverIff(q[..n], initial);
      StepEnds(Life(q[..n], initial).0, q[n]);
      forall i | 0 <= i < n ensures q[..n][..i] == q[..i] && q[..n][i] == q[i] {
      }
      hide Step, Ends;
      if EndedIn(q[..n], initial) {
        var i :| 0 <= i < |q[..n]| && Ends(Life(q[..n][..i], initial).0, q[..n][i]);
        assert Ends(Life(q[..i], initial).0, q[i]);
      }
      if Ends(Life(q[..n], initial).0, q[n]) {
        assert EndedIn(q, initial);
      }
      assert EndedIn(q, initial) ==> EndedIn(q[..n], initial) || Ends(Life(q[..n], initial).0, q[n]);
    }
  }

  lemma StepEnds(p: Phase, m: Moment)
    ensures Step(p, m).0.Over? <==> p.Over? || Ends(p, m)
  {
  }

  /** A whole schedule in which an accepted draft does not become a prompt: a submission is
      answered, and a cancellation arrives while the start of its turn is being published. */
  lemma AcceptedDraftMayBeDropped(text: Text)
    ensures var submit := Arrives(Commands.Submit(Commands.Draft(text, false), true), true);
            Life([Ready, Published, submit, Arrives(Commands.Cancel, true), Published], 0) ==
            (Between, [Received(text), Replied(text, true, true), Dropped(text)])
  {
    var submit := Arrives(Commands.Submit(Commands.Draft(text, false), true), true);
    var cancel := Arrives(Commands.Cancel, true);
    LifeMore([], Ready, 0);
    LifeMore([Ready], Published, 0);
    LifeMore([Ready, Published], submit, 0);
    LifeMore([Ready, Published, submit], cancel, 0);
    LifeMore([Ready, Published, submit, cancel], Published, 0);
    assert [] + [Ready] == [Ready];
    assert [Ready] + [Published] == [Ready, Published];
    assert [Ready, Published] + [submit] == [Ready, Published, submit];
    assert [Ready, Published, submit] + [cancel] == [Ready, Published, submit, cancel];
    assert [Ready, Published, submit, cancel] + [Published] == [Ready, Published, submit, cancel, Published];
    assert Life([], 0) == (Starting(0), []);
    hide Life;
    var two := [Received(text), Replied(text, true, true)];
    assert [] + two == two && two + [Dropped(text)] + [] == [Received(text), Replied(text, true, true), Dropped(text)];
    assert Life([Ready, Published], 0) == (Between, []);
    assert Life([Ready, Published, submit], 0) == (Announcing(ToTurn(Some(text))), [Received(text), Replied(text, true, true)]);
  }
}
