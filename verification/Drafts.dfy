/** What becomes of a submitted draft: the owner of the session answers it, a turn takes it up,
    and the editor gives it up only when it has been accepted. */
module Drafts {
  import opened Utf8
  import opened Sessions
  import Commands

  // ---- Publication ----

  datatype Publication = Delivered | Stopped(end: End) | Broken | Pending

  /** While an event waits for the terminal, controls are obeyed and drafts are sent back. */
  function Publishing(q: seq<Moment>, allowCancel: bool): (seq<Note>, seq<Moment>, Publication) {
    if q == [] then ([], [], Pending)
    else
      match q[0]
      case Published => ([], q[1..], Delivered)
      case Unpublished(uiClosed) => ([], q[1..], if uiClosed then Stopped(Commands.ShuttingDown) else Broken)
      case Arrives(Shutdown, _) => ([], q[1..], Stopped(Commands.ShuttingDown))
      case Arrives(Closed, _) => ([], q[1..], Stopped(Commands.ShuttingDown))
      case Arrives(Cancel, _) => if allowCancel then ([], q[1..], Stopped(Commands.Cancelled)) else Publishing(q[1..], allowCancel)
      case Arrives(Submit(draft, live), _) =>
        var (notes, rest, p) := Publishing(q[1..], allowCancel);
        ([Received(draft.text), Replied(draft.text, false, live)] + notes, rest, p)
      case _ => Publishing(q[1..], allowCancel)
  }

  /** What ends the wait for an event without its being published. */
  predicate Thwarts(m: Moment, allowCancel: bool) {
    m.Unpublished? || (m.Arrives? && (m.command.Shutdown? || m.command.Closed? || (m.command.Cancel? && allowCancel)))
  }

  /** At `k` the event is published, or the wait ends, and nothing in front decides. */
  predicate DecidedAt(q: seq<Moment>, allowCancel: bool, k: nat) {
    && k < |q| && (q[k].Published? || Thwarts(q[k], allowCancel))
    && forall i :: 0 <= i < k ==> !q[i].Published? && !Thwarts(q[i], allowCancel)
  }

  predicate PublishedFirst(q: seq<Moment>, allowCancel: bool) {
    exists k :: 0 <= k < |q| && DecidedAt(q, allowCancel, k) && q[k].Published?
  }

  predicate ThwartedFirst(q: seq<Moment>, allowCancel: bool) {
    exists k :: 0 <= k < |q| && DecidedAt(q, allowCancel, k) && !q[k].Published?
  }

  /** An event is published if and only if that comes before everything that could end the wait. */
  lemma {:induction false} PublishedIff(q: seq<Moment>, allowCancel: bool)
    ensures Publishing(q, allowCancel).2 == Delivered <==> PublishedFirst(q, allowCancel)
    ensures Publishing(q, allowCancel).2.Stopped? || Publishing(q, allowCancel).2.Broken? <==> ThwartedFirst(q, allowCancel)
  {
    if q != [] {
      if q[0].Published? || Thwarts(q[0], allowCancel) {
        assert DecidedAt(q, allowCancel, 0);
      } else {
        PublishedIff(q[1..], allowCancel);
        DecidedLater(q, allowCancel);
        hide Thwarts, DecidedAt, PublishedFirst, ThwartedFirst;
        LaterPublication(q, allowCancel);
      }
    }
  }

  lemma LaterPublication(q: seq<Moment>, allowCancel: bool)
    requires q != [] && !q[0].Published? && !Thwarts(q[0], allowCancel)
    ensures Publishing(q, allowCancel).2 == Publishing(q[1..], allowCancel).2
  {
  }

  lemma DecidedLater(q: seq<Moment>, allowCancel: bool)
    requires q != [] && !q[0].Published? && !Thwarts(q[0], allowCancel)
    ensures PublishedFirst(q, allowCancel) <==> PublishedFirst(q[1..], allowCancel)
    ensures ThwartedFirst(q, allowCancel) <==> ThwartedFirst(q[1..], allowCancel)
  {
    forall k | 0 <= k < |q[1..]| ensures DecidedAt(q[1..], allowCancel, k) <==> DecidedAt(q, allowCancel, k + 1) {
      assert q[1..][k] == q[k + 1];
      assert forall i :: 0 <= i < k ==> q[1..][i] == q[i + 1];
      if DecidedAt(q[1..], allowCancel, k) {
        forall i | 0 <= i < k + 1 ensures !q[i].Published? && !Thwarts(q[i], allowCancel) {
          assert i > 0 ==> q[1..][i - 1] == q[i];
        }
      }
    }
    forall k: nat | DecidedAt(q, allowCancel, k) ensures k > 0 && DecidedAt(q[1..], allowCancel, k - 1) && q[1..][k - 1] == q[k] {
    }
    forall k: nat | DecidedAt(q[1..], allowCancel, k) ensures DecidedAt(q, allowCancel, k + 1) && q[1..][k] == q[k + 1] {
    }
  }

  /** What has become of an accepted draft when its turn has been announced, or not. */
  function Fate(text: Text, p: Publication): seq<Note> {
    match p
    case Delivered => [Prompted(text)]
    case Pending => []
    case _ => [Dropped(text)]
  }

  lemma FateShows(base: seq<Note>, text: Text, p: Publication, log: seq<Note>)
    requires base + Fate(text, p) <= log && (p != Delivered ==> log == base + Fate(text, p))
    ensures p == Delivered <==> base + [Prompted(text)] <= log
    ensures p.Stopped? || p.Broken? <==> log == base + [Dropped(text)]
  {
    if p != Pending {
      assert (base + Fate(text, p))[|base|] == Fate(text, p)[0];
      assert log[|base|] == Fate(text, p)[0];
    }
    assert (base + [Prompted(text)])[|base|] == Prompted(text);
    assert (base + [Dropped(text)])[|base|] == Dropped(text);
  }

  /** What the owner is at behind a publication, and what is left to note of the draft. */
  function Behind(event: Waiting, p: Publication): (Phase, seq<Note>) {
    match p
    case Delivered => Publishes(event)
    case Pending => (Announcing(event), [])
    case Broken => (Over, Dropping(event))
    case Stopped(end) => (if end.Cancelled? then Announcing(ToFinish) else Over, Dropping(event))
  }

  /** `rest` is what remains of a schedule; what came before has led to this phase, and to the notes
      in the log with those that are due. */
  predicate Follows(whole: seq<Moment>, initial: nat, rest: seq<Moment>, log: seq<Note>, phase: Phase, due: seq<Note>) {
    && |rest| <= |whole| && rest == whole[|whole| - |rest|..]
    && Life(whole[..|whole| - |rest|], initial) == (phase, log + due)
  }

  lemma FollowsNext(whole: seq<Moment>, initial: nat, rest: seq<Moment>, log: seq<Note>, phase: Phase)
    requires Follows(whole, initial, rest, log, phase, []) && rest != []
    ensures Follows(whole, initial, rest[1..], log, Step(phase, rest[0]).0, Step(phase, rest[0]).1)
  {
    hide Life, Step;
    var n := |whole| - |rest|;
    LifeMore(whole[..n], rest[0], initial);
    assert whole[..n + 1] == whole[..n] + [rest[0]] && whole[n + 1..] == rest[1..];
    assert log + [] == log;
  }

  lemma FollowsNote(whole: seq<Moment>, initial: nat, rest: seq<Moment>, log: seq<Note>, phase: Phase, due: seq<Note>)
    requires Follows(whole, initial, rest, log, phase, due) && due != []
    ensures Follows(whole, initial, rest, log + [due[0]], phase, due[1..])
  {
    hide Life;
    assert log + [due[0]] + due[1..] == log + due;
  }

  lemma FollowsAll(whole: seq<Moment>, initial: nat)
    ensures Follows(whole, initial, whole, [], Starting(initial), [])
  {
    assert whole[..0] == [];
    var none: seq<Note> := [];
    assert none + none == none;
  }

  class SessionOwner {
    /** How many events follow the one that the session is ready. */
    const initial: nat
    var schedule: seq<Moment>
    var corrections: seq<Text>
    /** The schedule of the whole session, and what has come of it. */
    ghost const whole: seq<Moment>
    ghost var log: seq<Note>

    /** The owner is where the moments taken from the schedule lead, with these notes still to make. */
    ghost predicate At(phase: Phase, due: seq<Note>)
      reads this`schedule, this`log
    {
      Follows(whole, initial, schedule, log, phase, due)
    }

    constructor (schedule: seq<Moment>, initial: nat)
      ensures At(Starting(initial), []) && log == [] && this.schedule == whole == schedule && this.initial == initial
    {
      this.schedule, corrections, log, whole, this.initial := schedule, [], [], schedule, initial;
      new;
      FollowsAll(schedule, initial);
    }

    method Next(ghost phase: Phase) returns (moment: Moment)
      requires At(phase, []) && schedule != []
      modifies this`schedule
      ensures moment == old(schedule)[0] && schedule == old(schedule)[1..]
      ensures At(Step(phase, moment).0, Step(phase, moment).1)
    {
      hide Step;
      FollowsNext(whole, initial, schedule, log, phase);
      moment, schedule := schedule[0], schedule[1..];
    }

    ghost method Enter(phase: Phase, due: seq<Note>)
      requires At(phase, due) && due != []
      modifies this`log
      ensures log == old(log) + [due[0]] && At(phase, due[1..])
    {
      FollowsNote(whole, initial, schedule, log, phase, due);
      log := log + [due[0]];
    }

    /** A submission is sent back; other commands that come now are not answered. */
    method Refuse(c: Command, ghost phase: Phase)
      requires At(phase, Refusing(c))
      modifies this`log
      ensures At(phase, []) && log == old(log) + Refusing(c)
    {
      hide Follows;
      ghost var due := Refusing(c);
      if c.Submit? {
        Enter(phase, due);
        Enter(phase, due[1..]);
        assert due[1..][1..] == [];
      }
    }

    method Publish(allowCancel: bool, ghost event: Waiting) returns (p: Publication)
      requires At(Announcing(event), []) && allowCancel == event.ToTurn?
      modifies this`schedule, this`log
      ensures |schedule| <= |old(schedule)| && At(Behind(event, p).0, Behind(event, p).1)
      ensures var (notes, rest, q) := Publishing(old(schedule), allowCancel);
              p == q && schedule == rest && log == old(log) + notes
      ensures if p == Pending then schedule == [] else |schedule| < |old(schedule)|
      ensures p.Stopped? ==> p.end == Commands.ShuttingDown || (p.end == Commands.Cancelled && allowCancel)
    {
      hide Follows;
      ghost var notes: seq<Note> := [];
      assert log + notes == log && notes + Publishing(schedule, allowCancel).0 == Publishing(schedule, allowCancel).0;
      while schedule != []
        invariant At(Announcing(event), []) && |schedule| <= |old(schedule)| && log == old(log) + notes
        invariant var (a, rest, q) := Publishing(schedule, allowCancel);
                  Publishing(old(schedule), allowCancel) == (notes + a, rest, q)
        decreases |schedule|
      {
        ghost var tail := Publishing(schedule[1..], allowCancel).0;
        var moment := Next(Announcing(event));
        if moment.Published? {
          return Delivered;
        } else if moment.Unpublished? {
          return if moment.uiClosed then Stopped(Commands.ShuttingDown) else Broken;
        } else if moment.Arrives? {
          var c := moment.command;
          if c.Shutdown? || c.Closed? {
            return Stopped(Commands.ShuttingDown);
          } else if c.Cancel? {
            if allowCancel {
              return Stopped(Commands.Cancelled);
            }
          } else {
            ghost var had := notes;
            Refuse(c, Announcing(event));
            notes := had + Refusing(c);
            assert had + (Refusing(c) + tail) == notes + tail && (Refusing(c) == [] ==> Refusing(c) + tail == tail);
          }
        }
      }
      return Pending;
    }

    /** Startup observes the host; drafts are sent back and a cancellation only ends the wait. */
    method Startup() returns (end: Option<End>)
      requires At(Starting(initial), [])
      modifies this`schedule, this`log
      ensures |schedule| <= |old(schedule)|
      ensures end.None? ==> At(Announcing(ToOpen(initial)), [])
      ensures end == Some(Commands.Unfinished) ==> schedule == [] && At(Starting(initial), [])
      ensures end.Some? && end != Some(Commands.Unfinished) ==> At(Over, [])
    {
      hide Follows;
      while schedule != []
        invariant At(Starting(initial), []) && |schedule| <= |old(schedule)|
        decreases |schedule|
      {
        var moment := Next(Starting(initial));
        if moment.Ready? {
          return None;
        } else if moment.Arrives? {
          match moment.command {
            case Shutdown => return Some(Commands.ShuttingDown);
            case Closed => return Some(Commands.CommandsClosed);
            case Cancel =>
              end := RefuseQueued();
              return;
            case Submit(_, _) => Refuse(moment.command, Starting(initial));
            case Prompt(_) =>
          }
        }
      }
      return Some(Commands.Unfinished);
    }

    /** Drafts that are queued already are sent back; a shutdown among them counts. */
    method RefuseQueued() returns (end: Option<End>)
      requires At(Announcing(ToOpen(initial)), [])
      modifies this`schedule, this`log
      ensures |schedule| <= |old(schedule)|
      ensures end.None? ==> At(Announcing(ToOpen(initial)), []) && (schedule == [] || !schedule[0].Arrives? || schedule[0].command.Closed?)
      ensures end.Some? ==> end == Some(Commands.ShuttingDown) && At(Over, [])
    {
      hide Follows;
      ghost var phase := Announcing(ToOpen(initial));
      while schedule != [] && schedule[0].Arrives? && !schedule[0].command.Closed?
        invariant At(phase, []) && |schedule| <= |old(schedule)|
        decreases |schedule|
      {
        var moment := Next(phase);
        if moment.command.Shutdown? {
          return Some(Commands.ShuttingDown);
        }
        Refuse(moment.command, phase);
      }
      return None;
    }

    /** One command while a turn runs: a submission is answered at once, and if it is accepted
        and heard it is a queued correction. */
    method InTurn(c: Command, ghost phase: Phase) returns (end: Option<End>)
      requires |corrections| <= Commands.CORRECTION_CAPACITY && At(phase, Answering(c, |corrections|))
      modifies this`corrections, this`log
      ensures At(phase, []) && |corrections| <= Commands.CORRECTION_CAPACITY
      ensures log == old(log) + Answering(c, |old(corrections)|)
      ensures (corrections, end) == var after := Commands.ControlOf(c, old(corrections), true); (after.corrections, after.end)
    {
      hide Follows;
      end := None;
      match c {
        case Cancel => return Some(Commands.Cancelled);
        case Shutdown => return Some(Commands.ShuttingDown);
        case Closed => return Some(Commands.CommandsClosed);
        case Prompt(draft) =>
          if !draft.control && |corrections| < Commands.CORRECTION_CAPACITY {
            corrections := corrections + [draft.text];
          }
        case Submit(draft, live) =>
          if draft.control || |corrections| >= Commands.CORRECTION_CAPACITY {
            Refuse(c, phase);
          } else {
            Accept(draft.text, live, phase);
            if live {
              corrections := corrections + [draft.text];
            }
          }
      }
    }

    method Accept(text: Text, live: bool, ghost phase: Phase)
      requires At(phase, [Received(text), Replied(text, true, live)] + if live then [Queued(text)] else [])
      modifies this`log
      ensures At(phase, [])
      ensures log == old(log) + ([Received(text), Replied(text, true, live)] + if live then [Queued(text)] else [])
    {
      hide Follows;
      ghost var due := [Received(text), Replied(text, true, live)] + if live then [Queued(text)] else [];
      Enter(phase, due);
      Enter(phase, due[1..]);
      if live {
        Enter(phase, due[1..][1..]);
        assert due[1..][1..][1..] == [];
      } else {
        assert due[1..][1..] == [];
      }
    }

    /** A prompt between turns; the adapter may have nowhere to send it. What is admitted, and heard,
        is to be announced as a turn. */
    method Admission(moment: Moment) returns (prompt: Option<Text>)
      requires moment.Arrives? && (moment.command.Prompt? || moment.command.Submit?)
      requires At(Step(Between, moment).0, Step(Between, moment).1)
      modifies this`log
      ensures var c := moment.command;
              prompt == if moment.admits && (c.Prompt? || c.live) then Some(c.draft.text) else None
      ensures At(if prompt.Some? then Announcing(ToTurn(if moment.command.Submit? then prompt else None)) else Between, [])
      ensures log == old(log) + Step(Between, moment).1
    {
      hide Follows;
      var c := moment.command;
      ghost var (phase, due) := Step(Between, moment);
      if c.Submit? {
        Enter(phase, due);
        Enter(phase, due[1..]);
        assert due[1..][1..] == [];
      }
      return if moment.admits && (c.Prompt? || c.live) then Some(c.draft.text) else None;
    }

    /** The turn of a prompt. Its draft is taken up if and only if the start of the turn has been
        published; otherwise it is dropped, and only a command or the terminal can cause that. */
    method Take(draft: Option<Text>) returns (end: End, broken: bool)
      requires At(Announcing(ToTurn(draft)), [])
      modifies this`schedule, this`corrections, this`log
      ensures |schedule| <= |old(schedule)|
      ensures if broken then At(Over, []) else if end == Commands.Unfinished then Unfinished() else At(AfterTurn(end), [])
      ensures draft.Some? ==>
                var (notes, _, p) := Publishing(old(schedule), true);
                && old(log) + notes + Fate(draft.value, p) <= log && (p != Delivered ==> log == old(log) + notes + Fate(draft.value, p))
                && (PublishedFirst(old(schedule), true) <==> old(log) + notes + [Prompted(draft.value)] <= log)
                && (ThwartedFirst(old(schedule), true) <==> log == old(log) + notes + [Dropped(draft.value)])
                && (p.Stopped? ==> end == p.end) && (p.Broken? <==> broken)
    {
      hide Follows, Publishing, PublishedFirst, ThwartedFirst, Life;
      PublishedIff(schedule, true);
      ghost var base := log + Publishing(schedule, true).0;
      var p := Announce(draft);
      end, broken := Commands.Unfinished, p == Broken;
      if p == Delivered {
        ghost var before := log;
        end := Turn(before);
      } else if p.Stopped? {
        end := p.end;
      }
      if draft.Some? {
        FateShows(base, draft.value, p, log);
      }
    }

    /** The schedule is used up while a turn runs or its start is announced. */
    ghost predicate Unfinished()
      reads this`schedule, this`log
    {
      schedule == [] && exists phase: Phase :: At(phase, []) && !phase.Over?
    }

    lemma StaysUnfinished(phase: Phase)
      requires schedule == [] && At(phase, []) && !phase.Over?
      ensures Unfinished()
    {
      hide Follows;
    }

    /** The start of a turn is published, and the draft taken up or dropped. */
    method Announce(draft: Option<Text>) returns (p: Publication)
      requires At(Announcing(ToTurn(draft)), [])
      modifies this`schedule, this`log
      ensures |schedule| <= |old(schedule)| && p == Publishing(old(schedule), true).2
      ensures p == Pending ==> Unfinished()
      ensures p != Pending ==> At(Behind(ToTurn(draft), p).0, [])
      ensures p.Stopped? ==> p.end == Commands.ShuttingDown || p.end == Commands.Cancelled
      ensures log == old(log) + Publishing(old(schedule), true).0 + if draft.Some? then Fate(draft.value, p) else []
    {
      hide Follows, Publishing;
      p := Publish(true, ToTurn(draft));
      if p == Pending {
        StaysUnfinished(Announcing(ToTurn(draft)));
      } else if draft.Some? {
        ghost var (phase, due) := Behind(ToTurn(draft), p);
        Enter(phase, due);
        assert due[1..] == [];
      }
    }

    /** A turn of some adapter, seen from the commands that reach it. */
    method Turn(ghost before: seq<Note>) returns (end: End)
      requires At(Phase.InTurn(0), []) && log == before
      modifies this`schedule, this`corrections, this`log
      ensures |schedule| <= |old(schedule)| && before <= log
      ensures if end == Commands.Unfinished then Unfinished() else At(AfterTurn(end), [])
    {
      hide Follows;
      corrections := [];
      while schedule != []
        invariant |corrections| <= Commands.CORRECTION_CAPACITY && At(Phase.InTurn(|corrections|), [])
        invariant |schedule| <= |old(schedule)| && before <= log
        decreases |schedule|
      {
        ghost var phase := Phase.InTurn(|corrections|);
        var moment := Next(phase);
        if moment.TurnEnds? && moment.end != Commands.Unfinished {
          return moment.end;
        } else if moment.Arrives? {
          var e := InTurn(moment.command, Step(phase, moment).0);
          if e.Some? {
            return e.value;
          }
        }
      }
      StaysUnfinished(Phase.InTurn(|corrections|));
      return Commands.Unfinished;
    }

    /** The session ends: no command can come any more, and those still queued are answered. */
    method Close()
      requires At(Over, [])
      modifies this`schedule, this`log
      ensures At(Over, []) && (schedule == [] || !schedule[0].Arrives?)
    {
      hide Follows;
      while schedule != [] && schedule[0].Arrives?
        invariant At(Over, [])
        decreases |schedule|
      {
        var moment := Next(Over);
        Refuse(moment.command, Over);
      }
    }

    /** One prompt or observation with its turn, and how the session goes on. */
    method Round(draft: Option<Text>) returns (over: bool, suspended: bool)
      requires At(Announcing(ToTurn(draft)), [])
      modifies this`schedule, this`corrections, this`log
      ensures |schedule| <= |old(schedule)|
      ensures if suspended then Unfinished() else At(if over then Over else Between, [])
    {
      hide Follows, Publishing, Life;
      var end, broken := Take(draft);
      if broken {
        return true, false;
      }
      if end.Unfinished? {
        return true, true;
      }
      if end.ShuttingDown? || end.CommandsClosed? {
        return true, false;
      }
      if end.Failed? {
        var p := Publish(false, ToReport);
        if p != Publication.Delivered {
          if p == Pending {
            StaysUnfinished(Announcing(ToReport));
          }
          return true, p == Pending;
        }
      }
      var p := Publish(false, ToFinish);
      if p == Pending {
        StaysUnfinished(Announcing(ToFinish));
      }
      return p != Publication.Delivered, p == Pending;
    }

    /** The whole life of a session. It stops where the moments taken from its schedule have ended it,
        with no command queued, or where the schedule is used up; and it has noted just what these
        moments lead to. */
    method Run() returns (suspended: bool)
      requires At(Starting(initial), [])
      modifies this`schedule, this`corrections, this`log
      ensures if suspended then Unfinished() else At(Over, []) && (schedule == [] || !schedule[0].Arrives?)
      ensures |schedule| <= |whole| && log == Life(whole[..|whole| - |schedule|], initial).1
      ensures !suspended ==> EndedIn(whole[..|whole| - |schedule|], initial)
      ensures Read(log).unanswered.None? && Read(log).ok && ReceivedIn(log) == SubmittedIn(whole[..|whole| - |schedule|])
    {
      hide Follows, Publishing, Life, Read, ReceivedIn, SubmittedIn, EndedIn;
      suspended := Live();
      if !suspended {
        Close();
      }
      WhatItMeans(suspended);
    }

    lemma WhatItMeans(suspended: bool)
      requires if suspended then Unfinished() else At(Over, [])
      ensures |schedule| <= |whole| && log == Life(whole[..|whole| - |schedule|], initial).1
      ensures !suspended ==> EndedIn(whole[..|whole| - |schedule|], initial)
      ensures Read(log).unanswered.None? && Read(log).ok && ReceivedIn(log) == SubmittedIn(whole[..|whole| - |schedule|])
    {
      hide Life, Read, ReceivedIn, SubmittedIn, EndedIn;
      assert log + [] == log;
      var taken := whole[..|whole| - |schedule|];
      LifeIsAccounted(taken, initial);
      OverIff(taken, initial);
    }

    /** The start, and turn after turn. */
    method Live() returns (suspended: bool)
      requires At(Starting(initial), [])
      modifies this`schedule, this`corrections, this`log
      ensures if suspended then Unfinished() else At(Over, [])
    {
      hide Follows, Publishing, Life;
      var end := Startup();
      if end == Some(Commands.Unfinished) {
        StaysUnfinished(Starting(initial));
        return true;
      }
      if end.Some? {
        return false;
      }
      var left := initial;
      var p := Publish(false, ToOpen(left));
      while p == Publication.Delivered && left > 0
        invariant 0 <= left <= initial && At(Behind(ToOpen(left), p).0, [])
        invariant (p == Pending ==> schedule == []) && (p.Stopped? ==> p.end == Commands.ShuttingDown)
      {
        left := left - 1;
        p := Publish(false, ToOpen(left));
      }
      if p == Pending {
        StaysUnfinished(Announcing(ToOpen(left)));
        return true;
      }
      if p != Publication.Delivered {
        return false;
      }
      suspended := Loop();
    }

    method Loop() returns (suspended: bool)
      requires At(Between, [])
      modifies this`schedule, this`corrections, this`log
      ensures if suspended then Unfinished() else At(Over, [])
    {
      hide Follows, Publishing, Life;
      while schedule != []
        invariant At(Between, [])
        decreases |schedule|
      {
        var moment := Next(Between);
        var over := false;
        if moment.Observed? {
          over, suspended := Round(None);
          if over || suspended {
            return;
          }
        } else if moment.Arrives? {
          var c := moment.command;
          if c.Shutdown? || c.Closed? {
            return false;
          }
          if c.Prompt? || c.Submit? {
            var prompt := Admission(moment);
            if prompt.Some? {
              over, suspended := Round(if c.Submit? then prompt else None);
              if over || suspended {
                return;
              }
            }
          }
        }
      }
      StaysUnfinished(Between);
      return true;
    }
  }

  // ---- The editor ----

  datatype Reply = Yes | No | Silent | Gone

  datatype Queue = Sent | Full | Disconnected

  /** What the developer does, and when the editor looks for an answer. */
  datatype Action = Edit(text: Text) | Send(queue: Queue) | Poll(reply: Reply, cancelSent: bool) | CancelKey(clear: bool)

  datatype Editor = Editor(input: Text, pending: Option<Text>, cancelPending: bool, busy: bool)

  const EMPTY_EDITOR := Editor([], None, false, false)

  function Perform(e: Editor, action: Action): Editor {
    match action
    case Edit(text) => e.(input := text)
    case Send(queue) => if e.pending.Some? || e.cancelPending || !queue.Sent? then e else e.(pending := Some(e.input))
    case Poll(reply, cancelSent) =>
      var polled :=
        if e.pending.None? || reply.Silent? then e
        else if reply.Yes? then e.(pending := None, busy := true, input := if e.input == e.pending.value then [] else e.input)
        else e.(pending := None);
      polled.(cancelPending := polled.cancelPending && !cancelSent)
    case CancelKey(clear) =>
      e.(cancelPending := true, input := if clear && !e.busy && e.pending.None? then [] else e.input)
  }

  function Edited(actions: seq<Action>): Editor {
    if actions == [] then EMPTY_EDITOR else Perform(Edited(actions[..|actions| - 1]), actions[|actions| - 1])
  }

  /** What the developer last wrote, unless it was cleared by an explicit cancellation. */
  function Written(actions: seq<Action>): Text {
    if actions == [] then []
    else
      var before, action := actions[..|actions| - 1], actions[|actions| - 1];
      match action
      case Edit(text) => text
      case CancelKey(clear) => if clear && !Edited(before).busy && Edited(before).pending.None? then [] else Written(before)
      case _ => Written(before)
  }

  /** Step `i` brought the acceptance of this very text. */
  predicate AcceptedAt(actions: seq<Action>, i: nat, text: Text)
    requires i < |actions|
  {
    actions[i].Poll? && actions[i].reply.Yes? && Edited(actions[..i]).pending == Some(text)
  }

  /** Nothing has been written since step `i`. */
  predicate UneditedSince(actions: seq<Action>, i: nat) {
    forall j :: i < j < |actions| ==> !actions[j].Edit?
  }

  /** The editor holds what was last written, or nothing; and nothing only if just that text has
      been submitted and accepted, and nothing has been written since. */
  lemma {:induction false} NoDraftIsLost(actions: seq<Action>)
    ensures var e := Edited(actions);
            e.input == Written(actions) || (e.input == [] && exists i :: 0 <= i < |actions| && AcceptedAt(actions, i, Written(actions)) && UneditedSince(actions, i))
  {
    if actions != [] {
      var n := |actions| - 1;
      var before, action := actions[..n], actions[n];
      NoDraftIsLost(before);
      if Edited(before).input == Written(before) {
        if action.Poll? && action.reply.Yes? && Edited(before).pending == Some(Written(before)) {
          assert AcceptedAt(actions, n, Written(actions)) && UneditedSince(actions, n);
        }
      } else {
        var i :| 0 <= i < |before| && AcceptedAt(before, i, Written(before)) && UneditedSince(before, i);
        assert before[..i] == actions[..i];
        assert AcceptedAt(actions, i, Written(before));
        assert action.Edit? || UneditedSince(actions, i);
      }
    }
  }

  class View {
    var input: Text
    var pendingPrompt: Option<Text>
    var cancelPending: bool
    var busy: bool

    function State(): Editor
      reads this
    {
      Editor(input, pendingPrompt, cancelPending, busy)
    }

    constructor ()
      ensures State() == EMPTY_EDITOR
    {
      input, pendingPrompt, cancelPending, busy := [], None, false, false;
    }

    method SubmitDraft(queue: Queue) returns (sent: Option<Text>)
      modifies this`pendingPrompt
      ensures State() == Perform(old(State()), Send(queue))
      ensures sent.Some? ==> sent == pendingPrompt == Some(input)
      ensures sent.None? ==> State() == old(State())
    {
      if pendingPrompt.Some? || cancelPending {
        return None;
      }
      match queue {
        case Sent =>
          pendingPrompt := Some(input);
          return pendingPrompt;
        case Full => return None;
        case Disconnected => return None;
      }
    }

    method PollCommands(reply: Reply, cancelSent: bool)
      modifies this
      ensures State() == Perform(old(State()), Poll(reply, cancelSent))
    {
      if pendingPrompt.Some? && !reply.Silent? {
        var text := pendingPrompt.value;
        pendingPrompt := None;
        if reply.Yes? {
          if input == text {
            input := [];
          }
          busy := true;
        }
      }
      if cancelPending && cancelSent {
        cancelPending := false;
      }
    }

    method RequestCancellation(clearIdleInput: bool)
      modifies this`cancelPending, this`input
      ensures State() == Perform(old(State()), CancelKey(clearIdleInput))
    {
      cancelPending := true;
      if clearIdleInput && !busy && pendingPrompt.None? {
        input := [];
      }
    }
  }
}
