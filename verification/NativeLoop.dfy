/** The model and tool loop of a native session, against every schedule of commands, tool and
    plugin outcomes, failures and crashes. */
module NativeLoop {
  import opened Utf8
  import opened Conversations
  import opened Compactions
  import opened Alignment
  import opened Commands
  import opened Courses
  import opened Deliveries
  import T = Turns
  import E = TurnEnds

  /** Whether the calls unanswered have been those pending up to note `i`. */
  predicate SoundUpTo(began: bool, log: seq<Note>, i: nat)
    requires i <= |log|
  {
    began && forall j :: 0 <= j < i ==> !log[j].Refused?
  }

  /** At every checkpoint the calls unanswered are those pending, and at every request none is:
      as long as no call of a response has been refused, and never after. */
  predicate NotesStand(began: bool, log: seq<Note>) {
    forall i :: 0 <= i < |log| ==>
      && (log[i].Saved? ==> Standing(log[i].history, log[i].pending, log[i].sound) && log[i].sound == SoundUpTo(began, log, i))
      && (log[i].Asked? ==> Standing(log[i].history, [], log[i].sound) && log[i].sound == SoundUpTo(began, log, i))
  }

  lemma SoundPrefix(began: bool, log: seq<Note>, longer: seq<Note>, i: nat)
    requires i <= |log| && log <= longer
    ensures SoundUpTo(began, longer, i) == SoundUpTo(began, log, i)
  {
    assert forall j :: 0 <= j < i ==> longer[j] == log[j];
  }

  lemma NotesStandMore(began: bool, log: seq<Note>, notes: seq<Note>)
    requires NotesStand(began, log)
    requires forall note <- notes :: !note.Saved? && !note.Asked? && !note.Refused?
    ensures NotesStand(began, log + notes)
    ensures SoundUpTo(began, log + notes, |log + notes|) == SoundUpTo(began, log, |log|)
  {
    var longer := log + notes;
    forall i | 0 <= i <= |log| ensures SoundUpTo(began, longer, i) == SoundUpTo(began, log, i) {
      SoundPrefix(began, log, longer, i);
    }
    forall i | |log| <= i < |longer| ensures longer[i] in notes {
    }
  }

  lemma NotesStandOne(began: bool, log: seq<Note>, note: Note, sound: bool)
    requires NotesStand(began, log) && sound == SoundUpTo(began, log, |log|)
    requires note.Saved? ==> Standing(note.history, note.pending, note.sound) && note.sound == sound
    requires note.Asked? ==> Standing(note.history, [], note.sound) && note.sound == sound
    ensures NotesStand(began, log + [note])
    ensures SoundUpTo(began, log + [note], |log| + 1) == (sound && !note.Refused?)
  {
    hide Standing;
    var longer := log + [note];
    forall i | 0 <= i <= |log| ensures SoundUpTo(began, longer, i) == SoundUpTo(began, log, i) {
      SoundPrefix(began, log, longer, i);
    }
  }

  lemma NothingNoted(began: bool)
    ensures Watched([]).ok && NotesStand(began, []) && SoundUpTo(began, [], 0) == began
  {
  }

  /** What the notes of a run say about a conversation that began well: every checkpoint has
      exactly its unanswered calls pending, and every request is well formed, if and only if no
      call of an earlier response has been refused. */
  lemma RunsStayAligned(log: seq<Note>, i: nat)
    requires NotesStand(true, log) && i < |log|
    ensures log[i].Saved? ==> (Aligned(log[i].history, log[i].pending) <==> forall j :: 0 <= j < i ==> !log[j].Refused?)
    ensures log[i].Asked? ==> (Paired(log[i].history) <==> forall j :: 0 <= j < i ==> !log[j].Refused?)
  {
    hide Standing, Aligned, Paired;
    if log[i].Saved? {
      StandingMeans(log[i].history, log[i].pending, log[i].sound);
    } else if log[i].Asked? {
      StandingMeans(log[i].history, [], log[i].sound);
    }
  }

  /** Control leaves notes that do not touch the conversation. */
  lemma ControlNotes(c: Command, corrections: seq<seq<char>>, heard: bool, log: seq<Note>)
    requires Watched(log).ok
    ensures var after := ControlOf(c, corrections, heard);
            && (forall note <- after.notes :: note.Replied? || note.Admitted?)
            && Watched(log + after.notes).ok
            && Apart(Watched(log + after.notes)) == Apart(Watched(log))
            && ((corrections == [] <==> Watched(log).clear) ==> (after.corrections == [] <==> Watched(log + after.notes).clear))
  {
    ControlShape(c, corrections, heard);
    hide ControlOf, Watched;
    var notes := ControlOf(c, corrections, heard).notes;
    if notes == [] {
      assert log + notes == log;
    } else {
      WatchedMore(log, notes[0]);
      if |notes| == 1 {
        assert log + notes == log + [notes[0]];
      } else {
        WatchedMore(log + [notes[0]], notes[1]);
        assert log + notes == log + [notes[0]] + [notes[1]];
      }
    }
  }

  /** The notes a command leaves: an answer, an admission, or both. */
  lemma ControlShape(c: Command, corrections: seq<seq<char>>, heard: bool)
    ensures var after := ControlOf(c, corrections, heard);
            && |after.notes| <= 2 && (forall note <- after.notes :: note.Replied? || note.Admitted?)
            && (after.notes == [] || (|after.notes| == 1 && after.notes[0].Replied?) ==> after.corrections == corrections)
            && (after.notes != [] && after.notes[|after.notes| - 1].Admitted? ==> after.corrections != [])
            && (|after.notes| == 2 ==> after.notes[0].Replied? && after.notes[1].Admitted?)
  {
  }

  lemma NoteStarted(began: bool, log: seq<Note>, id: nat)
    requires Watched(log).ok && Watched(log).open && Watched(log).entered == Some(id) && !Watched(log).started && NotesStand(began, log)
    ensures var more := log + [Started(id)];
            && Watched(more) == Watched(log).(started := true) && NotesStand(began, more)
            && SoundUpTo(began, more, |more|) == SoundUpTo(began, log, |log|)
  {
    WatchedMore(log, Started(id));
    NotesStandMore(began, log, [Started(id)]);
  }

  lemma NoteFinished(began: bool, log: seq<Note>, id: nat, success: bool)
    requires Watched(log).ok && Watched(log).open && Watched(log).entered == Some(id) && Watched(log).started && Watched(log).outcome == None
    requires NotesStand(began, log)
    ensures var more := log + [Finished(id, success)];
            && Watched(more) == Watched(log).(outcome := Some(success)) && NotesStand(began, more)
            && SoundUpTo(began, more, |more|) == SoundUpTo(began, log, |log|)
  {
    WatchedMore(log, Finished(id, success));
    NotesStandMore(began, log, [Finished(id, success)]);
  }

  lemma BehindNothing(w: Waited)
    ensures Behind([], w) == w
  {
  }

  lemma BehindMore(a: seq<Note>, b: seq<Note>, w: Waited)
    ensures Behind(a, Behind(b, w)) == Behind(a + b, w)
  {
    assert a + b + w.notes == a + (b + w.notes);
  }

  lemma BehindIs(notes: seq<Note>, w: Waited)
    ensures Behind(notes, w) == Waited(notes + w.notes, w.corrections, w.rest, w.got)
  {
  }

  lemma SelectStep(q: seq<Moment>, corrections: seq<seq<char>>, tool: Option<nat>, started: bool)
    ensures q == [] ==> Select(q, corrections, tool, started) == Waited([], corrections, [], Suspended)
    ensures q != [] && q[0].Arrives? ==>
              var (after, rest) := ControlStep(q[0].command, corrections, q[1..]);
              Select(q, corrections, tool, started) ==
              if after.end.Some? then Waited(after.notes, after.corrections, rest, Ended(after.end.value))
              else Behind(after.notes, Select(rest, after.corrections, tool, started))
    ensures q != [] && !q[0].Arrives? ==>
              var start := if tool.Some? && !started then [Started(tool.value)] else [];
              Select(q, corrections, tool, started) ==
              if q[0].Done? then Waited(start + FinishOf(tool, q[0].outcome), corrections, q[1..], Returned(q[0].outcome))
              else if q[0].Fails? then Waited(start, corrections, q[1..], Errored)
              else Behind(start, Select(q[1..], corrections, tool, true))
  {
    hide ControlStep;
  }

  lemma ReceiptStep(q: seq<Moment>, corrections: seq<seq<char>>, receipt: Option<ToolResult>)
    ensures q == [] ==> ReceiptOf(q, corrections, receipt) == receipt
    ensures q != [] && q[0].Arrives? ==>
              var (after, rest) := ControlStep(q[0].command, corrections, q[1..]);
              ReceiptOf(q, corrections, receipt) == if after.end.Some? then receipt else ReceiptOf(rest, after.corrections, receipt)
    ensures q != [] && !q[0].Arrives? ==>
              ReceiptOf(q, corrections, receipt) ==
              if q[0].Done? || q[0].Fails? then receipt else ReceiptOf(q[1..], corrections, if q[0].Receipt? then Some(q[0].result) else receipt)
  {
    hide ControlStep;
  }

  /** The results of the first of these calls, in order; the others are left. */
  predicate AreResults(calls: seq<ToolCall>, given: seq<ToolResult>, left: seq<ToolCall>) {
    && |given| <= |calls| && left == calls[|given|..]
    && forall i :: 0 <= i < |given| ==> given[i].id == calls[i].id && given[i].tool == calls[i].name
  }

  lemma NoResults(calls: seq<ToolCall>)
    ensures AreResults(calls, [], calls)
  {
  }

  lemma AreResultsMore(calls: seq<ToolCall>, given: seq<ToolResult>, left: seq<ToolCall>)
    requires AreResults(calls, given, left)
    ensures left != [] ==> forall origin :: AreResults(calls, given + [ToolResult(left[0].id, left[0].name, origin)], left[1..])
  {
  }

  class NativeSession {
    const toolsEnabled: bool
    var history: seq<Message>
    var pending: seq<ToolCall>
    var completed: Option<ToolResult>
    /** Corrections that wait, and those of the batch being delivered. */
    var corrections: seq<seq<char>>
    var batch: seq<seq<char>>
    var stopHookActive: bool
    var developerPrompt: Option<seq<char>>
    /** What happens next outside of the session. */
    var schedule: seq<Moment>
    /** All that happens from the beginning of the notes. */
    ghost var whole: seq<Moment>
    ghost var log: seq<Note>
    ghost var began: bool
    ghost var sound: bool
    /** The notes before the turn, and what has been admitted and delivered since. */
    ghost var earlier: seq<Note>
    ghost var admitted: seq<seq<char>>
    ghost var delivered: seq<seq<char>>
    ghost var course: Course

    /** Corrections are delivered in the order of their admission, and none is lost. */
    ghost predicate Queued()
      reads this`admitted, this`delivered, this`batch, this`corrections
    {
      && admitted == delivered + batch + corrections
      && |batch| <= CORRECTION_CAPACITY && |corrections| <= CORRECTION_CAPACITY
    }

    ghost predicate Recorded()
      reads this`log, this`began, this`sound
    {
      && Watched(log).ok && NotesStand(began, log)
      && sound == SoundUpTo(began, log, |log|)
    }

    ghost predicate Accounted()
      reads this`earlier, this`log, this`course, this`history, this`admitted, this`delivered
    {
      Account(earlier, log, course, history, admitted, delivered)
    }

    /** Submissions taken from the schedule have been answered, but for those in hand. */
    ghost predicate Tracks(inHand: seq<seq<char>>)
      reads this`whole, this`schedule, this`log
    {
      Follows(whole, schedule, log, inHand)
    }

    ghost predicate Sound()
      reads this`history, this`pending, this`admitted, this`delivered, this`batch, this`corrections, this`log, this`began, this`sound, this`earlier, this`course
    {
      Standing(history, pending, sound) && Queued() && Recorded() && Accounted()
    }

    ghost predicate Valid()
      reads this`history, this`pending, this`admitted, this`delivered, this`batch, this`corrections, this`log, this`began, this`sound, this`earlier, this`course, this`whole, this`schedule
    {
      Sound() && Tracks([])
    }

    /** The flag for Stop hooks is what it should be. */
    ghost predicate Flagged()
      reads this`stopHookActive, this`course
    {
      stopHookActive == course.blocked
    }

    /** In every state of every run at most twice the capacity waits, and at most the capacity
        while no batch is being delivered. */
    lemma WaitingIsBounded()
      requires Valid()
      ensures |batch| + |corrections| <= 64 && (batch == [] ==> |batch| + |corrections| <= 32)
    {
    }

    /** A correction waits if and only if one has been admitted since the last request. */
    ghost predicate Clear()
      reads this`corrections, this`log
    {
      corrections == [] <==> Watched(log).clear
    }

    /** No tool is in progress, and no plugin has asked for a correction. */
    ghost predicate Ready()
      reads this`log
    {
      !Watched(log).open && !Watched(log).overruled
    }

    /** The tool chosen has not come back; whether it has been polled. */
    ghost predicate Underway(tool: Option<nat>, polled: bool)
      reads this`log
    {
      var w := Watched(log);
      tool.Some? ==> w.open && w.entered == tool && w.started == polled && w.outcome == None
    }

    /** The tool chosen has come back. */
    ghost predicate Back(tool: Option<nat>, got: Got)
      reads this`log
    {
      var w := Watched(log);
      tool.Some? && got.Returned? ==> w.open && w.entered == tool && w.outcome == Some(got.outcome.success)
    }

    /** The results given since the last request. */
    ghost function Given(): seq<ToolResult>
      reads this`log
    {
      Watched(log).results
    }

    ghost function Seen(end: Option<End>): (t: T.Talk)
      reads this`history, this`pending, this`completed, this`corrections, this`batch, this`developerPrompt, this`schedule
      ensures t.end == end && t.corrections == corrections && t.pending == pending && t.rest == schedule
    {
      T.Talk(history, pending, completed, corrections, batch, developerPrompt, schedule, end)
    }

    lemma SeenIs(end: Option<End>)
      ensures Seen(end) == T.Talk(history, pending, completed, corrections, batch, developerPrompt, schedule, end)
    {
    }

    constructor (toolsEnabled: bool, schedule: seq<Moment>)
      ensures Valid() && began && sound && history == [] && pending == [] && log == []
      ensures this.schedule == whole == schedule
    {
      this.toolsEnabled, this.schedule := toolsEnabled, schedule;
      history, pending, completed, corrections, batch, stopHookActive := [], [], None, [], [], false;
      developerPrompt := None;
      log, began, sound, admitted, delivered := [], true, true, [], [];
      earlier, course, whole := [], BEFORE, schedule;
      new;
      FollowsAll(schedule);
    }

    /** What happens next. */
    method Next() returns (moment: Moment)
      requires Tracks([]) && schedule != []
      modifies this`schedule
      ensures moment == old(schedule)[0] && schedule == old(schedule)[1..] && Tracks(InHand(moment))
      ensures old(Valid()) && InHand(moment) == [] ==> Valid()
    {
      hide Standing, Queued, Recorded, Accounted, Follows;
      FollowsNext(whole, schedule, log);
      moment, schedule := schedule[0], schedule[1..];
    }

    /** A call into the runtime that is not awaited and may fail. */
    method Succeeds() returns (ok: bool)
      modifies this`schedule
      requires Tracks([])
      ensures |schedule| <= |old(schedule)| && (ok, schedule) == TryOf(old(schedule))
      ensures Seen(if ok then None else Some(Failed)) == T.Trying(old(Seen(None))) && Seen(None) == T.Trying(old(Seen(None))).(end := None)
      ensures Tracks([]) && (old(Valid()) ==> Valid())
    {
      hide Follows, Sound;
      ok := !(schedule != [] && schedule[0].Fails?);
      if !ok {
        var _ := Next();
      }
    }

    /** A question to the runtime that is not awaited. */
    method Asks() returns (n: nat)
      modifies this`schedule
      requires Tracks([])
      ensures |schedule| <= |old(schedule)| && (n, schedule) == AskOf(old(schedule))
      ensures Seen(None) == old(Seen(None)).(rest := schedule)
      ensures Tracks([]) && (old(Valid()) ==> Valid())
    {
      hide Follows, Sound;
      n := 0;
      if schedule != [] && schedule[0].Says? {
        var moment := Next();
        n := moment.n;
      }
    }

    /** What a command does to the queue, and whether it ends the turn. */
    method Obey(c: Command) returns (end: Option<End>)
      requires Tracks([])
      modifies this`schedule, this`corrections
      ensures |schedule| <= |old(schedule)| && end != Some(Complete) && Tracks([])
      ensures var (after, rest) := ControlStep(c, old(corrections), old(schedule));
              (end, corrections, schedule) == (after.end, after.corrections, rest)
    {
      hide Follows;
      end := None;
      var notice := false;
      match c {
        case Cancel => end := Some(Cancelled);
        case Shutdown => end := Some(ShuttingDown);
        case Closed => end := Some(CommandsClosed);
        case Prompt(draft) =>
          if !draft.control && |corrections| < CORRECTION_CAPACITY {
            corrections := corrections + [draft.text];
          }
          notice := true;
        case Submit(draft, live) =>
          if draft.control {
          } else if |corrections| >= CORRECTION_CAPACITY {
            notice := true;
          } else if live {
            corrections := corrections + [draft.text];
            notice := true;
          }
      }
      if notice {
        var ok := Succeeds();
        if !ok {
          end := Some(Failed);
        }
      }
    }

    method Control(c: Command) returns (end: Option<End>)
      requires Sound() && Tracks(InHand(Arrives(c)))
      modifies this`schedule, this`corrections, this`log, this`admitted
      ensures Valid() && |schedule| <= |old(schedule)|
      ensures old(Clear()) ==> Clear()
      ensures Apart(Watched(log)) == old(Apart(Watched(log)))
      ensures end != Some(Complete)
      ensures var (after, rest) := ControlStep(c, old(corrections), old(schedule));
              && (end, corrections, schedule) == (after.end, after.corrections, rest)
              && log == old(log) + after.notes
    {
      hide Valid, Sound, Tracks, Watched, Apart, ControlOf, Notices, AdmittedIn, InHand;
      ghost var heard := !(Notices(c, corrections) && schedule != [] && schedule[0].Fails?);
      NoteControl(c, heard);
      end := Enact(c);
    }

    /** What a command leaves in the notes, ahead of its effect on the queue. */
    ghost method NoteControl(c: Command, heard: bool)
      requires Sound() && Tracks(InHand(Arrives(c)))
      modifies this`log, this`admitted
      ensures var after := ControlOf(c, corrections, heard); log == old(log) + after.notes && Foreseen(after.corrections)
      ensures Apart(Watched(log)) == old(Apart(Watched(log)))
      ensures old(Clear()) ==> (ControlOf(c, corrections, heard).corrections == [] <==> Watched(log).clear)
    {
      hide Standing, NotesStand, SoundUpTo, Watched, Apart, AdmittedIn, Account, ControlOf, Follows;
      ghost var notes := ControlOf(c, corrections, heard).notes;
      ControlNotes(c, corrections, heard, log);
      QueueGrows(c, corrections, heard);
      NotesStandMore(began, log, notes);
      AccountNotes(earlier, log, course, history, admitted, delivered, notes);
      ControlAnswers(c, corrections, heard);
      FollowsNotes(whole, schedule, log, notes);
      log, admitted := log + notes, admitted + AdmittedIn(notes);
    }

    /** The state is valid as soon as the queue is this one. */
    ghost predicate Foreseen(corrections: seq<seq<char>>)
      reads this`history, this`pending, this`admitted, this`delivered, this`batch, this`log, this`began, this`sound, this`earlier, this`course, this`whole, this`schedule
    {
      && Standing(history, pending, sound) && Recorded() && Accounted() && Tracks([])
      && admitted == delivered + batch + corrections && |batch| <= CORRECTION_CAPACITY && |corrections| <= CORRECTION_CAPACITY
    }

    method Enact(c: Command) returns (end: Option<End>)
      requires Foreseen(ControlOf(c, corrections, !(Notices(c, corrections) && schedule != [] && schedule[0].Fails?)).corrections)
      modifies this`schedule, this`corrections
      ensures Valid() && |schedule| <= |old(schedule)| && end != Some(Complete)
      ensures var (after, rest) := ControlStep(c, old(corrections), old(schedule));
              (end, corrections, schedule) == (after.end, after.corrections, rest)
    {
      hide Standing, Recorded, Accounted, ControlOf, Notices, Tracks;
      end := Obey(c);
    }

    lemma OpenUp()
      requires Valid()
      ensures Sound() && Tracks([]) && InHand(Idle) == []
    {
      hide Sound, Tracks;
    }

    lemma EachAnsweredOnce()
      requires Valid()
      ensures |schedule| <= |whole| && AnsweredIn(log) == SubmittedIn(whole[..|whole| - |schedule|])
    {
      hide Sound, AnsweredIn, SubmittedIn;
      assert AnsweredIn(log) + [] == AnsweredIn(log);
    }

    /** Commands that are already there are taken before anything else happens. */
    method Drain() returns (end: Option<End>)
      requires Valid()
      modifies this`schedule, this`corrections, this`log, this`admitted
      ensures Valid() && |schedule| <= |old(schedule)| && end != Some(Complete)
      ensures old(Clear()) ==> Clear()
      ensures Apart(Watched(log)) == old(Apart(Watched(log)))
      ensures var (drained, rest) := DrainOf(old(schedule), old(corrections));
              (end, corrections, schedule) == (drained.end, drained.corrections, rest) && log == old(log) + drained.notes
      ensures Seen(end) == T.Draining(old(Seen(None)))
    {
      hide *;
      end := None;
      SeenIs(None);
      T.DrainingIs(Seen(None));
      ghost var notes: seq<Note> := [];
      DrainedAfter(notes, DrainOf(schedule, corrections));
      while schedule != [] && schedule[0].Arrives?
        invariant Valid() && |schedule| <= |old(schedule)| && end == None
        invariant old(Clear()) ==> Clear()
        invariant log == old(log) + notes && Apart(Watched(log)) == old(Apart(Watched(log)))
        invariant DrainOf(old(schedule), old(corrections)) == After(notes, DrainOf(schedule, corrections))
        decreases |schedule|
      {
        DrainStep(schedule, corrections);
        ghost var step := ControlStep(schedule[0].command, corrections, schedule[1..]);
        DrainedTwice(notes, step.0.notes, DrainOf(step.1, step.0.corrections));
        DrainedAfter(notes, step);
        OpenUp();
        var moment := Next();
        end := Control(moment.command);
        notes := notes + step.0.notes;
        if end.Some? {
          SeenIs(end);
          return;
        }
      }
      DrainEnds(schedule, corrections);
      DrainedAfter(notes, DrainOf(schedule, corrections));
      if schedule != [] && schedule[0].Idle? {
        OpenUp();
        var _ := Next();
      }
      SeenIs(end);
    }

    /** One moment of waiting: a command, or else a poll of the future. */
    method Poll(tool: Option<nat>, polled: bool) returns (got: Option<Got>, again: bool, ghost notes: seq<Note>)
      requires Valid() && schedule != [] && Underway(tool, polled)
      modifies this`schedule, this`corrections, this`log, this`admitted, this`completed
      ensures Valid() && |schedule| < |old(schedule)| && got != Some(Ended(Complete))
      ensures tool.None? ==> completed == old(completed) && Apart(Watched(log)) == old(Apart(Watched(log)))
      ensures tool.Some? ==> ReceiptOf(old(schedule), old(corrections), old(completed)) ==
                             if got.Some? then completed else ReceiptOf(schedule, corrections, completed)
      ensures old(Clear()) ==> Clear()
      ensures if got.Some? then Back(tool, got.value) else Underway(tool, again)
      ensures Given() == old(Given()) && Watched(log).overruled == old(Watched(log).overruled)
      ensures log == old(log) + notes
      ensures Select(old(schedule), old(corrections), tool, polled) ==
              Behind(notes, if got.Some? then Waited([], corrections, schedule, got.value) else Select(schedule, corrections, tool, again))
    {
      hide Standing, NotesStand, SoundUpTo, Watched, Select, ControlStep, Queued, Account, Follows, ReceiptOf;
      SelectStep(schedule, corrections, tool, polled);
      ReceiptStep(schedule, corrections, completed);
      var moment := Next();
      if moment.Arrives? {
        notes := ControlStep(moment.command, corrections, schedule).0.notes;
        var end := Control(moment.command);
        return if end.Some? then Some(Ended(end.value)) else None, polled, notes;
      }
      notes := Begun(tool, polled);
      if moment.Done? {
        ghost var more := CameBack(tool, moment.outcome);
        notes := notes + more;
        return Some(Returned(moment.outcome)), true, notes;
      } else if moment.Fails? {
        return Some(Errored), true, notes;
      } else if moment.Receipt? && tool.Some? {
        completed := Some(moment.result);
      }
      return None, true, notes;
    }

    /** The first poll of a tool starts it. */
    ghost method Begun(tool: Option<nat>, polled: bool) returns (notes: seq<Note>)
      requires Valid() && Underway(tool, polled)
      modifies this`log
      ensures Valid() && Underway(tool, true) && (old(Clear()) ==> Clear())
      ensures notes == if tool.Some? && !polled then [Started(tool.value)] else []
      ensures log == old(log) + notes && Watched(log) == if notes == [] then old(Watched(log)) else old(Watched(log)).(started := true)
    {
      hide Standing, NotesStand, SoundUpTo, Watched, Queued, Account, Follows;
      notes := [];
      if tool.Some? && !polled {
        NoteStarted(began, log, tool.value);
        AccountQuiet(earlier, log, course, history, admitted, delivered, Started(tool.value));
        FollowsNote(whole, schedule, log, Started(tool.value));
        notes := [Started(tool.value)];
      }
      assert log + [] == log;
      log := log + notes;
    }

    /** A tool has come back. */
    ghost method CameBack(tool: Option<nat>, outcome: Outcome) returns (notes: seq<Note>)
      requires Valid() && Underway(tool, true)
      modifies this`log
      ensures Valid() && Back(tool, Returned(outcome)) && (old(Clear()) ==> Clear())
      ensures notes == FinishOf(tool, outcome) && log == old(log) + notes
      ensures Watched(log) == if notes == [] then old(Watched(log)) else old(Watched(log)).(outcome := Some(outcome.success))
    {
      hide Standing, NotesStand, SoundUpTo, Watched, Queued, Account, Follows;
      notes := FinishOf(tool, outcome);
      if tool.Some? {
        NoteFinished(began, log, tool.value, outcome.success);
        AccountQuiet(earlier, log, course, history, admitted, delivered, Finished(tool.value, outcome.success));
        FollowsNote(whole, schedule, log, Finished(tool.value, outcome.success));
      }
      assert log + [] == log;
      log := log + notes;
    }

    /** Waits for a future; commands come first whenever there are any. */
    method Await(tool: Option<nat>) returns (got: Got)
      requires Valid() && Underway(tool, false)
      modifies this`schedule, this`corrections, this`log, this`admitted, this`completed
      ensures Valid() && |schedule| <= |old(schedule)| && (|schedule| < |old(schedule)| || got == Suspended)
      ensures got != Ended(Complete) && Back(tool, got)
      ensures tool.None? ==> Seen(EndOf(got)) == T.Awaiting(old(Seen(None)))
      ensures completed == if tool.None? then old(completed) else ReceiptOf(old(schedule), old(corrections), old(completed))
      ensures tool.None? ==> Apart(Watched(log)) == old(Apart(Watched(log)))
      ensures Given() == old(Given()) && Watched(log).overruled == old(Watched(log).overruled)
      ensures old(Clear()) ==> Clear()
      ensures var w := Select(old(schedule), old(corrections), tool, false);
              (got, corrections, schedule) == (w.got, w.corrections, w.rest) && log == old(log) + w.notes
    {
      hide Standing, NotesStand, SoundUpTo, Watched, Select, Behind, Queued, Recorded, Accounted, Follows, ReceiptOf;
      var polled := false;
      ghost var notes: seq<Note> := [];
      BehindNothing(Select(schedule, corrections, tool, false));
      while schedule != []
        invariant Valid() && |schedule| <= |old(schedule)| && Underway(tool, polled)
        invariant tool.None? ==> completed == old(completed) && Apart(Watched(log)) == old(Apart(Watched(log)))
        invariant tool.Some? ==> ReceiptOf(schedule, corrections, completed) == ReceiptOf(old(schedule), old(corrections), old(completed))
        invariant Given() == old(Given()) && Watched(log).overruled == old(Watched(log).overruled)
        invariant old(Clear()) ==> Clear()
        invariant log == old(log) + notes
        invariant Select(old(schedule), old(corrections), tool, false) == Behind(notes, Select(schedule, corrections, tool, polled))
        decreases |schedule|
      {
        var end, again, more := Poll(tool, polled);
        ghost var rest := if end.Some? then Waited([], corrections, schedule, end.value) else Select(schedule, corrections, tool, again);
        BehindMore(notes, more, rest);
        notes, polled := notes + more, again;
        if end.Some? {
          BehindIs(notes, rest);
          return end.value;
        }
      }
      SelectStep(schedule, corrections, tool, polled);
      ReceiptStep(schedule, corrections, completed);
      BehindIs(notes, Waited([], corrections, [], Suspended));
      return Suspended;
    }

    /** The history gets one more user text; there must be no call to answer. */
    method Say(text: seq<char>)
      requires Valid() && pending == []
      modifies this`history
      ensures Valid() && history == old(history) + [Said(text)]
    {
      hide Standing, Recorded, Queued, Account, Follows;
      SaidStands(history, text, sound);
      AccountGrows(earlier, log, course, history, history + [Said(text)], admitted, delivered);
      history := history + [Said(text)];
    }

    /** A prompt or correction becomes part of the conversation. */
    method Tell(text: seq<char>, correction: bool)
      requires Valid() && pending == []
      requires correction ==> batch != [] && batch[0] == text
      modifies this`history, this`log, this`course, this`delivered, this`batch
      ensures Valid() && (old(Clear()) ==> Clear()) && history == old(history) + [Said(text)]
      ensures log == old(log) + [if correction then Delivered(text, history) else Prompted(text, history)]
      ensures course.unheard && !course.blocked && course.prompt == if correction then old(course.prompt) else Some(text)
      ensures batch == if correction then old(batch)[1..] else old(batch)
    {
      hide Standing, NotesStand, SoundUpTo, Watched, Account, Follows;
      AccountTold(earlier, log, course, history, admitted, delivered, text, history + [Said(text)]);
      Say(text);
      ghost var note := if correction then Delivered(text, history) else Prompted(text, history);
      NotesStandOne(began, log, note, sound);
      WatchedMore(log, note);
      FollowsNote(whole, schedule, log, note);
      log := log + [note];
      course := Course(if correction then course.prompt else Some(text), history, true, false, true);
      if correction {
        assert batch == [batch[0]] + batch[1..];
        delivered, batch := delivered + [text], batch[1..];
      }
    }

    /** The state a crash would go back to; publishing it may fail. */
    method Save() returns (ok: bool)
      requires Valid()
      modifies this`schedule, this`log
      ensures Valid() && |schedule| <= |old(schedule)| && (ok, schedule) == TryOf(old(schedule))
      ensures Seen(if ok then None else Some(Failed)) == T.Trying(old(Seen(None)))
      ensures log == old(log) + [Saved(history, pending, developerPrompt, sound)]
      ensures Watched(log) == old(Watched(log)) && (old(Clear()) ==> Clear()) && (old(Ready()) ==> Ready()) && Given() == old(Given())
    {
      hide Standing, NotesStand, SoundUpTo, Watched, Queued, Account, Follows;
      NotesStandOne(began, log, Saved(history, pending, developerPrompt, sound), sound);
      AccountQuiet(earlier, log, course, history, admitted, delivered, Saved(history, pending, developerPrompt, sound));
      FollowsNote(whole, schedule, log, Saved(history, pending, developerPrompt, sound));
      WatchedMore(log, Saved(history, pending, developerPrompt, sound));
      log := log + [Saved(history, pending, developerPrompt, sound)];
      ok := Succeeds();
    }

    /** The call in front gets its result. */
    method Answer(result: ToolResult)
      requires Valid() && pending != [] && result.id == pending[0].id
      modifies this`history, this`pending
      ensures Valid() && history == AddResults(old(history), [result]) && pending == old(pending)[1..]
    {
      hide Standing, Recorded, Queued, AddResults, Account, Follows;
      AccountResults(earlier, log, course, history, [result], admitted, delivered);
      assert IdsOf([result]) == Ids(pending[..1]);
      AnswersStand(history, pending, [result], sound);
      history := AddResults(history, [result]);
      pending := pending[1..];
    }

    /** A plugin occurrence: queued controls first, then the hooks. */
    method Lifecycle() returns (end: Option<End>, outcome: Outcome)
      requires Valid()
      modifies this`schedule, this`corrections, this`log, this`admitted, this`completed
      ensures Valid() && |schedule| <= |old(schedule)| && completed == old(completed)
      ensures end.None? ==> |schedule| < |old(schedule)|
      ensures end != Some(Complete)
      ensures Seen(end) == T.Pausing(old(Seen(None)))
      ensures var w := Pause(old(schedule), old(corrections));
              && (end, corrections, schedule) == (EndOf(w.got), w.corrections, w.rest) && log == old(log) + w.notes
              && (end.None? ==> outcome == w.got.outcome)
    {
      hide Valid, Clear, Select, DrainOf;
      outcome := Outcome(false, false, false, [], false);
      end := Drain();
      if end.Some? {
        return;
      }
      var got := Await(None);
      end := EndOf(got);
      if got.Returned? {
        outcome := got.outcome;
      }
    }

    /** A prompt or a correction becomes part of the conversation unless a plugin holds it. */
    method SubmitPrompt(prompt: seq<char>, correction: bool) returns (end: Option<End>)
      requires Valid() && pending == []
      requires correction ==> batch != [] && batch[0] == prompt
      modifies this`schedule, this`corrections, this`log, this`admitted, this`completed, this`history, this`delivered, this`batch, this`developerPrompt, this`course
      ensures Valid() && |schedule| <= |old(schedule)| && completed == old(completed)
      ensures end.None? ==> |schedule| < |old(schedule)| && batch == if correction then old(batch)[1..] else old(batch)
      ensures var w := Pause(old(schedule), old(corrections));
              && (end, corrections, schedule) == (SubmitEnd(w.got), w.corrections, w.rest)
              && (end.None? ==> history == old(history) + SaidWith(prompt, w.got.outcome.context) && developerPrompt == Some(prompt))
      ensures end.None? ==> !course.blocked && course.prompt == if correction then old(course.prompt) else Some(prompt)
      ensures end.Some? ==> history == old(history) && developerPrompt == old(developerPrompt) && batch == old(batch) && delivered == old(delivered)
      ensures end != Some(Complete)
    {
      hide Standing, Recorded, Accounted, Queued, Pause, Follows;
      var outcome;
      end, outcome := Lifecycle();
      if end.Some? {
        return;
      }
      if outcome.hold {
        return Some(Failed);
      }
      developerPrompt := Some(prompt);
      Tell(prompt, correction);
      if outcome.context {
        Say(PLUGIN_CONTEXT);
      }
    }

    method TakeBatch()
      requires Valid() && batch == []
      modifies this`batch, this`corrections
      ensures Valid() && batch == old(corrections) && corrections == []
    {
      hide Standing, Recorded, Accounted, Tracks;
      batch, corrections := corrections, [];
    }

    /** The corrections that wait now; others may come meanwhile. */
    method DeliverBatch() returns (end: Option<End>)
      requires Valid() && pending == [] && batch == [] && corrections != []
      modifies this`schedule, this`corrections, this`log, this`admitted, this`completed, this`history, this`delivered, this`batch, this`developerPrompt, this`stopHookActive, this`course
      ensures Valid() && completed == old(completed) && end != Some(Complete) && |schedule| <= |old(schedule)|
      ensures end.None? ==> |schedule| < |old(schedule)| && batch == [] && Flagged() && course.prompt == old(course.prompt)
      ensures Delivery(history, developerPrompt, batch, corrections, schedule, end) ==
              DeliveryOf(old(corrections), old(schedule), [], old(history), old(developerPrompt))
    {
      hide Standing, Queued, Recorded, Accounted, Tracks, Pause, DeliveryOf;
      end := None;
      ghost var whole := corrections;
      TakeBatch();
      while batch != []
        invariant DeliveryOf(batch, schedule, corrections, history, developerPrompt) == DeliveryOf(whole, old(schedule), [], old(history), old(developerPrompt))
        invariant Valid() && |schedule| <= |old(schedule)| && completed == old(completed)
        invariant (batch == [] ==> |schedule| < |old(schedule)| && Flagged()) && end == None && course.prompt == old(course.prompt)
        decreases |batch|
      {
        DeliveryStep(batch, schedule, corrections, history, developerPrompt);
        end := SubmitPrompt(batch[0], true);
        if end.Some? {
          return;
        }
        stopHookActive := false;
      }
      DeliveryStep(batch, schedule, corrections, history, developerPrompt);
    }

    /** All waiting corrections, batch by batch, in the order they came. */
    method Deliver() returns (end: Option<End>)
      requires Valid() && pending == [] && batch == [] && Flagged()
      modifies this`schedule, this`corrections, this`log, this`admitted, this`completed, this`history, this`delivered, this`batch, this`developerPrompt, this`stopHookActive, this`course
      ensures Valid() && |schedule| <= |old(schedule)| && completed == old(completed)
      ensures end.None? ==> batch == [] && corrections == [] && Flagged() && course.prompt == old(course.prompt)
      ensures old(corrections) == [] ==> end.None? && course == old(course)
      ensures end != Some(Complete)
      ensures Delivery(history, developerPrompt, batch, corrections, schedule, end) ==
              AllDelivered(old(schedule), old(corrections), old(history), old(developerPrompt))
      ensures Seen(end) == T.Delivering(old(Seen(None)))
    {
      hide Standing, Recorded, Accounted, Queued, DeliveryOf, Follows;
      end := None;
      while corrections != []
        invariant AllDelivered(schedule, corrections, history, developerPrompt) ==
                  AllDelivered(old(schedule), old(corrections), old(history), old(developerPrompt))
        invariant Valid() && batch == [] && |schedule| <= |old(schedule)| && completed == old(completed) && end == None
        invariant Flagged() && course.prompt == old(course.prompt)
        invariant old(corrections) == [] ==> corrections == [] && course == old(course)
        decreases |schedule|
      {
        end := DeliverBatch();
        if end.Some? {
          return;
        }
      }
    }

    /** A tool is chosen: only while no correction has been admitted since the last request. */
    method Choose(call: ToolCall)
      requires Valid() && Clear() && Ready() && corrections == []
      modifies this`log
      ensures Valid() && Clear() && log == old(log) + [Entered(call.id)]
      ensures Underway(Some(call.id), false) && !Watched(log).overruled && Given() == old(Given())
    {
      hide Standing, NotesStand, SoundUpTo, Watched, Queued, Account, Follows;
      AccountQuiet(earlier, log, course, history, admitted, delivered, Entered(call.id));
      WatchedMore(log, Entered(call.id));
      FollowsNote(whole, schedule, log, Entered(call.id));
      NotesStandOne(began, log, Entered(call.id), sound);
      log := log + [Entered(call.id)];
    }

    /** The call in front gets its result, which is due, and this is noted. */
    method Give(origin: Origin)
      requires Valid() && pending != [] && IsDue(Watched(log), ToolResult(pending[0].id, pending[0].name, origin))
      modifies this`history, this`pending, this`log
      ensures Valid() && (old(Clear()) ==> Clear()) && Seen(None) == T.Answering(old(Seen(None)), origin)
      ensures Given() == old(Given()) + [ToolResult(old(pending)[0].id, old(pending)[0].name, origin)] && pending == old(pending)[1..]
      ensures !Watched(log).open && Watched(log).overruled == old(Watched(log).overruled)
      ensures log == old(log) + [Resulted(ToolResult(old(pending)[0].id, old(pending)[0].name, origin))]
    {
      hide Standing, NotesStand, SoundUpTo, Watched, Queued, Account, Follows, AddResults, IsDue;
      ghost var note := Resulted(ToolResult(pending[0].id, pending[0].name, origin));
      AccountQuiet(earlier, log, course, history, admitted, delivered, note);
      WatchedMore(log, note);
      FollowsNote(whole, schedule, log, note);
      NotesStandOne(began, log, note, sound);
      log := log + [note];
      Answer(ToolResult(pending[0].id, pending[0].name, origin));
    }

    /** A plugin has asked for a correction. */
    ghost method Overrule()
      requires Valid() && !Watched(log).open
      modifies this`log
      ensures Valid() && log == old(log) + [Overruled]
      ensures Watched(log) == old(Watched(log)).(overruled := true)
    {
      hide Standing, NotesStand, SoundUpTo, Watched, Queued, Account, Follows;
      AccountQuiet(earlier, log, course, history, admitted, delivered, Overruled);
      WatchedMore(log, Overruled);
      FollowsNote(whole, schedule, log, Overruled);
      NotesStandOne(began, log, Overruled, sound);
      log := log + [Overruled];
    }

    /** The call in front runs. Its result may be held, or turned into a correction. */
    method RunTool() returns (end: Option<End>, post: nat)
      requires Valid() && Clear() && Ready() && corrections == [] && pending != []
      modifies this`schedule, this`corrections, this`log, this`admitted, this`completed, this`history, this`pending
      ensures Valid() && |schedule| <= |old(schedule)| && (Seen(end), post) == T.Executing(old(Seen(None)))
      ensures old(log) + [Entered(old(pending)[0].id)] + Select(old(schedule), [], Some(old(pending)[0].id), false).notes <= log
      ensures var call, got := old(pending)[0], Select(old(schedule), [], Some(old(pending)[0].id), false).got;
              && (pending == old(pending) || pending == old(pending)[1..])
              && (end.None? ==> got.Returned? && pending == old(pending)[1..] && Clear() && Ready())
              && Given() == if pending == old(pending) then old(Given()) else old(Given()) + [ToolResult(call.id, call.name, Executed(got.outcome.success))]
      ensures end != Some(Complete)
    {
      hide Valid, Watched, Select, ReceiptOf, AddResults, FinishOf, T.Receiving, TryOf, AskOf;
      post := 0;
      var call := pending[0];
      Choose(call);
      var got := Await(Some(call.id));
      end := EndOf(got);
      if end.None? {
        end, post := Receive(got.outcome.success);
      }
    }

    /** The tool of the call in front has come back. */
    method Receive(success: bool) returns (end: Option<End>, post: nat)
      requires Valid() && Clear() && pending != [] && !Watched(log).overruled
      requires IsDue(Watched(log), ToolResult(pending[0].id, pending[0].name, Executed(success)))
      modifies this`schedule, this`corrections, this`log, this`admitted, this`completed, this`history, this`pending
      ensures Valid() && |schedule| <= |old(schedule)| && (Seen(end), post) == T.Receiving(old(Seen(None)), success)
      ensures old(log) <= log && (pending == old(pending) || pending == old(pending)[1..])
      ensures Given() == if pending == old(pending) then old(Given()) else old(Given()) + [ToolResult(old(pending)[0].id, old(pending)[0].name, Executed(success))]
      ensures end.None? ==> pending == old(pending)[1..] && Clear() && Ready()
      ensures end != Some(Complete)
    {
      hide *;
      T.ReceivingStep(Seen(None), success);
      T.AnsweringIs(T.Trying(Seen(None)).(rest := AskOf(T.Trying(Seen(None)).rest).1), Executed(success));
      OpenUp();
      post := 0;
      var ok := Succeeds();
      end := if ok then None else Some(Failed);
      if ok {
        post := Asks();
        Give(Executed(success));
        OnlyReady();
        TakeCompleted();
        end := Release(post);
      }
    }

    lemma OnlyReady()
      requires !Watched(log).open && !Watched(log).overruled
      ensures Ready()
    {
      hide Watched;
    }

    method TakeCompleted()
      requires Valid() && Clear() && Ready()
      modifies this`completed
      ensures Valid() && Clear() && Ready() && Given() == old(Given()) && Seen(None) == old(Seen(None)).(completed := None)
    {
      hide Valid, Clear, Ready, Given;
      completed := None;
    }

    /** The result is saved; if it is not held it is released, and commands are taken once more. */
    method Release(post: nat) returns (end: Option<End>)
      requires Valid() && Clear() && Ready()
      modifies this`schedule, this`corrections, this`log, this`admitted, this`completed
      ensures Valid() && Clear() && Ready() && |schedule| <= |old(schedule)| && Given() == old(Given()) && old(log) <= log
      ensures Seen(end) == T.Releasing(old(Seen(None)), post)
      ensures end != Some(Complete)
    {
      hide Standing, Recorded, Accounted, Queued, Watched, Select, DrainOf, Follows;
      var ok := Save();
      if !ok {
        return Some(Failed);
      }
      if post == T.HELD {
        return Some(Failed);
      }
      var got := Await(None);
      end := EndOf(got);
      if end.Some? {
        return;
      }
      end := Drain();
      if end.Some? {
        return;
      }
      ok := Succeeds();
      if !ok {
        end := Some(Failed);
      }
    }

    /** What has been given is what the first of these calls have got, in order. */
    ghost predicate GivenTo(calls: seq<ToolCall>)
      reads this`log, this`pending
    {
      AreResults(calls, Given(), pending)
    }

    /** All calls of a response get their results in order. Those behind a correction are
        answered without having been chosen. */
    method RunTools() returns (end: Option<End>)
      requires Valid() && Clear() && Ready() && Given() == []
      modifies this`schedule, this`corrections, this`log, this`admitted, this`completed, this`history, this`pending
      ensures Valid() && |schedule| <= |old(schedule)| && Seen(end) == T.RunningTools(old(Seen(None)))
      ensures GivenTo(old(pending))
      ensures end.None? ==> pending == []
      ensures end != Some(Complete)
    {
      hide Valid, Watched, DrainOf, Select, AddResults, AreResults, Seen, T.Draining, T.Executing, T.Answering, T.Overruling;
      NoResults(pending);
      end := None;
      while pending != []
        invariant Valid() && Clear() && Ready() && |schedule| <= |old(schedule)| && end == None && GivenTo(old(pending))
        invariant T.RunningTools(Seen(None)) == T.RunningTools(old(Seen(None)))
        decreases |pending|
      {
        end := Drain();
        if end.Some? {
          return;
        }
        AreResultsMore(old(pending), Given(), pending);
        if corrections != [] {
          Give(Superseded);
          continue;
        }
        var post;
        end, post := RunTool();
        if end.Some? {
          return;
        }
        if post == T.CORRECTED {
          GiveUp(old(pending));
          return None;
        }
      }
    }

    /** The calls behind a correction that a plugin has asked for. */
    method GiveUp(ghost calls: seq<ToolCall>)
      requires Valid() && Ready() && GivenTo(calls)
      modifies this`log, this`history, this`pending
      ensures Valid() && pending == [] && GivenTo(calls) && Seen(None) == T.Overruling(old(Seen(None)))
    {
      hide Valid, Watched, AddResults, AreResults;
      Overrule();
      while pending != []
        invariant Valid() && GivenTo(calls) && !Watched(log).open && Watched(log).overruled
        invariant T.Overruling(Seen(None)) == T.Overruling(old(Seen(None)))
        decreases |pending|
      {
        AreResultsMore(calls, Given(), pending);
        Give(Superseded);
      }
    }

    /** The runtime may have context to say before the model is asked. */
    method OfferContext() returns (end: Option<End>, context: nat)
      requires Valid() && pending == []
      modifies this`schedule, this`log, this`history
      ensures Valid() && |schedule| <= |old(schedule)| && end != Some(Complete)
      ensures (Seen(end), context) == T.Offering(old(Seen(None)))
    {
      hide Standing, Recorded, Queued, Watched, Accounted, Follows;
      end, context := None, 0;
      var ok := Succeeds();
      if !ok {
        return Some(Failed), 0;
      }
      context := Asks();
      if context != 0 {
        Say(PLUGIN_CONTEXT);
        ok := Save();
        if ok {
          ok := Succeeds();
        }
        if !ok {
          end := Some(Failed);
        }
      }
    }

    /** The model is asked; its calls become pending at the next checkpoint, or are refused. */
    method Request() returns (end: Option<End>, finished: bool, providerFailed: bool)
      requires Valid() && pending == [] && batch == [] && corrections == []
      modifies this`schedule, this`corrections, this`log, this`admitted, this`completed, this`history, this`pending, this`sound, this`course
      ensures Valid() && |schedule| <= |old(schedule)|
      ensures T.Request(Seen(end), finished, providerFailed) == T.Requesting(old(Seen(None)), toolsEnabled)
      ensures end.None? ==> course == old(course).(unheard := false)
      ensures end.None? ==> Clear() && Ready() && Given() == [] && |schedule| < |old(schedule)| && (finished <==> pending == [])
      ensures end.Some? ==> pending == []
      ensures end != Some(Complete)
    {
      hide Valid, Clear, Given, Seen, Select, Watched, T.Offering, T.Awaiting, T.Failing, T.Responding;
      finished, providerFailed := false, false;
      var context;
      end, context := OfferContext();
      if end.Some? {
        return;
      }
      AskModel();
      var got := Await(None);
      end := EndOf(got);
      if got.Errored? {
        providerFailed := Fail();
      }
      if end.Some? {
        return;
      }
      var ok := Admit(got.outcome.calls, context);
      finished := got.outcome.calls == [];
      if !ok {
        end := Some(Failed);
      }
    }

    /** The admission of a request that has failed is settled. A failure of the provider may be
        observed, if somebody wants to know. */
    method Fail() returns (providerFailed: bool)
      requires Valid()
      modifies this`schedule, this`log
      ensures Valid() && |schedule| <= |old(schedule)|
      ensures (Seen(Some(Failed)), providerFailed) == T.Failing(old(Seen(Some(Failed))))
    {
      hide Standing, Recorded, Queued, Watched, Accounted, Follows;
      var settled := Succeeds();
      var ours := Asks();
      providerFailed := ours == 0;
      if providerFailed && settled {
        var planned := Asks();
        if planned != 0 {
          ObserveFailure();
        }
      }
    }

    /** The response has come: its admission is settled, and the context that went with it. */
    method Admit(calls: seq<ToolCall>, context: nat) returns (ok: bool)
      requires Valid() && pending == []
      modifies this`schedule, this`log, this`history, this`pending, this`sound
      ensures Valid() && (old(Clear()) ==> Clear()) && (old(Ready()) ==> Ready()) && Given() == old(Given())
      ensures |schedule| <= |old(schedule)| && (ok ==> pending == calls) && (!ok ==> pending == [])
      ensures Seen(if ok then None else Some(Failed)) == T.Responding(old(Seen(None)), calls, context, toolsEnabled)
    {
      hide Standing, Recorded, Queued, Watched, Accounted, Follows;
      var settled := Succeeds();
      var contextDone := true;
      if settled && context != 0 {
        contextDone := Succeeds();
      }
      ok := Respond(calls, settled, contextDone);
    }

    method AskModel()
      requires Valid() && pending == [] && corrections == []
      modifies this`log, this`course
      ensures Valid() && Clear() && Ready() && Given() == [] && course == old(course).(unheard := false)
      ensures log == old(log) + [Asked(history, sound)]
    {
      hide Standing, NotesStand, SoundUpTo, Watched, Queued, Account, Follows;
      AccountAsked(earlier, log, course, history, admitted, delivered, sound);
      course := course.(unheard := false);
      WatchedMore(log, Asked(history, sound));
      FollowsNote(whole, schedule, log, Asked(history, sound));
      NotesStandOne(began, log, Asked(history, sound), sound);
      log := log + [Asked(history, sound)];
    }

    /** The message of the model is in the history as soon as the response is there. If its
        calls are refused now, nobody will ever answer them. */
    method Respond(calls: seq<ToolCall>, settled: bool, contextDone: bool) returns (ok: bool)
      requires Valid() && pending == []
      modifies this`log, this`history, this`pending, this`sound
      ensures Valid() && (old(Clear()) ==> Clear()) && Watched(log) == old(Watched(log))
      ensures (history, pending) == AfterResponse(old(history), calls, settled, contextDone, toolsEnabled)
      ensures ok <==> settled && contextDone && (calls == [] || toolsEnabled)
      ensures sound == (old(sound) && (ok || calls == []))
      ensures !ok ==> pending == []
    {
      hide Standing, NotesStand, SoundUpTo, Watched, Queued, Account, Follows;
      CallsStand(history, calls, sound);
      AccountGrows(earlier, log, course, history, history + [Assistant(calls)], admitted, delivered);
      history := history + [Assistant(calls)];
      ok := settled && contextDone && (calls == [] || toolsEnabled);
      if ok {
        pending := calls;
      } else if calls != [] {
        WatchedMore(log, Refused(calls));
        FollowsNote(whole, schedule, log, Refused(calls));
        AccountQuiet(earlier, log, course, history, admitted, delivered, Refused(calls));
        NotesStandOne(began, log, Refused(calls), sound);
        log := log + [Refused(calls)];
        sound := false;
      }
    }

    /** After a provider failure commands can only stop the observation; nothing is admitted. */
    method ObserveFailure()
      requires Valid()
      modifies this`schedule, this`log
      ensures Valid() && |schedule| <= |old(schedule)| && schedule == T.Observing(old(schedule))
    {
      hide Standing, NotesStand, SoundUpTo, Watched, Queued, Accounted, Follows;
      while schedule != []
        invariant Valid() && |schedule| <= |old(schedule)| && T.Observing(schedule) == T.Observing(old(schedule))
        decreases |schedule|
      {
        var moment := Next();
        if moment.Arrives? {
          var c := moment.command;
          if c.Submit? {
            Refuse(c.draft.text);
          } else {
            if c.Shutdown? {
              RefuseAll();
            }
            return;
          }
        } else if moment.Done? || moment.Fails? {
          return;
        }
      }
    }

    method Refuse(text: seq<char>)
      requires Sound() && Tracks([text])
      modifies this`log
      ensures Valid() && log == old(log) + [Replied(text, false)] && (old(Clear()) ==> Clear())
    {
      hide Standing, NotesStand, SoundUpTo, Watched, Queued, Account, Follows;
      AccountQuiet(earlier, log, course, history, admitted, delivered, Replied(text, false));
      WatchedMore(log, Replied(text, false));
      FollowsNote(whole, schedule, log, Replied(text, false));
      NotesStandOne(began, log, Replied(text, false), sound);
      log := log + [Replied(text, false)];
    }

    method RefuseAll()
      requires Valid()
      modifies this`schedule, this`log
      ensures Valid() && |schedule| <= |old(schedule)| && schedule == T.Refusing(old(schedule))
    {
      hide Standing, Queued, Recorded, Accounted, Follows, Clear;
      while schedule != [] && schedule[0].Arrives?
        invariant Valid() && |schedule| <= |old(schedule)| && T.Refusing(schedule) == T.Refusing(old(schedule))
        decreases |schedule|
      {
        OpenUp();
        var moment := Next();
        var c := moment.command;
        if c.Submit? {
          Refuse(c.draft.text);
        }
      }
    }

    /** During a compaction submissions are refused and corrections are not admitted. */
    method AwaitCompaction() returns (got: Got)
      requires Valid()
      modifies this`schedule, this`log
      ensures Valid() && |schedule| <= |old(schedule)| && got != Ended(Complete)
      ensures (got, schedule) == QuietOf(old(schedule))
    {
      hide Standing, Queued, Recorded, Accounted, Follows, Clear;
      while schedule != []
        invariant Valid() && |schedule| <= |old(schedule)| && QuietOf(schedule) == QuietOf(old(schedule))
        decreases |schedule|
      {
        var moment := Next();
        if moment.Arrives? {
          match moment.command {
            case Cancel => return Ended(Cancelled);
            case Shutdown => return Ended(ShuttingDown);
            case Closed => return Ended(CommandsClosed);
            case Submit(draft, _) => Refuse(draft.text);
            case Prompt(_) =>
              var ok := Succeeds();
              if !ok {
                return Errored;
              }
          }
        } else if moment.Done? {
          return Returned(moment.outcome);
        } else if moment.Fails? {
          return Errored;
        }
      }
      return Suspended;
    }

    /** Earlier conversation is replaced by a summary, at a place where no call is open. */
    method Compact() returns (end: Option<End>)
      requires Valid() && pending == []
      modifies this`schedule, this`log, this`history, this`course
      ensures Valid() && |schedule| <= |old(schedule)| && end != Some(Complete)
      ensures Seen(end) == T.Compacting(old(Seen(None)))
      ensures course.(told := []) == old(course).(told := [])
      ensures var (replacing, objective) := Replacing(old(schedule));
              if Tail(old(history)).Some? && developerPrompt.Some? && replacing then
                var after := Summarised(old(history), developerPrompt.value, objective);
                after <= history <= after + [Said(PLUGIN_CONTEXT)] && course.told == Unmerged(after)
              else history == old(history) && course == old(course)
    {
      hide Standing, Recorded, Queued, Tail, Accounted, QuietOf, Summarised, Unmerged, Follows;
      var tail := Tail(history);
      if tail.None? || developerPrompt.None? {
        return Some(Failed);
      }
      var got := AwaitCompaction();
      end := EndOf(got);
      if end.Some? {
        return;
      }
      var objective := Asks();
      var ok := Succeeds();
      if !ok {
        var installed := Asks();
        if installed != 0 {
          Replace(objective != 0);
        }
        return Some(Failed);
      }
      Replace(objective != 0);
      end := Resume();
    }

    /** The hooks behind a compaction may hold it, or say something. */
    method Resume() returns (end: Option<End>)
      requires Valid() && pending == []
      modifies this`schedule, this`log, this`history
      ensures Valid() && |schedule| <= |old(schedule)| && end != Some(Complete)
      ensures Seen(end) == T.Resuming(old(Seen(None)))
      ensures old(history) <= history <= old(history) + [Said(PLUGIN_CONTEXT)]
    {
      hide Standing, Recorded, Queued, Accounted, QuietOf, Follows;
      var got := AwaitCompaction();
      end := EndOf(got);
      if end.Some? {
        return;
      }
      if got.outcome.hold {
        return Some(Failed);
      }
      var ok := Succeeds();
      if !ok {
        return Some(Failed);
      }
      if got.outcome.correction || got.outcome.context {
        Say(PLUGIN_CONTEXT);
      }
      ok := Save();
      if !ok {
        end := Some(Failed);
      }
    }

    method Replace(objective: bool)
      requires Valid() && pending == [] && Tail(history).Some? && developerPrompt.Some?
      modifies this`history, this`log, this`course
      ensures Valid() && sound && history == Summarised(old(history), developerPrompt.value, objective)
      ensures course == old(course).(told := Unmerged(history))
      ensures log == old(log) + [Compacted(developerPrompt.value, objective, old(history), history)]
    {
      hide Standing, NotesStand, SoundUpTo, Watched, Queued, Tail, Account, Summarised, Unmerged, Follows;
      ghost var note := Compacted(developerPrompt.value, objective, history, Summarised(history, developerPrompt.value, objective));
      AccountCompacted(earlier, log, course, history, admitted, delivered, developerPrompt.value, objective);
      NotesStandOne(began, log, note, sound);
      WatchedMore(log, note);
      FollowsNote(whole, schedule, log, note);
      SummarisedStands(history, developerPrompt.value, objective, sound);
      history := Summarised(history, developerPrompt.value, objective);
      log, course := log + [note], course.(told := Unmerged(history));
    }

    /** The hooks of a Stop get to know whether one has been refused. */
    method StopHooks()
      requires Valid() && Flagged()
      modifies this`log
      ensures Valid() && (old(Clear()) ==> Clear()) && log == old(log) + [Stopping(stopHookActive)]
    {
      hide Standing, NotesStand, SoundUpTo, Watched, Queued, Account, Follows;
      AccountAsked(earlier, log, course, history, admitted, delivered, sound);
      NotesStandOne(began, log, Stopping(stopHookActive), sound);
      WatchedMore(log, Stopping(stopHookActive));
      FollowsNote(whole, schedule, log, Stopping(stopHookActive));
      log := log + [Stopping(stopHookActive)];
    }

    method Block()
      requires Valid()
      modifies this`log, this`course, this`stopHookActive
      ensures Valid() && Flagged() && log == old(log) + [Blocked] && course == old(course).(blocked := true)
    {
      hide Standing, NotesStand, SoundUpTo, Watched, Queued, Account, Follows;
      AccountAsked(earlier, log, course, history, admitted, delivered, sound);
      NotesStandOne(began, log, Blocked, sound);
      WatchedMore(log, Blocked);
      FollowsNote(whole, schedule, log, Blocked);
      log, course, stopHookActive := log + [Blocked], course.(blocked := true), true;
    }

    /** A plugin may hold the end of a turn, or ask for more work. */
    method StopGate() returns (end: Option<End>)
      requires Valid() && pending == [] && batch == [] && Flagged()
      modifies this`schedule, this`corrections, this`log, this`admitted, this`completed, this`history, this`stopHookActive, this`course
      ensures Valid() && |schedule| <= |old(schedule)| && completed == old(completed)
      ensures end.None? ==> Flagged() && course.prompt == old(course.prompt)
      ensures end == Some(Complete) ==> course == old(course)
      ensures var w := Pause(old(schedule), old(corrections));
              var drained := DrainOf(w.rest, w.corrections).0;
              end == Some(Complete) <==>
              w.got.Returned? && drained.end.None? && !w.got.outcome.hold && !w.got.outcome.correction && drained.corrections == []
      ensures end == Some(Complete) ==> corrections == []
      ensures Seen(end) == T.StopGate(old(Seen(None)))
    {
      hide Valid, Pause, DrainOf, Clear, Watched, T.Pausing, T.Draining, T.Demanding, Apart;
      E.CompletesIff(Seen(None));
      StopHooks();
      var outcome;
      end, outcome := Lifecycle();
      if end.Some? {
        return;
      }
      end := Drain();
      if end.Some? {
        return;
      }
      if outcome.hold {
        return Some(Failed);
      }
      if outcome.correction {
        end := Demand();
      } else if corrections == [] {
        end := Some(Complete);
      }
    }

    /** A plugin asks for more work. */
    method Demand() returns (end: Option<End>)
      requires Valid() && pending == []
      modifies this`schedule, this`log, this`history, this`stopHookActive, this`course
      ensures Valid() && |schedule| <= |old(schedule)| && end != Some(Complete)
      ensures end.None? ==> Flagged() && course.prompt == old(course.prompt)
      ensures Seen(end) == T.Demanding(old(Seen(None)))
    {
      hide Standing, Recorded, Queued, Accounted, Follows;
      var ok := Succeeds();
      if !ok {
        return Some(Failed);
      }
      Say(PLUGIN_CONTEXT);
      Block();
      ok := Save();
      if !ok {
        end := Some(Failed);
      } else {
        end := None;
      }
    }

    /** What the runtime has observed in the meantime becomes part of the conversation. */
    method Observations() returns (end: Option<End>, delivered: bool)
      requires Valid() && pending == []
      modifies this`schedule, this`log, this`history
      ensures Valid() && |schedule| <= |old(schedule)| && end != Some(Complete) && old(history) <= history
      ensures Seen(end) == T.Offering(old(Seen(None))).0 && (end.None? ==> (delivered <==> T.Offering(old(Seen(None))).1 != 0))
    {
      hide Standing, Recorded, Queued, Accounted, Follows;
      end, delivered := None, false;
      var ok := Succeeds();
      if !ok {
        return Some(Failed), false;
      }
      var context := Asks();
      if context != 0 {
        Say(PLUGIN_CONTEXT);
        ok := Save();
        if !ok {
          return Some(Failed), false;
        }
        ok := Succeeds();
        if !ok {
          return Some(Failed), false;
        }
        delivered := true;
      }
    }

    /** Up to the point where the model may be asked: nothing is pending, no correction waits. */
    method Prepare() returns (end: Option<End>)
      requires Valid() && pending == [] && batch == [] && Flagged()
      modifies this`schedule, this`corrections, this`log, this`admitted, this`completed, this`history, this`delivered, this`batch, this`developerPrompt, this`stopHookActive, this`course
      ensures Valid() && |schedule| <= |old(schedule)| && end != Some(Complete)
      ensures Seen(end) == T.Preparing(old(Seen(None)))
      ensures end.None? ==> batch == [] && corrections == [] && Flagged() && course.prompt == old(course.prompt)
    {
      hide Valid, Clear, Watched, Apart, DrainOf, AllDelivered, Replacing, Tail, Summarised, Unmerged;
      hide T.Draining, T.Delivering, T.MakingRoom, T.Offering;
      end := Drain();
      if end.Some? {
        return;
      }
      end := Deliver();
      if end.Some? {
        return;
      }
      end := MakeRoom();
      if end.Some? {
        return;
      }
      var observed;
      end, observed := Observations();
    }

    /** A conversation that is large is compacted. */
    method MakeRoom() returns (end: Option<End>)
      requires Valid() && pending == []
      modifies this`schedule, this`log, this`history, this`course
      ensures Valid() && |schedule| <= |old(schedule)| && end != Some(Complete)
      ensures course.(told := []) == old(course).(told := [])
      ensures Seen(end) == T.MakingRoom(old(Seen(None)))
    {
      hide Valid, AskOf, Replacing, Tail, Summarised, Unmerged, T.Compacting;
      OpenUp();
      end := None;
      var large := Asks();
      if large != 0 {
        end := Compact();
      }
    }

    /** One request with its tools and what follows them. */
    method Round() returns (end: Option<End>, providerFailed: bool)
      requires Valid() && pending == [] && batch == [] && Flagged()
      modifies this
      ensures Valid() && began == old(began) && earlier == old(earlier) && whole == old(whole)
      ensures (Seen(end), providerFailed) == T.Round(old(Seen(None)), toolsEnabled)
      ensures end.None? ==> |schedule| < |old(schedule)| && pending == [] && batch == [] && Flagged() && course.prompt == old(course.prompt)
      ensures end == Some(Complete) ==> pending == [] && delivered == admitted && !course.unheard && course.prompt == old(course.prompt)
    {
      hide Valid, Clear, Ready, Given, Seen, DrainOf, AllDelivered, Replacing, Tail, Summarised;
      hide T.Preparing, T.Requesting, T.Trying, T.RunningTools, T.Concluding, GivenTo, Watched;
      providerFailed := false;
      end := Prepare();
      if end.Some? {
        return;
      }
      var finished;
      end, finished, providerFailed := Request();
      if end.Some? {
        return;
      }
      var ok := Save();
      if !ok {
        return Some(Failed), false;
      }
      end := RunTools();
      if end.Some? {
        return;
      }
      end := Conclude(finished);
    }

    /** The end of a round: corrections are delivered, or the turn may stop. */
    method Conclude(finished: bool) returns (end: Option<End>)
      requires Valid() && pending == [] && batch == [] && Flagged() && !course.unheard
      modifies this`schedule, this`corrections, this`log, this`admitted, this`completed, this`history, this`delivered, this`batch, this`developerPrompt, this`stopHookActive, this`course
      ensures Valid() && |schedule| <= |old(schedule)| && Seen(end) == T.Concluding(old(Seen(None)), finished)
      ensures end.None? ==> batch == [] && Flagged() && course.prompt == old(course.prompt)
      ensures end == Some(Complete) ==> delivered == admitted && !course.unheard && course.prompt == old(course.prompt)
    {
      hide Valid, Clear, Watched, Ready, Given, AllDelivered, Pause, DrainOf, T.Offering, T.Delivering, T.StopGate;
      var observed;
      end, observed := Observations();
      if end.Some? {
        return;
      }
      var corrected := corrections != [] || observed;
      end := Deliver();
      if end.Some? {
        return;
      }
      var ok := Save();
      if !ok {
        return Some(Failed);
      }
      if finished && !corrected {
        end := StopGate();
        AllSaid();
      }
    }

    lemma AllSaid()
      requires Valid()
      ensures batch == [] && corrections == [] ==> delivered == admitted
    {
      hide Standing, Recorded, Accounted, Tracks;
    }

    method BeginTurn()
      requires Valid()
      modifies this`corrections, this`batch, this`earlier, this`admitted, this`delivered
      ensures Valid() && corrections == [] && batch == [] && earlier == log
    {
      hide Standing, Recorded, Account, Follows;
      AccountBegins(earlier, log, course, history, admitted, delivered);
      corrections, batch, earlier, admitted, delivered := [], [], log, [], [];
    }

    /** The prompt of a turn is said, and the state saved. */
    method OpenTurn(prompt: seq<char>, plugin: bool) returns (end: Option<End>)
      requires Valid() && pending == [] && batch == []
      modifies this`schedule, this`corrections, this`log, this`admitted, this`completed, this`history, this`delivered, this`batch, this`developerPrompt, this`stopHookActive, this`course
      ensures Valid() && |schedule| <= |old(schedule)| && end != Some(Complete)
      ensures end.None? ==> batch == [] && Flagged() && course.prompt == Some(prompt) && old(history) + [Said(prompt)] <= history
      ensures Seen(end) == T.Opening(old(Seen(None)), prompt, plugin)
    {
      hide Standing, Recorded, Clear, Queued, Accounted, Follows;
      end := None;
      if plugin {
        Tell(prompt, false);
      } else {
        end := SubmitPrompt(prompt, false);
        if end.Some? {
          return;
        }
      }
      stopHookActive := false;
      var ok := Save();
      if !ok {
        end := Some(Failed);
      }
    }

    /** One turn. When it is complete, every admitted correction has been said to the model, once
        and in the order of admission, and the model has been asked since. */
    method RunTurn(prompt: seq<char>, plugin: bool) returns (end: End, providerFailed: bool)
      requires Valid() && pending == []
      modifies this
      ensures Valid() && began == old(began) && earlier == old(log) && whole == old(whole)
      ensures (Seen(Some(end)), providerFailed) == T.Running(old(Seen(None)), prompt, plugin, toolsEnabled)
      ensures end == Complete ==> pending == [] && delivered == admitted && !course.unheard && course.prompt == Some(prompt)
    {
      hide Valid, Flagged, T.Opening, T.Round, T.Rounds;
      providerFailed := false;
      BeginTurn();
      var e := OpenTurn(prompt, plugin);
      if e.Some? {
        return e.value, false;
      }
      while true
        invariant Valid() && pending == [] && batch == [] && began == old(began) && earlier == old(log) && whole == old(whole)
        invariant Flagged() && course.prompt == Some(prompt)
        invariant T.Rounds(Seen(None), toolsEnabled) == T.Running(old(Seen(None)), prompt, plugin, toolsEnabled)
        decreases |schedule|
      {
        T.RoundsStep(Seen(None), toolsEnabled);
        e, providerFailed := Round();
        if e.Some? {
          return e.value, providerFailed;
        }
      }
    }

    /** After a turn every call still pending gets its answer: the receipt the tool has left, if
        it is that of the call in front, and for the others that they were stopped. */
    method SettleInterruption()
      requires Valid()
      modifies this`history, this`pending, this`completed
      ensures Valid() && pending == [] && completed == None
      ensures Seen(None) == T.Settling(old(Seen(None)))
      ensures old(pending) == [] ==> history == old(history)
      ensures old(pending) != [] ==>
                history == AddResults(old(history),
                                      if old(completed).Some? && old(completed).value.id == old(pending)[0].id
                                      then [old(completed).value] + StoppedResults(old(pending)[1..]) else StoppedResults(old(pending)))
    {
      hide Standing, Recorded, Queued, AddResults, StoppedResults, Account, Follows;
      var receipt := completed;
      completed := None;
      if receipt.Some? && pending != [] && pending[0].id == receipt.value.id {
        SettledRest(history, receipt.value, pending[1..]);
        Answer(receipt.value);
      }
      if pending != [] {
        SettledIds(pending);
        AnswersStand(history, pending, StoppedResults(pending), sound);
        AccountResults(earlier, log, course, history, StoppedResults(pending), admitted, delivered);
        history := AddResults(history, StoppedResults(pending));
        pending := [];
      }
    }

    /** The state of a checkpoint, with nothing noted and no correction waiting. */
    method Load(saved: Note)
      requires saved.Saved? && Standing(saved.history, saved.pending, saved.sound)
      modifies this
      ensures Valid() && began == sound == saved.sound && log == [] && history == saved.history && pending == saved.pending
      ensures developerPrompt == saved.developerPrompt
    {
      hide *;
      history, pending, completed, developerPrompt := saved.history, saved.pending, None, saved.developerPrompt;
      Forget();
      Begin(saved.sound);
      NothingYet();
    }

    method Forget()
      modifies this`corrections, this`batch, this`admitted, this`delivered
      ensures corrections == batch == admitted == delivered == []
    {
      hide *;
      corrections, batch, admitted, delivered := [], [], [], [];
    }

    method Begin(sound: bool)
      modifies this`log, this`began, this`sound, this`earlier, this`course, this`whole
      ensures log == earlier == [] && began == this.sound == sound && course == BEFORE && whole == schedule
    {
      hide *;
      log, began, this.sound := [], sound, sound;
      earlier, course, whole := [], BEFORE, schedule;
    }

    lemma NothingYet()
      requires log == earlier == [] && corrections == batch == admitted == delivered == [] && began == sound && course == BEFORE && whole == schedule
      requires Standing(history, pending, sound)
      ensures Valid()
    {
      hide Standing, Account, NotesStand, SoundUpTo, Watched, Follows;
      NothingNoted(began);
      AccountEmpty(history);
      FollowsAll(schedule);
    }

    /** A session that takes up a checkpoint answers its pending calls from recorded results. */
    method Restore(saved: Note, results: seq<ToolResult>)
      requires saved.Saved? && Standing(saved.history, saved.pending, saved.sound)
      modifies this
      ensures Valid() && pending == [] && began == sound == saved.sound && log == [] && developerPrompt == saved.developerPrompt
      ensures history == if saved.pending == [] then saved.history else AddResults(saved.history, Replayed(saved.pending, results))
      ensures Paired(history) <==> saved.sound
    {
      hide AddResults, Standing, Paired, Replayed, Account, Recorded, Queued, Follows;
      Load(saved);
      if pending != [] {
        ReplayedStand(history, pending, results, sound);
        AccountResults(earlier, log, course, history, Replayed(pending, results), admitted, delivered);
        history := AddResults(history, Replayed(pending, results));
        pending := [];
      }
      StandingMeans(history, [], sound);
    }

    /** Whatever has happened, calls are settled and the state is saved. */
    method CloseTurn(end: End, providerFailed: bool) returns (last: End)
      requires Valid()
      modifies this`schedule, this`history, this`pending, this`completed, this`log
      ensures Valid() && pending == [] && old(log) <= log && (last == end || last == Failed)
      ensures Seen(Some(last)) == T.Closing(old(Seen(None)), end, providerFailed)
    {
      hide Valid, TryOf, Watched, Clear, Ready, Given, AddResults, StoppedResults, T.Settling, T.Trying;
      SettleInterruption();
      last := Leave(end, providerFailed);
    }

    /** Services are stopped if the turn is not complete, and the state is saved. */
    method Leave(end: End, providerFailed: bool) returns (last: End)
      requires Valid()
      modifies this`schedule, this`log
      ensures Valid() && old(log) <= log && (last == end || last == Failed)
      ensures Seen(Some(last)) == T.Leaving(old(Seen(None)), end, providerFailed)
    {
      hide Valid, TryOf, Watched, Clear, Ready, Given, T.Trying;
      last := end;
      var ok := true;
      if end != Complete {
        OpenUp();
        ok := Succeeds();
        if !ok && !providerFailed {
          return Failed;
        }
      }
      ok := Save();
      if !ok && !providerFailed {
        return Failed;
      }
    }

    /** A turn with what is done behind it. When it is complete, the notes since its beginning
        tell of the delivery of exactly the corrections admitted, and of a request behind them. */
    method Turn(prompt: seq<char>, plugin: bool) returns (end: End)
      requires Valid() && pending == []
      modifies this
      ensures Valid() && began == old(began) && whole == old(whole)
      ensures |schedule| <= |whole| && AnsweredIn(log) == SubmittedIn(whole[..|whole| - |schedule|])
      ensures Watched(log).ok && NotesStand(began, log) && CourseOf(log).ok
      ensures end != Unfinished ==> pending == []
      ensures Seen(Some(end)) == T.Turn(old(Seen(None)), prompt, plugin, toolsEnabled)
      ensures old(log) <= log
      ensures end == Complete ==>
                && DeliveredIn(log[|old(log)|..]) == AdmittedIn(log[|old(log)|..])
                && CourseOf(log).prompt == Some(prompt) && !CourseOf(log).unheard
    {
      hide Valid, Seen, TryOf, Watched, NotesStand, AdmittedIn, DeliveredIn, CourseOf, AnsweredIn, SubmittedIn, T.Trying, T.Conversing, T.Closing;
      OpenUp();
      var ok := Succeeds();
      if !ok {
        end := CloseTurn(Failed, false);
      } else {
        end := Converse(prompt, plugin);
      }
      EachAnsweredOnce();
      NotesAreRight();
    }

    /** What is proved of notes holds of these: which calls have been executed, what requests and
        checkpoints have held. */
    lemma NotesAreRight()
      requires Valid()
      ensures Watched(log).ok && NotesStand(began, log) && CourseOf(log).ok
    {
      hide Standing, Queued, Tracks, Watched, NotesStand, SoundUpTo, CourseOf, AdmittedIn, DeliveredIn;
    }

    /** A turn that could be recorded. */
    method Converse(prompt: seq<char>, plugin: bool) returns (end: End)
      requires Valid() && pending == []
      modifies this
      ensures Valid() && began == old(began) && whole == old(whole) && old(log) <= log
      ensures end != Unfinished ==> pending == []
      ensures Seen(Some(end)) == T.Conversing(old(Seen(None)), prompt, plugin, toolsEnabled)
      ensures end == Complete ==>
                && DeliveredIn(log[|old(log)|..]) == AdmittedIn(log[|old(log)|..])
                && CourseOf(log).prompt == Some(prompt) && !CourseOf(log).unheard
    {
      hide Valid, AdmittedIn, DeliveredIn, CourseOf, T.Running, T.Finishing;
      var providerFailed;
      end, providerFailed := RunTurn(prompt, plugin);
      NotesTell();
      if end != Unfinished {
        end := Finish(end, providerFailed);
        NotesTell();
      }
    }

    /** The end of the turn is recorded, and the turn is closed. */
    method Finish(end: End, providerFailed: bool) returns (last: End)
      requires Valid()
      modifies this`schedule, this`history, this`pending, this`completed, this`log
      ensures Valid() && pending == [] && old(log) <= log && (last == end || last == Failed)
      ensures Seen(Some(last)) == T.Finishing(old(Seen(None)), end, providerFailed)
    {
      hide Valid, Seen, TryOf, T.Trying, T.Closing;
      OpenUp();
      var ok := Succeeds();
      last := CloseTurn(if !ok && !providerFailed then Failed else end, providerFailed);
    }

    lemma NotesTell()
      requires Valid()
      ensures earlier <= log && course == CourseOf(log)
      ensures admitted == AdmittedIn(log[|earlier|..]) && delivered == DeliveredIn(log[|earlier|..])
    {
      hide Standing, Recorded, Queued, Tracks, AdmittedIn, DeliveredIn, CourseOf;
      AccountMeans(earlier, log, course, history, admitted, delivered);
    }
  }

  lemma SummarisedStands(history: seq<Message>, prompt: seq<char>, objective: bool, sound: bool)
    requires Standing(history, [], sound) && Tail(history).Some?
    ensures sound && Standing(Summarised(history, prompt, objective), [], true)
  {
    hide Standing, Tail, Texts;
    StandingMeans(history, [], sound);
    CompactedIsPaired(history, Texts(prompt, objective));
    WellFormedStands(Summarised(history, prompt, objective));
  }

  lemma WellFormedStands(history: seq<Message>)
    requires Paired(history)
    ensures Standing(history, [], true)
  {
    ClosedIsPaired(history);
    assert Ids([]) == [];
    hide Open, Paired;
  }

  lemma SettledIds(calls: seq<ToolCall>)
    ensures IdsOf(StoppedResults(calls)) == Ids(calls[..|calls|]) && calls[|calls|..] == []
  {
  }

  lemma ReplayedIds(calls: seq<ToolCall>, results: seq<ToolResult>)
    ensures IdsOf(Replayed(calls, results)) == Ids(calls[..|calls|]) && calls[|calls|..] == []
  {
  }

  lemma ReplayedStand(history: seq<Message>, calls: seq<ToolCall>, results: seq<ToolResult>, sound: bool)
    requires Standing(history, calls, sound) && calls != []
    ensures Standing(AddResults(history, Replayed(calls, results)), [], sound)
  {
    hide *;
    ReplayedIds(calls, results);
    AnswersStand(history, calls, Replayed(calls, results), sound);
  }

  lemma SettledRest(history: seq<Message>, receipt: ToolResult, rest: seq<ToolCall>)
    ensures AddResults(AddResults(history, [receipt]), StoppedResults(rest)) == AddResults(history, [receipt] + StoppedResults(rest))
    ensures rest == [] ==> [receipt] + StoppedResults(rest) == [receipt]
  {
    ResultsTogether(history, [receipt], StoppedResults(rest));
  }
}
