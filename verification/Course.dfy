/** What has been said to the model and asked of it, as far as the notes of a session tell. */
module Courses {
  import opened Utf8
  import opened Conversations
  import opened Compactions
  import opened Commands

  /** `told`: the conversation behind what was last said, or what a compaction since has left of it.
      `unheard`: the model has not been asked since. `blocked`: a Stop has been refused since. */
  datatype Course = Course(prompt: Option<seq<char>>, told: seq<Message>, unheard: bool, blocked: bool, ok: bool)

  predicate Tells(note: Note) {
    note.Prompted? || note.Delivered?
  }

  /** `text` has been said behind `before`, and nothing of `before` is lost. */
  predicate SaidBehind(before: seq<Message>, text: seq<char>, history: seq<Message>) {
    before < history && history[|history| - 1] == Said(text)
  }

  predicate Compacts(prompt: seq<char>, objective: bool, before: seq<Message>, history: seq<Message>) {
    Tail(before).Some? && history == Summarised(before, prompt, objective)
  }

  /** What later results cannot be put into. */
  function Unmerged(history: seq<Message>): (r: seq<Message>)
    ensures r <= history && !EndsInResults(r)
    ensures forall text :: Said(text) in r <==> Said(text) in history
  {
    if EndsInResults(history) then Unmerged(history[..|history| - 1]) else history
  }

  predicate EndsInResults(history: seq<Message>) {
    history != [] && history[|history| - 1].Results?
  }

  function CourseStep(c: Course, note: Note): Course {
    match note
    case Prompted(text, history) => Course(Some(text), history, true, false, c.ok && SaidBehind(c.told, text, history))
    case Delivered(text, history) => Course(c.prompt, history, true, false, c.ok && SaidBehind(c.told, text, history))
    case Asked(history, _) => c.(unheard := false, ok := c.ok && c.told <= history)
    case Compacted(prompt, objective, before, history) =>
      c.(told := Unmerged(history), ok := c.ok && c.told <= before && Compacts(prompt, objective, before, history))
    case Blocked => c.(blocked := true)
    case Stopping(active) => c.(ok := c.ok && active == c.blocked)
    case _ => c
  }

  const BEFORE: Course := Course(None, [], false, false, true)

  function CourseOf(log: seq<Note>): Course {
    if log == [] then BEFORE else CourseStep(CourseOf(log[..|log| - 1]), log[|log| - 1])
  }

  lemma CourseMore(log: seq<Note>, note: Note)
    ensures CourseOf(log + [note]) == CourseStep(CourseOf(log), note)
  {
    assert (log + [note])[..|log + [note]| - 1] == log;
  }

  lemma CourseAt(log: seq<Note>, n: nat)
    requires n < |log|
    ensures CourseOf(log[..n + 1]) == CourseStep(CourseOf(log[..n]), log[n])
  {
    assert log[..n + 1] == log[..n] + [log[n]];
    CourseMore(log[..n], log[n]);
  }

  lemma {:induction false} CoursePrefix(log: seq<Note>, n: nat)
    requires n <= |log| && CourseOf(log).ok
    ensures CourseOf(log[..n]).ok
  {
    if n < |log| {
      CoursePrefix(log[..|log| - 1], n);
      assert log[..|log| - 1][..n] == log[..n];
    } else {
      assert log[..n] == log;
    }
  }

  /** The conversation a note has told of. */
  function ToldBy(note: Note): seq<Message>
    requires Tells(note) || note.Compacted?
  {
    if note.Compacted? then Unmerged(note.history) else note.history
  }

  /** Whatever is said behind it, what has been said stays until the next compaction. */
  lemma {:induction false} ToldStays(log: seq<Note>, i: nat, n: nat)
    requires CourseOf(log).ok && i < n <= |log| && (Tells(log[i]) || log[i].Compacted?)
    requires forall k :: i < k < n ==> !log[k].Compacted?
    ensures ToldBy(log[i]) <= CourseOf(log[..n]).told
    decreases n
  {
    hide CourseOf, Unmerged;
    CoursePrefix(log, n);
    CourseAt(log, n - 1);
    if i < n - 1 {
      ToldStays(log, i, n - 1);
    }
  }

  /** A prompt or correction is part of every request behind it, with everything before it and
      in the order in which it was said, until the conversation is compacted. */
  lemma RequestHoldsWhatWasSaid(log: seq<Note>, i: nat, j: nat)
    requires CourseOf(log).ok && i < j < |log| && Tells(log[i])
    requires forall k :: i < k < j ==> !log[k].Compacted?
    ensures log[i].history != [] && log[i].history[|log[i].history| - 1] == Said(log[i].text)
    ensures log[j].Asked? ==> log[i].history <= log[j].history
    ensures log[j].Compacted? ==> log[i].history <= log[j].before
    ensures Tells(log[j]) ==> log[i].history < log[j].history
  {
    hide CourseOf, Unmerged;
    CoursePrefix(log, i + 1);
    CourseAt(log, i);
    CoursePrefix(log, j + 1);
    CourseAt(log, j);
    ToldStays(log, i, j);
  }

  /** A correction that stands nowhere else is still in the conversation behind a compaction if
      and only if it does not stand in front of the cut, or is what the developer said last. */
  lemma CompactionHolds(log: seq<Note>, i: nat, c: nat)
    requires CourseOf(log).ok && i < c < |log| && Tells(log[i]) && log[c].Compacted?
    requires forall k :: i < k < c ==> !log[k].Compacted?
    requires log[i].text != SUMMARY && log[i].text != OBJECTIVE
    ensures var at, before := |log[i].history| - 1, log[c].before;
            && Tail(before).Some? && 0 <= at < |before| && before[at] == Said(log[i].text)
            && (Unique(before, at) ==>
                  (Said(log[i].text) in log[c].history <==> at >= CutOf(before) || log[i].text == log[c].prompt))
  {
    hide CourseOf, CutOf, Tail, Summarised, Unmerged, Unique;
    RequestHoldsWhatWasSaid(log, i, c);
    CoursePrefix(log, c + 1);
    CourseAt(log, c);
    CompactionKeeps(log[c].before, log[c].prompt, log[c].objective, |log[i].history| - 1);
  }

  /** And then it is in the requests that follow, or else only if it has been said again. */
  lemma RequestHoldsAfterCompaction(log: seq<Note>, i: nat, c: nat, j: nat)
    requires CourseOf(log).ok && i < c < j < |log| && Tells(log[i]) && log[c].Compacted? && log[j].Asked?
    requires forall k :: i < k < j && k != c ==> !log[k].Compacted?
    requires log[i].text != SUMMARY && log[i].text != OBJECTIVE && |log[i].history| - 1 < |log[c].before|
    requires log[i].history != [] && Unique(log[c].before, |log[i].history| - 1) && Tail(log[c].before).Some?
    ensures var kept := Unmerged(log[c].history);
            && kept <= log[j].history
            && (Said(log[i].text) in log[j].history <==>
                  |log[i].history| - 1 >= CutOf(log[c].before) || log[i].text == log[c].prompt
                  || Said(log[i].text) in log[j].history[|kept|..])
  {
    hide CourseOf, CutOf, Tail, Unmerged, Unique;
    CompactionHolds(log, i, c);
    ToldStays(log, c, j);
    CoursePrefix(log, j + 1);
    CourseAt(log, j);
    var kept := Unmerged(log[c].history);
    assert log[j].history == kept + log[j].history[|kept|..];
  }

  /** The model has heard everything if and only if each prompt and correction is followed by a
      request. */
  lemma {:induction false} HeardMeansAsked(log: seq<Note>)
    ensures !CourseOf(log).unheard <==> forall i :: 0 <= i < |log| && Tells(log[i]) ==> AskedBehind(log, i)
  {
    if log != [] {
      var before, note := log[..|log| - 1], log[|log| - 1];
      HeardMeansAsked(before);
      StepHears(CourseOf(before), note);
      assert CourseOf(log) == CourseStep(CourseOf(before), note);
      hide CourseOf, CourseStep;
      forall i | 0 <= i < |before| ensures AskedBehind(log, i) <==> AskedBehind(before, i) || note.Asked? {
        AskedMore(before, note, i);
      }
      assert forall i :: 0 <= i < |before| ==> log[i] == before[i];
      assert !AskedBehind(log, |before|);
    }
  }

  lemma StepHears(c: Course, note: Note)
    ensures CourseStep(c, note).unheard == (if Tells(note) then true else if note.Asked? then false else c.unheard)
    ensures CourseStep(c, note).blocked == (if Tells(note) then false else note.Blocked? || c.blocked)
  {
  }

  predicate AskedBehind(log: seq<Note>, i: nat) {
    exists j :: i < j < |log| && log[j].Asked?
  }

  lemma AskedMore(log: seq<Note>, note: Note, i: nat)
    requires i < |log|
    ensures AskedBehind(log + [note], i) <==> AskedBehind(log, i) || note.Asked?
  {
    var longer := log + [note];
    if AskedBehind(log, i) {
      var j :| i < j < |log| && log[j].Asked?;
      assert longer[j].Asked?;
    }
    assert longer[|log|] == note;
  }

  /** A Stop has been refused since anything was last said. */
  predicate BlockedSince(log: seq<Note>) {
    exists k :: 0 <= k < |log| && log[k].Blocked? && forall j :: k < j < |log| ==> !Tells(log[j])
  }

  lemma {:induction false} BlockedMeans(log: seq<Note>)
    ensures CourseOf(log).blocked <==> BlockedSince(log)
  {
    if log != [] {
      var before, note := log[..|log| - 1], log[|log| - 1];
      BlockedMeans(before);
      assert log == before + [note];
      BlockedMore(before, note);
    }
  }

  lemma BlockedMore(log: seq<Note>, note: Note)
    ensures BlockedSince(log + [note]) <==> note.Blocked? || (BlockedSince(log) && !Tells(note))
  {
    var longer := log + [note];
    assert longer[|log|] == note;
    if BlockedSince(longer) {
      var k :| 0 <= k < |longer| && longer[k].Blocked? && forall j :: k < j < |longer| ==> !Tells(longer[j]);
      if k < |log| {
        assert log[k].Blocked? && forall j :: k < j < |log| ==> !Tells(log[j]) by {
          assert forall j :: k < j < |log| ==> longer[j] == log[j];
        }
      }
    }
    if BlockedSince(log) && !Tells(note) {
      var k :| 0 <= k < |log| && log[k].Blocked? && forall j :: k < j < |log| ==> !Tells(log[j]);
      assert longer[k].Blocked? && forall j :: k < j < |longer| ==> !Tells(longer[j]);
    }
  }

  /** Stop hooks learn exactly whether a Stop has been refused since the developer last spoke. */
  lemma StopKnowsBlocks(log: seq<Note>, i: nat)
    requires CourseOf(log).ok && i < |log| && log[i].Stopping?
    ensures log[i].active <==> BlockedSince(log[..i])
  {
    hide CourseOf, BlockedSince;
    CoursePrefix(log, i + 1);
    CourseAt(log, i);
    BlockedMeans(log[..i]);
  }

  // ---- The account of a session ----

  /** Notes and conversation agree: what was last said is still there, and what has been
      admitted and delivered since the turn began is what the notes behind `earlier` say. */
  predicate Account(earlier: seq<Note>, log: seq<Note>, course: Course, history: seq<Message>, admitted: seq<seq<char>>, delivered: seq<seq<char>>) {
    && course == CourseOf(log) && course.ok
    && course.told <= history && !EndsInResults(course.told)
    && earlier <= log
    && admitted == AdmittedIn(log[|earlier|..]) && delivered == DeliveredIn(log[|earlier|..])
  }

  lemma InMore(notes: seq<Note>, note: Note)
    ensures AdmittedIn(notes + [note]) == AdmittedIn(notes) + (if note.Admitted? then [note.text] else [])
    ensures DeliveredIn(notes + [note]) == DeliveredIn(notes) + (if note.Delivered? then [note.text] else [])
  {
    assert (notes + [note])[..|notes + [note]| - 1] == notes;
  }

  lemma BehindEarlier(earlier: seq<Note>, log: seq<Note>, note: Note)
    requires earlier <= log
    ensures earlier <= log + [note] && (log + [note])[|earlier|..] == log[|earlier|..] + [note]
  {
  }

  /** One more note. What it tells must be the conversation as it is. */
  lemma AccountMore(earlier: seq<Note>, log: seq<Note>, course: Course, history: seq<Message>, admitted: seq<seq<char>>, delivered: seq<seq<char>>,
                    note: Note)
    requires Account(earlier, log, course, history, admitted, delivered)
    requires note.Asked? ==> note.history == history
    requires !note.Compacted?
    requires note.Stopping? ==> note.active == course.blocked
    requires Tells(note) ==> |history| > |course.told| && note.history == history && history[|history| - 1] == Said(note.text)
    ensures Account(earlier, log + [note], CourseStep(course, note), history,
                    admitted + (if note.Admitted? then [note.text] else []), delivered + (if note.Delivered? then [note.text] else []))
  {
    hide CourseOf, AdmittedIn, DeliveredIn;
    CourseMore(log, note);
    BehindEarlier(earlier, log, note);
    InMore(log[|earlier|..], note);
  }

  /** Notes that are not about the conversation. */
  lemma AccountQuiet(earlier: seq<Note>, log: seq<Note>, course: Course, history: seq<Message>, admitted: seq<seq<char>>, delivered: seq<seq<char>>,
                     note: Note)
    requires Account(earlier, log, course, history, admitted, delivered)
    requires note.Replied? || note.Refused? || note.Entered? || note.Started? || note.Finished? || note.Resulted? || note.Overruled? || note.Saved?
    ensures Account(earlier, log + [note], course, history, admitted, delivered)
  {
    hide Account;
    AccountMore(earlier, log, course, history, admitted, delivered, note);
    assert admitted + [] == admitted && delivered + [] == delivered;
  }

  lemma {:induction false} AccountNotes(earlier: seq<Note>, log: seq<Note>, course: Course, history: seq<Message>,
                                        admitted: seq<seq<char>>, delivered: seq<seq<char>>, notes: seq<Note>)
    requires Account(earlier, log, course, history, admitted, delivered)
    requires forall note <- notes :: note.Replied? || note.Admitted?
    ensures Account(earlier, log + notes, course, history, admitted + AdmittedIn(notes), delivered)
    decreases |notes|
  {
    hide Account;
    if notes == [] {
      assert log + notes == log && admitted + AdmittedIn(notes) == admitted;
    } else {
      var before, note := notes[..|notes| - 1], notes[|notes| - 1];
      assert note in notes;
      AccountNotes(earlier, log, course, history, admitted, delivered, before);
      AccountMore(earlier, log + before, course, history, admitted + AdmittedIn(before), delivered, note);
      assert log + before + [note] == log + notes && delivered + [] == delivered;
      assert admitted + AdmittedIn(before) + (if note.Admitted? then [note.text] else []) == admitted + AdmittedIn(notes);
    }
  }

  /** A conversation that only grows keeps what has been said. */
  lemma AccountGrows(earlier: seq<Note>, log: seq<Note>, course: Course, history: seq<Message>, longer: seq<Message>,
                     admitted: seq<seq<char>>, delivered: seq<seq<char>>)
    requires Account(earlier, log, course, history, admitted, delivered) && history <= longer
    ensures Account(earlier, log, course, longer, admitted, delivered)
  {
    hide CourseOf, AdmittedIn, DeliveredIn;
  }

  /** The model is asked; the hooks of a Stop run; a Stop is refused. */
  lemma AccountAsked(earlier: seq<Note>, log: seq<Note>, course: Course, history: seq<Message>,
                     admitted: seq<seq<char>>, delivered: seq<seq<char>>, sound: bool)
    requires Account(earlier, log, course, history, admitted, delivered)
    ensures Account(earlier, log + [Asked(history, sound)], course.(unheard := false), history, admitted, delivered)
    ensures Account(earlier, log + [Stopping(course.blocked)], course, history, admitted, delivered)
    ensures Account(earlier, log + [Blocked], course.(blocked := true), history, admitted, delivered)
  {
    AccountMore(earlier, log, course, history, admitted, delivered, Asked(history, sound));
    AccountMore(earlier, log, course, history, admitted, delivered, Stopping(course.blocked));
    AccountMore(earlier, log, course, history, admitted, delivered, Blocked);
    assert admitted + [] == admitted && delivered + [] == delivered;
    assert course.ok && course.told <= history;
    hide Account;
  }

  /** A prompt or a correction is said. */
  lemma AccountTold(earlier: seq<Note>, log: seq<Note>, course: Course, history: seq<Message>,
                    admitted: seq<seq<char>>, delivered: seq<seq<char>>, text: seq<char>, longer: seq<Message>)
    requires Account(earlier, log, course, history, admitted, delivered) && longer == history + [Said(text)]
    ensures Account(earlier, log + [Prompted(text, longer)], Course(Some(text), longer, true, false, true), longer, admitted, delivered)
    ensures Account(earlier, log + [Delivered(text, longer)], Course(course.prompt, longer, true, false, true), longer, admitted, delivered + [text])
  {
    assert course.ok && SaidBehind(course.told, text, longer) && |longer| > |course.told|;
    AccountGrows(earlier, log, course, history, longer, admitted, delivered);
    hide Account, SaidBehind;
    AccountMore(earlier, log, course, longer, admitted, delivered, Prompted(text, longer));
    AccountMore(earlier, log, course, longer, admitted, delivered, Delivered(text, longer));
    assert admitted + [] == admitted && delivered + [] == delivered;
  }

  /** So do results, although they may be put into the last message. */
  lemma AccountResults(earlier: seq<Note>, log: seq<Note>, course: Course, history: seq<Message>, results: seq<ToolResult>,
                       admitted: seq<seq<char>>, delivered: seq<seq<char>>)
    requires Account(earlier, log, course, history, admitted, delivered)
    ensures Account(earlier, log, course, AddResults(history, results), admitted, delivered)
  {
    hide CourseOf, AdmittedIn, DeliveredIn;
    if history != [] && history[|history| - 1].Results? {
      assert |course.told| <= |history| - 1;
    }
  }

  /** A compaction leaves what it says. */
  lemma AccountCompacted(earlier: seq<Note>, log: seq<Note>, course: Course, history: seq<Message>,
                         admitted: seq<seq<char>>, delivered: seq<seq<char>>, prompt: seq<char>, objective: bool)
    requires Account(earlier, log, course, history, admitted, delivered) && Tail(history).Some?
    ensures var after := Summarised(history, prompt, objective);
            Account(earlier, log + [Compacted(prompt, objective, history, after)], course.(told := Unmerged(after)), after, admitted, delivered)
  {
    hide CourseOf, AdmittedIn, DeliveredIn, Summarised, Unmerged, Tail;
    var note := Compacted(prompt, objective, history, Summarised(history, prompt, objective));
    CourseMore(log, note);
    BehindEarlier(earlier, log, note);
    InMore(log[|earlier|..], note);
  }

  lemma AccountEmpty(history: seq<Message>)
    ensures Account([], [], BEFORE, history, [], [])
  {
  }

  lemma AccountMeans(earlier: seq<Note>, log: seq<Note>, course: Course, history: seq<Message>, admitted: seq<seq<char>>, delivered: seq<seq<char>>)
    requires Account(earlier, log, course, history, admitted, delivered)
    ensures earlier <= log && course == CourseOf(log)
    ensures admitted == AdmittedIn(log[|earlier|..]) && delivered == DeliveredIn(log[|earlier|..])
  {
    hide CourseOf, AdmittedIn, DeliveredIn;
  }

  /** A turn begins with an empty account. */
  lemma AccountBegins(earlier: seq<Note>, log: seq<Note>, course: Course, history: seq<Message>, admitted: seq<seq<char>>, delivered: seq<seq<char>>)
    requires Account(earlier, log, course, history, admitted, delivered)
    ensures Account(log, log, course, history, [], [])
  {
    assert log[|log|..] == [];
    hide CourseOf;
  }
}
