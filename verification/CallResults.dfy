/** Which calls of a response are executed and which are superseded, as far as the notes of a
    session tell. */
module CallResults {
  import opened Utf8
  import opened Conversations
  import opened Alignment
  import opened Commands

  predicate Corrects(note: Note) {
    note.Admitted? || note.Overruled?
  }

  /** A correction has been admitted, or asked for by a plugin, since the model was last asked. */
  predicate CorrectedSince(log: seq<Note>) {
    exists k :: 0 <= k < |log| && Corrects(log[k]) && forall j :: k < j < |log| ==> !log[j].Asked?
  }

  /** The tool that is in progress: where it was chosen. */
  function ChosenAt(log: seq<Note>): (at: Option<nat>)
    ensures at.Some? ==> at.value < |log| && log[at.value].Entered?
    ensures at.Some? ==> forall j :: at.value < j < |log| ==> !log[j].Entered? && !log[j].Resulted? && !log[j].Asked?
    ensures at.None? ==> forall e :: 0 <= e < |log| && log[e].Entered? ==> exists j :: e < j < |log| && (log[j].Resulted? || log[j].Asked?)
  {
    if log == [] then None
    else
      var n := |log| - 1;
      if log[n].Entered? then Some(n)
      else if log[n].Resulted? || log[n].Asked? then None
      else
        var at := ChosenAt(log[..n]);
        assert forall i :: 0 <= i < n ==> log[..n][i] == log[i];
        at
  }

  /** Where the turn of the call came whose result would be noted next. */
  function TurnAt(log: seq<Note>): (at: nat)
    ensures at <= |log|
  {
    if ChosenAt(log).Some? then ChosenAt(log).value else |log|
  }

  /** What the tool chosen at `e` has come back with. */
  predicate CameBack(log: seq<Note>, e: nat, id: nat, success: bool) {
    exists f :: e < f < |log| && log[f] == Finished(id, success)
  }

  lemma CorrectedMore(log: seq<Note>, note: Note)
    ensures CorrectedSince(log + [note]) <==> Corrects(note) || (CorrectedSince(log) && !note.Asked?)
  {
    var longer := log + [note];
    assert longer[|log|] == note;
    if CorrectedSince(longer) {
      var k :| 0 <= k < |longer| && Corrects(longer[k]) && forall j :: k < j < |longer| ==> !longer[j].Asked?;
      assert k < |log| ==> Corrects(log[k]) && forall j :: k < j < |log| ==> !longer[j].Asked?;
      assert forall j :: 0 <= j < |log| ==> log[j] == longer[j];
    }
    if CorrectedSince(log) && !note.Asked? {
      var k :| 0 <= k < |log| && Corrects(log[k]) && forall j :: k < j < |log| ==> !log[j].Asked?;
      assert Corrects(longer[k]);
    }
  }

  lemma CorrectedPart(log: seq<Note>, longer: seq<Note>, n: nat)
    requires log <= longer && n <= |log|
    ensures longer[..n] == log[..n]
  {
  }

  lemma ChosenMore(log: seq<Note>, note: Note)
    ensures ChosenAt(log + [note]) ==
            if note.Entered? then Some(|log|) else if note.Resulted? || note.Asked? then None else ChosenAt(log)
  {
    assert (log + [note])[..|log|] == log;
  }

  /** The state of the watch, in terms of the notes. */
  lemma {:induction false} WatchMeans(log: seq<Note>)
    ensures !Watched(log).clear || Watched(log).overruled <==> CorrectedSince(log)
    ensures Watched(log).open <==> ChosenAt(log).Some?
    ensures Watched(log).open ==> Watched(log).entered == Some(log[ChosenAt(log).value].id)
  {
    if log != [] {
      var before, note := log[..|log| - 1], log[|log| - 1];
      assert log == before + [note];
      WatchMeans(before);
      WatchedMore(before, note);
      CorrectedMore(before, note);
      ChosenMore(before, note);
      hide Watched, CorrectedSince, ChosenAt, IsDue;
    }
  }

  /** No tool in progress has been chosen behind a correction, and its outcome has been noted. */
  lemma {:induction false} ProgressMeans(log: seq<Note>)
    requires Watched(log).ok && ChosenAt(log).Some?
    ensures !CorrectedSince(log[..ChosenAt(log).value])
    ensures Watched(log).outcome.Some? ==> CameBack(log, ChosenAt(log).value, log[ChosenAt(log).value].id, Watched(log).outcome.value)
    decreases |log|
  {
    var n := |log| - 1;
    var before, note := log[..n], log[n];
    assert log == before + [note];
    WatchMeans(before);
    WatchedMore(before, note);
    ChosenMore(before, note);
    hide Watched, CorrectedSince, ChosenAt, IsDue;
    if note.Entered? {
      assert log[..n] == before;
    } else {
      ProgressMeans(before);
      var e := ChosenAt(before).value;
      assert log[..e] == before[..e] && log[e] == before[e];
      if Watched(log).outcome.Some? {
        CameBackMore(before, note, e, log[e].id, Watched(log).outcome);
      }
    }
  }

  lemma CameBackMore(log: seq<Note>, note: Note, e: nat, id: nat, outcome: Option<bool>)
    requires e < |log| && outcome.Some?
    requires note == Finished(id, outcome.value) || CameBack(log, e, id, outcome.value)
    ensures CameBack(log + [note], e, id, outcome.value)
  {
    var longer := log + [note];
    if note == Finished(id, outcome.value) {
      assert longer[|log|] == note;
    } else {
      var f :| e < f < |log| && log[f] == Finished(id, outcome.value);
      assert longer[f] == log[f];
    }
  }

  /** A call is answered as superseded if and only if a correction had been admitted, or asked for
      by a plugin, since the response, when its turn came. Any other answer is that of the tool
      itself: it was chosen at its turn, and the result is what it came back with. */
  lemma CallIsAnswered(log: seq<Note>, i: nat)
    requires Watched(log).ok && i < |log| && log[i].Resulted?
    ensures var result, at := log[i].result, TurnAt(log[..i]);
            && (result.origin.Superseded? <==> CorrectedSince(log[..at]))
            && (!result.origin.Superseded? ==>
                  && at < i && log[at] == Entered(result.id) && result.origin.Executed?
                  && (forall j :: at < j < i ==> !log[j].Entered? && !log[j].Resulted? && !log[j].Asked?)
                  && CameBack(log[..i], at, result.id, result.origin.success))
  {
    hide *;
    var before := log[..i];
    assert log[..i + 1] == before + [log[i]];
    WatchedPrefix(log, i + 1);
    ResultIsDue(before, log[i].result);
    WatchMeans(before);
    TurnIs(before);
    if ChosenAt(before).Some? {
      ProgressMeans(before);
      var e := ChosenAt(before).value;
      assert before[..e] == log[..e] && before[e] == log[e];
      assert forall j :: e < j < i ==> before[j] == log[j];
    }
  }

  lemma TurnIs(log: seq<Note>)
    ensures TurnAt(log) == if ChosenAt(log).Some? then ChosenAt(log).value else |log|
  {
  }

  lemma ResultIsDue(log: seq<Note>, result: ToolResult)
    requires Watched(log + [Resulted(result)]).ok
    ensures Watched(log).ok && (result.origin.Superseded? || result.origin.Executed?)
    ensures Watched(log).open <==> result.origin.Executed?
    ensures Watched(log).open ==> Watched(log).entered == Some(result.id) && Watched(log).outcome == Some(result.origin.success)
    ensures !Watched(log).open ==> !Watched(log).clear || Watched(log).overruled
  {
    WatchedMore(log, Resulted(result));
    hide Watched;
  }
}
