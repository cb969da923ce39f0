/** Which part of a conversation compaction may keep. */
module Compactions {
  import opened Utf8
  import opened Conversations

  function SetOf(ids: seq<nat>): (r: set<nat>)
    ensures forall id :: id in r <==> id in ids
  {
    set id | id in ids
  }

  predicate Distinct(ids: seq<nat>) {
    forall i, j :: 0 <= i < j < |ids| ==> ids[i] != ids[j]
  }

  /** The calls without a result so far, and the places at which there are none. */
  datatype Cuts = Cuts(waiting: set<nat>, boundaries: seq<nat>)

  function WaitingAfter(waiting: set<nat>, message: Message): Option<set<nat>> {
    match message
    case Said(_) => Some(waiting)
    case Assistant(calls) =>
      var ids := Ids(calls);
      if Distinct(ids) && (forall id <- ids :: id !in waiting) then Some(waiting + SetOf(ids)) else None
    case Results(results) =>
      var ids := IdsOf(results);
      if Distinct(ids) && (forall id <- ids :: id in waiting) then Some(waiting - SetOf(ids)) else None
  }

  function CutsOf(history: seq<Message>): (c: Option<Cuts>)
    ensures c.Some? ==> c.value.boundaries != [] && forall i :: 0 <= i < |c.value.boundaries| ==> c.value.boundaries[i] <= |history|
  {
    if history == [] then Some(Cuts({}, [0]))
    else
      var before := CutsOf(history[..|history| - 1]);
      var waiting := if before.Some? then WaitingAfter(before.value.waiting, history[|history| - 1]) else None;
      if waiting.None? then None
      else Some(Cuts(waiting.value, if waiting.value == {} then before.value.boundaries + [|history|] else before.value.boundaries))
  }

  /** The last two complete exchanges; nothing if a call is unanswered, answered twice or not
      asked for, or if there is nothing before them to drop. */
  function Tail(history: seq<Message>): Option<seq<Message>> {
    var c := CutsOf(history);
    if c.None? || c.value.waiting != {} || |c.value.boundaries| <= 3 then None
    else Some(history[c.value.boundaries[|c.value.boundaries| - 3]..])
  }

  lemma CutsMore(history: seq<Message>, message: Message)
    ensures var before := CutsOf(history);
            var waiting := if before.Some? then WaitingAfter(before.value.waiting, message) else None;
            CutsOf(history + [message]) ==
            if waiting.None? then None
            else Some(Cuts(waiting.value, if waiting.value == {} then before.value.boundaries + [|history| + 1] else before.value.boundaries))
  {
    assert (history + [message])[..|history + [message]| - 1] == history;
  }

  /** In a history that is not beyond repair the calls without a result are the open ones. */
  lemma {:induction false} OpenIsWaiting(history: seq<Message>)
    requires Open(history).Some? && CutsOf(history).Some?
    ensures CutsOf(history).value.waiting == SetOf(Open(history).value)
  {
    if history != [] {
      var before := history[..|history| - 1];
      var last := history[|history| - 1];
      assert history == before + [last];
      OpenLast(history);
      OpenIsWaiting(before);
      OpenMore(before, last);
      if last.Results? {
        OpenLast(before);
        SplitIds(IdsOf(last.results), Ids(before[|before| - 1].calls));
        CallsAreDistinct(before);
      }
    }
  }

  lemma CallsAreDistinct(history: seq<Message>)
    requires history != [] && history[|history| - 1].Assistant? && CutsOf(history).Some?
    ensures Distinct(Ids(history[|history| - 1].calls))
  {
  }

  lemma SplitIds(front: seq<nat>, all: seq<nat>)
    requires front <= all
    ensures Distinct(all) ==> SetOf(all[|front|..]) == SetOf(all) - SetOf(front)
  {
    assert all == front + all[|front|..];
    if Distinct(all) {
      forall id | id in SetOf(all[|front|..]) ensures id in SetOf(all) - SetOf(front) {
        var j :| 0 <= j < |all| - |front| && all[|front|..][j] == id;
        assert all[|front| + j] == id;
      }
    }
  }

  /** Between two complete exchanges a well-formed history may be cut. */
  lemma {:induction false} BoundariesAreClosed(history: seq<Message>, k: nat)
    requires Open(history).Some? && CutsOf(history).Some? && k < |CutsOf(history).value.boundaries|
    ensures CutsOf(history).value.boundaries[k] <= |history|
    ensures Open(history[..CutsOf(history).value.boundaries[k]]) == Some([])
  {
    if history != [] {
      var before := history[..|history| - 1];
      var last := history[|history| - 1];
      assert history == before + [last];
      OpenLast(history);
      CutsMore(before, last);
      if k < |CutsOf(before).value.boundaries| {
        BoundariesAreClosed(before, k);
        var b := CutsOf(before).value.boundaries[k];
        assert before[..b] == history[..b];
      } else {
        OpenIsWaiting(history);
        assert history[..|history|] == history;
        NothingIn(Open(history).value);
      }
    }
  }

  lemma NothingIn(ids: seq<nat>)
    ensures SetOf(ids) == {} <==> ids == []
  {
    if ids != [] {
      assert ids[0] in SetOf(ids);
    }
  }

  /** What follows a closed beginning is judged on its own. */
  lemma {:induction false} OpenBehind(front: seq<Message>, rest: seq<Message>)
    requires Open(front) == Some([])
    requires rest != [] && Open(front + rest).Some? ==> !rest[0].Results?
    ensures Open(front + rest).Some? ==> Open(rest) == Open(front + rest)
  {
    if rest == [] {
      assert front + rest == front;
    } else if Open(front + rest).Some? {
      var less := rest[..|rest| - 1];
      var last := rest[|rest| - 1];
      assert front + rest == (front + less) + [last] && rest == less + [last];
      OpenLast(front + rest);
      assert (front + rest)[..|front + rest| - 1] == front + less;
      OpenBehind(front, less);
      OpenMore(front + less, last);
      OpenMore(less, last);
    }
  }

  lemma ResultsFollowCalls(front: seq<Message>, rest: seq<Message>)
    requires Open(front) == Some([]) && rest != [] && Open(front + rest).Some?
    ensures !rest[0].Results?
  {
    OpenPrefix(front + rest, |front| + 1);
    assert (front + rest)[..|front| + 1] == front + [rest[0]];
    OpenMore(front, rest[0]);
    if front != [] {
      OpenLast(front);
    }
  }

  lemma {:induction false} OpenPrefix(history: seq<Message>, n: nat)
    requires n <= |history| && Open(history).Some?
    ensures Open(history[..n]).Some?
  {
    if n < |history| {
      OpenLast(history);
      OpenPrefix(history[..|history| - 1], n);
      assert history[..|history| - 1][..n] == history[..n];
    } else {
      assert history[..n] == history;
    }
  }

  /** The texts compaction puts in front: its summary, the objective, the developer's words. */
  predicate AllSaid(texts: seq<Message>) {
    forall i :: 0 <= i < |texts| ==> texts[i].Said?
  }

  lemma {:induction false} SaidIsOpenToAll(texts: seq<Message>)
    requires AllSaid(texts)
    ensures Open(texts) == Some([])
  {
    if texts != [] {
      SaidIsOpenToAll(texts[..|texts| - 1]);
    }
  }

  lemma {:induction false} OpenJoins(front: seq<Message>, rest: seq<Message>)
    requires Open(front) == Some([]) && Open(rest) == Some([]) && (rest != [] ==> !rest[0].Results?)
    ensures Open(front + rest) == Some([])
  {
    ClosedIsPaired(front);
    ClosedIsPaired(rest);
    ClosedIsPaired(front + rest);
    var n := |front|;
    forall i | 0 <= i < |front + rest| ensures PairedAt(front + rest, i) {
      if i < n {
        assert PairedAt(front, i);
      } else {
        assert PairedAt(rest, i - n);
      }
    }
  }

  /** Compaction keeps a well-formed conversation well formed: it drops a beginning at a place
      where every call had its result, and never tears a call from its results. */
  lemma CompactedIsPaired(history: seq<Message>, texts: seq<Message>)
    requires Paired(history) && AllSaid(texts) && Tail(history).Some?
    ensures Paired(texts + Tail(history).value)
    ensures exists n :: 0 <= n <= |history| && Tail(history).value == history[n..] && Paired(history[..n])
  {
    ClosedIsPaired(history);
    var boundaries := CutsOf(history).value.boundaries;
    var n := boundaries[|boundaries| - 3];
    BoundariesAreClosed(history, |boundaries| - 3);
    assert Tail(history).value == history[n..];
    hide *;
    var front, rest := history[..n], history[n..];
    assert history == front + rest;
    ClosedIsPaired(front);
    if rest != [] {
      ResultsFollowCalls(front, rest);
    }
    OpenBehind(front, rest);
    SaidIsOpenToAll(texts);
    OpenJoins(texts, rest);
    ClosedIsPaired(texts + rest);
  }

  // ---- What compaction keeps ----

  const SUMMARY: seq<char> := "summary"
  const OBJECTIVE: seq<char> := "objective"

  /** The place behind which a conversation is kept. */
  function CutOf(history: seq<Message>): (cut: nat)
    requires Tail(history).Some?
    ensures cut <= |history| && Tail(history).value == history[cut..]
  {
    var boundaries := CutsOf(history).value.boundaries;
    boundaries[|boundaries| - 3]
  }

  function Texts(prompt: seq<char>, objective: bool): (texts: seq<Message>)
    ensures AllSaid(texts) && Said(prompt) in texts
  {
    [Said(SUMMARY)] + (if objective then [Said(OBJECTIVE)] else []) + [Said(prompt)]
  }

  /** What a conversation is replaced by. */
  function Summarised(history: seq<Message>, prompt: seq<char>, objective: bool): seq<Message>
    requires Tail(history).Some?
  {
    Texts(prompt, objective) + Tail(history).value
  }

  /** A message stands nowhere else. */
  predicate Unique(history: seq<Message>, i: nat)
    requires i < |history|
  {
    forall j :: 0 <= j < |history| && j != i ==> history[j] != history[i]
  }

  /** A message is kept at its place, counted from the end, if and only if it does not stand in
      front of the cut; and one that stands nowhere else and is not put in front is lost otherwise. */
  lemma CompactionKeeps(history: seq<Message>, prompt: seq<char>, objective: bool, i: nat)
    requires Tail(history).Some? && i < |history|
    ensures var cut, after, n := CutOf(history), Summarised(history, prompt, objective), |Texts(prompt, objective)|;
            && (i >= cut <==> |history| - i <= |after| - n)
            && (i >= cut ==> after[|after| - (|history| - i)] == history[i])
            && (Unique(history, i) ==> (history[i] in after <==> i >= cut || history[i] in Texts(prompt, objective)))
  {
    hide CutOf, Tail, Texts;
    var cut, texts := CutOf(history), Texts(prompt, objective);
    var after := Summarised(history, prompt, objective);
    assert after == texts + history[cut..];
    if i >= cut {
      assert after[|texts| + i - cut] == history[i];
    }
    if Unique(history, i) && history[i] in history[cut..] {
      var j :| 0 <= j < |history[cut..]| && history[cut..][j] == history[i];
      assert history[cut + j] == history[i];
    }
  }

  /** Of texts said one after another only the last two are behind the cut. */
  lemma LastTwoStay(history: seq<Message>, a: seq<char>, b: seq<char>)
    requires Tail(history + [Said(a), Said(b)]).Some?
    ensures CutOf(history + [Said(a), Said(b)]) == |history|
  {
    assert history + [Said(a), Said(b)] == history + [Said(a)] + [Said(b)];
    CutsMore(history, Said(a));
    CutsMore(history + [Said(a)], Said(b));
    hide CutsOf;
    assert CutsOf(history).value.waiting == {};
    LastBoundary(history);
  }

  lemma LastBoundary(history: seq<Message>)
    requires CutsOf(history).Some? && CutsOf(history).value.waiting == {}
    ensures var boundaries := CutsOf(history).value.boundaries; boundaries[|boundaries| - 1] == |history|
  {
  }
}
