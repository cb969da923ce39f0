/** What the chat keeps of its activity blocks, apart from how they are shown. */
module ChatRetention {
  import opened Utf8
  import opened Highlighting
  import opened Retention
  import opened RowIndex

  const TITLE_CHARACTERS: nat := 512

  datatype Role = User | Assistant | Running | Success | Failed | Stopped | Notice

  /** A block with what its transcript has kept. */
  datatype Post = Post(id: nat, role: Role, title: seq<Byte>, source: Source, text: Retained)

  datatype ChatState = ChatState(posts: seq<Post>, nextId: nat, expired: bool)

  const NOTHING := ChatState([], 0, false)

  function Spaced(title: seq<char>): seq<Byte> {
    if title == [] then []
    else
      var last := title[|title| - 1];
      Spaced(title[..|title| - 1]) + if IsControl(last) then [0x20] else Encode(last)
  }

  /** A header is a label: so much of the title, with spaces for control characters. */
  function Label(title: seq<char>): seq<Byte> {
    Spaced(if |title| > TITLE_CHARACTERS then title[..TITLE_CHARACTERS] else title)
  }

  predicate TitleFits(title: seq<Byte>) {
    |title| <= 4 * TITLE_CHARACTERS
  }

  lemma {:induction false} SpacedFits(title: seq<char>)
    ensures |Spaced(title)| <= 4 * |title|
  {
    if title != [] {
      SpacedFits(title[..|title| - 1]);
    }
  }

  lemma LabelFits(title: seq<char>)
    ensures TitleFits(Label(title))
  {
    SpacedFits(if |title| > TITLE_CHARACTERS then title[..TITLE_CHARACTERS] else title);
  }

  // ---- Charges and limits ----

  function Charge(p: Post): nat {
    |p.title| + Size(p.text.lines) + 1
  }

  function LineCharge(p: Post): nat {
    |p.text.lines| + 2
  }

  function TotalBytes(posts: seq<Post>): nat {
    if posts == [] then 0 else Charge(posts[0]) + TotalBytes(posts[1..])
  }

  function TotalLines(posts: seq<Post>): nat {
    if posts == [] then 0 else LineCharge(posts[0]) + TotalLines(posts[1..])
  }

  predicate ChatOver(posts: seq<Post>) {
    TotalBytes(posts) > MAX_TRANSCRIPT_BYTES || TotalLines(posts) > MAX_TRANSCRIPT_LINES
  }

  /** What a header leaves of the limit for its text. */
  function Allowance(title: seq<Byte>): nat {
    Minus(MAX_TRANSCRIPT_BYTES, |title| + 1)
  }

  /** A block that is alone gives up the front of its text. */
  function TrimPost(p: Post): Post {
    p.(text := Retained(Trim(p.text.lines, Max(Allowance(p.title), 1), MAX_TRANSCRIPT_LINES - 2), true))
  }

  /** Whole blocks go from the front while there is another one. */
  function LimitPosts(posts: seq<Post>): seq<Post> {
    if !ChatOver(posts) then posts
    else if |posts| > 1 then LimitPosts(posts[1..])
    else [TrimPost(posts[0])]
  }

  predicate TitlesFit(posts: seq<Post>) {
    forall i :: 0 <= i < |posts| ==> TitleFits(posts[i].title)
  }

  lemma TrimPostFits(p: Post)
    requires TitleFits(p.title)
    ensures !ChatOver([TrimPost(p)])
    ensures ChatOver([p]) <==> Over(p.text.lines, Max(Allowance(p.title), 1), MAX_TRANSCRIPT_LINES - 2)
  {
    TrimKeepsLimits(p.text.lines, Max(Allowance(p.title), 1), MAX_TRANSCRIPT_LINES - 2);
    assert TotalBytes([p]) == Charge(p) && TotalLines([p]) == LineCharge(p);
    var q := TrimPost(p);
    assert TotalBytes([q]) == Charge(q) && TotalLines([q]) == LineCharge(q);
  }

  /** These are the last posts as they were, or the very last one without its front. */
  predicate OnlyTrimmed(kept: seq<Post>, posts: seq<Post>) {
    && |kept| <= |posts|
    && forall i :: 0 <= i < |kept| ==>
         var was := posts[i + |posts| - |kept|];
         kept[i] == was || (|kept| == 1 && ChatOver([was]) && kept[i] == TrimPost(was))
  }

  /** After every operation the limits hold, the newest block is still there, and nothing has
      been dropped that did not have to be. */
  lemma {:induction false} LimitsHold(posts: seq<Post>)
    requires TitlesFit(posts)
    ensures var kept := LimitPosts(posts);
            && !ChatOver(kept) && TitlesFit(kept) && |kept| <= |posts|
            && (posts != [] ==> kept != [])
            && OnlyTrimmed(kept, posts)
            && (|kept| < |posts| ==> ChatOver(posts[|posts| - |kept| - 1..]))
  {
    hide *;
    LimitOnce(posts);
    if ChatOver(posts) {
      if |posts| > 1 {
        var rest := posts[1..];
        FitRest(posts);
        LimitsHold(rest);
        var kept := LimitPosts(rest);
        TrimmedBehind(kept, posts);
        if |kept| < |rest| {
          assert rest[|rest| - |kept| - 1..] == posts[|posts| - |kept| - 1..];
        } else {
          assert posts[|posts| - |kept| - 1..] == posts;
        }
      } else {
        assert posts == [posts[0]];
        FitRest(posts);
        TrimPostFits(posts[0]);
        TrimmedAlone(posts);
      }
    } else {
      TrimmedAlone(posts);
    }
  }

  lemma TrimmedBehind(kept: seq<Post>, posts: seq<Post>)
    requires posts != [] && |kept| < |posts| && OnlyTrimmed(kept, posts[1..])
    ensures OnlyTrimmed(kept, posts)
  {
    hide ChatOver, TrimPost;
  }

  lemma TrimmedAlone(posts: seq<Post>)
    ensures OnlyTrimmed(posts, posts)
    ensures |posts| == 1 && ChatOver(posts) ==> posts == [posts[0]] && OnlyTrimmed([TrimPost(posts[0])], posts)
  {
    hide ChatOver, TrimPost;
  }

  lemma LimitOnce(posts: seq<Post>)
    ensures LimitPosts(posts) == if !ChatOver(posts) then posts else if |posts| > 1 then LimitPosts(posts[1..]) else [TrimPost(posts[0])]
    ensures ChatOver(posts) ==> posts != []
  {
  }

  lemma FitRest(posts: seq<Post>)
    requires TitlesFit(posts) && posts != []
    ensures TitleFits(posts[0].title) && TitlesFit(posts[1..]) && TitlesFit([TrimPost(posts[0])])
  {
  }

  // ---- The operations ----

  datatype Op =
    | Begin(role: Role, title: seq<char>, source: Source)
    | Append(id: nat, text: seq<char>)
    | Replace(id: nat, text: seq<char>)
    | Heading(id: nat, role: Role, title: seq<char>)

  /** The place of a block; the number of blocks if it is not there. */
  function PostFrom(posts: seq<Post>, id: nat): (i: nat)
    ensures i <= |posts| && (forall j :: 0 <= j < i ==> posts[j].id != id)
    ensures i < |posts| ==> posts[i].id == id
  {
    if posts == [] || posts[0].id == id then 0 else 1 + PostFrom(posts[1..], id)
  }

  function Limit(posts: seq<Post>, nextId: nat, expired: bool): ChatState {
    ChatState(LimitPosts(posts), nextId, expired || ChatOver(posts))
  }

  /** The blocks before limits are applied again. */
  function Changed(posts: seq<Post>, nextId: nat, op: Op): seq<Post> {
    match op
    case Begin(role, title, source) => posts + [Post(nextId, role, Label(title), source, EMPTY)]
    case Append(id, text) =>
      var i := PostFrom(posts, id);
      if i == |posts| then posts else posts[i := posts[i].(text := Feed(posts[i].text, text))]
    case Replace(id, text) =>
      var i := PostFrom(posts, id);
      if i == |posts| then posts else posts[i := posts[i].(text := Feed(EMPTY, text))]
    case Heading(id, role, title) =>
      var i := PostFrom(posts, id);
      if i == |posts| then posts else posts[i := posts[i].(role := role, title := Label(title))]
  }

  /** Whether the text an operation has written to has lost some of its front. */
  predicate TextExpired(posts: seq<Post>, op: Op) {
    (op.Append? || op.Replace?) && PostFrom(posts, op.id) < |posts| && posts[PostFrom(posts, op.id)].text.expired
  }

  predicate Ignored(posts: seq<Post>, op: Op) {
    !op.Begin? && (PostFrom(posts, op.id) == |posts| || (op.Append? && op.text == []))
  }

  function Step(s: ChatState, op: Op): ChatState {
    if Ignored(s.posts, op) then s
    else
      var posts := Changed(s.posts, s.nextId, op);
      Limit(posts, if op.Begin? then s.nextId + 1 else s.nextId, s.expired || TextExpired(posts, op))
  }

  function After(ops: seq<Op>): ChatState {
    if ops == [] then NOTHING else Step(After(ops[..|ops| - 1]), ops[|ops| - 1])
  }

  // ---- Whole runs ----

  /** How many blocks a run has begun. */
  function Begun(ops: seq<Op>): nat {
    if ops == [] then 0 else Begun(ops[..|ops| - 1]) + if ops[|ops| - 1].Begin? then 1 else 0
  }

  /** All the text a run has given to a block since it was last replaced. */
  function Given(ops: seq<Op>, id: nat): seq<char> {
    if ops == [] then []
    else
      var before := ops[..|ops| - 1];
      var op := ops[|ops| - 1];
      if op.Append? && op.id == id < Begun(before) then Given(before, id) + op.text
      else if op.Replace? && op.id == id < Begun(before) then op.text
      else Given(before, id)
  }

  /** What is kept of one text is the end of it, and all of it exactly while it has not expired. */
  ghost predicate EndOf(kept: Retained, text: seq<char>) {
    && Suffix(Join(kept.lines), Sanitised(text))
    && (kept.expired <==> |Join(kept.lines)| < |Sanitised(text)|)
  }

  ghost predicate Faithful(s: ChatState, ops: seq<Op>) {
    && s.nextId == Begun(ops) && |s.posts| <= s.nextId
    && (forall i :: 0 <= i < |s.posts| ==> s.posts[i].id == s.nextId - |s.posts| + i)
    && TitlesFit(s.posts)
    && (forall i :: 0 <= i < |s.posts| ==> EndOf(s.posts[i].text, Given(ops, s.posts[i].id)))
  }

  lemma {:induction false} FeedKeepsEnd(r: Retained, had: seq<char>, text: seq<char>)
    requires EndOf(r, had)
    ensures EndOf(Feed(r, text), had + text)
  {
    if text == [] {
      assert had + text == had;
    } else {
      var before := text[..|text| - 1];
      FeedKeepsEnd(r, had, before);
      assert (had + text)[..|had + text| - 1] == had + before;
      FeedOneKeepsSuffix(Feed(r, before), text[|text| - 1], Sanitised(had + before));
    }
  }

  lemma EmptyIsEnd()
    ensures EndOf(EMPTY, [])
  {
    assert [] == [] + Join(EMPTY.lines);
  }

  lemma TrimKeepsEnd(p: Post, text: seq<char>)
    requires EndOf(p.text, text) && TitleFits(p.title) && ChatOver([p])
    ensures EndOf(TrimPost(p).text, text)
  {
    TrimPostFits(p);
    hide Trim, Join, ChatOver, Over, Sanitised;
    TrimIsSuffix(p.text.lines, Max(Allowance(p.title), 1), MAX_TRANSCRIPT_LINES - 2);
    SuffixTransitive(Join(TrimPost(p).text.lines), Join(p.text.lines), Sanitised(text));
    var dropped :| Sanitised(text) == dropped + Join(p.text.lines);
  }

  lemma LimitKeepsFaith(posts: seq<Post>, nextId: nat, expired: bool, ops: seq<Op>)
    requires Faithful(ChatState(posts, nextId, expired), ops)
    ensures Faithful(Limit(posts, nextId, expired), ops)
  {
    hide LimitPosts, TrimPost, ChatOver, EndOf, Begun;
    LimitsHold(posts);
    var kept := LimitPosts(posts);
    forall i | 0 <= i < |kept|
      ensures kept[i].id == nextId - |kept| + i && EndOf(kept[i].text, Given(ops, kept[i].id))
    {
      var was := posts[i + |posts| - |kept|];
      TrimPostKeepsId(was);
      if kept[i] != was {
        TrimKeepsEnd(was, Given(ops, was.id));
      }
    }
  }

  lemma TrimPostKeepsId(p: Post)
    ensures TrimPost(p).id == p.id
  {
  }

  lemma {:induction false} NotYetGiven(ops: seq<Op>, id: nat)
    requires Begun(ops) <= id
    ensures Given(ops, id) == []
  {
    if ops != [] {
      NotYetGiven(ops[..|ops| - 1], id);
    }
  }

  lemma StepKeepsFaith(s: ChatState, ops: seq<Op>, op: Op)
    requires Faithful(s, ops)
    ensures Faithful(Step(s, op), ops + [op])
  {
    var more := ops + [op];
    assert more[..|more| - 1] == ops;
    hide EndOf, Limit, Feed;
    if Ignored(s.posts, op) {
      forall i | 0 <= i < |s.posts| ensures Given(more, s.posts[i].id) == Given(ops, s.posts[i].id) {
        if op.Append? && op.text == [] {
          assert Given(ops, op.id) + op.text == Given(ops, op.id);
        }
      }
    } else {
      var posts := Changed(s.posts, s.nextId, op);
      var nextId := if op.Begin? then s.nextId + 1 else s.nextId;
      ChangedIsFaithful(s, ops, op);
      LimitKeepsFaith(posts, nextId, s.expired || TextExpired(posts, op), more);
    }
  }

  lemma ChangedIsFaithful(s: ChatState, ops: seq<Op>, op: Op)
    requires Faithful(s, ops) && !Ignored(s.posts, op)
    ensures var posts := Changed(s.posts, s.nextId, op);
            Faithful(ChatState(posts, if op.Begin? then s.nextId + 1 else s.nextId, s.expired || TextExpired(posts, op)), ops + [op])
  {
    var more := ops + [op];
    assert more[..|more| - 1] == ops;
    hide EndOf, Feed;
    var posts := Changed(s.posts, s.nextId, op);
    match op {
      case Begin(role, title, source) =>
        LabelFits(title);
        EmptyIsEnd();
        NotYetGiven(ops, s.nextId);
      case Append(id, text) =>
        var i := PostFrom(s.posts, id);
        FeedKeepsEnd(s.posts[i].text, Given(ops, id), text);
      case Replace(id, text) =>
        EmptyIsEnd();
        FeedKeepsEnd(EMPTY, [], text);
        assert [] + text == text;
      case Heading(id, role, title) =>
        LabelFits(title);
    }
  }

  lemma {:induction false} RunIsFaithful(ops: seq<Op>)
    ensures Faithful(After(ops), ops)
  {
    hide Faithful, Step;
    if ops == [] {
      NothingIsFaithful();
    } else {
      RunIsFaithful(ops[..|ops| - 1]);
      StepKeepsFaith(After(ops[..|ops| - 1]), ops[..|ops| - 1], ops[|ops| - 1]);
      assert ops[..|ops| - 1] + [ops[|ops| - 1]] == ops;
    }
  }

  lemma NothingIsFaithful()
    ensures Faithful(NOTHING, [])
  {
  }

  /** While the chat has not expired, every block begun is there with all the text it has been
      given since it was last replaced. */
  lemma {:induction false} UnexpiredIsWhole(ops: seq<Op>, id: nat)
    requires !After(ops).expired && id < Begun(ops)
    ensures var s := After(ops);
            |s.posts| == Begun(ops) && s.posts[id].id == id && Join(s.posts[id].text.lines) == Sanitised(Given(ops, id))
  {
    RunIsFaithful(ops);
    UnexpiredKeepsAll(ops);
    hide After, Given, Begun, Join, Sanitised;
    var kept := After(ops).posts[id].text;
    assert EndOf(kept, Given(ops, id));
    SuffixIsShorter(Join(kept.lines), Sanitised(Given(ops, id)));
  }

  lemma {:induction false} UnexpiredKeepsAll(ops: seq<Op>)
    requires !After(ops).expired
    ensures var s := After(ops);
            |s.posts| == Begun(ops) && forall i :: 0 <= i < |s.posts| ==> !s.posts[i].text.expired
  {
    if ops != [] {
      var before := ops[..|ops| - 1];
      hide ChatOver, Feed;
      UnexpiredKeepsAll(before);
    }
  }
}
