/** The chat: activity blocks over bounded transcripts, under limits of their own, with an
    ordered index of visual rows that a layout brings up to date from the first change on. */
module Chats {
  import opened Utf8
  import opened Wrapping
  import opened Highlighting
  import opened Retention
  import opened RowIndex
  import opened IndexUpdates
  import opened Folding
  import opened ChatRows
  import opened ChatRetention
  import opened ChatUpdates
  import opened Transcripts

  datatype Block = Block(id: nat, role: Role, title: seq<Byte>, source: Source, text: Transcript, start: Option<nat>, bodyRows: nat, height: nat)

  ghost function TextsIn(blocks: seq<Block>): set<Transcript> {
    set b | b in blocks :: b.text
  }

  ghost function ShotOf(b: Block): Shot
    reads b.text
  {
    Shot(
      Post(b.id, b.role, b.title, b.source, b.text.Kept()),
      Entry(b.id, b.start, BlockView(b.role.User?, b.text.View(), b.bodyRows, b.height)),
      b.text.dirtyFrom, b.text.width)
  }

  ghost function ShotsOf(blocks: seq<Block>): (shots: seq<Shot>)
    reads TextsIn(blocks)
    ensures |shots| == |blocks| && forall i :: 0 <= i < |blocks| ==> shots[i] == ShotOf(blocks[i])
  {
    seq(|blocks|, i requires 0 <= i < |blocks| reads TextsIn(blocks) => assert blocks[i] in blocks; ShotOf(blocks[i]))
  }

  /** Every block has a transcript of its own. */
  ghost predicate Separate(blocks: seq<Block>) {
    forall i, j :: 0 <= i < j < |blocks| ==> blocks[i].text != blocks[j].text
  }

  ghost predicate Sound(g: Segmenter, blocks: seq<Block>)
    reads TextsIn(blocks)
  {
    && Lawful(g) && Separate(blocks)
    && forall b <- blocks :: b.text.Valid() && b.text.g == g && b.text.source == b.source
  }

  /** The first block whose key is not below `id`; the number of blocks if there is none. */
  function PlaceOf(blocks: seq<Block>, id: nat): (i: nat)
    ensures i <= |blocks| && (forall j :: 0 <= j < i ==> blocks[j].id < id)
    ensures i < |blocks| ==> id <= blocks[i].id
  {
    if blocks == [] || id <= blocks[0].id then 0 else 1 + PlaceOf(blocks[1..], id)
  }

  class Chat {
    const g: Segmenter
    const sx: Syntax
    var blocks: seq<Block>
    var rows: seq<RowStart>
    var nextId: nat
    var nextRow: nat
    var dirty: Option<nat>
    var bytes: nat
    var lines: nat
    var width: nat
    var expanded: bool
    var expired: bool

    ghost function Texts(): set<Transcript>
      reads this
    {
      TextsIn(blocks)
    }

    ghost function Shots(): seq<Shot>
      reads this, Texts()
    {
      ShotsOf(blocks)
    }

    ghost function Fields(): Book
      reads this
    {
      Book(rows, nextRow, nextId, dirty, bytes, lines, width, expanded)
    }

    /** What is kept of the blocks, apart from how they are shown. */
    ghost function State(): ChatState
      reads this, Texts()
    {
      ChatState(PostsOf(Shots()), nextId, expired)
    }

    /** The index of visual rows with what it needs of the blocks. */
    ghost function View(): ChatIndex
      reads this, Texts()
    {
      IndexOf(Shots(), Fields())
    }

    /** The counters are the true sums and the index is right up to the first changed block. */
    ghost predicate Consistent()
      reads this, Texts()
    {
      Sound(g, blocks) && Balanced(g, Shots(), Fields())
    }

    ghost predicate Valid()
      reads this, Texts()
    {
      Consistent() && bytes <= MAX_TRANSCRIPT_BYTES && lines <= MAX_TRANSCRIPT_LINES
    }

    constructor (g: Segmenter, sx: Syntax)
      requires Lawful(g)
      ensures Valid() && State() == NOTHING && Texts() == {}
      ensures this.g == g && this.sx == sx
    {
      this.g, this.sx := g, sx;
      blocks, rows, nextId, nextRow, dirty := [], [], 0, 0, None;
      bytes, lines, width, expanded, expired := 0, 0, 0, false, false;
    }

    method MarkDirty(id: nat)
      modifies this`dirty
      ensures dirty == Earliest(old(dirty), id)
    {
      dirty := Some(if dirty.Some? && dirty.value < id then dirty.value else id);
    }

    lemma Parts()
      requires Consistent()
      ensures Sound(g, blocks) && Balanced(g, ShotsOf(blocks), Book(rows, nextRow, nextId, dirty, bytes, lines, width, expanded))
      ensures Shots() == ShotsOf(blocks) && Texts() == TextsIn(blocks)
    {
    }

    lemma Whole()
      requires Sound(g, blocks) && Balanced(g, ShotsOf(blocks), Book(rows, nextRow, nextId, dirty, bytes, lines, width, expanded))
      ensures Consistent() && Shots() == ShotsOf(blocks) && Texts() == TextsIn(blocks)
    {
    }

    method PopOldest()
      requires Consistent() && |blocks| > 1
      modifies this
      ensures Consistent() && expired == old(expired) && nextId == old(nextId)
      ensures blocks == old(blocks)[1..] && Texts() <= old(Texts()) && PostsOf(Shots()) == old(PostsOf(Shots()))[1..]
      ensures BlocksSurvive(old(Shots()), Shots())
    {
      hide *;
      Parts();
      ghost var shots := ShotsOf(blocks);
      SoundAt(g, blocks, 0);
      Pop(g, shots, Book(rows, nextRow, nextId, dirty, bytes, lines, width, expanded));
      PopSurvives(g, shots, Book(rows, nextRow, nextId, dirty, bytes, lines, width, expanded));
      SoundTail(g, blocks);
      var block := blocks[0];
      bytes := bytes - (|block.title| + block.text.bytes + 1);
      lines := lines - (|block.text.lines| + 2);
      if block.start.Some? {
        rows := rows[1..];
      }
      blocks := blocks[1..];
      Whole();
    }

    /** A block that is alone gives up the front of its text. */
    method TrimOnly()
      requires Consistent() && |blocks| == 1 && ChatOver(PostsOf(Shots()))
      modifies this, Texts()
      ensures Consistent() && expired == old(expired) && nextId == old(nextId)
      ensures blocks == old(blocks) && Texts() == old(Texts())
      ensures PostsOf(Shots()) == [TrimPost(old(PostsOf(Shots()))[0])] && !ChatOver(PostsOf(Shots()))
      ensures BlocksSurvive(old(Shots()), Shots())
    {
      hide *;
      Parts();
      ghost var shots := ShotsOf(blocks);
      ghost var book := Book(rows, nextRow, nextId, dirty, bytes, lines, width, expanded);
      SoundAt(g, blocks, 0);
      OnlyPost(g, shots, book);
      var block := blocks[0];
      ShotIs(block);
      TextIsConsistent(block.text);
      AllowanceFits(block.title);
      block.text.TrimToLimits(Allowance(block.title), MAX_TRANSCRIPT_LINES - 2);
      TextIsValid(block.text, Allowance(block.title));
      bytes := |block.title| + block.text.bytes + 1;
      lines := |block.text.lines| + 2;
      MarkDirty(block.id);
      SoundOnly(g, block);
      assert blocks == [block];
      ghost var shot := ShotOf(block);
      ShotIs(block);
      TrimmedPost(shots[0].post, shot.post, old(block.text.expired));
      SoundAt(g, blocks, 0);
      Change(g, shots, book, 0, shot);
      assert ShotsOf(blocks) == shots[0 := shot];
      OneSurvives(shots, 0, shot);
      Whole();
    }

    lemma Counts()
      requires Consistent()
      ensures ChatOver(PostsOf(Shots())) <==> bytes > MAX_TRANSCRIPT_BYTES || lines > MAX_TRANSCRIPT_LINES
      ensures !ChatOver(PostsOf(Shots())) <==> Valid()
      ensures |PostsOf(Shots())| == |blocks|
    {
    }

    /** Blocks expire from the front until the chat is within its limits. */
    method EnforceLimits()
      requires Consistent()
      modifies this, Texts()
      ensures Valid() && nextId == old(nextId) && Texts() <= old(Texts())
      ensures PostsOf(Shots()) == LimitPosts(old(PostsOf(Shots())))
      ensures expired == (old(expired) || ChatOver(old(PostsOf(Shots()))))
      ensures BlocksSurvive(old(Shots()), Shots())
    {
      hide *;
      BlocksSurviveRefl(Shots());
      Counts();
      LimitStep(PostsOf(Shots()));
      while bytes > MAX_TRANSCRIPT_BYTES || lines > MAX_TRANSCRIPT_LINES
        invariant Consistent() && Texts() <= old(Texts()) && nextId == old(nextId)
        invariant LimitPosts(PostsOf(Shots())) == LimitPosts(old(PostsOf(Shots())))
        invariant (expired || ChatOver(PostsOf(Shots()))) == (old(expired) || ChatOver(old(PostsOf(Shots()))))
        invariant ChatOver(PostsOf(Shots())) <==> bytes > MAX_TRANSCRIPT_BYTES || lines > MAX_TRANSCRIPT_LINES
        invariant !ChatOver(PostsOf(Shots())) ==> LimitPosts(PostsOf(Shots())) == PostsOf(Shots())
        invariant BlocksSurvive(old(Shots()), Shots())
        decreases |blocks|, if ChatOver(PostsOf(Shots())) then 1 else 0
      {
        Counts();
        LimitStep(PostsOf(Shots()));
        ghost var was := Shots();
        Parts();
        expired := true;
        Whole();
        if |blocks| > 1 {
          PopOldest();
        } else {
          TrimOnly();
        }
        Counts();
        LimitStep(PostsOf(Shots()));
        BlocksSurviveTransitive(old(Shots()), was, Shots());
      }
      Counts();
    }

    method Begin(role: Role, title: seq<char>, source: Source) returns (id: nat)
      requires Valid()
      modifies this, Texts()
      ensures Valid() && fresh(Texts() - old(Texts()))
      ensures id == old(nextId) && State() == Step(old(State()), Op.Begin(role, title, source))
      ensures BlocksSurvive(old(Shots()), Shots())
    {
      hide *;
      StateIs();
      Parts();
      ghost var shots := ShotsOf(blocks);
      ghost var book := Book(rows, nextRow, nextId, dirty, bytes, lines, width, expanded);
      TextsAre(blocks);
      var text := new Transcript(g, sx, source);
      EmptyText(text);
      var block := Block(nextId, role, Label(title), source, text, None, 0, 2);
      ShotIs(block);
      LabelFits(title);
      id := nextId;
      nextId := nextId + 1;
      bytes := bytes + (|block.title| + block.text.bytes + 1);
      lines := lines + (|block.text.lines| + 2);
      blocks := blocks + [block];
      MarkDirty(id);
      assert Sound(g, old(blocks)) && ShotsOf(old(blocks)) == shots;
      SoundMore(g, old(blocks), block);
      Add(g, shots, book, ShotOf(block));
      AddSurvives(g, shots, book, ShotOf(block));
      Whole();
      BeginStep(old(State()), role, title, source);
      ghost var was := Shots();
      EnforceLimits();
      BlocksSurviveTransitive(shots, was, Shots());
      StateIs();
    }

    lemma StateIs()
      ensures State() == ChatState(PostsOf(Shots()), nextId, expired)
      ensures Valid() ==> Consistent()
    {
    }

    method AppendText(i: nat, text: seq<char>)
      requires Sound(g, blocks) && i < |blocks|
      modifies blocks[i].text
      ensures Sound(g, blocks)
      ensures ShotsOf(blocks) == old(ShotsOf(blocks))[i := ShotOf(blocks[i])]
      ensures ShotOf(blocks[i]).post == old(ShotOf(blocks[i]).post).(text := Feed(old(ShotOf(blocks[i]).post.text), text))
      ensures ShotOf(blocks[i]).entry.id == blocks[i].id && ShotOf(blocks[i]).entry.start == blocks[i].start
      ensures Survives(old(blocks[i].text.lines), blocks[i].text.lines)
    {
      hide *;
      var block := blocks[i];
      SoundAt(g, blocks, i);
      ShotIs(block);
      SoundOthers(g, blocks, i);
      TextIsText(block.text);
      block.text.Append(text);
      SoundWith(g, blocks, i, block);
      assert blocks[i := block] == blocks;
      ShotIs(block);
      TextIsText(block.text);
    }

    method Uncount(block: Block)
      requires bytes >= |block.title| + block.text.bytes + 1 && lines >= |block.text.lines| + 2
      modifies this`bytes, this`lines
      ensures bytes == old(bytes) - (|block.title| + block.text.bytes + 1) && lines == old(lines) - (|block.text.lines| + 2)
    {
      bytes := bytes - (|block.title| + block.text.bytes + 1);
      lines := lines - (|block.text.lines| + 2);
    }

    /** A changed block is charged for again, and the index is stale from it on. */
    method Recount(block: Block)
      modifies this`bytes, this`lines, this`expired, this`dirty
      ensures bytes == old(bytes) + (|block.title| + block.text.bytes + 1) && lines == old(lines) + (|block.text.lines| + 2)
      ensures expired == (old(expired) || block.text.expired) && dirty == Earliest(old(dirty), block.id)
    {
      bytes := bytes + (|block.title| + block.text.bytes + 1);
      lines := lines + (|block.text.lines| + 2);
      expired := expired || block.text.expired;
      MarkDirty(block.id);
    }

    method AppendTo(i: nat, text: seq<char>)
      requires Consistent() && i < |blocks|
      modifies this, Texts()
      ensures Consistent() && Texts() == old(Texts()) && nextId == old(nextId)
      ensures var posts := old(PostsOf(Shots()));
              && PostsOf(Shots()) == posts[i := posts[i].(text := Feed(posts[i].text, text))]
              && expired == (old(expired) || Feed(posts[i].text, text).expired)
      ensures BlocksSurvive(old(Shots()), Shots())
    {
      hide *;
      Parts();
      ghost var shots := ShotsOf(blocks);
      ghost var book := Book(rows, nextRow, nextId, dirty, bytes, lines, width, expanded);
      var block := blocks[i];
      SoundAt(g, blocks, i);
      ShotIs(block);
      Room(g, shots, book, i);
      TextsAre(blocks);
      Uncount(block);
      AppendText(i, text);
      Recount(block);
      ShotIs(block);
      Rebalanced(shots, book, i);
      OneSurvives(shots, i, ShotOf(block));
    }

    lemma Rebalanced(shots: seq<Shot>, book: Book, i: nat)
      requires Balanced(g, shots, book) && i < |blocks| == |shots| && Sound(g, blocks)
      requires ShotsOf(blocks) == shots[i := ShotOf(blocks[i])]
      requires blocks[i].id == shots[i].entry.id == shots[i].post.id && blocks[i].start == shots[i].entry.start && TitleFits(blocks[i].title)
      requires rows == book.rows && nextRow == book.nextRow && nextId == book.nextId && width == book.width && expanded == book.expanded
      requires bytes == book.bytes - Charge(shots[i].post) + (|blocks[i].title| + blocks[i].text.bytes + 1)
      requires lines == book.lines - LineCharge(shots[i].post) + (|blocks[i].text.lines| + 2)
      requires dirty == Earliest(book.dirty, blocks[i].id)
      ensures Consistent() && Shots() == shots[i := ShotOf(blocks[i])] && Texts() == TextsIn(blocks)
      ensures PostsOf(Shots()) == PostsOf(shots)[i := ShotOf(blocks[i]).post]
    {
      hide *;
      SoundAt(g, blocks, i);
      ShotIs(blocks[i]);
      Change(g, shots, book, i, ShotOf(blocks[i]));
      Whole();
    }

    /** More text for a block; nothing happens if the block has expired. */
    method Append(id: nat, text: seq<char>)
      requires Valid()
      modifies this, Texts()
      ensures Valid() && Texts() <= old(Texts())
      ensures State() == Step(old(State()), Op.Append(id, text))
      ensures BlocksSurvive(old(Shots()), Shots())
    {
      hide *;
      StateIs();
      Parts();
      ghost var shots := ShotsOf(blocks);
      ghost var book := Book(rows, nextRow, nextId, dirty, bytes, lines, width, expanded);
      var i := PlaceOf(blocks, id);
      PlaceIsPost(g, blocks, book, id, i);
      IgnoredStep(old(State()), Op.Append(id, text));
      BlocksSurviveRefl(shots);
      if text == [] || i == |blocks| || blocks[i].id != id {
        return;
      }
      AppendTo(i, text);
      AppendStep(old(State()), id, text, PostsOf(Shots())[i]);
      ghost var was := Shots();
      EnforceLimits();
      BlocksSurviveTransitive(shots, was, Shots());
      StateIs();
    }

    method ReplaceText(i: nat, text: seq<char>)
      requires Sound(g, blocks) && i < |blocks|
      modifies this`blocks
      ensures Sound(g, blocks) && fresh(TextsIn(blocks) - TextsIn(old(blocks)))
      ensures |blocks| == |old(blocks)| && blocks == old(blocks)[i := old(blocks)[i].(text := blocks[i].text)]
      ensures ShotsOf(blocks) == old(ShotsOf(blocks))[i := ShotOf(blocks[i])]
      ensures ShotOf(blocks[i]).post == old(ShotOf(blocks[i]).post).(text := Feed(EMPTY, text))
    {
      hide *;
      var block := blocks[i];
      ShotIs(block);
      SoundAt(g, blocks, i);
      SoundOthers(g, blocks, i);
      TextsAre(blocks);
      var text' := new Transcript(g, sx, block.source);
      text'.Append(text);
      TextIsText(text');
      block := block.(text := text');
      assert text' !in TextsIn(blocks);
      SoundWith(g, blocks, i, block);
      blocks := blocks[i := block];
      ShotIs(block);
    }

    method ReplaceIn(i: nat, text: seq<char>)
      requires Consistent() && i < |blocks|
      modifies this
      ensures Consistent() && fresh(Texts() - old(Texts())) && nextId == old(nextId)
      ensures var posts := old(PostsOf(Shots()));
              && PostsOf(Shots()) == posts[i := posts[i].(text := Feed(EMPTY, text))]
              && expired == (old(expired) || Feed(EMPTY, text).expired)
      ensures Shots() == old(Shots())[i := Shots()[i]] && Shots()[i].entry.id == old(Shots())[i].entry.id
    {
      hide *;
      Parts();
      ghost var shots := ShotsOf(blocks);
      ghost var book := Book(rows, nextRow, nextId, dirty, bytes, lines, width, expanded);
      SoundAt(g, blocks, i);
      ShotIs(blocks[i]);
      Room(g, shots, book, i);
      TextsAre(blocks);
      Uncount(blocks[i]);
      ReplaceText(i, text);
      TextsAre(blocks);
      Recount(blocks[i]);
      ShotIs(blocks[i]);
      Rebalanced(shots, book, i);
    }

    /** Other text for a block: a fresh transcript takes the place of the old one. */
    method Replace(id: nat, text: seq<char>)
      requires Valid()
      modifies this, Texts()
      ensures Valid() && fresh(Texts() - old(Texts()))
      ensures State() == Step(old(State()), Op.Replace(id, text))
      ensures OthersSurvive(old(Shots()), id, Shots())
    {
      hide *;
      StateIs();
      Parts();
      ghost var shots := ShotsOf(blocks);
      IdsAre(blocks);
      ghost var book := Book(rows, nextRow, nextId, dirty, bytes, lines, width, expanded);
      var i := PlaceOf(blocks, id);
      PlaceIsPost(g, blocks, book, id, i);
      IgnoredStep(old(State()), Op.Replace(id, text));
      if i == |blocks| || blocks[i].id != id {
        BlocksSurviveRefl(shots);
        OthersDo(shots, id, shots, shots);
        return;
      }
      ReplaceIn(i, text);
      ReplaceStep(old(State()), id, text, PostsOf(Shots())[i]);
      ghost var was := Shots();
      EnforceLimits();
      OthersDo(shots, id, was, Shots());
      StateIs();
    }

    method HeadingOf(i: nat, role: Role, title: seq<char>)
      requires Consistent() && i < |blocks|
      modifies this
      ensures Consistent() && Texts() == old(Texts()) && nextId == old(nextId) && expired == old(expired)
      ensures var posts := old(PostsOf(Shots()));
              PostsOf(Shots()) == posts[i := posts[i].(role := role, title := Label(title))]
      ensures BlocksSurvive(old(Shots()), Shots())
    {
      hide *;
      Parts();
      ghost var shots := ShotsOf(blocks);
      ghost var book := Book(rows, nextRow, nextId, dirty, bytes, lines, width, expanded);
      var block := blocks[i];
      SoundAt(g, blocks, i);
      ShotIs(block);
      SoundOthers(g, blocks, i);
      Room(g, shots, book, i);
      LabelFits(title);
      TitleIsCharged(block);
      var block' := block.(title := Label(title), role := role);
      ShotIs(block');
      TitleIsCharged(block');
      SoundWith(g, blocks, i, block');
      SameTexts(blocks, i, block');
      ghost var shot := ShotOf(block');
      Change(g, shots, book, i, shot);
      SurvivesRefl(block.text.lines);
      OneSurvives(shots, i, shot);
      assert ShotsOf(blocks[i := block']) == shots[i := shot];
      TextsAre(blocks[i := block']);
      bytes := bytes - |block.title|;
      blocks := blocks[i := block'];
      bytes := bytes + |block'.title|;
      MarkDirty(block.id);
      assert Sound(g, blocks);
      assert ShotsOf(blocks) == shots[i := shot];
      Whole();
    }

    /** Another header for a block. */
    method Heading(id: nat, role: Role, title: seq<char>)
      requires Valid()
      modifies this, Texts()
      ensures Valid() && Texts() <= old(Texts())
      ensures State() == Step(old(State()), Op.Heading(id, role, title))
      ensures BlocksSurvive(old(Shots()), Shots())
    {
      hide *;
      StateIs();
      Parts();
      ghost var shots := Shots();
      ghost var book := Book(rows, nextRow, nextId, dirty, bytes, lines, width, expanded);
      var i := PlaceOf(blocks, id);
      PlaceIsPost(g, blocks, book, id, i);
      IgnoredStep(old(State()), Op.Heading(id, role, title));
      BlocksSurviveRefl(shots);
      if i == |blocks| || blocks[i].id != id {
        return;
      }
      HeadingOf(i, role, title);
      HeadingStep(old(State()), id, role, title, PostsOf(Shots())[i]);
      ghost var was := Shots();
      EnforceLimits();
      BlocksSurviveTransitive(shots, was, Shots());
      StateIs();
    }

    predicate Contains(id: nat)
      reads this
    {
      var i := PlaceOf(blocks, id);
      i < |blocks| && blocks[i].id == id
    }

    /** Folds or unfolds every block; what the texts have cached stays. */
    method Toggle()
      requires Valid()
      modifies this`expanded, this`dirty
      ensures Valid() && Shots() == old(Shots()) && State() == old(State()) && expanded == !old(expanded)
    {
      hide *;
      StateIs();
      Counts();
      Parts();
      FoldAll(g, ShotsOf(blocks), Book(rows, nextRow, nextId, dirty, bytes, lines, width, expanded));
      IdsAre(blocks);
      TextsAre(blocks);
      ghost var shots := ShotsOf(blocks);
      expanded := !expanded;
      dirty := if blocks == [] then None else Some(blocks[0].id);
      assert ShotsOf(blocks) == shots;
      Whole();
      Counts();
      StateIs();
    }

    /** One block is laid out at the next free row. */
    method LayBlock(i: nat, row: nat) returns (examined: nat)
      requires Sound(g, blocks) && i < |blocks|
      modifies this`blocks, this`rows, blocks[i].text
      ensures Sound(g, blocks) && TextsIn(blocks) == old(TextsIn(blocks)) && |blocks| == |old(blocks)|
      ensures ShotsOf(blocks) == old(ShotsOf(blocks))[i := ShotOf(blocks[i])]
      ensures Placed(g, old(ShotOf(blocks[i])), ShotOf(blocks[i]), width, expanded, row)
      ensures rows == old(rows) + [RowStart(row, old(blocks[i]).id)] && blocks[i].height == ShotOf(blocks[i]).entry.view.height
      ensures forall j :: 0 <= j < |blocks| && j != i ==> blocks[j] == old(blocks)[j]
      ensures Cached(old(ShotOf(blocks[i])), width) ==> examined == 0
    {
      hide *;
      var block := blocks[i];
      SoundAt(g, blocks, i);
      SoundOthers(g, blocks, i);
      ShotIs(block);
      TextWidthIs(width);
      CachedIs(ShotOf(block), width);
      ghost var was := block.text.lines;
      examined := block.text.Layout(Max(Minus(width, 2), 1));
      block := block.(bodyRows := RowCount(block.text.View()));
      block := block.(height := 2 + (if !expanded && !block.role.User? && block.bodyRows > COLLAPSE_AFTER then PREVIEW_HEAD + PREVIEW_TAIL + 1 else block.bodyRows));
      block := block.(start := Some(row));
      SameTextTexts(was, block.text.lines);
      ShotIs(block);
      TextIsIndex(block.text);
      assert ShotOf(block).entry.view.height == block.height;
      BlockIsPlaced(g, old(ShotOf(blocks[i])), ShotOf(block), width, expanded, row);
      SoundWith(g, blocks, i, block);
      SameTexts(blocks, i, block);
      TextsAre(blocks[i := block]);
      ghost var shot := ShotOf(block);
      assert ShotsOf(blocks[i := block]) == old(ShotsOf(blocks))[i := shot];
      rows := rows + [RowStart(row, block.id)];
      blocks := blocks[i := block];
      assert Sound(g, blocks);
      assert ShotsOf(blocks) == old(ShotsOf(blocks))[i := shot];
    }

    lemma ViewIs()
      ensures View() == ChatIndex(EntriesOf(Shots()), rows, nextRow)
    {
    }

    /** Another width makes every start stale; the texts are not looked at yet. */
    method ForgetLayout(newWidth: nat)
      requires Consistent()
      modifies this`blocks, this`rows, this`nextRow, this`dirty, this`width
      ensures Consistent() && Shots() == Unplaced(old(Shots()), 0) && Texts() == old(Texts())
      ensures width == newWidth
    {
      hide *;
      Parts();
      ghost var was, shots := blocks, ShotsOf(blocks);
      ghost var book := Book(rows, nextRow, nextId, dirty, bytes, lines, width, expanded);
      TextsAre(blocks);
      IdsAre(blocks);
      for i := 0 to |blocks|
        invariant |blocks| == |was| && width == old(width)
        invariant forall j :: 0 <= j < |blocks| ==> blocks[j] == if j < i then was[j].(start := None) else was[j]
      {
        blocks := blocks[i := blocks[i].(start := None)];
      }
      Forget(g, shots, book, newWidth);
      rows, nextRow := [], 0;
      dirty := if blocks == [] then None else Some(blocks[0].id);
      width := newWidth;
      assert Sound(g, was) && ShotsOf(was) == shots;
      StartsGone(g, was, blocks);
      Whole();
    }

    method LayFrom(first: nat) returns (examined: nat)
      requires Consistent() && dirty.Some? && first == PlaceOf(blocks, dirty.value)
      modifies this`blocks, this`rows, this`nextRow, this`dirty, Texts()
      ensures Consistent() && dirty == None && Texts() == old(Texts()) && PostsOf(Shots()) == old(PostsOf(Shots()))
      ensures ChatLaidOut(g, View(), TextWidth(width), expanded)
      ensures BlocksSurvive(old(Shots()), Shots())
      ensures EveryCached(Shots(), width)
      ensures EveryCached(old(Shots()), width) ==> examined == 0
    {
      hide *;
      Parts();
      ghost var was := ShotsOf(blocks);
      ghost var book := Book(rows, nextRow, nextId, dirty, bytes, lines, width, expanded);
      FirstToLay(g, blocks, book);
      LayingStart(g, was, book);
      IdsAre(blocks);
      BlocksSurviveRefl(was);
      var row: nat := if blocks[first].start.Some? then blocks[first].start.value else nextRow;
      rows := RowsBefore(rows, row);
      dirty := None;
      examined := 0;
      for i := first to |blocks|
        invariant Sound(g, blocks) && TextsIn(blocks) == old(Texts()) && |blocks| == |was|
        invariant Laying(g, was, ShotsOf(blocks), rows, row, width, expanded, i)
        invariant BlocksSurvive(was, ShotsOf(blocks))
        invariant EveryCached(was, width) ==> examined == 0 && EveryCached(ShotsOf(blocks), width)
        invariant dirty == None && nextRow == old(nextRow)
      {
        ghost var shots := ShotsOf(blocks);
        SoundAt(g, blocks, i);
        CachedEach(shots, i, width);
        label here:
        var n := LayBlock(i, row);
        examined := examined + n;
        PlacedParts(g, shots[i], ShotOf(blocks[i]), width, expanded, row);
        LayingStep(g, was, shots, old@here(rows), row, width, expanded, i, ShotOf(blocks[i]));
        OneSurvives(shots, i, ShotOf(blocks[i]));
        BlocksSurviveTransitive(was, shots, ShotsOf(blocks));
        row := row + blocks[i].height;
      }
      nextRow := row;
      LayingDone(g, was, book, ShotsOf(blocks), rows, row);
      LayingCached(g, was, ShotsOf(blocks), rows, row, width, expanded);
      Whole();
      ViewIs();
    }

    /** Brings the index up to date from the first changed block on. The result is that of
        laying out every block from scratch, and nothing is wrapped again whose text and width
        are what they were: neither in an unchanged chat nor after folding or unfolding. */
    method Layout(newWidth: nat) returns (examined: nat)
      requires Valid()
      modifies this, Texts()
      ensures Valid() && State() == old(State()) && Texts() == old(Texts()) && expanded == old(expanded)
      ensures width == Max(newWidth, 1) && dirty == None
      ensures ChatLaidOut(g, View(), TextWidth(width), expanded)
      ensures BlocksSurvive(old(Shots()), Shots())
      ensures EveryCached(Shots(), width)
      ensures old(width) == width && (old(dirty) == None || EveryCached(old(Shots()), width)) ==> examined == 0
    {
      hide *;
      StateIs();
      Counts();
      AtLeastOne(newWidth);
      BlocksSurviveRefl(Shots());
      ghost var shots := Shots();
      var newWidth := Max(newWidth, 1);
      if width != newWidth {
        ForgetLayout(newWidth);
        UnplacedSurvives(shots);
      }
      ghost var was := Shots();
      Parts();
      ViewIs();
      if dirty.None? {
        BalancedIsLaidOut(g, was, Book(rows, nextRow, nextId, dirty, bytes, lines, width, expanded));
        Counts();
        StateIs();
        return 0;
      }
      examined := LayFrom(PlaceOf(blocks, dirty.value));
      BlocksSurviveTransitive(shots, was, Shots());
      Counts();
      StateIs();
    }
  }

  lemma SoundAt(g: Segmenter, blocks: seq<Block>, i: nat)
    requires Sound(g, blocks) && i < |blocks|
    ensures var b := blocks[i];
            && b.text in TextsIn(blocks) && b.text.Valid() && b.text.g == g && b.text.source == b.source
            && Charge(ShotOf(b).post) == |b.title| + b.text.bytes + 1 && LineCharge(ShotOf(b).post) == |b.text.lines| + 2
            && ShotOf(b).entry.start == b.start && ShotOf(b).entry.id == b.id == ShotOf(b).post.id
            && ShotsOf(blocks)[i] == ShotOf(b)
  {
    assert blocks[i] in blocks;
  }

  lemma ShotIs(b: Block)
    ensures ShotOf(b) == Shot(
      Post(b.id, b.role, b.title, b.source, Retained(TextsOf(b.text.lines), b.text.expired)),
      Entry(b.id, b.start, BlockView(b.role.User?, Index(b.text.lines, b.text.rows, b.text.nextRow), b.bodyRows, b.height)),
      b.text.dirtyFrom, b.text.width)
  {
  }

  lemma TrimmedPost(p: Post, q: Post, expired: bool)
    requires TitleFits(p.title) && ChatOver([p])
    requires var maxBytes := Max(Allowance(p.title), 1);
             var maxLines := Max(MAX_TRANSCRIPT_LINES - 2, 1);
             q == p.(text := Retained(Trim(p.text.lines, maxBytes, maxLines), expired || Over(p.text.lines, maxBytes, maxLines)))
    ensures q == TrimPost(p) && !ChatOver([q])
  {
    TrimPostFits(p);
  }

  lemma OnlyPost(g: Segmenter, shots: seq<Shot>, b: Book)
    requires Balanced(g, shots, b) && |shots| == 1
    ensures PostsOf(shots) == [shots[0].post] && TitleFits(shots[0].post.title)
    ensures b.bytes == Charge(shots[0].post) && b.lines == LineCharge(shots[0].post)
  {
    assert PostsOf(shots) == [shots[0].post];
    SumsLess(PostsOf(shots));
  }

  lemma LimitStep(posts: seq<Post>)
    ensures !ChatOver(posts) ==> LimitPosts(posts) == posts
    ensures ChatOver(posts) && |posts| > 1 ==> LimitPosts(posts) == LimitPosts(posts[1..])
    ensures ChatOver(posts) ==> posts != [] && (|posts| == 1 ==> LimitPosts(posts) == [TrimPost(posts[0])])
  {
  }

  lemma TextsAre(blocks: seq<Block>)
    ensures forall t :: t in TextsIn(blocks) ==> exists i :: 0 <= i < |blocks| && blocks[i].text == t
  {
  }

  lemma EmptyText(t: Transcript)
    requires t.Valid() && t.Kept() == EMPTY
    ensures t.bytes == 0 && t.lines == [] && Retained(TextsOf(t.lines), t.expired) == EMPTY
  {
  }

  lemma SoundMore(g: Segmenter, blocks: seq<Block>, block: Block)
    requires Sound(g, blocks) && block.text !in TextsIn(blocks)
    requires block.text.Valid() && block.text.g == g && block.text.source == block.source
    ensures Sound(g, blocks + [block]) && ShotsOf(blocks + [block]) == ShotsOf(blocks) + [ShotOf(block)]
    ensures TextsIn(blocks + [block]) == TextsIn(blocks) + {block.text}
    ensures Charge(ShotOf(block).post) == |block.title| + block.text.bytes + 1 && LineCharge(ShotOf(block).post) == |block.text.lines| + 2
  {
    hide *;
    TitleIsCharged(block);
    TextsMore(blocks, block);
    EachMore(g, blocks, block);
    ShotsMore(blocks, block);
  }

  lemma EachMore(g: Segmenter, blocks: seq<Block>, block: Block)
    requires Sound(g, blocks) && block.text !in TextsIn(blocks)
    requires block.text.Valid() && block.text.g == g && block.text.source == block.source
    ensures Sound(g, blocks + [block])
  {
    forall i | 0 <= i < |blocks| ensures blocks[i].text != block.text {
      assert blocks[i] in blocks;
    }
    hide TextsIn, Lawful;
  }

  lemma ShotsMore(blocks: seq<Block>, block: Block)
    ensures ShotsOf(blocks + [block]) == ShotsOf(blocks) + [ShotOf(block)]
  {
    hide *;
    assert ShotsOf(blocks + [block]) == ShotsOf(blocks) + [ShotOf(block)];
  }

  lemma TextsMore(blocks: seq<Block>, block: Block)
    ensures TextsIn(blocks + [block]) == TextsIn(blocks) + {block.text}
  {
    assert forall b :: b in blocks + [block] <==> b in blocks || b == block;
    forall b | b in blocks ensures b.text in TextsIn(blocks + [block]) {
      assert b in blocks + [block];
    }
    assert block in blocks + [block];
  }

  lemma AddSurvives(g: Segmenter, shots: seq<Shot>, b: Book, shot: Shot)
    requires Balanced(g, shots, b)
    ensures BlocksSurvive(shots, shots + [shot])
  {
    hide Survives, Balanced;
    forall i | 0 <= i < |shots| ensures Survives(shots[i].entry.view.ix.lines, shots[i].entry.view.ix.lines) {
      SurvivesRefl(shots[i].entry.view.ix.lines);
    }
  }

  lemma BeginStep(s: ChatState, role: Role, title: seq<char>, source: Source)
    ensures var posts := s.posts + [Post(s.nextId, role, Label(title), source, EMPTY)];
            Step(s, Op.Begin(role, title, source)) == ChatState(LimitPosts(posts), s.nextId + 1, s.expired || ChatOver(posts))
  {
  }

  lemma PlaceIsPost(g: Segmenter, blocks: seq<Block>, b: Book, id: nat, i: nat)
    requires Balanced(g, ShotsOf(blocks), b) && i == PlaceOf(blocks, id)
    ensures PostFrom(PostsOf(ShotsOf(blocks)), id) == if i < |blocks| && blocks[i].id == id then i else |blocks|
  {
    var shots := ShotsOf(blocks);
    hide Balanced, PostFrom, PlaceOf;
    PostIsBlock(g, shots, b, id, i);
  }

  lemma TextIsText(t: Transcript)
    ensures t.Kept() == Retained(TextsOf(t.lines), t.expired)
  {
  }

  /** A change in one block leaves the others alone. */
  lemma SoundOthers(g: Segmenter, blocks: seq<Block>, i: nat)
    requires Sound(g, blocks) && i < |blocks|
    ensures Lawful(g) && Separate(blocks)
    ensures forall j :: 0 <= j < |blocks| && j != i ==>
              blocks[j].text != blocks[i].text && blocks[j].text.Valid() && blocks[j].text.g == g && blocks[j].text.source == blocks[j].source
  {
    forall j | 0 <= j < |blocks| && j != i
      ensures blocks[j].text != blocks[i].text && blocks[j].text.Valid() && blocks[j].text.g == g && blocks[j].text.source == blocks[j].source
    {
      assert blocks[j] in blocks;
    }
  }

  lemma SoundWith(g: Segmenter, blocks: seq<Block>, i: nat, block: Block)
    requires Lawful(g) && Separate(blocks) && i < |blocks|
    requires forall j :: 0 <= j < |blocks| && j != i ==>
               blocks[j].text != block.text && blocks[j].text.Valid() && blocks[j].text.g == g && blocks[j].text.source == blocks[j].source
    requires block.text.Valid() && block.text.g == g && block.text.source == block.source
    ensures Sound(g, blocks[i := block])
    ensures TextsIn(blocks[i := block]) <= TextsIn(blocks) + {block.text}
    ensures blocks[i].text in TextsIn(blocks)
  {
    assert blocks[i] in blocks;
    forall b | b in blocks[i := block] ensures b == block || b in blocks {
    }
    forall b | b in blocks[i := block] ensures b.text.Valid() && b.text.g == g && b.text.source == b.source {
    }
  }

  lemma Room(g: Segmenter, shots: seq<Shot>, b: Book, i: nat)
    requires Balanced(g, shots, b) && i < |shots|
    ensures b.bytes >= Charge(shots[i].post) && b.lines >= LineCharge(shots[i].post)
    ensures TitleFits(shots[i].post.title)
  {
    SumsChange(PostsOf(shots), i, shots[i].post);
    assert PostsOf(shots)[i] == shots[i].post;
    hide Charge, LineCharge, TotalBytes, TotalLines, TitleFits;
  }

  lemma IgnoredStep(s: ChatState, op: Op)
    ensures !op.Begin? && (PostFrom(s.posts, op.id) == |s.posts| || (op.Append? && op.text == [])) ==> Step(s, op) == s
  {
  }

  lemma AppendStep(s: ChatState, id: nat, text: seq<char>, post: Post)
    requires text != []
    requires var i := PostFrom(s.posts, id);
             i < |s.posts| && post == s.posts[i].(text := Feed(s.posts[i].text, text))
    ensures var posts := s.posts[PostFrom(s.posts, id) := post];
            Step(s, Op.Append(id, text)) == ChatState(LimitPosts(posts), s.nextId, s.expired || post.text.expired || ChatOver(posts))
  {
    var i := PostFrom(s.posts, id);
    SamePlace(s.posts, i, post);
    hide Feed, PostFrom, LimitPosts, ChatOver;
  }

  lemma ReplaceStep(s: ChatState, id: nat, text: seq<char>, post: Post)
    requires var i := PostFrom(s.posts, id);
             i < |s.posts| && post == s.posts[i].(text := Feed(EMPTY, text))
    ensures var posts := s.posts[PostFrom(s.posts, id) := post];
            Step(s, Op.Replace(id, text)) == ChatState(LimitPosts(posts), s.nextId, s.expired || post.text.expired || ChatOver(posts))
  {
    var i := PostFrom(s.posts, id);
    SamePlace(s.posts, i, post);
    hide Feed, PostFrom, LimitPosts, ChatOver;
  }

  lemma HeadingStep(s: ChatState, id: nat, role: Role, title: seq<char>, post: Post)
    requires var i := PostFrom(s.posts, id);
             i < |s.posts| && post == s.posts[i].(role := role, title := Label(title))
    ensures var posts := s.posts[PostFrom(s.posts, id) := post];
            Step(s, Op.Heading(id, role, title)) == ChatState(LimitPosts(posts), s.nextId, s.expired || ChatOver(posts))
  {
    hide Label, PostFrom, LimitPosts, ChatOver;
  }

  lemma TitleIsCharged(b: Block)
    requires b.text.Valid()
    ensures Charge(ShotOf(b).post) == |b.title| + b.text.bytes + 1 && LineCharge(ShotOf(b).post) == |b.text.lines| + 2
  {
  }

  lemma SameTexts(blocks: seq<Block>, i: nat, block: Block)
    requires i < |blocks| && block.text == blocks[i].text
    ensures TextsIn(blocks[i := block]) == TextsIn(blocks)
  {
    forall b | b in blocks ensures b.text in TextsIn(blocks[i := block]) {
      var j :| 0 <= j < |blocks| && blocks[j] == b;
      assert blocks[i := block][j] in blocks[i := block] && blocks[i := block][i] in blocks[i := block];
    }
  }

  lemma IdsAre(blocks: seq<Block>)
    ensures ShotsOf(blocks) == [] <==> blocks == []
    ensures forall i :: 0 <= i < |blocks| ==> ShotsOf(blocks)[i].entry.id == blocks[i].id && ShotsOf(blocks)[i].entry.start == blocks[i].start
  {
  }

  /** The block has been laid out at `row`; its text and key are what they were. */
  ghost predicate Placed(g: Segmenter, was: Shot, shot: Shot, width: nat, expanded: bool, row: nat) {
    && shot.post == was.post && shot.entry.id == was.entry.id && shot.entry.start == Some(row)
    && Cached(shot, width) && BlockLaidOut(g, shot.entry.view, TextWidth(width), expanded)
    && Survives(was.entry.view.ix.lines, shot.entry.view.ix.lines)
  }

  lemma TextWidthIs(width: nat)
    ensures Max(Max(Minus(width, 2), 1), 1) == TextWidth(width)
  {
  }

  lemma CachedIs(shot: Shot, width: nat)
    ensures Cached(shot, width) <==> shot.dirtyFrom == None && shot.textWidth == TextWidth(width)
  {
  }

  lemma SameTextTexts(a: seq<LogicalLine>, b: seq<LogicalLine>)
    requires SameText(a, b)
    ensures TextsOf(a) == TextsOf(b)
  {
  }

  lemma TextIsIndex(t: Transcript)
    ensures t.View() == Index(t.lines, t.rows, t.nextRow)
  {
  }

  lemma BlockIsPlaced(g: Segmenter, was: Shot, shot: Shot, width: nat, expanded: bool, row: nat)
    requires shot.post.id == was.post.id && shot.post.role == was.post.role && shot.post.title == was.post.title && shot.post.source == was.post.source
    requires shot.post.text.lines == was.post.text.lines && shot.post.text.expired == was.post.text.expired
    requires shot.entry.id == was.entry.id && shot.entry.start == Some(row)
    requires shot.dirtyFrom == None && shot.textWidth == TextWidth(width)
    requires var v := shot.entry.view;
             && LaidOut(g, v.ix, TextWidth(width)) && v.bodyRows == RowCount(v.ix)
             && v.height == 2 + if !expanded && !v.user && v.bodyRows > COLLAPSE_AFTER then PREVIEW_HEAD + PREVIEW_TAIL + 1 else v.bodyRows
    requires Survives(was.entry.view.ix.lines, shot.entry.view.ix.lines)
    ensures Placed(g, was, shot, width, expanded, row)
  {
    hide LaidOut, RowCount, Survives;
  }

  lemma StartsGone(g: Segmenter, was: seq<Block>, blocks: seq<Block>)
    requires Sound(g, was) && |blocks| == |was|
    requires forall j :: 0 <= j < |blocks| ==> blocks[j] == was[j].(start := None)
    ensures Sound(g, blocks) && ShotsOf(blocks) == Unplaced(ShotsOf(was), 0) && TextsIn(blocks) == TextsIn(was)
  {
    forall b | b in blocks ensures b.text.Valid() && b.text.g == g && b.text.source == b.source && b.text in TextsIn(was) {
      var j :| 0 <= j < |blocks| && blocks[j] == b;
      assert was[j] in was;
    }
    forall b | b in was ensures b.text in TextsIn(blocks) {
      var j :| 0 <= j < |was| && was[j] == b;
      assert blocks[j] in blocks;
    }
  }

  predicate EveryCached(shots: seq<Shot>, width: nat) {
    AllCached(shots, |shots|, width)
  }

  lemma CachedEach(shots: seq<Shot>, i: nat, width: nat)
    requires i < |shots|
    ensures EveryCached(shots, width) ==> Cached(shots[i], width)
    ensures EveryCached(shots, width) ==> forall shot: Shot :: Cached(shot, width) ==> EveryCached(shots[i := shot], width)
  {
  }

  lemma FirstToLay(g: Segmenter, blocks: seq<Block>, b: Book)
    requires Balanced(g, ShotsOf(blocks), b) && b.dirty.Some?
    ensures CleanBlocks(ShotsOf(blocks), b.dirty) == PlaceOf(blocks, b.dirty.value)
  {
    IdsAre(blocks);
    hide Balanced, ShotsOf;
    SameIdsSamePlace(EntriesOf(ShotsOf(blocks)), blocks, b.dirty.value);
  }

  lemma {:induction false} SameIdsSamePlace(entries: seq<Entry>, blocks: seq<Block>, id: nat)
    requires |entries| == |blocks| && forall i :: 0 <= i < |blocks| ==> entries[i].id == blocks[i].id
    ensures BlockFrom(entries, id) == PlaceOf(blocks, id)
  {
    if blocks != [] {
      SameIdsSamePlace(entries[1..], blocks[1..], id);
    }
  }

  lemma LayingCached(g: Segmenter, was: seq<Shot>, shots: seq<Shot>, rows: seq<RowStart>, row: nat, width: nat, expanded: bool)
    requires Laying(g, was, shots, rows, row, width, expanded, |shots|)
    ensures EveryCached(shots, width)
  {
  }

  lemma AtLeastOne(width: nat)
    ensures Max(width, 1) >= 1
  {
  }

  lemma UnplacedSurvives(shots: seq<Shot>)
    ensures BlocksSurvive(shots, Unplaced(shots, 0)) && PostsOf(Unplaced(shots, 0)) == PostsOf(shots)
  {
    UnplacedPosts(shots);
    hide Survives, Unplaced, PostsOf;
    var next := Unplaced(shots, 0);
    forall i | 0 <= i < |shots| ensures Survives(shots[i].entry.view.ix.lines, next[i].entry.view.ix.lines) {
      SurvivesRefl(shots[i].entry.view.ix.lines);
    }
  }

  lemma UnplacedPosts(shots: seq<Shot>)
    ensures PostsOf(Unplaced(shots, 0)) == PostsOf(shots)
  {
    hide Unplaced, PostsOf;
    assert PostsOf(Unplaced(shots, 0)) == PostsOf(shots);
  }

  lemma BalancedIsLaidOut(g: Segmenter, shots: seq<Shot>, b: Book)
    requires Balanced(g, shots, b) && b.dirty.None?
    ensures ChatLaidOut(g, ChatIndex(EntriesOf(shots), b.rows, b.nextRow), TextWidth(b.width), b.expanded)
    ensures EveryCached(shots, b.width)
  {
    hide Current, Cached;
  }

  lemma PlacedParts(g: Segmenter, was: Shot, shot: Shot, width: nat, expanded: bool, row: nat)
    requires Placed(g, was, shot, width, expanded, row)
    ensures shot.post == was.post && shot.entry.id == was.entry.id && shot.entry.start == Some(row)
    ensures Cached(shot, width) && BlockLaidOut(g, shot.entry.view, TextWidth(width), expanded)
    ensures Survives(was.entry.view.ix.lines, shot.entry.view.ix.lines)
  {
  }

  /** As `BlocksSurvive`, but nothing is said of the block `id`. */
  ghost predicate OthersSurvive(a: seq<Shot>, id: nat, b: seq<Shot>) {
    exists changed: seq<Shot> :: SameBut(a, id, changed) && BlocksSurvive(changed, b)
  }

  predicate SameBut(a: seq<Shot>, id: nat, b: seq<Shot>) {
    |a| == |b| && forall j :: 0 <= j < |a| ==> b[j].entry.id == a[j].entry.id && (a[j].entry.id != id ==> b[j] == a[j])
  }

  lemma OthersDo(a: seq<Shot>, id: nat, changed: seq<Shot>, b: seq<Shot>)
    requires |changed| == |a| && BlocksSurvive(changed, b)
    requires forall j :: 0 <= j < |a| ==> changed[j].entry.id == a[j].entry.id && (a[j].entry.id != id ==> changed[j] == a[j])
    ensures OthersSurvive(a, id, b)
  {
    hide BlocksSurvive;
    assert SameBut(a, id, changed);
  }

  lemma SamePlace(posts: seq<Post>, i: nat, post: Post)
    requires i < |posts| && post.id == posts[i].id && PostFrom(posts, posts[i].id) == i
    ensures PostFrom(posts[i := post], post.id) == i
  {
    var n := PostFrom(posts[i := post], post.id);
    assert posts[i := post][i].id == post.id;
  }

  lemma AllowanceFits(title: seq<Byte>)
    ensures MAX_TRANSCRIPT_LINES - 2 >= 0 && Max(Allowance(title), 1) <= MAX_TRANSCRIPT_BYTES
  {
  }

  lemma OneSurvives(shots: seq<Shot>, i: nat, shot: Shot)
    requires i < |shots| && shot.entry.id == shots[i].entry.id
    requires Survives(shots[i].entry.view.ix.lines, shot.entry.view.ix.lines)
    ensures BlocksSurvive(shots, shots[i := shot])
  {
    hide Survives;
    forall j | 0 <= j < |shots| && j != i ensures Survives(shots[j].entry.view.ix.lines, shots[j].entry.view.ix.lines) {
      SurvivesRefl(shots[j].entry.view.ix.lines);
    }
  }

  lemma TextIsConsistent(t: Transcript)
    requires t.Valid()
    ensures t.Consistent()
  {
  }

  lemma TextIsValid(t: Transcript, allowance: nat)
    requires t.Consistent() && t.bytes <= Max(allowance, 1) <= MAX_TRANSCRIPT_BYTES && |t.lines| <= Max(MAX_TRANSCRIPT_LINES - 2, 1)
    ensures t.Valid()
  {
  }

  lemma SoundOnly(g: Segmenter, block: Block)
    requires Lawful(g) && block.text.Valid() && block.text.g == g && block.text.source == block.source
    ensures Sound(g, [block])
  {
  }

  lemma SoundTail(g: Segmenter, blocks: seq<Block>)
    requires Sound(g, blocks) && blocks != []
    ensures Sound(g, blocks[1..]) && ShotsOf(blocks[1..]) == ShotsOf(blocks)[1..]
    ensures TextsIn(blocks[1..]) <= TextsIn(blocks)
  {
  }

  lemma PopSurvives(g: Segmenter, shots: seq<Shot>, b: Book)
    requires Balanced(g, shots, b) && |shots| > 1
    ensures BlocksSurvive(shots, shots[1..])
  {
    assert EntriesOf(shots)[1].id == EntriesOf(shots)[0].id + (1 - 0);
    hide Survives;
    BlocksSurviveRefl(shots);
    forall i | 0 <= i < |shots| ensures Survives(shots[i].entry.view.ix.lines, shots[i].entry.view.ix.lines) {
      assert shots[i + (shots[0].entry.id - shots[0].entry.id)] == shots[i];
    }
  }
}
