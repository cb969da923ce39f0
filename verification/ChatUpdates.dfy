/** What the operations of the chat do to its counters and to its index of visual rows. */
module ChatUpdates {
  import opened Utf8
  import opened Wrapping
  import opened Retention
  import opened RowIndex
  import opened Folding
  import opened ChatRows
  import opened ChatRetention
  import opened Transcripts

  /** One block at one moment: what it keeps, how the index sees it, what its text has cached. */
  datatype Shot = Shot(post: Post, entry: Entry, dirtyFrom: Option<nat>, textWidth: nat)

  /** The fields of the chat beside its blocks. */
  datatype Book = Book(rows: seq<RowStart>, nextRow: nat, nextId: nat, dirty: Option<nat>, bytes: nat, lines: nat, width: nat, expanded: bool)

  function PostsOf(shots: seq<Shot>): (posts: seq<Post>)
    ensures |posts| == |shots| && forall i :: 0 <= i < |shots| ==> posts[i] == shots[i].post
  {
    seq(|shots|, i requires 0 <= i < |shots| => shots[i].post)
  }

  function EntriesOf(shots: seq<Shot>): (entries: seq<Entry>)
    ensures |entries| == |shots| && forall i :: 0 <= i < |shots| ==> entries[i] == shots[i].entry
  {
    seq(|shots|, i requires 0 <= i < |shots| => shots[i].entry)
  }

  /** The columns a text has beside its margin. */
  function TextWidth(width: nat): nat {
    Max(Minus(width, 2), 1)
  }

  function CleanBlocks(shots: seq<Shot>, dirty: Option<nat>): (n: nat)
    ensures n <= |shots|
  {
    if dirty.None? then |shots| else BlockFrom(EntriesOf(shots), dirty.value)
  }

  function Earliest(dirty: Option<nat>, id: nat): Option<nat> {
    Some(if dirty.Some? then Min(dirty.value, id) else id)
  }

  function IndexOf(shots: seq<Shot>, b: Book): ChatIndex {
    ChatIndex(EntriesOf(shots), b.rows, b.nextRow)
  }

  predicate Counted(shots: seq<Shot>, b: Book) {
    && b.bytes == TotalBytes(PostsOf(shots)) && b.lines == TotalLines(PostsOf(shots))
    && TitlesFit(PostsOf(shots))
  }

  predicate Keyed(shots: seq<Shot>, b: Book) {
    && (forall i :: 0 <= i < |shots| ==> shots[i].post.id == shots[i].entry.id)
    && (shots == [] ==> b.nextId == 0 && b.rows == [] && b.dirty == None)
    && (shots != [] ==> b.nextId == shots[0].entry.id + |shots|)
    && (b.dirty.Some? ==> b.dirty.value < b.nextId)
    && (b.dirty.None? ==> |b.rows| == |shots|)
  }

  /** The text of a block is laid out and nothing has changed in it since. */
  predicate Cached(shot: Shot, width: nat) {
    shot.dirtyFrom == None && shot.textWidth == TextWidth(width)
  }

  predicate AllCached(shots: seq<Shot>, clean: nat, width: nat)
    requires clean <= |shots|
  {
    forall i :: 0 <= i < clean ==> Cached(shots[i], width)
  }

  ghost predicate Balanced(g: Segmenter, shots: seq<Shot>, b: Book) {
    && Counted(shots, b)
    && Keyed(shots, b)
    && ChatWrapped(g, IndexOf(shots, b), TextWidth(b.width), b.expanded, CleanBlocks(shots, b.dirty))
    && AllCached(shots, CleanBlocks(shots, b.dirty), b.width)
  }

  /** Blocks go at the front and come at the end; those that stay keep their bytes in place. */
  ghost predicate BlocksSurvive(a: seq<Shot>, b: seq<Shot>) {
    a == [] ||
    (&& b != [] && a[0].entry.id <= b[0].entry.id && |a| <= |b| + (b[0].entry.id - a[0].entry.id)
     && forall i :: 0 <= i < |b| && i + (b[0].entry.id - a[0].entry.id) < |a| ==>
          Survives(a[i + (b[0].entry.id - a[0].entry.id)].entry.view.ix.lines, b[i].entry.view.ix.lines))
  }

  lemma BlocksSurviveTransitive(a: seq<Shot>, b: seq<Shot>, c: seq<Shot>)
    requires BlocksSurvive(a, b) && BlocksSurvive(b, c)
    ensures BlocksSurvive(a, c)
  {
    hide Survives;
    if a != [] {
      var d := b[0].entry.id - a[0].entry.id;
      var e := c[0].entry.id - b[0].entry.id;
      forall i | 0 <= i < |c| && i + e + d < |a|
        ensures Survives(a[i + e + d].entry.view.ix.lines, c[i].entry.view.ix.lines)
      {
        assert Survives(a[(i + e) + d].entry.view.ix.lines, b[i + e].entry.view.ix.lines);
        assert Survives(b[i + e].entry.view.ix.lines, c[i].entry.view.ix.lines);
        SurvivesTransitive(a[i + e + d].entry.view.ix.lines, b[i + e].entry.view.ix.lines, c[i].entry.view.ix.lines);
      }
    }
  }

  lemma BlocksSurviveRefl(a: seq<Shot>)
    ensures BlocksSurvive(a, a)
  {
    forall i | 0 <= i < |a| ensures Survives(a[i].entry.view.ix.lines, a[i].entry.view.ix.lines) {
      SurvivesRefl(a[i].entry.view.ix.lines);
    }
  }

  // ---- Sums ----

  lemma {:induction false} SumsChange(posts: seq<Post>, i: nat, p: Post)
    requires i < |posts|
    ensures Charge(posts[i]) <= TotalBytes(posts) && LineCharge(posts[i]) <= TotalLines(posts)
    ensures TotalBytes(posts[i := p]) == TotalBytes(posts) - Charge(posts[i]) + Charge(p)
    ensures TotalLines(posts[i := p]) == TotalLines(posts) - LineCharge(posts[i]) + LineCharge(p)
  {
    hide Charge, LineCharge;
    if i == 0 {
      assert posts[i := p][1..] == posts[1..];
    } else {
      SumsChange(posts[1..], i - 1, p);
      assert posts[i := p][1..] == posts[1..][i - 1 := p];
    }
  }

  lemma {:induction false} SumsMore(posts: seq<Post>, p: Post)
    ensures TotalBytes(posts + [p]) == TotalBytes(posts) + Charge(p)
    ensures TotalLines(posts + [p]) == TotalLines(posts) + LineCharge(p)
  {
    hide Charge, LineCharge;
    if posts != [] {
      SumsMore(posts[1..], p);
      assert (posts + [p])[1..] == posts[1..] + [p];
    }
  }

  lemma SumsLess(posts: seq<Post>)
    requires posts != []
    ensures TotalBytes(posts) == Charge(posts[0]) + TotalBytes(posts[1..])
    ensures TotalLines(posts) == LineCharge(posts[0]) + TotalLines(posts[1..])
  {
  }

  // ---- Keys ----

  lemma BlockFromId(blocks: seq<Entry>, id: nat)
    requires InOrder(blocks) && blocks != []
    ensures BlockFrom(blocks, id) == if id <= blocks[0].id then 0 else Min(id - blocks[0].id, |blocks|)
  {
    var n := BlockFrom(blocks, id);
    assert n < |blocks| ==> n == 0 || blocks[n].id == blocks[0].id + n;
    assert n > 0 ==> n == 1 || blocks[n - 1].id == blocks[0].id + (n - 1);
  }

  lemma PostIsBlock(g: Segmenter, shots: seq<Shot>, b: Book, id: nat, i: nat)
    requires Balanced(g, shots, b) && i <= |shots|
    requires forall j :: 0 <= j < i ==> shots[j].post.id < id
    requires i < |shots| ==> id <= shots[i].post.id
    ensures PostFrom(PostsOf(shots), id) == if i < |shots| && shots[i].post.id == id then i else |shots|
  {
    var posts := PostsOf(shots);
    var n := PostFrom(posts, id);
    assert InOrder(EntriesOf(shots));
    forall j | i < j < |shots| ensures shots[j].post.id > id {
      assert EntriesOf(shots)[j].id == EntriesOf(shots)[i].id + (j - i);
    }
  }

  // ---- The invariant, operation by operation ----

  /** One block changes in place. */
  lemma Change(g: Segmenter, shots: seq<Shot>, b: Book, i: nat, shot: Shot)
    requires Balanced(g, shots, b) && i < |shots| && TitleFits(shot.post.title)
    requires shot.post.id == shots[i].post.id && shot.entry.id == shots[i].entry.id && shot.entry.start == shots[i].entry.start
    ensures b.bytes >= Charge(shots[i].post) && b.lines >= LineCharge(shots[i].post)
    ensures Balanced(g, shots[i := shot], b.(dirty := Earliest(b.dirty, shot.entry.id),
                                             bytes := b.bytes - Charge(shots[i].post) + Charge(shot.post),
                                             lines := b.lines - LineCharge(shots[i].post) + LineCharge(shot.post)))
    ensures PostsOf(shots[i := shot]) == PostsOf(shots)[i := shot.post]
  {
    ChangeCounted(shots, b, i, shot);
    ChangeKeyed(shots, b, i, shot);
    hide Counted, Keyed, CleanBlocks, Current, Charge, LineCharge, InOrder, Listed, RowsAscend;
    ChangeWrapped(g, IndexOf(shots, b), TextWidth(b.width), b.expanded, CleanBlocks(shots, b.dirty), EntriesOf(shots[i := shot]), i);
  }

  lemma ChangeCounted(shots: seq<Shot>, b: Book, i: nat, shot: Shot)
    requires Counted(shots, b) && i < |shots| && TitleFits(shot.post.title)
    ensures b.bytes >= Charge(shots[i].post) && b.lines >= LineCharge(shots[i].post)
    ensures Counted(shots[i := shot], b.(dirty := Earliest(b.dirty, shot.entry.id),
                                         bytes := b.bytes - Charge(shots[i].post) + Charge(shot.post),
                                         lines := b.lines - LineCharge(shots[i].post) + LineCharge(shot.post)))
    ensures PostsOf(shots[i := shot]) == PostsOf(shots)[i := shot.post]
  {
    assert PostsOf(shots[i := shot]) == PostsOf(shots)[i := shot.post];
    SumsChange(PostsOf(shots), i, shot.post);
    hide TotalBytes, TotalLines, Charge, LineCharge;
  }

  lemma ChangeKeyed(shots: seq<Shot>, b: Book, i: nat, shot: Shot)
    requires Keyed(shots, b) && InOrder(EntriesOf(shots)) && i < |shots|
    requires shot.post.id == shots[i].post.id && shot.entry.id == shots[i].entry.id
    ensures forall book: Book :: book.rows == b.rows && book.nextId == b.nextId && book.dirty == Earliest(b.dirty, shot.entry.id) ==>
              Keyed(shots[i := shot], book)
    ensures CleanBlocks(shots[i := shot], Earliest(b.dirty, shot.entry.id)) == Min(CleanBlocks(shots, b.dirty), i)
  {
    ChangeClean(shots, b.dirty, i, shot);
    assert i > 0 ==> EntriesOf(shots)[i].id == EntriesOf(shots)[0].id + (i - 0);
    hide InOrder, CleanBlocks;
  }

  lemma ChangeClean(shots: seq<Shot>, dirty: Option<nat>, i: nat, shot: Shot)
    requires InOrder(EntriesOf(shots)) && i < |shots| && shot.entry.id == shots[i].entry.id
    requires shots != [] ==> dirty.Some? ==> dirty.value < shots[0].entry.id + |shots|
    ensures CleanBlocks(shots[i := shot], Earliest(dirty, shot.entry.id)) == Min(CleanBlocks(shots, dirty), i)
  {
    var next := shots[i := shot];
    var entries := EntriesOf(shots);
    assert i > 0 ==> entries[i].id == entries[0].id + (i - 0);
    assert InOrder(EntriesOf(next));
    BlockFromId(EntriesOf(next), Earliest(dirty, shot.entry.id).value);
    if dirty.Some? {
      BlockFromId(entries, dirty.value);
    }
  }

  lemma ChangeWrapped(g: Segmenter, cx: ChatIndex, width: nat, expanded: bool, clean: nat, blocks: seq<Entry>, i: nat)
    requires ChatWrapped(g, cx, width, expanded, clean) && i < |cx.blocks| == |blocks|
    requires forall j :: 0 <= j < |blocks| && j != i ==> blocks[j] == cx.blocks[j]
    requires blocks[i].id == cx.blocks[i].id && blocks[i].start == cx.blocks[i].start
    ensures ChatWrapped(g, cx.(blocks := blocks), width, expanded, Min(clean, i))
  {
    hide BlockLaidOut;
    forall j | 0 <= j < Min(clean, i) ensures Current(g, cx.(blocks := blocks), width, expanded, j) {
      assert Current(g, cx, width, expanded, j);
    }
  }

  /** A block comes at the end. */
  lemma Add(g: Segmenter, shots: seq<Shot>, b: Book, shot: Shot)
    requires Balanced(g, shots, b) && TitleFits(shot.post.title)
    requires shot.post.id == shot.entry.id == b.nextId && shot.entry.start == None
    ensures Balanced(g, shots + [shot], b.(nextId := b.nextId + 1, dirty := Earliest(b.dirty, b.nextId),
                                           bytes := b.bytes + Charge(shot.post), lines := b.lines + LineCharge(shot.post)))
    ensures PostsOf(shots + [shot]) == PostsOf(shots) + [shot.post]
  {
    var book := b.(nextId := b.nextId + 1, dirty := Earliest(b.dirty, b.nextId),
                   bytes := b.bytes + Charge(shot.post), lines := b.lines + LineCharge(shot.post));
    AddCounted(shots, b, book, shot);
    AddKeyed(g, shots, b, book, shot);
    hide Counted, Keyed, CleanBlocks, Current, Charge, LineCharge, InOrder, Listed, RowsAscend;
    AddWrapped(g, IndexOf(shots, b), TextWidth(b.width), b.expanded, CleanBlocks(shots, b.dirty), shot.entry);
  }

  lemma AddCounted(shots: seq<Shot>, b: Book, book: Book, shot: Shot)
    requires Counted(shots, b) && TitleFits(shot.post.title)
    requires book.bytes == b.bytes + Charge(shot.post) && book.lines == b.lines + LineCharge(shot.post)
    ensures Counted(shots + [shot], book) && PostsOf(shots + [shot]) == PostsOf(shots) + [shot.post]
  {
    assert PostsOf(shots + [shot]) == PostsOf(shots) + [shot.post];
    SumsMore(PostsOf(shots), shot.post);
    hide TotalBytes, TotalLines, Charge, LineCharge;
  }

  lemma AddKeyed(g: Segmenter, shots: seq<Shot>, b: Book, book: Book, shot: Shot)
    requires Keyed(shots, b) && InOrder(EntriesOf(shots))
    requires shot.post.id == shot.entry.id == b.nextId && book.nextId == b.nextId + 1
    requires book.dirty == Earliest(b.dirty, b.nextId) && book.rows == b.rows
    ensures Keyed(shots + [shot], book) && EntriesOf(shots + [shot]) == EntriesOf(shots) + [shot.entry]
    ensures InOrder(EntriesOf(shots) + [shot.entry])
    ensures CleanBlocks(shots + [shot], book.dirty) == CleanBlocks(shots, b.dirty)
    ensures EntriesOf(shots) == [] ==> b.rows == []
  {
    assert EntriesOf(shots + [shot]) == EntriesOf(shots) + [shot.entry];
    AddInOrder(EntriesOf(shots), shot.entry);
    AddClean(shots, b.dirty, shot);
    hide InOrder, CleanBlocks;
  }

  lemma AddInOrder(blocks: seq<Entry>, block: Entry)
    requires InOrder(blocks) && (blocks == [] || block.id == blocks[0].id + |blocks|)
    ensures InOrder(blocks + [block])
  {
    var longer := blocks + [block];
    forall i, j | 0 <= i < j < |longer| ensures longer[j].id == longer[i].id + (j - i) {
      assert i == 0 || blocks[i].id == blocks[0].id + (i - 0);
    }
  }

  lemma AddClean(shots: seq<Shot>, dirty: Option<nat>, shot: Shot)
    requires InOrder(EntriesOf(shots)) && InOrder(EntriesOf(shots + [shot]))
    requires shots != [] ==> shot.entry.id == shots[0].entry.id + |shots|
    requires dirty.Some? ==> shots != [] && dirty.value < shot.entry.id
    ensures CleanBlocks(shots + [shot], Earliest(dirty, shot.entry.id)) == CleanBlocks(shots, dirty)
  {
    BlockFromId(EntriesOf(shots + [shot]), Earliest(dirty, shot.entry.id).value);
    if dirty.Some? {
      BlockFromId(EntriesOf(shots), dirty.value);
    }
  }

  lemma AddWrapped(g: Segmenter, cx: ChatIndex, width: nat, expanded: bool, clean: nat, block: Entry)
    requires ChatWrapped(g, cx, width, expanded, clean) && block.start == None && InOrder(cx.blocks + [block])
    requires cx.blocks == [] ==> cx.rows == []
    ensures ChatWrapped(g, cx.(blocks := cx.blocks + [block]), width, expanded, clean)
  {
    hide BlockLaidOut;
    var longer := cx.(blocks := cx.blocks + [block]);
    forall j | 0 <= j < clean ensures Current(g, longer, width, expanded, j) {
      assert Current(g, cx, width, expanded, j);
    }
  }

  /** The oldest block goes, with its row entry if it has one. */
  lemma Pop(g: Segmenter, shots: seq<Shot>, b: Book)
    requires Balanced(g, shots, b) && |shots| > 1
    ensures shots[0].entry.start.Some? <==> b.rows != []
    ensures b.bytes >= Charge(shots[0].post) && b.lines >= LineCharge(shots[0].post)
    ensures Balanced(g, shots[1..], b.(rows := if b.rows == [] then [] else b.rows[1..],
                                       bytes := b.bytes - Charge(shots[0].post), lines := b.lines - LineCharge(shots[0].post)))
    ensures PostsOf(shots[1..]) == PostsOf(shots)[1..]
  {
    var book := b.(rows := if b.rows == [] then [] else b.rows[1..],
                   bytes := b.bytes - Charge(shots[0].post), lines := b.lines - LineCharge(shots[0].post));
    PopCounted(shots, b, book);
    PopKeyed(shots, b, book);
    hide Counted, Keyed, CleanBlocks, Current, Charge, LineCharge, InOrder, Listed, RowsAscend;
    PopWrapped(g, IndexOf(shots, b), TextWidth(b.width), b.expanded, CleanBlocks(shots, b.dirty));
  }

  lemma PopCounted(shots: seq<Shot>, b: Book, book: Book)
    requires Counted(shots, b) && shots != []
    requires book.bytes == b.bytes - Charge(shots[0].post) && book.lines == b.lines - LineCharge(shots[0].post)
    ensures Counted(shots[1..], book) && PostsOf(shots[1..]) == PostsOf(shots)[1..]
  {
    assert PostsOf(shots[1..]) == PostsOf(shots)[1..];
    SumsLess(PostsOf(shots));
    hide TotalBytes, TotalLines, Charge, LineCharge;
  }

  lemma PopKeyed(shots: seq<Shot>, b: Book, book: Book)
    requires Keyed(shots, b) && InOrder(EntriesOf(shots)) && |shots| > 1
    requires book.nextId == b.nextId && book.dirty == b.dirty
    requires Listed(EntriesOf(shots), b.rows) && book.rows == if b.rows == [] then [] else b.rows[1..]
    ensures shots[0].entry.start.Some? <==> b.rows != []
    ensures Keyed(shots[1..], book) && EntriesOf(shots[1..]) == EntriesOf(shots)[1..]
    ensures CleanBlocks(shots[1..], book.dirty) == Minus(CleanBlocks(shots, b.dirty), 1)
  {
    assert EntriesOf(shots[1..]) == EntriesOf(shots)[1..];
    assert EntriesOf(shots)[1].id == EntriesOf(shots)[0].id + (1 - 0);
    hide InOrder;
  }

  lemma PopWrapped(g: Segmenter, cx: ChatIndex, width: nat, expanded: bool, clean: nat)
    requires ChatWrapped(g, cx, width, expanded, clean) && |cx.blocks| > 1
    ensures ChatWrapped(g, cx.(blocks := cx.blocks[1..], rows := if cx.rows == [] then [] else cx.rows[1..]), width, expanded, Minus(clean, 1))
  {
    hide BlockLaidOut;
    var shorter := cx.(blocks := cx.blocks[1..], rows := if cx.rows == [] then [] else cx.rows[1..]);
    forall j | 0 <= j < Minus(clean, 1) ensures Current(g, shorter, width, expanded, j) {
      assert Current(g, cx, width, expanded, j + 1);
    }
  }

  function Unplaced(shots: seq<Shot>, from: nat): (r: seq<Shot>)
    ensures |r| == |shots| && forall i :: 0 <= i < |shots| ==> r[i] == if i < from then shots[i] else shots[i].(entry := shots[i].entry.(start := None))
  {
    seq(|shots|, i requires 0 <= i < |shots| => if i < from then shots[i] else shots[i].(entry := shots[i].entry.(start := None)))
  }

  /** Another width makes every start stale. */
  lemma Forget(g: Segmenter, shots: seq<Shot>, b: Book, width: nat)
    requires Balanced(g, shots, b)
    ensures var dirty := if shots == [] then None else Some(shots[0].entry.id);
            Balanced(g, Unplaced(shots, 0), b.(rows := [], nextRow := 0, dirty := dirty, width := width))
    ensures PostsOf(Unplaced(shots, 0)) == PostsOf(shots)
  {
    assert PostsOf(Unplaced(shots, 0)) == PostsOf(shots);
    hide TotalBytes, TotalLines, Current;
  }

  /** Folding or unfolding everything leaves what the texts have cached as it is. */
  lemma FoldAll(g: Segmenter, shots: seq<Shot>, b: Book)
    requires Balanced(g, shots, b)
    ensures Balanced(g, shots, b.(expanded := !b.expanded, dirty := if shots == [] then None else Some(shots[0].entry.id)))
  {
    hide TotalBytes, TotalLines, Current;
  }

  // ---- A layout ----

  /** A layout that has come to block `i`. */
  ghost predicate Laying(g: Segmenter, was: seq<Shot>, shots: seq<Shot>, rows: seq<RowStart>, row: nat, width: nat, expanded: bool, i: nat) {
    && i <= |shots| == |was| && |rows| == i
    && ChatWrapped(g, ChatIndex(EntriesOf(Unplaced(shots, i)), rows, row), TextWidth(width), expanded, i)
    && (i == 0 || row == rows[i - 1].row + shots[i - 1].entry.view.height)
    && AllCached(shots, i, width)
    && (forall j :: 0 <= j < |shots| ==> shots[j].post == was[j].post && shots[j].entry.id == was[j].entry.id)
  }

  lemma LayingStart(g: Segmenter, shots: seq<Shot>, b: Book)
    requires Balanced(g, shots, b) && b.dirty.Some?
    ensures var first := CleanBlocks(shots, b.dirty);
            && first < |shots|
            && var row := if shots[first].entry.start.Some? then shots[first].entry.start.value else b.nextRow;
               Laying(g, shots, shots, RowsBefore(b.rows, row), row, b.width, b.expanded, first)
  {
    hide *;
    DirtyBlock(g, shots, b);
    var first := CleanBlocks(shots, b.dirty);
    UnplacedInOrder(shots, first);
    UnplacedEntries(shots, first);
    RowStarts(g, IndexOf(shots, b), TextWidth(b.width), b.expanded, first, EntriesOf(Unplaced(shots, first)));
    var row := if shots[first].entry.start.Some? then shots[first].entry.start.value else b.nextRow;
    LayingIs(g, shots, RowsBefore(b.rows, row), row, b.width, b.expanded, first);
  }

  lemma DirtyBlock(g: Segmenter, shots: seq<Shot>, b: Book)
    requires Balanced(g, shots, b) && b.dirty.Some?
    ensures var first := CleanBlocks(shots, b.dirty);
            && first < |shots| && first <= |b.rows| && AllCached(shots, first, b.width) && InOrder(EntriesOf(shots))
            && ChatWrapped(g, IndexOf(shots, b), TextWidth(b.width), b.expanded, first)
            && IndexOf(shots, b) == ChatIndex(EntriesOf(shots), b.rows, b.nextRow)
  {
    hide Counted, Cached, Current;
    BlockFromId(EntriesOf(shots), b.dirty.value);
    hide InOrder;
  }

  lemma UnplacedEntries(shots: seq<Shot>, from: nat)
    ensures var entries := EntriesOf(Unplaced(shots, from));
            |entries| == |shots| && forall i :: 0 <= i < |shots| ==>
              entries[i] == if i < from then EntriesOf(shots)[i] else EntriesOf(shots)[i].(start := None)
  {
  }

  lemma LayingIs(g: Segmenter, shots: seq<Shot>, rows: seq<RowStart>, row: nat, width: nat, expanded: bool, i: nat)
    requires i <= |shots| && |rows| == i && AllCached(shots, i, width)
    requires ChatWrapped(g, ChatIndex(EntriesOf(Unplaced(shots, i)), rows, row), TextWidth(width), expanded, i)
    requires i == 0 || row == rows[i - 1].row + shots[i - 1].entry.view.height
    ensures Laying(g, shots, shots, rows, row, width, expanded, i)
  {
    hide ChatWrapped, AllCached, Unplaced;
  }

  lemma RowStarts(g: Segmenter, cx: ChatIndex, width: nat, expanded: bool, first: nat, blocks: seq<Entry>)
    requires ChatWrapped(g, cx, width, expanded, first) && first < |cx.blocks| == |blocks| && InOrder(blocks)
    requires forall i :: 0 <= i < |blocks| ==> blocks[i] == if i < first then cx.blocks[i] else cx.blocks[i].(start := None)
    ensures var row := if cx.blocks[first].start.Some? then cx.blocks[first].start.value else cx.nextRow;
            && RowsBefore(cx.rows, row) == cx.rows[..first]
            && ChatWrapped(g, ChatIndex(blocks, cx.rows[..first], row), width, expanded, first)
            && (first == 0 || row == cx.rows[first - 1].row + blocks[first - 1].view.height)
  {
    var row := if cx.blocks[first].start.Some? then cx.blocks[first].start.value else cx.nextRow;
    PlacedBefore(g, cx, width, expanded, first, row);
    var next := ChatIndex(blocks, cx.rows[..first], row);
    assert RowsAscend(cx.rows) && first <= |cx.rows|;
    RowsBeforeEntry(cx.rows, row, first);
    CutIsListed(cx, first, blocks);
    hide BlockLaidOut, InOrder, Listed, RowsAscend;
    forall j | 0 <= j < first ensures Current(g, next, width, expanded, j) {
      assert Current(g, cx, width, expanded, j);
    }
  }

  lemma CutIsListed(cx: ChatIndex, first: nat, blocks: seq<Entry>)
    requires Listed(cx.blocks, cx.rows) && RowsAscend(cx.rows) && first <= |cx.rows| && |blocks| == |cx.blocks|
    requires forall i :: 0 <= i < |blocks| ==> blocks[i] == if i < first then cx.blocks[i] else cx.blocks[i].(start := None)
    ensures Listed(blocks, cx.rows[..first]) && RowsAscend(cx.rows[..first])
  {
  }

  lemma PlacedBefore(g: Segmenter, cx: ChatIndex, width: nat, expanded: bool, first: nat, row: nat)
    requires ChatWrapped(g, cx, width, expanded, first) && first < |cx.blocks|
    requires row == if cx.blocks[first].start.Some? then cx.blocks[first].start.value else cx.nextRow
    ensures row == if first < |cx.rows| then cx.rows[first].row else cx.nextRow
    ensures first == 0 || row == cx.rows[first - 1].row + cx.blocks[first - 1].view.height
    ensures forall j :: 0 <= j < first ==> cx.rows[j].row < row
  {
    hide BlockLaidOut, InOrder;
    if first > 0 {
      assert Current(g, cx, width, expanded, first - 1);
      HeightIsPositive(g, cx.blocks[first - 1].view, width, expanded);
    }
  }

  lemma HeightIsPositive(g: Segmenter, v: BlockView, width: nat, expanded: bool)
    requires BlockLaidOut(g, v, width, expanded)
    ensures v.height >= 2
  {
  }

  lemma UnplacedInOrder(shots: seq<Shot>, i: nat)
    requires InOrder(EntriesOf(shots))
    ensures InOrder(EntriesOf(Unplaced(shots, i)))
  {
    forall a, b | 0 <= a < b < |shots| ensures shots[b].entry.id == shots[a].entry.id + (b - a) {
      assert EntriesOf(shots)[b].id == EntriesOf(shots)[a].id + (b - a);
    }
  }

  lemma LayingStep(g: Segmenter, was: seq<Shot>, shots: seq<Shot>, rows: seq<RowStart>, row: nat, width: nat, expanded: bool, i: nat, shot: Shot)
    requires Laying(g, was, shots, rows, row, width, expanded, i) && i < |shots|
    requires shot.post == shots[i].post && shot.entry.id == shots[i].entry.id && shot.entry.start == Some(row)
    requires Cached(shot, width) && BlockLaidOut(g, shot.entry.view, TextWidth(width), expanded)
    ensures Laying(g, was, shots[i := shot], rows + [RowStart(row, shot.entry.id)], row + shot.entry.view.height, width, expanded, i + 1)
  {
    hide BlockLaidOut, InOrder;
    var next := shots[i := shot];
    var more := rows + [RowStart(row, shot.entry.id)];
    var old_ := ChatIndex(EntriesOf(Unplaced(shots, i)), rows, row);
    var new_ := ChatIndex(EntriesOf(Unplaced(next, i + 1)), more, row + shot.entry.view.height);
    assert InOrder(new_.blocks) by {
      SameIdsInOrder(old_.blocks, new_.blocks);
    }
    assert i > 0 ==> Current(g, old_, TextWidth(width), expanded, i - 1);
    assert RowsAscend(more) by {
      forall j | 0 <= j < i ensures rows[j].row < row {
        HeightIsPositive(g, shots[i - 1].entry.view, TextWidth(width), expanded);
        assert j < i - 1 ==> rows[j].row < rows[i - 1].row;
      }
    }
    forall j | 0 <= j < i + 1 ensures Current(g, new_, TextWidth(width), expanded, j) {
      assert j < i ==> Current(g, old_, TextWidth(width), expanded, j);
    }
  }

  lemma SameIdsInOrder(a: seq<Entry>, b: seq<Entry>)
    requires InOrder(a) && |a| == |b| && forall i :: 0 <= i < |a| ==> a[i].id == b[i].id
    ensures InOrder(b)
  {
  }

  lemma LayingDone(g: Segmenter, was: seq<Shot>, book: Book, shots: seq<Shot>, rows: seq<RowStart>, row: nat)
    requires Balanced(g, was, book) && Laying(g, was, shots, rows, row, book.width, book.expanded, |shots|) && was != []
    ensures Balanced(g, shots, book.(rows := rows, nextRow := row, dirty := None))
    ensures PostsOf(shots) == PostsOf(was)
    ensures ChatLaidOut(g, ChatIndex(EntriesOf(shots), rows, row), TextWidth(book.width), book.expanded)
  {
    assert PostsOf(shots) == PostsOf(was);
    assert Unplaced(shots, |shots|) == shots;
    hide TotalBytes, TotalLines, Current;
  }
}
