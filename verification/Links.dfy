/** Hard links in a workspace: which names of a file have been seen, and which stay writable. */
module HardLinks {
  import opened Utf8

  type Name = nat
  type Path = seq<Name>

  /** The name of a directory with settings, which is never entered. */
  const PRIVATE: Name := 0

  type Inode = nat

  /** A file tree that does not change. `links` is the link count the system reports. */
  datatype Node = Directory(entries: seq<Entry>) | File(inode: Inode, links: nat) | Other

  datatype Entry = Entry(name: Name, node: Node)

  predicate Sane(node: Node) {
    node.Directory? ==> SaneFrom(node.entries)
  }

  predicate SaneFrom(entries: seq<Entry>) {
    entries != [] ==>
      && (forall i :: 1 <= i < |entries| ==> entries[i].name != entries[0].name)
      && SaneEntry(entries[0]) && SaneFrom(entries[1..])
  }

  predicate SaneEntry(entry: Entry) {
    Sane(entry.node)
  }

  function Find(entries: seq<Entry>, name: Name): Option<Node> {
    if entries == [] then None
    else if entries[0].name == name then Some(entries[0].node)
    else Find(entries[1..], name)
  }

  function Look(node: Node, path: Path): Option<Node>
    decreases |path|
  {
    if path == [] then Some(node)
    else if !node.Directory? || Find(node.entries, path[0]).None? then None
    else Look(Find(node.entries, path[0]).value, path[1..])
  }

  function Size(node: Node): nat {
    1 + if node.Directory? then SizeFrom(node.entries) else 0
  }

  function SizeFrom(entries: seq<Entry>): nat {
    if entries == [] then 0 else SizeOf(entries[0]) + SizeFrom(entries[1..])
  }

  function SizeOf(entry: Entry): nat {
    Size(entry.node)
  }

  /** A name of a file that has several. */
  datatype Found = Found(path: Path, inode: Inode, links: nat)

  /** The names under a directory, without those in private directories. */
  function Names(node: Node, path: Path): multiset<Found> {
    if node.Directory? then NamesFrom(node.entries, path) else multiset{}
  }

  function NamesFrom(entries: seq<Entry>, path: Path): multiset<Found> {
    if entries == [] then multiset{}
    else NamesOf(entries[0], path) + NamesFrom(entries[1..], path)
  }

  function NamesOf(entry: Entry, path: Path): multiset<Found> {
    match entry.node
    case Directory(_) => if entry.name == PRIVATE then multiset{} else Names(entry.node, path + [entry.name])
    case File(inode, links) => if links > 1 then multiset{Found(path + [entry.name], inode, links)} else multiset{}
    case Other => multiset{}
  }

  /** The private directories under a directory. */
  function Privates(node: Node, path: Path): multiset<Path> {
    if node.Directory? then PrivatesFrom(node.entries, path) else multiset{}
  }

  function PrivatesFrom(entries: seq<Entry>, path: Path): multiset<Path> {
    if entries == [] then multiset{} else PrivatesOf(entries[0], path) + PrivatesFrom(entries[1..], path)
  }

  function PrivatesOf(entry: Entry, path: Path): multiset<Path> {
    if !entry.node.Directory? then multiset{}
    else if entry.name == PRIVATE then multiset{path + [entry.name]}
    else Privates(entry.node, path + [entry.name])
  }

  // ---- What the names mean ----

  /** A path that leads through no private directory. */
  predicate Open(path: Path) {
    forall i :: 0 <= i < |path| - 1 ==> path[i] != PRIVATE
  }

  predicate Below(path: Path, directory: Path) {
    directory < path
  }

  /** Exactly the multiply linked files that can be reached without entering a private
      directory are found, each under its own name and once. */
  lemma {:induction false} NamesAreReachable(node: Node, at: Path, path: Path, inode: Inode, links: nat)
    requires Sane(node)
    ensures Names(node, at)[Found(path, inode, links)] ==
            if at < path && Open(path[|at|..]) && links > 1 && Look(node, path[|at|..]) == Some(File(inode, links)) then 1 else 0
    decreases node, 1
  {
    if node.Directory? {
      NamesFromAreReachable(node.entries, at, path, inode, links);
      if at < path {
        assert path[|at|..][1..] == path[|at| + 1..];
      }
    } else if at < path {
      assert path[|at|..] != [];
    }
  }

  lemma {:induction false} NamesFromAreReachable(entries: seq<Entry>, at: Path, path: Path, inode: Inode, links: nat)
    requires SaneFrom(entries)
    ensures NamesFrom(entries, at)[Found(path, inode, links)] ==
            if at < path && Open(path[|at|..]) && links > 1 && Find(entries, path[|at|]).Some?
               && Look(Find(entries, path[|at|]).value, path[|at| + 1..]) == Some(File(inode, links)) then 1 else 0
    decreases entries, 0
  {
    if entries != [] {
      NamesFromAreReachable(entries[1..], at, path, inode, links);
      NamesOfAreReachable(entries[0], at, path, inode, links);
      if at < path && path[|at|] == entries[0].name {
        FindNothing(entries[1..], path[|at|]);
      }
    }
  }

  lemma {:induction false} FindNothing(entries: seq<Entry>, name: Name)
    requires forall i :: 0 <= i < |entries| ==> entries[i].name != name
    ensures Find(entries, name).None?
  {
    if entries != [] {
      FindNothing(entries[1..], name);
    }
  }

  lemma {:induction false} NamesOfAreReachable(entry: Entry, at: Path, path: Path, inode: Inode, links: nat)
    requires Sane(entry.node)
    ensures NamesOf(entry, at)[Found(path, inode, links)] ==
            if at < path && Open(path[|at|..]) && links > 1 && path[|at|] == entry.name
               && Look(entry.node, path[|at| + 1..]) == Some(File(inode, links)) then 1 else 0
    decreases entry, 2
  {
    var here := at + [entry.name];
    if at < path && path[|at|] == entry.name {
      assert path[..|at|] == at && path == at + path[|at|..];
      assert here <= path;
      assert Open(path[|at|..]) <==> (|path| == |at| + 1 || entry.name != PRIVATE) && Open(path[|at| + 1..]) by {
        OpenStep(path[|at|..]);
        assert path[|at|..][1..] == path[|at| + 1..];
      }
    } else {
      LongerPrefix(at, entry.name, path);
    }
    match entry.node {
      case Directory(_) =>
        if entry.name != PRIVATE {
          NamesAreReachable(entry.node, here, path, inode, links);
        }
        if here == path {
          assert path[|at| + 1..] == [];
        }
      case File(_, _) =>
        assert here <= path ==> (path[|at| + 1..] == [] <==> here == path);
      case Other =>
    }
  }

  lemma LongerPrefix(at: Path, name: Name, path: Path)
    ensures at + [name] <= path <==> at < path && path[|at|] == name
  {
    if at < path && path[|at|] == name {
      assert path[..|at|] == at;
    }
  }

  lemma OpenStep(path: Path)
    requires path != []
    ensures Open(path) <==> (|path| == 1 || path[0] != PRIVATE) && Open(path[1..])
  {
    if (|path| == 1 || path[0] != PRIVATE) && Open(path[1..]) {
      forall i | 0 <= i < |path| - 1 ensures path[i] != PRIVATE {
        assert i > 0 ==> path[1..][i - 1] == path[i];
      }
    }
    if Open(path) {
      forall i | 0 <= i < |path| - 2 ensures path[1..][i] != PRIVATE {
        assert path[1..][i] == path[i + 1];
      }
    }
  }

  // ---- Looking at the tree by path ----

  lemma {:induction false} LookMore(node: Node, path: Path, name: Name)
    ensures Look(node, path + [name]) ==
            if Look(node, path).Some? && Look(node, path).value.Directory? then Find(Look(node, path).value.entries, name) else None
    decreases |path|
  {
    if path == [] {
      assert [name][1..] == [];
    } else {
      assert (path + [name])[1..] == path[1..] + [name];
      if node.Directory? && Find(node.entries, path[0]).Some? {
        LookMore(Find(node.entries, path[0]).value, path[1..], name);
      }
    }
  }

  lemma {:induction false} FindSane(entries: seq<Entry>, name: Name)
    requires SaneFrom(entries)
    ensures Find(entries, name).Some? ==> Sane(Find(entries, name).value)
  {
    if entries != [] {
      FindSane(entries[1..], name);
    }
  }

  lemma {:induction false} LookSane(node: Node, path: Path)
    requires Sane(node)
    ensures Look(node, path).Some? ==> Sane(Look(node, path).value)
    decreases |path|
  {
    if path != [] && node.Directory? && Find(node.entries, path[0]).Some? {
      FindSane(node.entries, path[0]);
      LookSane(Find(node.entries, path[0]).value, path[1..]);
    }
  }

  lemma {:induction false} FindEntry(entries: seq<Entry>, k: nat)
    requires SaneFrom(entries) && k < |entries|
    ensures Find(entries, entries[k].name) == Some(entries[k].node)
  {
    if k > 0 {
      FindEntry(entries[1..], k - 1);
    }
  }

  predicate IsDirectory(fs: Node, path: Path) {
    Look(fs, path).Some? && Look(fs, path).value.Directory?
  }

  /** The entries of a directory lead where the tree says. */
  lemma EntryIsThere(fs: Node, path: Path, k: nat)
    requires Sane(fs) && IsDirectory(fs, path) && k < |Look(fs, path).value.entries|
    ensures var entry := Look(fs, path).value.entries[k];
            Look(fs, path + [entry.name]) == Some(entry.node)
  {
    LookSane(fs, path);
    LookMore(fs, path, Look(fs, path).value.entries[k].name);
    FindEntry(Look(fs, path).value.entries, k);
  }

  // ---- Groups of names ----

  /** The names of one file, with the number of names it should have. */
  datatype Links = Links(count: nat, paths: seq<Path>)

  function Added(links: map<Inode, Links>, f: Found): map<Inode, Links> {
    if f.inode in links then links[f.inode := links[f.inode].(paths := links[f.inode].paths + [f.path])]
    else links[f.inode := Links(f.links, [f.path])]
  }

  function Group(log: seq<Found>): map<Inode, Links> {
    if log == [] then map[] else Added(Group(log[..|log| - 1]), log[|log| - 1])
  }

  function PathsOf(log: seq<Found>, inode: Inode): seq<Path> {
    if log == [] then []
    else PathsOf(log[..|log| - 1], inode) + if log[|log| - 1].inode == inode then [log[|log| - 1].path] else []
  }

  predicate Agree(found: multiset<Found>) {
    forall f, g :: f in found && g in found && f.inode == g.inode ==> f.links == g.links
  }

  /** A group holds the names of its inode that have been seen, in the order they were seen. */
  lemma {:induction false} GroupHolds(log: seq<Found>)
    ensures forall inode :: inode in Group(log) <==> exists i :: 0 <= i < |log| && log[i].inode == inode
    ensures forall inode :: inode in Group(log) ==> Group(log)[inode].paths == PathsOf(log, inode)
    ensures forall inode :: inode in Group(log) ==> exists i :: 0 <= i < |log| && log[i].inode == inode && log[i].links == Group(log)[inode].count
  {
    if log != [] {
      var n := |log| - 1;
      GroupHolds(log[..n]);
      forall inode ensures inode in Group(log) <==> exists i :: 0 <= i < |log| && log[i].inode == inode {
        if exists i :: 0 <= i < |log[..n]| && log[..n][i].inode == inode {
          var i :| 0 <= i < |log[..n]| && log[..n][i].inode == inode;
          assert log[i].inode == inode;
        }
        if exists i :: 0 <= i < |log| && log[i].inode == inode {
          var i :| 0 <= i < |log| && log[i].inode == inode;
          assert i < n ==> log[..n][i].inode == inode;
        }
      }
      forall inode | inode in Group(log)
        ensures exists i :: 0 <= i < |log| && log[i].inode == inode && log[i].links == Group(log)[inode].count
        ensures Group(log)[inode].paths == PathsOf(log, inode)
      {
        if inode in Group(log[..n]) {
          var i :| 0 <= i < |log[..n]| && log[..n][i].inode == inode && log[..n][i].links == Group(log[..n])[inode].count;
          assert log[i].inode == inode && log[i].links == Group(log)[inode].count;
        } else {
          assert log[n].inode == inode;
          NothingOf(log[..n], inode);
        }
      }
    }
  }

  lemma {:induction false} NothingOf(log: seq<Found>, inode: Inode)
    requires forall i :: 0 <= i < |log| ==> log[i].inode != inode
    ensures PathsOf(log, inode) == []
  {
    if log != [] {
      NothingOf(log[..|log| - 1], inode);
    }
  }

  // ---- The worklist ----

  function StackNames(fs: Node, stack: seq<Path>): multiset<Found> {
    if stack == [] then multiset{}
    else
      var top := stack[|stack| - 1];
      StackNames(fs, stack[..|stack| - 1]) + if IsDirectory(fs, top) then Names(Look(fs, top).value, top) else multiset{}
  }

  function StackPrivates(fs: Node, stack: seq<Path>): multiset<Path> {
    if stack == [] then multiset{}
    else
      var top := stack[|stack| - 1];
      StackPrivates(fs, stack[..|stack| - 1]) + if IsDirectory(fs, top) then Privates(Look(fs, top).value, top) else multiset{}
  }

  function StackSize(fs: Node, stack: seq<Path>): nat {
    if stack == [] then 0
    else
      var top := stack[|stack| - 1];
      StackSize(fs, stack[..|stack| - 1]) + if Look(fs, top).Some? then Size(Look(fs, top).value) else 1
  }

  predicate AllDirectories(fs: Node, stack: seq<Path>) {
    forall i :: 0 <= i < |stack| ==> IsDirectory(fs, stack[i])
  }

  lemma Pushed(fs: Node, stack: seq<Path>, path: Path)
    ensures StackNames(fs, stack + [path]) == StackNames(fs, stack) + if IsDirectory(fs, path) then Names(Look(fs, path).value, path) else multiset{}
    ensures StackPrivates(fs, stack + [path]) == StackPrivates(fs, stack) + if IsDirectory(fs, path) then Privates(Look(fs, path).value, path) else multiset{}
    ensures StackSize(fs, stack + [path]) == StackSize(fs, stack) + if Look(fs, path).Some? then Size(Look(fs, path).value) else 1
  {
    assert (stack + [path])[..|stack + [path]| - 1] == stack;
  }

  lemma GroupMore(log: seq<Found>, f: Found)
    ensures Group(log + [f]) == Added(Group(log), f)
  {
    assert (log + [f])[..|log + [f]| - 1] == log;
  }

  /** How far an inspection has come: what it has found, what it has set aside, what is left. */
  datatype Progress = Progress(stack: seq<Path>, private: seq<Path>, log: seq<Found>)

  ghost predicate Advances(fs: Node, before: Progress, after: Progress, entry: Entry, directory: Path) {
    && multiset(after.log) + StackNames(fs, after.stack) == multiset(before.log) + StackNames(fs, before.stack) + NamesOf(entry, directory)
    && multiset(after.private) + StackPrivates(fs, after.stack) ==
       multiset(before.private) + StackPrivates(fs, before.stack) + PrivatesOf(entry, directory)
    && StackSize(fs, after.stack) <= StackSize(fs, before.stack) + SizeOf(entry)
  }

  lemma DirectoryAdvances(fs: Node, p: Progress, entry: Entry, directory: Path)
    requires entry.node.Directory? && Look(fs, directory + [entry.name]) == Some(entry.node)
    ensures var path := directory + [entry.name];
            var after := if entry.name == PRIVATE then p.(private := p.private + [path]) else p.(stack := p.stack + [path]);
            Advances(fs, p, after, entry, directory)
  {
    Pushed(fs, p.stack, directory + [entry.name]);
    hide Look, Names, Privates, StackNames, StackPrivates, StackSize, Size;
  }

  lemma FileAdvances(fs: Node, p: Progress, entry: Entry, directory: Path)
    requires !entry.node.Directory?
    ensures var found := entry.node.File? && entry.node.links > 1;
            var f := if found then [Found(directory + [entry.name], entry.node.inode, entry.node.links)] else [];
            Advances(fs, p, p.(log := p.log + f), entry, directory)
  {
    hide Look, Names, Privates, StackNames, StackPrivates, StackSize;
  }

  /** One entry: a private directory is noted, another is entered later, a file with several
      names joins its group. Names of one file that report different counts end the inspection. */
  method InspectEntry(fs: Node, directory: Path, entry: Entry, stack: seq<Path>, private: seq<Path>, links: map<Inode, Links>, ghost log: seq<Found>)
    returns (ok: bool, stack': seq<Path>, private': seq<Path>, links': map<Inode, Links>, ghost log': seq<Found>)
    requires Look(fs, directory + [entry.name]) == Some(entry.node) && AllDirectories(fs, stack)
    requires links == Group(log)
    ensures ok ==> AllDirectories(fs, stack') && links' == Group(log')
                   && Advances(fs, Progress(stack, private, log), Progress(stack', private', log'), entry, directory)
    ensures ok ==> log' == log || (exists f :: log' == log + [f] && (f.inode in links ==> links[f.inode].count == f.links))
    ensures !ok ==> exists f :: f in NamesOf(entry, directory) && f.inode in links && links[f.inode].count != f.links
  {
    stack', private', links', log' := stack, private, links, log;
    var path := directory + [entry.name];
    ghost var p := Progress(stack, private, log);
    hide Look, Names, Group, Advances, AllDirectories;
    ok := true;
    match entry.node {
      case Directory(_) =>
        DirectoryAdvances(fs, p, entry, directory);
        if entry.name == PRIVATE {
          private' := private + [path];
        } else {
          PushedDirectory(fs, stack, path);
          stack' := stack + [path];
        }
      case File(inode, count) =>
        FileAdvances(fs, p, entry, directory);
        if count > 1 {
          var f := Found(path, inode, count);
          if inode in links && links[inode].count != count {
            assert f in NamesOf(entry, directory);
            return false, stack', private', links', log';
          }
          GroupMore(log, f);
          links', log' := Added(links, f), log + [f];
        } else {
          assert log + [] == log;
        }
      case Other =>
        FileAdvances(fs, p, entry, directory);
        assert log + [] == log;
    }
  }

  lemma PushedDirectory(fs: Node, stack: seq<Path>, path: Path)
    requires AllDirectories(fs, stack) && Look(fs, path).Some? && Look(fs, path).value.Directory?
    ensures AllDirectories(fs, stack + [path])
  {
  }

  /** Names of one file that agree so far still agree with one more. */
  lemma AgreeMore(log: seq<Found>, f: Found)
    requires Agree(multiset(log)) && (f.inode in Group(log) ==> Group(log)[f.inode].count == f.links)
    ensures Agree(multiset(log + [f]))
  {
    GroupHolds(log);
    hide Group;
    forall h | h in log && h.inode == f.inode ensures h.links == f.links {
      var k :| 0 <= k < |log| && log[k] == h;
      var i :| 0 <= i < |log| && log[i].inode == f.inode && log[i].links == Group(log)[f.inode].count;
      assert h in multiset(log) && log[i] in multiset(log);
    }
    forall h | h in multiset(log + [f]) ensures h in multiset(log) || h == f {
    }
  }

  /** All entries of one directory. */
  method InspectDirectory(fs: Node, directory: Path, stack: seq<Path>, private: seq<Path>, links: map<Inode, Links>, ghost log: seq<Found>)
    returns (ok: bool, stack': seq<Path>, private': seq<Path>, links': map<Inode, Links>, ghost log': seq<Found>)
    requires Sane(fs) && IsDirectory(fs, directory) && AllDirectories(fs, stack)
    requires links == Group(log) && Agree(multiset(log))
    ensures var node := Look(fs, directory).value;
            && (ok ==> AllDirectories(fs, stack') && links' == Group(log') && Agree(multiset(log'))
                       && multiset(log') + StackNames(fs, stack') == multiset(log) + StackNames(fs, stack) + Names(node, directory)
                       && multiset(private') + StackPrivates(fs, stack') == multiset(private) + StackPrivates(fs, stack) + Privates(node, directory)
                       && StackSize(fs, stack') < StackSize(fs, stack) + Size(node))
            && (!ok ==> !Agree(multiset(log) + Names(node, directory) + StackNames(fs, stack)))
  {
    hide *;
    ok, stack', private', links', log' := true, stack, private, links, log;
    DirectoryStarts(fs, directory);
    var entries := Look(fs, directory).value.entries;
    assert entries[0..] == entries;
    for k := 0 to |entries|
      invariant AllDirectories(fs, stack') && links' == Group(log') && Agree(multiset(log'))
      invariant multiset(log') + StackNames(fs, stack') + NamesFrom(entries[k..], directory) ==
                multiset(log) + StackNames(fs, stack) + NamesFrom(entries, directory)
      invariant multiset(private') + StackPrivates(fs, stack') + PrivatesFrom(entries[k..], directory) ==
                multiset(private) + StackPrivates(fs, stack) + PrivatesFrom(entries, directory)
      invariant StackSize(fs, stack') + SizeFrom(entries[k..]) <= StackSize(fs, stack) + SizeFrom(entries)
    {
      EntryOf(fs, directory, k);
      EntriesFrom(entries, k, directory);
      ghost var had, before := log', Progress(stack', private', log');
      ghost var all := multiset(log) + Names(Look(fs, directory).value, directory) + StackNames(fs, stack);
      assert Names(Look(fs, directory).value, directory) == NamesFrom(entries, directory);
      assert all == multiset(log) + StackNames(fs, stack) + NamesFrom(entries, directory);
      assert all == multiset(had) + (StackNames(fs, stack') + NamesFrom(entries[k..], directory));
      ok, stack', private', links', log' := InspectEntry(fs, directory, entries[k], stack', private', links', log');
      if !ok {
        ghost var f :| f in NamesOf(entries[k], directory) && f.inode in Group(had) && Group(had)[f.inode].count != f.links;
        Disagree(had, f, all);
        return;
      }
      AdvanceParts(fs, before, Progress(stack', private', log'), entries[k], directory);
      if log' != had {
        ghost var f :| log' == had + [f] && (f.inode in Group(had) ==> Group(had)[f.inode].count == f.links);
        AgreeMore(had, f);
      }
    }
    NoEntries(entries, directory);
  }

  lemma DirectoryStarts(fs: Node, directory: Path)
    requires IsDirectory(fs, directory)
    ensures Look(fs, directory).Some? && Look(fs, directory).value.Directory?
    ensures var node := Look(fs, directory).value;
            && Names(node, directory) == NamesFrom(node.entries, directory) && Privates(node, directory) == PrivatesFrom(node.entries, directory)
            && Size(node) == 1 + SizeFrom(node.entries) && node.entries[0..] == node.entries
  {
  }

  lemma EntryOf(fs: Node, directory: Path, k: nat)
    requires Sane(fs) && IsDirectory(fs, directory) && k < |Look(fs, directory).value.entries|
    ensures var entry := Look(fs, directory).value.entries[k];
            Look(fs, directory + [entry.name]) == Some(entry.node)
  {
    EntryIsThere(fs, directory, k);
  }

  lemma EntriesFrom(entries: seq<Entry>, k: nat, directory: Path)
    requires k < |entries|
    ensures NamesFrom(entries[k..], directory) == NamesOf(entries[k], directory) + NamesFrom(entries[k + 1..], directory)
    ensures PrivatesFrom(entries[k..], directory) == PrivatesOf(entries[k], directory) + PrivatesFrom(entries[k + 1..], directory)
    ensures SizeFrom(entries[k..]) == SizeOf(entries[k]) + SizeFrom(entries[k + 1..])
  {
    assert entries[k..][1..] == entries[k + 1..];
  }

  lemma NoEntries(entries: seq<Entry>, directory: Path)
    ensures NamesFrom(entries[|entries|..], directory) == multiset{} && PrivatesFrom(entries[|entries|..], directory) == multiset{}
  {
  }

  lemma AdvanceParts(fs: Node, before: Progress, after: Progress, entry: Entry, directory: Path)
    requires Advances(fs, before, after, entry, directory)
    ensures multiset(after.log) + StackNames(fs, after.stack) == multiset(before.log) + StackNames(fs, before.stack) + NamesOf(entry, directory)
    ensures multiset(after.private) + StackPrivates(fs, after.stack) ==
            multiset(before.private) + StackPrivates(fs, before.stack) + PrivatesOf(entry, directory)
    ensures StackSize(fs, after.stack) <= StackSize(fs, before.stack) + SizeOf(entry)
  {
  }

  lemma Disagree(log: seq<Found>, f: Found, all: multiset<Found>)
    requires f.inode in Group(log) && Group(log)[f.inode].count != f.links
    requires multiset(log) <= all && f in all
    ensures !Agree(all)
  {
    GroupHolds(log);
    hide Group;
    var i :| 0 <= i < |log| && log[i].inode == f.inode && log[i].links == Group(log)[f.inode].count;
    assert log[i] in multiset(log);
    assert log[i] in all;
  }

  /** The inspection of a workspace comes to an end. It finds exactly the names that can be
      reached, each once, grouped by file, and sets aside exactly the private directories; it
      is given up if and only if two names of one file report different counts. */
  method InspectLinks(fs: Node, root: Path) returns (ok: bool, links: map<Inode, Links>, private: seq<Path>, ghost log: seq<Found>)
    requires Sane(fs) && IsDirectory(fs, root)
    ensures ok <==> Agree(Names(Look(fs, root).value, root))
    ensures ok ==> links == Group(log) && multiset(log) == Names(Look(fs, root).value, root)
    ensures ok ==> multiset(private) == Privates(Look(fs, root).value, root)
  {
    hide *;
    var directories := [root];
    ok, links, private, log := true, map[], [], [];
    InspectionStarts(fs, root);
    ghost var all, allPrivate := Names(Look(fs, root).value, root), Privates(Look(fs, root).value, root);
    while directories != []
      invariant AllDirectories(fs, directories) && links == Group(log) && Agree(multiset(log))
      invariant all == multiset(log) + StackNames(fs, directories)
      invariant allPrivate == multiset(private) + StackPrivates(fs, directories)
      decreases StackSize(fs, directories)
    {
      var directory := directories[|directories| - 1];
      TopOfStack(fs, directories);
      directories := directories[..|directories| - 1];
      assert all == multiset(log) + Names(Look(fs, directory).value, directory) + StackNames(fs, directories);
      ok, directories, private, links, log := InspectDirectory(fs, directory, directories, private, links, log);
      if !ok {
        return;
      }
    }
    NothingLeft(fs);
    assert multiset(log) == all && multiset(private) == allPrivate;
  }

  lemma InspectionStarts(fs: Node, root: Path)
    requires IsDirectory(fs, root)
    ensures AllDirectories(fs, [root]) && Group([]) == map[] && Agree(multiset([])) && Look(fs, root).Some?
    ensures StackNames(fs, [root]) == Names(Look(fs, root).value, root) && StackPrivates(fs, [root]) == Privates(Look(fs, root).value, root)
  {
    assert [root][..0] == [];
  }

  lemma TopOfStack(fs: Node, stack: seq<Path>)
    requires AllDirectories(fs, stack) && stack != []
    ensures var top, rest := stack[|stack| - 1], stack[..|stack| - 1];
            && IsDirectory(fs, top) && AllDirectories(fs, rest) && Look(fs, top).Some?
            && StackNames(fs, stack) == StackNames(fs, rest) + Names(Look(fs, top).value, top)
            && StackPrivates(fs, stack) == StackPrivates(fs, rest) + Privates(Look(fs, top).value, top)
            && StackSize(fs, stack) == StackSize(fs, rest) + Size(Look(fs, top).value)
  {
  }

  lemma NothingLeft(fs: Node)
    ensures StackNames(fs, []) == multiset{} && StackPrivates(fs, []) == multiset{}
  {
  }

  // ---- Protected names ----

  /** The files with several names of which one is protected. What is not protected is not
      looked into. */
  function Aliases(node: Node, path: Path, protected: Path -> bool): set<Inode> {
    if !protected(path) then {}
    else
      match node
      case Directory(entries) => AliasesFrom(entries, path, protected)
      case File(inode, links) => if links > 1 then {inode} else {}
      case Other => {}
  }

  function AliasesFrom(entries: seq<Entry>, path: Path, protected: Path -> bool): set<Inode> {
    if entries == [] then {} else AliasesOf(entries[0], path, protected) + AliasesFrom(entries[1..], path, protected)
  }

  function AliasesOf(entry: Entry, path: Path, protected: Path -> bool): set<Inode> {
    Aliases(entry.node, path + [entry.name], protected)
  }

  /** A name below a directory that is protected itself, together with every name above it up
      to that directory, makes its file an alias. */
  lemma {:induction false} ProtectedIsAlias(node: Node, at: Path, rest: Path, inode: Inode, links: nat, protected: Path -> bool)
    requires Look(node, rest) == Some(File(inode, links)) && links > 1
    requires forall n :: 0 <= n <= |rest| ==> protected(at + rest[..n])
    ensures inode in Aliases(node, at, protected)
    decreases |rest|
  {
    assert at + rest[..0] == at;
    if rest != [] {
      var here := at + [rest[0]];
      forall n | 0 <= n <= |rest[1..]| ensures protected(here + rest[1..][..n]) {
        assert here + rest[1..][..n] == at + rest[..n + 1];
      }
      ProtectedIsAlias(Find(node.entries, rest[0]).value, here, rest[1..], inode, links, protected);
      AliasBelow(node.entries, rest[0], at, inode, protected);
    }
  }

  lemma {:induction false} AliasBelow(entries: seq<Entry>, name: Name, at: Path, inode: Inode, protected: Path -> bool)
    requires Find(entries, name).Some? && inode in Aliases(Find(entries, name).value, at + [name], protected)
    ensures inode in AliasesFrom(entries, at, protected)
  {
    if entries[0].name != name {
      AliasBelow(entries[1..], name, at, inode, protected);
    }
  }

  /** A name of a multiply linked file, protected together with every name above it. */
  predicate ProtectedName(node: Node, at: Path, rest: Path, inode: Inode, links: nat, protected: Path -> bool) {
    && Look(node, rest) == Some(File(inode, links)) && links > 1
    && forall n :: 0 <= n <= |rest| ==> protected(at + rest[..n])
  }

  /** An alias has such a name. */
  lemma {:induction false} AliasHasName(node: Node, at: Path, inode: Inode, protected: Path -> bool) returns (rest: Path, links: nat)
    requires Sane(node) && inode in Aliases(node, at, protected)
    ensures ProtectedName(node, at, rest, inode, links, protected)
    decreases node, 1
  {
    match node {
      case Directory(entries) =>
        var k;
        k, rest, links := AliasFromHasName(entries, at, inode, protected);
        FindAt(entries, k);
        var name := entries[k].name;
        forall n | 0 <= n <= |rest| + 1 ensures protected(at + ([name] + rest)[..n]) {
          if n == 0 {
            assert at + ([name] + rest)[..0] == at;
          } else {
            assert at + ([name] + rest)[..n] == at + [name] + rest[..n - 1];
          }
        }
        rest := [name] + rest;
      case File(_, count) =>
        rest, links := [], count;
        assert at + rest[..0] == at;
    }
  }

  lemma {:induction false} AliasFromHasName(entries: seq<Entry>, at: Path, inode: Inode, protected: Path -> bool) returns (k: nat, rest: Path, links: nat)
    requires SaneFrom(entries) && inode in AliasesFrom(entries, at, protected)
    ensures k < |entries| && ProtectedName(entries[k].node, at + [entries[k].name], rest, inode, links, protected)
    decreases entries, 0
  {
    if inode in AliasesOf(entries[0], at, protected) {
      k := 0;
      rest, links := AliasOfHasName(entries[0], at, inode, protected);
    } else {
      k, rest, links := AliasFromHasName(entries[1..], at, inode, protected);
      k := k + 1;
    }
  }

  lemma {:induction false} AliasOfHasName(entry: Entry, at: Path, inode: Inode, protected: Path -> bool) returns (rest: Path, links: nat)
    requires Sane(entry.node) && inode in AliasesOf(entry, at, protected)
    ensures ProtectedName(entry.node, at + [entry.name], rest, inode, links, protected)
    decreases entry, 2
  {
    rest, links := AliasHasName(entry.node, at + [entry.name], inode, protected);
  }

  lemma {:induction false} FindAt(entries: seq<Entry>, k: nat)
    requires SaneFrom(entries) && k < |entries|
    ensures Find(entries, entries[k].name) == Some(entries[k].node)
  {
    if k > 0 {
      FindAt(entries[1..], k - 1);
      assert entries[1..][k - 1] == entries[k];
    }
  }

  /** A file with several names is found if and only if one of them is protected together with
      every name above it. */
  lemma AliasIff(node: Node, at: Path, inode: Inode, protected: Path -> bool)
    requires Sane(node)
    ensures inode in Aliases(node, at, protected) <==> exists rest, links :: ProtectedName(node, at, rest, inode, links, protected)
  {
    if inode in Aliases(node, at, protected) {
      var rest, links := AliasHasName(node, at, inode, protected);
    }
    forall rest, links | ProtectedName(node, at, rest, inode, links, protected) ensures inode in Aliases(node, at, protected) {
      ProtectedIsAlias(node, at, rest, inode, links, protected);
    }
  }

  function StackAliases(fs: Node, stack: seq<Path>, protected: Path -> bool): set<Inode> {
    if stack == [] then {}
    else
      var top := stack[|stack| - 1];
      StackAliases(fs, stack[..|stack| - 1], protected) + if Look(fs, top).Some? then Aliases(Look(fs, top).value, top, protected) else {}
  }

  lemma AliasesPushed(fs: Node, stack: seq<Path>, path: Path, protected: Path -> bool)
    ensures StackAliases(fs, stack + [path], protected) ==
            StackAliases(fs, stack, protected) + if Look(fs, path).Some? then Aliases(Look(fs, path).value, path, protected) else {}
  {
    assert (stack + [path])[..|stack + [path]| - 1] == stack;
  }

  /** Protected files with several names, starting from a path that need not exist. */
  method CollectPrivateLinks(fs: Node, root: Path, linked: set<Inode>, protected: Path -> bool) returns (result: set<Inode>)
    requires Sane(fs)
    ensures result == linked + if Look(fs, root).Some? then Aliases(Look(fs, root).value, root, protected) else {}
  {
    hide Sane, Look, Aliases, StackSize, StackAliases;
    result := linked;
    var pending := [root];
    AliasesPushed(fs, [], root, protected);
    assert [] + [root] == [root];
    NoAliases(fs, protected);
    ghost var all := linked + StackAliases(fs, pending, protected);
    while pending != []
      invariant all == result + StackAliases(fs, pending, protected)
      decreases StackSize(fs, pending)
    {
      var path := pending[|pending| - 1];
      TopAliases(fs, pending, protected);
      pending := pending[..|pending| - 1];
      if !protected(path) || Look(fs, path).None? {
        continue;
      }
      var node := Look(fs, path).value;
      match node {
        case Directory(entries) => pending := PushEntries(fs, path, pending, protected);
        case File(inode, links) =>
          if links > 1 {
            result := result + {inode};
          }
        case Other =>
      }
    }
    NoAliases(fs, protected);
  }

  lemma NoAliases(fs: Node, protected: Path -> bool)
    ensures StackAliases(fs, [], protected) == {}
  {
  }

  lemma TopAliases(fs: Node, stack: seq<Path>, protected: Path -> bool)
    requires stack != []
    ensures var top, rest := stack[|stack| - 1], stack[..|stack| - 1];
            && StackSize(fs, rest) < StackSize(fs, stack)
            && (!protected(top) || Look(fs, top).None? ==> StackAliases(fs, stack, protected) == StackAliases(fs, rest, protected))
            && (Look(fs, top).Some? && Look(fs, top).value.Other? ==> StackAliases(fs, stack, protected) == StackAliases(fs, rest, protected))
            && (protected(top) && Look(fs, top).Some? && Look(fs, top).value.File? ==>
                  StackAliases(fs, stack, protected) ==
                  StackAliases(fs, rest, protected) + if Look(fs, top).value.links > 1 then {Look(fs, top).value.inode} else {})
            && (protected(top) && IsDirectory(fs, top) ==>
                  && StackAliases(fs, stack, protected) == StackAliases(fs, rest, protected) + AliasesFrom(Look(fs, top).value.entries, top, protected)
                  && StackSize(fs, stack) == StackSize(fs, rest) + 1 + SizeFrom(Look(fs, top).value.entries))
  {
  }

  method PushEntries(fs: Node, directory: Path, pending: seq<Path>, protected: Path -> bool) returns (more: seq<Path>)
    requires Sane(fs) && IsDirectory(fs, directory)
    ensures var entries := Look(fs, directory).value.entries;
            && StackAliases(fs, more, protected) == StackAliases(fs, pending, protected) + AliasesFrom(entries, directory, protected)
            && StackSize(fs, more) == StackSize(fs, pending) + SizeFrom(entries)
  {
    hide Sane, Look, Aliases, StackSize, StackAliases, AliasesFrom, SizeFrom;
    more := pending;
    DirectoryStarts(fs, directory);
    var entries := Look(fs, directory).value.entries;
    assert entries[0..] == entries;
    for k := 0 to |entries|
      invariant StackAliases(fs, more, protected) + AliasesFrom(entries[k..], directory, protected) ==
                StackAliases(fs, pending, protected) + AliasesFrom(entries, directory, protected)
      invariant StackSize(fs, more) + SizeFrom(entries[k..]) == StackSize(fs, pending) + SizeFrom(entries)
    {
      var path := directory + [entries[k].name];
      EntryOf(fs, directory, k);
      EntryAliases(entries, k, directory, protected);
      AliasesPushed(fs, more, path, protected);
      Pushed(fs, more, path);
      more := more + [path];
    }
    NoMoreAliases(entries, directory, protected);
  }

  lemma EntryAliases(entries: seq<Entry>, k: nat, directory: Path, protected: Path -> bool)
    requires k < |entries|
    ensures AliasesFrom(entries[k..], directory, protected) ==
            Aliases(entries[k].node, directory + [entries[k].name], protected) + AliasesFrom(entries[k + 1..], directory, protected)
    ensures SizeFrom(entries[k..]) == Size(entries[k].node) + SizeFrom(entries[k + 1..])
  {
    assert entries[k..][1..] == entries[k + 1..];
  }

  lemma NoMoreAliases(entries: seq<Entry>, directory: Path, protected: Path -> bool)
    ensures AliasesFrom(entries[|entries|..], directory, protected) == {} && SizeFrom(entries[|entries|..]) == 0
  {
  }

  // ---- What stays writable ----

  predicate Keeps(group: Links, secret: bool) {
    !secret && group.count == |group.paths|
  }

  /** The names that are bound read-only, and whether to the denied file: all names of a file
      that is secret, and all names of one that has names elsewhere. */
  method Binds(links: map<Inode, Links>, secrets: set<Inode>) returns (binds: seq<(Path, bool)>)
    ensures forall path, denied :: (path, denied) in binds <==>
              exists inode :: inode in links && path in links[inode].paths && !Keeps(links[inode], inode in secrets) && denied == (inode in secrets)
  {
    binds := [];
    var todo := links.Keys;
    while todo != {}
      invariant todo <= links.Keys
      invariant forall path, denied :: (path, denied) in binds <==>
                  exists inode :: inode in links && inode !in todo && path in links[inode].paths
                                  && !Keeps(links[inode], inode in secrets) && denied == (inode in secrets)
      decreases |todo|
    {
      var inode :| inode in todo;
      todo := todo - {inode};
      var group := links[inode];
      if Keeps(group, inode in secrets) {
        continue;
      }
      ghost var had := binds;
      for k := 0 to |group.paths|
        invariant forall path, denied :: (path, denied) in binds <==>
                    (path, denied) in had || (path in group.paths[..k] && denied == (inode in secrets))
      {
        binds := binds + [(group.paths[k], inode in secrets)];
      }
      assert group.paths[..|group.paths|] == group.paths;
    }
  }

  predicate NoRepeats(paths: seq<Path>) {
    forall i, j :: 0 <= i < j < |paths| ==> paths[i] != paths[j]
  }

  /** The file has been seen under this name. */
  predicate Named(log: seq<Found>, inode: Inode, path: Path) {
    exists i :: 0 <= i < |log| && log[i].inode == inode && log[i].path == path
  }

  ghost predicate Once(found: multiset<Found>) {
    forall f :: found[f] <= 1
  }

  lemma {:induction false} PathsAreNames(log: seq<Found>, inode: Inode)
    requires Agree(multiset(log)) && Once(multiset(log))
    ensures forall path :: path in PathsOf(log, inode) <==> Named(log, inode, path)
    ensures NoRepeats(PathsOf(log, inode))
  {
    if log != [] {
      var before, last := log[..|log| - 1], log[|log| - 1];
      assert log == before + [last];
      OnceBefore(before, last);
      PathsAreNames(before, inode);
      hide Agree, Once;
      NamesMore(before, last, inode);
      if last.inode == inode {
        NotSeenBefore(before, last);
      }
    }
  }

  lemma OnceBefore(log: seq<Found>, last: Found)
    requires Agree(multiset(log + [last])) && Once(multiset(log + [last]))
    ensures Agree(multiset(log)) && Once(multiset(log)) && multiset(log)[last] == 0
  {
    var all := multiset(log + [last]);
    assert all == multiset(log) + multiset([last]);
    forall f ensures multiset(log)[f] <= 1 {
      assert all[f] <= 1;
    }
    assert all[last] == multiset(log)[last] + 1;
    forall f: Found, g: Found | f in multiset(log) && g in multiset(log) && f.inode == g.inode ensures f.links == g.links {
      assert f in all && g in all;
    }
  }

  lemma NamesMore(log: seq<Found>, last: Found, inode: Inode)
    ensures forall path :: Named(log + [last], inode, path) <==> Named(log, inode, path) || (last.inode == inode && last.path == path)
  {
    var longer := log + [last];
    assert longer[|log|] == last;
    forall path ensures Named(longer, inode, path) <==> Named(log, inode, path) || (last.inode == inode && last.path == path) {
      if Named(longer, inode, path) {
        var i :| 0 <= i < |longer| && longer[i].inode == inode && longer[i].path == path;
        assert i < |log| ==> log[i] == longer[i];
      }
      if Named(log, inode, path) {
        var i :| 0 <= i < |log| && log[i].inode == inode && log[i].path == path;
        assert longer[i] == log[i];
      }
    }
  }

  lemma NotSeenBefore(log: seq<Found>, last: Found)
    requires Agree(multiset(log + [last])) && multiset(log)[last] == 0
    requires forall path :: path in PathsOf(log, last.inode) <==> Named(log, last.inode, path)
    ensures last.path !in PathsOf(log, last.inode)
  {
    forall i | 0 <= i < |log| && log[i].inode == last.inode ensures log[i].path != last.path {
      assert log[i] in log && log[i] in multiset(log);
      assert log[i] in multiset(log + [last]) && last in multiset(log + [last]);
      assert log[i].links == last.links;
    }
  }

  lemma {:induction false} NoRepeatsCounts(paths: seq<Path>)
    requires NoRepeats(paths)
    ensures |set p | p in paths| == |paths|
  {
    if paths != [] {
      var n := |paths| - 1;
      NoRepeatsCounts(paths[..n]);
      assert (set p | p in paths) == (set p | p in paths[..n]) + {paths[n]};
    }
  }

  /** A file with several names stays writable under every visited name if and only if none of
      its names is protected and all its names, wherever they are, have been visited. */
  lemma WritableIff(fs: Node, root: Path, log: seq<Found>, secrets: set<Inode>, f: Found, everywhere: set<Path>)
    requires Sane(fs) && Look(fs, root).Some? && multiset(log) == Names(Look(fs, root).value, root) && Agree(multiset(log))
    requires f in log && |everywhere| == f.links
    requires forall path :: Named(log, f.inode, path) ==> path in everywhere
    ensures f.inode in Group(log)
    ensures Keeps(Group(log)[f.inode], f.inode in secrets) <==>
            f.inode !in secrets && forall path <- everywhere :: Named(log, f.inode, path)
  {
    forall g ensures multiset(log)[g] <= 1 {
      LookSane(fs, root);
      NamesAreReachable(Look(fs, root).value, root, g.path, g.inode, g.links);
    }
    hide Names, Look, Sane, Group;
    GroupHolds(log);
    PathsAreNames(log, f.inode);
    var paths := PathsOf(log, f.inode);
    NoRepeatsCounts(paths);
    var visited := set p | p in paths;
    CountIs(log, f);
    if |visited| == |everywhere| {
      SameSize(visited, everywhere);
    }
    if forall path <- everywhere :: path in visited {
      assert visited == everywhere;
    }
  }

  lemma CountIs(log: seq<Found>, f: Found)
    requires Agree(multiset(log)) && f in log
    ensures f.inode in Group(log) && Group(log)[f.inode].count == f.links
  {
    GroupHolds(log);
    hide Group;
    var k :| 0 <= k < |log| && log[k] == f;
    var i :| 0 <= i < |log| && log[i].inode == f.inode && log[i].links == Group(log)[f.inode].count;
    assert log[i] in multiset(log) && log[k] in multiset(log);
  }

  lemma SameSize(a: set<Path>, b: set<Path>)
    requires a <= b && |a| == |b|
    ensures a == b
  {
    assert b == a + (b - a);
    assert |b - a| == 0;
  }
}
