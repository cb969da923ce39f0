/** From the file tree to the names that are bound read-only. */
module LinkPolicies {
  import opened Utf8
  import opened HardLinks

  /** A multiply linked file has a protected name below one of these paths. */
  ghost predicate Secret(fs: Node, roots: seq<Path>, inode: Inode, protected: Path -> bool) {
    exists k, rest, links :: 0 <= k < |roots| && SecretBelow(fs, roots[k], rest, inode, links, protected)
  }

  predicate SecretBelow(fs: Node, root: Path, rest: Path, inode: Inode, links: nat, protected: Path -> bool) {
    Look(fs, root).Some? && ProtectedName(Look(fs, root).value, root, rest, inode, links, protected)
  }

  lemma SecretAt(fs: Node, root: Path, inode: Inode, protected: Path -> bool)
    requires Sane(fs)
    ensures Look(fs, root).Some? && inode in Aliases(Look(fs, root).value, root, protected) <==>
            exists rest, links :: SecretBelow(fs, root, rest, inode, links, protected)
  {
    if Look(fs, root).Some? {
      LookSane(fs, root);
      hide Sane, Look, Aliases, ProtectedName;
      var node := Look(fs, root).value;
      AliasIff(node, root, inode, protected);
      forall rest, links ensures SecretBelow(fs, root, rest, inode, links, protected) <==> ProtectedName(node, root, rest, inode, links, protected) {
      }
      if inode in Aliases(node, root, protected) {
        var rest, links :| ProtectedName(node, root, rest, inode, links, protected);
        assert SecretBelow(fs, root, rest, inode, links, protected);
      }
    }
  }

  lemma SecretMore(fs: Node, roots: seq<Path>, k: nat, inode: Inode, protected: Path -> bool)
    requires k < |roots|
    ensures Secret(fs, roots[..k + 1], inode, protected) <==>
            Secret(fs, roots[..k], inode, protected) || exists rest, links :: SecretBelow(fs, roots[k], rest, inode, links, protected)
  {
    hide SecretBelow;
    var more, fewer := roots[..k + 1], roots[..k];
    if Secret(fs, more, inode, protected) {
      var i, rest, links :| 0 <= i < |more| && SecretBelow(fs, more[i], rest, inode, links, protected);
      if i < k {
        assert fewer[i] == more[i];
      }
    }
    if Secret(fs, fewer, inode, protected) {
      var i, rest, links :| 0 <= i < |fewer| && SecretBelow(fs, fewer[i], rest, inode, links, protected);
      assert more[i] == fewer[i];
    }
    if exists rest, links :: SecretBelow(fs, roots[k], rest, inode, links, protected) {
      var rest, links :| SecretBelow(fs, roots[k], rest, inode, links, protected);
      assert more[k] == roots[k];
    }
  }

  /** The files that have a protected name below the private paths. */
  method PrivateLinks(fs: Node, roots: seq<Path>, protected: Path -> bool) returns (linked: set<Inode>)
    requires Sane(fs)
    ensures forall inode :: inode in linked <==> Secret(fs, roots, inode, protected)
  {
    hide Sane, Look, Aliases, Secret, SecretBelow;
    linked := {};
    NoneSecret(fs, protected);
    assert roots[..0] == [];
    for k := 0 to |roots|
      invariant forall inode :: inode in linked <==> Secret(fs, roots[..k], inode, protected)
    {
      ghost var had := linked;
      linked := CollectPrivateLinks(fs, roots[k], linked, protected);
      forall inode ensures inode in linked <==> Secret(fs, roots[..k + 1], inode, protected) {
        SecretAt(fs, roots[k], inode, protected);
        SecretMore(fs, roots, k, inode, protected);
      }
    }
    assert roots[..|roots|] == roots;
  }

  lemma NoneSecret(fs: Node, protected: Path -> bool)
    ensures forall inode :: !Secret(fs, [], inode, protected)
  {
  }

  /** All names the file has, wherever they are. */
  ghost predicate AllNames(log: seq<Found>, f: Found, everywhere: set<Path>) {
    |everywhere| == f.links && forall path :: Named(log, f.inode, path) ==> path in everywhere
  }

  /** A name that has been visited is bound to the denied file if and only if its file has a
      protected name; it is bound to itself, read-only, if and only if its file has none but has
      a name that has not been visited; and otherwise it is not bound, and stays writable. */
  ghost predicate BoundRightly(fs: Node, log: seq<Found>, roots: seq<Path>, protected: Path -> bool, binds: seq<(Path, bool)>, f: Found, everywhere: set<Path>) {
    var secret := Secret(fs, roots, f.inode, protected);
    && ((f.path, true) in binds <==> secret)
    && ((f.path, false) in binds <==> !secret && exists path <- everywhere :: !Named(log, f.inode, path))
  }

  /** The whole way: the workspace is inspected, the files with protected names below the given
      paths or a private directory of the workspace are collected, and names are bound. */
  method BindLinks(fs: Node, workspace: Path, private: seq<Path>, protected: Path -> bool)
    returns (ok: bool, binds: seq<(Path, bool)>, ghost log: seq<Found>, ghost roots: seq<Path>)
    requires Sane(fs) && IsDirectory(fs, workspace)
    ensures ok <==> Agree(Names(Look(fs, workspace).value, workspace))
    ensures ok ==> multiset(log) == Names(Look(fs, workspace).value, workspace)
    ensures ok ==> multiset(roots) == multiset(private) + Privates(Look(fs, workspace).value, workspace)
    ensures ok ==> forall f, everywhere :: f in log && AllNames(log, f, everywhere) ==> BoundRightly(fs, log, roots, protected, binds, f, everywhere)
  {
    hide *;
    InspectionStarts(fs, workspace);
    var links, found;
    ok, links, found, log := InspectLinks(fs, workspace);
    binds, roots := [], [];
    if ok {
      var secrets := PrivateLinks(fs, private + found, protected);
      roots := private + found;
      binds := Binds(links, secrets);
      forall f, everywhere | f in log && AllNames(log, f, everywhere) ensures BoundRightly(fs, log, roots, protected, binds, f, everywhere) {
        BindsAreRight(fs, workspace, log, roots, protected, secrets, binds, f, everywhere);
      }
    }
  }

  lemma BindsAreRight(fs: Node, workspace: Path, log: seq<Found>, roots: seq<Path>, protected: Path -> bool, secrets: set<Inode>,
                      binds: seq<(Path, bool)>, f: Found, everywhere: set<Path>)
    requires Sane(fs) && Look(fs, workspace).Some? && multiset(log) == Names(Look(fs, workspace).value, workspace) && Agree(multiset(log))
    requires forall inode :: inode in secrets <==> Secret(fs, roots, inode, protected)
    requires forall path, denied :: (path, denied) in binds <==>
               exists inode :: inode in Group(log) && path in Group(log)[inode].paths && !Keeps(Group(log)[inode], inode in secrets) && denied == (inode in secrets)
    requires f in log && AllNames(log, f, everywhere)
    ensures BoundRightly(fs, log, roots, protected, binds, f, everywhere)
  {
    WritableIff(fs, workspace, log, secrets, f, everywhere);
    NameInGroup(log, f);
    hide Sane, Look, Names, Agree, Secret, Group, Named;
    forall inode | inode in Group(log) && f.path in Group(log)[inode].paths ensures inode == f.inode {
      OneFile(fs, workspace, log, f, inode);
    }
  }

  lemma NameInGroup(log: seq<Found>, f: Found)
    requires f in log
    ensures f.inode in Group(log) && f.path in Group(log)[f.inode].paths
  {
    GroupHolds(log);
    PathIn(log, f);
    hide Group, PathsOf;
    var i :| 0 <= i < |log| && log[i] == f;
  }

  lemma {:induction false} PathIn(log: seq<Found>, f: Found)
    requires f in log
    ensures f.path in PathsOf(log, f.inode)
  {
    var n := |log| - 1;
    if log[n] != f {
      assert log == log[..n] + [log[n]];
      PathIn(log[..n], f);
    }
  }

  lemma {:induction false} PathFrom(log: seq<Found>, inode: Inode, path: Path) returns (g: Found)
    requires path in PathsOf(log, inode)
    ensures g in log && g.inode == inode && g.path == path
  {
    var n := |log| - 1;
    if log[n].inode == inode && log[n].path == path {
      g := log[n];
    } else {
      g := PathFrom(log[..n], inode, path);
    }
  }

  /** A name leads to one file. */
  lemma OneFile(fs: Node, workspace: Path, log: seq<Found>, f: Found, inode: Inode)
    requires Sane(fs) && Look(fs, workspace).Some? && multiset(log) == Names(Look(fs, workspace).value, workspace)
    requires f in log && inode in Group(log) && f.path in Group(log)[inode].paths
    ensures inode == f.inode
  {
    GroupHolds(log);
    var g := PathFrom(log, inode, f.path);
    LookSane(fs, workspace);
    var node := Look(fs, workspace).value;
    hide Group, PathsOf, Sane, Names, Look;
    NamesAreReachable(node, workspace, f.path, f.inode, f.links);
    NamesAreReachable(node, workspace, g.path, g.inode, g.links);
    assert f in multiset(log) && g in multiset(log);
    assert multiset(log)[f] > 0 && multiset(log)[g] > 0;
    assert f == Found(f.path, f.inode, f.links) && g == Found(g.path, g.inode, g.links);
  }
}
