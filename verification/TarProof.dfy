/** Untar undoes Tar, and what it does to everything else. */
module TarProof {
  import opened Bytes
  import opened FileSystem
  import opened Tar

  // ---- source trees ----

  predicate NoChild(f: Forest, name: string) {
    match f
    case Empty => true
    case Child(n, _, rest) => n != name && NoChild(rest, name)
  }

  /** Names as a file system has them: plain, and no two alike in one directory. */
  predicate Proper(t: Tree) {
    t.Leaf? || ProperForest(t.children)
  }

  predicate ProperForest(f: Forest) {
    match f
    case Empty => true
    case Child(name, tree, rest) => Plain(name) && Proper(tree) && NoChild(rest, name) && ProperForest(rest)
  }

  // ---- what a tree put at a path means ----

  /** The node a tree at p has at path q. */
  function NodeAt(p: Path, t: Tree, q: Path): Option<Node>
    decreases t
  {
    match t
    case Leaf(data) => if q == p then Some(File(data)) else None
    case Folder(children) => if q == p then Some(Dir) else NodeBelow(p, children, q)
  }

  function NodeBelow(p: Path, f: Forest, q: Path): Option<Node>
    decreases f
  {
    match f
    case Empty => None
    case Child(name, tree, rest) =>
      if p + [name] <= q then NodeAt(p + [name], tree, q) else NodeBelow(p, rest, q)
  }

  /** q is at or below a regular file of the tree at p. */
  predicate Covered(p: Path, t: Tree, q: Path)
    decreases t
  {
    match t
    case Leaf(_) => p <= q
    case Folder(children) => CoveredBelow(p, children, q)
  }

  predicate CoveredBelow(p: Path, f: Forest, q: Path)
    decreases f
  {
    match f
    case Empty => false
    case Child(name, tree, rest) => Covered(p + [name], tree, q) || CoveredBelow(p, rest, q)
  }

  /** A directory of the tree would have to replace a regular file. */
  predicate Clash(fs: FS, p: Path, t: Tree)
    decreases t
  {
    match t
    case Leaf(_) => false
    case Folder(children) => IsFile(fs, p) || ClashBelow(fs, p, children)
  }

  predicate ClashBelow(fs: FS, p: Path, f: Forest)
    decreases f
  {
    match f
    case Empty => false
    case Child(name, tree, rest) => Clash(fs, p + [name], tree) || ClashBelow(fs, p, rest)
  }

  /** Putting the tree at p: the nodes one after the other. */
  function Overlay(fs: FS, p: Path, t: Tree): FS
    decreases t
  {
    match t
    case Leaf(data) => RemoveAll(fs, p)[p := File(data)]
    case Folder(children) => OverlayBelow(fs[p := Dir], p, children)
  }

  function OverlayBelow(fs: FS, p: Path, f: Forest): FS
    decreases f
  {
    match f
    case Empty => fs
    case Child(name, tree, rest) => OverlayBelow(Overlay(fs, p + [name], tree), p, rest)
  }

  /** The file system when unpacking stops at the first directory that would have to replace a regular
      file: everything before it in the archive is in place. */
  function Partial(fs: FS, p: Path, t: Tree): FS
    decreases t
  {
    if t.Leaf? || IsFile(fs, p) then fs else PartialBelow(fs[p := Dir], p, t.children)
  }

  function PartialBelow(fs: FS, p: Path, f: Forest): FS
    decreases f
  {
    match f
    case Empty => fs
    case Child(name, tree, rest) =>
      if Clash(fs, p + [name], tree) then Partial(fs, p + [name], tree)
      else PartialBelow(Overlay(fs, p + [name], tree), p, rest)
  }

  // ---- locality ----

  lemma {:induction false} NodesAreBelow(p: Path, t: Tree, q: Path)
    ensures (NodeAt(p, t, q).Some? || Covered(p, t, q)) ==> p <= q
    decreases t
  {
    if t.Folder? {
      ForestIsBelow(p, t.children, q);
    }
  }

  lemma {:induction false} ForestIsBelow(p: Path, f: Forest, q: Path)
    ensures (NodeBelow(p, f, q).Some? || CoveredBelow(p, f, q)) ==> p <= q && p != q
    decreases f
  {
    if f.Child? {
      NodesAreBelow(p + [f.name], f.tree, q);
      ForestIsBelow(p, f.rest, q);
    }
  }

  /** Nothing of a forest is at or below a name it does not contain. */
  lemma {:induction false} ForestMisses(p: Path, f: Forest, name: string, q: Path)
    requires NoChild(f, name) && p + [name] <= q
    ensures NodeBelow(p, f, q).None? && !CoveredBelow(p, f, q)
    decreases f
  {
    if f.Child? {
      assert q[|p|] == name;
      assert (p + [f.name])[|p|] != q[|p|];
      NodesAreBelow(p + [f.name], f.tree, q);
      ForestMisses(p, f.rest, name, q);
    }
  }

  predicate Same(fs: FS, gs: FS, q: Path) {
    (q in fs <==> q in gs) && (q in fs ==> fs[q] == gs[q])
  }

  lemma {:induction false} OverlayLocal(fs: FS, p: Path, t: Tree, q: Path)
    requires !(p <= q) && p != []
    ensures Same(Overlay(fs, p, t), fs, q)
    decreases t
  {
    if t.Folder? {
      OverlayBelowLocal(fs[p := Dir], p, t.children, q);
    }
  }

  lemma {:induction false} OverlayBelowLocal(fs: FS, p: Path, f: Forest, q: Path)
    requires !(p <= q) && p != []
    ensures Same(OverlayBelow(fs, p, f), fs, q)
    decreases f
  {
    if f.Child? {
      assert !(p + [f.name] <= q);
      OverlayLocal(fs, p + [f.name], f.tree, q);
      OverlayBelowLocal(Overlay(fs, p + [f.name], f.tree), p, f.rest, q);
    }
  }

  lemma {:induction false} ClashFrame(fs: FS, gs: FS, p: Path, t: Tree)
    requires forall q :: p <= q ==> Same(fs, gs, q)
    ensures Clash(fs, p, t) == Clash(gs, p, t)
    decreases t
  {
    assert Same(fs, gs, p);
    if t.Folder? {
      ClashBelowFrame(fs, gs, p, t.children);
    }
  }

  lemma {:induction false} ClashBelowFrame(fs: FS, gs: FS, p: Path, f: Forest)
    requires forall q :: p <= q && p != q ==> Same(fs, gs, q)
    ensures ClashBelow(fs, p, f) == ClashBelow(gs, p, f)
    decreases f
  {
    if f.Child? {
      forall q | p + [f.name] <= q
        ensures Same(fs, gs, q)
      {
        assert p <= q && p != q;
      }
      ClashFrame(fs, gs, p + [f.name], f.tree);
      ClashBelowFrame(fs, gs, p, f.rest);
    }
  }

  /** What happens below one name does not matter to its siblings. */
  lemma {:induction false} ClashSiblings(fs: FS, gs: FS, p: Path, f: Forest, name: string)
    requires NoChild(f, name) && forall q :: !(p + [name] <= q) ==> Same(fs, gs, q)
    ensures ClashBelow(fs, p, f) == ClashBelow(gs, p, f)
    decreases f
  {
    if f.Child? {
      forall q | p + [f.name] <= q
        ensures Same(fs, gs, q)
      {
        assert q[|p|] == f.name;
        assert !(p + [name] <= q);
      }
      ClashFrame(fs, gs, p + [f.name], f.tree);
      ClashSiblings(fs, gs, p, f.rest, name);
    }
  }

  // ---- the overlay, path by path ----

  /** The file system after the tree is put at p: the tree's nodes, and of the old nodes those that
      are not at or below one of its regular files. */
  predicate OverlaidAt(before: FS, after: FS, node: Option<Node>, covered: bool, q: Path) {
    && (q in after <==> node.Some? || (q in before && !covered))
    && (q in after ==> after[q] == if node.Some? then node.value else before[q])
  }

  lemma {:induction false} OverlayAt(fs: FS, p: Path, t: Tree, q: Path)
    requires Proper(t) && p != []
    ensures OverlaidAt(fs, Overlay(fs, p, t), NodeAt(p, t, q), Covered(p, t, q), q)
    decreases t
  {
    if t.Folder? {
      OverlayBelowAt(fs[p := Dir], p, t.children, q);
      ForestIsBelow(p, t.children, q);
    }
  }

  lemma {:induction false} OverlayBelowAt(fs: FS, p: Path, f: Forest, q: Path)
    requires ProperForest(f) && p != []
    ensures OverlaidAt(fs, OverlayBelow(fs, p, f), NodeBelow(p, f, q), CoveredBelow(p, f, q), q)
    decreases f
  {
    if f.Child? {
      var at := p + [f.name];
      var fs1 := Overlay(fs, at, f.tree);
      OverlayBelowAt(fs1, p, f.rest, q);
      if at <= q {
        ForestMisses(p, f.rest, f.name, q);
        OverlayAt(fs, at, f.tree, q);
      } else {
        OverlayLocal(fs, at, f.tree, q);
        NodesAreBelow(at, f.tree, q);
      }
    }
  }

  // ---- unpacking an archived tree ----

  /** Names below archive path `rel` are turned into paths below p. */
  ghost predicate Maps(root: Path, rootReplace: string, rel: Path, p: Path) {
    forall s: Path :: AllPlain(s) ==> Join(root, TrimPrefix(Render(rel + s), rootReplace)) == p + s
  }

  lemma MapsItself(root: Path, rootReplace: string, rel: Path, p: Path)
    requires Maps(root, rootReplace, rel, p)
    ensures Join(root, TrimPrefix(Render(rel), rootReplace)) == p
  {
    assert AllPlain([]) && rel + [] == rel && p + [] == p;
  }

  lemma MapsChild(root: Path, rootReplace: string, rel: Path, p: Path, name: string)
    requires Maps(root, rootReplace, rel, p) && Plain(name)
    ensures Maps(root, rootReplace, rel + [name], p + [name])
  {
    hide Join, TrimPrefix, Render;
    forall s: Path | AllPlain(s)
      ensures Join(root, TrimPrefix(Render((rel + [name]) + s), rootReplace)) == (p + [name]) + s
    {
      assert AllPlain([name] + s);
      Assoc(rel, [name], s);
      Assoc(p, [name], s);
    }
  }

  lemma UnpackOne(fs: FS, e: Entry, rest: seq<Entry>, root: Path, rootReplace: string)
    ensures var step := Extract(fs, e, PathOf(e, root, rootReplace));
            Unpack(fs, [e] + rest, root, rootReplace) ==
            if step.ok then Unpack(step.fs, rest, root, rootReplace) else step
  {
    assert ([e] + rest)[1..] == rest;
  }

  lemma MkdirFails(fs: FS, p: Path)
    ensures !MkdirAll(fs, p).ok ==> MkdirAll(fs, p).fs == fs
  {
  }

  lemma {:induction false} UnpackTree(fs: FS, rel: Path, p: Path, t: Tree, rest: seq<Entry>,
                                      root: Path, rootReplace: string)
    requires Place(fs, p) && Proper(t) && Maps(root, rootReplace, rel, p)
    ensures Clash(fs, p, t) ==>
              Unpack(fs, Entries(rel, t) + rest, root, rootReplace) == Outcome(Partial(fs, p, t), false)
    ensures !Clash(fs, p, t) ==>
              && Unpack(fs, Entries(rel, t) + rest, root, rootReplace) ==
                 Unpack(Overlay(fs, p, t), rest, root, rootReplace)
              && WellFormed(Overlay(fs, p, t))
    decreases t
  {
    hide Maps, Join, Render, TrimPrefix, MkdirAll, Create;
    MapsItself(root, rootReplace, rel, p);
    match t
    case Leaf(data) =>
      CreateAtPlace(fs, p, data);
      UnpackOne(fs, Entry(Regular, Render(rel), data), rest, root, rootReplace);
    case Folder(children) =>
      var e := Entry(Directory, Render(rel), []);
      MkdirAtPlace(fs, p);
      MkdirFails(fs, p);
      Assoc([e], Listing(rel, children), rest);
      UnpackOne(fs, e, Listing(rel, children) + rest, root, rootReplace);
      if !IsFile(fs, p) {
        UnpackForest(fs[p := Dir], rel, p, children, rest, root, rootReplace);
        ClashBelowFrame(fs, fs[p := Dir], p, children);
      }
  }

  lemma {:induction false} UnpackForest(fs: FS, rel: Path, p: Path, f: Forest, rest: seq<Entry>,
                                        root: Path, rootReplace: string)
    requires WellFormed(fs) && IsDir(fs, p) && p != [] && ProperForest(f) && Maps(root, rootReplace, rel, p)
    ensures ClashBelow(fs, p, f) ==>
              Unpack(fs, Listing(rel, f) + rest, root, rootReplace) == Outcome(PartialBelow(fs, p, f), false)
    ensures !ClashBelow(fs, p, f) ==>
              && Unpack(fs, Listing(rel, f) + rest, root, rootReplace) ==
                 Unpack(OverlayBelow(fs, p, f), rest, root, rootReplace)
              && WellFormed(OverlayBelow(fs, p, f))
    decreases f
  {
    hide Maps, Join, Render, TrimPrefix, Unpack;
    if f.Empty? {
      assert Listing(rel, f) + rest == rest;
    } else {
      var at := p + [f.name];
      var more := Listing(rel, f.rest) + rest;
      Assoc(Entries(rel + [f.name], f.tree), Listing(rel, f.rest), rest);
      MapsChild(root, rootReplace, rel, p, f.name);
      assert Parent(at) == p;
      UnpackTree(fs, rel + [f.name], at, f.tree, more, root, rootReplace);
      if !Clash(fs, at, f.tree) {
        var fs1 := Overlay(fs, at, f.tree);
        forall q | !(at <= q)
          ensures Same(fs, fs1, q)
        {
          OverlayLocal(fs, at, f.tree, q);
        }
        assert Same(fs, fs1, p);
        ClashSiblings(fs, fs1, p, f.rest, f.name);
        UnpackForest(fs1, rel, p, f.rest, rest, root, rootReplace);
      }
    }
  }

  // ---- where the archive lands ----

  function TarOf(base: string, t: Tree): seq<Entry> {
    Entries([base], t)
  }

  /** A missing destination: the directories above it can be made, and nothing is at or below it. */
  lemma MakeWay(fs: FS, dst: Path)
    requires WellFormed(fs) && Stat(fs, dst).NotExist?
    ensures var made := MkdirAll(fs, Parent(dst));
            && made.ok && Place(made.fs, dst)
            && MkdirAll(fs, dst) == MkdirAll(made.fs, dst)
            && forall q :: q in made.fs ==> !(dst <= q)
  {
    var par := Parent(dst);
    var made := MkdirAll(fs, par);
    assert made.ok by {
      assert forall i :: 0 <= i < |par| ==> par[..i] == dst[..i];
      assert par == dst[..|par|];
    }
    hide FileAbove, IsFile;
    MakeWayWellFormed(fs, par);
    assert IsDir(made.fs, par) by {
      assert par[..|par|] == par && par in Prefixes(par);
    }
    forall q | q in made.fs
      ensures !(dst <= q)
    {
      NothingBelow(fs, dst, q);
    }
    MkdirAtPlace(made.fs, dst);
    MkdirInOne(fs, dst);
    assert MkdirAll(made.fs, dst).ok by {
      NotAFile(made.fs, dst);
    }
  }

  lemma NotAFile(fs: FS, p: Path)
    requires p !in fs
    ensures !IsFile(fs, p)
  {
  }

  lemma NothingBelow(fs: FS, dst: Path, q: Path)
    requires WellFormed(fs) && dst !in fs && dst != [] && (q in fs || q in Prefixes(Parent(dst)))
    ensures !(dst <= q)
  {
    if q in fs && |q| >= |dst| {
      assert dst <= q <==> q[..|dst|] == dst;
      if |q| == |dst| {
        assert q[..|dst|] == q;
      } else {
        AboveIsDir(fs, q, |dst|);
      }
    }
  }

  lemma MakeWayWellFormed(fs: FS, p: Path)
    requires WellFormed(fs) && MkdirAll(fs, p).ok
    ensures WellFormed(MkdirAll(fs, p).fs)
  {
    var gs := MkdirAll(fs, p).fs;
    forall q | q in gs && q != []
      ensures IsDir(gs, Parent(q))
    {
      if q in Prefixes(p) {
        var i :| 0 <= i <= |p| && q == p[..i];
        assert Parent(q) == p[..i - 1];
        assert Parent(q) in Prefixes(p);
      } else {
        assert IsDir(fs, Parent(q));
      }
    }
    assert p[..0] == [] && [] in Prefixes(p);
  }

  lemma PrefixesSnoc(p: Path)
    requires p != []
    ensures Prefixes(p) == Prefixes(Parent(p)) + {p}
  {
    var par := Parent(p);
    assert p[..|p|] == p;
    forall q
      ensures q in Prefixes(p) <==> q in Prefixes(par) || q == p
    {
      if q in Prefixes(p) && q != p {
        var i :| 0 <= i <= |p| && q == p[..i];
        assert q == par[..i];
      }
      if q in Prefixes(par) {
        var i :| 0 <= i <= |par| && q == par[..i];
        assert q == p[..i];
      }
    }
  }

  lemma MkdirInOne(fs: FS, p: Path)
    requires p != [] && MkdirAll(fs, Parent(p)).ok && !IsFile(fs, p) && !FileAbove(fs, p)
    ensures MkdirAll(fs, p).fs == MkdirAll(fs, Parent(p)).fs[p := Dir]
  {
    PrefixesSnoc(p);
    hide Prefixes, FileAbove, Parent;
    assert (map q | q in Prefixes(p) :: Dir) == (map q | q in Prefixes(Parent(p)) :: Dir)[p := Dir];
  }

  lemma MapsPlain(dst: Path, base: string)
    requires Plain(base)
    ensures Maps(dst, "", [base], dst + [base])
    ensures Maps(dst, base, [base], dst)
  {
    forall s: Path | AllPlain(s)
      ensures Join(dst, TrimPrefix(Render([base] + s), "")) == (dst + [base]) + s
      ensures Join(dst, TrimPrefix(Render([base] + s), base)) == dst + s
    {
      JoinTrimmed(dst, base, s);
      assert AllPlain([base] + s);
      JoinRender(dst, [base] + s);
      Assoc(dst, [base], s);
    }
  }

  /** Once the first entry's path is the one its name leads to, Untar is the unpacking loop. */
  lemma DecideThenLoop(fs: FS, archive: seq<Entry>, dst: Path, t: Target)
    requires archive != [] && t == Decide(fs, archive[0], dst) && t.Target?
    requires t.name == PathOf(archive[0], t.root, t.rootReplace)
    ensures Untarred(fs, archive, dst) == Unpack(t.fs, archive, t.root, t.rootReplace)
  {
  }

  lemma IntoDirectory(fs: FS, dst: Path, base: string, t: Tree)
    requires WellFormed(fs) && Plain(base) && Proper(t) && Stat(fs, dst) == Found(Dir)
    ensures Place(fs, dst + [base])
    ensures Untarred(fs, TarOf(base, t), dst).ok <==> !Clash(fs, dst + [base], t)
    ensures Clash(fs, dst + [base], t) ==>
              Untarred(fs, TarOf(base, t), dst) == Outcome(Partial(fs, dst + [base], t), false)
    ensures !Clash(fs, dst + [base], t) ==> Untarred(fs, TarOf(base, t), dst).fs == Overlay(fs, dst + [base], t)
  {
    hide Join, TrimPrefix, Render, Extract, Overlay, Clash;
    var p := dst + [base];
    assert Parent(p) == dst;
    MapsPlain(dst, base);
    MapsItself(dst, "", [base], p);
    assert AllPlain([base]);
    JoinRender(dst, [base]);
    var archive := TarOf(base, t);
    assert archive[0].name == Render([base]);
    DecideThenLoop(fs, archive, dst, Decide(fs, archive[0], dst));
    assert archive + [] == archive;
    UnpackTree(fs, [base], p, t, [], dst, "");
  }

  lemma OntoFile(fs: FS, dst: Path, base: string, t: Tree)
    requires WellFormed(fs) && Plain(base) && t.Leaf? && Stat(fs, dst).Found? && Stat(fs, dst).node.File?
    ensures Place(fs, dst) && Untarred(fs, TarOf(base, t), dst) == Outcome(Overlay(fs, dst, t), true)
  {
    hide Render, Create;
    CreateAtPlace(fs, dst, t.data);
  }

  lemma IntoNothing(fs: FS, dst: Path, base: string, t: Tree)
    requires WellFormed(fs) && Plain(base) && Proper(t) && Stat(fs, dst).NotExist?
    ensures var g := MkdirAll(fs, Parent(dst)).fs;
            Place(g, dst) && Untarred(fs, TarOf(base, t), dst) == Outcome(Overlay(g, dst, t), true)
  {
    hide Join, TrimPrefix, Render, Create, Place, MkdirAll, Stat;
    MakeWay(fs, dst);
    var g := MkdirAll(fs, Parent(dst)).fs;
    var archive := TarOf(base, t);
    assert archive[0].name == Render([base]);
    NoClash(g, dst, t);
    match t
    case Leaf(data) => CreateAtPlace(g, dst, data);
    case Folder(children) =>
      MapsPlain(dst, base);
      MapsItself(dst, base, [base], dst);
      assert Render([base]) == base by {
        RenderOne(base);
      }
      DecideThenLoop(fs, archive, dst, Decide(fs, archive[0], dst));
      assert archive + [] == archive;
      UnpackTree(g, [base], dst, t, [], dst, base);
  }

  lemma RenderOne(base: string)
    ensures Render([base]) == base
  {
  }

  lemma {:induction false} NoClash(fs: FS, p: Path, t: Tree)
    requires forall q :: q in fs ==> !(p <= q)
    ensures !Clash(fs, p, t)
    decreases t
  {
    if t.Folder? {
      NoClashBelow(fs, p, t.children);
    }
  }

  lemma {:induction false} NoClashBelow(fs: FS, p: Path, f: Forest)
    requires forall q :: q in fs ==> !(p <= q)
    ensures !ClashBelow(fs, p, f)
    decreases f
  {
    if f.Child? {
      forall q | q in fs
        ensures !(p + [f.name] <= q)
      {
        assert p + [f.name] <= q ==> p <= q;
      }
      NoClash(fs, p + [f.name], f.tree);
      NoClashBelow(fs, p, f.rest);
    }
  }

  // ---- the order of an archive ----

  function Places(rel: Path, t: Tree): seq<Path>
    decreases t
  {
    match t
    case Leaf(_) => [rel]
    case Folder(children) => [rel] + PlacesBelow(rel, children)
  }

  function PlacesBelow(rel: Path, f: Forest): seq<Path>
    decreases f
  {
    match f
    case Empty => []
    case Child(name, tree, rest) => Places(rel + [name], tree) + PlacesBelow(rel, rest)
  }

  /** Entry i is for path `places[i]`, and its directory is `outside` or has an earlier entry. */
  predicate InOrder(entries: seq<Entry>, places: seq<Path>, outside: Path) {
    && |entries| == |places|
    && forall i :: 0 <= i < |places| ==>
                     && entries[i].name == Render(places[i])
                     && (Parent(places[i]) == outside || HasDirBefore(entries, places, i))
  }

  predicate HasDirBefore(entries: seq<Entry>, places: seq<Path>, i: nat)
    requires i < |places| == |entries|
  {
    exists j :: 0 <= j < i && places[j] == Parent(places[i]) && entries[j].kind.Directory?
  }

  /** An entry has its directory before it also when other entries come first or follow. */
  lemma OrderedBefore(a: seq<Entry>, p: seq<Path>, b: seq<Entry>, q: seq<Path>, outside: Path, i: nat)
    requires InOrder(a, p, outside) && |b| == |q| && i < |p|
    ensures (a + b)[i].name == Render((p + q)[i])
    ensures Parent((p + q)[i]) == outside || HasDirBefore(a + b, p + q, i)
  {
    hide Render, Parent;
    assert (p + q)[i] == p[i] && (a + b)[i] == a[i];
    if Parent(p[i]) != outside {
      assert HasDirBefore(a, p, i);
      var j :| 0 <= j < i && p[j] == Parent(p[i]) && a[j].kind.Directory?;
      assert (p + q)[j] == p[j] && (a + b)[j] == a[j];
    }
  }

  lemma OrderedAfter(a: seq<Entry>, p: seq<Path>, b: seq<Entry>, q: seq<Path>, outside: Path, k: nat)
    requires InOrder(b, q, outside) && |a| == |p| && k < |q|
    ensures (a + b)[|p| + k].name == Render((p + q)[|p| + k])
    ensures Parent((p + q)[|p| + k]) == outside || HasDirBefore(a + b, p + q, |p| + k)
  {
    hide Render, Parent;
    assert (p + q)[|p| + k] == q[k] && (a + b)[|p| + k] == b[k];
    if Parent(q[k]) != outside {
      assert HasDirBefore(b, q, k);
      var j :| 0 <= j < k && q[j] == Parent(q[k]) && b[j].kind.Directory?;
      assert (p + q)[|p| + j] == q[j] && (a + b)[|p| + j] == b[j];
    }
  }

  lemma InOrderPlus(a: seq<Entry>, p: seq<Path>, b: seq<Entry>, q: seq<Path>, outside: Path)
    requires InOrder(a, p, outside) && InOrder(b, q, outside)
    ensures InOrder(a + b, p + q, outside)
  {
    hide Render, Parent, HasDirBefore;
    var es, ps := a + b, p + q;
    forall i | 0 <= i < |ps|
      ensures es[i].name == Render(ps[i]) && (Parent(ps[i]) == outside || HasDirBefore(es, ps, i))
    {
      if i < |p| {
        OrderedBefore(a, p, b, q, outside, i);
      } else {
        OrderedAfter(a, p, b, q, outside, i - |p|);
      }
    }
  }

  lemma HeadThen(e: Entry, rel: Path, b: seq<Entry>, q: seq<Path>)
    requires e.kind.Directory? && e.name == Render(rel) && rel != [] && InOrder(b, q, rel)
    ensures InOrder([e] + b, [rel] + q, Parent(rel))
  {
    hide Render, Parent;
    var es, ps := [e] + b, [rel] + q;
    forall i | 0 < i < |ps|
      ensures es[i].name == Render(ps[i]) && HasDirBefore(es, ps, i)
    {
      BehindHead(e, rel, b, q, i - 1);
    }
  }

  lemma BehindHead(e: Entry, rel: Path, b: seq<Entry>, q: seq<Path>, k: nat)
    requires e.kind.Directory? && InOrder(b, q, rel) && k < |q|
    ensures ([e] + b)[k + 1].name == Render(([rel] + q)[k + 1]) && HasDirBefore([e] + b, [rel] + q, k + 1)
  {
    hide Render, Parent;
    var es, ps := [e] + b, [rel] + q;
    assert ps[k + 1] == q[k] && es[k + 1] == b[k];
    if Parent(q[k]) == rel {
      assert ps[0] == rel && es[0] == e;
    } else {
      assert HasDirBefore(b, q, k);
      var j :| 0 <= j < k && q[j] == Parent(q[k]) && b[j].kind.Directory?;
      assert ps[j + 1] == q[j] && es[j + 1] == b[j];
    }
  }

  /** In an archive of a tree every entry but the root's comes after a directory entry for the
      directory it is in. */
  lemma {:induction false} ParentsFirst(rel: Path, t: Tree)
    requires rel != []
    ensures InOrder(Entries(rel, t), Places(rel, t), Parent(rel))
    decreases t
  {
    hide Render;
    match t
    case Leaf(_) =>
    case Folder(children) =>
      ParentsFirstBelow(rel, children);
      HeadThen(Entry(Directory, Render(rel), []), rel, Listing(rel, children), PlacesBelow(rel, children));
  }

  lemma {:induction false} ParentsFirstBelow(rel: Path, f: Forest)
    ensures InOrder(Listing(rel, f), PlacesBelow(rel, f), rel)
    decreases f
  {
    if f.Child? {
      var at := rel + [f.name];
      assert Parent(at) == rel;
      ParentsFirst(at, f.tree);
      ParentsFirstBelow(rel, f.rest);
      InOrderPlus(Entries(at, f.tree), Places(at, f.tree), Listing(rel, f.rest), PlacesBelow(rel, f.rest), rel);
    }
  }
}
