/** Untar on the archive of a tree: when it is refused, what it does to the file system, and when it gives
    the tree back. Everything is said about the file system before, path by path. */
module TarTheorems {
  import opened Bytes
  import opened FileSystem
  import opened Tar
  import opened TarProof

  function At(fs: FS, q: Path): Option<Node> {
    if q in fs then Some(fs[q]) else None
  }

  /** A regular file stands where a directory above dst would have to be. */
  predicate Blocked(fs: FS, dst: Path) {
    exists i :: 0 <= i < |dst| && dst[..i] in fs && fs[dst[..i]].File?
  }

  /** There is no place for the tree: dst is below a regular file, or it is one and the tree is none. */
  predicate NoPlace(fs: FS, dst: Path, t: Tree) {
    Blocked(fs, dst) || (dst in fs && fs[dst].File? && t.Folder?)
  }

  /** Where the tree goes: into a directory under its own name, else to dst itself. */
  function LandsAt(fs: FS, dst: Path, base: string): Path {
    if dst in fs && fs[dst].Dir? then dst + [base] else dst
  }

  /** The node at q once the directories on the way to a missing dst are there. */
  function OnTheWay(fs: FS, dst: Path, q: Path): Option<Node> {
    if dst !in fs && q <= dst && q != dst then Some(Dir) else At(fs, q)
  }

  /** The node at q once the tree is at p as well: its own, none below its regular files, else as before. */
  function Expected(fs: FS, dst: Path, p: Path, t: Tree, q: Path): Option<Node> {
    if NodeAt(p, t, q).Some? then NodeAt(p, t, q)
    else if Covered(p, t, q) then None
    else OnTheWay(fs, dst, q)
  }

  // ---- from the code's questions to the file system ----

  lemma NotBlocked(fs: FS, dst: Path)
    requires WellFormed(fs) && dst in fs
    ensures !Blocked(fs, dst)
  {
    if Blocked(fs, dst) {
      var i :| 0 <= i < |dst| && dst[..i] in fs && fs[dst[..i]].File?;
      AboveIsDir(fs, dst, i);
    }
  }

  lemma StatSays(fs: FS, dst: Path)
    requires WellFormed(fs)
    ensures dst in fs <==> Stat(fs, dst).Found?
    ensures dst in fs ==> Stat(fs, dst).node == fs[dst] && !Blocked(fs, dst)
    ensures Blocked(fs, dst) <==> Stat(fs, dst).NotDir?
  {
    if dst in fs {
      NotBlocked(fs, dst);
    }
    if Blocked(fs, dst) {
      var i :| 0 <= i < |dst| && dst[..i] in fs && fs[dst[..i]].File?;
      assert IsFile(fs, dst[..i]);
    }
  }

  /** MkdirAll on the parent of a missing destination makes exactly the directories on the way. */
  lemma WayMade(fs: FS, dst: Path, q: Path)
    requires WellFormed(fs) && dst !in fs && !Blocked(fs, dst) && MkdirAll(fs, Parent(dst)).ok
    ensures At(MkdirAll(fs, Parent(dst)).fs, q) == OnTheWay(fs, dst, q)
  {
    var par := Parent(dst);
    assert dst != [];
    assert q <= dst && q != dst <==> q in Prefixes(par) by {
      if q <= dst && q != dst {
        assert q == dst[..|q|] == par[..|q|];
      }
      if q in Prefixes(par) {
        var i :| 0 <= i <= |par| && q == par[..i];
        assert q == dst[..i];
      }
    }
    hide Prefixes;
  }

  lemma NothingThere(fs: FS, dst: Path)
    requires WellFormed(fs) && dst !in fs && !Blocked(fs, dst)
    ensures forall q :: q in fs ==> !(dst <= q)
  {
    StatSays(fs, dst);
    MakeWay(fs, dst);
    forall q | q in fs
      ensures !(dst <= q)
    {
      WayMade(fs, dst, q);
      assert q in MkdirAll(fs, Parent(dst)).fs;
    }
  }

  // ---- when unpacking stops half-way ----

  lemma {:induction false} PartialLocal(fs: FS, p: Path, t: Tree, q: Path)
    requires !(p <= q) && p != []
    ensures Same(Partial(fs, p, t), fs, q)
    decreases t
  {
    if t.Folder? && !IsFile(fs, p) {
      PartialBelowLocal(fs[p := Dir], p, t.children, q);
    }
  }

  lemma {:induction false} PartialBelowLocal(fs: FS, p: Path, f: Forest, q: Path)
    requires !(p <= q) && p != []
    ensures Same(PartialBelow(fs, p, f), fs, q)
    decreases f
  {
    if f.Child? {
      var at := p + [f.name];
      assert !(at <= q);
      if Clash(fs, at, f.tree) {
        PartialLocal(fs, at, f.tree, q);
      } else {
        OverlayLocal(fs, at, f.tree, q);
        PartialBelowLocal(Overlay(fs, at, f.tree), p, f.rest, q);
      }
    }
  }

  /** Every path is as before or as the whole overlay would have it. */
  lemma {:induction false} PartialAt(fs: FS, p: Path, t: Tree, q: Path)
    requires Proper(t) && p != []
    ensures Same(fs, Partial(fs, p, t), q) || OverlaidAt(fs, Partial(fs, p, t), NodeAt(p, t, q), Covered(p, t, q), q)
    decreases t
  {
    if t.Folder? && !IsFile(fs, p) {
      PartialBelowAt(fs[p := Dir], p, t.children, q);
      ForestIsBelow(p, t.children, q);
    }
  }

  lemma {:induction false} PartialBelowAt(fs: FS, p: Path, f: Forest, q: Path)
    requires ProperForest(f) && p != []
    ensures var after := PartialBelow(fs, p, f);
            Same(fs, after, q) || OverlaidAt(fs, after, NodeBelow(p, f, q), CoveredBelow(p, f, q), q)
    decreases f
  {
    if f.Child? {
      var at := p + [f.name];
      if Clash(fs, at, f.tree) {
        if at <= q {
          ForestMisses(p, f.rest, f.name, q);
          PartialAt(fs, at, f.tree, q);
        } else {
          PartialLocal(fs, at, f.tree, q);
        }
      } else {
        var fs1 := Overlay(fs, at, f.tree);
        PartialBelowAt(fs1, p, f.rest, q);
        if at <= q {
          ForestMisses(p, f.rest, f.name, q);
          OverlayAt(fs, at, f.tree, q);
        } else {
          OverlayLocal(fs, at, f.tree, q);
          NodesAreBelow(at, f.tree, q);
        }
      }
    }
  }

  // ---- theorems ----

  /**
   Untar on a Tar archive, in every case and for every well-formed file system: it is refused without
   effect exactly when there is no place for the tree; otherwise it succeeds if and only if no directory
   of the tree meets a regular file. Then every path holds what is expected there: the tree's node, nothing
   below its regular files, a directory on the way to a missing destination, the old node elsewhere. When
   it stops at such a directory, everything before that one in the archive is in place and nothing else.
   */
  lemma UntarOverlays(fs: FS, dst: Path, base: string, t: Tree)
    requires WellFormed(fs) && Plain(base) && Proper(t)
    ensures var o, p := Untarred(fs, TarOf(base, t), dst), LandsAt(fs, dst, base);
            && (NoPlace(fs, dst, t) ==> o == Outcome(fs, false))
            && (!NoPlace(fs, dst, t) ==>
                  && (o.ok <==> !Clash(fs, p, t))
                  && (o.ok ==> forall q :: At(o.fs, q) == Expected(fs, dst, p, t, q))
                  && (!o.ok ==>
                        && o.fs == Partial(fs, p, t)
                        && forall q :: At(o.fs, q) == At(fs, q) || At(o.fs, q) == Expected(fs, dst, p, t, q)))
  {
    StatSays(fs, dst);
    if NoPlace(fs, dst, t) {
      Refused(fs, dst, base, t);
    } else if dst in fs && fs[dst].Dir? {
      OverlaysInto(fs, dst, base, t);
    } else if dst in fs {
      OverlaysOnto(fs, dst, base, t);
    } else {
      OverlaysNothing(fs, dst, base, t);
    }
  }

  lemma Refused(fs: FS, dst: Path, base: string, t: Tree)
    requires WellFormed(fs) && NoPlace(fs, dst, t)
    ensures Untarred(fs, TarOf(base, t), dst) == Outcome(fs, false)
  {
    StatSays(fs, dst);
    hide Render, FileAbove, Stat, Blocked;
  }

  lemma OverlaysInto(fs: FS, dst: Path, base: string, t: Tree)
    requires WellFormed(fs) && Plain(base) && Proper(t) && dst in fs && fs[dst].Dir?
    ensures var o, p := Untarred(fs, TarOf(base, t), dst), dst + [base];
            && (o.ok <==> !Clash(fs, p, t))
            && (o.ok ==> forall q :: At(o.fs, q) == Expected(fs, dst, p, t, q))
            && (!o.ok ==>
                  && o.fs == Partial(fs, p, t)
                  && forall q :: At(o.fs, q) == At(fs, q) || At(o.fs, q) == Expected(fs, dst, p, t, q))
  {
    StatSays(fs, dst);
    IntoDirectory(fs, dst, base, t);
    hide Untarred, Overlay, Partial, Clash, Covered, NodeAt, Stat, Place;
    var p := dst + [base];
    forall q
      ensures !Clash(fs, p, t) ==> At(Overlay(fs, p, t), q) == Expected(fs, dst, p, t, q)
      ensures Clash(fs, p, t) ==>
                At(Partial(fs, p, t), q) == At(fs, q) || At(Partial(fs, p, t), q) == Expected(fs, dst, p, t, q)
    {
      OverlayAt(fs, p, t, q);
      PartialAt(fs, p, t, q);
    }
  }

  lemma OverlaysOnto(fs: FS, dst: Path, base: string, t: Tree)
    requires WellFormed(fs) && Plain(base) && Proper(t) && dst in fs && fs[dst].File? && t.Leaf?
    ensures var o := Untarred(fs, TarOf(base, t), dst);
            o.ok && !Clash(fs, dst, t) && forall q :: At(o.fs, q) == Expected(fs, dst, dst, t, q)
  {
    StatSays(fs, dst);
    OntoFile(fs, dst, base, t);
    hide Untarred, Overlay, Covered, NodeAt, Stat;
    assert dst != [];
    forall q
      ensures At(Overlay(fs, dst, t), q) == Expected(fs, dst, dst, t, q)
    {
      OverlayAt(fs, dst, t, q);
    }
  }

  lemma OverlaysNothing(fs: FS, dst: Path, base: string, t: Tree)
    requires WellFormed(fs) && Plain(base) && Proper(t) && dst !in fs && !Blocked(fs, dst)
    ensures var o := Untarred(fs, TarOf(base, t), dst);
            o.ok && !Clash(fs, dst, t) && forall q :: At(o.fs, q) == Expected(fs, dst, dst, t, q)
  {
    StatSays(fs, dst);
    NothingThere(fs, dst);
    NoClash(fs, dst, t);
    IntoNothing(fs, dst, base, t);
    MakeWay(fs, dst);
    hide Untarred, Overlay, Clash, Covered, NodeAt, Stat, MkdirAll;
    var g := MkdirAll(fs, Parent(dst)).fs;
    assert dst != [];
    forall q
      ensures At(Overlay(g, dst, t), q) == Expected(fs, dst, dst, t, q)
    {
      OverlayAt(g, dst, t, q);
      WayMade(fs, dst, q);
    }
  }

  /** The tree found at p is exactly t. */
  ghost predicate HoldsTree(fs: FS, p: Path, t: Tree) {
    forall q: Path :: p <= q ==> At(fs, q) == NodeAt(p, t, q)
  }

  /** Nothing was at or below p that the tree does not replace. */
  predicate NothingElse(fs: FS, p: Path, t: Tree) {
    forall q :: q in fs && p <= q ==> NodeAt(p, t, q).Some? || Covered(p, t, q)
  }

  /** After Untar: the tree is there exactly when nothing else was, and nothing outside has changed. */
  ghost predicate Returned(fs: FS, dst: Path, p: Path, t: Tree, after: FS) {
    && (HoldsTree(after, p, t) <==> NothingElse(fs, p, t))
    && forall q: Path :: !(p <= q) ==> At(after, q) == OnTheWay(fs, dst, q)
  }

  lemma ReturnedIf(fs: FS, dst: Path, p: Path, t: Tree, after: FS)
    requires forall q :: At(after, q) == Expected(fs, dst, p, t, q)
    requires p == dst || dst in fs
    ensures Returned(fs, dst, p, t, after)
  {
    hide NodeAt, Covered;
    forall q: Path | !(p <= q)
      ensures At(after, q) == OnTheWay(fs, dst, q)
    {
      NodesAreBelow(p, t, q);
    }
    forall q: Path | p <= q
      ensures OnTheWay(fs, dst, q) == At(fs, q)
    {
    }
    if NothingElse(fs, p, t) {
      forall q: Path | p <= q
        ensures At(after, q) == NodeAt(p, t, q)
      {
        assert At(after, q) == Expected(fs, dst, p, t, q);
      }
    } else {
      var q :| q in fs && p <= q && NodeAt(p, t, q).None? && !Covered(p, t, q);
      assert At(after, q) == Expected(fs, dst, p, t, q) != NodeAt(p, t, q);
    }
  }

  /**
   Round trip: into a directory the tree lands under its name, and after success it equals t if and only if
   nothing else was there before; at a missing destination with no regular file above it, and as a file onto
   a file, Untar always succeeds and the destination is t. Every path outside is as it was, but for the
   directories on the way.
   */
  lemma UntarUndoesTar(fs: FS, dst: Path, base: string, t: Tree)
    requires WellFormed(fs) && Plain(base) && Proper(t)
    ensures var o := Untarred(fs, TarOf(base, t), dst);
            && (dst in fs && fs[dst].Dir? && o.ok ==> Returned(fs, dst, dst + [base], t, o.fs))
            && (dst !in fs && !Blocked(fs, dst) ==> o.ok && HoldsTree(o.fs, dst, t) && Returned(fs, dst, dst, t, o.fs))
            && (dst in fs && fs[dst].File? && t.Leaf? ==>
                  o.ok && HoldsTree(o.fs, dst, t) && Returned(fs, dst, dst, t, o.fs))
  {
    hide Untarred, Clash, Covered, NodeAt, Expected, Partial;
    UntarOverlays(fs, dst, base, t);
    StatSays(fs, dst);
    var o, p := Untarred(fs, TarOf(base, t), dst), LandsAt(fs, dst, base);
    if o.ok {
      ReturnedIf(fs, dst, p, t, o.fs);
    }
    if dst !in fs && !Blocked(fs, dst) {
      OverlaysNothing(fs, dst, base, t);
      NothingThere(fs, dst);
    }
    if dst in fs && fs[dst].File? && t.Leaf? {
      OverlaysOnto(fs, dst, base, t);
      LeafCovers(fs, dst, t);
    }
  }

  lemma LeafCovers(fs: FS, p: Path, t: Tree)
    requires t.Leaf?
    ensures NothingElse(fs, p, t)
  {
  }

  /** The same through the code: walk and archive the tree, then run the unpacking loop. */
  method TarThenUntar(fs: FS, dst: Path, base: string, t: Tree) returns (after: FS, ok: bool)
    requires WellFormed(fs) && Plain(base) && Proper(t)
    ensures NoPlace(fs, dst, t) ==> !ok && after == fs
    ensures !NoPlace(fs, dst, t) ==> (ok <==> !Clash(fs, LandsAt(fs, dst, base), t))
    ensures dst in fs && fs[dst].Dir? && ok ==> Returned(fs, dst, dst + [base], t, after)
    ensures dst !in fs && !Blocked(fs, dst) ==> ok && HoldsTree(after, dst, t) && Returned(fs, dst, dst, t, after)
    ensures dst in fs && fs[dst].File? && t.Leaf? ==>
              ok && HoldsTree(after, dst, t) && Returned(fs, dst, dst, t, after)
  {
    hide Untarred, Clash, HoldsTree, Returned, Entries, Expected, Partial, Blocked;
    var archive := Walk([base], t, []);
    assert archive == TarOf(base, t);
    after, ok := Untar(fs, archive, dst);
    UntarOverlays(fs, dst, base, t);
    UntarUndoesTar(fs, dst, base, t);
  }

  // ---- entries of other kinds ----

  /** The directories and regular files of an archive. */
  function Known(entries: seq<Entry>): seq<Entry> {
    if entries == [] then []
    else if entries[0].kind.Special? then Known(entries[1..])
    else [entries[0]] + Known(entries[1..])
  }

  /** Entries of other kinds are passed over, wherever they are. */
  lemma {:induction false} SpecialsSkipped(fs: FS, entries: seq<Entry>, root: Path, rootReplace: string)
    ensures Unpack(fs, entries, root, rootReplace) == Unpack(fs, Known(entries), root, rootReplace)
    decreases |entries|
  {
    hide Join, TrimPrefix, MkdirAll, Create, RemoveAll;
    if entries != [] {
      var step := Extract(fs, entries[0], PathOf(entries[0], root, rootReplace));
      if step.ok {
        SpecialsSkipped(step.fs, entries[1..], root, rootReplace);
      }
      if !entries[0].kind.Special? {
        UnpackOne(fs, entries[0], Known(entries[1..]), root, rootReplace);
      }
    }
  }

  /** An archive that begins with one is unpacked into dst, and an empty archive is an error. */
  lemma SpecialFirst(fs: FS, archive: seq<Entry>, dst: Path)
    ensures archive == [] ==> Untarred(fs, archive, dst) == Outcome(fs, false)
    ensures archive != [] && archive[0].kind.Special? ==>
              Untarred(fs, archive, dst) == Unpack(fs, Known(archive[1..]), dst, "")
  {
    hide Unpack;
    if archive != [] {
      SpecialsSkipped(fs, archive[1..], dst, "");
    }
  }

  // ---- archives of any kind ----

  /**
   Where the entries of any archive go that begins with a directory or a regular file. Into a directory:
   all of them below it. Onto a file or a missing path, with a regular file first: that one becomes dst and
   the others go beside it. To a missing path, with a directory first: dst takes the place of its name.
   */
  lemma UntarAny(fs: FS, archive: seq<Entry>, dst: Path)
    requires WellFormed(fs) && archive != [] && !archive[0].kind.Special?
    ensures dst in fs && fs[dst].Dir? ==> Untarred(fs, archive, dst) == Unpack(fs, archive, dst, "")
    ensures dst in fs && fs[dst].File? && archive[0].kind.Directory? ==>
              Untarred(fs, archive, dst) == Outcome(fs, false)
    ensures Blocked(fs, dst) ==> Untarred(fs, archive, dst) == Outcome(fs, false)
    ensures dst !in fs && !Blocked(fs, dst) && archive[0].kind.Directory? ==>
              && MkdirAll(fs, dst).ok
              && Untarred(fs, archive, dst) == Unpack(MkdirAll(fs, dst).fs, archive[1..], dst, archive[0].name)
    ensures !Blocked(fs, dst) && (dst in fs ==> fs[dst].File?) && archive[0].kind.Regular? ==>
              exists g: FS ::
                && (forall q :: At(g, q) == Expected(fs, dst, dst, Leaf(archive[0].data), q))
                && Untarred(fs, archive, dst) == Unpack(g, archive[1..], Parent(dst), "")
  {
    StatSays(fs, dst);
    if dst in fs && fs[dst].Dir? {
      hide Stat, Join, Extract;
      DecideThenLoop(fs, archive, dst, Decide(fs, archive[0], dst));
    } else if Blocked(fs, dst) {
      hide Stat, Join, Extract, MkdirAll;
    } else if archive[0].kind.Directory? {
      if dst !in fs {
        hide Stat, Join, TrimPrefix, Unpack;
        NoFileThere(fs, dst);
      }
    } else {
      FileThenOthers(fs, archive, dst);
    }
  }

  lemma NoFileThere(fs: FS, dst: Path)
    requires dst !in fs && !Blocked(fs, dst)
    ensures MkdirAll(fs, dst).ok
  {
  }

  lemma FileThenOthers(fs: FS, archive: seq<Entry>, dst: Path)
    requires WellFormed(fs) && archive != [] && archive[0].kind.Regular?
    requires !Blocked(fs, dst) && (dst in fs ==> fs[dst].File?)
    ensures exists g: FS ::
              && (forall q :: At(g, q) == Expected(fs, dst, dst, Leaf(archive[0].data), q))
              && Untarred(fs, archive, dst) == Unpack(g, archive[1..], Parent(dst), "")
  {
    StatSays(fs, dst);
    var t := Leaf(archive[0].data);
    var way := if dst in fs then fs else MkdirAll(fs, Parent(dst)).fs;
    assert dst != [];
    if dst in fs {
      assert Place(fs, dst);
    } else {
      MakeWay(fs, dst);
    }
    CreateAtPlace(way, dst, archive[0].data);
    var g := Overlay(way, dst, t);
    assert Untarred(fs, archive, dst) == Unpack(g, archive[1..], Parent(dst), "") by {
      hide Stat, MkdirAll, Unpack, Place;
    }
    forall q
      ensures At(g, q) == Expected(fs, dst, dst, t, q)
    {
      hide Overlay, NodeAt, Covered, MkdirAll;
      OverlayAt(way, dst, t, q);
      if dst !in fs {
        WayMade(fs, dst, q);
      }
    }
  }

  // ---- the file system stays one ----

  lemma RemoveKeeps(fs: FS, p: Path)
    requires WellFormed(fs)
    ensures WellFormed(RemoveAll(fs, p))
  {
    var g := RemoveAll(fs, p);
    forall q | q in g && q != []
      ensures IsDir(g, Parent(q))
    {
      assert IsDir(fs, Parent(q));
      assert Parent(q) <= q;
    }
  }

  lemma CreateKeeps(fs: FS, p: Path, data: seq<byte>)
    requires WellFormed(fs) && forall q :: q in fs && p <= q ==> q == []
    ensures WellFormed(Create(fs, p, data).fs)
  {
    var g := Create(fs, p, data).fs;
    forall q | q in g && q != []
      ensures IsDir(g, Parent(q))
    {
      if q != p {
        assert IsDir(fs, Parent(q));
      }
      assert |Parent(q)| < |q|;
    }
  }

  lemma MkdirKeeps(fs: FS, p: Path)
    requires WellFormed(fs)
    ensures WellFormed(MkdirAll(fs, p).fs)
  {
    var g := MkdirAll(fs, p).fs;
    if MkdirAll(fs, p).ok {
      assert p[..0] == [] && [] in Prefixes(p);
      forall q | q in g && q != []
        ensures IsDir(g, Parent(q))
      {
        if q in Prefixes(p) {
          var i :| 0 <= i <= |p| && q == p[..i];
          assert Parent(q) == p[..i - 1] && Parent(q) in Prefixes(p);
        } else {
          assert IsDir(fs, Parent(q));
        }
      }
    }
  }

  lemma ExtractKeeps(fs: FS, e: Entry, name: Path)
    requires WellFormed(fs)
    ensures WellFormed(Extract(fs, e, name).fs)
  {
    match e.kind
    case Regular =>
      RemoveKeeps(fs, name);
      CreateKeeps(RemoveAll(fs, name), name, e.data);
    case Directory => MkdirKeeps(fs, name);
    case Special =>
  }

  lemma {:induction false} UnpackKeeps(fs: FS, entries: seq<Entry>, root: Path, rootReplace: string)
    requires WellFormed(fs)
    ensures WellFormed(Unpack(fs, entries, root, rootReplace).fs)
    decreases |entries|
  {
    hide WellFormed, Extract, Join, TrimPrefix;
    if entries != [] {
      var step := Extract(fs, entries[0], PathOf(entries[0], root, rootReplace));
      ExtractKeeps(fs, entries[0], PathOf(entries[0], root, rootReplace));
      if step.ok {
        UnpackKeeps(step.fs, entries[1..], root, rootReplace);
      }
    }
  }

  /** Whatever the archive and wherever it fails, Untar leaves a file system in which every node is in a
      directory. */
  lemma UntarKeepsFileSystem(fs: FS, archive: seq<Entry>, dst: Path)
    requires WellFormed(fs)
    ensures WellFormed(Untarred(fs, archive, dst).fs)
  {
    hide WellFormed, Extract, Unpack, Join, MkdirAll, Stat;
    if archive != [] && Decide(fs, archive[0], dst).Target? {
      var t := Decide(fs, archive[0], dst);
      MkdirKeeps(fs, Parent(dst));
      ExtractKeeps(t.fs, archive[0], t.name);
      UnpackKeeps(Extract(t.fs, archive[0], t.name).fs, archive[1..], t.root, t.rootReplace);
    }
  }
}
