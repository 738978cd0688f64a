/**
 Tar and Untar on trees of directories and regular files. An archive is its sequence of entries;
 their names are the strings the code computes with.
 */
module Tar {
  import opened Bytes
  import opened FileSystem

  /** A source tree. The children of a directory come in the order in which the walk lists them. */
  datatype Tree = Leaf(data: seq<byte>) | Folder(children: Forest)
  datatype Forest = Empty | Child(name: string, tree: Tree, rest: Forest)

  datatype EntryKind = Regular | Directory | Special
  datatype Entry = Entry(kind: EntryKind, name: string, data: seq<byte>)

  // ---- Tar ----

  /** The entries the walk callback writes for the subtree at archive path `rel`. */
  function Entries(rel: Path, t: Tree): seq<Entry>
    decreases t
  {
    match t
    case Leaf(data) => [Entry(Regular, Render(rel), data)]
    case Folder(children) => [Entry(Directory, Render(rel), [])] + Listing(rel, children)
  }

  function Listing(rel: Path, f: Forest): seq<Entry>
    decreases f
  {
    match f
    case Empty => []
    case Child(name, tree, rest) => Entries(rel + [name], tree) + Listing(rel, rest)
  }

  /** filepath.Walk with the callback of Tar, appending to the archive. */
  method Walk(rel: Path, t: Tree, before: seq<Entry>) returns (archive: seq<Entry>)
    ensures archive == before + Entries(rel, t)
    decreases t
  {
    match t
    case Leaf(data) =>
      archive := before + [Entry(Regular, Render(rel), data)];
    case Folder(children) =>
      archive := before + [Entry(Directory, Render(rel), [])];
      ghost var head := archive;
      var f := children;
      while f.Child?
        invariant f == children || f < children
        invariant archive + Listing(rel, f) == head + Listing(rel, children)
        decreases f
      {
        ghost var sofar := archive;
        archive := Walk(rel + [f.name], f.tree, archive);
        Assoc(sofar, Entries(rel + [f.name], f.tree), Listing(rel, f.rest));
        f := f.rest;
      }
      assert archive + [] == archive;
      Assoc(before, [Entry(Directory, Render(rel), [])], Listing(rel, children));
  }

  // ---- Untar ----

  /** What is decided on the first header: where it goes, and how later names are turned into paths. */
  datatype Target = Refuse | Target(fs: FS, name: Path, root: Path, rootReplace: string)

  function Decide(fs: FS, hdr: Entry, dst: Path): Target {
    match hdr.kind
    case Regular => (
      match Stat(fs, dst)
      case Found(Dir) => Target(fs, Join(dst, hdr.name), dst, "")
      case Found(File(_)) => Target(fs, dst, Parent(dst), "")
      case NotExist =>
        var made := MkdirAll(fs, Parent(dst));
        if made.ok then Target(made.fs, dst, Parent(dst), "") else Refuse
      case NotDir => Refuse
    )
    case Directory => (
      match Stat(fs, dst)
      case Found(Dir) => Target(fs, Join(dst, hdr.name), dst, "")
      case Found(File(_)) => Refuse
      case NotExist => Target(fs, dst, dst, hdr.name)
      case NotDir => Refuse
    )
    case Special => Target(fs, [], dst, "")
  }

  /** One turn of the unpacking loop. */
  function Extract(fs: FS, e: Entry, name: Path): Outcome {
    match e.kind
    case Regular => Create(RemoveAll(fs, name), name, e.data)
    case Directory => MkdirAll(fs, name)
    case Special => Outcome(fs, true)
  }

  function PathOf(e: Entry, root: Path, rootReplace: string): Path {
    Join(root, TrimPrefix(e.name, rootReplace))
  }

  function Unpack(fs: FS, entries: seq<Entry>, root: Path, rootReplace: string): Outcome
    decreases |entries|
  {
    if entries == [] then Outcome(fs, true)
    else
      var step := Extract(fs, entries[0], PathOf(entries[0], root, rootReplace));
      if step.ok then Unpack(step.fs, entries[1..], root, rootReplace) else step
  }

  function Untarred(fs: FS, archive: seq<Entry>, dst: Path): Outcome {
    if archive == [] then Outcome(fs, false)
    else
      match Decide(fs, archive[0], dst)
      case Refuse => Outcome(fs, false)
      case Target(fs1, name, root, rootReplace) =>
        var step := Extract(fs1, archive[0], name);
        if step.ok then Unpack(step.fs, archive[1..], root, rootReplace) else step
  }

  /** Untar as the code runs it: decide on the first header, then loop over the entries. */
  method Untar(fs0: FS, archive: seq<Entry>, dst: Path) returns (fs: FS, ok: bool)
    ensures Outcome(fs, ok) == Untarred(fs0, archive, dst)
  {
    fs := fs0;
    if archive == [] {
      return fs, false;
    }
    var hdr := archive[0];
    var target := Decide(fs, hdr, dst);
    if target.Refuse? {
      return fs, false;
    }
    fs := target.fs;
    var name := target.name;
    var i := 0;
    ghost var goal := Untarred(fs0, archive, dst);
    while true
      invariant 0 <= i < |archive| && hdr == archive[i]
      invariant goal == var step := Extract(fs, hdr, name);
                        if step.ok then Unpack(step.fs, archive[i + 1..], target.root, target.rootReplace) else step
      decreases |archive| - i
    {
      match hdr.kind {
        case Regular =>
          fs := RemoveAll(fs, name);
          var created := Create(fs, name, hdr.data);
          if !created.ok {
            return created.fs, false;
          }
          fs := created.fs;
        case Directory =>
          var made := MkdirAll(fs, name);
          if !made.ok {
            return made.fs, false;
          }
          fs := made.fs;
        case Special =>
      }
      i := i + 1;
      if i == |archive| {
        return fs, true;
      }
      hdr := archive[i];
      name := PathOf(hdr, target.root, target.rootReplace);
      assert archive[i..][1..] == archive[i + 1..];
    }
  }
}
