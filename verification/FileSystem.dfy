/** Paths, names and a file system of directories and regular files. */
module FileSystem {
  import opened Bytes
  import opened Text

  /** An absolute, clean path, one component at a time. */
  type Path = seq<string>

  // ---- names in an archive and the paths they stand for ----

  /** strings.Split(s, "/"). */
  function Components(s: string): seq<string>
    decreases |s|
  {
    match SplitFirst(s, '/')
    case None => [s]
    case Some((a, b)) => [a] + Components(b)
  }

  /** filepath.Clean on a rooted path: "" and "." go, ".." takes the component before it along. */
  function Resolve(base: Path, components: seq<string>): Path
    decreases |components|
  {
    if components == [] then base
    else
      var c, rest := components[0], components[1..];
      if c == "" || c == "." then Resolve(base, rest)
      else if c == ".." then Resolve(if base == [] then [] else base[..|base| - 1], rest)
      else Resolve(base + [c], rest)
  }

  /** filepath.Join(base, name). */
  function Join(base: Path, name: string): Path {
    Resolve(base, Components(name))
  }

  /** A file name as a directory listing yields it. */
  predicate Plain(name: string) {
    name != "" && name != "." && name != ".." && '/' !in name
  }

  predicate AllPlain(path: Path) {
    forall c :: c in path ==> Plain(c)
  }

  /** Components separated by "/". */
  function Render(path: Path): string {
    if path == [] then "" else if |path| == 1 then path[0] else path[0] + "/" + Render(path[1..])
  }

  /** strings.TrimPrefix. */
  function TrimPrefix(s: string, prefix: string): string {
    if prefix <= s then s[|prefix|..] else s
  }

  lemma OneComponent(c: string)
    requires '/' !in c
    ensures Components(c) == [c]
  {
    hide SplitFirst;
  }

  lemma FirstComponent(c: string, rest: string)
    requires '/' !in c
    ensures Components(c + "/" + rest) == [c] + Components(rest)
  {
    hide SplitFirst;
    SplitJoin(c, rest, '/');
    assert c + "/" + rest == c + ['/'] + rest;
  }

  lemma {:induction false} ComponentsRender(path: Path)
    requires AllPlain(path) && path != []
    ensures Components(Render(path)) == path
  {
    hide Components;
    assert Plain(path[0]);
    if |path| == 1 {
      OneComponent(path[0]);
      assert path == [path[0]];
    } else {
      assert AllPlain(path[1..]);
      ComponentsRender(path[1..]);
      FirstComponent(path[0], Render(path[1..]));
      assert path == [path[0]] + path[1..];
    }
  }

  lemma {:induction false} ResolvePlain(base: Path, path: Path)
    requires AllPlain(path)
    ensures Resolve(base, path) == base + path
    decreases |path|
  {
    if path == [] {
      assert base + path == base;
    } else {
      assert Plain(path[0]);
      ResolvePlain(base + [path[0]], path[1..]);
      assert base + path == (base + [path[0]]) + path[1..];
    }
  }

  lemma JoinRender(base: Path, path: Path)
    requires AllPlain(path)
    ensures Join(base, Render(path)) == base + path
    ensures Join(base, "/" + Render(path)) == base + path
  {
    var s := "/" + Render(path);
    SplitJoin("", Render(path), '/');
    assert s == "" + ['/'] + Render(path);
    assert Components(s) == [""] + Components(Render(path));
    assert Resolve(base, Components(s)) == Resolve(base, Components(Render(path)));
    if path == [] {
      assert Components("") == [""];
      assert Resolve(base, [""]) == Resolve(base, [""][1..]);
      assert base + path == base;
    } else {
      ComponentsRender(path);
      ResolvePlain(base, path);
    }
  }

  /** Cutting the archive's root name off a name below it leaves the rest of the path. */
  lemma JoinTrimmed(root: Path, base: string, path: Path)
    requires Plain(base) && AllPlain(path)
    ensures Join(root, TrimPrefix(Render([base] + path), base)) == root + path
  {
    var s := Render([base] + path);
    JoinRender(root, path);
    assert ([base] + path)[1..] == path;
    if path == [] {
      assert s == base && s[|base|..] == "";
      assert Render(path) == "";
    } else {
      assert s == base + "/" + Render(path) == base + ("/" + Render(path));
      assert s[|base|..] == "/" + Render(path);
    }
  }

  /** A component of a clean path. */
  predicate Clean(c: string) {
    c != "" && c != "." && c != ".."
  }

  /** filepath.Join gives a clean path, whatever the name. */
  lemma {:induction false} ResolveClean(base: Path, components: seq<string>)
    requires forall c :: c in base ==> Clean(c)
    ensures forall c :: c in Resolve(base, components) ==> Clean(c)
    decreases |components|
  {
    if components != [] {
      var c, rest := components[0], components[1..];
      if c == "" || c == "." {
        ResolveClean(base, rest);
      } else if c == ".." {
        ResolveClean(if base == [] then [] else base[..|base| - 1], rest);
      } else {
        ResolveClean(base + [c], rest);
      }
    }
  }

  /** "." stands for the place where it is, ".." for the directory above it, and a name followed by ".." for
      nothing. */
  lemma ResolveDots(base: Path, c: string, rest: seq<string>)
    ensures Resolve(base, ["."] + rest) == Resolve(base, rest)
    ensures Resolve(base, [".."] + rest) == Resolve(if base == [] then [] else base[..|base| - 1], rest)
    ensures Clean(c) ==> Resolve(base, [c, ".."] + rest) == Resolve(base, rest)
  {
    assert (["."] + rest)[1..] == rest && ([".."] + rest)[1..] == rest;
    var both := [c, ".."] + rest;
    assert both[1..] == [".."] + rest;
    assert (base + [c])[..|base|] == base;
  }

  // ---- the file system ----

  datatype Node = Dir | File(data: seq<byte>)

  type FS = map<Path, Node>

  function Parent(p: Path): Path {
    if p == [] then [] else p[..|p| - 1]
  }

  predicate IsDir(fs: FS, p: Path) {
    p in fs && fs[p].Dir?
  }

  predicate IsFile(fs: FS, p: Path) {
    p in fs && fs[p].File?
  }

  /** A root directory, and every node in a directory. */
  predicate WellFormed(fs: FS) {
    IsDir(fs, []) && forall p :: p in fs && p != [] ==> IsDir(fs, Parent(p))
  }

  datatype Status = Found(node: Node) | NotExist | NotDir

  predicate FileAbove(fs: FS, p: Path) {
    exists i :: 0 <= i < |p| && IsFile(fs, p[..i])
  }

  /** os.Stat. */
  function Stat(fs: FS, p: Path): Status {
    if p in fs then Found(fs[p]) else if FileAbove(fs, p) then NotDir else NotExist
  }

  datatype Outcome = Outcome(fs: FS, ok: bool)

  /** os.RemoveAll; the root directory itself stays. */
  function RemoveAll(fs: FS, p: Path): FS {
    map q | q in fs && (!(p <= q) || q == []) :: fs[q]
  }

  /** os.OpenFile(p, O_CREATE|O_RDWR|O_TRUNC), then the data. */
  function Create(fs: FS, p: Path, data: seq<byte>): Outcome {
    if p == [] || IsDir(fs, p) || !IsDir(fs, Parent(p)) then Outcome(fs, false)
    else Outcome(fs[p := File(data)], true)
  }

  /** os.MkdirAll: every prefix becomes a directory, unless one of them is a file. */
  function MkdirAll(fs: FS, p: Path): Outcome {
    if IsFile(fs, p) || FileAbove(fs, p) then Outcome(fs, false)
    else Outcome(fs + (map q | q in Prefixes(p) :: Dir), true)
  }

  function Prefixes(p: Path): set<Path> {
    set i | 0 <= i <= |p| :: p[..i]
  }

  /** In a well-formed file system everything above a node is a directory. */
  lemma {:induction false} AboveIsDir(fs: FS, p: Path, i: nat)
    requires WellFormed(fs) && p in fs && i < |p|
    ensures IsDir(fs, p[..i])
    decreases |p|
  {
    if i < |p| - 1 {
      AboveIsDir(fs, Parent(p), i);
      assert Parent(p)[..i] == p[..i];
    }
  }

  /** A place for a node: a path whose parent is a directory. */
  predicate Place(fs: FS, p: Path) {
    WellFormed(fs) && p != [] && IsDir(fs, Parent(p))
  }

  lemma PlaceAbove(fs: FS, p: Path, i: nat)
    requires Place(fs, p) && i < |p|
    ensures IsDir(fs, p[..i])
  {
    var par := Parent(p);
    assert p[..i] == par[..i];
    if i < |par| {
      AboveIsDir(fs, par, i);
    } else {
      assert par[..i] == par;
    }
  }

  /** Directories that are there already make no difference. */
  lemma MadeOnce(fs: FS, p: Path, made: set<Path>)
    requires p in made && forall q :: q in made && q != p ==> IsDir(fs, q)
    ensures fs + (map q | q in made :: Dir) == fs[p := Dir]
  {
    var d := map q | q in made :: Dir;
    forall q | q in fs + d
      ensures q in fs[p := Dir] && (fs + d)[q] == fs[p := Dir][q]
    {
    }
  }

  lemma OthersAreAbove(p: Path, q: Path)
    requires q in Prefixes(p) && q != p
    ensures |q| < |p| && q == p[..|q|]
  {
  }

  lemma MadeWellFormed(fs: FS, p: Path)
    requires Place(fs, p) && !IsFile(fs, p)
    ensures WellFormed(fs[p := Dir])
  {
  }

  /** With the parent in place MkdirAll makes at most the one directory. */
  lemma MkdirAtPlace(fs: FS, p: Path)
    requires Place(fs, p)
    ensures MkdirAll(fs, p).ok <==> !IsFile(fs, p)
    ensures MkdirAll(fs, p).ok ==> MkdirAll(fs, p).fs == fs[p := Dir] && WellFormed(fs[p := Dir])
  {
    NoFileAbove(fs, p);
    hide Place, FileAbove, WellFormed, Parent;
    if !IsFile(fs, p) {
      assert p[..|p|] == p && p in Prefixes(p);
      forall q | q in Prefixes(p) && q != p
        ensures IsDir(fs, q)
      {
        OthersAreAbove(p, q);
        PlaceAbove(fs, p, |q|);
      }
      hide Prefixes, IsDir;
      MadeOnce(fs, p, Prefixes(p));
      MadeWellFormed(fs, p);
    }
  }

  lemma NoFileAbove(fs: FS, p: Path)
    requires Place(fs, p)
    ensures !FileAbove(fs, p)
  {
    hide Place;
    forall i | 0 <= i < |p|
      ensures !IsFile(fs, p[..i])
    {
      PlaceAbove(fs, p, i);
    }
  }

  /** What is not removed keeps its directory, also once a file is put where the removed node was. */
  lemma StaysInPlace(fs: FS, p: Path, data: seq<byte>, q: Path)
    requires WellFormed(fs) && p != [] && q in fs && q != [] && !(p <= q)
    ensures IsDir(RemoveAll(fs, p)[p := File(data)], Parent(q))
  {
    assert IsDir(fs, Parent(q));
    assert Parent(q) <= q;
  }

  lemma ParentKept(fs: FS, p: Path)
    requires Place(fs, p)
    ensures IsDir(RemoveAll(fs, p), Parent(p)) && IsDir(RemoveAll(fs, p), []) && p !in RemoveAll(fs, p)
  {
    assert |Parent(p)| < |p|;
  }

  lemma ReplacedWellFormed(fs: FS, p: Path, data: seq<byte>)
    requires Place(fs, p)
    ensures WellFormed(RemoveAll(fs, p)[p := File(data)])
  {
    ParentKept(fs, p);
    var t := RemoveAll(fs, p)[p := File(data)];
    forall q | q in t && q != []
      ensures IsDir(t, Parent(q))
    {
      if q != p {
        assert q in RemoveAll(fs, p);
        assert q in fs && !(p <= q);
        hide *;
        StaysInPlace(fs, p, data, q);
      } else {
        hide RemoveAll;
        assert Parent(p) != p;
      }
    }
  }

  /** With the parent in place a file replaces whatever was there, and everything below it. */
  lemma CreateAtPlace(fs: FS, p: Path, data: seq<byte>)
    requires Place(fs, p)
    ensures Create(RemoveAll(fs, p), p, data) == Outcome(RemoveAll(fs, p)[p := File(data)], true)
    ensures WellFormed(RemoveAll(fs, p)[p := File(data)])
  {
    ParentKept(fs, p);
    ReplacedWellFormed(fs, p, data);
  }
}
