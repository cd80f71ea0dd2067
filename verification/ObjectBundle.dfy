/**
 Object trees, their manifests and their bundles (backup-restore-control/backup_restore_control.py).
 A tree is a set of files named by their path below the root; empty directories leave no trace in
 either form.
 */
module ObjectBundle {
  import opened Bytes
  import opened Text

  type Path = seq<string>
  type Content = seq<byte>
  type Tree = map<Path, Content>

  datatype Entry = Entry(path: string, bytes: nat, sha256: string)
  datatype Member = Member(name: string, isFile: bool, content: Content)

  // ---- names ----

  /** What a file system allows as one component. */
  predicate Component(s: string)
  {
    s != "" && s != "." && s != ".." && '/' !in s
  }

  /** relative_to(root).as_posix() */
  function Join(path: Path): string
  {
    if path == [] then ""
    else if |path| == 1 then path[0]
    else path[0] + "/" + Join(path[1..])
  }

  /** Path(name).parts for a relative name: empty and "." components vanish. */
  function Parts(s: string): Path
    decreases |s|
  {
    var i := FirstSlash(s);
    var head := s[..i];
    var rest := if i < |s| then Parts(s[i + 1..]) else [];
    if head == "" || head == "." then rest else [head] + rest
  }

  /** Files at distinct places: no file is a directory on another file's path. */
  predicate Layout(t: Tree)
  {
    && (forall p :: p in t ==> p != [] && forall i :: 0 <= i < |p| ==> Component(p[i]))
    && (forall p, q :: p in t && q in t && p <= q ==> p == q)
  }

  predicate Backslash(path: Path)
  {
    exists i :: 0 <= i < |path| && '\\' in path[i]
  }

  // ---- order ----

  /** Lexicographic order: strings by character, paths by component. */
  ghost predicate Before<T(!new)>(le: (T, T) -> bool, a: seq<T>, b: seq<T>)
  {
    a == [] || (b != [] && if a[0] == b[0] then Before(le, a[1..], b[1..]) else le(a[0], b[0]))
  }

  ghost predicate Order<T(!new)>(le: (T, T) -> bool)
  {
    && (forall a, b :: le(a, b) || le(b, a))
    && (forall a, b :: le(a, b) && le(b, a) ==> a == b)
    && (forall a, b, c :: le(a, b) && le(b, c) ==> le(a, c))
  }

  lemma {:induction false} BeforeTotal<T(!new)>(le: (T, T) -> bool, a: seq<T>, b: seq<T>)
    requires Order(le)
    ensures Before(le, a, b) || Before(le, b, a)
    ensures Before(le, a, b) && Before(le, b, a) ==> a == b
  {
    if a != [] && b != [] && a[0] == b[0] {
      BeforeTotal(le, a[1..], b[1..]);
      assert a == [a[0]] + a[1..] && b == [b[0]] + b[1..];
    }
  }

  lemma {:induction false} BeforeTransitive<T(!new)>(le: (T, T) -> bool, a: seq<T>, b: seq<T>, c: seq<T>)
    requires Order(le) && Before(le, a, b) && Before(le, b, c)
    ensures Before(le, a, c)
  {
    if a != [] && a[0] == b[0] == c[0] { BeforeTransitive(le, a[1..], b[1..], c[1..]); }
  }

  ghost predicate CharLe(a: char, b: char)
  {
    a <= b
  }

  ghost predicate StringLe(a: string, b: string)
  {
    Before(CharLe, a, b)
  }

  ghost predicate PathLe(a: Path, b: Path)
  {
    Before(StringLe, a, b)
  }

  lemma StringOrder()
    ensures Order(StringLe)
  {
    forall a: string, b: string { BeforeTotal(CharLe, a, b); }
    forall a: string, b: string, c: string | StringLe(a, b) && StringLe(b, c)
      ensures StringLe(a, c)
    {
      BeforeTransitive(CharLe, a, b, c);
    }
  }

  lemma PathOrder()
    ensures Order(PathLe)
  {
    StringOrder();
    forall a: Path, b: Path { BeforeTotal(StringLe, a, b); }
    forall a: Path, b: Path, c: Path | PathLe(a, b) && PathLe(b, c)
      ensures PathLe(a, c)
    {
      BeforeTransitive(StringLe, a, b, c);
    }
  }

  lemma PathFacts(a: Path, b: Path, c: Path)
    ensures PathLe(a, a) && (PathLe(a, b) || PathLe(b, a)) && (PathLe(a, b) && PathLe(b, c) ==> PathLe(a, c))
  {
    PathOrder();
    assert PathLe(a, a) || PathLe(a, a);
  }

  /** sorted(root.rglob("*")), files only. */
  ghost predicate Sorted(paths: seq<Path>)
  {
    forall i, j :: 0 <= i < j < |paths| ==> paths[i] != paths[j] && PathLe(paths[i], paths[j])
  }

  ghost predicate Lists(paths: seq<Path>, t: Tree)
  {
    Sorted(paths) && forall p :: p in paths <==> p in t
  }

  /** A tree has one listing. */
  lemma {:induction false} OneListing(a: seq<Path>, b: seq<Path>)
    requires Sorted(a) && Sorted(b) && forall p :: p in a <==> p in b
    ensures a == b
  {
    PathOrder();
    assert a == [] || a[0] in a;
    assert b == [] || b[0] in b;
    if a != [] {
      var i :| 0 <= i < |b| && b[i] == a[0];
      var j :| 0 <= j < |a| && a[j] == b[0];
      assert a[0] == b[0];
      forall p
        ensures p in a[1..] <==> p in b[1..]
      {
        if p in a[1..] { assert p in a && p in b && p != b[0]; }
        if p in b[1..] { assert p in b && p in a && p != a[0]; }
      }
      OneListing(a[1..], b[1..]);
      assert a == [a[0]] + a[1..] && b == [b[0]] + b[1..];
    }
  }

  /** ... and every tree has one. */
  lemma {:induction false} ListingOf(files: set<Path>) returns (paths: seq<Path>)
    ensures Sorted(paths) && forall p :: p in paths <==> p in files
    decreases |files|
  {
    if files == {} {
      paths := [];
    } else {
      var least := Least(files);
      var rest := ListingOf(files - {least});
      paths := [least] + rest;
      forall i, j | 0 <= i < j < |paths|
        ensures paths[i] != paths[j] && PathLe(paths[i], paths[j])
      {
        assert paths[j] in rest;
      }
    }
  }

  lemma {:induction false} Least(files: set<Path>) returns (least: Path)
    requires files != {}
    ensures least in files && forall p :: p in files ==> PathLe(least, p)
    decreases |files|
  {
    var first :| first in files;
    var rest := files - {first};
    least := first;
    if rest == {} {
      PathFacts(first, first, first);
    } else {
      var other := Least(rest);
      PathFacts(first, other, first);
      if PathLe(other, first) { least := other; }
      forall p | p in files
        ensures PathLe(least, p)
      {
        PathFacts(first, other, p);
      }
    }
    assert forall p :: p in files ==> p == first || p in rest;
  }

  // ---- the code ----

  function ManifestOf(t: Tree, paths: seq<Path>, sha: Content -> string): (m: seq<Entry>)
    requires forall p :: p in paths ==> p in t
    ensures |m| == |paths|
    ensures forall i :: 0 <= i < |paths| ==> m[i] == Entry(Join(paths[i]), |t[paths[i]]|, sha(t[paths[i]]))
  {
    if paths == [] then [] else
      [Entry(Join(paths[0]), |t[paths[0]]|, sha(t[paths[0]]))] + ManifestOf(t, paths[1..], sha)
  }

  /** tree_manifest: one entry per file, in sorted order. */
  method TreeManifest(t: Tree, listing: seq<Path>, sha: Content -> string) returns (files: seq<Entry>)
    requires Lists(listing, t)
    ensures files == ManifestOf(t, listing, sha) && |files| == |listing|
    ensures forall i :: 0 <= i < |listing| ==>
      files[i] == Entry(Join(listing[i]), |t[listing[i]]|, sha(t[listing[i]]))
  {
    files := [];
    for i := 0 to |listing|
      invariant |files| == i
      invariant forall j :: 0 <= j < i ==>
        files[j] == Entry(Join(listing[j]), |t[listing[j]]|, sha(t[listing[j]]))
    {
      files := files + [Entry(Join(listing[i]), |t[listing[i]]|, sha(t[listing[i]]))];
    }
  }

  function BundleOf(t: Tree, paths: seq<Path>): (members: seq<Member>)
    requires forall p :: p in paths ==> p in t
    ensures |members| == |paths|
    ensures forall i :: 0 <= i < |paths| ==> members[i] == Member(Join(paths[i]), true, t[paths[i]])
  {
    if paths == [] then [] else
      [Member(Join(paths[0]), true, t[paths[0]])] + BundleOf(t, paths[1..])
  }

  /** create_object_bundle: one plain member per file, in sorted order. */
  method CreateObjectBundle(t: Tree, listing: seq<Path>) returns (members: seq<Member>)
    requires Lists(listing, t)
    ensures members == BundleOf(t, listing)
  {
    members := [];
    for i := 0 to |listing|
      invariant |members| == i
      invariant forall j :: 0 <= j < i ==> members[j] == Member(Join(listing[j]), true, t[listing[j]])
    {
      members := members + [Member(Join(listing[i]), true, t[listing[i]])];
    }
  }

  /** The member checks of extraction. */
  predicate SafeName(m: Member, seen: set<string>)
  {
    m.isFile && m.name != "" && m.name[0] != '/' && m.name[0] != '\\' && '\\' !in m.name
    && ".." !in Parts(m.name) && m.name !in seen
  }

  /** Exclusive creation below directories made on the way: no file may be there, above it or below it. */
  predicate Free(t: Tree, path: Path)
  {
    path != [] && forall q :: q in t ==> !(q <= path) && !(path <= q)
  }

  function ExtractFrom(t: Tree, seen: set<string>, members: seq<Member>): Option<Tree>
    decreases |members|
  {
    if members == [] then Some(t)
    else
      var m := members[0];
      var path := Parts(m.name);
      if !SafeName(m, seen) || !Free(t, path) then None
      else ExtractFrom(t[path := m.content], seen + {m.name}, members[1..])
  }

  /** extract_object_bundle; None stands for the exception. */
  method ExtractObjectBundle(members: seq<Member>) returns (result: Option<Tree>)
    ensures result == ExtractFrom(map[], {}, members)
  {
    var t: Tree, seen: set<string> := map[], {};
    for i := 0 to |members|
      invariant ExtractFrom(t, seen, members[i..]) == ExtractFrom(map[], {}, members)
    {
      assert members[i..][1..] == members[i + 1..];
      var m := members[i];
      var path := Parts(m.name);
      if !SafeName(m, seen) || !Free(t, path) { return None; }
      seen := seen + {m.name};
      t := t[path := m.content];
    }
    return Some(t);
  }

  // ---- names survive ----

  lemma {:induction false} SlashInside(a: string, b: string)
    requires '/' !in a
    ensures FirstSlash(a) == |a| && FirstSlash(a + "/" + b) == |a|
  {
    var s := a + "/" + b;
    if a != "" {
      assert s[0] == a[0] && s[1..] == a[1..] + "/" + b;
      SlashInside(a[1..], b);
    }
  }

  /** One component and the rest of a name. */
  lemma FirstPart(c: string, rest: string)
    requires Component(c)
    ensures Parts(c + "/" + rest) == [c] + Parts(rest) && Parts(c) == [c]
  {
    SlashInside(c, rest);
    var s := c + "/" + rest;
    assert s[..|c|] == c && s[|c| + 1..] == rest && c[..|c|] == c;
  }

  lemma BackslashFirst(c: string, rest: Path)
    ensures Backslash([c] + rest) <==> '\\' in c || Backslash(rest)
  {
    var path := [c] + rest;
    if Backslash(rest) {
      var i :| 0 <= i < |rest| && '\\' in rest[i];
      assert path[i + 1] == rest[i];
    }
    if '\\' in c { assert path[0] == c; }
  }

  /** A path survives its name, and shows its backslashes there. */
  lemma {:induction false} PartsOfJoin(path: Path)
    requires path != [] && forall i :: 0 <= i < |path| ==> Component(path[i])
    ensures Parts(Join(path)) == path && Join(path) != "" && Join(path)[0] != '/'
    ensures '\\' in Join(path) <==> Backslash(path)
  {
    var c, rest := path[0], path[1..];
    assert path == [c] + rest;
    BackslashFirst(c, rest);
    FirstPart(c, Join(rest));
    if rest != [] { PartsOfJoin(rest); }
  }

  // ---- honest trees come back ----

  /** The part of a tree that the first paths of its listing name. */
  ghost function Restrict(t: Tree, paths: seq<Path>): Tree
  {
    map p | p in t && p in paths :: t[p]
  }

  ghost function Names(paths: seq<Path>): set<string>
  {
    set p | p in paths :: Join(p)
  }

  /** Extraction meets the member of an honest file. */
  lemma ExtractHonest(before: Tree, seen: set<string>, p: Path, content: Content, rest: seq<Member>)
    requires p != [] && forall i :: 0 <= i < |p| ==> Component(p[i])
    requires Join(p) !in seen && Free(before, p)
    ensures ExtractFrom(before, seen, [Member(Join(p), true, content)] + rest)
      == if Backslash(p) then None else ExtractFrom(before[p := content], seen + {Join(p)}, rest)
  {
    PartsOfJoin(p);
    var m := Member(Join(p), true, content);
    assert ([m] + rest)[1..] == rest;
    assert m.name[0] in m.name;
  }

  lemma NewName(t: Tree, done: seq<Path>, p: Path)
    requires Layout(t) && p in t && p !in done && forall q :: q in done ==> q in t
    ensures Join(p) !in Names(done)
    ensures Free(Restrict(t, done), p)
  {
    PartsOfJoin(p);
    forall q | q in done
      ensures Join(q) != Join(p)
    {
      PartsOfJoin(q);
    }
  }

  lemma NextIsNew(t: Tree, done: seq<Path>, rest: seq<Path>)
    requires Lists(done + rest, t) && rest != []
    ensures rest[0] in t && rest[0] !in done && forall q :: q in done ==> q in t
    ensures done + [rest[0]] + rest[1..] == done + rest
  {
    var all := done + rest;
    assert all[|done|] == rest[0];
    forall j | 0 <= j < |done|
      ensures done[j] != rest[0]
    {
      assert all[j] == done[j];
    }
    forall q | q in done
      ensures q in t
    {
      assert q in all;
    }
  }

  lemma OneMoreDone(t: Tree, done: seq<Path>, p: Path)
    requires p in t
    ensures Restrict(t, done + [p]) == Restrict(t, done)[p := t[p]]
    ensures Names(done + [p]) == Names(done) + {Join(p)}
  {
  }

  lemma {:induction false} ExtractRest(t: Tree, done: seq<Path>, rest: seq<Path>)
    requires Layout(t) && Lists(done + rest, t)
    ensures ExtractFrom(Restrict(t, done), Names(done), BundleOf(t, rest))
      == if exists p :: p in rest && Backslash(p) then None else Some(t)
    decreases |rest|
  {
    if rest == [] {
      assert done + rest == done;
      assert Restrict(t, done) == t;
    } else {
      var p := rest[0];
      NextIsNew(t, done, rest);
      NewName(t, done, p);
      ExtractHonest(Restrict(t, done), Names(done), p, t[p], BundleOf(t, rest[1..]));
      OneMoreDone(t, done, p);
      ExtractRest(t, done + [p], rest[1..]);
      FirstOrLater(rest);
    }
  }

  lemma FirstOrLater(rest: seq<Path>)
    requires rest != []
    ensures (exists p :: p in rest && Backslash(p))
       <==> Backslash(rest[0]) || exists p :: p in rest[1..] && Backslash(p)
  {
  }

  /** Bundling and extracting gives the tree back exactly when no name in it has a backslash. */
  lemma BundleRestores(t: Tree, paths: seq<Path>)
    requires Layout(t) && Lists(paths, t)
    ensures ExtractFrom(map[], {}, BundleOf(t, paths))
      == if exists p :: p in t && Backslash(p) then None else Some(t)
  {
    assert [] + paths == paths;
    ExtractRest(t, [], paths);
    assert Restrict(t, []) == map[] && Names([]) == {};
  }

  // ---- and no bundle writes outside the root ----

  lemma {:induction false} PartsAreNames(s: string, c: string)
    requires c in Parts(s)
    ensures c != "" && c != "." && '/' !in c
    decreases |s|
  {
    var i := FirstSlash(s);
    if i < |s| && c in Parts(s[i + 1..]) { PartsAreNames(s[i + 1..], c); }
  }

  /** Whatever the bundle holds, what extraction accepts is a proper tree below the root. */
  lemma {:induction false} ExtractedIsLayout(t: Tree, seen: set<string>, members: seq<Member>)
    requires Layout(t) && ExtractFrom(t, seen, members).Some?
    ensures Layout(ExtractFrom(t, seen, members).value)
    decreases |members|
  {
    if members != [] {
      var m := members[0];
      var path := Parts(m.name);
      forall i | 0 <= i < |path|
        ensures Component(path[i])
      {
        PartsAreNames(m.name, path[i]);
      }
      ExtractedIsLayout(t[path := m.content], seen + {m.name}, members[1..]);
    }
  }
}
