/** The payload as one tar stream: a tree laid out as entries, parents first,
    and the tree those entries unpack to. */
module PayloadTar {
  import opened Options
  import opened Ordering
  import opened FileTree
  import opened Text
  import Payloads

  datatype Entry = Entry(name: string, isDir: bool, data: string, exec: bool, uid: int, gid: int)

  const CANDIDATE := 1000

  /** The header of one node: named below `payload/`, a directory's name ending in
      a slash, owned by the candidate. */
  function TarEntry(rel: Path, node: Node): Entry {
    var name := "payload/" + Join(rel, "/");
    var slashed := if node.Dir? && !Payloads.EndsWith(name, "/") then name + "/" else name;
    match node
    case Dir => Entry(slashed, true, "", true, CANDIDATE, CANDIDATE)
    case File(data, exec) => Entry(slashed, false, data, exec, CANDIDATE, CANDIDATE)
  }

  ghost function TarOf(t: Tree, dir: Path): (entries: seq<Entry>)
    requires At(t, dir).Some?
    ensures |entries| == |Walk(t, dir)|
  {
    Payloads.WalkIsPresent(t, dir);
    seq(|Walk(t, dir)|, k requires 0 <= k < |Walk(t, dir)| => TarEntry(Walk(t, dir)[k], At(t, dir + Walk(t, dir)[k]).value))
  }

  lemma TarNext(t: Tree, dir: Path, n: nat)
    requires At(t, dir).Some? && n < |Walk(t, dir)| && At(t, dir + Walk(t, dir)[n]).Some?
    ensures TarOf(t, dir)[..n + 1]
         == TarOf(t, dir)[..n] + [TarEntry(Walk(t, dir)[n], At(t, dir + Walk(t, dir)[n]).value)]
  {
    hide TarEntry;
  }

  /** Writes every node below `dir`; fails when there is none. */
  method WriteTar(t: Tree, dir: Path) returns (entries: Option<seq<Entry>>)
    ensures entries == if At(t, dir).None? then None else Some(TarOf(t, dir))
  {
    if At(t, dir).None? {
      return None;
    }
    var rels := WalkDir(t, dir);
    Payloads.WalkIsPresent(t, dir);
    hide TarOf, TarEntry;
    var out := [];
    for n := 0 to |rels|
      invariant out == TarOf(t, dir)[..n]
    {
      TarNext(t, dir, n);
      out := out + [TarEntry(rels[n], At(t, dir + rels[n]).value)];
    }
    assert TarOf(t, dir)[..|rels|] == TarOf(t, dir);
    entries := Some(out);
  }

  // -------------------------------------------------------------- unpacking

  /** The path an entry name denotes; a final slash does not count. */
  function PathOf(name: string): Path {
    var parts := Split(name, '/');
    if parts[|parts| - 1] == "" then parts[..|parts| - 1] else parts
  }

  /** Unpacks one entry, making missing directories. */
  function Unpack(t: Tree, e: Entry): Option<Tree> {
    var p := PathOf(e.name);
    if e.isDir then MkdirAll(t, p)
    else if p == [] || IsDir(t, p) then None
    else
      var up := MkdirAll(t, p[..|p| - 1]);
      if up.None? then None else Some(up.value[p := File(e.data, e.exec)])
  }

  function UnpackAll(t: Tree, entries: seq<Entry>): Option<Tree> {
    if entries == [] then Some(t)
    else
      var before := UnpackAll(t, entries[..|entries| - 1]);
      if before.None? then None else Unpack(before.value, entries[|entries| - 1])
  }

  // ------------------------------------------------------------- the names

  lemma PlainTail(root: Path, rel: Path)
    requires PlainPath(root + rel)
    ensures PlainPath(rel)
  {
    forall k | 0 <= k < |rel| ensures IsFileName(rel[k]) {
      assert (root + rel)[|root| + k] == rel[k];
    }
  }

  lemma {:induction false} JoinEnds(parts: seq<string>)
    requires parts != [] && PlainPath(parts)
    ensures Join(parts, "/") != "" && !Payloads.EndsWith(Join(parts, "/"), "/")
    decreases |parts|
  {
    var s := Join(parts, "/");
    if |parts| == 1 {
      assert s[|s| - 1] in s;
    } else {
      JoinEnds(parts[1..]);
      assert IsFileName(parts[0]);
      var tail := Join(parts[1..], "/");
      assert s[|s| - 1] == tail[|tail| - 1];
      assert tail[|tail| - 1..] == [tail[|tail| - 1]];
    }
    assert s[|s| - 1..] == [s[|s| - 1]];
  }

  /** The name of an entry denotes the node's own path below `payload`. */
  lemma NameDenotesPath(rel: Path, node: Node)
    requires PlainPath(rel) && (rel == [] ==> node.Dir?)
    ensures PathOf(TarEntry(rel, node).name) == ["payload"] + rel
    ensures Payloads.EndsWith(TarEntry(rel, node).name, "/") == node.Dir?
  {
    if rel == [] {
      RootName();
      assert ["payload"] + rel == ["payload"];
    } else {
      var full := ["payload"] + rel;
      FullName(rel);
      hide PathOf, Payloads.EndsWith, Join;
      if node.Dir? {
        TrailingSlash(full, Join(full, "/"));
      }
    }
  }

  lemma RootName()
    ensures PathOf("payload/" + Join([], "/")) == ["payload"] && Payloads.EndsWith("payload/" + Join([], "/"), "/")
  {
    assert '/' !in "payload";
    SplitUpTo("payload", "", '/');
    assert "payload/" + "" == "payload" + ['/'] + "";
    assert Split("", '/') == [""];
    assert (["payload"] + [""])[..1] == ["payload"];
    assert ("payload/" + "")[7..] == "/";
  }

  lemma FullName(rel: Path)
    requires PlainPath(rel) && rel != []
    ensures var full := ["payload"] + rel;
      && "payload/" + Join(rel, "/") == Join(full, "/")
      && (forall k :: 0 <= k < |full| ==> '/' !in full[k])
      && PathOf(Join(full, "/")) == full
      && !Payloads.EndsWith(Join(full, "/"), "/")
  {
    var full := ["payload"] + rel;
    assert IsFileName("payload") by { assert '/' !in "payload"; }
    assert PlainPath(full);
    JoinAppend(["payload"], rel, "/");
    assert "payload/" == "payload" + "/";
    JoinEnds(full);
    SplitJoin(full, '/');
    assert full[|full| - 1] != "";
  }

  lemma TrailingSlash(full: Path, j: string)
    requires full != [] && j == Join(full, "/") && (forall k :: 0 <= k < |full| ==> '/' !in full[k])
    ensures PathOf(j + "/") == full && Payloads.EndsWith(j + "/", "/")
  {
    var more := full + [""];
    JoinAppend(full, [""], "/");
    assert Join(more, "/") == j + "/" + "";
    assert j + "/" + "" == j + "/";
    SplitJoin(more, '/');
    assert more[..|more| - 1] == full;
    assert (j + "/")[|j + "/"| - 1..] == "/";
  }

  // ------------------------------------------------------------ round trip

  /** What is unpacked once the relative paths `met` are. */
  function Unpacked(base: Tree, t: Tree, dir: Path, met: set<Path>, p: Path): Option<Node> {
    if p != [] && p[0] == "payload" then
      if p[1..] in met then At(t, dir + p[1..]) else None
    else At(base, p)
  }

  ghost predicate UnpackedSoFar(now: Tree, base: Tree, t: Tree, dir: Path, met: set<Path>) {
    forall p :: At(now, p) == Unpacked(base, t, dir, met, p)
  }

  lemma UnderPayload(rel: Path)
    ensures (["payload"] + rel)[0] == "payload" && (["payload"] + rel)[1..] == rel
  {
  }

  /** Directories above an entry have been unpacked. */
  lemma UnpackedAbove(now: Tree, base: Tree, t: Tree, dir: Path, met: set<Path>, r: Path, n: nat)
    requires UnpackedSoFar(now, base, t, dir, met)
    requires forall k :: 0 <= k < |r| ==> r[..k] in met && IsDir(t, dir + r[..k])
    requires n < |r| + 1
    ensures IsDir(now, (["payload"] + r)[..n])
  {
    var p := (["payload"] + r)[..n];
    assert At(now, p) == Unpacked(base, t, dir, met, p);
    if n > 0 {
      assert p == ["payload"] + r[..n - 1];
      UnderPayload(r[..n - 1]);
    }
  }

  lemma UnpackStep(now: Tree, base: Tree, t: Tree, dir: Path, met: set<Path>, r: Path)
    requires UnpackedSoFar(now, base, t, dir, met) && At(t, dir + r).Some? && r !in met && PlainPath(r)
    requires forall k :: 0 <= k < |r| ==> r[..k] in met && IsDir(t, dir + r[..k])
    requires r == [] ==> IsDir(t, dir)
    ensures var next := Unpack(now, TarEntry(r, At(t, dir + r).value));
      next.Some? && UnpackedSoFar(next.value, base, t, dir, met + {r})
  {
    var node, e, path := At(t, dir + r).value, TarEntry(r, At(t, dir + r).value), ["payload"] + r;
    assert r == [] ==> dir + r == dir;
    NameDenotesPath(r, node);
    UnderPayload(r);
    assert At(now, path) == Unpacked(base, t, dir, met, path);
    forall n | 0 < n <= |path| ensures !IsFile(now, path[..n]) {
      if n < |path| {
        UnpackedAbove(now, base, t, dir, met, r, n);
      } else {
        assert path[..n] == path;
      }
    }
    var next := Unpack(now, e);
    var up := path[..|path| - 1];
    assert up == path[..|r|];
    assert Passable(now, path);
    UpIsPassable(now, path, |r|);
    forall p ensures At(next.value, p) == Unpacked(base, t, dir, met + {r}, p) {
      UnpackAt(now, base, t, dir, met, r, p);
    }
  }

  lemma UpIsPassable(t: Tree, p: Path, n: nat)
    requires Passable(t, p) && n <= |p|
    ensures Passable(t, p[..n])
  {
    forall k | 0 < k <= |p[..n]| ensures !IsFile(t, p[..n][..k]) {
      assert p[..n][..k] == p[..k];
    }
  }

  lemma UnpackAt(now: Tree, base: Tree, t: Tree, dir: Path, met: set<Path>, r: Path, p: Path)
    requires UnpackedSoFar(now, base, t, dir, met) && At(t, dir + r).Some? && r !in met
    requires forall k :: 0 <= k < |r| ==> r[..k] in met && IsDir(t, dir + r[..k])
    requires PathOf(TarEntry(r, At(t, dir + r).value).name) == ["payload"] + r
    requires Unpack(now, TarEntry(r, At(t, dir + r).value)).Some?
    ensures At(Unpack(now, TarEntry(r, At(t, dir + r).value)).value, p) == Unpacked(base, t, dir, met + {r}, p)
  {
    hide *;
    UnpackedNode(now, r, At(t, dir + r).value, ["payload"] + r, p);
    UnpackedWith(base, t, dir, met, r, p);
    UnpackedHere(now, base, t, dir, met, r, p);
  }

  /** One path more is met. */
  lemma UnpackedWith(base: Tree, t: Tree, dir: Path, met: set<Path>, r: Path, p: Path)
    ensures Unpacked(base, t, dir, met + {r}, p)
         == if p == ["payload"] + r then At(t, dir + r) else Unpacked(base, t, dir, met, p)
  {
    UnderPayload(r);
    assert p != [] && p[0] == "payload" && p[1..] == r ==> p == ["payload"] + r;
  }

  /** What the place has at `p`, which is a directory above the entry. */
  lemma UnpackedHere(now: Tree, base: Tree, t: Tree, dir: Path, met: set<Path>, r: Path, p: Path)
    requires UnpackedSoFar(now, base, t, dir, met)
    requires forall k :: 0 <= k < |r| ==> r[..k] in met && IsDir(t, dir + r[..k])
    ensures At(now, p) == Unpacked(base, t, dir, met, p)
    ensures p != ["payload"] + r && OnTheWay(p, ["payload"] + r) ==> At(now, p) == Some(Dir)
  {
    var path := ["payload"] + r;
    assert At(now, p) == Unpacked(base, t, dir, met, p);
    if p != path && OnTheWay(p, path) {
      assert p == path[..|p|];
      UnpackedAbove(now, base, t, dir, met, r, |p|);
    }
  }

  /** What unpacking one entry does to every path. */
  lemma UnpackedNode(now: Tree, r: Path, node: Node, path: Path, p: Path)
    requires path != [] && PathOf(TarEntry(r, node).name) == path
    requires Unpack(now, TarEntry(r, node)).Some?
    ensures At(Unpack(now, TarEntry(r, node)).value, p)
         == if p == path then Some(node) else if OnTheWay(p, path) then Some(Dir) else At(now, p)
  {
    WayToNode(path, p);
    hide TarEntry, PathOf;
    assert TarEntry(r, node).isDir == node.Dir? && (node.File? ==>
      TarEntry(r, node).data == node.data && TarEntry(r, node).exec == node.exec) by { EntryFields(r, node); }
  }

  lemma EntryFields(r: Path, node: Node)
    ensures TarEntry(r, node).isDir == node.Dir?
    ensures node.File? ==> TarEntry(r, node).data == node.data && TarEntry(r, node).exec == node.exec
  {
    hide Join;
  }

  lemma WayToNode(path: Path, p: Path)
    requires path != []
    ensures OnTheWay(p, path) <==> p == path || OnTheWay(p, path[..|path| - 1])
  {
    var up := path[..|path| - 1];
    assert up <= path;
    assert path == up + [path[|path| - 1]];
  }

  /** The entries of a whole tree, unpacked over a place without a payload. */
  lemma {:induction false} UnpackUpTo(base: Tree, t: Tree, dir: Path, n: nat)
    requires WellFormed(t) && IsDir(t, dir) && Payloads.Unstaged(base) && n <= |Walk(t, dir)|
    ensures var r := UnpackAll(base, TarOf(t, dir)[..n]);
      r.Some? && UnpackedSoFar(r.value, base, t, dir, Payloads.Met(t, dir, n))
  {
    if n == 0 {
      assert Payloads.Met(t, dir, 0) == {};
      assert TarOf(t, dir)[..0] == [];
    } else {
      UnpackUpTo(base, t, dir, n - 1);
      UnpackNext(base, t, dir, n - 1);
    }
  }

  lemma UnpackNext(base: Tree, t: Tree, dir: Path, n: nat)
    requires WellFormed(t) && IsDir(t, dir) && n < |Walk(t, dir)|
    requires var r := UnpackAll(base, TarOf(t, dir)[..n]);
      r.Some? && UnpackedSoFar(r.value, base, t, dir, Payloads.Met(t, dir, n))
    ensures var r := UnpackAll(base, TarOf(t, dir)[..n + 1]);
      r.Some? && UnpackedSoFar(r.value, base, t, dir, Payloads.Met(t, dir, n + 1))
  {
    var r := Walk(t, dir)[n];
    Payloads.WalkIsPresent(t, dir);
    NextIsPlaced(t, dir, n);
    Payloads.MetNext(t, dir, n);
    TreePathIsPlain(t, dir + r);
    UnpackAllNext(base, t, dir, n);
    hide *;
    PlainTail(dir, r);
    UnpackStep(UnpackAll(base, TarOf(t, dir)[..n]).value, base, t, dir, Payloads.Met(t, dir, n), r);
  }

  lemma NextIsPlaced(t: Tree, dir: Path, n: nat)
    requires WellFormed(t) && IsDir(t, dir) && n < |Walk(t, dir)|
    ensures var met, r := Payloads.Met(t, dir, n), Walk(t, dir)[n];
      && At(t, dir + r).Some? && r !in met && (r == [] ==> IsDir(t, dir))
      && forall k :: 0 <= k < |r| ==> r[..k] in met && IsDir(t, dir + r[..k])
  {
    hide WellFormed;
    Payloads.WalkIsOrdered(t, dir, n);
  }

  lemma UnpackAllNext(base: Tree, t: Tree, dir: Path, n: nat)
    requires IsDir(t, dir) && n < |Walk(t, dir)|
    ensures |TarOf(t, dir)| == |Walk(t, dir)| && At(t, dir + Walk(t, dir)[n]).Some?
    ensures var r, now := Walk(t, dir)[n], UnpackAll(base, TarOf(t, dir)[..n]);
      now.Some? ==> UnpackAll(base, TarOf(t, dir)[..n + 1]) == Unpack(now.value, TarEntry(r, At(t, dir + r).value))
  {
    var entries, r := TarOf(t, dir), Walk(t, dir)[n];
    Payloads.WalkIsPresent(t, dir);
    hide Unpack, TarEntry;
    assert entries[..n + 1][..n] == entries[..n];
    assert entries[n] == TarEntry(r, At(t, dir + r).value);
  }

  /** Under `payload` the tree below `dir`, elsewhere what was there. */
  ghost predicate Rebuilt(now: Tree, base: Tree, t: Tree, dir: Path) {
    forall p :: At(now, p) == if p != [] && p[0] == "payload" then At(t, dir + p[1..]) else At(base, p)
  }

  /** The round trip: the stream of any staged tree unpacks, next to whatever else
      is there, to exactly that tree under `payload`. */
  lemma UnpackingRebuildsTheTree(base: Tree, t: Tree, dir: Path)
    requires WellFormed(t) && IsDir(t, dir) && Payloads.Unstaged(base)
    ensures var r := UnpackAll(base, TarOf(t, dir));
      r.Some? && Rebuilt(r.value, base, t, dir)
  {
    var n := |Walk(t, dir)|;
    UnpackUpTo(base, t, dir, n);
    assert TarOf(t, dir)[..n] == TarOf(t, dir);
    assert Walk(t, dir)[..n] == Walk(t, dir);
    assert Payloads.Met(t, dir, n) == Below(t, dir);
    var r := UnpackAll(base, TarOf(t, dir)).value;
    hide TarOf, UnpackAll, WellFormed;
    forall p ensures At(r, p) == if p != [] && p[0] == "payload" then At(t, dir + p[1..]) else At(base, p) {
      assert At(r, p) == Unpacked(base, t, dir, Below(t, dir), p);
    }
  }

  /** The shape of the stream: names are all different, a directory's name ends in
      a slash and a file's does not, a file's entry has its contents and mode and a
      directory's can be entered, and every entry belongs to the candidate. */
  lemma StreamShape(t: Tree, dir: Path, k: nat)
    requires WellFormed(t) && IsDir(t, dir) && k < |TarOf(t, dir)|
    ensures var es := TarOf(t, dir);
      && (forall j :: 0 <= j < k ==> es[j].name != es[k].name)
      && Payloads.EndsWith(es[k].name, "/") == es[k].isDir
      && es[k].uid == 1000 && es[k].gid == 1000
      && (if es[k].isDir then es[k].data == "" && es[k].exec
          else PathOf(es[k].name) != [] && At(t, dir + PathOf(es[k].name)[1..]) == Some(File(es[k].data, es[k].exec)))
  {
    var es, w := TarOf(t, dir), Walk(t, dir);
    EntryAt(t, dir, k);
    EntryHolds(t, dir, k);
    WalkIsDistinct(t, dir);
    hide WellFormed, TarOf, PathOf, Payloads.EndsWith;
    forall j | 0 <= j < k ensures es[j].name != es[k].name {
      EntryAt(t, dir, j);
      UnderPayload(w[j]);
      UnderPayload(w[k]);
    }
  }

  lemma EntryHolds(t: Tree, dir: Path, k: nat)
    requires WellFormed(t) && IsDir(t, dir) && k < |TarOf(t, dir)|
    ensures var e := TarOf(t, dir)[k];
      if e.isDir then e.data == "" && e.exec
      else PathOf(e.name) != [] && At(t, dir + PathOf(e.name)[1..]) == Some(File(e.data, e.exec))
  {
    hide *;
    SameLength(t, dir);
    EntryAt(t, dir, k);
    var r := Walk(t, dir)[k];
    UnderPayload(r);
    TarEntryHolds(r, At(t, dir + r).value);
  }

  lemma TarEntryHolds(rel: Path, node: Node)
    ensures var e := TarEntry(rel, node);
      if e.isDir then e.data == "" && e.exec else node == File(e.data, e.exec)
  {
  }

  /** Whatever is in a directory comes after the directory's own entry. */
  lemma DirectoriesComeFirst(t: Tree, dir: Path, k: nat) returns (j: nat)
    requires WellFormed(t) && IsDir(t, dir) && k < |TarOf(t, dir)| && PathOf(TarOf(t, dir)[k].name) != ["payload"]
    ensures var es := TarOf(t, dir);
      var path := PathOf(es[k].name);
      path != [] && j < k && es[j].isDir && PathOf(es[j].name) == path[..|path| - 1]
  {
    SameLength(t, dir);
    hide *;
    EntryAt(t, dir, k);
    UpUnderPayload(Walk(t, dir)[k], PathOf(TarOf(t, dir)[k].name));
    j := ParentEntry(t, dir, k);
    EntryAt(t, dir, j);
  }

  lemma SameLength(t: Tree, dir: Path)
    requires IsDir(t, dir)
    ensures At(t, dir).Some? && |TarOf(t, dir)| == |Walk(t, dir)|
  {
  }

  lemma UpUnderPayload(r: Path, path: Path)
    requires path == ["payload"] + r && path != ["payload"]
    ensures r != [] && path != [] && path[..|path| - 1] == ["payload"] + r[..|r| - 1]
  {
    assert ["payload"] + [] == ["payload"];
  }

  lemma ParentEntry(t: Tree, dir: Path, k: nat) returns (j: nat)
    requires WellFormed(t) && At(t, dir).Some? && k < |Walk(t, dir)| && Walk(t, dir)[k] != []
    ensures var r := Walk(t, dir)[k];
      j < k && Walk(t, dir)[j] == r[..|r| - 1] && IsDir(t, dir + r[..|r| - 1])
  {
    hide *;
    var n: nat := |Walk(t, dir)[k]| - 1;
    ParentsFirst(t, dir, k, n);
    j := IndexBefore(Walk(t, dir), k, n);
  }

  /** Where a listing has a beginning of its entry `k` that comes before it. */
  lemma IndexBefore(w: seq<Path>, k: nat, n: nat) returns (j: nat)
    requires k < |w| && n <= |w[k]| && w[k][..n] in w[..k]
    ensures j < k && w[j] == w[k][..n]
  {
    j :| 0 <= j < k && w[..k][j] == w[k][..n];
  }

  lemma EntryAt(t: Tree, dir: Path, k: nat)
    requires WellFormed(t) && IsDir(t, dir) && k < |TarOf(t, dir)|
    ensures var e, r := TarOf(t, dir)[k], Walk(t, dir)[k];
      && At(t, dir + r).Some? && e == TarEntry(r, At(t, dir + r).value)
      && PathOf(e.name) == ["payload"] + r
      && Payloads.EndsWith(e.name, "/") == e.isDir && e.isDir == IsDir(t, dir + r)
  {
    var r := Walk(t, dir)[k];
    Payloads.WalkIsPresent(t, dir);
    TreePathIsPlain(t, dir + r);
    PlainTail(dir, r);
    assert r == [] ==> dir + r == dir;
    NameDenotesPath(r, At(t, dir + r).value);
  }
}
