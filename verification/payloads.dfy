/** Staging: the part of a pack a candidate may see, copied under a session's
    stack directory. */
module Payloads {
  import opened Options
  import opened Ordering
  import opened FileTree
  import opened Bundles

  // -------------------------------------------------------- copying a tree

  predicate EndsWith(s: string, suffix: string) {
    |suffix| <= |s| && s[|s| - |suffix|..] == suffix
  }

  predicate Named(p: Path, name: string) {
    p != [] && p[|p| - 1] == name
  }

  function Sibling(p: Path, name: string): Path
    requires p != []
  {
    p[..|p| - 1] + [name]
  }

  const PLACEHOLDER := "_go.mod"
  const GO_MOD := "go.mod"

  /** Go files are staged executable exactly when they are shell scripts. */
  predicate IsShell(p: Path) {
    p != [] && EndsWith(p[|p| - 1], ".sh")
  }

  /** One entry of the walk over `src`, copied below `dst`; false when it fails. */
  function CopyEntry(disk: Tree, fs: Tree, src: Path, dst: Path, rel: Path): (Tree, bool)
    requires At(fs, src + rel).Some?
  {
    match At(fs, src + rel).value
    case Dir =>
      var r := MkdirAll(disk, dst + rel);
      if r.None? then (disk, false) else (r.value, true)
    case File(data, _) =>
      var target := if Named(dst + rel, PLACEHOLDER) then Sibling(dst + rel, GO_MOD) else dst + rel;
      var r := WriteFile(disk, target, data, IsShell(src + rel));
      if r.None? then (disk, false) else (r.value, true)
  }

  /** Entries in order, stopping at the first that fails. */
  function CopyEntries(disk: Tree, fs: Tree, src: Path, dst: Path, rels: seq<Path>): (Tree, bool)
    requires forall k :: 0 <= k < |rels| ==> At(fs, src + rels[k]).Some?
  {
    if rels == [] then (disk, true)
    else
      var n := |rels| - 1;
      var (t, ok) := CopyEntries(disk, fs, src, dst, rels[..n]);
      if ok then CopyEntry(t, fs, src, dst, rels[n]) else (t, false)
  }

  ghost function Copied(disk: Tree, fs: Tree, src: Path, dst: Path): (Tree, bool) {
    if At(fs, src).None? then (disk, false)
    else
      assert src + [] == src;
      CopyEntries(disk, fs, src, dst, Walk(fs, src))
  }

  // -------------------------------------------------- what a copy looks like

  /** The node a source path is staged as. */
  function StagedNode(fs: Tree, p: Path): Node
    requires At(fs, p).Some?
  {
    match At(fs, p).value
    case Dir => Dir
    case File(data, _) => File(data, IsShell(p))
  }

  predicate IsPlaceholder(fs: Tree, p: Path) {
    Named(p, PLACEHOLDER) && IsFile(fs, p)
  }

  /** What the copy has at `q` once the relative paths `met` were copied: the
      source's own node there, or failing that the placeholder beside it; a
      placeholder has no node of its own. */
  function ImageOf(fs: Tree, src: Path, met: set<Path>, q: Path): Option<Node> {
    if q in met && At(fs, src + q).Some? then
      if q != [] && IsPlaceholder(fs, src + q) then None else Some(StagedNode(fs, src + q))
    else if Named(q, GO_MOD) && Sibling(q, PLACEHOLDER) in met && IsFile(fs, src + Sibling(q, PLACEHOLDER)) then
      Some(File(At(fs, src + Sibling(q, PLACEHOLDER)).value.data, false))
    else None
  }

  /** What the whole copy has at `q`. */
  function Image(fs: Tree, src: Path, q: Path): Option<Node>
    requires At(fs, src).Some?
  {
    ImageOf(fs, src, Below(fs, src), q)
  }

  /** What the disk has at `p` after copying the paths `met` below `dst`. */
  function Want(disk: Tree, fs: Tree, src: Path, dst: Path, met: set<Path>, p: Path): Option<Node> {
    if dst <= p && ImageOf(fs, src, met, p[|dst|..]).Some? then ImageOf(fs, src, met, p[|dst|..])
    else if [] in met && OnTheWay(p, dst) then Some(Dir)
    else At(disk, p)
  }

  /** A directory named like a module file, beside the placeholder of one. */
  predicate ClashAt(fs: Tree, src: Path, r: Path) {
    Named(r, GO_MOD) && IsDir(fs, src + r) && IsFile(fs, src + Sibling(r, PLACEHOLDER))
  }

  ghost predicate Clash(fs: Tree, src: Path) {
    exists r :: ClashAt(fs, src, r)
  }

  predicate SameKind(a: Node, b: Node) {
    a.Dir? == b.Dir? && (a.File? ==> a.exec == b.exec)
  }

  /** Whatever the disk has below `dst`, the copy has something of the same kind
      there; nothing above `dst` is a file. */
  ghost predicate Compatible(disk: Tree, fs: Tree, src: Path, dst: Path)
    requires At(fs, src).Some?
  {
    && Passable(disk, dst)
    && (forall q :: At(disk, dst + q).Some? && q != [] ==>
          Image(fs, src, q).Some? && SameKind(At(disk, dst + q).value, Image(fs, src, q).value))
  }

  /** The disk holds the copy of `met`. */
  ghost predicate Holds(now: Tree, disk: Tree, fs: Tree, src: Path, dst: Path, met: set<Path>) {
    forall p :: At(now, p) == Want(disk, fs, src, dst, met, p)
  }

  // -------------------------------------------------------- one entry more

  /** The state of a walk before entry `r`: directories above it are copied, and
      a placeholder comes before its go.mod. */
  ghost predicate Next(fs: Tree, src: Path, met: set<Path>, r: Path) {
    && r !in met && At(fs, src + r).Some?
    && (r == [] ==> met == {})
    && (forall k :: 0 <= k < |r| ==> r[..k] in met && IsDir(fs, src + r[..k]))
    && (Named(r, PLACEHOLDER) ==> Sibling(r, GO_MOD) !in met)
    && (Named(r, GO_MOD) && IsFile(fs, src + Sibling(r, PLACEHOLDER)) ==> Sibling(r, PLACEHOLDER) in met)
  }

  lemma Drop(dst: Path, q: Path)
    ensures dst <= dst + q && (dst + q)[|dst|..] == q
  {
  }

  lemma NameBelow(dst: Path, q: Path, name: string)
    requires q != []
    ensures Named(dst + q, name) == Named(q, name)
    ensures Sibling(dst + q, name) == dst + Sibling(q, name)
    ensures (dst + q)[..|dst + q| - 1] == dst + q[..|q| - 1]
  {
    assert (dst + q)[..|dst + q| - 1] == dst + q[..|q| - 1];
  }

  /** Directories above the entry are directories on the disk. */
  lemma ParentIsThere(now: Tree, disk: Tree, fs: Tree, src: Path, dst: Path, met: set<Path>, r: Path, k: nat)
    requires Holds(now, disk, fs, src, dst, met) && Next(fs, src, met, r) && k < |r|
    ensures IsDir(now, dst + r[..k])
  {
    var q := r[..k];
    Drop(dst, q);
    assert q in met && IsDir(fs, src + q);
    assert ImageOf(fs, src, met, q) == Some(Dir);
    assert At(now, dst + q) == Want(disk, fs, src, dst, met, dst + q);
  }

  /** Copying a directory fails exactly when its name is taken by a placeholder. */
  lemma DirEntry(now: Tree, disk: Tree, fs: Tree, src: Path, dst: Path, met: set<Path>, r: Path)
    requires At(fs, src).Some? && Compatible(disk, fs, src, dst)
    requires Holds(now, disk, fs, src, dst, met) && Next(fs, src, met, r) && IsDir(fs, src + r)
    ensures Passable(now, dst + r) <==> !(Named(r, GO_MOD) && IsFile(fs, src + Sibling(r, PLACEHOLDER)))
  {
    forall n | 0 < n <= |dst + r|
      ensures !IsFile(now, (dst + r)[..n])
           || (n == |dst + r| && Named(r, GO_MOD) && IsFile(fs, src + Sibling(r, PLACEHOLDER)))
    {
      DirEntryAt(now, disk, fs, src, dst, met, r, n);
    }
    if Named(r, GO_MOD) && IsFile(fs, src + Sibling(r, PLACEHOLDER)) {
      Drop(dst, r);
      assert At(now, dst + r) == Want(disk, fs, src, dst, met, dst + r);
      assert IsFile(now, (dst + r)[..|dst + r|]) by { assert (dst + r)[..|dst + r|] == dst + r; }
    }
  }

  lemma DirEntryAt(now: Tree, disk: Tree, fs: Tree, src: Path, dst: Path, met: set<Path>, r: Path, n: nat)
    requires At(fs, src).Some? && Compatible(disk, fs, src, dst)
    requires Holds(now, disk, fs, src, dst, met) && Next(fs, src, met, r) && IsDir(fs, src + r)
    requires 0 < n <= |dst + r|
    ensures !IsFile(now, (dst + r)[..n])
         || (n == |dst + r| && Named(r, GO_MOD) && IsFile(fs, src + Sibling(r, PLACEHOLDER)))
  {
    var p := (dst + r)[..n];
    assert At(now, p) == Want(disk, fs, src, dst, met, p);
    if n <= |dst| {
      assert p == dst[..n];
      OnTheWayTo(disk, fs, src, dst, met, r, n);
    } else if n < |dst + r| {
      TakeBelow(dst, r, n - |dst|);
      ParentIsThere(now, disk, fs, src, dst, met, r, n - |dst|);
    } else {
      assert p == dst + r;
      Drop(dst, r);
      LandsOn(disk, fs, src, dst, met, r);
    }
  }

  lemma OnTheWayTo(disk: Tree, fs: Tree, src: Path, dst: Path, met: set<Path>, r: Path, n: nat)
    requires At(fs, src).Some? && Compatible(disk, fs, src, dst) && Next(fs, src, met, r)
    requires 0 < n <= |dst|
    ensures var x := Want(disk, fs, src, dst, met, dst[..n]); !(x.Some? && x.value.File?)
  {
    var p := dst[..n];
    if r == [] {
      assert met == {};
    } else {
      assert r[..0] == [] && [] in met && IsDir(fs, src + []);
      if dst <= p {
        assert p == dst && p[|dst|..] == [];
      }
    }
  }

  lemma LandsOn(disk: Tree, fs: Tree, src: Path, dst: Path, met: set<Path>, r: Path)
    requires At(fs, src).Some? && Compatible(disk, fs, src, dst) && Next(fs, src, met, r) && IsDir(fs, src + r)
    ensures var x := Want(disk, fs, src, dst, met, dst + r);
      x.Some? && x.value.File? ==> Named(r, GO_MOD) && IsFile(fs, src + Sibling(r, PLACEHOLDER))
  {
    Drop(dst, r);
    var x := Want(disk, fs, src, dst, met, dst + r);
    if ImageOf(fs, src, met, r).None? && !([] in met && OnTheWay(dst + r, dst)) {
      assert x == At(disk, dst + r);
      if r == [] {
        assert dst + r == dst && dst[..|dst|] == dst;
      } else if x.Some? {
        assert r in Below(fs, src);
        assert Image(fs, src, r) == Some(Dir);
      }
    }
  }

  /** How the image changes when a directory, or a file that is no placeholder, is met. */
  lemma MeetOrdinary(fs: Tree, src: Path, met: set<Path>, r: Path, q: Path)
    requires At(fs, src + r).Some? && (r == [] ==> IsDir(fs, src)) && !(r != [] && IsPlaceholder(fs, src + r))
    ensures q != r ==> ImageOf(fs, src, met + {r}, q) == ImageOf(fs, src, met, q)
    ensures ImageOf(fs, src, met + {r}, r) == Some(StagedNode(fs, src + r))
  {
    if q != r && Named(q, GO_MOD) && Sibling(q, PLACEHOLDER) == r {
      NameBelow(src, r, PLACEHOLDER);
    }
  }

  lemma BesidesKnowsItself(q: Path, a: string, b: string)
    requires q != []
    ensures Named(q, a) ==> Sibling(Sibling(q, b), a) == q
    ensures Named(Sibling(q, a), a)
  {
  }

  /** How it changes when a placeholder is met. */
  lemma MeetPlaceholder(fs: Tree, src: Path, met: set<Path>, r: Path, q: Path)
    requires r != [] && IsPlaceholder(fs, src + r) && r !in met && Sibling(r, GO_MOD) !in met
    ensures q != Sibling(r, GO_MOD) ==> ImageOf(fs, src, met + {r}, q) == ImageOf(fs, src, met, q)
    ensures ImageOf(fs, src, met + {r}, Sibling(r, GO_MOD)) == Some(File(At(fs, src + r).value.data, false))
  {
    NameBelow(src, r, PLACEHOLDER);
    BesidesKnowsItself(r, PLACEHOLDER, GO_MOD);
    BesidesKnowsItself(r, GO_MOD, PLACEHOLDER);
    if q != [] {
      BesidesKnowsItself(q, GO_MOD, PLACEHOLDER);
      BesidesKnowsItself(q, PLACEHOLDER, GO_MOD);
    }
  }

  lemma Split(dst: Path, p: Path)
    requires dst <= p
    ensures p == dst + p[|dst|..]
  {
  }

  lemma DirStep(now: Tree, t: Tree, disk: Tree, fs: Tree, src: Path, dst: Path, met: set<Path>, r: Path, p: Path)
    requires Holds(now, disk, fs, src, dst, met) && Next(fs, src, met, r) && IsDir(fs, src + r)
    requires At(t, p) == if OnTheWay(p, dst + r) then Some(Dir) else At(now, p)
    ensures At(t, p) == Want(disk, fs, src, dst, met + {r}, p)
  {
    assert At(now, p) == Want(disk, fs, src, dst, met, p);
    assert r == [] ==> src + r == src && dst + r == dst;
    if dst <= p {
      var q := p[|dst|..];
      Split(dst, p);
      MeetOrdinary(fs, src, met, r, q);
      Drop(dst, r);
      if OnTheWay(p, dst + r) {
        PrefixBelow(dst, q, r);
        if q != r {
          assert q == r[..|q|] && q in met && IsDir(fs, src + q);
        }
      } else {
        assert q != r;
      }
    } else {
      if r != [] {
        assert r[..0] == [] && [] in met;
      }
      PrefixOfLonger(p, dst, r);
    }
  }

  lemma PrefixBelow(dst: Path, q: Path, r: Path)
    requires OnTheWay(dst + q, dst + r)
    ensures q <= r
  {
    Drop(dst, q);
    Drop(dst, r);
    assert forall k :: 0 <= k < |q| ==> q[k] == (dst + q)[|dst| + k] == (dst + r)[|dst| + k] == r[k];
  }

  lemma LongerGoesThrough(p: Path, dst: Path, r: Path)
    requires OnTheWay(p, dst + r)
    ensures |p| >= |dst| ==> dst <= p
  {
    if |p| >= |dst| {
      assert p == (dst + r)[..|p|];
      assert p[..|dst|] == (dst + r)[..|dst|] == dst;
    }
  }

  /** A path that does not go through `dst` leads to `dst + r` only if it leads to `dst`. */
  lemma PrefixOfLonger(p: Path, dst: Path, r: Path)
    requires !(dst <= p)
    ensures OnTheWay(p, dst + r) <==> OnTheWay(p, dst)
  {
    if OnTheWay(p, dst + r) {
      LongerGoesThrough(p, dst, r);
      assert p == (dst + r)[..|p|] == dst[..|p|];
    }
    if OnTheWay(p, dst) {
      assert dst + r == p + (dst[|p|..] + r);
    }
  }

  // ------------------------------------------------------------ file entries

  lemma NoShell(p: Path)
    requires Named(p, GO_MOD) || Named(p, PLACEHOLDER)
    ensures !IsShell(p)
  {
    assert GO_MOD[3..] == "mod" && PLACEHOLDER[4..] == "mod";
    assert "mod"[0] != ".sh"[0];
  }

  /** An ordinary file can be written, and keeps the mode it is staged with. */
  lemma FileLands(now: Tree, disk: Tree, fs: Tree, src: Path, dst: Path, met: set<Path>, r: Path)
    requires At(fs, src).Some? && Compatible(disk, fs, src, dst) && Holds(now, disk, fs, src, dst, met)
    requires Next(fs, src, met, r) && r != [] && IsFile(fs, src + r) && !IsPlaceholder(fs, src + r)
    ensures IsDir(now, dst + r[..|r| - 1]) && !IsDir(now, dst + r)
    ensures IsFile(now, dst + r) ==> At(now, dst + r).value.exec == IsShell(src + r)
  {
    ParentIsThere(now, disk, fs, src, dst, met, r, |r| - 1);
    Drop(dst, r);
    assert At(now, dst + r) == Want(disk, fs, src, dst, met, dst + r);
    assert r in Below(fs, src);
    assert Image(fs, src, r) == Some(StagedNode(fs, src + r));
    if Named(r, GO_MOD) {
      NameBelow(src, r, GO_MOD);
      NoShell(src + r);
    }
  }

  /** A placeholder's target keeps mode 0644. */
  lemma PlaceholderLands(now: Tree, disk: Tree, fs: Tree, src: Path, dst: Path, met: set<Path>, r: Path)
    requires At(fs, src).Some? && Compatible(disk, fs, src, dst) && Holds(now, disk, fs, src, dst, met)
    requires Next(fs, src, met, r) && r != [] && IsPlaceholder(fs, src + r)
    ensures IsDir(now, dst + r[..|r| - 1])
    ensures IsFile(now, dst + Sibling(r, GO_MOD)) ==> !At(now, dst + Sibling(r, GO_MOD)).value.exec
    ensures IsDir(now, dst + Sibling(r, GO_MOD)) ==> IsDir(fs, src + Sibling(r, GO_MOD))
  {
    var g := Sibling(r, GO_MOD);
    ParentIsThere(now, disk, fs, src, dst, met, r, |r| - 1);
    NameBelow(src, r, PLACEHOLDER);
    NameBelow(src, g, GO_MOD);
    BesidesKnowsItself(r, PLACEHOLDER, GO_MOD);
    BesidesKnowsItself(r, GO_MOD, PLACEHOLDER);
    Drop(dst, g);
    assert At(now, dst + g) == Want(disk, fs, src, dst, met, dst + g);
    assert ImageOf(fs, src, met, g).None?;
    NoShell(src + g);
    assert At(disk, dst + g).Some? ==> Image(fs, src, g).Some? && SameKind(At(disk, dst + g).value, Image(fs, src, g).value);
  }

  lemma FileStep(now: Tree, t: Tree, disk: Tree, fs: Tree, src: Path, dst: Path, met: set<Path>, r: Path, p: Path)
    requires Holds(now, disk, fs, src, dst, met) && Next(fs, src, met, r) && r != []
    requires IsFile(fs, src + r) && !IsPlaceholder(fs, src + r)
    requires At(t, p) == if p == dst + r then Some(StagedNode(fs, src + r)) else At(now, p)
    ensures At(t, p) == Want(disk, fs, src, dst, met + {r}, p)
  {
    assert At(now, p) == Want(disk, fs, src, dst, met, p);
    assert r[..0] == [] && [] in met;
    if dst <= p {
      Split(dst, p);
      MeetOrdinary(fs, src, met, r, p[|dst|..]);
      Drop(dst, r);
    }
  }

  lemma PlaceholderStep(now: Tree, t: Tree, disk: Tree, fs: Tree, src: Path, dst: Path, met: set<Path>, r: Path, p: Path)
    requires Holds(now, disk, fs, src, dst, met) && Next(fs, src, met, r) && r != []
    requires IsPlaceholder(fs, src + r)
    requires At(t, p) == if p == dst + Sibling(r, GO_MOD) then Some(File(At(fs, src + r).value.data, false)) else At(now, p)
    ensures At(t, p) == Want(disk, fs, src, dst, met + {r}, p)
  {
    assert At(now, p) == Want(disk, fs, src, dst, met, p);
    assert r[..0] == [] && [] in met;
    NameBelow(src, r, PLACEHOLDER);
    if dst <= p {
      Split(dst, p);
      MeetPlaceholder(fs, src, met, r, p[|dst|..]);
      Drop(dst, Sibling(r, GO_MOD));
    }
  }

  /** One entry: when it succeeds the disk holds the copy of one path more; a
      directory whose name a placeholder took fails, and nothing else does. */
  lemma EntryStep(now: Tree, disk: Tree, fs: Tree, src: Path, dst: Path, met: set<Path>, r: Path)
    requires IsDir(fs, src) && Compatible(disk, fs, src, dst) && Holds(now, disk, fs, src, dst, met)
    requires Next(fs, src, met, r)
    ensures var (t, ok) := CopyEntry(now, fs, src, dst, r);
      && (ok ==> Holds(t, disk, fs, src, dst, met + {r}))
      && (IsDir(fs, src + r) ==> (ok <==> !(Named(r, GO_MOD) && IsFile(fs, src + Sibling(r, PLACEHOLDER)))))
      && (IsFile(fs, src + r) && !ok ==> r != [] && IsPlaceholder(fs, src + r) && IsDir(fs, src + Sibling(r, GO_MOD)))
  {
    assert r == [] ==> src + r == src;
    if IsDir(fs, src + r) {
      EntryIsDir(now, disk, fs, src, dst, met, r);
    } else {
      NameBelow(src, r, PLACEHOLDER);
      NameBelow(dst, r, PLACEHOLDER);
      NameBelow(dst, r, GO_MOD);
      if IsPlaceholder(fs, src + r) {
        EntryIsPlaceholder(now, disk, fs, src, dst, met, r);
      } else {
        EntryIsFile(now, disk, fs, src, dst, met, r);
      }
    }
  }

  lemma EntryIsDir(now: Tree, disk: Tree, fs: Tree, src: Path, dst: Path, met: set<Path>, r: Path)
    requires IsDir(fs, src) && Compatible(disk, fs, src, dst) && Holds(now, disk, fs, src, dst, met)
    requires Next(fs, src, met, r) && IsDir(fs, src + r)
    ensures var (t, ok) := CopyEntry(now, fs, src, dst, r);
      && (ok ==> Holds(t, disk, fs, src, dst, met + {r}))
      && (ok <==> !(Named(r, GO_MOD) && IsFile(fs, src + Sibling(r, PLACEHOLDER))))
  {
    var (t, ok) := CopyEntry(now, fs, src, dst, r);
    DirEntry(now, disk, fs, src, dst, met, r);
    if ok {
      forall p ensures At(t, p) == Want(disk, fs, src, dst, met + {r}, p) {
        DirStep(now, t, disk, fs, src, dst, met, r, p);
      }
    }
  }

  lemma EntryIsFile(now: Tree, disk: Tree, fs: Tree, src: Path, dst: Path, met: set<Path>, r: Path)
    requires IsDir(fs, src) && Compatible(disk, fs, src, dst) && Holds(now, disk, fs, src, dst, met)
    requires Next(fs, src, met, r) && r != [] && IsFile(fs, src + r) && !IsPlaceholder(fs, src + r)
    requires !Named(dst + r, PLACEHOLDER) && (dst + r)[..|dst + r| - 1] == dst + r[..|r| - 1]
    ensures var (t, ok) := CopyEntry(now, fs, src, dst, r);
      ok && Holds(t, disk, fs, src, dst, met + {r})
  {
    var (t, ok) := CopyEntry(now, fs, src, dst, r);
    FileLands(now, disk, fs, src, dst, met, r);
    forall p ensures At(t, p) == Want(disk, fs, src, dst, met + {r}, p) {
      FileStep(now, t, disk, fs, src, dst, met, r, p);
    }
  }

  lemma EntryIsPlaceholder(now: Tree, disk: Tree, fs: Tree, src: Path, dst: Path, met: set<Path>, r: Path)
    requires IsDir(fs, src) && Compatible(disk, fs, src, dst) && Holds(now, disk, fs, src, dst, met)
    requires Next(fs, src, met, r) && r != [] && IsPlaceholder(fs, src + r)
    requires Named(dst + r, PLACEHOLDER) && Sibling(dst + r, GO_MOD) == dst + Sibling(r, GO_MOD)
    ensures var (t, ok) := CopyEntry(now, fs, src, dst, r);
      && (ok ==> Holds(t, disk, fs, src, dst, met + {r}))
      && (!ok ==> IsDir(fs, src + Sibling(r, GO_MOD)))
  {
    var (t, ok) := CopyEntry(now, fs, src, dst, r);
    var g := Sibling(r, GO_MOD);
    PlaceholderLands(now, disk, fs, src, dst, met, r);
    NameBelow(dst, g, GO_MOD);
    NameBelow(src, r, PLACEHOLDER);
    NoShell(src + r);
    assert g[..|g| - 1] == r[..|r| - 1];
    if ok {
      forall p ensures At(t, p) == Want(disk, fs, src, dst, met + {r}, p) {
        PlaceholderStep(now, t, disk, fs, src, dst, met, r, p);
      }
    }
  }

  // ------------------------------------------------------------ a whole copy

  /** The paths a walk met before its entry `n`. */
  ghost function Met(fs: Tree, src: Path, n: nat): (met: set<Path>)
    requires At(fs, src).Some? && n <= |Walk(fs, src)|
    ensures forall r :: r in met <==> r in Walk(fs, src)[..n]
  {
    set k | 0 <= k < n :: Walk(fs, src)[k]
  }

  lemma PlaceholderSortsFirst(d: Path)
    ensures PathLess(d + [PLACEHOLDER], d + [GO_MOD])
    ensures !PathLess(d + [GO_MOD], d + [PLACEHOLDER])
  {
    assert '_' < 'g';
    assert StringLess(PLACEHOLDER, GO_MOD);
    SameParentSorted(StringLess, d, PLACEHOLDER, GO_MOD);
    PathsTotal();
  }

  /** Every entry of a walk finds its surroundings as the steps above need them. */
  lemma WalkIsOrdered(fs: Tree, src: Path, n: nat)
    requires WellFormed(fs) && IsDir(fs, src) && n < |Walk(fs, src)|
    ensures Next(fs, src, Met(fs, src, n), Walk(fs, src)[n])
  {
    var r, met := Walk(fs, src)[n], Met(fs, src, n);
    assert r in Walk(fs, src) && At(fs, src + r).Some?;
    NotYetMet(fs, src, n);
    if r == [] {
      RootIsFirst(fs, src, n);
    } else {
      ModulesInOrder(fs, src, n);
    }
    hide PathLess, WellFormed;
    forall k | 0 <= k < |r| ensures r[..k] in met && IsDir(fs, src + r[..k]) {
      ParentsFirst(fs, src, n, k);
    }
  }

  lemma NotYetMet(fs: Tree, src: Path, n: nat)
    requires At(fs, src).Some? && n < |Walk(fs, src)|
    ensures Walk(fs, src)[n] !in Met(fs, src, n)
  {
    WalkIsDistinct(fs, src);
  }

  lemma ModulesInOrder(fs: Tree, src: Path, n: nat)
    requires At(fs, src).Some? && n < |Walk(fs, src)| && Walk(fs, src)[n] != []
    ensures var r, met := Walk(fs, src)[n], Met(fs, src, n);
      && (Named(r, PLACEHOLDER) ==> Sibling(r, GO_MOD) !in met)
      && (Named(r, GO_MOD) && IsFile(fs, src + Sibling(r, PLACEHOLDER)) ==> Sibling(r, PLACEHOLDER) in met)
  {
    var r, met := Walk(fs, src)[n], Met(fs, src, n);
    var d := r[..|r| - 1];
    PlaceholderSortsFirst(d);
    hide PathLess;
    if Named(r, PLACEHOLDER) {
      assert r == d + [PLACEHOLDER];
      OnlyPresentIsMet(fs, src, n, Sibling(r, GO_MOD));
      if At(fs, src + Sibling(r, GO_MOD)).Some? {
        MetBefore(fs, src, n, Sibling(r, GO_MOD));
      }
    }
    if Named(r, GO_MOD) {
      assert r == d + [GO_MOD];
      if IsFile(fs, src + Sibling(r, PLACEHOLDER)) {
        MetBefore(fs, src, n, Sibling(r, PLACEHOLDER));
      }
    }
  }

  lemma OnlyPresentIsMet(fs: Tree, src: Path, n: nat, r: Path)
    requires At(fs, src).Some? && n <= |Walk(fs, src)|
    ensures r in Met(fs, src, n) ==> At(fs, src + r).Some?
  {
    if r in Met(fs, src, n) {
      assert r in Walk(fs, src);
    }
  }

  lemma RootIsFirst(fs: Tree, src: Path, n: nat)
    requires At(fs, src).Some? && n < |Walk(fs, src)| && Walk(fs, src)[n] == []
    ensures n == 0
  {
    PathsTotal();
    assert n > 0 ==> PathLess(Walk(fs, src)[0], Walk(fs, src)[n]);
  }

  lemma MetNext(fs: Tree, src: Path, n: nat)
    requires At(fs, src).Some? && n < |Walk(fs, src)|
    ensures Met(fs, src, n + 1) == Met(fs, src, n) + {Walk(fs, src)[n]}
  {
    assert Walk(fs, src)[..n + 1] == Walk(fs, src)[..n] + [Walk(fs, src)[n]];
  }

  lemma WalkIsPresent(fs: Tree, src: Path)
    requires At(fs, src).Some?
    ensures forall k :: 0 <= k < |Walk(fs, src)| ==> At(fs, src + Walk(fs, src)[k]).Some?
  {
    forall k | 0 <= k < |Walk(fs, src)| ensures At(fs, src + Walk(fs, src)[k]).Some? {
      assert Walk(fs, src)[k] in Walk(fs, src);
    }
  }

  /** The copy of the first `n` entries of a walk. */
  lemma {:induction false} CopyUpTo(disk: Tree, fs: Tree, src: Path, dst: Path, n: nat)
    requires At(fs, src).Some? && WellFormed(fs) && IsDir(fs, src) && Compatible(disk, fs, src, dst)
    requires n <= |Walk(fs, src)|
    requires forall k :: 0 <= k < |Walk(fs, src)| ==> At(fs, src + Walk(fs, src)[k]).Some?
    ensures var (t, ok) := CopyEntries(disk, fs, src, dst, Walk(fs, src)[..n]);
      && (ok ==> Holds(t, disk, fs, src, dst, Met(fs, src, n)))
      && (!ok ==> Clash(fs, src))
      && (ok ==> forall k :: 0 <= k < n ==> !ClashAt(fs, src, Walk(fs, src)[k]))
  {
    hide *;
    var w := Walk(fs, src);
    if n == 0 {
      CopyNothing(disk, fs, src, dst);
    } else {
      CopyUpTo(disk, fs, src, dst, n - 1);
      CopyEntriesNext(disk, fs, src, dst, w, n - 1);
      var (t, ok) := CopyEntries(disk, fs, src, dst, w[..n - 1]);
      if ok {
        CopyOneMore(t, disk, fs, src, dst, n - 1);
      }
    }
  }

  lemma CopyNothing(disk: Tree, fs: Tree, src: Path, dst: Path)
    requires IsDir(fs, src)
    ensures CopyEntries(disk, fs, src, dst, Walk(fs, src)[..0]) == (disk, true)
    ensures Holds(disk, disk, fs, src, dst, Met(fs, src, 0))
  {
    assert Met(fs, src, 0) == {};
  }

  lemma CopyEntriesNext(disk: Tree, fs: Tree, src: Path, dst: Path, w: seq<Path>, n: nat)
    requires n < |w| && forall k :: 0 <= k < |w| ==> At(fs, src + w[k]).Some?
    ensures CopyEntries(disk, fs, src, dst, w[..n + 1])
         == var (t, ok) := CopyEntries(disk, fs, src, dst, w[..n]);
            if ok then CopyEntry(t, fs, src, dst, w[n]) else (t, false)
  {
    assert w[..n + 1][..n] == w[..n];
  }

  lemma CopyOneMore(t: Tree, disk: Tree, fs: Tree, src: Path, dst: Path, n: nat)
    requires WellFormed(fs) && IsDir(fs, src) && Compatible(disk, fs, src, dst) && n < |Walk(fs, src)|
    requires At(fs, src + Walk(fs, src)[n]).Some? && Holds(t, disk, fs, src, dst, Met(fs, src, n))
    ensures var (next, ok) := CopyEntry(t, fs, src, dst, Walk(fs, src)[n]);
      && (ok ==> Holds(next, disk, fs, src, dst, Met(fs, src, n + 1)))
      && (!ok ==> Clash(fs, src))
      && (ok ==> !ClashAt(fs, src, Walk(fs, src)[n]))
  {
    WalkIsOrdered(fs, src, n);
    hide WellFormed, Compatible, Holds, CopyEntry;
    EntryStep(t, disk, fs, src, dst, Met(fs, src, n), Walk(fs, src)[n]);
    MetNext(fs, src, n);
    FailureIsClash(t, fs, src, dst, Met(fs, src, n), Walk(fs, src)[n]);
  }

  lemma FailureIsClash(t: Tree, fs: Tree, src: Path, dst: Path, met: set<Path>, r: Path)
    requires Next(fs, src, met, r) && IsDir(fs, src)
    requires IsDir(fs, src + r) ==>
      (CopyEntry(t, fs, src, dst, r).1 <==> !(Named(r, GO_MOD) && IsFile(fs, src + Sibling(r, PLACEHOLDER))))
    requires IsFile(fs, src + r) && !CopyEntry(t, fs, src, dst, r).1 ==>
      r != [] && IsPlaceholder(fs, src + r) && IsDir(fs, src + Sibling(r, GO_MOD))
    ensures !CopyEntry(t, fs, src, dst, r).1 ==> Clash(fs, src)
    ensures CopyEntry(t, fs, src, dst, r).1 ==> !ClashAt(fs, src, r)
  {
    if !CopyEntry(t, fs, src, dst, r).1 {
      if IsDir(fs, src + r) {
        assert ClashAt(fs, src, r);
      } else {
        NameBelow(src, r, PLACEHOLDER);
        BesidesKnowsItself(r, PLACEHOLDER, GO_MOD);
        BesidesKnowsItself(r, GO_MOD, GO_MOD);
        assert ClashAt(fs, src, Sibling(r, GO_MOD));
      }
    }
  }

  /** The main result on copying, for a fresh place or one copied to before: it
      fails exactly when a directory clashes with a placeholder, and otherwise
      the disk has, below `dst`, exactly the image of the source, and the
      directories on the way; everything else is as it was. */
  lemma CopiedExactly(disk: Tree, fs: Tree, src: Path, dst: Path)
    requires WellFormed(fs) && IsDir(fs, src) && Compatible(disk, fs, src, dst)
    ensures var (t, ok) := Copied(disk, fs, src, dst);
      && (ok <==> !Clash(fs, src))
      && (ok ==> Holds(t, disk, fs, src, dst, Below(fs, src)))
  {
    var w := Walk(fs, src);
    WalkIsPresent(fs, src);
    CopyUpTo(disk, fs, src, dst, |w|);
    assert w[..|w|] == w;
    assert Met(fs, src, |w|) == Below(fs, src);
    hide WellFormed, Compatible, Holds, CopyEntries;
    forall r ensures ClashAt(fs, src, r) ==> r in w {
      assert r in Below(fs, src) <==> r in w;
    }
    hide ClashAt;
    assert Copied(disk, fs, src, dst).1 ==> forall r :: r in w ==> !ClashAt(fs, src, r);
  }

  // ------------------------------------------------------------- the parts

  /** One copied tree: from where in the pack, to where on the disk. */
  datatype Part = Part(src: Path, dst: Path)

  const PAYLOAD := "payload"

  function TaskPart(b: Bundle, scenario: string): Part {
    Part(["bundles", b.name, "scenarios", scenario, "task"], [PAYLOAD, "workspace", scenario])
  }

  function LabPart(b: Bundle): Part {
    Part(["bundles", b.name, "lab"], [PAYLOAD, "lab"])
  }

  function KindPart(b: Bundle): Part {
    Part(["bundles", b.name, "kind"], [PAYLOAD, "kind"])
  }

  function TaskParts(b: Bundle): seq<Part> {
    seq(|b.scenarios|, k requires 0 <= k < |b.scenarios| => TaskPart(b, b.scenarios[k].name))
  }

  /** What a bundle ships: every scenario's task, and the lab and the cluster
      configuration when it has them. */
  function Parts(b: Bundle): seq<Part> {
    TaskParts(b) + (if b.hasLab then [LabPart(b)] else []) + (if b.hasKind then [KindPart(b)] else [])
  }

  ghost function StagedParts(disk: Tree, fs: Tree, parts: seq<Part>): (Tree, bool) {
    if parts == [] then (disk, true)
    else
      var n := |parts| - 1;
      var (t, ok) := StagedParts(disk, fs, parts[..n]);
      if ok then Copied(t, fs, parts[n].src, parts[n].dst) else (t, false)
  }

  predicate Covers(fs: Tree, part: Part, p: Path) {
    part.dst <= p && At(fs, part.src).Some? && Image(fs, part.src, p[|part.dst|..]).Some?
  }

  /** What the disk should have at `p`: the image of the part that covers it, a
      directory on the way to a part, or what it had. */
  function Expected(disk: Tree, fs: Tree, parts: seq<Part>, p: Path): Option<Node> {
    if parts == [] then At(disk, p)
    else
      var last := parts[|parts| - 1];
      if Covers(fs, last, p) then Image(fs, last.src, p[|last.dst|..])
      else if OnTheWay(p, last.dst) then Some(Dir)
      else Expected(disk, fs, parts[..|parts| - 1], p)
  }

  predicate Nested(a: Path, b: Path) {
    a <= b || b <= a
  }

  ghost predicate Apart(parts: seq<Part>) {
    forall j, k :: 0 <= j < k < |parts| ==> !Nested(parts[j].dst, parts[k].dst)
  }

  /** Every part is a directory of the pack, and fits what the disk has. */
  ghost predicate Stageable(disk: Tree, fs: Tree, parts: seq<Part>) {
    forall k :: 0 <= k < |parts| ==> IsDir(fs, parts[k].src) && Compatible(disk, fs, parts[k].src, parts[k].dst)
  }

  lemma PrefixesNest(a: Path, b: Path, p: Path)
    requires a <= p && b <= p
    ensures Nested(a, b)
  {
    assert a == p[..|a|] && b == p[..|b|];
  }

  /** Parts apart from `dst` leave everything below `dst` as it was. */
  lemma {:induction false} ElsewhereAsBefore(disk: Tree, fs: Tree, parts: seq<Part>, dst: Path, q: Path)
    requires forall k :: 0 <= k < |parts| ==> !Nested(parts[k].dst, dst)
    ensures Expected(disk, fs, parts, dst + q) == At(disk, dst + q)
  {
    if parts != [] {
      var last := parts[|parts| - 1];
      Drop(dst, q);
      if last.dst <= dst + q {
        PrefixesNest(last.dst, dst, dst + q);
      }
      assert OnTheWay(dst + q, last.dst) ==> dst <= last.dst;
      ElsewhereAsBefore(disk, fs, parts[..|parts| - 1], dst, q);
    }
  }

  lemma {:induction false} WayStaysOpen(disk: Tree, fs: Tree, parts: seq<Part>, dst: Path, n: nat)
    requires forall k :: 0 <= k < |parts| ==> !Nested(parts[k].dst, dst)
    requires 0 < n <= |dst| && !IsFile(disk, dst[..n])
    ensures var x := Expected(disk, fs, parts, dst[..n]); !(x.Some? && x.value.File?)
  {
    if parts != [] {
      var last := parts[|parts| - 1];
      assert last.dst <= dst[..n] ==> last.dst <= dst;
      WayStaysOpen(disk, fs, parts[..|parts| - 1], dst, n);
    }
  }

  lemma StillCompatible(now: Tree, disk: Tree, fs: Tree, parts: seq<Part>, src: Path, dst: Path)
    requires forall k :: 0 <= k < |parts| ==> !Nested(parts[k].dst, dst)
    requires forall p :: At(now, p) == Expected(disk, fs, parts, p)
    requires At(fs, src).Some? && Compatible(disk, fs, src, dst)
    ensures Compatible(now, fs, src, dst)
  {
    forall n | 0 < n <= |dst| ensures !IsFile(now, dst[..n]) {
      WayStaysOpen(disk, fs, parts, dst, n);
    }
    forall q ensures At(now, dst + q) == At(disk, dst + q) {
      ElsewhereAsBefore(disk, fs, parts, dst, q);
    }
  }

  lemma HoldsIsExpected(t: Tree, now: Tree, disk: Tree, fs: Tree, parts: seq<Part>, part: Part)
    requires At(fs, part.src).Some?
    requires forall p :: At(now, p) == Expected(disk, fs, parts, p)
    requires Holds(t, now, fs, part.src, part.dst, Below(fs, part.src))
    ensures forall p :: At(t, p) == Expected(disk, fs, parts + [part], p)
  {
    var all := parts + [part];
    assert all[..|all| - 1] == parts;
    assert part.src + [] == part.src;
    assert [] in Below(fs, part.src);
    forall p ensures At(t, p) == Expected(disk, fs, all, p) {
      assert At(t, p) == Want(now, fs, part.src, part.dst, Below(fs, part.src), p);
    }
  }

  /** Staging fails exactly when some part has a clash; otherwise the disk has
      exactly the images of the parts, and the rest is as it was. */
  lemma {:induction false} StagedExactly(disk: Tree, fs: Tree, parts: seq<Part>)
    requires WellFormed(fs) && Apart(parts) && Stageable(disk, fs, parts)
    ensures var (t, ok) := StagedParts(disk, fs, parts);
      && (ok <==> forall k :: 0 <= k < |parts| ==> !Clash(fs, parts[k].src))
      && (ok ==> forall p :: At(t, p) == Expected(disk, fs, parts, p))
  {
    hide WellFormed, Compatible, Clash, Covers, Copied, Holds;
    if parts != [] {
      var n := |parts| - 1;
      var init, last := parts[..n], parts[n];
      assert parts == init + [last];
      StagedExactly(disk, fs, init);
      var (t, ok) := StagedParts(disk, fs, init);
      if ok {
        StillCompatible(t, disk, fs, init, last.src, last.dst);
        CopiedExactly(t, fs, last.src, last.dst);
        if Copied(t, fs, last.src, last.dst).1 {
          HoldsIsExpected(Copied(t, fs, last.src, last.dst).0, t, disk, fs, init, last);
        }
      }
    }
  }

  /** What loading a pack guarantees about a bundle's folders: scenario names are
      distinct and have a task directory, and the flags say which folders exist. */
  ghost predicate Ships(fs: Tree, b: Bundle) {
    && WellFormed(fs)
    && (forall k :: 0 <= k < |b.scenarios| ==> IsDir(fs, TaskPart(b, b.scenarios[k].name).src))
    && (forall j, k :: 0 <= j < k < |b.scenarios| ==> b.scenarios[j].name != b.scenarios[k].name)
    && (b.hasLab ==> IsDir(fs, LabPart(b).src))
    && (b.hasKind ==> IsDir(fs, KindPart(b).src))
  }

  lemma PartAt(b: Bundle, k: nat)
    requires k < |Parts(b)|
    ensures
      if k < |b.scenarios| then Parts(b)[k] == TaskPart(b, b.scenarios[k].name)
      else if k == |b.scenarios| && b.hasLab then Parts(b)[k] == LabPart(b)
      else b.hasKind && Parts(b)[k] == KindPart(b)
    ensures k >= |b.scenarios| + (if b.hasLab then 1 else 0) ==> k == |Parts(b)| - 1
  {
  }

  lemma TaskPartsDiffer(b: Bundle, s: string, t: string)
    requires s != t
    ensures !Nested(TaskPart(b, s).dst, TaskPart(b, t).dst)
  {
    assert TaskPart(b, s).dst[2] == s && TaskPart(b, t).dst[2] == t;
  }

  lemma FoldersDiffer(b: Bundle, s: string)
    ensures !Nested(TaskPart(b, s).dst, LabPart(b).dst)
    ensures !Nested(TaskPart(b, s).dst, KindPart(b).dst)
    ensures !Nested(LabPart(b).dst, KindPart(b).dst)
  {
    assert TaskPart(b, s).dst[1] == "workspace" && LabPart(b).dst[1] == "lab" && KindPart(b).dst[1] == "kind";
    assert "workspace"[0] != "lab"[0] && "workspace"[0] != "kind"[0] && "lab"[0] != "kind"[0];
  }

  lemma PartsAreApart(fs: Tree, b: Bundle)
    requires Ships(fs, b)
    ensures Apart(Parts(b))
  {
    forall j, k | 0 <= j < k < |Parts(b)| ensures !Nested(Parts(b)[j].dst, Parts(b)[k].dst) {
      PartAt(b, j);
      PartAt(b, k);
      var s := if j < |b.scenarios| then b.scenarios[j].name else "";
      FoldersDiffer(b, s);
      if k < |b.scenarios| {
        TaskPartsDiffer(b, s, b.scenarios[k].name);
      }
    }
  }

  lemma PartsAreFolders(fs: Tree, b: Bundle, k: nat)
    requires Ships(fs, b) && k < |Parts(b)|
    ensures IsDir(fs, Parts(b)[k].src) && |Parts(b)[k].dst| >= 2 && Parts(b)[k].dst[0] == PAYLOAD
  {
    PartAt(b, k);
  }

  /** Nothing was staged here yet. */
  ghost predicate Unstaged(disk: Tree) {
    [] !in disk && forall p :: p in disk ==> p != [] && p[0] != PAYLOAD
  }

  lemma UnstagedFits(disk: Tree, fs: Tree, b: Bundle)
    requires Ships(fs, b) && Unstaged(disk)
    ensures Stageable(disk, fs, Parts(b))
  {
    forall k | 0 <= k < |Parts(b)|
      ensures IsDir(fs, Parts(b)[k].src) && Compatible(disk, fs, Parts(b)[k].src, Parts(b)[k].dst)
    {
      PartsAreFolders(fs, b, k);
      UnstagedIsOpen(disk, fs, Parts(b)[k].src, Parts(b)[k].dst);
    }
  }

  lemma UnstagedIsOpen(disk: Tree, fs: Tree, src: Path, dst: Path)
    requires Unstaged(disk) && dst != [] && dst[0] == PAYLOAD && At(fs, src).Some?
    ensures Compatible(disk, fs, src, dst)
  {
    forall n | 0 < n <= |dst| ensures !IsFile(disk, dst[..n]) {
      assert dst[..n][0] == PAYLOAD;
    }
    forall q ensures At(disk, dst + q).None? {
      assert (dst + q)[0] == PAYLOAD;
    }
  }

  /** The main result on staging a bundle for the first time: it fails exactly
      when a directory clashes with a placeholder in one of the shipped trees;
      otherwise the payload is exactly the union of the parts' images. */
  lemma FreshPayload(disk: Tree, fs: Tree, b: Bundle)
    requires Ships(fs, b) && Unstaged(disk)
    ensures var (t, ok) := StagedParts(disk, fs, Parts(b));
      && (ok <==> forall k :: 0 <= k < |Parts(b)| ==> !Clash(fs, Parts(b)[k].src))
      && (ok ==> forall p :: At(t, p) == Expected(disk, fs, Parts(b), p))
  {
    PartsAreApart(fs, b);
    UnstagedFits(disk, fs, b);
    StagedExactly(disk, fs, Parts(b));
  }

  // ------------------------------------------------------------- consequences

  lemma {:induction false} CoveredIsExpected(disk: Tree, fs: Tree, parts: seq<Part>, k: nat, p: Path)
    requires Apart(parts) && k < |parts| && Covers(fs, parts[k], p)
    ensures Expected(disk, fs, parts, p) == Image(fs, parts[k].src, p[|parts[k].dst|..])
  {
    hide Image, Covers, Apart;
    var n := |parts| - 1;
    CoversBelow(fs, parts[k], p);
    CoversBelow(fs, parts[n], p);
    if k < n {
      ApartFromLast(parts, k);
      NotAlsoBelow(parts[k].dst, parts[n].dst, p);
      CoveredIsExpected(disk, fs, parts[..n], k, p);
    }
  }

  lemma CoversBelow(fs: Tree, part: Part, p: Path)
    ensures Covers(fs, part, p) ==> part.dst <= p
  {
  }

  lemma ApartFromLast(parts: seq<Part>, k: nat)
    requires Apart(parts) && k < |parts| - 1
    ensures Apart(parts[..|parts| - 1]) && parts[..|parts| - 1][k] == parts[k]
    ensures !Nested(parts[k].dst, parts[|parts| - 1].dst)
  {
    hide Nested;
  }

  /** What is below one of two places apart is neither below nor above the other. */
  lemma NotAlsoBelow(a: Path, b: Path, p: Path)
    requires !Nested(a, b) && a <= p
    ensures !(b <= p) && !OnTheWay(p, b)
  {
    if b <= p {
      PrefixesNest(b, a, p);
    }
    assert OnTheWay(p, b) ==> a <= b;
  }

  lemma {:induction false} ExpectedFileIsCovered(disk: Tree, fs: Tree, parts: seq<Part>, p: Path)
    requires Expected(disk, fs, parts, p).Some? && Expected(disk, fs, parts, p).value.File? && At(disk, p).None?
    ensures exists k :: 0 <= k < |parts| && Covers(fs, parts[k], p)
              && Expected(disk, fs, parts, p) == Image(fs, parts[k].src, p[|parts[k].dst|..])
  {
    var n := |parts| - 1;
    if Covers(fs, parts[n], p) {
    } else {
      ExpectedFileIsCovered(disk, fs, parts[..n], p);
      var k :| 0 <= k < n && Covers(fs, parts[..n][k], p)
        && Expected(disk, fs, parts[..n], p) == Image(fs, parts[..n][k].src, p[|parts[..n][k].dst|..]);
      assert parts[..n][k] == parts[k];
    }
  }

  /** The source file that a copied file at `q` was made from: the one of its own
      path, or for a module file without one, the placeholder beside it. */
  function Origin(fs: Tree, src: Path, q: Path): Path {
    if Named(q, GO_MOD) && !IsFile(fs, src + q) then Sibling(q, PLACEHOLDER) else q
  }

  /** The file at `p` is the part's own, with its contents and the mode of its name. */
  predicate StagedFrom(t: Tree, fs: Tree, part: Part, p: Path) {
    && part.dst <= p
    && var from := part.src + Origin(fs, part.src, p[|part.dst|..]);
       IsFile(fs, from) && At(t, p) == Some(StagedNode(fs, from))
  }

  /** Every staged file comes, with its contents, from a shipped folder of the
      bundle: a task, the lab or the cluster configuration; and from nowhere else,
      so that solutions and manifests stay in the pack. */
  lemma EveryStagedFileIsShipped(disk: Tree, fs: Tree, b: Bundle, p: Path)
    requires Ships(fs, b) && Unstaged(disk)
    requires var (t, ok) := StagedParts(disk, fs, Parts(b));
      ok && IsFile(t, p) && p != [] && p[0] == PAYLOAD
    ensures exists k :: 0 <= k < |Parts(b)| && StagedFrom(StagedParts(disk, fs, Parts(b)).0, fs, Parts(b)[k], p)
  {
    hide Expected, Clash, Image, Ships, Parts, StagedParts, StagedNode, Origin;
    var parts := Parts(b);
    FreshPayload(disk, fs, b);
    assert At(disk, p).None?;
    ExpectedFileIsCovered(disk, fs, parts, p);
    var k :| 0 <= k < |parts| && Covers(fs, parts[k], p)
      && Expected(disk, fs, parts, p) == Image(fs, parts[k].src, p[|parts[k].dst|..]);
    ImageHasSource(fs, parts[k].src, p[|parts[k].dst|..]);
    assert StagedFrom(StagedParts(disk, fs, parts).0, fs, parts[k], p);
  }

  lemma ImageHasSource(fs: Tree, src: Path, q: Path)
    requires At(fs, src).Some? && Image(fs, src, q).Some? && Image(fs, src, q).value.File?
    ensures IsFile(fs, src + Origin(fs, src, q))
    ensures Image(fs, src, q) == Some(StagedNode(fs, src + Origin(fs, src, q)))
  {
    if At(fs, src + q).None? {
      var r := Sibling(q, PLACEHOLDER);
      NameBelow(src, r, PLACEHOLDER);
      NoShell(src + r);
    }
  }

  // -------------------------------------------------------------- restaging

  lemma {:induction false} BelowOnePart(disk: Tree, fs: Tree, parts: seq<Part>, k: nat, q: Path)
    requires Apart(parts) && k < |parts| && q != []
    ensures var p := parts[k].dst + q;
      Expected(disk, fs, parts, p)
        == if Covers(fs, parts[k], p) then Image(fs, parts[k].src, p[|parts[k].dst|..]) else At(disk, p)
  {
    var n := |parts| - 1;
    var p, last, dst := parts[k].dst + q, parts[n], parts[k].dst;
    if k == n {
      assert !OnTheWay(p, dst);
      ElsewhereAsBefore(disk, fs, parts[..n], dst, q);
    } else {
      assert !Nested(dst, last.dst);
      Drop(dst, q);
      if last.dst <= p {
        PrefixesNest(last.dst, dst, p);
      }
      assert OnTheWay(p, last.dst) ==> dst <= last.dst;
      assert parts[..n][k] == parts[k];
      BelowOnePart(disk, fs, parts[..n], k, q);
    }
  }

  lemma RootImage(fs: Tree, src: Path)
    requires IsDir(fs, src)
    ensures Image(fs, src, []) == Some(Dir)
  {
    assert src + [] == src;
    assert [] in Below(fs, src);
  }

  /** Directories on the way to a part are there. */
  lemma {:induction false} WayIsDir(disk: Tree, fs: Tree, parts: seq<Part>, k: nat, p: Path)
    requires Apart(parts) && k < |parts| && OnTheWay(p, parts[k].dst) && IsDir(fs, parts[k].src)
    ensures Expected(disk, fs, parts, p) == Some(Dir)
  {
    hide Image, Covers, Apart;
    var n := |parts| - 1;
    var last, dst := parts[n], parts[k].dst;
    CoversBelow(fs, last, p);
    if k == n {
      RootImage(fs, last.src);
      assert last.dst <= p ==> p == dst && p[|dst|..] == [];
    } else {
      ApartFromLast(parts, k);
      assert last.dst <= p ==> last.dst <= dst;
      WayIsDir(disk, fs, parts[..n], k, p);
    }
  }

  /** A staged disk fits the parts it was staged from. */
  lemma StagedFits(t: Tree, disk: Tree, fs: Tree, parts: seq<Part>, k: nat)
    requires Apart(parts) && k < |parts| && IsDir(fs, parts[k].src)
    requires forall q :: q != [] ==> At(disk, parts[k].dst + q).None?
    requires forall p :: At(t, p) == Expected(disk, fs, parts, p)
    ensures Compatible(t, fs, parts[k].src, parts[k].dst)
  {
    var dst := parts[k].dst;
    forall n | 0 < n <= |dst| ensures !IsFile(t, dst[..n]) {
      WayIsDir(disk, fs, parts, k, dst[..n]);
    }
    forall q | At(t, dst + q).Some? && q != []
      ensures Image(fs, parts[k].src, q).Some? && SameKind(At(t, dst + q).value, Image(fs, parts[k].src, q).value)
    {
      BelowOnePart(disk, fs, parts, k, q);
      Drop(dst, q);
    }
  }

  /** What staging again should give is what is there. */
  lemma {:induction false} ExpectedTwice(t: Tree, disk: Tree, fs: Tree, parts: seq<Part>, m: nat, p: Path)
    requires Apart(parts) && m <= |parts| && forall k :: 0 <= k < |parts| ==> IsDir(fs, parts[k].src)
    requires At(t, p) == Expected(disk, fs, parts, p)
    ensures Expected(t, fs, parts[..m], p) == At(t, p)
  {
    if m > 0 {
      var last := parts[m - 1];
      assert parts[..m][m - 1] == last && parts[..m][..m - 1] == parts[..m - 1];
      if Covers(fs, last, p) {
        CoveredIsExpected(disk, fs, parts, m - 1, p);
      } else if OnTheWay(p, last.dst) {
        WayIsDir(disk, fs, parts, m - 1, p);
      } else {
        ExpectedTwice(t, disk, fs, parts, m - 1, p);
      }
    }
  }

  lemma {:induction false} NoRootEntries(disk: Tree, fs: Tree, src: Path, dst: Path, rels: seq<Path>)
    requires [] !in disk && forall k :: 0 <= k < |rels| ==> At(fs, src + rels[k]).Some?
    ensures [] !in CopyEntries(disk, fs, src, dst, rels).0
  {
    if rels != [] {
      NoRootEntries(disk, fs, src, dst, rels[..|rels| - 1]);
    }
  }

  lemma {:induction false} NoRootParts(disk: Tree, fs: Tree, parts: seq<Part>)
    requires [] !in disk
    ensures [] !in StagedParts(disk, fs, parts).0
  {
    if parts != [] {
      var n := |parts| - 1;
      var src := parts[n].src;
      NoRootParts(disk, fs, parts[..n]);
      var t := StagedParts(disk, fs, parts[..n]).0;
      if At(fs, src).Some? {
        WalkIsPresent(fs, src);
        NoRootEntries(t, fs, src, parts[n].dst, Walk(fs, src));
      }
    }
  }

  /** Staging a bundle again changes nothing. */
  lemma RestagingChangesNothing(disk: Tree, fs: Tree, b: Bundle)
    requires Ships(fs, b) && Unstaged(disk)
    requires StagedParts(disk, fs, Parts(b)).1
    ensures var t := StagedParts(disk, fs, Parts(b)).0;
      StagedParts(t, fs, Parts(b)) == (t, true)
  {
    var parts := Parts(b);
    var t := StagedParts(disk, fs, parts).0;
    PartsAreApart(fs, b);
    FreshPayload(disk, fs, b);
    forall k | 0 <= k < |parts|
      ensures IsDir(fs, parts[k].src) && Compatible(t, fs, parts[k].src, parts[k].dst)
    {
      PartsAreFolders(fs, b, k);
      UnstagedBelow(disk, parts[k].dst);
      StagedFits(t, disk, fs, parts, k);
    }
    NoRootParts(disk, fs, parts);
    NoRootParts(t, fs, parts);
    StagedExactly(t, fs, parts);
    RestagedAlike(t, disk, fs, parts);
    hide Ships, Unstaged, Parts, Apart, Clash, Expected;
    SameTree(StagedParts(t, fs, parts).0, t);
  }

  lemma UnstagedBelow(disk: Tree, dst: Path)
    requires Unstaged(disk) && dst != [] && dst[0] == PAYLOAD
    ensures forall q :: At(disk, dst + q).None?
  {
    forall q ensures At(disk, dst + q).None? {
      assert (dst + q)[0] == PAYLOAD;
    }
  }

  lemma RestagedAlike(t: Tree, disk: Tree, fs: Tree, parts: seq<Part>)
    requires Apart(parts) && forall k :: 0 <= k < |parts| ==> IsDir(fs, parts[k].src)
    requires forall p :: At(t, p) == Expected(disk, fs, parts, p)
    ensures forall p :: Expected(t, fs, parts, p) == At(t, p)
  {
    assert parts[..|parts|] == parts;
    forall p ensures Expected(t, fs, parts, p) == At(t, p) {
      ExpectedTwice(t, disk, fs, parts, |parts|, p);
    }
  }

  // --------------------------------------------------------- the operations

  /** A directory on the engine's disk. */
  class Disk {
    var tree: Tree

    constructor ()
      ensures tree == map[]
    {
      tree := map[];
    }

    method MkdirAll(p: Path) returns (ok: bool)
      modifies this
      ensures ok == FileTree.MkdirAll(old(tree), p).Some?
      ensures tree == if ok then FileTree.MkdirAll(old(tree), p).value else old(tree)
    {
      var r := FileTree.MkdirAll(tree, p);
      ok := r.Some?;
      if ok {
        tree := r.value;
      }
    }

    method WriteFile(p: Path, data: string, exec: bool) returns (ok: bool)
      modifies this
      ensures ok == FileTree.WriteFile(old(tree), p, data, exec).Some?
      ensures tree == if ok then FileTree.WriteFile(old(tree), p, data, exec).value else old(tree)
    {
      var r := FileTree.WriteFile(tree, p, data, exec);
      ok := r.Some?;
      if ok {
        tree := r.value;
      }
    }

    /** Copies one subtree of a pack. */
    method CopyTree(fs: Tree, src: Path, dst: Path) returns (ok: bool)
      modifies this
      ensures (tree, ok) == Copied(old(tree), fs, src, dst)
    {
      if At(fs, src).None? {
        return false;
      }
      var rels := WalkDir(fs, src);
      WalkIsPresent(fs, src);
      ok := true;
      for n := 0 to |rels|
        invariant ok && (tree, true) == CopyEntries(old(tree), fs, src, dst, rels[..n])
      {
        CopyEntriesNext(old(tree), fs, src, dst, rels, n);
        FirstFailureStays(old(tree), fs, src, dst, rels, n + 1);
        var p, target := src + rels[n], dst + rels[n];
        match At(fs, p).value {
          case Dir =>
            ok := MkdirAll(target);
          case File(data, _) =>
            if Named(target, PLACEHOLDER) {
              target := Sibling(target, GO_MOD);
            }
            var exec := IsShell(p);
            ok := WriteFile(target, data, exec);
        }
        if !ok {
          return;
        }
      }
      assert rels[..|rels|] == rels;
    }

    /** Every scenario's task, under the scenario's name. */
    method StageTasks(fs: Tree, b: Bundle) returns (ok: bool)
      modifies this
      ensures (tree, ok) == StagedParts(old(tree), fs, TaskParts(b))
    {
      ghost var start := tree;
      ok := true;
      for n := 0 to |b.scenarios|
        invariant ok && (tree, true) == StagedParts(start, fs, TaskParts(b)[..n])
      {
        assert TaskParts(b)[..n + 1][..n] == TaskParts(b)[..n];
        ok := CopyTree(fs, ["bundles", b.name, "scenarios", b.scenarios[n].name, "task"],
                       [PAYLOAD, "workspace", b.scenarios[n].name]);
        if !ok {
          FailedPartStays(start, fs, TaskParts(b)[..n + 1], TaskParts(b));
          return;
        }
      }
      assert TaskParts(b)[..|b.scenarios|] == TaskParts(b);
    }

    /** Stages what a bundle ships: tasks first, then lab and cluster configuration. */
    method StagePayload(fs: Tree, b: Bundle) returns (ok: bool)
      modifies this
      ensures (tree, ok) == StagedParts(old(tree), fs, Parts(b))
    {
      ghost var parts, start := Parts(b), tree;
      ok := StageTasks(fs, b);
      if !ok {
        FailedPartStays(start, fs, TaskParts(b), parts);
        return;
      }
      ghost var labs := TaskParts(b) + (if b.hasLab then [LabPart(b)] else []);
      if b.hasLab {
        assert labs[..|labs| - 1] == TaskParts(b) && labs <= parts;
        ok := CopyTree(fs, ["bundles", b.name, "lab"], [PAYLOAD, "lab"]);
        if !ok {
          FailedPartStays(start, fs, labs, parts);
          return;
        }
      } else {
        assert labs == TaskParts(b);
      }
      if b.hasKind {
        assert parts[..|parts| - 1] == labs;
        ok := CopyTree(fs, ["bundles", b.name, "kind"], [PAYLOAD, "kind"]);
      } else {
        assert parts == labs;
      }
    }
  }

  lemma {:induction false} FirstFailureStays(disk: Tree, fs: Tree, src: Path, dst: Path, rels: seq<Path>, n: nat)
    requires n <= |rels| && forall k :: 0 <= k < |rels| ==> At(fs, src + rels[k]).Some?
    ensures !CopyEntries(disk, fs, src, dst, rels[..n]).1 ==>
      CopyEntries(disk, fs, src, dst, rels) == CopyEntries(disk, fs, src, dst, rels[..n])
    decreases |rels| - n
  {
    if n < |rels| {
      FirstFailureStays(disk, fs, src, dst, rels, n + 1);
      CopyEntriesNext(disk, fs, src, dst, rels, n);
    } else {
      assert rels[..n] == rels;
    }
  }

  lemma {:induction false} FailedPartStays(disk: Tree, fs: Tree, some: seq<Part>, all: seq<Part>)
    requires some <= all && !StagedParts(disk, fs, some).1
    ensures StagedParts(disk, fs, all) == StagedParts(disk, fs, some)
    decreases |all|
  {
    if some != all {
      assert some <= all[..|all| - 1];
      FailedPartStays(disk, fs, some, all[..|all| - 1]);
    }
  }

  // --------------------------------------------------- staged trees are trees

  lemma MkdirKeepsForm(t: Tree, p: Path)
    requires WellFormed(t) && PlainPath(p) && Passable(t, p)
    ensures WellFormed(MkdirAll(t, p).value)
  {
    var r := MkdirAll(t, p).value;
    forall q | q in r ensures HasPlace(r, q) {
      assert At(r, q) == if OnTheWay(q, p) then Some(Dir) else At(t, q);
      var up := q[..|q| - 1];
      assert At(r, up) == if OnTheWay(up, p) then Some(Dir) else At(t, up);
      if OnTheWay(q, p) {
        assert up <= q && IsFileName(p[|q| - 1]);
      } else {
        assert HasPlace(t, q);
      }
    }
  }

  lemma WriteKeepsForm(t: Tree, p: Path, data: string, exec: bool)
    requires WellFormed(t) && p != [] && IsFileName(p[|p| - 1]) && IsDir(t, p[..|p| - 1]) && !IsDir(t, p)
    ensures WellFormed(WriteFile(t, p, data, exec).value)
  {
    var r := WriteFile(t, p, data, exec).value;
    forall q | q in r ensures HasPlace(r, q) {
      var up := q[..|q| - 1];
      if q != p {
        assert HasPlace(t, q);
      }
      assert up != p;
      assert At(r, up) == At(t, up);
    }
  }

  lemma PlainBelow(src: Path, dst: Path, rel: Path)
    requires PlainPath(src + rel) && PlainPath(dst)
    ensures PlainPath(dst + rel)
  {
    forall k | 0 <= k < |dst + rel| ensures IsFileName((dst + rel)[k]) {
      if k >= |dst| {
        assert (src + rel)[k - |dst| + |src|] == rel[k - |dst|];
      }
    }
  }

  lemma CopyEntryKeepsForm(t: Tree, fs: Tree, src: Path, dst: Path, rel: Path)
    requires WellFormed(t) && WellFormed(fs) && PlainPath(dst) && At(fs, src + rel).Some?
    ensures WellFormed(CopyEntry(t, fs, src, dst, rel).0)
  {
    TreePathIsPlain(fs, src + rel);
    PlainBelow(src, dst, rel);
    var target := dst + rel;
    match At(fs, src + rel).value {
      case Dir =>
        if Passable(t, target) {
          MkdirKeepsForm(t, target);
        }
      case File(data, _) =>
        assert IsFileName(GO_MOD) by { assert '/' !in GO_MOD; }
        var p := if Named(target, PLACEHOLDER) then Sibling(target, GO_MOD) else target;
        if WriteFile(t, p, data, IsShell(src + rel)).Some? {
          assert IsFileName(p[|p| - 1]);
          WriteKeepsForm(t, p, data, IsShell(src + rel));
        }
    }
  }

  lemma {:induction false} CopyKeepsForm(t: Tree, fs: Tree, src: Path, dst: Path, rels: seq<Path>)
    requires WellFormed(t) && WellFormed(fs) && PlainPath(dst)
    requires forall k :: 0 <= k < |rels| ==> At(fs, src + rels[k]).Some?
    ensures WellFormed(CopyEntries(t, fs, src, dst, rels).0)
  {
    hide WellFormed, PlainPath;
    if rels != [] {
      var n := |rels| - 1;
      CopyKeepsForm(t, fs, src, dst, rels[..n]);
      CopyEntryKeepsForm(CopyEntries(t, fs, src, dst, rels[..n]).0, fs, src, dst, rels[n]);
    }
  }

  lemma {:induction false} StagingKeepsForm(t: Tree, fs: Tree, parts: seq<Part>)
    requires WellFormed(t) && WellFormed(fs) && forall k :: 0 <= k < |parts| ==> PlainPath(parts[k].dst)
    ensures WellFormed(StagedParts(t, fs, parts).0)
  {
    hide WellFormed, PlainPath, CopyEntries;
    if parts != [] {
      var n := |parts| - 1;
      StagingKeepsForm(t, fs, parts[..n]);
      var now, src := StagedParts(t, fs, parts[..n]).0, parts[n].src;
      if At(fs, src).Some? {
        WalkIsPresent(fs, src);
        CopyKeepsForm(now, fs, src, parts[n].dst, Walk(fs, src));
      }
    }
  }
}
