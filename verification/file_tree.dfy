/** File trees as finite maps from paths to nodes, the two operations that write
    them, and the order in which they are walked. */
module FileTree {
  import opened Options
  import opened Ordering

  /** The names from the root down; the root itself is the empty path. */
  type Path = seq<string>

  datatype Node = Dir | File(data: string, exec: bool)

  /** Every node but the root, which is always a directory. */
  type Tree = map<Path, Node>

  function At(t: Tree, p: Path): Option<Node> {
    if p == [] then Some(Dir) else if p in t then Some(t[p]) else None
  }

  predicate IsDir(t: Tree, p: Path) {
    At(t, p) == Some(Dir)
  }

  predicate IsFile(t: Tree, p: Path) {
    At(t, p).Some? && At(t, p).value.File?
  }

  /** A directory entry's name. */
  predicate IsFileName(name: string) {
    name != "" && '/' !in name
  }

  /** Every node but the root has a name and a directory above it. */
  ghost predicate WellFormed(t: Tree) {
    && [] !in t
    && (forall p :: p in t ==> HasPlace(t, p))
  }

  predicate HasPlace(t: Tree, p: Path) {
    p != [] && IsFileName(p[|p| - 1]) && IsDir(t, p[..|p| - 1])
  }

  /** In a well-formed tree everything above a node is a directory. */
  lemma {:induction false} AboveIsDir(t: Tree, p: Path, n: nat)
    requires WellFormed(t) && At(t, p).Some? && n < |p|
    ensures IsDir(t, p[..n])
    decreases |p|
  {
    var up := p[..|p| - 1];
    assert p in t && HasPlace(t, p);
    hide WellFormed;
    if n < |up| {
      AboveIsDir(t, up, n);
      assert up[..n] == p[..n];
    }
  }

  /** Every name on the path is a file name. */
  ghost predicate PlainPath(p: Path) {
    forall k :: 0 <= k < |p| ==> IsFileName(p[k])
  }

  /** Every path of a well-formed tree is one. */
  lemma {:induction false} TreePathIsPlain(t: Tree, p: Path)
    requires WellFormed(t) && At(t, p).Some?
    ensures PlainPath(p)
    decreases |p|
  {
    if p != [] {
      assert HasPlace(t, p);
      hide WellFormed;
      TreePathIsPlain(t, p[..|p| - 1]);
      assert p == p[..|p| - 1] + [p[|p| - 1]];
    }
  }

  // -------------------------------------------------------------- writing

  /** `q` is `p` or above it. */
  predicate OnTheWay(q: Path, p: Path) {
    q <= p
  }

  function UpTo(p: Path): (s: set<Path>)
    ensures forall q :: q in s <==> q != [] && OnTheWay(q, p)
  {
    var s := set n | 0 < n <= |p| :: p[..n];
    assert forall q :: q != [] && OnTheWay(q, p) ==> q == p[..|q|];
    s
  }

  /** Nothing on the way to `p`, nor `p` itself, is a file. */
  predicate Passable(t: Tree, p: Path) {
    forall n :: 0 < n <= |p| ==> !IsFile(t, p[..n])
  }

  /** Go's os.MkdirAll: None when something on the way is a file. */
  function MkdirAll(t: Tree, p: Path): (r: Option<Tree>)
    ensures r.Some? <==> Passable(t, p)
    ensures r.Some? ==> forall q :: At(r.value, q) == if OnTheWay(q, p) then Some(Dir) else At(t, q)
  {
    if !Passable(t, p) then None else Some(t + map q | q in UpTo(p) :: Dir)
  }

  /** Go's os.WriteFile: it needs the directory and must not hit one; a file that
      exists keeps its mode. */
  function WriteFile(t: Tree, p: Path, data: string, exec: bool): (r: Option<Tree>)
    ensures r.Some? <==> p != [] && IsDir(t, p[..|p| - 1]) && !IsDir(t, p)
    ensures r.Some? ==> forall q ::
      At(r.value, q) == if q == p then Some(File(data, if IsFile(t, p) then t[p].exec else exec)) else At(t, q)
  {
    if p == [] || !IsDir(t, p[..|p| - 1]) || IsDir(t, p) then None
    else Some(t[p := File(data, if IsFile(t, p) then t[p].exec else exec)])
  }

  /** Two trees that answer alike are the same. */
  lemma SameTree(a: Tree, b: Tree)
    requires [] !in a && [] !in b && forall p :: At(a, p) == At(b, p)
    ensures a == b
  {
    forall p ensures p in a <==> p in b {
      assert At(a, p) == At(b, p);
    }
    forall p | p in a ensures a[p] == b[p] {
      assert At(a, p) == At(b, p);
    }
  }

  // -------------------------------------------------------------- walking

  /** The paths below `root`, and the root itself, relative to it. */
  function Below(t: Tree, root: Path): (rels: set<Path>)
    requires At(t, root).Some?
    ensures forall r :: r in rels <==> At(t, root + r).Some?
  {
    var s := set p | p in t.Keys + {root} && root <= p :: p[|root|..];
    assert forall r :: r in s <==> At(t, root + r).Some? by { BelowIs(t, root, s); }
    s
  }

  lemma BelowIs(t: Tree, root: Path, s: set<Path>)
    requires At(t, root).Some?
    requires s == set p | p in t.Keys + {root} && root <= p :: p[|root|..]
    ensures forall r :: r in s <==> At(t, root + r).Some?
  {
    forall r ensures r in s <==> At(t, root + r).Some? {
      var p := root + r;
      assert p[|root|..] == r;
      if r in s {
        var q :| q in t.Keys + {root} && root <= q && q[|root|..] == r;
        assert q == root + r;
      }
      if At(t, p).Some? {
        assert p == [] ==> root == [];
        assert p in t.Keys + {root};
      }
    }
  }

  /** Go's lexical walks: everything below a root, parents first and siblings by
      name, as paths relative to the root. */
  ghost function Walk(t: Tree, root: Path): (rels: seq<Path>)
    requires At(t, root).Some?
    ensures SortedOf(PathLess, Below(t, root), rels)
  {
    PathsTotal();
    Listing(PathLess, Below(t, root))
  }

  /** A walk meets each path once. */
  lemma WalkIsDistinct(t: Tree, root: Path)
    requires At(t, root).Some?
    ensures var w := Walk(t, root); forall j, k :: 0 <= j < k < |w| ==> w[j] != w[k]
  {
    PathsTotal();
    forall j, k | 0 <= j < k < |Walk(t, root)| ensures Walk(t, root)[j] != Walk(t, root)[k] {
      assert PathLess(Walk(t, root)[j], Walk(t, root)[k]);
    }
  }

  /** What sorts before an element of a walk and is below the root was met before. */
  lemma MetBefore(t: Tree, root: Path, n: nat, r: Path)
    requires At(t, root).Some? && n < |Walk(t, root)|
    requires At(t, root + r).Some?
    ensures PathLess(r, Walk(t, root)[n]) <==> r in Walk(t, root)[..n]
  {
    var w := Walk(t, root);
    PathsTotal();
    assert r in Below(t, root);
    var k :| 0 <= k < |w| && w[k] == r;
    assert k < n ==> PathLess(r, w[n]);
    assert k > n ==> PathLess(w[n], r);
    assert k >= n ==> !PathLess(r, w[n]);
    assert k < n ==> w[..n][k] == r;
    WalkIsDistinct(t, root);
  }

  lemma WalkedIsPresent(t: Tree, root: Path, n: nat)
    requires At(t, root).Some? && n < |Walk(t, root)|
    ensures At(t, root + Walk(t, root)[n]).Some?
  {
    assert Walk(t, root)[n] in Walk(t, root);
  }

  lemma TakeBelow(root: Path, r: Path, k: nat)
    requires k <= |r|
    ensures (root + r)[..|root| + k] == root + r[..k]
  {
  }

  lemma UpComesFirst(r: Path, k: nat)
    requires k < |r|
    ensures PathLess(r[..k], r)
  {
    PrefixComesFirst(StringLess, r[..k], r[k..]);
    assert r[..k] + r[k..] == r;
  }

  /** A walk meets a directory before anything in it. */
  lemma ParentsFirst(t: Tree, root: Path, n: nat, k: nat)
    requires WellFormed(t) && At(t, root).Some? && n < |Walk(t, root)| && k < |Walk(t, root)[n]|
    ensures Walk(t, root)[n][..k] in Walk(t, root)[..n] && IsDir(t, root + Walk(t, root)[n][..k])
  {
    hide WellFormed, PathLess, At;
    var r := Walk(t, root)[n];
    WalkedIsPresent(t, root, n);
    UpComesFirst(r, k);
    AboveIsDir(t, root + r, |root| + k);
    TakeBelow(root, r, k);
    MetBefore(t, root, n, r[..k]);
  }

  /** The walk as the library computes it. */
  method WalkDir(t: Tree, root: Path) returns (rels: seq<Path>)
    requires At(t, root).Some?
    ensures rels == Walk(t, root)
  {
    PathsTotal();
    hide Total, PathLess;
    var found := Elements(Below(t, root));
    rels := SortDistinct(PathLess, found);
    ListingUnique(PathLess, Below(t, root), rels);
  }
}
