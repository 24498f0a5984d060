/** The change list is canonical, and a copied tree has no changes. */
module LayerShape {
  import opened Order
  import opened LayerDiff
  import opened LayerApply
  import opened Numbers
  import opened Wrappers

  /** One diff has one list: the layer's bytes are a function of its contents. */
  lemma {:induction false} DiffIsUnique(base: Tree, through: Tree, result: Tree, a: seq<Change>, b: seq<Change>)
    requires IsDiff(base, through, result, a) && IsDiff(base, through, result, b)
    ensures a == b
  {
    hide DiffSet;
    SortedListsAgree(a, b);
  }

  lemma {:induction false} SortedListsAgree(a: seq<Change>, b: seq<Change>)
    requires StrictlySorted(a) && StrictlySorted(b) && multiset(a) == multiset(b)
    ensures a == b
    decreases |a|
  {
    assert |a| == |multiset(a)| == |multiset(b)| == |b|;
    if a != [] {
      hide Before;
      assert a[0] in multiset(b) && b[0] in multiset(a);
      Asymmetric(a[0], b[0]);
      assert a[0] == b[0];
      assert a == [a[0]] + a[1..] && b == [b[0]] + b[1..];
      assert multiset(a[1..]) == multiset(a) - multiset{a[0]};
      SortedListsAgree(a[1..], b[1..]);
    }
  }

  /** Parents precede children, and a whiteout precedes its replacement. */
  lemma ParentsFirst(base: Tree, through: Tree, result: Tree, changes: seq<Change>, i: nat, j: nat)
    requires IsDiff(base, through, result, changes) && i < |changes| && j < |changes|
    ensures changes[i].path < changes[j].path ==> i < j
    ensures i != j && changes[i].path == changes[j].path ==> (changes[i].kind.Whiteout? <==> i < j)
  {
    PathsStrictTotal();
    if changes[i].path < changes[j].path { PrefixFirst(changes[i].path, changes[j].path); }
    hide PathLess, DiffSet;
  }

  /** No whiteout lies below another. */
  lemma WhiteoutsAreAnAntichain(base: Tree, through: Tree, result: Tree, changes: seq<Change>, i: nat, j: nat)
    requires WellFormed(base) && WellFormed(result) && NoLinkBecomesDir(base, result)
    requires IsDiff(base, through, result, changes) && i < |changes| && j < |changes|
    requires changes[i].kind.Whiteout? && changes[j].kind.Whiteout?
    ensures !(changes[i].path < changes[j].path)
  {
    Whitened(base, through, result, changes, i);
    Whitened(base, through, result, changes, j);
    AboveAreDirs(base, result, changes[i].path, changes[j].path);
  }

  lemma AboveAreDirs(base: Tree, result: Tree, w: Path, q: Path)
    requires WellFormed(base) && WellFormed(result)
    requires q in base && w != [] && (q in result || Gone(result, q))
    ensures w < q ==> w in base && base[w].Dir? && w in result && result[w].Dir?
  {
    if w < q {
      AncestorsAreDirs(base, q, |w|);
      assert q[..|w|] == w && Parent(q)[..|w|] == w;
      if q in result {
        AncestorsAreDirs(result, q, |w|);
      } else if |w| < |q| - 1 {
        AncestorsAreDirs(result, Parent(q), |w|);
      } else {
        assert w == Parent(q);
      }
    }
  }

  /** A whiteout covers an entry of the base itself. */
  lemma Whitened(base: Tree, through: Tree, result: Tree, changes: seq<Change>, i: nat)
    requires WellFormed(base) && WellFormed(result) && NoLinkBecomesDir(base, result)
    requires IsDiff(base, through, result, changes) && i < |changes| && changes[i].kind.Whiteout?
    ensures var w := changes[i].path;
            w != [] && w in base && if w in result then KindChanged(Some(base[w]), result[w]) else Gone(result, w)
  {
    var w := changes[i].path;
    DiffMember(base, through, result, changes, i);
    WalkedIsVisible(result, w);
    WalkedIsVisible(base, w);
    if w in result && w !in base && ThroughLink(base, w) {
      var k :| 0 < k < |w| && w[..k] in base && base[w[..k]].Symlink?;
      AncestorsAreDirs(result, w, k);
    }
  }

  // --- copy_preserving --------------------------------------------------------

  /** What a copy makes of an entry; a link is stamped with the time of copying. */
  function CopyOf(e: Entry, now: int): Entry {
    match e
    case File(mode, mtime, nsec, content) => File(mode, Max(mtime, 0), Max(nsec, 0), content)
    case Dir(mode, mtime) => Dir(mode, Max(mtime, 0))
    case Symlink(target, _) => Symlink(target, now)
    case Device => e
  }

  predicate Copied(src: Tree, p: Path) {
    p in src && !src[p].Device? && forall k | 0 <= k < |p| :: !Internal(p[k])
  }

  function CopyPaths(src: Tree, rel: Path, names: set<string>): set<Path> {
    set p | p in src.Keys && rel < p && p[|rel|] in names && Copied(src, p)
  }

  function CopyMap(src: Tree, paths: set<Path>, now: int): Tree {
    map p | p in paths && p in src :: CopyOf(src[p], now)
  }

  function CopyUnder(src: Tree, rel: Path, names: set<string>, now: int): Tree {
    CopyMap(src, CopyPaths(src, rel, names), now)
  }

  /** The destination directory of a copy. */
  class Volume {
    var tree: Tree

    constructor ()
      ensures tree == map[]
    {
      tree := map[];
    }
  }

  method CopyPreserving(src: Tree, rel: Path, now: int, dst: Volume)
    requires WellFormed(src) && forall k | 0 <= k < |rel| :: !Internal(rel[k])
    modifies dst
    ensures dst.tree == old(dst.tree) + CopyUnder(src, rel, Children(src, rel), now)
    decreases Below(src, rel)
  {
    hide CopyUnder, Children, Below, WellFormed, Internal;
    var todo := Children(src, rel);
    ghost var done: set<string> := {};
    CopyNone(src, rel, now);
    while todo != {}
      invariant done + todo == Children(src, rel) && done !! todo
      invariant dst.tree == old(dst.tree) + CopyUnder(src, rel, done, now)
      decreases todo
    {
      var name :| name in todo;
      var to := rel + [name];
      CopyStep(src, rel, done, name, now, old(dst.tree));
      todo := todo - {name};
      done := done + {name};
      if Internal(name) {
        continue;
      }
      var from := src[to];
      if from.Dir? {
        CopyPreserving(src, to, now, dst);
        dst.tree := dst.tree[to := Dir(from.mode, Max(from.mtime, 0))];
      } else if from.Symlink? {
        dst.tree := dst.tree[to := Symlink(from.target, now)];
      } else if from.File? {
        dst.tree := dst.tree[to := File(from.mode, Max(from.mtime, 0), Max(from.nsec, 0), from.content)];
      }
    }
    assert done == Children(src, rel);
  }

  lemma CopyNone(src: Tree, rel: Path, now: int)
    ensures CopyUnder(src, rel, {}, now) == map[]
  {
  }

  /** One name's share of a copy, put over what was there. */
  lemma CopyStep(src: Tree, rel: Path, done: set<string>, name: string, now: int, start: Tree)
    requires WellFormed(src) && (forall k | 0 <= k < |rel| :: !Internal(rel[k])) && name in Children(src, rel)
    ensures var child := rel + [name];
            var before := start + CopyUnder(src, rel, done, now);
            && child in src && Below(src, child) < Below(src, rel)
            && start + CopyUnder(src, rel, done + {name}, now) ==
               (if Internal(name) || src[child].Device? then before
                else if src[child].Dir? then (before + CopyUnder(src, child, Children(src, child), now))[child := CopyOf(src[child], now)]
                else before[child := CopyOf(src[child], now)])
  {
    var child := rel + [name];
    var paths, below := CopyPaths(src, rel, done), CopyPaths(src, child, Children(src, child));
    PathStep(src, rel, done, name);
    hide CopyPaths, CopyOf, CopyMap, Internal, Children, WellFormed, Below;
    assert paths + {} == paths;
    if !Internal(name) && !src[child].Device? { MapStep(src, paths, child, below, now, start); }
  }

  lemma MapStep(src: Tree, paths: set<Path>, child: Path, below: set<Path>, now: int, start: Tree)
    requires child in src
    ensures start + CopyMap(src, paths + ({child} + below), now) ==
            (start + CopyMap(src, paths, now) + CopyMap(src, below, now))[child := CopyOf(src[child], now)]
    ensures below == {} ==> start + CopyMap(src, paths, now) + CopyMap(src, below, now) == start + CopyMap(src, paths, now)
  {
    hide CopyOf;
  }

  lemma PathStep(src: Tree, rel: Path, done: set<string>, name: string)
    requires WellFormed(src) && (forall k | 0 <= k < |rel| :: !Internal(rel[k])) && name in Children(src, rel)
    ensures var child := rel + [name];
            && child in src && Below(src, child) < Below(src, rel)
            && CopyPaths(src, rel, done + {name}) == CopyPaths(src, rel, done) +
               (if Internal(name) || src[child].Device? then {} else {child} + CopyPaths(src, child, Children(src, child)))
            && (!src[child].Dir? ==> CopyPaths(src, child, Children(src, child)) == {})
  {
    var child := rel + [name];
    var q :| q in src && |q| == |rel| + 1 && rel < q && q[|rel|] == name;
    assert q == child;
    assert child in Below(src, rel) && child !in Below(src, child);
    assert Copied(src, child) <==> !Internal(name) && !src[child].Device?;
    forall p | p in src && rel < p && p[|rel|] == name && Copied(src, p) ensures !Internal(name) {}
    forall p | p in src && child < p ensures src[child].Dir? && p[|child|] in Children(src, child) {
      NextIsChild(src, child, p);
    }
    hide Copied, Internal, WellFormed;
    OnePath(src, rel, name);
  }

  lemma OnePath(src: Tree, rel: Path, name: string)
    requires rel + [name] in src
    requires var child := rel + [name]; forall p | p in src && child < p :: p[|child|] in Children(src, child)
    ensures var child := rel + [name];
            CopyPaths(src, rel, {name}) ==
            (if Copied(src, child) then {child} else {}) + CopyPaths(src, child, Children(src, child))
  {
    hide Copied;
    var child := rel + [name];
    var one, below := CopyPaths(src, rel, {name}), CopyPaths(src, child, Children(src, child));
    forall p | p in one && p != child ensures p in below {
      assert p == rel + p[|rel|..];
      assert child < p && p[|child|] in Children(src, child);
    }
    forall p | p in below ensures p in one {
      assert child < p && rel < p && p[|rel|] == name;
    }
    assert rel < child && child[|rel|] == name;
    assert child in one <==> Copied(src, child);
  }

  // --- Nothing changed, nothing emitted ---------------------------------------

  function CopyAll(src: Tree, now: int): Tree { CopyUnder(src, [], Children(src, []), now) }

  ghost predicate Copyable(src: Tree) {
    forall p <- src | Visible(p) :: !src[p].Device? && (src[p].File? ==> src[p].mtime >= 0)
  }

  /** Diffing a tree against its copy finds nothing exactly when the tree has no
      device node and no file from before 1970 where the diff looks. */
  lemma CopyHasNoDiff(src: Tree, through: Tree, now: int)
    requires WellFormed(src) && forall p <- src | src[p].File? :: src[p].nsec >= 0
    ensures WellFormed(CopyAll(src, now))
    ensures DiffSet(src, through, CopyAll(src, now)) == {} <==> Copyable(src)
  {
    CopyIsWellFormed(src, now);
    if Copyable(src) {
      forall c ensures c !in DiffSet(src, through, CopyAll(src, now)) { CopyUnchanged(src, through, now, c); }
    } else {
      var p :| p in src && Visible(p) && (src[p].Device? || (src[p].File? && src[p].mtime < 0));
      CopyChanged(src, through, now, p);
    }
  }

  lemma CopyUnchanged(src: Tree, through: Tree, now: int, c: Change)
    requires WellFormed(src) && (forall p <- src | src[p].File? :: src[p].nsec >= 0) && Copyable(src)
    ensures c !in DiffSet(src, through, CopyAll(src, now))
  {
    var copy := CopyAll(src, now);
    InDiff(src, through, copy, c);
    WalkedIsVisible(copy, c.path);
    WalkedIsVisible(src, c.path);
    CopyAt(src, now, c.path);
    hide CopyUnder, WalkAll, Visible;
  }

  lemma CopyChanged(src: Tree, through: Tree, now: int, p: Path)
    requires WellFormed(src) && p in src && Visible(p) && (src[p].Device? || (src[p].File? && src[p].mtime < 0))
    ensures DiffSet(src, through, CopyAll(src, now)) != {}
  {
    var copy := CopyAll(src, now);
    CopyIsWellFormed(src, now);
    CopyAt(src, now, p);
    NextIsChild(src, [], p);
    if src[p].Device? {
      ParentCopied(src, now, p);
      assert p in WalkAll(src, []);
      hide CopyUnder, WalkAll, Visible;
      InDiff(src, through, copy, Change(p, Whiteout));
    } else {
      NextIsChild(copy, [], p);
      assert p in WalkAll(copy, []);
      hide CopyUnder, WalkAll, Visible;
      InDiff(src, through, copy, Addition(p, copy[p]));
    }
  }

  lemma CopyAt(src: Tree, now: int, p: Path)
    requires WellFormed(src)
    ensures p in CopyAll(src, now) <==> Copied(src, p)
    ensures p in CopyAll(src, now) ==> CopyAll(src, now)[p] == CopyOf(src[p], now)
    ensures p in CopyAll(src, now) ==>
            match src[p]
            case Dir(mode, mtime) => CopyAll(src, now)[p] == Dir(mode, if mtime < 0 then 0 else mtime)
            case File(mode, mtime, nsec, content) =>
              CopyAll(src, now)[p] == File(mode, if mtime < 0 then 0 else mtime, if nsec < 0 then 0 else nsec, content)
            case Symlink(target, _) => CopyAll(src, now)[p] == Symlink(target, now)
            case Device => false
    ensures Copied(src, p) <==>
            p in src && !src[p].Device? && forall k | 0 <= k < |p| :: p[k] != ".zygo-complete" && p[k] != ".zygo-whiteouts.json"
    ensures p in src && Visible(p) ==> (Copied(src, p) <==> !src[p].Device?)
  {
    if Copied(src, p) { NextIsChild(src, [], p); }
  }

  lemma ParentCopied(src: Tree, now: int, p: Path)
    requires WellFormed(src) && p in src && forall k | 0 <= k < |p| :: !Internal(p[k])
    ensures DirIn(CopyAll(src, now), Parent(p))
  {
    if |p| > 1 { CopyAt(src, now, Parent(p)); }
  }

  lemma CopyIsWellFormed(src: Tree, now: int)
    requires WellFormed(src)
    ensures WellFormed(CopyAll(src, now))
  {
    var copy := CopyAll(src, now);
    forall p | p in copy && |p| > 1 ensures p[..|p| - 1] in copy && copy[p[..|p| - 1]].Dir? {
      CopyAt(src, now, p);
      ParentCopied(src, now, p);
    }
  }
}