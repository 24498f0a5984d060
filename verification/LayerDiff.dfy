/** `derive.rs`: the difference between two file trees as an OCI layer, and what
    that layer gives when it is applied over the first tree.

    A tree is a map from paths to entries; the root `[]` is left out of it. The
    layer is applied by the OCI Image Format Specification, "Image Layer
    Filesystem Changeset", sections "Applying Changesets" and "Whiteouts".
 */
module LayerDiff {
  import opened Order
  import opened Wrappers

  type Path = seq<string>

  datatype Entry =
    | Dir(mode: int, mtime: int)
    | File(mode: int, mtime: int, nsec: int, content: seq<int>)
    | Symlink(target: string, mtime: int)
    | Device

  type Tree = map<Path, Entry>

  ghost predicate WellFormed(t: Tree) {
    && [] !in t
    && forall p <- t :: |p| > 1 ==> p[..|p| - 1] in t && t[p[..|p| - 1]].Dir?
  }

  lemma {:induction false} AncestorsAreDirs(t: Tree, p: Path, k: nat)
    requires WellFormed(t) && p in t && 0 < k < |p|
    ensures p[..k] in t && t[p[..k]].Dir?
    decreases |p| - k
  {
    if k < |p| - 1 {
      AncestorsAreDirs(t, p, k + 1);
      assert p[..k + 1][..k] == p[..k];
    }
  }

  // --- What the diff looks at -------------------------------------------------

  predicate Internal(name: string) { name == ".zygo-complete" || name == ".zygo-whiteouts.json" }

  predicate RuntimeDir(name: string) { name in ["proc", "sys", "dev", "tmp", "run"] }

  /** Entries the diff never looks at. */
  predicate Skipped(rel: Path, name: string) {
    Internal(name) || (rel == [] && RuntimeDir(name))
  }

  predicate Visible(p: Path) {
    forall k | 0 <= k < |p| :: !Skipped(p[..k], p[k])
  }

  /** Some directory on the way to `p` is a symbolic link in `t`. */
  predicate ThroughLink(t: Tree, p: Path) {
    exists k | 0 < k < |p| :: p[..k] in t && t[p[..k]].Symlink?
  }

  /** `symlink_metadata(base.join(p))`. The kernel follows a link in the middle of
      the path, and `through` is whatever it then finds: an arbitrary map, since
      the link may lead anywhere. */
  function Stat(base: Tree, through: Tree, p: Path): Option<Entry> {
    if p in base then Some(base[p])
    else if ThroughLink(base, p) && p in through then Some(through[p])
    else None
  }

  predicate KindChanged(before: Option<Entry>, after: Entry) {
    before.Some? &&
    var b := before.value;
    b.Dir? != after.Dir? || b.Symlink? != after.Symlink? || b.File? != after.File?
  }

  /** The diff takes `after` for what was already there, and emits nothing. */
  predicate Unchanged(before: Option<Entry>, after: Entry) {
    && before.Some?
    && !KindChanged(before, after)
    && match after
       case Dir(_, _) => true
       case Symlink(target, _) => before.value.target == target
       case File(mode, mtime, nsec, content) =>
         var b := before.value;
         |b.content| == |content| && b.mtime == mtime && b.nsec == nsec && b.mode == mode
       case Device => true
  }

  datatype Kind =
    | AddDir(mode: int, mtime: int)
    | AddFile(mode: int, mtime: int, size: nat, source: Path)
    | AddLink(target: string, mtime: int)
    | Whiteout

  datatype Change = Change(path: Path, kind: Kind)

  function Rank(c: Change): int { if c.kind.Whiteout? then 0 else 1 }

  predicate Before(a: Change, b: Change) {
    PathLess(a.path, b.path) || (a.path == b.path && Rank(a) < Rank(b))
  }

  function Addition(p: Path, after: Entry): Change
    requires !after.Device?
  {
    Change(p, match after
              case Dir(mode, mtime) => AddDir(mode, mtime)
              case File(mode, mtime, _, content) => AddFile(mode, mtime, |content|, p)
              case Symlink(target, mtime) => AddLink(target, mtime))
  }

  /** The changes at one path of `result`. */
  function ChangesAt(base: Tree, through: Tree, p: Path, after: Entry): seq<Change> {
    var before := Stat(base, through, p);
    (if KindChanged(before, after) then [Change(p, Whiteout)] else []) +
    (if after.Device? || Unchanged(before, after) then [] else [Addition(p, after)])
  }

  /** The changes `additions` owes at a set of paths. */
  ghost function Added(base: Tree, through: Tree, result: Tree, paths: set<Path>): set<Change> {
    set p, c | p in paths && p in result && c in ChangesAt(base, through, p, result[p]) :: c
  }

  predicate DirIn(t: Tree, p: Path) { p == [] || (p in t && t[p].Dir?) }

  /** `p` is gone from a directory that is still a directory. */
  predicate Gone(result: Tree, p: Path) {
    p != [] && p !in result && DirIn(result, p[..|p| - 1])
  }

  /** The whiteouts `deletions` owes at a set of paths of the base. */
  ghost function Removed(result: Tree, paths: set<Path>): set<Change> {
    set p | p in paths && Gone(result, p) :: Change(p, Whiteout)
  }

  /** The visible paths of `t` below `rel` that go through one of `names`. */
  ghost function Walk(t: Tree, rel: Path, names: set<string>): set<Path> {
    set p | p in t.Keys && rel < p && p[|rel|] in names && Visible(p)
  }

  function Children(t: Tree, rel: Path): set<string> {
    set p | p in t.Keys && |p| == |rel| + 1 && rel < p :: p[|rel|]
  }

  ghost function WalkAll(t: Tree, rel: Path): set<Path> { Walk(t, rel, Children(t, rel)) }

  function Below(t: Tree, rel: Path): set<Path> { set p | p in t.Keys && rel < p }

  /** The whole change set, path by path. */
  ghost function DiffSet(base: Tree, through: Tree, result: Tree): set<Change> {
    Added(base, through, result, WalkAll(result, [])) + Removed(result, WalkAll(base, []))
  }

  ghost predicate StrictlySorted(s: seq<Change>) {
    forall i, j | 0 <= i < j < |s| :: Before(s[i], s[j])
  }

  ghost predicate IsDiff(base: Tree, through: Tree, result: Tree, changes: seq<Change>) {
    StrictlySorted(changes) && multiset(changes) == multiset(DiffSet(base, through, result))
  }

  // --- The two walks ----------------------------------------------------------

  /** The `Vec<Change>` both walks push onto. */
  class ChangeList {
    var items: seq<Change>

    constructor ()
      ensures items == []
    {
      items := [];
    }

    method Push(c: Change)
      modifies this
      ensures items == old(items) + [c]
    {
      items := items + [c];
    }

    /** The pushes of `additions` for one entry. */
    method Emit(base: Tree, through: Tree, child: Path, after: Entry)
      modifies this
      ensures items == old(items) + ChangesAt(base, through, child, after)
    {
      var before := Stat(base, through, child);
      var kindChanged := KindChanged(before, after);
      ghost var start := items;
      if kindChanged {
        Push(Change(child, Whiteout));
      }
      ghost var hidden := if kindChanged then [Change(child, Whiteout)] else [];
      var same := !kindChanged && before.Some?;
      if after.Dir? {
        if before.None? || kindChanged {
          Push(Change(child, AddDir(after.mode, after.mtime)));
        }
      } else if after.Symlink? {
        same := same && before.value.target == after.target;
        if !same {
          Push(Change(child, AddLink(after.target, after.mtime)));
        }
      } else if after.File? {
        same := same &&
                |before.value.content| == |after.content| && before.value.mtime == after.mtime &&
                before.value.nsec == after.nsec && before.value.mode == after.mode;
        if !same {
          Push(Change(child, AddFile(after.mode, after.mtime, |after.content|, child)));
        }
      }
      ghost var added := if after.Device? || same then [] else [Addition(child, after)];
      assert same == Unchanged(before, after);
      assert items == start + hidden + added == start + (hidden + added);
    }
  }

  /** The names are taken in any order: the list is sorted afterwards. */
  method Additions(base: Tree, through: Tree, result: Tree, rel: Path, out: ChangeList)
    requires WellFormed(result) && Visible(rel)
    modifies out
    ensures multiset(out.items) ==
            multiset(old(out.items)) + multiset(Added(base, through, result, WalkAll(result, rel)))
    decreases Below(result, rel)
  {
    hide Walk, Added, ChangesAt, Visible, Children, Skipped, Below, WellFormed;
    var todo := Children(result, rel);
    ghost var done: set<string> := {};
    NoNames(base, through, result, rel);
    while todo != {}
      invariant done + todo == Children(result, rel) && done !! todo
      invariant multiset(out.items) ==
                multiset(old(out.items)) + multiset(Added(base, through, result, Walk(result, rel, done)))
      decreases todo
    {
      var name :| name in todo;
      var child := rel + [name];
      AddedStep(base, through, result, rel, done, name);
      todo := todo - {name};
      done := done + {name};
      if !Skipped(rel, name) {
        ChangesOnce(base, through, result, child);
        out.Emit(base, through, child, result[child]);
        if result[child].Dir? {
          Additions(base, through, result, child, out);
        }
      }
    }
    assert done == Children(result, rel);
  }

  method Deletions(base: Tree, result: Tree, rel: Path, out: ChangeList)
    requires WellFormed(base) && WellFormed(result)
    requires DirIn(base, rel) && DirIn(result, rel) && Visible(rel)
    modifies out
    ensures multiset(out.items) == multiset(old(out.items)) + multiset(Removed(result, WalkAll(base, rel)))
    decreases Below(base, rel)
  {
    hide Walk, Removed, Visible, Children, Skipped, Below, WellFormed;
    var todo := Children(base, rel);
    ghost var done: set<string> := {};
    NoNames(base, map[], result, rel);
    while todo != {}
      invariant done + todo == Children(base, rel) && done !! todo
      invariant multiset(out.items) == multiset(old(out.items)) + multiset(Removed(result, Walk(base, rel, done)))
      decreases todo
    {
      var name :| name in todo;
      var child := rel + [name];
      RemovedStep(base, result, rel, done, name);
      todo := todo - {name};
      done := done + {name};
      if !Skipped(rel, name) {
        if child !in result {
          out.Push(Change(child, Whiteout));
        } else if base[child].Dir? && result[child].Dir? {
          Deletions(base, result, child, out);
        }
      }
    }
    assert done == Children(base, rel);
  }

  lemma NoNames(base: Tree, through: Tree, result: Tree, rel: Path)
    ensures Added(base, through, result, Walk(result, rel, {})) == {}
    ensures Removed(result, Walk(base, rel, {})) == {}
  {
  }

  /** One name's share of a walk: its own path, then everything below it. */
  lemma WalkStep(t: Tree, rel: Path, done: set<string>, name: string)
    requires WellFormed(t) && Visible(rel) && name in Children(t, rel) && name !in done
    ensures rel + [name] in t
    ensures Below(t, rel + [name]) < Below(t, rel)
    ensures Walk(t, rel, done + {name}) == Walk(t, rel, done) + Walk(t, rel, {name})
    ensures Walk(t, rel, done) !! Walk(t, rel, {name})
    ensures Skipped(rel, name) ==> Walk(t, rel, {name}) == {}
    ensures !Skipped(rel, name) ==>
              && Visible(rel + [name])
              && Walk(t, rel, {name}) == {rel + [name]} + WalkAll(t, rel + [name])
              && rel + [name] !in WalkAll(t, rel + [name])
    ensures !t[rel + [name]].Dir? ==> WalkAll(t, rel + [name]) == {}
  {
    var child := rel + [name];
    var q :| q in t && |q| == |rel| + 1 && rel < q && q[|rel|] == name;
    assert q == child;
    assert child in Below(t, rel) && child !in Below(t, child);
    if Skipped(rel, name) {
      forall p | p in t && rel < p && p[|rel|] == name ensures !Visible(p) { assert p[..|rel|] == rel; }
    } else {
      VisibleChild(rel, name);
      forall p | p in Walk(t, rel, {name}) && p != child ensures p in WalkAll(t, child) {
        assert p == rel + p[|rel|..] && child < p;
        NextIsChild(t, child, p);
      }
      forall p | p in WalkAll(t, child) ensures p in Walk(t, rel, {name}) {
        assert rel < child < p;
      }
    }
    forall p | p in t && child < p ensures t[child].Dir? {
      NextIsChild(t, child, p);
    }
  }

  lemma VisibleChild(rel: Path, name: string)
    requires Visible(rel) && !Skipped(rel, name)
    ensures Visible(rel + [name])
  {
    var p := rel + [name];
    forall k | 0 <= k < |p| ensures !Skipped(p[..k], p[k]) {
      assert p[..k] == rel[..k];
      if k == |rel| { assert rel[..k] == rel; }
    }
  }

  lemma NextIsChild(t: Tree, rel: Path, p: Path)
    requires WellFormed(t) && p in t && rel < p
    ensures p[|rel|] in Children(t, rel)
    ensures rel != [] ==> rel in t && t[rel].Dir?
  {
    var q := p[..|rel| + 1];
    if |q| < |p| { AncestorsAreDirs(t, p, |q|); } else { assert q == p; }
    assert q in t && rel < q && q[|rel|] == p[|rel|];
    if rel != [] {
      AncestorsAreDirs(t, p, |rel|);
      assert p[..|rel|] == rel;
    }
  }

  lemma AddedUnion(base: Tree, through: Tree, result: Tree, a: set<Path>, b: set<Path>)
    requires a !! b
    ensures multiset(Added(base, through, result, a + b)) ==
            multiset(Added(base, through, result, a)) + multiset(Added(base, through, result, b))
  {
    var x, y := Added(base, through, result, a), Added(base, through, result, b);
    assert Added(base, through, result, a + b) == x + y;
    assert x !! y;
  }

  lemma ChangesOnce(base: Tree, through: Tree, result: Tree, p: Path)
    requires p in result
    ensures multiset(Added(base, through, result, {p})) == multiset(ChangesAt(base, through, p, result[p]))
  {
    var s := ChangesAt(base, through, p, result[p]);
    assert |s| <= 2 && (|s| == 2 ==> s[0] != s[1]) by { hide Stat, KindChanged, Unchanged; }
    hide ChangesAt;
    assert Added(base, through, result, {p}) == set c | c in s;
    DistinctPair(s);
  }

  lemma DistinctPair(s: seq<Change>)
    requires |s| <= 2 && (|s| == 2 ==> s[0] != s[1])
    ensures multiset(set c | c in s) == multiset(s)
  {
    if |s| == 2 {
      assert s == [s[0], s[1]];
    } else if |s| == 1 {
      assert s == [s[0]];
    }
  }

  lemma AddedStep(base: Tree, through: Tree, result: Tree, rel: Path, done: set<string>, name: string)
    requires WellFormed(result) && Visible(rel) && name in Children(result, rel) && name !in done
    ensures var child := rel + [name];
            && child in result
            && Below(result, child) < Below(result, rel)
            && (!Skipped(rel, name) ==> Visible(child))
            && multiset(Added(base, through, result, Walk(result, rel, done + {name}))) ==
               multiset(Added(base, through, result, Walk(result, rel, done))) +
               if Skipped(rel, name) then multiset{}
               else multiset(Added(base, through, result, {child})) +
                    if result[child].Dir? then multiset(Added(base, through, result, WalkAll(result, child))) else multiset{}
  {
    var child := rel + [name];
    WalkStep(result, rel, done, name);
    AddedUnion(base, through, result, Walk(result, rel, done), Walk(result, rel, {name}));
    if !Skipped(rel, name) {
      AddedUnion(base, through, result, {child}, WalkAll(result, child));
    }
  }

  lemma RemovedStep(base: Tree, result: Tree, rel: Path, done: set<string>, name: string)
    requires WellFormed(base) && WellFormed(result) && DirIn(result, rel) && Visible(rel)
    requires name in Children(base, rel) && name !in done
    ensures var child := rel + [name];
            && child in base
            && Below(base, child) < Below(base, rel)
            && (!Skipped(rel, name) ==> Visible(child))
            && multiset(Removed(result, Walk(base, rel, done + {name}))) ==
               multiset(Removed(result, Walk(base, rel, done))) +
               if Skipped(rel, name) then multiset{}
               else if child !in result then multiset{Change(child, Whiteout)}
               else if base[child].Dir? && result[child].Dir? then multiset(Removed(result, WalkAll(base, child)))
               else multiset{}
  {
    var child := rel + [name];
    WalkStep(base, rel, done, name);
    RemovedUnion(result, Walk(base, rel, done), Walk(base, rel, {name}));
    if !Skipped(rel, name) {
      RemovedUnion(result, {child}, WalkAll(base, child));
      assert child[..|child| - 1] == rel;
      assert Removed(result, {child}) == if child !in result then {Change(child, Whiteout)} else {};
      if !DirIn(result, child) { NothingGoneBelow(base, result, child); }
    }
  }

  lemma NothingGoneBelow(base: Tree, result: Tree, child: Path)
    requires WellFormed(result) && !DirIn(result, child)
    ensures Removed(result, WalkAll(base, child)) == {}
  {
    forall p | p in WalkAll(base, child) ensures !Gone(result, p) {
      var parent := p[..|p| - 1];
      if DirIn(result, parent) && parent != child {
        assert child < parent;
        NextIsChild(result, child, parent);
      }
    }
  }

  lemma RemovedUnion(result: Tree, a: set<Path>, b: set<Path>)
    requires a !! b
    ensures multiset(Removed(result, a + b)) == multiset(Removed(result, a)) + multiset(Removed(result, b))
  {
    var x, y := Removed(result, a), Removed(result, b);
    assert Removed(result, a + b) == x + y;
    assert x !! y;
  }

  // --- diff -------------------------------------------------------------------

  /** Stands in for the standard library's sort. */
  method SortChanges(s: seq<Change>) returns (r: seq<Change>)
    ensures multiset(r) == multiset(s)
    ensures Sorted(r)
  {
    r := [];
    for n := 0 to |s|
      invariant multiset(r) == multiset(s[..n]) && Sorted(r)
    {
      assert s[..n + 1] == s[..n] + [s[n]];
      r := Insert(r, s[n]);
    }
    assert s[..|s|] == s;
  }

  ghost predicate Sorted(s: seq<Change>) {
    forall i, j | 0 <= i < j < |s| :: !Before(s[j], s[i])
  }

  method Insert(s: seq<Change>, c: Change) returns (r: seq<Change>)
    requires Sorted(s)
    ensures multiset(r) == multiset(s) + multiset{c} && Sorted(r)
  {
    hide Before;
    var k := |s|;
    while k > 0 && Before(c, s[k - 1])
      invariant 0 <= k <= |s|
      invariant forall i | k <= i < |s| :: Before(c, s[i])
    {
      k := k - 1;
    }
    r := s[..k] + [c] + s[k..];
    assert s == s[..k] + s[k..];
    forall i, j | 0 <= i < j < |r| ensures !Before(r[j], r[i]) {
      if j == k {
        NegativelyTransitive(c, s[i], s[k - 1]);
      } else if i == k {
        Asymmetric(c, r[j]);
      }
    }
  }

  lemma Asymmetric(a: Change, b: Change)
    ensures Before(a, b) ==> !Before(b, a)
  {
    PathsStrictTotal();
    hide PathLess;
  }

  lemma NegativelyTransitive(a: Change, b: Change, c: Change)
    ensures Before(a, b) && !Before(c, b) ==> Before(a, c)
  {
    PathsStrictTotal();
    hide PathLess;
  }

  /** Two changes of one diff that tie in the order are the same change. */
  lemma NoTies(base: Tree, through: Tree, result: Tree, a: Change, b: Change)
    requires a in DiffSet(base, through, result) && b in DiffSet(base, through, result)
    ensures Before(a, b) || Before(b, a) || a == b
  {
    InDiff(base, through, result, a);
    InDiff(base, through, result, b);
    PathsStrictTotal();
    hide PathLess, Stat, KindChanged, Unchanged, WalkAll;
  }

  /** Membership in the diff, path by path. */
  lemma InDiff(base: Tree, through: Tree, result: Tree, c: Change)
    ensures c in Added(base, through, result, WalkAll(result, [])) <==>
              c.path in WalkAll(result, []) && c in ChangesAt(base, through, c.path, result[c.path])
    ensures c in Removed(result, WalkAll(base, [])) <==>
              c.path in WalkAll(base, []) && c.kind.Whiteout? && Gone(result, c.path)
  {
    if c in Added(base, through, result, WalkAll(result, [])) {
      var p :| p in WalkAll(result, []) && p in result && c in ChangesAt(base, through, p, result[p]);
      assert c.path == p;
    }
    assert c.kind.Whiteout? ==> c == Change(c.path, Whiteout);
  }

  /** Both walks together visit exactly the paths the diff looks at. */
  lemma WalkAllIff(t: Tree, p: Path)
    requires WellFormed(t)
    ensures p in WalkAll(t, []) <==> p in t && Visible(p)
  {
    if p in t {
      if |p| > 1 {
        AncestorsAreDirs(t, p, 1);
      } else {
        assert p[..1] == p;
      }
      assert p[..1] in t && |p[..1]| == 1 && p[..1][0] == p[0];
    }
  }

  /** What the diff looks at: everything but the store's own two files, and the
      directories at the top that a sandbox mounts over. */
  lemma VisibleIs(p: Path)
    ensures Visible(p) <==>
            && (forall k | 0 <= k < |p| :: p[k] != ".zygo-complete" && p[k] != ".zygo-whiteouts.json")
            && (p != [] ==> p[0] !in {"proc", "sys", "dev", "tmp", "run"})
  {
    assert forall k | 0 <= k < |p| :: p[..k] == [] <==> k == 0;
    if p != [] { assert Visible(p) ==> !Skipped(p[..0], p[0]); }
  }

  lemma ChangesAtIff(base: Tree, through: Tree, c: Change, after: Entry)
    ensures var before := Stat(base, through, c.path);
            c in ChangesAt(base, through, c.path, after) <==>
            match c.kind
            case Whiteout =>
              before.Some? && (before.value.Dir? != after.Dir? || before.value.Symlink? != after.Symlink? ||
                               before.value.File? != after.File?)
            case AddDir(mode, mtime) => after == Dir(mode, mtime) && (before.None? || !before.value.Dir?)
            case AddLink(target, mtime) =>
              after == Symlink(target, mtime) && (before.None? || !before.value.Symlink? || before.value.target != target)
            case AddFile(mode, mtime, size, source) =>
              && after.File? && mode == after.mode && mtime == after.mtime && size == |after.content| && source == c.path
              && (before.None? || !before.value.File? ||
                  !(|before.value.content| == size && before.value.mtime == mtime &&
                    before.value.nsec == after.nsec && before.value.mode == mode))
  {
    hide Stat;
    assert c.kind.Whiteout? ==> c == Change(c.path, Whiteout);
  }

  /** What a diff is, without the walks. At a path it looks at there is a whiteout exactly
      when a directory of the result has lost the base's entry, or what the lookup in the
      base finds is of another kind than the result's entry; and an addition, with what is
      the result's own, exactly when the result has a directory where that finds none, a
      link where it finds no link with this target, or a file where it finds no file of
      this size, times and mode. */
  lemma DiffSays(base: Tree, through: Tree, result: Tree, c: Change)
    requires WellFormed(base) && WellFormed(result)
    ensures var p, before := c.path, Stat(base, through, c.path);
            c in DiffSet(base, through, result) <==>
            && Visible(p)
            && match c.kind
               case Whiteout =>
                 || (p in base && p !in result && (|p| == 1 || (p[..|p| - 1] in result && result[p[..|p| - 1]].Dir?)))
                 || (p in result && before.Some? &&
                     (before.value.Dir? != result[p].Dir? || before.value.Symlink? != result[p].Symlink? ||
                      before.value.File? != result[p].File?))
               case AddDir(mode, mtime) => p in result && result[p] == Dir(mode, mtime) && (before.None? || !before.value.Dir?)
               case AddLink(target, mtime) =>
                 && p in result && result[p] == Symlink(target, mtime)
                 && (before.None? || !before.value.Symlink? || before.value.target != target)
               case AddFile(mode, mtime, size, source) =>
                 && p in result && result[p].File? && mode == result[p].mode && mtime == result[p].mtime
                 && size == |result[p].content| && source == p
                 && (before.None? || !before.value.File? ||
                     !(|before.value.content| == size && before.value.mtime == mtime &&
                       before.value.nsec == result[p].nsec && before.value.mode == mode))
  {
    InDiff(base, through, result, c);
    WalkAllIff(base, c.path);
    WalkAllIff(result, c.path);
    GoneIs(base, result, c.path);
    if c.path in result { ChangesAtIff(base, through, c, result[c.path]); }
    InEither(base, through, result, c);
    hide *;
  }

  lemma GoneIs(base: Tree, result: Tree, p: Path)
    requires WellFormed(base)
    ensures p in base && Gone(result, p) <==>
            p in base && p !in result && (|p| == 1 || (p[..|p| - 1] in result && result[p[..|p| - 1]].Dir?))
  {
    assert p in base ==> p != [];
    assert |p| == 1 ==> p[..|p| - 1] == [];
  }

  lemma InEither(base: Tree, through: Tree, result: Tree, c: Change)
    ensures c in DiffSet(base, through, result) <==>
            c in Added(base, through, result, WalkAll(result, [])) || c in Removed(result, WalkAll(base, []))
  {
    hide Added, Removed, WalkAll;
  }

  method Diff(base: Tree, through: Tree, result: Tree) returns (changes: seq<Change>)
    requires WellFormed(base) && WellFormed(result)
    ensures IsDiff(base, through, result, changes)
  {
    var out := new ChangeList();
    Additions(base, through, result, [], out);
    Deletions(base, result, [], out);
    changes := SortChanges(out.items);
    AddedApartFromRemoved(base, through, result);
    NoTiesSorted(base, through, result, changes);
  }

  lemma AddedApartFromRemoved(base: Tree, through: Tree, result: Tree)
    ensures multiset(DiffSet(base, through, result)) ==
            multiset(Added(base, through, result, WalkAll(result, []))) + multiset(Removed(result, WalkAll(base, [])))
  {
    forall c | c in Removed(result, WalkAll(base, [])) ensures c !in Added(base, through, result, WalkAll(result, [])) {
      InDiff(base, through, result, c);
    }
    hide Added, Removed, WalkAll;
  }

  lemma CountTwice(s: seq<Change>, i: nat, j: nat)
    requires i < j < |s|
    ensures s[i] == s[j] ==> multiset(s)[s[i]] >= 2
  {
    assert s == s[..i] + [s[i]] + s[i + 1..j] + [s[j]] + s[j + 1..];
  }

  lemma NoTiesSorted(base: Tree, through: Tree, result: Tree, changes: seq<Change>)
    requires multiset(changes) == multiset(DiffSet(base, through, result)) && Sorted(changes)
    ensures StrictlySorted(changes)
  {
    hide Before, DiffSet;
    forall i, j | 0 <= i < j < |changes| ensures Before(changes[i], changes[j]) {
      assert changes[i] in multiset(changes) && changes[j] in multiset(changes);
      CountTwice(changes, i, j);
      NoTies(base, through, result, changes[i], changes[j]);
    }
  }
}
