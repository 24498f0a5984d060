/** The layer `write_layer` makes of a diff, the OCI rules for applying it, and
    when the two together give the result tree back.
 */
module LayerApply {
  import opened Order
  import opened LayerDiff
  import opened Wrappers

  /** One archive member. */
  datatype Member = Member(path: Path, entry: Entry)

  // --- write_layer ------------------------------------------------------------

  const MARKER := ".wh."
  const OPAQUE := ".wh..wh..opq"

  function FileName(p: Path): string
    requires p != []
  {
    p[|p| - 1]
  }

  function Parent(p: Path): Path
    requires p != []
  {
    p[..|p| - 1]
  }

  function WhiteoutPath(p: Path): Path
    requires p != []
  {
    Parent(p) + [MARKER + FileName(p)]
  }

  /** `mtime as u64`, as the header field is read back: a time before 1970 comes out as
      one far in the future. */
  function HeaderTime(mtime: int): (time: int)
    ensures 0 <= mtime < 0x8000_0000_0000_0000 ==> time == mtime
    ensures -0x8000_0000_0000_0000 <= mtime < 0 ==> time == mtime + 0x1_0000_0000_0000_0000
  {
    mtime % 0x1_0000_0000_0000_0000
  }

  function Content(result: Tree, source: Path): seq<int> {
    if source in result && result[source].File? then result[source].content else []
  }

  function MemberOf(result: Tree, c: Change): Member
    requires c.path != []
  {
    match c.kind
    case AddDir(mode, mtime) => Member(c.path, Dir(mode, HeaderTime(mtime)))
    case AddFile(mode, mtime, _, source) => Member(c.path, File(mode, HeaderTime(mtime), 0, Content(result, source)))
    case AddLink(target, mtime) => Member(c.path, Symlink(target, HeaderTime(mtime)))
    case Whiteout => Member(WhiteoutPath(c.path), File(0, 0, 0, []))
  }

  ghost predicate Rooted(changes: seq<Change>) { forall i | 0 <= i < |changes| :: changes[i].path != [] }

  function Layer(result: Tree, changes: seq<Change>): (layer: seq<Member>)
    requires Rooted(changes)
    ensures |layer| == |changes|
    ensures forall i | 0 <= i < |layer| :: layer[i] == MemberOf(result, changes[i])
  {
    seq(|changes|, i requires 0 <= i < |changes| => MemberOf(result, changes[i]))
  }

  /** The header field a time becomes. */
  predicate Stamped(time: int, mtime: int) {
    && (0 <= mtime < 0x8000_0000_0000_0000 ==> time == mtime)
    && (-0x8000_0000_0000_0000 <= mtime < 0 ==> time == mtime + 0x1_0000_0000_0000_0000)
  }

  /** The member a change calls for: an empty file of mode 0 named `.wh.` and the name, or
      the result's own entry. */
  predicate Written(result: Tree, c: Change, m: Member)
    requires c.path != []
  {
    if c.kind.Whiteout? then
      m.path == c.path[..|c.path| - 1] + [".wh." + c.path[|c.path| - 1]] && m.entry == File(0, 0, 0, [])
    else
      m.path == c.path && c.path in result && Carries(m.entry, result[c.path])
  }

  /** Mode, target and bytes are the entry's own, and its time as the field has it. */
  predicate Carries(got: Entry, want: Entry) {
    match want
    case Dir(mode, mtime) => got.Dir? && got.mode == mode && Stamped(got.mtime, mtime)
    case File(mode, mtime, _, content) => got.File? && got.mode == mode && got.content == content && got.nsec == 0 && Stamped(got.mtime, mtime)
    case Symlink(target, mtime) => got.Symlink? && got.target == target && Stamped(got.mtime, mtime)
    case Device => false
  }

  lemma MembersAreWritten(base: Tree, through: Tree, result: Tree, changes: seq<Change>)
    requires IsDiff(base, through, result, changes) && Rooted(changes)
    ensures forall i | 0 <= i < |changes| :: Written(result, changes[i], MemberOf(result, changes[i]))
  {
    forall i | 0 <= i < |changes| ensures Written(result, changes[i], MemberOf(result, changes[i])) {
      DiffMember(base, through, result, changes, i);
      MemberIsWritten(base, through, result, changes[i]);
    }
  }

  lemma MemberIsWritten(base: Tree, through: Tree, result: Tree, c: Change)
    requires c.path != []
    requires (c.path in WalkAll(result, []) && c in ChangesAt(base, through, c.path, result[c.path])) || c.kind.Whiteout?
    ensures Written(result, c, MemberOf(result, c))
  {
    hide Stat, KindChanged, Unchanged, HeaderTime;
  }

  method WriteLayer(base: Tree, through: Tree, result: Tree) returns (layer: seq<Member>, changes: seq<Change>)
    requires WellFormed(base) && WellFormed(result)
    ensures IsDiff(base, through, result, changes) && Rooted(changes) && layer == Layer(result, changes)
    ensures |layer| == |changes| && forall i | 0 <= i < |layer| :: Written(result, changes[i], layer[i])
    ensures NoMarkers(base) && NoMarkers(result) ==>
            (Reproduces(base, result, Apply(layer, base)) <==> Sound(base, through, result))
  {
    hide NoMarkers, Reproduces, Apply, Sound, IsDiff;
    changes := Diff(base, through, result);
    DiffIsRooted(base, through, result, changes);
    MembersAreWritten(base, through, result, changes);
    layer := [];
    for i := 0 to |changes|
      invariant layer == Layer(result, changes)[..i]
    {
      layer := layer + [MemberOf(result, changes[i])];
    }
    if NoMarkers(base) && NoMarkers(result) { LayerReproducesResult(base, through, result, changes); }
  }

  lemma DiffMember(base: Tree, through: Tree, result: Tree, changes: seq<Change>, i: nat)
    requires IsDiff(base, through, result, changes) && i < |changes|
    ensures var c := changes[i];
            || (c.path in WalkAll(result, []) && c in ChangesAt(base, through, c.path, result[c.path]))
            || (c.path in WalkAll(base, []) && c.kind.Whiteout? && Gone(result, c.path))
  {
    assert changes[i] in multiset(changes);
    InDiff(base, through, result, changes[i]);
    hide WalkAll, ChangesAt, Gone;
  }

  lemma DiffIsRooted(base: Tree, through: Tree, result: Tree, changes: seq<Change>)
    requires IsDiff(base, through, result, changes)
    ensures Rooted(changes)
  {
    forall i | 0 <= i < |changes| ensures changes[i].path != [] { DiffMember(base, through, result, changes, i); }
  }

  lemma DiffHas(base: Tree, through: Tree, result: Tree, changes: seq<Change>, c: Change) returns (i: nat)
    requires WellFormed(base) && WellFormed(result) && IsDiff(base, through, result, changes)
    requires c.path != [] && Visible(c.path)
    requires || (c.path in result && c in ChangesAt(base, through, c.path, result[c.path]))
             || (c.path in base && c.kind.Whiteout? && Gone(result, c.path))
    ensures i < |changes| && changes[i] == c
  {
    if c.path in result { NextIsChild(result, [], c.path); } else { NextIsChild(base, [], c.path); }
    InDiff(base, through, result, c);
    assert c in multiset(DiffSet(base, through, result)) by { hide ChangesAt, Visible, WalkAll, Added, Removed; }
    assert c in multiset(changes);
    i :| 0 <= i < |changes| && changes[i] == c;
  }

  // --- Applying a layer -------------------------------------------------------

  /** What stands at a path afterwards: an entry of the lower tree or of the
      layer, or a directory made because something below it was unpacked. */
  datatype Found = Given(entry: Entry) | MadeParent

  type Applied = map<Path, Found>

  predicate StartsWith(name: string, prefix: string) { prefix <= name }

  predicate IsMarker(m: Member) { m.path != [] && StartsWith(FileName(m.path), MARKER) }

  /** `m` hides the lower layers' entry at `p`: a whiteout hides its target and
      all below it, an opaque marker everything beside it. */
  predicate Hides(m: Member, p: Path) {
    && IsMarker(m)
    && if FileName(m.path) == OPAQUE then Parent(m.path) < p
       else Parent(m.path) + [FileName(m.path)[|MARKER|..]] <= p
  }

  predicate HiddenBy(layer: seq<Member>, p: Path) {
    exists i | 0 <= i < |layer| :: Hides(layer[i], p)
  }

  function Kept(layer: seq<Member>, lower: Tree): Applied {
    map p | p in lower && !HiddenBy(layer, p) :: Given(lower[p])
  }

  predicate IsDirectory(f: Found) { f.MadeParent? || f.entry.Dir? }

  /** Unpack one member. A directory over a directory keeps what is inside it;
      anything else replaces what was there. */
  function Put(t: Applied, m: Member): Applied {
    var q := m.path;
    var merges := m.entry.Dir? && q in t && IsDirectory(t[q]);
    var around := map p | p in t && !(p < q) && (q < p ==> merges) :: t[p];
    var parents := map k | 0 < k < |q| :: q[..k] := if q[..k] in t && IsDirectory(t[q[..k]]) then t[q[..k]] else MadeParent;
    (around + parents)[q := Given(m.entry)]
  }

  function Unpack(t: Applied, layer: seq<Member>): Applied
    decreases |layer|
  {
    if layer == [] then t
    else
      var n := |layer| - 1;
      var before := Unpack(t, layer[..n]);
      if IsMarker(layer[n]) then before else Put(before, layer[n])
  }

  function Apply(layer: seq<Member>, lower: Tree): Applied { Unpack(Kept(layer, lower), layer) }

  // --- When the layer reproduces the result -----------------------------------

  ghost predicate NoMarkers(t: Tree) {
    forall p, k | p in t && 0 <= k < |p| :: !StartsWith(p[k], MARKER)
  }

  /** What the archive can carry of an entry: whole seconds, in 64 bits. */
  function Layered(e: Entry): Entry {
    match e
    case Dir(mode, mtime) => Dir(mode, HeaderTime(mtime))
    case File(mode, mtime, _, content) => File(mode, HeaderTime(mtime), 0, content)
    case Symlink(target, mtime) => Symlink(target, HeaderTime(mtime))
    case Device => Device
  }

  /** The base's own entry may stand in for the result's: the same file, a link
      with the same target, or any directory for a directory. */
  predicate StandsIn(have: Entry, want: Entry) {
    || (have.File? && have == want)
    || (have.Symlink? && want.Symlink? && have.target == want.target)
    || (have.Dir? && want.Dir?)
  }

  predicate Matches(base: Tree, p: Path, got: Found, want: Entry) {
    && got.Given?
    && (got.entry == Layered(want) || (p in base && got.entry == base[p] && StandsIn(base[p], want)))
  }

  /** `applied` is `result` on every path the diff looks at, device nodes aside. */
  ghost predicate Reproduces(base: Tree, result: Tree, applied: Applied) {
    forall p | Visible(p) && p != [] ::
      if p in result then result[p].Device? || (p in applied && Matches(base, p, applied[p], result[p]))
      else p !in applied
  }

  /** Wherever the diff took an entry for unchanged, it was looking at the base's
      own entry at that path, and at the same bytes. */
  ghost predicate Sound(base: Tree, through: Tree, result: Tree) {
    forall p <- result | Visible(p) && !result[p].Device? && Unchanged(Stat(base, through, p), result[p]) ::
      p in base && (result[p].File? ==> base[p].content == result[p].content)
  }

  ghost predicate Emits(base: Tree, through: Tree, result: Tree, p: Path) {
    p in result && Visible(p) && !result[p].Device? && !Unchanged(Stat(base, through, p), result[p])
  }

  ghost predicate AddedBy(changes: seq<Change>, n: nat, p: Path)
    requires n <= |changes|
  {
    exists i | 0 <= i < n :: changes[i].path == p && !changes[i].kind.Whiteout?
  }

  /** The assumptions all lemmas below share. */
  ghost predicate Setting(base: Tree, through: Tree, result: Tree, changes: seq<Change>) {
    && WellFormed(base) && WellFormed(result) && NoMarkers(base) && NoMarkers(result)
    && IsDiff(base, through, result, changes) && Rooted(changes)
  }

  lemma MemberShape(base: Tree, through: Tree, result: Tree, changes: seq<Change>, i: nat)
    requires Setting(base, through, result, changes) && i < |changes|
    ensures var c, m := changes[i], MemberOf(result, changes[i]);
            && IsMarker(m) == c.kind.Whiteout?
            && (c.kind.Whiteout? ==> forall p :: Hides(m, p) <==> c.path <= p)
            && (!c.kind.Whiteout? ==> Emits(base, through, result, c.path) && m == Member(c.path, Layered(result[c.path])))
  {
    DiffMember(base, through, result, changes, i);
    var c := changes[i];
    WalkedIsVisible(result, c.path);
    WalkedIsVisible(base, c.path);
    assert !StartsWith(FileName(c.path), MARKER);
    hide Stat, KindChanged, Unchanged, WalkAll, Visible, IsDiff, NoMarkers, Gone;
    if c.kind.Whiteout? {
      WhiteoutShape(result, c);
    } else {
      AdditionShape(base, through, result, c);
    }
  }

  lemma WhiteoutShape(result: Tree, c: Change)
    requires c.path != [] && c.kind.Whiteout? && !StartsWith(FileName(c.path), MARKER)
    ensures IsMarker(MemberOf(result, c)) && forall p :: Hides(MemberOf(result, c), p) <==> c.path <= p
  {
    var m, name := MemberOf(result, c), FileName(c.path);
    MarkedName(name);
    assert FileName(m.path) == MARKER + name && Parent(m.path) == Parent(c.path);
    assert Parent(c.path) + [name] == c.path;
  }

  lemma AdditionShape(base: Tree, through: Tree, result: Tree, c: Change)
    requires c.path != [] && c.path in result && Visible(c.path) && !c.kind.Whiteout?
    requires c in ChangesAt(base, through, c.path, result[c.path])
    ensures Emits(base, through, result, c.path) && MemberOf(result, c) == Member(c.path, Layered(result[c.path]))
  {
    hide Stat, KindChanged, Unchanged, Visible;
  }

  lemma MarkedName(name: string)
    requires !StartsWith(name, MARKER)
    ensures MARKER + name != OPAQUE && (MARKER + name)[|MARKER|..] == name
  {
    assert (MARKER + name)[4..] == name && OPAQUE[4..] == ".wh..opq" && ".wh..opq"[..4] == MARKER;
  }

  lemma WalkedIsVisible(t: Tree, p: Path)
    ensures p in WalkAll(t, []) ==> p in t && Visible(p) && p != []
  {
  }

  lemma HiddenIff(base: Tree, through: Tree, result: Tree, changes: seq<Change>, p: Path)
    requires Setting(base, through, result, changes)
    ensures HiddenBy(Layer(result, changes), p) <==>
              exists i | 0 <= i < |changes| :: changes[i].kind.Whiteout? && changes[i].path <= p
  {
    var layer := Layer(result, changes);
    forall i | 0 <= i < |changes| ensures Hides(layer[i], p) <==> changes[i].kind.Whiteout? && changes[i].path <= p {
      MemberShape(base, through, result, changes, i);
      hide Setting, Emits;
    }
  }

  /** A whiteout says its path left the result, or changed kind. */
  lemma WhiteoutReason(base: Tree, through: Tree, result: Tree, changes: seq<Change>, i: nat)
    requires Setting(base, through, result, changes) && i < |changes| && changes[i].kind.Whiteout?
    ensures var w := changes[i].path; w in result ==> KindChanged(Stat(base, through, w), result[w])
  {
    DiffMember(base, through, result, changes, i);
    WalkedIsVisible(result, changes[i].path);
    hide Stat, KindChanged, Unchanged, WalkAll, Visible;
  }

  lemma AncestorsKeepKind(base: Tree, result: Tree, p: Path, w: Path)
    requires WellFormed(base) && WellFormed(result) && p in result && p in base
    requires !KindChanged(Some(base[p]), result[p])
    ensures w != [] && w <= p ==> w in result && w in base && !KindChanged(Some(base[w]), result[w])
  {
    if w != [] && w < p {
      AncestorsAreDirs(base, p, |w|);
      AncestorsAreDirs(result, p, |w|);
      assert p[..|w|] == w;
    } else if w <= p {
      assert w == [] || w == p;
    }
  }

  /** A base entry that the result keeps the kind of is not hidden. */
  lemma Unhidden(base: Tree, through: Tree, result: Tree, changes: seq<Change>, p: Path)
    requires Setting(base, through, result, changes)
    requires p in result && p in base && !KindChanged(Some(base[p]), result[p])
    ensures !HiddenBy(Layer(result, changes), p)
  {
    HiddenIff(base, through, result, changes, p);
    forall i | 0 <= i < |changes| && changes[i].kind.Whiteout? ensures !(changes[i].path <= p) {
      WhiteoutReason(base, through, result, changes, i);
      AncestorsKeepKind(base, result, p, changes[i].path);
      hide KindChanged;
    }
  }

  /** Added entries come in path order, so an added directory is there first. */
  lemma AddedInOrder(base: Tree, through: Tree, result: Tree, changes: seq<Change>, i: nat, j: nat)
    requires Setting(base, through, result, changes) && i < |changes| && j < |changes|
    requires changes[i].path < changes[j].path
    ensures i < j
  {
    PathsStrictTotal();
    PrefixFirst(changes[i].path, changes[j].path);
    hide PathLess;
  }

  lemma Emitted(base: Tree, through: Tree, result: Tree, changes: seq<Change>, p: Path) returns (i: nat)
    requires Setting(base, through, result, changes) && Emits(base, through, result, p)
    ensures i < |changes| && changes[i].path == p && !changes[i].kind.Whiteout?
  {
    i := DiffHas(base, through, result, changes, Addition(p, result[p]));
  }

  /** The state after `n` members, path by path. */
  ghost predicate StateAfter(base: Tree, result: Tree, changes: seq<Change>, n: nat, t: Applied)
    requires n <= |changes| && Rooted(changes)
  {
    forall p ::
      && (p in t <==> AddedBy(changes, n, p) || p in Kept(Layer(result, changes), base))
      && (p in t ==> t[p] == if AddedBy(changes, n, p) && p in result then Given(Layered(result[p]))
                             else if p in base then Given(base[p]) else MadeParent)
  }

  lemma ParentReady(base: Tree, through: Tree, result: Tree, changes: seq<Change>, n: nat, t: Applied, k: nat)
    requires Setting(base, through, result, changes) && Sound(base, through, result)
    requires n < |changes| && StateAfter(base, result, changes, n, t)
    requires Emits(base, through, result, changes[n].path) && 0 < k < |changes[n].path|
    ensures var r := changes[n].path[..k]; r in t && IsDirectory(t[r])
  {
    var q := changes[n].path;
    var r := q[..k];
    AncestorsAreDirs(result, q, k);
    assert Visible(r) by { forall j | 0 <= j < |r| ensures !Skipped(r[..j], r[j]) { assert r[..j] == q[..j]; } }
    if Emits(base, through, result, r) {
      var i := Emitted(base, through, result, changes, r);
      AddedInOrder(base, through, result, changes, i, n);
      assert AddedBy(changes, n, r);
    } else {
      assert r in base && base[r].Dir?;
      Unhidden(base, through, result, changes, r);
      assert r in Kept(Layer(result, changes), base);
    }
  }

  lemma NothingUnder(base: Tree, through: Tree, result: Tree, changes: seq<Change>, n: nat, t: Applied, p: Path)
    requires Setting(base, through, result, changes)
    requires n < |changes| && StateAfter(base, result, changes, n, t)
    requires Emits(base, through, result, changes[n].path) && changes[n].path < p
    ensures p !in t
  {
    forall i | 0 <= i < n ensures changes[i].path != p {
      if changes[i].path == p { AddedInOrder(base, through, result, changes, n, i); }
    }
    if p in base { HiddenUnder(base, through, result, changes, changes[n].path, p); }
  }

  /** Below an added path the base had nothing that is not hidden. */
  lemma HiddenUnder(base: Tree, through: Tree, result: Tree, changes: seq<Change>, q: Path, p: Path)
    requires Setting(base, through, result, changes)
    requires Emits(base, through, result, q) && q != [] && q < p && p in base
    ensures HiddenBy(Layer(result, changes), p)
  {
    AncestorsAreDirs(base, p, |q|);
    assert p[..|q|] == q;
    assert KindChanged(Stat(base, through, q), result[q]);
    hide KindChanged, Stat, Visible;
    var i := DiffHas(base, through, result, changes, Change(q, Whiteout));
    HiddenIff(base, through, result, changes, p);
  }

  lemma PutIsUpdate(t: Applied, m: Member)
    requires forall k | 0 < k < |m.path| :: m.path[..k] in t && IsDirectory(t[m.path[..k]])
    requires forall p | m.path < p :: p !in t
    requires [] !in t && m.path != []
    ensures Put(t, m) == t[m.path := Given(m.entry)]
  {
    var u := Put(t, m);
    forall p ensures p in u <==> p in t || p == m.path {
      if p < m.path && p in t { assert p == m.path[..|p|] && 0 < |p| < |m.path|; }
    }
    forall p | p in u && p != m.path ensures u[p] == t[p] {
      if p < m.path { assert p == m.path[..|p|] && 0 < |p| < |m.path|; }
    }
  }

  lemma {:induction false} Replay(base: Tree, through: Tree, result: Tree, changes: seq<Change>, n: nat)
    requires Setting(base, through, result, changes) && Sound(base, through, result) && n <= |changes|
    ensures var layer := Layer(result, changes);
            StateAfter(base, result, changes, n, Unpack(Kept(layer, base), layer[..n]))
  {
    var layer := Layer(result, changes);
    if n > 0 {
      Replay(base, through, result, changes, n - 1);
      var t := Unpack(Kept(layer, base), layer[..n - 1]);
      assert layer[..n][..n - 1] == layer[..n - 1];
      ReplayStep(base, through, result, changes, n - 1, t);
    }
  }

  lemma ReplayStep(base: Tree, through: Tree, result: Tree, changes: seq<Change>, n: nat, t: Applied)
    requires Setting(base, through, result, changes) && Sound(base, through, result) && n < |changes|
    requires StateAfter(base, result, changes, n, t)
    ensures var m := MemberOf(result, changes[n]);
            StateAfter(base, result, changes, n + 1, if IsMarker(m) then t else Put(t, m))
  {
    var m := MemberOf(result, changes[n]);
    MemberShape(base, through, result, changes, n);
    StateKept(base, result, changes, n, t);
    if !changes[n].kind.Whiteout? {
      var q := m.path;
      forall k | 0 < k < |q| ensures q[..k] in t && IsDirectory(t[q[..k]]) {
        ParentReady(base, through, result, changes, n, t, k);
      }
      forall p | q < p ensures p !in t { NothingUnder(base, through, result, changes, n, t, p); }
      RootAbsent(base, through, result, changes, n, t);
      PutIsUpdate(t, m);
      StateUpdated(base, result, changes, n, t);
      hide StateAfter, Setting, Put, IsMarker, Emits;
    } else {
      hide StateAfter, Setting, Put, IsMarker, Emits;
    }
  }

  lemma StateKept(base: Tree, result: Tree, changes: seq<Change>, n: nat, t: Applied)
    requires n < |changes| && Rooted(changes) && StateAfter(base, result, changes, n, t)
    ensures changes[n].kind.Whiteout? ==> StateAfter(base, result, changes, n + 1, t)
  {
    AddedNext(changes, n);
    hide AddedBy, Kept, Layered, Layer;
  }

  lemma AddedNext(changes: seq<Change>, n: nat)
    requires n < |changes|
    ensures forall p :: AddedBy(changes, n + 1, p) <==>
                          AddedBy(changes, n, p) || (p == changes[n].path && !changes[n].kind.Whiteout?)
  {
    if !changes[n].kind.Whiteout? { assert AddedBy(changes, n + 1, changes[n].path); }
    forall p | AddedBy(changes, n, p) ensures AddedBy(changes, n + 1, p) {
      var i :| 0 <= i < n && changes[i].path == p && !changes[i].kind.Whiteout?;
    }
  }

  lemma RootAbsent(base: Tree, through: Tree, result: Tree, changes: seq<Change>, n: nat, t: Applied)
    requires Setting(base, through, result, changes) && n < |changes|
    requires StateAfter(base, result, changes, n, t)
    ensures [] !in t
  {
    assert !AddedBy(changes, n, []);
    assert [] !in base;
    assert [] !in Kept(Layer(result, changes), base);
  }

  lemma StateUpdated(base: Tree, result: Tree, changes: seq<Change>, n: nat, t: Applied)
    requires n < |changes| && Rooted(changes) && StateAfter(base, result, changes, n, t)
    requires !changes[n].kind.Whiteout? && changes[n].path in result
    ensures StateAfter(base, result, changes, n + 1, t[changes[n].path := Given(Layered(result[changes[n].path]))])
  {
    AddedNext(changes, n);
    hide AddedBy, Kept, Layered, Layer;
  }

  // --- What was added is there --------------------------------------------------

  /** Whatever the diff mistook for unchanged: once unpacked, an added entry stays. */
  lemma {:induction false} AddedStays(base: Tree, through: Tree, result: Tree, changes: seq<Change>, n: nat, i: nat)
    requires Setting(base, through, result, changes) && i < n <= |changes| && !changes[i].kind.Whiteout?
    ensures var layer := Layer(result, changes);
            var t := Unpack(Kept(layer, base), layer[..n]);
            changes[i].path in t && t[changes[i].path] == Given(layer[i].entry)
  {
    var layer := Layer(result, changes);
    var t := Unpack(Kept(layer, base), layer[..n - 1]);
    UnpackNext(Kept(layer, base), layer, n);
    MemberShape(base, through, result, changes, i);
    MemberShape(base, through, result, changes, n - 1);
    if i < n - 1 { AddedStays(base, through, result, changes, n - 1, i); }
    StaysOne(base, through, result, changes, n - 1, i, t);
    hide Setting, Emits, Layered, Kept, Unpack, IsMarker, Put, MemberOf;
  }

  lemma UnpackNext(t: Applied, layer: seq<Member>, n: nat)
    requires 0 < n <= |layer|
    ensures var before := Unpack(t, layer[..n - 1]);
            Unpack(t, layer[..n]) == if IsMarker(layer[n - 1]) then before else Put(before, layer[n - 1])
  {
    assert layer[..n][..n - 1] == layer[..n - 1];
    hide Put;
  }

  lemma StaysOne(base: Tree, through: Tree, result: Tree, changes: seq<Change>, n: nat, i: nat, t: Applied)
    requires Setting(base, through, result, changes) && i <= n < |changes| && !changes[i].kind.Whiteout?
    requires i < n ==> changes[i].path in t && t[changes[i].path] == Given(MemberOf(result, changes[i]).entry)
    ensures var p, m := changes[i].path, MemberOf(result, changes[n]);
            var u := if IsMarker(m) then t else Put(t, m);
            p in u && u[p] == Given(MemberOf(result, changes[i]).entry)
  {
    MemberShape(base, through, result, changes, i);
    MemberShape(base, through, result, changes, n);
    var m := MemberOf(result, changes[n]);
    if i < n && !changes[n].kind.Whiteout? {
      AddedApart(base, through, result, changes, n, i);
      hide Setting, Emits, Layered, MemberOf, Put;
      PutLeaves(t, m, changes[i].path);
    } else {
      hide Setting, Emits, Layered, MemberOf;
      if i == n { PutHas(t, m); }
    }
  }

  lemma PutHas(t: Applied, m: Member)
    ensures m.path in Put(t, m) && Put(t, m)[m.path] == Given(m.entry)
  {
  }

  /** A later addition is elsewhere, or below a directory. */
  lemma AddedApart(base: Tree, through: Tree, result: Tree, changes: seq<Change>, n: nat, i: nat)
    requires Setting(base, through, result, changes) && i < n < |changes|
    requires !changes[i].kind.Whiteout? && !changes[n].kind.Whiteout?
    ensures var p, q := changes[i].path, changes[n].path;
            && p != q && !(q < p) && (p < q ==> p in result && Layered(result[p]).Dir?)
  {
    var p, q := changes[i].path, changes[n].path;
    PathsStrictTotal();
    assert Before(changes[i], changes[n]);
    if q < p { AddedInOrder(base, through, result, changes, n, i); }
    MemberShape(base, through, result, changes, n);
    if p < q {
      assert p == q[..|p|];
      AncestorsAreDirs(result, q, |p|);
    }
    hide PathLess;
  }

  lemma PutLeaves(t: Applied, m: Member, p: Path)
    requires p in t && p != [] && p != m.path && !(m.path < p) && (p < m.path ==> IsDirectory(t[p]))
    ensures p in Put(t, m) && Put(t, m)[p] == t[p]
  {
    if p < m.path { assert p == m.path[..|p|] && 0 < |p| < |m.path|; }
  }

  /** Every entry the layer adds is the result's own once the layer is applied: its mode,
      its target, its bytes, and its time, but for one before 1970. */
  lemma AddedIsTheResults(base: Tree, through: Tree, result: Tree, changes: seq<Change>, i: nat)
    requires Setting(base, through, result, changes) && i < |changes| && !changes[i].kind.Whiteout?
    ensures var p, t := changes[i].path, Apply(Layer(result, changes), base);
            p in result && p in t && t[p].Given? && Carries(t[p].entry, result[p])
  {
    var layer := Layer(result, changes);
    AddedStays(base, through, result, changes, |changes|, i);
    assert layer[..|changes|] == layer;
    MembersAreWritten(base, through, result, changes);
    hide Setting, MemberOf, Carries, Unpack, Kept;
  }

  // --- The main theorem -------------------------------------------------------

  /** A base path the result does not have is under a whiteout. */
  lemma {:induction false} MissingIsWhitedOut(base: Tree, through: Tree, result: Tree, changes: seq<Change>, p: Path) returns (i: nat)
    requires Setting(base, through, result, changes) && p in base && Visible(p) && p !in result
    ensures i < |changes| && changes[i].kind.Whiteout? && changes[i].path <= p
    decreases |p|
  {
    if Gone(result, p) {
      i := DiffHas(base, through, result, changes, Change(p, Whiteout));
    } else {
      var r := Parent(p);
      AncestorsAreDirs(base, p, |r|);
      VisiblePrefix(p, |r|);
      hide Visible;
      if r in result {
        i := DiffHas(base, through, result, changes, Change(r, Whiteout));
      } else {
        i := MissingIsWhitedOut(base, through, result, changes, r);
      }
    }
  }

  lemma VisiblePrefix(p: Path, k: nat)
    requires Visible(p) && k <= |p|
    ensures Visible(p[..k])
  {
    var r := p[..k];
    forall j | 0 <= j < |r| ensures !Skipped(r[..j], r[j]) { assert r[..j] == p[..j]; }
  }

  lemma SoundReproduces(base: Tree, through: Tree, result: Tree, changes: seq<Change>)
    requires Setting(base, through, result, changes) && Sound(base, through, result)
    ensures Reproduces(base, result, Apply(Layer(result, changes), base))
  {
    var layer := Layer(result, changes);
    Replay(base, through, result, changes, |changes|);
    assert layer[..|changes|] == layer;
    var t := Apply(layer, base);
    forall p | Visible(p) && p != []
      ensures if p in result then result[p].Device? || (p in t && Matches(base, p, t[p], result[p])) else p !in t
    {
      PathReproduced(base, through, result, changes, t, p);
    }
  }

  lemma PathReproduced(base: Tree, through: Tree, result: Tree, changes: seq<Change>, t: Applied, p: Path)
    requires Setting(base, through, result, changes) && Sound(base, through, result)
    requires StateAfter(base, result, changes, |changes|, t) && Visible(p) && p != []
    ensures if p in result then result[p].Device? || (p in t && Matches(base, p, t[p], result[p])) else p !in t
  {
    AddedAreEmitted(base, through, result, changes);
    if p !in result {
      if p in base {
        var i := MissingIsWhitedOut(base, through, result, changes, p);
        HiddenIff(base, through, result, changes, p);
      }
    } else if Emits(base, through, result, p) {
      var i := Emitted(base, through, result, changes, p);
      assert AddedBy(changes, |changes|, p);
      hide Setting, Sound, Visible, Unchanged, Stat, Layered;
    } else if !result[p].Device? {
      KeptInPlace(base, through, result, changes, p);
      hide Setting, Visible, Unchanged, Stat, Layered, Kept, AddedBy;
    }
  }

  lemma KeptInPlace(base: Tree, through: Tree, result: Tree, changes: seq<Change>, p: Path)
    requires Setting(base, through, result, changes) && Sound(base, through, result)
    requires p in result && Visible(p) && !result[p].Device? && Unchanged(Stat(base, through, p), result[p])
    ensures p in base && StandsIn(base[p], result[p]) && p in Kept(Layer(result, changes), base)
  {
    Unhidden(base, through, result, changes, p);
  }

  lemma AddedAreEmitted(base: Tree, through: Tree, result: Tree, changes: seq<Change>)
    requires Setting(base, through, result, changes)
    ensures forall p :: AddedBy(changes, |changes|, p) ==> Emits(base, through, result, p)
  {
    forall i | 0 <= i < |changes| && !changes[i].kind.Whiteout? ensures Emits(base, through, result, changes[i].path) {
      MemberShape(base, through, result, changes, i);
    }
    hide Emits;
  }

  /** A path no member adds is the lower tree's, or a directory in passing. */
  lemma {:induction false} NotAdded(lower: Tree, kept: Applied, layer: seq<Member>, p: Path)
    requires forall q <- kept :: q in lower && kept[q] == Given(lower[q])
    requires forall i | 0 <= i < |layer| :: IsMarker(layer[i]) || layer[i].path != p
    ensures var t := Unpack(kept, layer);
            p in t ==> t[p].MadeParent? || (p in lower && t[p] == Given(lower[p]))
    decreases |layer|
  {
    if layer != [] { NotAdded(lower, kept, layer[..|layer| - 1], p); }
  }

  lemma ReproducesOnlyIfSound(base: Tree, through: Tree, result: Tree, changes: seq<Change>)
    requires Setting(base, through, result, changes)
    requires Reproduces(base, result, Apply(Layer(result, changes), base))
    ensures Sound(base, through, result)
  {
    var layer := Layer(result, changes);
    forall p | p in result && Visible(p) && !result[p].Device? && Unchanged(Stat(base, through, p), result[p])
      ensures p in base && (result[p].File? ==> base[p].content == result[p].content)
    {
      forall i | 0 <= i < |layer| ensures IsMarker(layer[i]) || layer[i].path != p {
        MemberShape(base, through, result, changes, i);
      }
      NotAdded(base, Kept(layer, base), layer, p);
      assert Matches(base, p, Apply(layer, base)[p], result[p]);
    }
  }

  /** The layer applied over the base gives the result back exactly when the
      diff's reading of "unchanged" was right everywhere. */
  lemma LayerReproducesResult(base: Tree, through: Tree, result: Tree, changes: seq<Change>)
    requires WellFormed(base) && WellFormed(result) && NoMarkers(base) && NoMarkers(result)
    requires IsDiff(base, through, result, changes) && Rooted(changes)
    ensures Reproduces(base, result, Apply(Layer(result, changes), base)) <==> Sound(base, through, result)
  {
    if Sound(base, through, result) {
      SoundReproduces(base, through, result, changes);
    }
    if Reproduces(base, result, Apply(Layer(result, changes), base)) {
      ReproducesOnlyIfSound(base, through, result, changes);
    }
  }

  // --- What the documentation promises, and where it stops --------------------

  /** Equal size, times and mode mean equal bytes, which the source relies on. */
  ghost predicate MetadataTellsContent(base: Tree, result: Tree) {
    forall p <- result | p in base && base[p].File? && result[p].File? ::
      && base[p].mode == result[p].mode && base[p].mtime == result[p].mtime
      && base[p].nsec == result[p].nsec && |base[p].content| == |result[p].content|
      ==> base[p].content == result[p].content
  }

  ghost predicate NoLinkBecomesDir(base: Tree, result: Tree) {
    forall p <- base | base[p].Symlink? :: p !in result || !result[p].Dir?
  }

  lemma DocumentedTreesAreSound(base: Tree, through: Tree, result: Tree)
    requires WellFormed(base) && WellFormed(result)
    requires MetadataTellsContent(base, result) && NoLinkBecomesDir(base, result)
    ensures Sound(base, through, result)
  {
    forall p | p in result && Visible(p) && Unchanged(Stat(base, through, p), result[p]) ensures p in base {
      if p !in base {
        var k :| 0 < k < |p| && p[..k] in base && base[p[..k]].Symlink?;
        AncestorsAreDirs(result, p, k);
      }
    }
  }

  ghost const LINK_BASE: Tree := map[["a"] := Symlink("b", 0)]
  ghost const DIR_RESULT: Tree := map[["a"] := Dir(493, 0), ["a", "x"] := File(420, 7, 0, [1])]
  ghost const BEHIND_LINK: Tree := map[["a", "x"] := File(420, 7, 0, [1])]

  /** A link that became a directory: its file `a/x` is read through the link,
      found equal, and left out, though the whiteout of `a` drops the link. */
  lemma LinkBecomingDirectoryLosesFiles(changes: seq<Change>)
    requires IsDiff(LINK_BASE, BEHIND_LINK, DIR_RESULT, changes)
    ensures WellFormed(LINK_BASE) && WellFormed(DIR_RESULT) && MetadataTellsContent(LINK_BASE, DIR_RESULT)
    ensures Rooted(changes) && !Reproduces(LINK_BASE, DIR_RESULT, Apply(Layer(DIR_RESULT, changes), LINK_BASE))
  {
    LinkTrees();
    LinkUnsound();
    DiffIsRooted(LINK_BASE, BEHIND_LINK, DIR_RESULT, changes);
    hide LINK_BASE, DIR_RESULT, BEHIND_LINK;
    LayerReproducesResult(LINK_BASE, BEHIND_LINK, DIR_RESULT, changes);
  }

  lemma LinkTrees()
    ensures WellFormed(LINK_BASE) && WellFormed(DIR_RESULT) && MetadataTellsContent(LINK_BASE, DIR_RESULT)
    ensures NoMarkers(LINK_BASE) && NoMarkers(DIR_RESULT)
  {
    assert ["a", "x"][..1] == ["a"];
  }

  lemma LinkUnsound()
    ensures !Sound(LINK_BASE, BEHIND_LINK, DIR_RESULT)
  {
    var p := ["a", "x"];
    assert p[..1] == ["a"];
    assert ThroughLink(LINK_BASE, p) && Visible(p);
    assert Unchanged(Stat(LINK_BASE, BEHIND_LINK, p), DIR_RESULT[p]);
  }
}
