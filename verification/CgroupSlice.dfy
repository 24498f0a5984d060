/** Zygo's cgroup hierarchy (`cgroup.rs`): its names, where it puts processes and where it
    delegates, and what enabling controllers and moving processes do to it.
 */
module CgroupSlice {

  import opened CgroupKernel

  /** A function cgroup without one of these has no limit file for it. */
  const REQUIRED := {Memory, Pids, Cpu}

  // --- Names ------------------------------------------------------------------

  predicate Plain(c: char) {
    'a' <= c <= 'z' || 'A' <= c <= 'Z' || '0' <= c <= '9' || c in {'-', '_', '.'}
  }

  function Underscores(n: nat): (s: string)
    ensures |s| == n && forall i | 0 <= i < n :: s[i] == '_'
  {
    seq(n, _ => '_')
  }

  function Sanitise(name: string): string {
    var cleaned := seq(|name|, i requires 0 <= i < |name| => if Plain(name[i]) then name[i] else '_');
    if forall i | 0 <= i < |cleaned| :: cleaned[i] == '.' then Underscores(if |cleaned| == 0 then 1 else |cleaned|)
    else cleaned
  }

  /** A path component that names a directory below and nothing else. */
  predicate SafeName(name: string) {
    && name != "" && (forall c | c in name :: Plain(c))
    && exists i :: 0 <= i < |name| && name[i] != '.'
  }

  /** Whatever a caller passes becomes one component that is not a way out, and a name
      that already is one is kept. */
  lemma SanitisedIsSafe(name: string)
    ensures SafeName(Sanitise(name)) && '/' !in Sanitise(name) && Sanitise(name) !in {".", ".."}
    ensures Sanitise(name) == name <==> SafeName(name)
    ensures Sanitise(Sanitise(name)) == Sanitise(name)
  {
    var cleaned := seq(|name|, i requires 0 <= i < |name| => if Plain(name[i]) then name[i] else '_');
    assert Sanitise(name) != "";
    if forall i | 0 <= i < |cleaned| :: cleaned[i] == '.' {
      assert Sanitise(name)[0] == '_';
    }
    SafeStays(Sanitise(name));
    if SafeName(name) { SafeStays(name); }
  }

  /** Character by character: letters, digits, `-`, `_` and `.` stay and anything else becomes
      `_`; but a name of dots only, the empty one included, becomes underscores, at least one. */
  lemma SanitiseIs(name: string)
    ensures var s := Sanitise(name);
            if forall i | 0 <= i < |name| :: name[i] == '.'
            then |s| == (if name == "" then 1 else |name|) && forall i | 0 <= i < |s| :: s[i] == '_'
            else
              |s| == |name| && forall i | 0 <= i < |s| ::
                s[i] == if 'a' <= name[i] <= 'z' || 'A' <= name[i] <= 'Z' || '0' <= name[i] <= '9' || name[i] in {'-', '_', '.'}
                        then name[i] else '_'
  {
    var cleaned := seq(|name|, i requires 0 <= i < |name| => if Plain(name[i]) then name[i] else '_');
    assert forall i | 0 <= i < |name| :: cleaned[i] == '.' <==> name[i] == '.';
  }

  lemma SafeStays(name: string)
    requires SafeName(name)
    ensures Sanitise(name) == name
  {
    assert forall i | 0 <= i < |name| :: name[i] in name;
    var cleaned := seq(|name|, i requires 0 <= i < |name| => if Plain(name[i]) then name[i] else '_');
    assert cleaned == name;
  }

  function System(root: Path): Path { root + ["system"] }

  function Tenants(root: Path): Path { root + ["tenants"] }

  function Tenant(root: Path, tenant: string): Path { Tenants(root) + [Sanitise(tenant)] }

  function Function(root: Path, tenant: string, name: string): Path { Tenant(root, tenant) + [Sanitise(name)] }

  /** A generation of a function, by the token that makes its name unique. */
  function Generation(root: Path, tenant: string, name: string, token: string): Path {
    Function(root, tenant, name) + ["g" + token]
  }

  function Zygote(generation: Path): Path { generation + ["zygote"] }

  function Request(generation: Path, id: string): Path { generation + ["req-" + Sanitise(id)] }

  /** The layout, and what shares a cgroup: two functions, generations or requests do
      exactly when their names come out alike, and none of them is the zygote's leaf. */
  lemma NamesApart(root: Path, t: string, n: string, t': string, n': string, token: string, token': string, id: string, id': string)
    ensures System(root) == root + ["system"] && Tenants(root) == root + ["tenants"] && System(root) != Tenants(root)
    ensures Function(root, t, n) == root + ["tenants", Sanitise(t), Sanitise(n)]
    ensures Generation(root, t, n, token) == Function(root, t, n) + ["g" + token]
    ensures Function(root, t, n) == Function(root, t', n') <==> Sanitise(t) == Sanitise(t') && Sanitise(n) == Sanitise(n')
    ensures Generation(root, t, n, token) == Generation(root, t', n', token') <==>
            Function(root, t, n) == Function(root, t', n') && token == token'
    ensures forall g, g' :: Request(g, id) == Request(g', id') <==> g == g' && Sanitise(id) == Sanitise(id')
    ensures forall g, g' :: Request(g, id) != Zygote(g') && Zygote(g) == g + ["zygote"] && Request(g, id) == g + ["req-" + Sanitise(id)]
  {
    hide Sanitise;
    var f, f' := Function(root, t, n), Function(root, t', n');
    assert f == root + ["tenants", Sanitise(t), Sanitise(n)] && f' == root + ["tenants", Sanitise(t'), Sanitise(n')];
    assert f[|root| + 1] == Sanitise(t) && f[|root| + 2] == Sanitise(n);
    assert f'[|root| + 1] == Sanitise(t') && f'[|root| + 2] == Sanitise(n');
    assert System(root)[|root|] == "system" && Tenants(root)[|root|] == "tenants";
    AppendedOnce(f, "g" + token, f', "g" + token');
    assert ("g" + token)[1..] == token && ("g" + token')[1..] == token';
    assert ("req-" + Sanitise(id))[4..] == Sanitise(id) && ("req-" + Sanitise(id'))[4..] == Sanitise(id');
    forall g, g' ensures Request(g, id) == Request(g', id') <==> g == g' && Sanitise(id) == Sanitise(id') {
      AppendedOnce(g, "req-" + Sanitise(id), g', "req-" + Sanitise(id'));
    }
    forall g, g' ensures Request(g, id) != Zygote(g') {
      AppendedOnce(g, "req-" + Sanitise(id), g', "zygote");
      assert ("req-" + Sanitise(id))[0] == 'r' && "zygote"[0] == 'z';
    }
  }

  lemma AppendedOnce<T>(a: seq<T>, x: T, b: seq<T>, y: T)
    ensures a + [x] == b + [y] <==> a == b && x == y
  {
    if a + [x] == b + [y] {
      assert |a| == |b| && (a + [x])[..|a|] == a && (b + [y])[..|b|] == b;
      assert (a + [x])[|a|] == x && (b + [y])[|b|] == y;
    }
  }

  // --- Where processes and delegation may be ----------------------------------

  /** Where Zygo puts processes: `system`, and the leaves below a generation. */
  predicate Leaf(root: Path, p: Path) {
    p == System(root) || (Tenants(root) <= p && |p| == |root| + 5)
  }

  /** Where it delegates: the slice, and down to the generations. */
  predicate Interior(root: Path, p: Path) {
    p == root || (Tenants(root) <= p && |p| <= |root| + 4)
  }

  lemma LeavesAreNotInterior(root: Path, p: Path)
    ensures !(Leaf(root, p) && Interior(root, p))
  {
    assert System(root)[|root|] == "system" && Tenants(root)[|root|] == "tenants";
    assert Tenants(root) <= p ==> p[|root|] == "tenants";
  }

  /** Nothing in the slice delegates but where Zygo delegates. */
  predicate TreeOk(k: State, root: Path) {
    forall p | p in k.tree && root <= p && k.tree[p] != {} :: Interior(root, p)
  }

  /** The slice as Zygo leaves it. */
  predicate SliceOk(k: State, root: Path) {
    TreeOk(k, root) && forall pid | pid in k.at && root <= k.at[pid] :: Leaf(root, k.at[pid])
  }

  /** As Zygo leaves it, but for processes that sit in the slice itself. */
  predicate Gathered(k: State, root: Path) {
    TreeOk(k, root) && forall pid | pid in k.at && root <= k.at[pid] :: Leaf(root, k.at[pid]) || k.at[pid] == root
  }

  /** A process that `ensure` leaves, or puts, where it belongs: one at a leaf; one in the
      slice itself, while that passes nothing on; or the caller, not below `system`. */
  predicate Mendable(k: State, root: Path, own: Pid, pid: Pid)
    requires pid in k.at
  {
    || Leaf(root, k.at[pid])
    || (if k.at[pid] == root then root in k.tree && k.tree[root] == {} else pid == own && !(System(root) <= k.at[pid]))
  }

  /** The found slices that `ensure` repairs. */
  predicate Repairable(k: State, root: Path, own: Pid) {
    TreeOk(k, root) && forall pid | pid in k.at && root <= k.at[pid] :: Mendable(k, root, own, pid)
  }

  /** In a slice that is as Zygo leaves it no cgroup both holds processes and delegates. */
  lemma NeverBoth(k: State, root: Path, p: Path)
    requires SliceOk(k, root) && p in k.tree && root <= p
    ensures Members(k, p) == {} || k.tree[p] == {}
  {
    LeavesAreNotInterior(root, p);
  }

  // --- Enabling and vacating --------------------------------------------------

  /** What `enable_controllers` gets enabled: what is available and may be. */
  function EnableAll(k: State, d: Path): State {
    if d !in k.tree then k
    else k.(tree := k.tree[d := k.tree[d] + set c | c in Available(k, d) && MayEnable(k, d, c)])
  }

  function MoveAll(k: State, pids: set<Pid>, into: Path): State {
    if CanHold(k, into) then k.(at := map pid | pid in k.at :: if pid in pids then into else k.at[pid]) else k
  }

  /** `vacate` and `vacate_ours`, for the processes they pick. */
  function Vacate(k: State, pids: set<Pid>, into: Path): State {
    if pids == {} then k else MoveAll(Mkdirs(k, into), pids, into)
  }

  lemma EnableAllKeeps(k: State, d: Path)
    requires WellFormed(k)
    ensures WellFormed(EnableAll(k, d))
  {
    var t := EnableAll(k, d);
    SamePlaces(k, t);
    if d in k.tree && d != [] && Members(k, d) != {} { HolderEnables(k, d); }
    hide Members, Inhabited, Invalid, MayEnable;
    forall p | p in t.tree ensures t.tree[p] <= Available(t, p) {}
    hide Available;
  }

  lemma HolderEnables(k: State, d: Path)
    requires WellFormed(k) && d in k.tree && d != [] && Members(k, d) != {}
    ensures var passed := EnableAll(k, d).tree[d]; passed != {} ==> passed * DOMAIN == {} && !Inhabited(k, d)
  {
    forall c | c in EnableAll(k, d).tree[d] ensures c !in DOMAIN && !Inhabited(k, d) {
      if c in k.tree[d] { assert c !in k.tree[d] * DOMAIN; }
    }
    hide WellFormed, Members, Inhabited, Invalid, Available;
  }

  lemma MoveAllKeeps(k: State, pids: set<Pid>, into: Path)
    requires WellFormed(k)
    ensures WellFormed(MoveAll(k, pids, into))
  {
    hide WellFormed;
    if CanHold(k, into) { MovedKeeps(k, MoveAll(k, pids, into), into); }
  }

  lemma VacateKeeps(k: State, pids: set<Pid>, into: Path)
    requires WellFormed(k)
    ensures WellFormed(Vacate(k, pids, into))
  {
    MkdirsKeeps(k, into);
    MoveAllKeeps(Mkdirs(k, into), pids, into);
  }

  /** New directories make no threaded domain. */
  lemma MkdirsThreads(k: State, d: Path)
    ensures var t := Mkdirs(k, d);
            && (forall p :: Invalid(t, p) <==> Invalid(k, p)) && (forall p :: ThreadedDomain(t, p) <==> ThreadedDomain(k, p))
            && (forall p | p in k.tree :: CanHold(t, p) <==> CanHold(k, p))
  {
    var t := Mkdirs(k, d);
    SamePlaces(k, t);
    hide Members, Inhabited;
    assert forall p :: ThreadedDomain(t, p) <==> ThreadedDomain(k, p);
    hide ThreadedDomain;
  }

  /** Where processes are put, more can be. */
  lemma HoldStays(k: State, t: State, d: Path)
    requires t.tree == k.tree && t.at.Keys <= k.at.Keys && forall pid | pid in t.at :: t.at[pid] == k.at[pid] || t.at[pid] == d
    requires CanHold(k, d)
    ensures CanHold(t, d)
  {
    forall n | 0 <= n < |d| ensures !ThreadedDomain(t, d[..n]) {
      assert Members(t, d[..n]) <= Members(k, d[..n]);
      assert !ThreadedDomain(k, d[..n]);
    }
  }

  /** In a slice that is as Zygo leaves it, whatever is above a leaf or an interior cgroup
      and within the slice holds no process. */
  lemma SliceValid(k: State, root: Path, d: Path)
    requires SliceOk(k, root) && root <= d && (Interior(root, d) || Leaf(root, d))
    ensures Invalid(k, d) <==> Invalid(k, root)
  {
    if Invalid(k, root) { InvalidBelow(k, root, d); }
    forall n | |root| <= n < |d| ensures !ThreadedDomain(k, d[..n]) {
      AboveIsInterior(root, d, n);
      LeavesAreNotInterior(root, d[..n]);
    }
    assert forall n | 0 <= n < |root| :: d[..n] == root[..n];
    hide ThreadedDomain, SliceOk, Leaf, Interior;
  }

  lemma AboveIsInterior(root: Path, d: Path, n: nat)
    requires root <= d && |root| <= n < |d| && (Interior(root, d) || Leaf(root, d))
    ensures Interior(root, d[..n]) && root <= d[..n]
  {
    if n == |root| { assert d[..n] == root; }
  }

  /** Inside a slice that is not invalid an interior cgroup passes down all that it is given. */
  lemma InteriorPassesAll(k: State, root: Path, d: Path)
    requires WellFormed(k) && SliceOk(k, root) && !Invalid(k, root) && Interior(root, d) && root <= d && d in k.tree
    ensures EnableAll(k, d).tree[d] == Available(k, d)
  {
    SliceValid(k, root, d);
    LeavesAreNotInterior(root, d);
    assert Members(k, d) == {};
  }

  lemma EnableAllKeepsSlice(k: State, root: Path, d: Path)
    requires SliceOk(k, root) && (root <= d ==> Interior(root, d))
    ensures SliceOk(EnableAll(k, d), root)
  {
  }

  lemma MkdirsKeepsSlice(k: State, root: Path, d: Path)
    ensures SliceOk(k, root) ==> SliceOk(Mkdirs(k, d), root)
  {
  }

  lemma MoveAllKeepsSlice(k: State, root: Path, pids: set<Pid>, into: Path)
    requires Leaf(root, into)
    ensures SliceOk(k, root) ==> SliceOk(MoveAll(k, pids, into), root)
  {
  }

  lemma EnableAbove(k: State, d: Path, root: Path)
    requires !(d < root)
    ensures Invalid(EnableAll(k, d), root) <==> Invalid(k, root)
  {
    var t := EnableAll(k, d);
    SamePlaces(k, t);
    hide Members, MayEnable, Available;
    forall n | 0 <= n < |root| ensures ThreadedDomain(t, root[..n]) <==> ThreadedDomain(k, root[..n]) {
      assert root[..n] < root && root[..n] != d;
    }
    hide ThreadedDomain;
  }
}
