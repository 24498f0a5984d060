/** Zygo's operations on its cgroup hierarchy (`cgroup.rs`), and what its teardown removes.
 */
module Cgroups {

  import opened CgroupKernel
  import opened CgroupSlice
  import opened CgroupEnsure
  import opened CgroupFunctions

  const CONTROLLERS := [Cpu, Io, Memory, Pids]

  // --- remove -----------------------------------------------------------------

  /** The cgroups of `d`'s subtree with no process in or below them, gone. */
  function Removed(k: State, d: Path): State {
    k.(tree := map p | p in k.tree && !(d <= p && !Populated(k, p)) :: k.tree[p])
  }

  lemma PopulatedBelow(k: State, d: Path)
    requires WellFormed(k)
    ensures Populated(k, d) <==> Members(k, d) != {} || exists c :: c in Children(k, d) && Populated(k, c)
  {
    if pid :| pid in k.at && d <= k.at[pid] {
      var p := k.at[pid];
      if p == d {
        assert pid in Members(k, d);
      } else {
        var c := p[..|d| + 1];
        AboveExists(k, p, c);
        assert Parent(c) == d && c in Children(k, d) && Populated(k, c);
      }
    }
    if c :| c in Children(k, d) && Populated(k, c) {
      var pid :| pid in k.at && c <= k.at[pid];
      assert d <= c;
    }
  }

  lemma RemovedKeepsSlice(k: State, root: Path, d: Path)
    requires SliceOk(k, root)
    ensures SliceOk(Removed(k, d), root)
  {
  }

  /** Removing one generation changes nothing outside it; in particular its siblings and
      every process stay as they are. */
  lemma SiblingsUnchanged(k: State, d: Path, p: Path)
    requires !(d <= p)
    ensures p in Removed(k, d).tree <==> p in k.tree
    ensures p in k.tree ==> Removed(k, d).tree[p] == k.tree[p]
    ensures Members(Removed(k, d), p) == Members(k, p)
  {
  }

  function Below(k: State, d: Path): set<Path> { set p | p in k.tree && d <= p }

  lemma BelowShrinks(k: State, d: Path, t: State, c: Path)
    requires d in k.tree && c != [] && Parent(c) == d && t.tree.Keys <= k.tree.Keys
    ensures |Below(t, c)| < |Below(k, d)|
  {
    forall p | p in Below(t, c) ensures p in Below(k, d) - {d} { assert d <= c <= p; }
    Smaller(Below(t, c), Below(k, d) - {d});
  }

  lemma {:induction false} Smaller<T>(a: set<T>, b: set<T>)
    requires a <= b
    ensures |a| <= |b|
    decreases a
  {
    if x :| x in a { Smaller(a - {x}, b - {x}); }
  }

  /** `k` less what removing each of `done` removes. */
  function WithoutAll(k: State, done: set<Path>): State {
    k.(tree := map p | p in k.tree && !(exists c :: c in done && c <= p && !Populated(k, p)) :: k.tree[p])
  }

  lemma RemovedOneMore(k: State, done: set<Path>, c: Path)
    ensures Removed(WithoutAll(k, done), c) == WithoutAll(k, done + {c})
  {
    assert forall p :: Populated(WithoutAll(k, done), p) == Populated(k, p);
  }

  lemma WithoutNone(k: State)
    ensures WithoutAll(k, {}) == k
  {
    assert WithoutAll(k, {}).tree == k.tree;
  }

  lemma WithoutFewer(k: State, done: set<Path>)
    ensures WithoutAll(k, done).tree.Keys <= k.tree.Keys
  {
  }

  lemma FirstStepDown(k: State, d: Path, p: Path)
    requires WellFormed(k) && p in k.tree && d <= p && d != p
    ensures p[..|d| + 1] in Children(k, d) && p[..|d| + 1] <= p
  {
    AboveExists(k, p, p[..|d| + 1]);
    assert Parent(p[..|d| + 1]) == d;
  }

  lemma GoneWithChildren(k: State, d: Path, p: Path)
    requires WellFormed(k) && p in k.tree
    ensures p in WithoutAll(k, Children(k, d)).tree <==> !(d <= p && d != p && !Populated(k, p))
  {
    hide Populated;
    if d <= p && d != p { FirstStepDown(k, d, p); }
    forall c | c in Children(k, d) && c <= p ensures d <= p && d != p { assert d == Parent(c) <= c; }
  }

  /** Once the children are dealt with, `rmdir` takes the cgroup itself exactly when
      nothing is left in or below it. */
  lemma MayRemoveIff(k: State, d: Path)
    requires WellFormed(k) && d != []
    ensures MayRemove(WithoutAll(k, Children(k, d)), d) <==> d in k.tree && !Populated(k, d)
  {
    var t := WithoutAll(k, Children(k, d));
    PopulatedBelow(k, d);
    assert Members(t, d) == Members(k, d);
    if d in k.tree { GoneWithChildren(k, d, d); }
    forall c ensures c in Children(t, d) <==> c in Children(k, d) && Populated(k, c) {
      if c in Children(k, d) { GoneWithChildren(k, d, c); assert d <= c; }
    }
    hide Populated, WithoutAll, WellFormed, Members;
  }

  lemma RemovedAll(k: State, d: Path)
    requires WellFormed(k) && d != []
    ensures Rmdir(WithoutAll(k, Children(k, d)), d) == Removed(k, d)
  {
    hide Populated, MayRemove;
    MayRemoveIff(k, d);
    var t, r := Rmdir(WithoutAll(k, Children(k, d)), d), Removed(k, d);
    forall p | p in k.tree ensures p in t.tree <==> p in r.tree { GoneWithChildren(k, d, p); }
    hide WellFormed;
    assert t.tree == r.tree;
  }

  /** The tenants with no process in or below them. */
  function Stale(k: State, root: Path): set<Path> {
    set c | c in Children(k, Tenants(root)) && !Populated(k, c)
  }

  /** A tenant that has not been removed is still there, with the same processes. */
  lemma OthersRemain(k: State, done: set<Path>, d: Path, c: Path)
    requires done <= Children(k, d) && c in Children(k, d) && c !in done
    ensures var t := WithoutAll(k, done); c in t.tree && (Populated(t, c) <==> Populated(k, c))
  {
    forall o | o in done ensures !(o <= c) { SameLength(o, c, c); }
    assert forall p :: Populated(WithoutAll(k, done), p) == Populated(k, p);
  }

  lemma SameLength(a: Path, b: Path, p: Path)
    ensures |a| == |b| && a <= p && b <= p ==> a == b
  {
    if |a| == |b| && a <= p && b <= p { assert a == p[..|a|] && b == p[..|a|]; }
  }

  /** What `clean_stale_tenants` leaves: every process where it was, every tenant that has
      one, and nothing of the others. */
  lemma CleanedTenants(k: State, root: Path, tenant: Path)
    requires tenant in Children(k, Tenants(root))
    ensures var t := WithoutAll(k, Stale(k, root));
            && t.at == k.at
            && (tenant in t.tree <==> Populated(k, tenant))
            && (Populated(k, tenant) ==> forall p | p in k.tree && tenant <= p :: p in t.tree && t.tree[p] == k.tree[p])
            && (!Populated(k, tenant) ==> forall p | p in t.tree :: !(tenant <= p))
  {
    var t := WithoutAll(k, Stale(k, root));
    forall p | p in k.tree && tenant <= p ensures p in t.tree <==> Populated(k, tenant) || Populated(k, p) {
      forall c | c in Stale(k, root) && c <= p ensures c == tenant && !Populated(k, tenant) { SameLength(c, tenant, p); }
      if !Populated(k, tenant) { assert tenant in Stale(k, root) && tenant <= p; }
    }
    forall p | p in k.tree && tenant <= p ensures Populated(k, p) ==> Populated(k, tenant) {
      if pid :| pid in k.at && p <= k.at[pid] { assert tenant <= k.at[pid]; }
    }
    hide Populated;
  }

  /** `is_empty_subtree`. */
  function IsEmptySubtree(k: State, d: Path): bool
    decreases |Below(k, d)|
  {
    if d !in k.tree then true
    else Members(k, d) == {} &&
         forall c | c in Children(k, d) :: (BelowShrinks(k, d, k, c); IsEmptySubtree(k, c))
  }

  lemma {:induction false} EmptySubtreeIff(k: State, d: Path)
    requires WellFormed(k)
    ensures IsEmptySubtree(k, d) <==> !Populated(k, d)
    decreases |Below(k, d)|
  {
    forall pid | pid in k.at && d <= k.at[pid] ensures d in k.tree { AboveExists(k, k.at[pid], d); }
    if d in k.tree {
      PopulatedBelow(k, d);
      forall c | c in Children(k, d) ensures IsEmptySubtree(k, c) <==> !Populated(k, c) {
        BelowShrinks(k, d, k, c);
        EmptySubtreeIff(k, c);
      }
    }
  }

  // --- The operations ---------------------------------------------------------

  lemma EveryController()
    ensures forall c: Controller :: c in CONTROLLERS
  {
    forall c: Controller ensures c in CONTROLLERS {
      match c
      case Cpu => assert CONTROLLERS[0] == c;
      case Io => assert CONTROLLERS[1] == c;
      case Memory => assert CONTROLLERS[2] == c;
      case Pids => assert CONTROLLERS[3] == c;
    }
  }

  /** Enabling controllers that may be enabled on `d` does not bear on whether another may. */
  lemma EnableIsLocal(k: State, t: State, d: Path, c: Controller)
    requires d in k.tree && d in t.tree && t == k.(tree := k.tree[d := t.tree[d]])
    requires forall e :: e in t.tree[d] ==> e in k.tree[d] || MayEnable(k, d, e)
    requires k.tree[d] <= t.tree[d]
    ensures Available(t, d) == Available(k, d) && MayEnable(t, d, c) == MayEnable(k, d, c)
  {
    SamePlaces(k, t);
    hide Members, Inhabited;
    assert forall n | 0 <= n < |d| :: ThreadedDomain(t, d[..n]) <==> ThreadedDomain(k, d[..n]);
    assert Invalid(t, d) <==> Invalid(k, d);
    hide ThreadedDomain, Invalid;
    if d != [] && Members(k, d) != {} {
      if k.tree[d] * DOMAIN == {} {
        forall e | e in t.tree[d] ensures e !in DOMAIN { assert e in k.tree[d] ==> e !in k.tree[d] * DOMAIN; }
      } else {
        var e :| e in k.tree[d] * DOMAIN;
        assert e in t.tree[d] * DOMAIN;
      }
    }
  }

  lemma GoneWhenDone(k: State, done: set<Path>, c: Path)
    requires c in done && !Populated(k, c)
    ensures c !in WithoutAll(k, done).tree
  {
  }

  lemma IsLeaf(root: Path, p: Path)
    requires Tenants(root) <= p && |p| == |root| + 5
    ensures Leaf(root, p)
  {
  }

  lemma ForkKeeps(k: State, root: Path, pid: Pid, child: Pid)
    requires WellFormed(k) && SliceOk(k, root) && pid in k.at && child !in k.at
    ensures var t := k.(at := k.at[child := k.at[pid]]); WellFormed(t) && SliceOk(t, root)
  {
    BornKeeps(k, pid, child);
  }

  lemma ExitKeeps(k: State, root: Path, pid: Pid)
    requires WellFormed(k) && SliceOk(k, root)
    ensures var t := k.(at := k.at - {pid}); WellFormed(t) && SliceOk(t, root)
  {
    GoneKeeps(k, pid);
  }

  lemma MoveNone(k: State, into: Path)
    ensures MoveAll(k, {}, into) == k
  {
    hide CanHold;
    assert MoveAll(k, {}, into).at == k.at;
  }

  lemma MoveOneMore(k: State, pids: set<Pid>, pid: Pid, into: Path)
    ensures Attach(MoveAll(k, pids, into), pid, into) == MoveAll(k, pids + {pid}, into)
  {
    if CanHold(k, into) { HoldStays(k, MoveAll(k, pids, into), into); }
    hide CanHold;
    assert Attach(MoveAll(k, pids, into), pid, into).at == MoveAll(k, pids + {pid}, into).at;
  }

  datatype Result = Created(dir: Path) | NotDelegated(missing: set<Controller>)

  datatype Op =
    | Ensure(own: Pid) | CreateFunction(tenant: string, name: string)
    | CreateGeneration(tenant: string, name: string, token: string)
    | CreateRequest(tenant: string, name: string, token: string, id: string)
    | AttachZygote(pid: Pid, tenant: string, name: string, token: string)
    | AttachRequest(pid: Pid, tenant: string, name: string, token: string, id: string)
    | Remove(dir: Path) | CleanStale
    | ProcessForks(pid: Pid, child: Pid) | ProcessExits(pid: Pid)

  class Hierarchy {
    const root: Path
    const host: set<Controller>
    const ours: set<Pid>
    var tree: map<Path, set<Controller>>
    var at: map<Pid, Path>

    function Now(): State
      reads this
    {
      State(host, tree, at)
    }

    ghost predicate Valid()
      reads this
    {
      root != [] && WellFormed(Now()) && SliceOk(Now(), root)
    }

    constructor (root: Path, host: set<Controller>, ours: set<Pid>, tree: map<Path, set<Controller>>, at: map<Pid, Path>)
      ensures this.root == root && this.ours == ours && Now() == State(host, tree, at)
    {
      this.root, this.host, this.ours, this.tree, this.at := root, host, ours, tree, at;
    }

    method Create(d: Path)
      modifies `tree
      ensures Now() == Mkdirs(old(Now()), d)
    {
      tree := Mkdirs(Now(), d).tree;
    }

    method WriteProcs(d: Path, pid: Pid)
      modifies `at
      ensures Now() == Attach(old(Now()), pid, d)
    {
      at := Attach(Now(), pid, d).at;
    }

    /** `enable_controllers`: one write for each controller that is available and not yet
        enabled; a write the kernel refuses is not an error. */
    method EnableControllers(d: Path)
      modifies `tree
      ensures Now() == EnableAll(old(Now()), d)
      ensures WellFormed(old(Now())) ==> WellFormed(Now())
    {
      hide WellFormed;
      var have := Available(Now(), d);
      ghost var k := Now();
      if d !in tree { return; }
      var already := tree[d];
      for i := 0 to |CONTROLLERS|
        invariant d in tree && tree == k.tree[d := tree[d]] && at == k.at
        invariant forall c :: c in tree[d] <==> c in k.tree[d] || (c in CONTROLLERS[..i] && c in have && MayEnable(k, d, c))
        invariant WellFormed(k) ==> WellFormed(Now())
      {
        var c := CONTROLLERS[i];
        if WellFormed(Now()) { EnableKeeps(Now(), d, c); }
        EnableIsLocal(k, Now(), d, c);
        if c !in already && c in have { tree := Enable(Now(), d, c).tree; }
      }
      assert CONTROLLERS[..|CONTROLLERS|] == CONTROLLERS;
      EveryController();
      assert tree[d] == EnableAll(k, d).tree[d];
    }

    /** `vacate` and `vacate_ours`: each of `pids` that is in `from`, moved to `into`. */
    method VacateInto(pids: set<Pid>, into: Path)
      modifies `tree, `at
      ensures Now() == Vacate(old(Now()), pids, into)
      ensures Leaf(root, into) && SliceOk(old(Now()), root) ==> SliceOk(Now(), root)
    {
      hide Mkdirs, Attach, MoveAll, CanHold, SliceOk, Leaf;
      if pids == {} { return; }
      MkdirsKeepsSlice(Now(), root, into);
      Create(into);
      if Leaf(root, into) { MoveAllKeepsSlice(Now(), root, pids, into); }
      ghost var k := Now();
      var left := pids;
      ghost var done: set<Pid> := {};
      MoveNone(k, into);
      while left != {}
        invariant left + done == pids && Now() == MoveAll(k, done, into)
        decreases left
      {
        var pid :| pid in left;
        MoveOneMore(k, done, pid, into);
        WriteProcs(into, pid);
        left, done := left - {pid}, done + {pid};
      }
      assert done == pids;
    }

    method Ensure(own: Pid)
      requires root != [] && WellFormed(Now())
      modifies this
      ensures Now() == Ensured(old(Now()), root, own, ours) && WellFormed(Now())
      ensures Valid() <==> Repairable(old(Now()), root, own)
    {
      EnsuredIff(Now(), root, own, ours);
      EnsuredIsWellFormed(Now(), root, own, ours);
      hide WellFormed, SliceOk, Repairable, Mkdirs, Attach, EnableAll, Vacate, CanHold, Leaf;
      Create(root);
      Create(System(root));
      if InTheWay(Now(), root, own) { WriteProcs(System(root), own); }
      VacateInto(Members(Now(), root), System(root));
      VacateInto(Members(Now(), Parent(root)) * ours, System(root));
      EnableControllers(Parent(root));
      EnableControllers(root);
      Create(Tenants(root));
      EnableControllers(Tenants(root));
    }

    method CreateFunction(tenant: string, name: string) returns (r: Result)
      requires Valid()
      modifies this
      ensures Valid() && Now() == FunctionMade(old(Now()), root, tenant, name)
      ensures r.Created? <==> {Memory, Pids, Cpu} <= Given(old(Now()), root)
      ensures r.Created? ==> r.dir == Function(root, tenant, name) && forall p | p <= r.dir :: p in tree && {Memory, Pids, Cpu} <= tree[p]
      ensures r.NotDelegated? ==> r.missing == {Memory, Pids, Cpu} - Available(Now(), Function(root, tenant, name))
      ensures r.NotDelegated? && !Invalid(old(Now()), root) ==> r.missing == {Memory, Pids, Cpu} - Given(old(Now()), root)
    {
      hide WellFormed, SliceOk, Mkdirs, EnableAll, Sanitise, Available, Function, Tenant, Tenants, Invalid, Given;
      if !Invalid(Now(), root) { FunctionGetsAll(Now(), root, tenant, name); }
      FunctionMadeIff(Now(), root, tenant, name);
      FunctionMadeKeeps(Now(), root, tenant, name);
      var dir := Function(root, tenant, name);
      Create(Tenants(root));
      EnableControllers(root);
      EnableControllers(Tenants(root));
      Create(Tenant(root, tenant));
      EnableControllers(Tenant(root, tenant));
      Create(dir);
      EnableControllers(dir);
      var missing := set c | c in REQUIRED && c !in Available(Now(), dir);
      assert missing == REQUIRED - Available(Now(), dir);
      RestIsEmpty(REQUIRED, Available(Now(), dir));
      if missing != {} { return NotDelegated(missing); }
      return Created(dir);
    }

    method CreateGeneration(tenant: string, name: string, token: string) returns (dir: Path)
      requires Valid()
      modifies this
      ensures dir == Generation(root, tenant, name, token)
      ensures Valid() && Now() == GenerationMade(old(Now()), dir)
      ensures dir in tree && dir + ["zygote"] in tree && Available(Now(), dir + ["zygote"]) == tree[dir]
      ensures {Memory, Pids, Cpu} <= tree[dir] <==> {Memory, Pids, Cpu} <= PassedTo(old(Now()), dir)
      ensures !Invalid(old(Now()), root) ==> tree[dir] == PassedTo(old(Now()), dir)
    {
      dir := Generation(root, tenant, name, token);
      assert Tenants(root) <= dir && |dir| == |root| + 4;
      GenerationKeeps(Now(), root, dir);
      GenerationIs(Now(), root, dir);
      hide WellFormed, SliceOk, Mkdirs, EnableAll, Available, Invalid;
      Create(dir);
      EnableControllers(dir);
      Create(Zygote(dir));
    }

    method CreateRequest(generation: Path, id: string) returns (dir: Path)
      requires Valid()
      modifies this
      ensures dir == Request(generation, id)
      ensures Valid() && Now() == Mkdirs(old(Now()), dir)
      ensures dir in tree && Available(Now(), dir) == PassedTo(old(Now()), dir)
    {
      dir := Request(generation, id);
      MkdirsGives(Now(), dir);
      RequestKeeps(Now(), root, dir);
      hide WellFormed, SliceOk, Mkdirs;
      Create(dir);
    }

    method AttachToLeaf(leaf: Path, pid: Pid) returns (ok: bool)
      requires Valid() && Leaf(root, leaf)
      modifies this
      ensures Valid() && Now() == Attach(old(Now()), pid, leaf)
      ensures ok <==> pid in at && leaf in tree && !Invalid(old(Now()), root)
      ensures ok ==> at[pid] == leaf
    {
      AttachKeepsSlice(Now(), root, pid, leaf);
      hide WellFormed, SliceOk, Leaf, CanHold, Invalid;
      ok := MayAttach(Now(), pid, leaf);
      WriteProcs(leaf, pid);
    }

    /** Leaves first: `rmdir` refuses a cgroup that has children or processes. */
    method Remove(dir: Path)
      requires Valid() && dir != []
      modifies `tree
      ensures Valid() && Now() == Removed(old(Now()), dir)
      decreases |Below(Now(), dir)|
    {
      hide WellFormed, SliceOk, Removed, WithoutAll, Populated;
      ghost var k := Now();
      var left := Children(Now(), dir);
      ghost var done: set<Path> := {};
      WithoutNone(k);
      while left != {}
        invariant Valid() && left + done == Children(k, dir)
        invariant Now() == WithoutAll(k, done)
        decreases left
      {
        var child :| child in left;
        ParentExists(k, child);
        WithoutFewer(k, done);
        BelowShrinks(k, dir, Now(), child);
        RemovedOneMore(k, done, child);
        Remove(child);
        left, done := left - {child}, done + {child};
      }
      RemovedAll(k, dir);
      RemovedKeepsSlice(k, root, dir);
      RmdirKeeps(Now(), dir);
      tree := Rmdir(Now(), dir).tree;
    }

    /** `clean_stale_tenants`: the names it cleaned up. */
    method CleanStaleTenants() returns (cleaned: seq<string>)
      requires Valid()
      modifies `tree
      ensures Valid() && Now() == WithoutAll(old(Now()), Stale(old(Now()), root))
      ensures forall name :: name in cleaned <==> Tenants(root) + [name] in Stale(old(Now()), root)
    {
      hide WellFormed, SliceOk, Removed, WithoutAll, Populated, Below, IsEmptySubtree;
      ghost var k := Now();
      var left := Children(Now(), Tenants(root));
      ghost var done: set<Path> := {};
      cleaned := [];
      WithoutNone(k);
      while left != {}
        invariant Valid() && Now() == WithoutAll(k, done)
        invariant left <= Children(k, Tenants(root)) && done <= Stale(k, root) && left !! done
        invariant Stale(k, root) <= left + done
        invariant forall name :: name in cleaned <==> Tenants(root) + [name] in done
        decreases left
      {
        var path :| path in left;
        left := left - {path};
        OthersRemain(k, done, Tenants(root), path);
        EmptySubtreeIff(Now(), path);
        if IsEmptySubtree(Now(), path) {
          RemovedOneMore(k, done, path);
          Remove(path);
          done := done + {path};
          GoneWhenDone(k, done, path);
          if path !in tree { cleaned := cleaned + [path[|path| - 1]]; }
          assert path == Tenants(root) + [path[|path| - 1]];
        }
      }
      assert done == Stale(k, root);
    }

    method ProcessForks(pid: Pid, child: Pid)
      requires Valid() && pid in at && child !in at
      modifies `at
      ensures Valid() && tree == old(tree) && at == old(at)[child := old(at)[pid]]
    {
      ForkKeeps(Now(), root, pid, child);
      at := at[child := at[pid]];
    }

    method ProcessExits(pid: Pid)
      requires Valid()
      modifies `at
      ensures Valid() && tree == old(tree) && at == old(at) - {pid}
    {
      ExitKeeps(Now(), root, pid);
      at := at - {pid};
    }

    /** Any sequence of Zygo's operations, with processes forking and exiting between
        them: no cgroup of the slice ever both holds processes and delegates. */
    method Run(ops: seq<Op>)
      requires Valid()
      modifies this
      ensures Valid()
      ensures forall p | p in tree && root <= p :: Members(Now(), p) == {} || tree[p] == {}
    {
      hide WellFormed, SliceOk, Members, Leaf, Sanitise;
      for i := 0 to |ops|
        invariant Valid()
      {
        match ops[i]
        case Ensure(own) => OkIsRepairable(Now(), root, own); Ensure(own);
        case CreateFunction(tenant, name) => var _ := CreateFunction(tenant, name);
        case CreateGeneration(tenant, name, token) => var _ := CreateGeneration(tenant, name, token);
        case CreateRequest(tenant, name, token, id) => var _ := CreateRequest(Generation(root, tenant, name, token), id);
        case AttachZygote(pid, tenant, name, token) =>
          var leaf := Zygote(Generation(root, tenant, name, token));
          IsLeaf(root, leaf);
          var _ := AttachToLeaf(leaf, pid);
        case AttachRequest(pid, tenant, name, token, id) =>
          var leaf := Request(Generation(root, tenant, name, token), id);
          IsLeaf(root, leaf);
          var _ := AttachToLeaf(leaf, pid);
        case Remove(dir) => if dir != [] { Remove(dir); }
        case CleanStale => var _ := CleanStaleTenants();
        case ProcessForks(pid, child) => if pid in at && child !in at { ProcessForks(pid, child); }
        case ProcessExits(pid) => ProcessExits(pid);
      }
      forall p | p in tree && root <= p ensures Members(Now(), p) == {} || tree[p] == {} { NeverBoth(Now(), root, p); }
    }
  }
}
