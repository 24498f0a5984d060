/** `ensure` (`cgroup.rs`): which found slices it repairs, whom it moves, what processes that
    fork meanwhile can do, and what the slice's parent passes down afterwards.
 */
module CgroupEnsure {

  import opened CgroupKernel
  import opened CgroupSlice

  // --- ensure -----------------------------------------------------------------

  /** Whether the calling process sits where delegation needs nobody to sit. */
  predicate InTheWay(k: State, root: Path, own: Pid) {
    && own in k.at
    && ((root != [] && k.at[own] == Parent(root)) || (root <= k.at[own] && !(System(root) <= k.at[own])))
  }

  function LaidOut(k: State, root: Path): State { Mkdirs(Mkdirs(k, root), System(root)) }

  function Aside(k: State, root: Path, own: Pid): State {
    if InTheWay(k, root, own) then Attach(k, own, System(root)) else k
  }

  function Emptied(k: State, root: Path): State { Vacate(k, Members(k, root), System(root)) }

  function ParentFreed(k: State, root: Path, ours: set<Pid>): State {
    if root == [] then k
    else EnableAll(Vacate(k, Members(k, Parent(root)) * ours, System(root)), Parent(root))
  }

  function Delegated(k: State, root: Path): State {
    EnableAll(Mkdirs(EnableAll(k, root), Tenants(root)), Tenants(root))
  }

  function Ensured(k: State, root: Path, own: Pid, ours: set<Pid>): State {
    Delegated(ParentFreed(Emptied(Aside(LaidOut(k, root), root, own), root), root, ours), root)
  }

  lemma FreedIsWellFormed(k: State, root: Path, own: Pid, ours: set<Pid>)
    requires WellFormed(k)
    ensures var t := ParentFreed(Emptied(Aside(LaidOut(k, root), root, own), root), root, ours); WellFormed(t)
  {
    hide WellFormed, Mkdirs, Attach, Vacate, EnableAll, Members, InTheWay;
    var k1 := LaidOut(k, root);
    MkdirsKeeps(k, root);
    MkdirsKeeps(Mkdirs(k, root), System(root));
    AttachKeeps(k1, own, System(root));
    var k2 := Aside(k1, root, own);
    var k3 := Emptied(k2, root);
    VacateKeeps(k2, Members(k2, root), System(root));
    if root != [] {
      var k4 := Vacate(k3, Members(k3, Parent(root)) * ours, System(root));
      VacateKeeps(k3, Members(k3, Parent(root)) * ours, System(root));
      EnableAllKeeps(k4, Parent(root));
    }
  }

  lemma EnsuredIsWellFormed(k: State, root: Path, own: Pid, ours: set<Pid>)
    requires WellFormed(k)
    ensures WellFormed(Ensured(k, root, own, ours))
  {
    hide WellFormed, LaidOut, Aside, Emptied, ParentFreed, Mkdirs, EnableAll, Vacate;
    FreedIsWellFormed(k, root, own, ours);
    var k5 := ParentFreed(Emptied(Aside(LaidOut(k, root), root, own), root), root, ours);
    EnableAllKeeps(k5, root);
    MkdirsKeeps(EnableAll(k5, root), Tenants(root));
    EnableAllKeeps(Mkdirs(EnableAll(k5, root), Tenants(root)), Tenants(root));
  }

  /** `t` has and passes down what `k` does, and more only at `except`. */
  predicate Extends(k: State, t: State, except: set<Path>) {
    && t.host == k.host
    && (forall p | p in k.tree :: p in t.tree && k.tree[p] <= t.tree[p])
    && (forall p | p in t.tree && p !in except :: t.tree[p] == if p in k.tree then k.tree[p] else {})
  }

  lemma EachExtends(k: State, d: Path, pids: set<Pid>)
    ensures Extends(k, Mkdirs(k, d), {}) && Extends(k, EnableAll(k, d), {d}) && Extends(k, Vacate(k, pids, d), {})
  {
  }

  lemma ExtendsOn(k: State, m: State, t: State, early: set<Path>, late: set<Path>)
    requires Extends(k, m, early) && Extends(m, t, late)
    ensures Extends(k, t, early + late)
  {
  }

  lemma TreeOkIff(k: State, t: State, root: Path, except: set<Path>)
    requires Extends(k, t, except) && forall p | p in except && root <= p :: Interior(root, p)
    ensures TreeOk(t, root) <==> TreeOk(k, root)
  {
    hide Interior;
  }

  lemma SystemTakesProcesses(k: State, root: Path)
    requires TreeOk(k, root) && System(root) in k.tree
    ensures k.tree[System(root)] == {}
  {
    LeavesAreNotInterior(root, System(root));
  }

  lemma OkIsRepairable(k: State, root: Path, own: Pid)
    requires SliceOk(k, root)
    ensures Repairable(k, root, own)
  {
  }

  lemma OkIff(k: State, root: Path)
    ensures SliceOk(k, root) <==> Gathered(k, root) && Members(k, root) == {}
  {
    LeavesAreNotInterior(root, root);
    hide TreeOk;
    assert forall pid :: pid in Members(k, root) <==> pid in k.at && k.at[pid] == root;
    hide Leaf, Members;
  }

  lemma AsideExtends(k: State, root: Path, own: Pid)
    ensures var t := Aside(LaidOut(k, root), root, own);
            Extends(k, t, {}) && Extends(Mkdirs(k, root), t, {}) && System(root) in t.tree
  {
    EachExtends(k, root, {});
    EachExtends(Mkdirs(k, root), System(root), {});
    ExtendsOn(k, Mkdirs(k, root), LaidOut(k, root), {}, {});
  }

  /** How `system`, the slice and its parent lie to each other and to the leaves. */
  lemma LeafFacts(root: Path)
    requires root != []
    ensures Leaf(root, System(root)) && System(root) != root && !Leaf(root, root)
    ensures !(root <= Parent(root)) && !(System(root) <= root)
    ensures forall p :: Leaf(root, p) && System(root) <= p ==> p == System(root)
  {
    forall p | Leaf(root, p) && System(root) <= p ensures p == System(root) {
      assert p[|root|] == "system";
      assert Tenants(root)[|root|] == "tenants";
    }
  }

  lemma IsSystem(root: Path)
    ensures Leaf(root, System(root))
  {
  }

  /** What `ensure` does after the slice is emptied neither repairs it nor spoils it. */
  lemma RestIff(k: State, root: Path, ours: set<Pid>)
    requires root != []
    ensures SliceOk(Delegated(ParentFreed(k, root, ours), root), root) <==> SliceOk(k, root)
  {
    hide TreeOk, Mkdirs, EnableAll, Extends, Leaf, Interior;
    RestExtends(k, root, ours);
    InteriorTop(root);
    TreeOkIff(k, Delegated(ParentFreed(k, root, ours), root), root, {Parent(root), root, Tenants(root)});
    RestMoves(k, root, ours);
    LeafFacts(root);
  }

  lemma InteriorTop(root: Path)
    requires root != []
    ensures forall p | p in {Parent(root), root, Tenants(root)} && root <= p :: Interior(root, p)
  {
  }

  lemma RestExtends(k: State, root: Path, ours: set<Pid>)
    requires root != []
    ensures Extends(k, Delegated(ParentFreed(k, root, ours), root), {Parent(root), root, Tenants(root)})
  {
    hide Extends, Mkdirs, EnableAll, Vacate, Members, Available, MayEnable;
    var pids := Members(k, Parent(root)) * ours;
    EachExtends(k, System(root), pids);
    var k1 := Vacate(k, pids, System(root));
    EachExtends(k1, Parent(root), {});
    var k2 := EnableAll(k1, Parent(root));
    ExtendsOn(k, k1, k2, {}, {Parent(root)});
    EachExtends(k2, root, {});
    var k3 := EnableAll(k2, root);
    ExtendsOn(k, k2, k3, {} + {Parent(root)}, {root});
    EachExtends(k3, Tenants(root), {});
    var k4 := Mkdirs(k3, Tenants(root));
    ExtendsOn(k, k3, k4, {} + {Parent(root)} + {root}, {});
    EachExtends(k4, Tenants(root), {});
    ExtendsOn(k, k4, EnableAll(k4, Tenants(root)), {} + {Parent(root)} + {root} + {}, {Tenants(root)});
    assert {} + {Parent(root)} + {root} + {} + {Tenants(root)} == {Parent(root), root, Tenants(root)};
  }

  lemma RestMoves(k: State, root: Path, ours: set<Pid>)
    requires root != []
    ensures var t := Delegated(ParentFreed(k, root, ours), root);
            && t.at.Keys == k.at.Keys
            && forall pid | pid in k.at :: t.at[pid] == k.at[pid] || (k.at[pid] == Parent(root) && t.at[pid] == System(root))
  {
    hide Vacate;
    VacateMoves(k, Members(k, Parent(root)) * ours, System(root));
    EnablesAt(Vacate(k, Members(k, Parent(root)) * ours, System(root)), root);
  }

  lemma VacateMoves(k: State, pids: set<Pid>, into: Path)
    ensures var t := Vacate(k, pids, into);
            && t.at.Keys == k.at.Keys
            && forall pid | pid in k.at :: t.at[pid] == k.at[pid] || (pid in pids && t.at[pid] == into)
  {
    hide Mkdirs;
    assert Mkdirs(k, into).at == k.at by { MkdirsAt(k, into); }
  }

  lemma MkdirsAt(k: State, d: Path)
    ensures Mkdirs(k, d).at == k.at
  {
  }

  lemma EnablesAt(k: State, root: Path)
    requires root != []
    ensures Delegated(EnableAll(k, Parent(root)), root).at == k.at
  {
    hide Available, MayEnable;
  }

  /** Whether `system`, once it is there, takes processes. */
  predicate Takes(k: State, root: Path) { CanHold(LaidOut(k, root), System(root)) }

  predicate Moves(k: State, root: Path, own: Pid, ours: set<Pid>, pid: Pid)
    requires root != [] && pid in k.at
  {
    k.at[pid] == root || (k.at[pid] == Parent(root) && pid in ours) || (pid == own && InTheWay(k, root, own))
  }

  lemma VacateAt(k: State, pids: set<Pid>, d: Path)
    requires d in k.tree
    ensures var t := Vacate(k, pids, d);
            && d in t.tree && (CanHold(t, d) <==> CanHold(k, d))
            && t.at == if CanHold(k, d) then map pid | pid in k.at :: if pid in pids then d else k.at[pid] else k.at
  {
    var m := Mkdirs(k, d);
    MkdirsThreads(k, d);
    assert d in m.tree && m.at == k.at;
    hide Mkdirs, Prefixes;
    if CanHold(m, d) { HoldStays(m, MoveAll(m, pids, d), d); }
    hide CanHold;
    if pids == {} { assert k.at == map pid | pid in k.at :: if pid in pids then d else k.at[pid]; }
  }

  lemma AsideMoves(k: State, root: Path, own: Pid)
    ensures var t := Aside(LaidOut(k, root), root, own);
            && System(root) in t.tree && (CanHold(t, System(root)) <==> Takes(k, root))
            && t.at == if Takes(k, root) then map pid | pid in k.at :: if pid == own && InTheWay(k, root, own) then System(root) else k.at[pid] else k.at
  {
    var laid := LaidOut(k, root);
    assert laid.at == k.at && System(root) in laid.tree;
    hide LaidOut, CanHold, Invalid;
    if CanHold(laid, System(root)) && InTheWay(laid, root, own) { HoldStays(laid, Attach(laid, own, System(root)), System(root)); }
  }

  /** Whom `ensure` moves, whatever it finds: the processes in the slice itself, Zygo's own
      in the slice's parent, and the caller if it is in the way; or, when `system` cannot
      take any, nobody. */
  lemma EnsuredMoves(k: State, root: Path, own: Pid, ours: set<Pid>)
    requires root != []
    ensures Ensured(k, root, own, ours).at ==
            if Takes(k, root) then map pid | pid in k.at :: if Moves(k, root, own, ours, pid) then System(root) else k.at[pid]
            else k.at
  {
    hide LaidOut, Vacate, Mkdirs, Takes, EnableAll, InTheWay, Delegated, CanHold;
    var k2 := Aside(LaidOut(k, root), root, own);
    AsideMoves(k, root, own);
    VacateAt(k2, Members(k2, root), System(root));
    var k3 := Emptied(k2, root);
    var pids := Members(k3, Parent(root)) * ours;
    VacateAt(k3, pids, System(root));
    EnablesAt(Vacate(k3, pids, System(root)), root);
    assert System(root) != root && System(root) != Parent(root) && Parent(root) != root;
    hide Aside, Emptied, ParentFreed, System, Parent;
  }

  lemma EnsuredExtends(k: State, root: Path, own: Pid, ours: set<Pid>)
    requires root != []
    ensures Extends(k, Ensured(k, root, own, ours), {Parent(root), root, Tenants(root)})
  {
    hide Extends, LaidOut, Aside, Vacate, Members, Delegated, ParentFreed;
    AsideExtends(k, root, own);
    var k2 := Aside(LaidOut(k, root), root, own);
    EachExtends(k2, System(root), Members(k2, root));
    var k3 := Emptied(k2, root);
    ExtendsOn(k, k2, k3, {}, {});
    RestExtends(k3, root, ours);
    ExtendsOn(k, k3, Ensured(k, root, own, ours), {} + {}, {Parent(root), root, Tenants(root)});
    assert {} + {} + {Parent(root), root, Tenants(root)} == {Parent(root), root, Tenants(root)};
  }

  lemma SystemInvalid(k: State, root: Path)
    ensures Invalid(k, System(root)) <==> Invalid(k, root) || ThreadedDomain(k, root)
  {
    hide ThreadedDomain;
    assert forall n | 0 <= n <= |root| :: System(root)[..n] == root[..n];
    assert root[..|root|] == root;
    if ThreadedDomain(k, root) { assert ThreadedDomain(k, System(root)[..|root|]); }
    if Invalid(k, root) { InvalidBelow(k, root, System(root)); }
  }

  /** In an inhabited slice `system` takes processes unless the slice itself both holds
      some and passes a controller on. */
  lemma TakesIff(k: State, root: Path, pid: Pid)
    requires WellFormed(k) && TreeOk(k, root) && root != [] && pid in k.at && root <= k.at[pid]
    ensures root in k.tree && (Takes(k, root) <==> Members(k, root) == {} || k.tree[root] == {})
  {
    AboveExists(k, k.at[pid], root);
    NoneAbove(k, pid, root);
    var laid := LaidOut(k, root);
    MkdirsThreads(k, root);
    MkdirsThreads(Mkdirs(k, root), System(root));
    SystemInvalid(laid, root);
    LaidOutTree(k, root);
    SystemTakesProcesses(laid, root);
    if Members(k, root) != {} && k.tree[root] != {} { PassesThreaded(k.tree[root]); }
    hide Invalid, LaidOut, Mkdirs, TreeOk, Members;
  }

  lemma LaidOutTree(k: State, root: Path)
    requires TreeOk(k, root)
    ensures TreeOk(LaidOut(k, root), root) && System(root) in LaidOut(k, root).tree
  {
    EachExtends(k, root, {});
    EachExtends(Mkdirs(k, root), System(root), {});
    ExtendsOn(k, Mkdirs(k, root), LaidOut(k, root), {}, {});
    TreeOkIff(k, LaidOut(k, root), root, {});
    hide TreeOk, Extends;
  }

  /** Where a process ends up, and whether that is where it belongs. */
  lemma MendableIff(k: State, root: Path, own: Pid, ours: set<Pid>, pid: Pid)
    requires WellFormed(k) && TreeOk(k, root) && root != [] && pid in k.at && root <= k.at[pid]
    ensures (Takes(k, root) && Moves(k, root, own, ours, pid)) || Leaf(root, k.at[pid]) <==> Mendable(k, root, own, pid)
  {
    TakesIff(k, root, pid);
    LeafFacts(root);
    assert k.at[pid] == root ==> pid in Members(k, root);
    assert k.at[pid] != root ==> Inhabited(k, root);
    hide WellFormed, TreeOk, Takes, Leaf, Members;
  }

  /** `ensure` leaves the slice without a cgroup that has both processes and delegation,
      nor any place for one, exactly when it found a slice it can repair. */
  lemma EnsuredIff(k: State, root: Path, own: Pid, ours: set<Pid>)
    requires WellFormed(k) && root != []
    ensures SliceOk(Ensured(k, root, own, ours), root) <==> Repairable(k, root, own)
  {
    hide WellFormed, TreeOk, Takes, Leaf, Extends, Ensured, Mendable, Moves, Interior;
    var t := Ensured(k, root, own, ours);
    EnsuredExtends(k, root, own, ours);
    InteriorTop(root);
    TreeOkIff(k, t, root, {Parent(root), root, Tenants(root)});
    EnsuredMoves(k, root, own, ours);
    LeafFacts(root);
    assert t.at.Keys == k.at.Keys;
    if TreeOk(k, root) {
      forall pid | pid in k.at
        ensures (root <= t.at[pid] ==> Leaf(root, t.at[pid])) <==> (root <= k.at[pid] ==> Mendable(k, root, own, pid))
      {
        if root <= k.at[pid] { MendableIff(k, root, own, ours, pid); }
      }
    }
  }

  /** What `ensure` builds, whatever it found: the slice, `system` and `tenants`; and in a
      slice it repairs, unless that is below a threaded domain, the first and the last pass
      on all that the slice is given. */
  lemma EnsuredBuilds(k: State, root: Path, own: Pid, ours: set<Pid>)
    requires WellFormed(k) && root != []
    ensures var t := Ensured(k, root, own, ours);
            && root in t.tree && root + ["system"] in t.tree && root + ["tenants"] in t.tree && Parent(root) in t.tree
            && (Repairable(k, root, own) && !Invalid(t, root) ==>
                t.tree[root] == t.tree[Parent(root)] && t.tree[root + ["tenants"]] == t.tree[Parent(root)])
  {
    var t := Ensured(k, root, own, ours);
    var k3 := Emptied(Aside(LaidOut(k, root), root, own), root);
    var k5 := ParentFreed(k3, root, ours);
    FreedIsWellFormed(k, root, own, ours);
    EnsuredIsWellFormed(k, root, own, ours);
    FreedHas(k, root, own, ours);
    hide LaidOut, Aside, Emptied, ParentFreed, Repairable, Delegated, Invalid, Available, MayEnable;
    assert t == Delegated(k5, root);
    DelegatedBuilds(k5, root);
    EnsuredIff(k, root, own, ours);
  }

  lemma FreedHas(k: State, root: Path, own: Pid, ours: set<Pid>)
    requires root != []
    ensures var t := ParentFreed(Emptied(Aside(LaidOut(k, root), root, own), root), root, ours); root in t.tree && System(root) in t.tree
  {
    hide Mkdirs, Vacate, EnableAll, Members, Aside, LaidOut;
    var k2 := Aside(LaidOut(k, root), root, own);
    AsideExtends(k, root, own);
    MkdirsMakes(k, root);
    EachExtends(k2, System(root), Members(k2, root));
    var k3 := Emptied(k2, root);
    EachExtends(k3, System(root), Members(k3, Parent(root)) * ours);
    EachExtends(Vacate(k3, Members(k3, Parent(root)) * ours, System(root)), Parent(root), {});
  }

  lemma DelegatedBuilds(k: State, root: Path)
    requires WellFormed(k) && root != [] && root in k.tree && System(root) in k.tree
    ensures var t := Delegated(k, root);
            && root in t.tree && System(root) in t.tree && Tenants(root) in t.tree && Parent(root) in t.tree
            && (SliceOk(t, root) && !Invalid(t, root) ==>
                t.tree[root] == t.tree[Parent(root)] && t.tree[Tenants(root)] == t.tree[Parent(root)])
  {
    hide WellFormed, SliceOk, Delegated, Invalid;
    ParentExists(k, root);
    DelegatedHas(k, root);
    DelegatedBack(k, root);
    if SliceOk(k, root) && !Invalid(k, root) { DelegatedGives(k, root); }
  }

  lemma DelegatedHas(k: State, root: Path)
    requires root in k.tree
    ensures var t := Delegated(k, root); Tenants(root) in t.tree && forall p | p in k.tree :: p in t.tree
  {
    hide EnableAll, Mkdirs, Extends;
    var k1 := EnableAll(k, root);
    var k2 := Mkdirs(k1, Tenants(root));
    DelegatedGrows(k, root);
    MkdirsMakes(k1, Tenants(root));
    EachExtends(k2, Tenants(root), {});
    assert Extends(k2, Delegated(k, root), {Tenants(root)});
    ExtendsHas(k2, Delegated(k, root), {Tenants(root)}, Tenants(root));
    forall p | p in k.tree ensures p in Delegated(k, root).tree { ExtendsHas(k, Delegated(k, root), {root} + {} + {Tenants(root)}, p); }
  }

  lemma ExtendsHas(k: State, t: State, except: set<Path>, p: Path)
    requires Extends(k, t, except) && p in k.tree
    ensures p in t.tree
  {
  }

  lemma DelegatedGrows(k: State, root: Path)
    ensures Extends(k, Delegated(k, root), {root} + {} + {Tenants(root)}) && Delegated(k, root).at == k.at
  {
    hide Extends, Mkdirs, MayEnable, Available;
    var k1 := EnableAll(k, root);
    var k2 := Mkdirs(k1, Tenants(root));
    MkdirsAt(k1, Tenants(root));
    EachExtends(k, root, {});
    EachExtends(k1, Tenants(root), {});
    EachExtends(k2, Tenants(root), {});
    ExtendsOn(k, k1, k2, {root}, {});
    ExtendsOn(k, k2, Delegated(k, root), {root} + {}, {Tenants(root)});
  }

  lemma DelegatedBack(k: State, root: Path)
    requires root != []
    ensures var t := Delegated(k, root); (SliceOk(t, root) ==> SliceOk(k, root)) && (Invalid(t, root) <==> Invalid(k, root))
  {
    var t, k1 := Delegated(k, root), EnableAll(k, root);
    DelegatedGrows(k, root);
    InteriorTop(root);
    TreeOkIff(k, t, root, {root} + {} + {Tenants(root)});
    EnableAbove(k, root, root);
    MkdirsThreads(k1, Tenants(root));
    EnableAbove(Mkdirs(k1, Tenants(root)), Tenants(root), root);
    hide TreeOk, Leaf, Interior, Invalid, EnableAll, Mkdirs, Extends;
  }

  lemma DelegatedGives(k: State, root: Path)
    requires WellFormed(k) && SliceOk(k, root) && !Invalid(k, root) && root != [] && root in k.tree && Parent(root) in k.tree
    ensures var t := Delegated(k, root);
            && root in t.tree && Tenants(root) in t.tree && Parent(root) in t.tree
            && t.tree[root] == t.tree[Parent(root)] && t.tree[Tenants(root)] == t.tree[Parent(root)]
  {
    hide WellFormed, SliceOk, Invalid, Members, MayEnable, Mkdirs;
    var d := Tenants(root);
    var k1 := EnableAll(k, root);
    assert Parent(d) == root && d != root && d != Parent(root) && Parent(root) != root && d != [];
    InteriorTop(root);
    EnableAllKeeps(k, root);
    EnableAllKeepsSlice(k, root, root);
    EnableAbove(k, root, root);
    InteriorPassesAll(k, root, root);
    var k2 := Mkdirs(k1, d);
    MkdirsKeeps(k1, d);
    MkdirsKeepsSlice(k1, root, d);
    MkdirsThreads(k1, d);
    NewBelow(k1, root, d);
    InteriorPassesAll(k2, root, d);
    hide Interior, Leaf;
  }

  lemma NewBelow(k: State, root: Path, d: Path)
    requires d != [] && Parent(d) == root && root in k.tree
    ensures var t := Mkdirs(k, d);
            && d in t.tree && root in t.tree && Available(t, d) == k.tree[root] && t.tree[root] == k.tree[root]
            && forall p | p in k.tree :: p in t.tree && t.tree[p] == k.tree[p]
  {
  }

  // Processes that fork while `vacate` is at work

  /** What happens between `vacate` reading a cgroup's processes and its last write. */
  datatype Moment = Writes(pid: Pid) | Forks(pid: Pid, child: Pid) | Exits(pid: Pid)

  predicate Born(k: State, m: Moment, d: Path) { m.Forks? && m.child !in k.at && m.pid in k.at && k.at[m.pid] == d }

  function Happens(k: State, m: Moment, into: Path): State {
    match m
    case Writes(pid) => Attach(k, pid, into)
    case Forks(pid, child) => if pid in k.at && child !in k.at then k.(at := k.at[child := k.at[pid]]) else k
    case Exits(pid) => k.(at := k.at - {pid})
  }

  function AfterAll(k: State, ms: seq<Moment>, into: Path): State
    decreases |ms|
  {
    if ms == [] then k else AfterAll(Happens(k, ms[0], into), ms[1..], into)
  }

  predicate Departs(pid: Pid, ms: seq<Moment>) { Writes(pid) in ms || Exits(pid) in ms }

  /** Every process born in `d` meanwhile also exits, or has the number of one that was
      read and is moved in its place. */
  predicate NoneLeftBehind(k: State, d: Path, ms: seq<Moment>, into: Path)
    decreases |ms|
  {
    ms == [] || ((Born(k, ms[0], d) ==> Departs(ms[0].child, ms[1..])) && NoneLeftBehind(Happens(k, ms[0], into), d, ms[1..], into))
  }

  lemma HappensAt(k: State, m: Moment, d: Path, into: Path)
    requires into != d && CanHold(k, into) && k.tree[into] == {}
    ensures var t := Happens(k, m, into);
            && t.tree == k.tree
            && forall q :: q in Members(t, d) <==> (q in Members(k, d) && m != Writes(q) && m != Exits(q)) || (Born(k, m, d) && q == m.child)
  {
    hide CanHold;
  }

  lemma HappensKeepsHold(k: State, m: Moment, into: Path)
    requires CanHold(k, into) && k.tree[into] == {}
    ensures CanHold(Happens(k, m, into), into)
  {
    var t := Happens(k, m, into);
    if m.Forks? {
      assert t.tree == k.tree;
      forall n | 0 <= n < |into| ensures !ThreadedDomain(t, into[..n]) {
        assert !ThreadedDomain(k, into[..n]);
        assert m.pid in Members(k, into[..n]) || Members(t, into[..n]) <= Members(k, into[..n]);
      }
      hide ThreadedDomain;
    } else {
      HoldStays(k, t, into);
    }
  }

  /** A cgroup is empty afterwards exactly when each process it held was moved or exited,
      and none was born in it and left behind. */
  lemma {:induction false} VacatedIff(k: State, d: Path, ms: seq<Moment>, into: Path)
    requires into != d && CanHold(k, into) && k.tree[into] == {}
    ensures Members(AfterAll(k, ms, into), d) == {} <==> (forall q | q in Members(k, d) :: Departs(q, ms)) && NoneLeftBehind(k, d, ms, into)
    decreases |ms|
  {
    hide CanHold;
    if ms == [] {
      assert forall q | q in Members(k, d) :: !Departs(q, ms);
    } else {
      var t := Happens(k, ms[0], into);
      HappensAt(k, ms[0], d, into);
      HappensKeepsHold(k, ms[0], into);
      VacatedIff(t, d, ms[1..], into);
      assert ms == [ms[0]] + ms[1..];
      assert forall q :: Departs(q, ms) <==> ms[0] == Writes(q) || ms[0] == Exits(q) || Departs(q, ms[1..]);
      hide Members, Happens, Attach;
    }
  }

  /** Nothing is born in a cgroup that holds no process. */
  lemma {:induction false} EmptyStaysEmpty(k: State, d: Path, ms: seq<Moment>, into: Path)
    requires into != d && Members(k, d) == {}
    ensures Members(AfterAll(k, ms, into), d) == {} && NoneLeftBehind(k, d, ms, into)
    decreases |ms|
  {
    if ms != [] {
      var t := Happens(k, ms[0], into);
      NoneNew(k, ms[0], d, into);
      EmptyStaysEmpty(t, d, ms[1..], into);
    }
  }

  lemma NoneNew(k: State, m: Moment, d: Path, into: Path)
    requires into != d
    ensures Members(k, d) == {} ==> Members(Happens(k, m, into), d) == {} && !Born(k, m, d)
  {
    hide CanHold;
    assert Born(k, m, d) ==> m.pid in Members(k, d);
    assert forall q | q in Members(Happens(k, m, into), d) :: q in Members(k, d) || Born(k, m, d);
  }

  function Writing(pids: seq<Pid>): seq<Moment> { seq(|pids|, i requires 0 <= i < |pids| => Writes(pids[i])) }

  /** When nothing but the writes happens, that is moving all the processes at once. */
  lemma {:induction false} QuietVacate(k: State, pids: seq<Pid>, into: Path)
    requires CanHold(k, into) && forall pid | pid in pids :: pid in k.at
    ensures AfterAll(k, Writing(pids), into) == MoveAll(k, (set pid | pid in pids), into)
    decreases |pids|
  {
    if pids == [] {
      assert MoveAll(k, (set pid | pid in pids), into).at == k.at;
    } else {
      var t := Attach(k, pids[0], into);
      HoldStays(k, t, into);
      hide CanHold;
      assert Writing(pids)[1..] == Writing(pids[1..]);
      QuietVacate(t, pids[1..], into);
      assert pids == [pids[0]] + pids[1..];
      assert MoveAll(t, (set pid | pid in pids[1..]), into).at == MoveAll(k, (set pid | pid in pids), into).at;
    }
  }

  /** `ensure`, with all this happening while it vacates the slice. */
  function EnsuredAmid(k: State, root: Path, own: Pid, ours: set<Pid>, ms: seq<Moment>): State {
    Delegated(ParentFreed(AfterAll(Aside(LaidOut(k, root), root, own), ms, System(root)), root, ours), root)
  }

  lemma {:induction false} GatheredAmid(k: State, root: Path, ms: seq<Moment>)
    requires Gathered(k, root)
    ensures Gathered(AfterAll(k, ms, System(root)), root)
    decreases |ms|
  {
    if ms != [] {
      GatheredOneMore(k, root, ms[0]);
      GatheredAmid(Happens(k, ms[0], System(root)), root, ms[1..]);
    }
  }

  lemma GatheredOneMore(k: State, root: Path, m: Moment)
    requires Gathered(k, root)
    ensures Gathered(Happens(k, m, System(root)), root)
  {
    hide Leaf;
    IsSystem(root);
  }

  /** The caller out of the way, a slice that can be repaired is gathered, and what is still
      in the slice itself can be moved. */
  lemma RepairableIsGathered(k: State, root: Path, own: Pid)
    requires WellFormed(k) && root != [] && Repairable(k, root, own)
    ensures var t := Aside(LaidOut(k, root), root, own);
            && Gathered(t, root)
            && (Members(t, root) != {} ==> CanHold(t, System(root)) && t.tree[System(root)] == {})
  {
    hide TreeOk, LaidOut, Aside, Interior, Extends, Leaf, WellFormed, Takes, CanHold, InTheWay;
    var t := Aside(LaidOut(k, root), root, own);
    AsideExtends(k, root, own);
    TreeOkIff(k, t, root, {});
    SystemTakesProcesses(t, root);
    AsideMoves(k, root, own);
    LeafFacts(root);
    assert t.at.Keys == k.at.Keys;
    forall pid | pid in t.at && root <= t.at[pid] ensures Leaf(root, t.at[pid]) || t.at[pid] == root {
      if root <= k.at[pid] { MovedAside(k, root, own, pid); }
    }
    if pid :| pid in Members(t, root) {
      assert pid in k.at && k.at[pid] == root;
      TakesIff(k, root, pid);
      assert Mendable(k, root, own, pid);
    }
  }

  lemma MovedAside(k: State, root: Path, own: Pid, pid: Pid)
    requires WellFormed(k) && TreeOk(k, root) && root != [] && pid in k.at && root <= k.at[pid] && Mendable(k, root, own, pid)
    ensures Leaf(root, k.at[pid]) || k.at[pid] == root || (Takes(k, root) && pid == own && InTheWay(k, root, own))
  {
    hide Takes, Leaf;
    MendableIff(k, root, own, {}, pid);
    hide WellFormed, TreeOk, Mendable;
  }

  /** If processes fork and exit while the slice is vacated, `ensure` still repairs a
      slice exactly when none that was born in the slice itself is left behind. */
  lemma AmidIff(k: State, root: Path, own: Pid, ours: set<Pid>, ms: seq<Moment>)
    requires WellFormed(k) && root != [] && Repairable(k, root, own)
    requires forall pid | pid in Members(Aside(LaidOut(k, root), root, own), root) :: Writes(pid) in ms
    ensures SliceOk(EnsuredAmid(k, root, own, ours, ms), root) <==>
            NoneLeftBehind(Aside(LaidOut(k, root), root, own), root, ms, System(root))
  {
    hide SliceOk, Gathered, Repairable, LaidOut, Aside, Extends, Members, TreeOk, NoneLeftBehind, WellFormed, CanHold;
    var k2 := Aside(LaidOut(k, root), root, own);
    RepairableIsGathered(k, root, own);
    assert System(root) != root;
    if Members(k2, root) == {} {
      EmptyStaysEmpty(k2, root, ms, System(root));
    } else {
      VacatedIff(k2, root, ms, System(root));
    }
    GatheredAmid(k2, root, ms);
    OkIff(AfterAll(k2, ms, System(root)), root);
    RestIff(AfterAll(k2, ms, System(root)), root, ours);
  }

  // What the slice's parent passes down after `ensure`

  /** The processes `ensure` leaves in the slice's parent. */
  function Staying(k: State, root: Path, ours: set<Pid>): set<Pid>
    requires root != []
  {
    Members(k, Parent(root)) - (if Takes(k, root) then ours else {})
  }

  /** Whether there are processes below the parent once those that can be are moved. */
  predicate Peopled(k: State, root: Path, ours: set<Pid>)
    requires root != []
  {
    Inhabited(k, Parent(root)) || (Takes(k, root) && Members(k, Parent(root)) * ours != {})
  }

  /** A controller the parent passes down: it does already; or it is available there and
      allowed, because nobody stays in the parent, or it is a threaded one and nobody is
      below. */
  predicate Obtainable(k: State, root: Path, ours: set<Pid>, c: Controller)
    requires root != [] && Parent(root) in k.tree
  {
    var parent := Parent(root);
    || c in k.tree[parent]
    || (&& c in Available(k, parent) && !Invalid(k, parent)
        && (parent == [] || Staying(k, root, ours) == {} || (c !in DOMAIN && !Peopled(k, root, ours))))
  }

  lemma EnableAllHas(k: State, d: Path, c: Controller)
    requires d in k.tree
    ensures var t := EnableAll(k, d);
            t.at == k.at && d in t.tree && (c in t.tree[d] <==> c in k.tree[d] || MayEnable(k, d, c))
  {
    hide Available, Members, Inhabited, Invalid;
  }

  /** Who is where after `ensure`, from the slice's parent upwards. */
  lemma AfterwardsAbove(k: State, root: Path, own: Pid, ours: set<Pid>)
    requires root != [] && own in ours
    ensures var t := Ensured(k, root, own, ours);
            && Members(t, Parent(root)) == Staying(k, root, ours)
            && (Inhabited(t, Parent(root)) <==> Peopled(k, root, ours))
            && forall n | 0 <= n < |Parent(root)| :: Members(t, Parent(root)[..n]) == Members(k, Parent(root)[..n])
  {
    hide Ensured, Takes;
    EnsuredMoves(k, root, own, ours);
    var t, p := Ensured(k, root, own, ours), Parent(root);
    assert t.at.Keys == k.at.Keys;
    assert p < root && p < System(root) && root <= System(root);
    forall n | 0 <= n < |p| ensures Members(t, p[..n]) == Members(k, p[..n]) {
      assert |p[..n]| == n < |p|;
      NotAbove(root, p[..n]);
    }
    NotAbove(root, p);
    forall pid | pid in k.at ensures p < k.at[pid] ==> p < t.at[pid] {}
    if pid :| pid in k.at && p < t.at[pid] && !(p < k.at[pid]) { assert pid in Members(k, p) * ours; }
    if Takes(k, root) && Members(k, p) * ours != {} {
      var pid :| pid in Members(k, p) * ours;
      assert p < t.at[pid];
    }
  }

  lemma NotAbove(root: Path, p: Path)
    requires |p| < |root|
    ensures !(root <= p) && p != root && p != System(root) && !(System(root) <= p)
  {
  }

  lemma InvalidSame(k: State, t: State, d: Path)
    requires Extends(k, t, {}) && forall n | 0 <= n < |d| :: Members(t, d[..n]) == Members(k, d[..n])
    ensures Invalid(t, d) <==> Invalid(k, d)
  {
    hide Members;
    assert forall n | 0 <= n < |d| :: ThreadedDomain(t, d[..n]) <==> ThreadedDomain(k, d[..n]);
    hide ThreadedDomain, Extends;
  }

  /** Before the writes to it, the slice's parent is as `ensure` found or made it, but for
      those who moved. */
  lemma ParentBefore(k: State, root: Path, own: Pid, ours: set<Pid>)
    requires root != []
    ensures var found, p := Mkdirs(k, root), Parent(root);
            var k3 := Emptied(Aside(LaidOut(k, root), root, own), root);
            var k4 := Vacate(k3, Members(k3, p) * ours, System(root));
            && p in found.tree && p in k4.tree && k4.tree[p] == found.tree[p] && Available(k4, p) == Available(found, p)
            && Extends(found, k4, {}) && Ensured(k, root, own, ours) == Delegated(EnableAll(k4, p), root)
  {
    hide Members, Available, EnableAll, Delegated, Extends, LaidOut, Aside, Mkdirs, Vacate;
    var found, p := Mkdirs(k, root), Parent(root);
    AsideExtends(k, root, own);
    var k2 := Aside(LaidOut(k, root), root, own);
    EachExtends(k2, System(root), Members(k2, root));
    var k3 := Emptied(k2, root);
    EachExtends(k3, System(root), Members(k3, p) * ours);
    var k4 := Vacate(k3, Members(k3, p) * ours, System(root));
    assert Ensured(k, root, own, ours) == Delegated(EnableAll(k4, p), root);
    hide Emptied, ParentFreed, Ensured;
    ExtendsOn(found, k2, k3, {}, {});
    ExtendsOn(found, k3, k4, {} + {}, {});
    NoneOfNone();
    MkdirsHas(k, root);
    AvailableSame(found, k4, p);
  }

  /** After `ensure` the slice's parent, which `ensure` makes if need be, passes down
      exactly what it can. */
  lemma EnsureDelegates(k: State, root: Path, own: Pid, ours: set<Pid>)
    requires WellFormed(k) && root != [] && own in ours
    ensures var t, found := Ensured(k, root, own, ours), Mkdirs(k, root);
            && Parent(root) in t.tree && Parent(root) in found.tree
            && forall c :: c in t.tree[Parent(root)] <==> Obtainable(found, root, ours, c)
  {
    hide *;
    var t, found, p := Ensured(k, root, own, ours), Mkdirs(k, root), Parent(root);
    var k3 := Emptied(Aside(LaidOut(k, root), root, own), root);
    var k4 := Vacate(k3, Members(k3, p) * ours, System(root));
    ParentBefore(k, root, own, ours);
    MkdirsKeeps(k, root);
    EnableAllHas(k4, p, Cpu);
    DelegatedKeeps(EnableAll(k4, p), root);
    SamePlaces(t, k4);
    AfterwardsAbove(k, root, own, ours);
    FoundSame(k, root, ours);
    InvalidSame(found, k4, p);
    forall c ensures c in EnableAll(k4, p).tree[p] <==> Obtainable(found, root, ours, c) {
      EnableAllHas(k4, p, c);
      ParentMayEnable(found, k4, root, ours, c);
    }
  }

  lemma FoundSame(k: State, root: Path, ours: set<Pid>)
    requires root != []
    ensures var found := Mkdirs(k, root);
            && Staying(found, root, ours) == Staying(k, root, ours) && (Peopled(found, root, ours) <==> Peopled(k, root, ours))
            && (Takes(found, root) <==> Takes(k, root))
            && forall d :: Members(found, d) == Members(k, d)
  {
    var found := Mkdirs(k, root);
    SamePlaces(k, found);
    assert Mkdirs(found, root).tree == found.tree;
    hide Mkdirs, Members, Inhabited, CanHold;
  }

  lemma ParentMayEnable(found: State, k: State, root: Path, ours: set<Pid>, c: Controller)
    requires WellFormed(found) && root != [] && Parent(root) in found.tree
    requires var p := Parent(root);
             && p in k.tree && k.tree[p] == found.tree[p] && Available(k, p) == Available(found, p)
             && (Invalid(k, p) <==> Invalid(found, p))
             && Members(k, p) == Staying(found, root, ours) && (Inhabited(k, p) <==> Peopled(found, root, ours))
    ensures c in k.tree[Parent(root)] || MayEnable(k, Parent(root), c) <==> Obtainable(found, root, ours, c)
  {
    hide Available, Invalid, Inhabited, Peopled, Takes;
    var p := Parent(root);
    assert Staying(found, root, ours) <= Members(found, p);
    if p != [] && Staying(found, root, ours) != {} && found.tree[p] != {} {
      assert Members(found, p) != {};
      assert found.tree[p] * DOMAIN == {};
    }
    hide WellFormed, Members, Staying;
  }

  lemma FreedHasRoot(k: State, root: Path, own: Pid, ours: set<Pid>)
    requires root != []
    ensures root in ParentFreed(Emptied(Aside(LaidOut(k, root), root, own), root), root, ours).tree
  {
    hide Mkdirs, Vacate, EnableAll, Members, Aside, LaidOut;
    var k2 := Aside(LaidOut(k, root), root, own);
    AsideExtends(k, root, own);
    MkdirsMakes(k, root);
    EachExtends(k2, System(root), Members(k2, root));
    var k3 := Emptied(k2, root);
    EachExtends(k3, System(root), Members(k3, Parent(root)) * ours);
    EachExtends(Vacate(k3, Members(k3, Parent(root)) * ours, System(root)), Parent(root), {});
  }

  lemma MkdirsMakes(k: State, d: Path)
    ensures d in Mkdirs(k, d).tree
  {
  }

  lemma AvailableSame(k: State, t: State, d: Path)
    requires Extends(k, t, {}) && d in k.tree && (d != [] ==> Parent(d) in k.tree)
    ensures d in t.tree && t.tree[d] == k.tree[d] && Available(t, d) == Available(k, d)
  {
  }

  lemma MkdirsHas(k: State, root: Path)
    requires root != []
    ensures var found := Mkdirs(k, root); Parent(root) in found.tree && (Parent(root) != [] ==> Parent(Parent(root)) in found.tree)
    ensures forall d :: Members(Mkdirs(k, root), d) == Members(k, d)
  {
  }

  lemma DelegatedKeeps(k: State, root: Path)
    requires root != [] && Parent(root) in k.tree
    ensures var t := Delegated(k, root); t.at == k.at && Parent(root) in t.tree && t.tree[Parent(root)] == k.tree[Parent(root)]
  {
    assert Parent(root) != root && Parent(root) != Tenants(root);
  }

  lemma NoneOfNone()
    ensures var none: set<Path> := {}; none + none + none == none
  {
  }

  lemma SameMembers(k: State, t: State, d: Path)
    requires k.at == t.at
    ensures Members(k, d) == Members(t, d)
  {
  }

  lemma PassesWithin(k: State, p: Path)
    requires WellFormed(k) && p in k.tree
    ensures k.tree[p] <= Available(k, p)
  {
  }

  lemma RestIsEmpty<T>(all: set<T>, ours: set<T>)
    ensures all - ours == {} <==> all <= ours
  {
    if x :| x in all && x !in ours { assert x in all - ours; }
  }
}
