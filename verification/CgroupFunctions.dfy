/** `create_function` and what is created below a function (`cgroup.rs`): when its limit
    files are there, from a slice as Zygo leaves it and from one as it is found.
 */
module CgroupFunctions {

  import opened CgroupKernel
  import opened CgroupSlice
  import opened CgroupEnsure

  // --- create_function --------------------------------------------------------

  function Descend(k: State, d: Path): State { EnableAll(Mkdirs(k, d), d) }

  function FunctionMade(k: State, root: Path, tenant: string, name: string): State {
    var top := EnableAll(EnableAll(Mkdirs(k, Tenants(root)), root), Tenants(root));
    Descend(Descend(top, Tenant(root, tenant)), Function(root, tenant, name))
  }

  /** What the slice is given. */
  function Given(k: State, root: Path): set<Controller>
    requires root != []
  {
    if Parent(root) in k.tree then k.tree[Parent(root)] else {}
  }

  /** One level: the controllers of the level above are passed on in full. */
  lemma DescendPasses(k: State, root: Path, d: Path)
    requires WellFormed(k) && SliceOk(k, root) && !Invalid(k, root) && Interior(root, d) && root <= d && d != [] && Parent(d) in k.tree
    ensures var t := Descend(k, d);
            && WellFormed(t) && SliceOk(t, root) && !Invalid(t, root) && t.at == k.at
            && d in t.tree && t.tree[d] == k.tree[Parent(d)]
            && forall p | p in k.tree && p != d :: p in t.tree && t.tree[p] == k.tree[p]
  {
    MkdirsKeeps(k, d);
    MkdirsKeepsSlice(k, root, d);
    MkdirsThreads(k, d);
    EnableAllKeeps(Mkdirs(k, d), d);
    EnableAllKeepsSlice(Mkdirs(k, d), root, d);
    EnableAbove(Mkdirs(k, d), d, root);
    InteriorPassesAll(Mkdirs(k, d), root, d);
    assert Available(Mkdirs(k, d), d) == k.tree[Parent(d)];
    hide WellFormed, SliceOk, Members, Interior, Invalid, MayEnable;
  }

  lemma TopPasses(k: State, root: Path)
    requires WellFormed(k) && SliceOk(k, root) && !Invalid(k, root) && root != []
    ensures var t := EnableAll(EnableAll(Mkdirs(k, Tenants(root)), root), Tenants(root));
            && WellFormed(t) && SliceOk(t, root) && !Invalid(t, root) && t.at == k.at
            && root in t.tree && t.tree[root] == Given(k, root)
            && Tenants(root) in t.tree && t.tree[Tenants(root)] == Given(k, root)
            && Parent(root) in t.tree && t.tree[Parent(root)] == Given(k, root)
  {
    hide Invalid, MayEnable;
    var k1 := Mkdirs(k, Tenants(root));
    MkdirsKeeps(k, Tenants(root));
    MkdirsKeepsSlice(k, root, Tenants(root));
    MkdirsThreads(k, Tenants(root));
    AboveExists(k1, Tenants(root), root);
    AboveExists(k1, Tenants(root), Parent(root));
    EnableAllKeeps(k1, root);
    EnableAllKeepsSlice(k1, root, root);
    EnableAbove(k1, root, root);
    InteriorPassesAll(k1, root, root);
    var k2 := EnableAll(k1, root);
    assert Parent(Tenants(root)) == root && Parent(root) != root && Parent(root) != Tenants(root);
    EnableAllKeeps(k2, Tenants(root));
    EnableAllKeepsSlice(k2, root, Tenants(root));
    EnableAbove(k2, Tenants(root), root);
    InteriorPassesAll(k2, root, Tenants(root));
    hide WellFormed, SliceOk, Members, Interior;
  }

  /** Every cgroup down to the function gets exactly what the slice is given, when the
      slice is not invalid. */
  lemma FunctionGetsAll(k: State, root: Path, tenant: string, name: string)
    requires WellFormed(k) && SliceOk(k, root) && !Invalid(k, root) && root != []
    ensures var t := FunctionMade(k, root, tenant, name);
            && t.at == k.at
            && Function(root, tenant, name) in t.tree
            && t.tree[Function(root, tenant, name)] == Available(t, Function(root, tenant, name)) == Given(k, root)
            && Parent(root) in t.tree && t.tree[Parent(root)] == Given(k, root)
  {
    hide WellFormed, SliceOk, Invalid;
    TopPasses(k, root);
    var top := EnableAll(EnableAll(Mkdirs(k, Tenants(root)), root), Tenants(root));
    var d, e := Tenant(root, tenant), Function(root, tenant, name);
    assert Parent(d) == Tenants(root) && Parent(e) == d && d != e;
    assert |d| == |root| + 2 && |e| == |root| + 3 && root <= d && root <= e;
    hide Sanitise, Mkdirs, EnableAll;
    DescendPasses(top, root, d);
    DescendPasses(Descend(top, d), root, e);
  }

  lemma DescendKeeps(k: State, root: Path, d: Path)
    requires WellFormed(k) && SliceOk(k, root) && (root <= d ==> Interior(root, d))
    ensures WellFormed(Descend(k, d)) && SliceOk(Descend(k, d), root)
  {
    hide WellFormed, SliceOk;
    MkdirsKeeps(k, d);
    MkdirsKeepsSlice(k, root, d);
    EnableAllKeeps(Mkdirs(k, d), d);
    EnableAllKeepsSlice(Mkdirs(k, d), root, d);
  }

  lemma FunctionMadeKeeps(k: State, root: Path, tenant: string, name: string)
    requires WellFormed(k) && SliceOk(k, root)
    ensures WellFormed(FunctionMade(k, root, tenant, name)) && SliceOk(FunctionMade(k, root, tenant, name), root)
  {
    var d, e := Tenant(root, tenant), Function(root, tenant, name);
    assert |d| == |root| + 2 && |e| == |root| + 3 && Interior(root, d) && Interior(root, e) && Interior(root, Tenants(root));
    hide WellFormed, SliceOk, Interior, EnableAll, Mkdirs, Descend, Sanitise;
    var k1 := Mkdirs(k, Tenants(root));
    MkdirsKeeps(k, Tenants(root));
    MkdirsKeepsSlice(k, root, Tenants(root));
    EnableAllKeeps(k1, root);
    assert Interior(root, root) by { InteriorItself(root); }
    EnableAllKeepsSlice(k1, root, root);
    EnableAllKeeps(EnableAll(k1, root), Tenants(root));
    EnableAllKeepsSlice(EnableAll(k1, root), root, Tenants(root));
    var top := EnableAll(EnableAll(k1, root), Tenants(root));
    DescendKeeps(top, root, d);
    DescendKeeps(Descend(top, d), root, e);
  }

  lemma InteriorItself(root: Path)
    ensures Interior(root, root)
  {
  }

  /** `create_function` succeeds exactly when the slice's parent passes the required
      controllers down, and then they are enabled at every level down to the function. */
  lemma FunctionMadeIff(k: State, root: Path, tenant: string, name: string)
    requires WellFormed(k) && SliceOk(k, root) && root != []
    ensures var t, d := FunctionMade(k, root, tenant, name), Function(root, tenant, name);
            && (REQUIRED <= Available(t, d) <==> REQUIRED <= Given(k, root))
            && (REQUIRED <= Available(t, d) ==> forall p | p <= d :: p in t.tree && REQUIRED <= t.tree[p])
  {
    var t, d := FunctionMade(k, root, tenant, name), Function(root, tenant, name);
    FunctionMadeAnywhereIff(k, root, tenant, name);
    NoneAtLevels(k, root, tenant);
    if REQUIRED <= Given(k, root) {
      GivenValid(k, root);
      FunctionGetsAll(k, root, tenant, name);
      FunctionMadeKeeps(k, root, tenant, name);
      hide FunctionMade, Sanitise, SliceOk, Given;
      forall p | p <= d ensures p in t.tree && t.tree[d] <= t.tree[p] { TopDown(t, d, p); }
    }
  }

  lemma NoneAtLevels(k: State, root: Path, tenant: string)
    requires SliceOk(k, root)
    ensures Members(k, root) == {} && Members(k, Tenants(root)) == {} && Members(k, Tenant(root, tenant)) == {}
  {
    assert Tenants(root) <= Tenant(root, tenant) && |Tenant(root, tenant)| == |root| + 2;
    LeavesAreNotInterior(root, root);
    LeavesAreNotInterior(root, Tenants(root));
    LeavesAreNotInterior(root, Tenant(root, tenant));
    hide Leaf;
  }

  lemma GivenValid(k: State, root: Path)
    requires WellFormed(k) && root != [] && Memory in Given(k, root)
    ensures !Invalid(k, root)
  {
    var t := Mkdirs(k, root);
    MkdirsKeeps(k, root);
    MkdirsThreads(k, root);
    assert Available(t, root) == Given(k, root);
    hide WellFormed;
    GivenIsValid(t, root, Memory);
  }

  // From the slice as it is found

  /** One level: below the top a cgroup passes on the required controllers exactly when
      it is given them and holds no process. */
  lemma LevelIff(k: State, d: Path)
    requires WellFormed(k) && d != [] && d in k.tree
    ensures var t := EnableAll(k, d);
            && WellFormed(t) && t.at == k.at && d in t.tree
            && (REQUIRED <= t.tree[d] <==> REQUIRED <= Available(k, d) && Members(k, d) == {})
            && forall p | p in k.tree && p != d :: p in t.tree && t.tree[p] == k.tree[p]
  {
    EnableAllKeeps(k, d);
    PassesWithin(k, d);
    if REQUIRED <= Available(k, d) { GivenIsValid(k, d, Memory); }
    hide Available, Invalid, Inhabited;
    if Memory in k.tree[d] {
      assert Memory in k.tree[d] * DOMAIN;
      DomainHoldsNone(k, d);
    }
    hide WellFormed, Members;
  }

  lemma MkdirsAdds(k: State, d: Path)
    requires WellFormed(k) && d != [] && Parent(d) in k.tree
    ensures var t := Mkdirs(k, d);
            && WellFormed(t) && t.at == k.at && d in t.tree && Available(t, d) == k.tree[Parent(d)]
            && forall p | p in k.tree :: p in t.tree && t.tree[p] == k.tree[p]
  {
    MkdirsKeeps(k, d);
    hide WellFormed;
  }

  lemma DescendIff(k: State, d: Path)
    requires WellFormed(k) && d != [] && Parent(d) in k.tree
    ensures var t := Descend(k, d);
            && WellFormed(t) && t.at == k.at && d in t.tree && Parent(d) in t.tree
            && t.tree[Parent(d)] == k.tree[Parent(d)] && Available(t, d) == k.tree[Parent(d)]
            && (REQUIRED <= t.tree[d] <==> REQUIRED <= k.tree[Parent(d)] && Members(k, d) == {})
  {
    hide WellFormed, Mkdirs, EnableAll, Members;
    MkdirsAdds(k, d);
    LevelIff(Mkdirs(k, d), d);
    SameMembers(k, Mkdirs(k, d), d);
    assert Parent(d) != d;
  }

  lemma TopIff(k: State, root: Path)
    requires WellFormed(k) && root != []
    ensures var t := EnableAll(EnableAll(Mkdirs(k, Tenants(root)), root), Tenants(root));
            && WellFormed(t) && t.at == k.at && Tenants(root) in t.tree
            && (REQUIRED <= t.tree[Tenants(root)] <==>
                REQUIRED <= Given(k, root) && Members(k, root) == {} && Members(k, Tenants(root)) == {})
  {
    hide WellFormed, Mkdirs, EnableAll, Members, Available;
    var k1 := Mkdirs(k, Tenants(root));
    MkdirsTop(k, root);
    LevelIff(k1, root);
    var k2 := EnableAll(k1, root);
    AvailableBelow(k2, root);
    LevelIff(k2, Tenants(root));
    SameMembers(k, k1, root);
    SameMembers(k, k2, Tenants(root));
  }

  lemma AvailableBelow(k: State, root: Path)
    requires root in k.tree && Tenants(root) in k.tree
    ensures Available(k, Tenants(root)) == k.tree[root] && Tenants(root) != root
  {
    assert Parent(Tenants(root)) == root;
  }

  lemma MkdirsTop(k: State, root: Path)
    requires WellFormed(k) && root != []
    ensures var t := Mkdirs(k, Tenants(root));
            && WellFormed(t) && t.at == k.at && root in t.tree && Tenants(root) in t.tree && Available(t, root) == Given(k, root)
  {
    MkdirsKeeps(k, Tenants(root));
    AboveExists(Mkdirs(k, Tenants(root)), Tenants(root), root);
    AboveExists(Mkdirs(k, Tenants(root)), Tenants(root), Parent(root));
    hide WellFormed;
  }

  /** In any state, `create_function` finds its limit files exactly when the slice is
      given the required controllers and no level above the function holds a process. */
  lemma FunctionMadeAnywhereIff(k: State, root: Path, tenant: string, name: string)
    requires WellFormed(k) && root != []
    ensures REQUIRED <= Available(FunctionMade(k, root, tenant, name), Function(root, tenant, name)) <==>
            && REQUIRED <= Given(k, root)
            && Members(k, root) == {} && Members(k, Tenants(root)) == {} && Members(k, Tenant(root, tenant)) == {}
  {
    hide WellFormed, Mkdirs, EnableAll, Members, Available, Sanitise, Given, Descend;
    TopIff(k, root);
    var top := EnableAll(EnableAll(Mkdirs(k, Tenants(root)), root), Tenants(root));
    var d, e := Tenant(root, tenant), Function(root, tenant, name);
    assert Parent(d) == Tenants(root) && Parent(e) == d;
    hide Tenant, Tenants, Function;
    DescendIff(top, d);
    SameMembers(k, top, d);
    DescendIff(Descend(top, d), e);
  }

  /** None is in `d` but the caller, and the caller can step aside. */
  predicate Clears(k: State, root: Path, own: Pid, d: Path) {
    forall pid | pid in Members(k, d) :: pid == own && Takes(k, root)
  }

  lemma ClearedIff(k: State, root: Path, own: Pid, ours: set<Pid>, d: Path)
    requires root != [] && Tenants(root) <= d
    ensures Members(Ensured(k, root, own, ours), d) == {} <==> Clears(k, root, own, d)
  {
    hide Ensured, Takes;
    EnsuredMoves(k, root, own, ours);
    assert System(root)[|root|] == "system" && Tenants(root)[|root|] == "tenants" && d[|root|] == "tenants";
    assert root <= d && d != root && d != Parent(root) && !(System(root) <= d) && d != System(root);
    hide System, Tenants, Parent;
    var t := Ensured(k, root, own, ours);
    assert forall pid :: pid in Members(t, d) <==> pid in Members(k, d) && !(pid == own && Takes(k, root));
  }

  /** `ensure` empties the slice itself exactly when `system` takes its processes. */
  lemma RootClearedIff(k: State, root: Path, own: Pid, ours: set<Pid>)
    requires root != []
    ensures Members(Ensured(k, root, own, ours), root) == {} <==> Members(k, root) == {} || Takes(k, root)
  {
    hide Ensured, Takes;
    EnsuredMoves(k, root, own, ours);
    var t := Ensured(k, root, own, ours);
    assert System(root) != root && Parent(root) != root;
    hide System, Parent;
    assert forall pid :: pid in Members(t, root) <==> pid in Members(k, root) && !Takes(k, root);
  }

  /** From any state the slice is found in: after `ensure` a function can be created
      exactly when the slice's parent has the required controllers, no process stays in it
      unless it is the top, the slice itself is or can be emptied, and no process is at the
      tenants' level or in the tenant but a caller that can step aside. */
  lemma FirstFunctionIff(k: State, root: Path, own: Pid, ours: set<Pid>, tenant: string, name: string)
    requires WellFormed(k) && root != [] && own in ours
    ensures var t := FunctionMade(Ensured(k, root, own, ours), root, tenant, name);
            REQUIRED <= Available(t, Function(root, tenant, name)) <==>
            && REQUIRED <= Available(Mkdirs(k, root), Parent(root))
            && (Parent(root) == [] || Staying(k, root, ours) == {})
            && (Members(k, root) == {} || Takes(k, root))
            && Clears(k, root, own, Tenants(root)) && Clears(k, root, own, Tenant(root, tenant))
  {
    hide Sanitise, FunctionMade, Available, Members, Ensured, WellFormed, Obtainable, Clears, Mkdirs, Takes, Staying;
    EnsuredIsWellFormed(k, root, own, ours);
    EnsureDelegates(k, root, own, ours);
    RequiredIff(k, root, ours);
    RootClearedIff(k, root, own, ours);
    ClearedIff(k, root, own, ours, Tenants(root));
    ClearedIff(k, root, own, ours, Tenant(root, tenant));
    FunctionMadeAnywhereIff(Ensured(k, root, own, ours), root, tenant, name);
    var given := Given(Ensured(k, root, own, ours), root);
    assert REQUIRED <= given <==> forall c | c in REQUIRED :: Obtainable(Mkdirs(k, root), root, ours, c);
  }

  lemma RequiredIff(k: State, root: Path, ours: set<Pid>)
    requires WellFormed(k) && root != [] && Parent(root) in Mkdirs(k, root).tree
    ensures (forall c | c in REQUIRED :: Obtainable(Mkdirs(k, root), root, ours, c)) <==>
            REQUIRED <= Available(Mkdirs(k, root), Parent(root)) && (Parent(root) == [] || Staying(k, root, ours) == {})
  {
    hide WellFormed, Available, Mkdirs, Takes, Invalid, Peopled, Inhabited, Members, Obtainable, Staying;
    MkdirsKeeps(k, root);
    FoundSame(k, root, ours);
    ObtainsMemory(Mkdirs(k, root), root, ours);
    ObtainsThreaded(Mkdirs(k, root), root, ours, Pids);
    ObtainsThreaded(Mkdirs(k, root), root, ours, Cpu);
    assert (forall c | c in REQUIRED :: Obtainable(Mkdirs(k, root), root, ours, c)) <==>
      Obtainable(Mkdirs(k, root), root, ours, Memory) && Obtainable(Mkdirs(k, root), root, ours, Pids) &&
      Obtainable(Mkdirs(k, root), root, ours, Cpu);
  }

  /** Memory is obtained where it is available and the parent, if not the top, is emptied. */
  lemma ObtainsMemory(k: State, root: Path, ours: set<Pid>)
    requires WellFormed(k) && root != [] && Parent(root) in k.tree
    ensures var p := Parent(root);
            Obtainable(k, root, ours, Memory) <==> Memory in Available(k, p) && (p == [] || Staying(k, root, ours) == {})
  {
    var p := Parent(root);
    PassesWithin(k, p);
    hide Available, Takes, Peopled;
    if Memory in Available(k, p) { GivenIsValid(k, p, Memory); }
    if p != [] && Memory in k.tree[p] {
      assert Memory in k.tree[p] * DOMAIN;
      DomainHoldsNone(k, p);
      assert Staying(k, root, ours) <= Members(k, p);
    }
    hide WellFormed, Members, Invalid;
  }

  /** And then so is what else is available. */
  lemma ObtainsThreaded(k: State, root: Path, ours: set<Pid>, c: Controller)
    requires WellFormed(k) && root != [] && Parent(root) in k.tree
    ensures var p := Parent(root);
            && (Obtainable(k, root, ours, c) ==> c in Available(k, p))
            && (c in Available(k, p) && Obtainable(k, root, ours, Memory) && (p == [] || Staying(k, root, ours) == {}) ==>
                Obtainable(k, root, ours, c))
  {
    var p := Parent(root);
    PassesWithin(k, p);
    hide Available, Takes, Peopled;
    if Obtainable(k, root, ours, Memory) {
      assert Memory in Available(k, p);
      GivenIsValid(k, p, Memory);
    }
    hide WellFormed, Members, Invalid;
  }

  /** A process that was found in `tenants` stays there; and `tenants` then passes on what it
      did before, and, as long as nobody is below it, every threaded controller the slice
      passes on. */
  lemma StrayKept(k: State, root: Path, own: Pid, ours: set<Pid>, pid: Pid)
    requires WellFormed(k) && root != [] && own in ours && own != pid && pid in Members(k, Tenants(root))
    ensures var t, d := Ensured(k, root, own, ours), Tenants(root);
            && pid in Members(t, d) && d in k.tree && d in t.tree && root in t.tree
            && forall c :: c in t.tree[d] <==> c in k.tree[d] || (c in t.tree[root] && c !in DOMAIN && !Inhabited(t, d))
  {
    var t, d := Ensured(k, root, own, ours), Tenants(root);
    EnsuredMoves(k, root, own, ours);
    assert d != root && d != Parent(root);
    hide Ensured, Takes, Mkdirs, Inhabited, Invalid;
    assert pid in Members(t, d);
    EnsuredIsWellFormed(k, root, own, ours);
    TenantsPass(k, root, own, ours, pid);
  }

  /** A cgroup that holds a process passes on what it did, and threaded controllers while
      nobody is below it. */
  lemma HolderPasses(k: State, d: Path, pid: Pid, c: Controller)
    requires WellFormed(k) && d != [] && d in k.tree && pid in Members(k, d)
    ensures c in EnableAll(k, d).tree[d] <==> c in k.tree[d] || (c in Available(k, d) && c !in DOMAIN && !Inhabited(k, d))
  {
    NoneAbove(k, pid, d);
    EnableAllHas(k, d, c);
    if k.tree[d] == {} { assert k.tree[d] * DOMAIN == {}; }
    hide Available, Inhabited, Invalid, EnableAll;
  }

  lemma TenantsPass(k: State, root: Path, own: Pid, ours: set<Pid>, pid: Pid)
    requires WellFormed(k) && root != [] && pid in Members(k, Tenants(root)) && pid in Members(Ensured(k, root, own, ours), Tenants(root))
    ensures var t, d := Ensured(k, root, own, ours), Tenants(root);
            && d in k.tree && d in t.tree && root in t.tree
            && forall c :: c in t.tree[d] <==> c in k.tree[d] || (c in t.tree[root] && c !in DOMAIN && !Inhabited(t, d))
  {
    hide Available, Mkdirs, EnableAll, Emptied, Aside, LaidOut, Vacate, Inhabited, Extends, MayEnable, ParentFreed;
    var d := Tenants(root);
    var k5 := ParentFreed(Emptied(Aside(LaidOut(k, root), root, own), root), root, ours);
    FreedIsWellFormed(k, root, own, ours);
    FreedHasRoot(k, root, own, ours);
    FreedExtends(k, root, own, ours);
    TenantsSame(k, k5, root);
    DelegatedTenants(k5, root, pid);
    hide WellFormed, Delegated;
    assert Ensured(k, root, own, ours) == Delegated(k5, root);
  }

  lemma FreedExtends(k: State, root: Path, own: Pid, ours: set<Pid>)
    requires root != []
    ensures Extends(k, ParentFreed(Emptied(Aside(LaidOut(k, root), root, own), root), root, ours), {Parent(root)})
  {
    hide Extends, LaidOut, Aside, Vacate, Members, EnableAll, Mkdirs;
    AsideExtends(k, root, own);
    var k2 := Aside(LaidOut(k, root), root, own);
    EachExtends(k2, System(root), Members(k2, root));
    var k3 := Emptied(k2, root);
    ExtendsOn(k, k2, k3, {}, {});
    FreeingExtends(k3, root, ours);
    hide Emptied, Aside, LaidOut, ParentFreed, Parent;
    ExtendsOn(k, k3, ParentFreed(k3, root, ours), {} + {}, {Parent(root)});
    assert {} + {} + {Parent(root)} == {Parent(root)};
  }

  lemma FreeingExtends(k: State, root: Path, ours: set<Pid>)
    requires root != []
    ensures Extends(k, ParentFreed(k, root, ours), {Parent(root)})
  {
    hide Extends, Vacate, Members, EnableAll;
    var pids := Members(k, Parent(root)) * ours;
    EachExtends(k, System(root), pids);
    EachExtends(Vacate(k, pids, System(root)), Parent(root), {});
    ExtendsOn(k, Vacate(k, pids, System(root)), ParentFreed(k, root, ours), {}, {Parent(root)});
    assert {} + {Parent(root)} == {Parent(root)};
  }

  lemma TenantsSame(k: State, t: State, root: Path)
    requires WellFormed(k) && root != [] && Members(k, Tenants(root)) != {} && Extends(k, t, {Parent(root)})
    ensures Tenants(root) in k.tree && Tenants(root) in t.tree && t.tree[Tenants(root)] == k.tree[Tenants(root)]
  {
    assert Tenants(root) != Parent(root);
  }

  lemma DelegatedTenants(k: State, root: Path, pid: Pid)
    requires WellFormed(k) && root != [] && root in k.tree && Tenants(root) in k.tree && pid in Members(Delegated(k, root), Tenants(root))
    ensures var t, d := Delegated(k, root), Tenants(root);
            && d in t.tree && root in t.tree
            && forall c :: c in t.tree[d] <==> c in k.tree[d] || (c in t.tree[root] && c !in DOMAIN && !Inhabited(t, d))
  {
    hide Mkdirs, EnableAll, Inhabited, Members;
    var d := Tenants(root);
    var k1 := EnableAll(k, root);
    EnableAllKeeps(k, root);
    EnableAllHas(k, root, Cpu);
    EnableAllElse(k, root, d);
    var k2 := Mkdirs(k1, d);
    assert Parent(d) == root && d != root;
    MkdirsAdds(k1, d);
    EnableAllHas(k2, d, Cpu);
    EnableAllElse(k2, d, root);
    SamePlaces(Delegated(k, root), k2);
    forall c ensures c in EnableAll(k2, d).tree[d] <==> c in k2.tree[d] || (c in Available(k2, d) && c !in DOMAIN && !Inhabited(k2, d)) {
      HolderPasses(k2, d, pid, c);
    }
    hide WellFormed;
  }

  lemma EnableAllElse(k: State, d: Path, p: Path)
    requires p != d && p in k.tree
    ensures p in EnableAll(k, d).tree && EnableAll(k, d).tree[p] == k.tree[p]
  {
  }

  function StraySlice(own: Pid, pid: Pid): State {
    State({Cpu}, map[[] := {}, ["zygo.slice"] := {}, ["zygo.slice", "tenants"] := {}], map[own := [], pid := ["zygo.slice", "tenants"]])
  }

  /** One such slice: `tenants` is found with a process in it, below a host with cpu only. */
  lemma FoundWithAProcessInTenants(root: Path, own: Pid, pid: Pid)
    requires root == ["zygo.slice"] && own != pid
    ensures var k := StraySlice(own, pid);
            var t := Ensured(k, root, own, {own});
            && WellFormed(k) && pid in Members(t, Tenants(root))
            && Tenants(root) in t.tree && Cpu in t.tree[Tenants(root)] && !SliceOk(t, root)
  {
    var k := StraySlice(own, pid);
    var t := Ensured(k, root, own, {own});
    StrayIsFine(root, own, pid);
    NoneBelowTenants(k, root, own, pid);
    hide StraySlice, WellFormed, Ensured, Mkdirs, Takes, Inhabited, Available, TreeOk, Leaf, Interior, System, Parent, SliceOk;
    StrayKept(k, root, own, {own}, pid);
    RootPasses(k, root, own, {own}, pid, Cpu);
    StrayIsNotOk(t, root, pid);
  }

  lemma StrayIsNotOk(k: State, root: Path, pid: Pid)
    requires pid in Members(k, Tenants(root))
    ensures !SliceOk(k, root)
  {
    TenantsIsNoLeaf(root);
    hide Leaf, TreeOk;
    assert root <= k.at[pid];
  }

  lemma TenantsIsNoLeaf(root: Path)
    ensures !Leaf(root, Tenants(root)) && !(Tenants(root) <= System(root))
  {
    assert Tenants(root)[|root|] == "tenants" && System(root)[|root|] == "system";
  }

  lemma NoneBelowTenants(k: State, root: Path, own: Pid, pid: Pid)
    requires root != [] && k.at == map[own := [], pid := Tenants(root)]
    ensures !Inhabited(Ensured(k, root, own, {own}), Tenants(root))
  {
    hide Ensured, Takes, InTheWay;
    EnsuredMoves(k, root, own, {own});
    TenantsIsNoLeaf(root);
    var t := Ensured(k, root, own, {own});
    forall q | q in t.at ensures !(Tenants(root) < t.at[q]) { assert q in {own, pid}; }
  }

  lemma StrayIsFine(root: Path, own: Pid, pid: Pid)
    requires root == ["zygo.slice"] && own != pid
    ensures var k := StraySlice(own, pid);
            && WellFormed(k) && Members(k, root) == {} && Parent(root) == [] && Cpu in Available(Mkdirs(k, root), Parent(root))
            && k.at == map[own := [], pid := Tenants(root)] && pid in Members(k, Tenants(root)) && root < Tenants(root)
  {
    assert Parent(root) == [] && Parent(Tenants(root)) == root && Tenants(root) == ["zygo.slice", "tenants"];
  }

  /** Above an inhabited slice that holds no process itself and is below the top, `ensure`
      passes on to it, and it passes on, whatever the top has. */
  lemma RootPasses(k: State, root: Path, own: Pid, ours: set<Pid>, pid: Pid, c: Controller)
    requires WellFormed(k) && root != [] && Parent(root) == [] && own in ours && pid in k.at && root < k.at[pid] && own != pid
    requires Members(k, root) == {} && c in Available(Mkdirs(k, root), Parent(root))
    ensures var t := Ensured(k, root, own, ours); root in t.tree && c in t.tree[root]
  {
    hide Available, Mkdirs, EnableAll, Emptied, Aside, LaidOut, Vacate, Inhabited, Extends, MayEnable, ParentFreed, Members, Invalid, Takes, Ensured;
    var t := Ensured(k, root, own, ours);
    var k5 := ParentFreed(Emptied(Aside(LaidOut(k, root), root, own), root), root, ours);
    FreedIsWellFormed(k, root, own, ours);
    FreedHasRoot(k, root, own, ours);
    EnsureDelegates(k, root, own, ours);
    RootClearedIff(k, root, own, ours);
    StaysBelow(k, root, own, ours, pid);
    assert t == Delegated(k5, root) by { EnsuredIs(k, root, own, ours); }
    FoundTop(k, root, ours, c);
    DelegatedRoot(k5, root, pid, c);
  }

  lemma EnsuredIs(k: State, root: Path, own: Pid, ours: set<Pid>)
    ensures Ensured(k, root, own, ours) == Delegated(ParentFreed(Emptied(Aside(LaidOut(k, root), root, own), root), root, ours), root)
  {
  }

  lemma FoundTop(k: State, root: Path, ours: set<Pid>, c: Controller)
    requires root != [] && Parent(root) == [] && [] in Mkdirs(k, root).tree && c in Available(Mkdirs(k, root), [])
    ensures Obtainable(Mkdirs(k, root), root, ours, c)
  {
    hide Available, Mkdirs, Staying, Peopled;
  }

  lemma StaysBelow(k: State, root: Path, own: Pid, ours: set<Pid>, pid: Pid)
    requires root != [] && pid in k.at && root < k.at[pid] && own != pid
    ensures var t := Ensured(k, root, own, ours); pid in t.at && root <= t.at[pid]
  {
    EnsuredMoves(k, root, own, ours);
    hide Ensured;
  }

  lemma DelegatedRoot(k: State, root: Path, pid: Pid, c: Controller)
    requires WellFormed(k) && root != [] && root in k.tree && Members(Delegated(k, root), root) == {}
    requires pid in Delegated(k, root).at && root <= Delegated(k, root).at[pid]
    requires Parent(root) in Delegated(k, root).tree && c in Delegated(k, root).tree[Parent(root)]
    ensures var t := Delegated(k, root); root in t.tree && c in t.tree[root]
  {
    hide Mkdirs, EnableAll, Invalid;
    ParentExists(k, root);
    DelegatedKeeps(k, root);
    assert Available(k, root) == k.tree[Parent(root)];
    NoneAbove(k, pid, root);
    SamePlaces(Delegated(k, root), k);
    EnableAllHas(k, root, c);
    var k1 := EnableAll(k, root);
    EnableAllKeeps(k, root);
    MkdirsAdds(k1, Tenants(root));
    assert Tenants(root) != root && Parent(Tenants(root)) == root;
    EnableAllElse(Mkdirs(k1, Tenants(root)), Tenants(root), root);
    hide WellFormed, Members, Available;
  }

  // What a process left behind by `vacate` leads to

  lemma {:induction false} AfterAllTree(k: State, ms: seq<Moment>, into: Path)
    ensures AfterAll(k, ms, into).tree == k.tree && AfterAll(k, ms, into).host == k.host
    decreases |ms|
  {
    if ms != [] { AfterAllTree(Happens(k, ms[0], into), ms[1..], into); }
  }

  lemma HappensKeeps(k: State, m: Moment, into: Path)
    requires WellFormed(k)
    ensures WellFormed(Happens(k, m, into))
  {
    match m
    case Writes(pid) => AttachKeeps(k, pid, into);
    case Forks(pid, child) => if pid in k.at && child !in k.at { BornKeeps(k, pid, child); }
    case Exits(pid) => GoneKeeps(k, pid);
  }

  lemma {:induction false} AfterAllKeeps(k: State, ms: seq<Moment>, into: Path)
    requires WellFormed(k)
    ensures WellFormed(AfterAll(k, ms, into))
    decreases |ms|
  {
    hide WellFormed, Happens;
    if ms != [] {
      HappensKeeps(k, ms[0], into);
      AfterAllKeeps(Happens(k, ms[0], into), ms[1..], into);
    }
  }

  lemma AmidKeeps(k: State, root: Path, own: Pid, ours: set<Pid>, ms: seq<Moment>)
    requires WellFormed(k) && root != []
    ensures var g := AfterAll(Aside(LaidOut(k, root), root, own), ms, System(root));
            && WellFormed(g) && WellFormed(ParentFreed(g, root, ours)) && WellFormed(EnsuredAmid(k, root, own, ours, ms))
  {
    hide WellFormed, Mkdirs, Attach, Vacate, EnableAll, Members, InTheWay;
    MkdirsKeeps(k, root);
    MkdirsKeeps(Mkdirs(k, root), System(root));
    AttachKeeps(LaidOut(k, root), own, System(root));
    var k2 := Aside(LaidOut(k, root), root, own);
    AfterAllKeeps(k2, ms, System(root));
    var g := AfterAll(k2, ms, System(root));
    var pids := Members(g, Parent(root)) * ours;
    VacateKeeps(g, pids, System(root));
    EnableAllKeeps(Vacate(g, pids, System(root)), Parent(root));
    var k5 := ParentFreed(g, root, ours);
    hide AfterAll, Aside, LaidOut, ParentFreed;
    EnableAllKeeps(k5, root);
    MkdirsKeeps(EnableAll(k5, root), Tenants(root));
    EnableAllKeeps(Mkdirs(EnableAll(k5, root), Tenants(root)), Tenants(root));
  }

  lemma AmidExtends(k: State, root: Path, own: Pid, ours: set<Pid>, ms: seq<Moment>)
    requires root != []
    ensures var g := AfterAll(Aside(LaidOut(k, root), root, own), ms, System(root));
            && Extends(Mkdirs(k, root), g, {}) && root in g.tree && Extends(g, ParentFreed(g, root, ours), {Parent(root)})
  {
    hide Extends, Mkdirs, EnableAll, Vacate, Aside, LaidOut, AfterAll, Members;
    AsideExtends(k, root, own);
    var k2 := Aside(LaidOut(k, root), root, own);
    var g := AfterAll(k2, ms, System(root));
    AfterAllTree(k2, ms, System(root));
    SameTree(Mkdirs(k, root), k2, g);
    MkdirsMakes(k, root);
    HasAll(Mkdirs(k, root), g);
    FreeingExtends(g, root, ours);
  }

  lemma HasAll(k: State, t: State)
    requires Extends(k, t, {})
    ensures k.tree.Keys <= t.tree.Keys
  {
  }

  lemma SameTree(k: State, m: State, t: State)
    requires Extends(k, m, {}) && m.tree == t.tree && m.host == t.host
    ensures Extends(k, t, {})
  {
  }

  lemma StaysIn(k: State, t: State, root: Path)
    requires root != [] && t.at.Keys == k.at.Keys
    requires forall pid | pid in k.at :: t.at[pid] == k.at[pid] || (k.at[pid] == Parent(root) && t.at[pid] == System(root))
    ensures Members(k, root) <= Members(t, root)
    ensures Inhabited(k, root) ==> Inhabited(t, root)
  {
    assert Parent(root) != root && !(root < Parent(root));
    forall pid | pid in k.at && root < k.at[pid] ensures root < t.at[pid] {}
  }

  /** What was left behind in the slice stays in it; and the slice passes on what it did
      before, and, as long as nobody is below it, every threaded controller of its parent's. */
  lemma AmidHoldsBoth(k: State, root: Path, own: Pid, ours: set<Pid>, ms: seq<Moment>, pid: Pid)
    requires WellFormed(k) && root != [] && pid in Members(AfterAll(Aside(LaidOut(k, root), root, own), ms, System(root)), root)
    ensures var t, found := EnsuredAmid(k, root, own, ours, ms), Mkdirs(k, root);
            && pid in Members(t, root) && root in t.tree && root in found.tree && Parent(root) in t.tree
            && forall c :: c in t.tree[root] <==> c in found.tree[root] || (c in t.tree[Parent(root)] && c !in DOMAIN && !Inhabited(t, root))
  {
    hide Mkdirs, EnableAll, Vacate, Aside, LaidOut, AfterAll, Extends, WellFormed, Available, Delegated, Inhabited, ParentFreed;
    var found, t := Mkdirs(k, root), EnsuredAmid(k, root, own, ours, ms);
    var g := AfterAll(Aside(LaidOut(k, root), root, own), ms, System(root));
    var k5 := ParentFreed(g, root, ours);
    AmidKeeps(k, root, own, ours, ms);
    AmidExtends(k, root, own, ours, ms);
    MkdirsMakes(k, root);
    RootSame(found, g, k5, root);
    RestMoves(g, root, ours);
    StaysIn(g, t, root);
    hide Members;
    DelegatedHolder(k5, root, pid);
  }

  lemma RootSame(found: State, g: State, k: State, root: Path)
    requires root != [] && Extends(found, g, {}) && Extends(g, k, {Parent(root)}) && root in found.tree && root in g.tree
    ensures root in k.tree && k.tree[root] == found.tree[root]
  {
    assert root != Parent(root);
  }

  lemma DelegatedHolder(k: State, root: Path, pid: Pid)
    requires WellFormed(k) && root != [] && root in k.tree && pid in Members(Delegated(k, root), root)
    ensures var t := Delegated(k, root);
            && root in t.tree && Parent(root) in t.tree
            && forall c :: c in t.tree[root] <==> c in k.tree[root] || (c in t.tree[Parent(root)] && c !in DOMAIN && !Inhabited(t, root))
  {
    hide Mkdirs, EnableAll, Inhabited, Members, Invalid;
    ParentExists(k, root);
    DelegatedKeeps(k, root);
    assert Available(k, root) == k.tree[Parent(root)];
    SamePlaces(Delegated(k, root), k);
    var k1 := EnableAll(k, root);
    EnableAllHas(k, root, Cpu);
    forall c ensures c in k1.tree[root] <==> c in k.tree[root] || (c in Available(k, root) && c !in DOMAIN && !Inhabited(k, root)) {
      HolderPasses(k, root, pid, c);
    }
    EnableAllKeeps(k, root);
    MkdirsAdds(k1, Tenants(root));
    assert Tenants(root) != root && Parent(Tenants(root)) == root;
    EnableAllElse(Mkdirs(k1, Tenants(root)), Tenants(root), root);
    hide WellFormed, Available;
  }

  /** A slice that holds a process, passes nothing on and is inhabited further down passes
      nothing on either when a function is made: the function has no limit file. */
  lemma BlockedFunction(k: State, root: Path, tenant: string, name: string)
    requires WellFormed(k) && root != [] && root in k.tree && k.tree[root] == {} && Members(k, root) != {} && Inhabited(k, root)
    ensures Available(FunctionMade(k, root, tenant, name), Function(root, tenant, name)) == {}
  {
    hide WellFormed, Mkdirs, EnableAll, Members, Available, Sanitise, Descend, Inhabited;
    var pid :| pid in Members(k, root);
    var d, e := Tenant(root, tenant), Function(root, tenant, name);
    assert Parent(d) == Tenants(root) && Parent(e) == d && d != root && e != root && Tenants(root) != root;
    var k1 := Mkdirs(k, Tenants(root));
    MkdirsTop(k, root);
    MkdirsLeaves(k, Tenants(root), root);
    SamePlaces(k, k1);
    var k2 := EnableAll(k1, root);
    EnableAllKeeps(k1, root);
    EnableAllHas(k1, root, Cpu);
    forall c ensures c !in k2.tree[root] { HolderPasses(k1, root, pid, c); }
    var top := EnableAll(k2, Tenants(root));
    AvailableBelow(k1, root);
    EnableAllElse(k1, root, Tenants(root));
    EnableAllKeeps(k2, Tenants(root));
    EnableAllHas(k2, Tenants(root), Cpu);
    EnableAllElse(k2, Tenants(root), root);
    hide System, Tenants, Tenant, Function;
    DescendLeaves(top, d, root);
    DescendLeaves(Descend(top, d), e, root);
    assert root <= d && root <= e by { Within(root, tenant, name); }
    BelowNothing(Descend(Descend(top, d), e), root, e);
  }

  lemma Within(root: Path, tenant: string, name: string)
    ensures root <= Tenant(root, tenant) && root < Function(root, tenant, name)
  {
  }

  lemma MkdirsLeaves(k: State, d: Path, p: Path)
    requires p in k.tree
    ensures p in Mkdirs(k, d).tree && Mkdirs(k, d).tree[p] == k.tree[p]
  {
  }

  lemma DescendLeaves(k: State, d: Path, p: Path)
    requires WellFormed(k) && p in k.tree && p != d && d != [] && Parent(d) in k.tree
    ensures WellFormed(Descend(k, d)) && p in Descend(k, d).tree && Descend(k, d).tree[p] == k.tree[p] && d in Descend(k, d).tree
  {
    hide WellFormed, Mkdirs, EnableAll;
    MkdirsAdds(k, d);
    EnableAllKeeps(Mkdirs(k, d), d);
    EnableAllElse(Mkdirs(k, d), d, p);
    EnableAllHas(Mkdirs(k, d), d, Cpu);
  }

  lemma BelowNothing(k: State, above: Path, d: Path)
    requires WellFormed(k) && d in k.tree && above in k.tree && above < d && k.tree[above] == {}
    ensures Available(k, d) == {}
  {
    assert above <= Parent(d);
    ParentExists(k, d);
    TopDown(k, Parent(d), above);
  }

  lemma ForkedInTheGap(k: State, d: Path, into: Path, pid: Pid, child: Pid)
    requires into != d && pid in k.at && k.at[pid] == d && child !in k.at && CanHold(k, into) && k.tree[into] == {} && d < into
    ensures var t := AfterAll(k, [Forks(pid, child), Writes(pid)], into); child in Members(t, d) && Inhabited(t, d)
  {
    var ms := [Forks(pid, child), Writes(pid)];
    assert ms[1..] == [Writes(pid)] && ms[1..][1..] == [];
    var t := Happens(k, ms[0], into);
    HappensKeepsHold(k, ms[0], into);
    hide CanHold;
    assert t.at[child] == d && child != pid;
    assert AfterAll(k, ms, into) == AfterAll(t, ms[1..], into) == Happens(t, Writes(pid), into);
    assert Happens(t, Writes(pid), into).at[pid] == into;
  }

  function SliceWith(own: Pid, pid: Pid): State {
    State({Cpu, Io, Memory, Pids}, map[[] := {}, ["zygo.slice"] := {}], map[own := [], pid := ["zygo.slice"]])
  }

  lemma SliceWithIsFine(root: Path, own: Pid, pid: Pid)
    requires root == ["zygo.slice"] && own != pid
    ensures var k := SliceWith(own, pid); WellFormed(k) && Repairable(k, root, own) && Mkdirs(k, root) == k
  {
    var k := SliceWith(own, pid);
    assert Parent(root) == [];
    PrefixesOfOne(root);
    hide Leaf, Interior, System, Prefixes;
    assert WellFormed(k);
    hide WellFormed, Members;
    assert Mkdirs(k, root).tree == k.tree;
  }

  lemma PrefixesOfOne(root: Path)
    requires |root| == 1
    ensures Prefixes(root) == {[], root}
  {
    assert root[..0] == [] && root[..1] == root;
    forall p | p in Prefixes(root) ensures p in {[], root} { assert p == root[..|p|]; }
  }

  /** One such run: a process in the slice forks after `vacate` has read it and before it
      is moved. The slice is repairable and the host has every controller; but the child
      stays in the slice, which can pass nothing on, and no function gets a limit file. */
  lemma ForkBehindVacate(root: Path, own: Pid, pid: Pid, child: Pid, tenant: string, name: string)
    requires root == ["zygo.slice"] && own != pid && child !in {own, pid}
    ensures var k := SliceWith(own, pid);
            var t := EnsuredAmid(k, root, own, {own}, [Forks(pid, child), Writes(pid)]);
            && WellFormed(k) && Repairable(k, root, own)
            && child in Members(t, root) && root in t.tree && t.tree[root] == {}
            && Available(FunctionMade(t, root, tenant, name), Function(root, tenant, name)) == {}
  {
    hide EnsuredAmid, Mkdirs, WellFormed, Aside, LaidOut, AfterAll, Available, Interior, CanHold, Repairable, FunctionMade, Sanitise;
    var k, ms := SliceWith(own, pid), [Forks(pid, child), Writes(pid)];
    SliceWithIsFine(root, own, pid);
    var k2 := Aside(LaidOut(k, root), root, own);
    RepairableIsGathered(k, root, own);
    AsideMoves(k, root, own);
    assert System(root) != root && root < System(root);
    assert k2.at[pid] == root && pid in Members(k2, root);
    ForkedInTheGap(k2, root, System(root), pid, child);
    AmidHoldsBoth(k, root, own, {own}, ms, child);
    StillInhabited(k, root, own, {own}, ms);
    AmidKeeps(k, root, own, {own}, ms);
    BlockedFunction(EnsuredAmid(k, root, own, {own}, ms), root, tenant, name);
  }

  lemma StillInhabited(k: State, root: Path, own: Pid, ours: set<Pid>, ms: seq<Moment>)
    requires root != [] && Inhabited(AfterAll(Aside(LaidOut(k, root), root, own), ms, System(root)), root)
    ensures Inhabited(EnsuredAmid(k, root, own, ours, ms), root)
  {
    hide Inhabited, Members, AfterAll, Aside, LaidOut, Delegated, ParentFreed;
    var g := AfterAll(Aside(LaidOut(k, root), root, own), ms, System(root));
    RestMoves(g, root, ours);
    StaysIn(g, EnsuredAmid(k, root, own, ours, ms), root);
  }

  // --- Generations and requests -----------------------------------------------

  function GenerationMade(k: State, g: Path): State { Mkdirs(Descend(k, g), Zygote(g)) }

  lemma GenerationKeeps(k: State, root: Path, g: Path)
    requires WellFormed(k) && SliceOk(k, root) && Tenants(root) <= g && |g| == |root| + 4
    ensures WellFormed(GenerationMade(k, g)) && SliceOk(GenerationMade(k, g), root)
  {
    hide WellFormed, SliceOk;
    MkdirsKeeps(k, g);
    MkdirsKeepsSlice(k, root, g);
    EnableAllKeeps(Mkdirs(k, g), g);
    EnableAllKeepsSlice(Mkdirs(k, g), root, g);
    MkdirsKeeps(Descend(k, g), Zygote(g));
    MkdirsKeepsSlice(Descend(k, g), root, Zygote(g));
  }

  /** What the cgroup above passes to `d`, whether it is there yet or not. */
  function PassedTo(k: State, d: Path): set<Controller>
    requires d != []
  {
    if Parent(d) in k.tree then k.tree[Parent(d)] else {}
  }

  /** Making a generation: it passes on all that its function passes to it, unless the slice
      is below a threaded domain; the required controllers in any case exactly when it is
      given them; and its zygote's leaf is there and has what it passes on. */
  lemma GenerationIs(k: State, root: Path, g: Path)
    requires WellFormed(k) && SliceOk(k, root) && root != [] && Tenants(root) <= g && |g| == |root| + 4
    ensures var t, zygote := GenerationMade(k, g), g + ["zygote"];
            && t.at == k.at && g in t.tree && zygote in t.tree && Available(t, zygote) == t.tree[g]
            && (!Invalid(k, root) ==> t.tree[g] == PassedTo(k, g))
            && ({Memory, Pids, Cpu} <= t.tree[g] <==> {Memory, Pids, Cpu} <= PassedTo(k, g))
            && forall p | p in k.tree && p != g :: p in t.tree && t.tree[p] == k.tree[p]
  {
    hide WellFormed, SliceOk, Mkdirs, EnableAll, Invalid, Available;
    var k2 := Descend(k, g);
    GenerationDescends(k, root, g);
    assert Zygote(g) == g + ["zygote"] && Parent(Zygote(g)) == g;
    MkdirsAdds(k2, Zygote(g));
    forall p | p in k.tree && p != g ensures p in k2.tree && k2.tree[p] == k.tree[p] {
      MkdirsLeaves(k, g, p);
      EnableAllElse(Mkdirs(k, g), g, p);
    }
  }

  lemma GenerationDescends(k: State, root: Path, g: Path)
    requires WellFormed(k) && SliceOk(k, root) && root != [] && Tenants(root) <= g && |g| == |root| + 4
    ensures var t := Descend(k, g);
            && WellFormed(t) && t.at == k.at && g in t.tree
            && (!Invalid(k, root) ==> t.tree[g] == PassedTo(k, g))
            && ({Memory, Pids, Cpu} <= t.tree[g] <==> {Memory, Pids, Cpu} <= PassedTo(k, g))
  {
    var k1 := Mkdirs(k, g);
    assert root <= g && Interior(root, g);
    NoneAtInterior(k, root, g);
    hide WellFormed, SliceOk, Interior, Members, EnableAll, Mkdirs, Available, PassedTo;
    MkdirsKeeps(k, g);
    MkdirsKeepsSlice(k, root, g);
    MkdirsThreads(k, g);
    MkdirsGives(k, g);
    SameMembers(k, k1, g);
    if !Invalid(k, root) { InteriorPassesAll(k1, root, g); }
    LevelIff(k1, g);
  }

  lemma NoneAtInterior(k: State, root: Path, d: Path)
    requires SliceOk(k, root) && root <= d && Interior(root, d)
    ensures Members(k, d) == {}
  {
    LeavesAreNotInterior(root, d);
  }

  lemma MkdirsGives(k: State, d: Path)
    requires d != []
    ensures d in Mkdirs(k, d).tree && Available(Mkdirs(k, d), d) == PassedTo(k, d) && Mkdirs(k, d).at == k.at
  {
    assert Parent(d) <= d;
  }

  /** From the function to the request: once the function has been made, its generation, the
      zygote's leaf and the request's have memory, pids and cpu exactly when the slice is
      given them. */
  lemma RequestGets(k: State, root: Path, tenant: string, name: string, token: string, id: string)
    requires WellFormed(k) && SliceOk(k, root) && root != []
    ensures var g := Generation(root, tenant, name, token);
            var made := GenerationMade(FunctionMade(k, root, tenant, name), g);
            var t := Mkdirs(made, Request(g, id));
            && g in t.tree && Zygote(g) in t.tree && Request(g, id) in t.tree
            && t.tree[g] == Available(t, Zygote(g)) && t.tree[g] == Available(t, Request(g, id))
            && ({Memory, Pids, Cpu} <= t.tree[g] <==> {Memory, Pids, Cpu} <= Given(k, root))
  {
    var f, g := FunctionMade(k, root, tenant, name), Generation(root, tenant, name, token);
    GenerationAt(root, tenant, name, token);
    hide *;
    FunctionMadeKeeps(k, root, tenant, name);
    FunctionDelegates(k, root, tenant, name, g);
    GenerationIs(f, root, g);
    GenerationKeeps(f, root, g);
    assert Zygote(g) in GenerationMade(f, g).tree by { ZygoteIs(g); }
    RequestIs(GenerationMade(f, g), g, id);
  }

  lemma GenerationAt(root: Path, tenant: string, name: string, token: string)
    ensures var g := Generation(root, tenant, name, token);
            g != [] && Parent(g) == Function(root, tenant, name) && Tenants(root) <= g && |g| == |root| + 4
  {
    hide Sanitise;
  }

  lemma ZygoteIs(g: Path)
    ensures Zygote(g) == g + ["zygote"]
  {
  }

  lemma RequestIs(k: State, g: Path, id: string)
    requires WellFormed(k) && g in k.tree && Zygote(g) in k.tree
    ensures var t := Mkdirs(k, Request(g, id));
            && g in t.tree && Zygote(g) in t.tree && Request(g, id) in t.tree
            && t.tree[g] == k.tree[g] && Available(t, Request(g, id)) == k.tree[g] && Available(t, Zygote(g)) == k.tree[g]
  {
    assert Parent(Request(g, id)) == g && Parent(Zygote(g)) == g;
    hide WellFormed, Mkdirs, Sanitise;
    MkdirsAdds(k, Request(g, id));
  }

  /** The function's own cgroup passes the required controllers on exactly when the slice is
      given them. */
  lemma FunctionDelegates(k: State, root: Path, tenant: string, name: string, g: Path)
    requires WellFormed(k) && SliceOk(k, root) && root != [] && g != [] && Parent(g) == Function(root, tenant, name)
    ensures {Memory, Pids, Cpu} <= PassedTo(FunctionMade(k, root, tenant, name), g) <==> {Memory, Pids, Cpu} <= Given(k, root)
  {
    var t, d := FunctionMade(k, root, tenant, name), Function(root, tenant, name);
    FunctionMadeIff(k, root, tenant, name);
    FunctionMadeKeeps(k, root, tenant, name);
    FunctionIsThere(k, root, tenant, name);
    assert REQUIRED == {Memory, Pids, Cpu};
    PassesWithin(t, d);
    hide FunctionMade, WellFormed, SliceOk, Sanitise, Given, Available;
  }

  lemma FunctionIsThere(k: State, root: Path, tenant: string, name: string)
    ensures Function(root, tenant, name) in FunctionMade(k, root, tenant, name).tree
  {
    hide Available, MayEnable, Sanitise;
  }

  lemma RequestKeeps(k: State, root: Path, d: Path)
    requires WellFormed(k) && SliceOk(k, root)
    ensures WellFormed(Mkdirs(k, d)) && SliceOk(Mkdirs(k, d), root)
  {
    MkdirsKeeps(k, d);
    MkdirsKeepsSlice(k, root, d);
  }

  /** Attaching a process to a leaf keeps the slice, and succeeds exactly when the leaf is
      there and the slice is not invalid. */
  lemma AttachKeepsSlice(k: State, root: Path, pid: Pid, leaf: Path)
    requires WellFormed(k) && SliceOk(k, root) && Leaf(root, leaf)
    ensures WellFormed(Attach(k, pid, leaf)) && SliceOk(Attach(k, pid, leaf), root)
    ensures MayAttach(k, pid, leaf) <==> pid in k.at && leaf in k.tree && !Invalid(k, root)
  {
    AttachKeeps(k, pid, leaf);
    assert root <= leaf;
    SliceValid(k, root, leaf);
    LeavesAreNotInterior(root, leaf);
    assert leaf in k.tree ==> k.tree[leaf] == {};
    hide Invalid;
  }
}
