/** A small model of the kernel's cgroup v2 hierarchy, by the rules "Top-down
    Constraint", "No Internal Process Constraint" and "Threads" of the Linux cgroup v2
    documentation, with no cgroup made a threaded one.
 */
module CgroupKernel {

  type Path = seq<string>

  type Pid = nat

  datatype Controller = Cpu | Io | Memory | Pids

  /** The controllers the no-internal-process rule is about; the others are threaded. */
  const DOMAIN := {Memory, Io}

  /** `tree` maps each cgroup to its `cgroup.subtree_control`, and `at` each process to
      its cgroup. */
  datatype State = State(host: set<Controller>, tree: map<Path, set<Controller>>, at: map<Pid, Path>)

  function Parent(d: Path): Path
    requires d != []
  {
    d[..|d| - 1]
  }

  function Members(k: State, d: Path): set<Pid> { set pid | pid in k.at && k.at[pid] == d }

  /** `cgroup.controllers`. */
  function Available(k: State, d: Path): set<Controller> {
    if d !in k.tree then {}
    else if d == [] then k.host
    else if Parent(d) in k.tree then k.tree[Parent(d)] else {}
  }

  function Children(k: State, d: Path): set<Path> { set p | p in k.tree && p != [] && Parent(p) == d }

  /** Some process is in `d` or below it. */
  predicate Populated(k: State, d: Path) { exists pid :: pid in k.at && d <= k.at[pid] }

  /** Some process is below `d`. */
  predicate Inhabited(k: State, d: Path) { exists pid :: pid in k.at && d < k.at[pid] }

  /** A cgroup that holds processes and passes on a threaded controller. */
  predicate ThreadedDomain(k: State, d: Path) { d != [] && d in k.tree && k.tree[d] - DOMAIN != {} && Members(k, d) != {} }

  /** `domain invalid`: below a threaded domain a cgroup can hold no process and pass on
      no controller. */
  predicate Invalid(k: State, d: Path) { exists n :: 0 <= n < |d| && ThreadedDomain(k, d[..n]) }

  /** What every state of the kernel satisfies. */
  predicate WellFormed(k: State) {
    && [] in k.tree
    && (forall p | p in k.tree && p != [] :: Parent(p) in k.tree)
    && (forall pid | pid in k.at :: k.at[pid] in k.tree)
    && (forall p | p in k.tree :: k.tree[p] <= Available(k, p))
    && (forall p | p in k.tree && p != [] && k.tree[p] != {} && Members(k, p) != {} ::
          k.tree[p] * DOMAIN == {} && !Inhabited(k, p))
  }

  // --- System calls -----------------------------------------------------------

  /** `mkdir -p`. */
  function Mkdirs(k: State, d: Path): State {
    k.(tree := map p | p in k.tree.Keys + Prefixes(d) :: if p in k.tree then k.tree[p] else {})
  }

  function Prefixes(d: Path): (ps: set<Path>)
    ensures forall p :: p in ps <==> p <= d
  {
    var ps := set n | 0 <= n <= |d| :: d[..n];
    assert forall p | p <= d :: p == d[..|p|];
    ps
  }

  /** A cgroup with processes may pass on threaded controllers only, and only while no
      child of it is populated. */
  predicate MayEnable(k: State, d: Path, c: Controller) {
    && c in Available(k, d) && !Invalid(k, d)
    && (d == [] || Members(k, d) == {} || (c !in DOMAIN && k.tree[d] * DOMAIN == {} && !Inhabited(k, d)))
  }

  /** A write of `+c` to `cgroup.subtree_control`. */
  function Enable(k: State, d: Path, c: Controller): State {
    if d in k.tree && MayEnable(k, d, c) then k.(tree := k.tree[d := k.tree[d] + {c}]) else k
  }

  /** A process may be put in `d`. */
  predicate CanHold(k: State, d: Path) {
    && d in k.tree && !Invalid(k, d)
    && (d == [] || k.tree[d] == {} || (k.tree[d] * DOMAIN == {} && !Inhabited(k, d)))
  }

  predicate MayAttach(k: State, pid: Pid, d: Path) { pid in k.at && CanHold(k, d) }

  /** A write of `pid` to `cgroup.procs`. */
  function Attach(k: State, pid: Pid, d: Path): State {
    if MayAttach(k, pid, d) then k.(at := k.at[pid := d]) else k
  }

  predicate MayRemove(k: State, d: Path) { d in k.tree && d != [] && Members(k, d) == {} && Children(k, d) == {} }

  function Rmdir(k: State, d: Path): State { if MayRemove(k, d) then k.(tree := k.tree - {d}) else k }

  lemma MkdirsKeeps(k: State, d: Path)
    requires WellFormed(k)
    ensures WellFormed(Mkdirs(k, d)) && d in Mkdirs(k, d).tree
  {
    var t := Mkdirs(k, d);
    forall p | p in t.tree && p != [] ensures Parent(p) in t.tree {
      if p !in k.tree { assert Parent(p) <= d; }
    }
    forall p | p in t.tree ensures t.tree[p] <= Available(t, p) {}
    SamePlaces(k, t);
  }

  lemma SamePlaces(k: State, t: State)
    requires k.at == t.at
    ensures forall p :: Members(t, p) == Members(k, p) && (Inhabited(t, p) <==> Inhabited(k, p))
  {
  }

  lemma EnableKeeps(k: State, d: Path, c: Controller)
    requires WellFormed(k)
    ensures WellFormed(Enable(k, d, c))
  {
    var t := Enable(k, d, c);
    SamePlaces(k, t);
    forall p | p in t.tree ensures t.tree[p] <= Available(t, p) {}
    hide Members, Inhabited, Invalid, Available;
  }

  lemma AttachKeeps(k: State, pid: Pid, d: Path)
    requires WellFormed(k)
    ensures WellFormed(Attach(k, pid, d))
  {
    if MayAttach(k, pid, d) { MovedKeeps(k, Attach(k, pid, d), d); }
  }

  /** Putting processes where they can be. */
  lemma MovedKeeps(k: State, t: State, d: Path)
    requires WellFormed(k) && CanHold(k, d) && t.tree == k.tree && t.host == k.host
    requires t.at.Keys <= k.at.Keys && forall pid | pid in t.at :: t.at[pid] == k.at[pid] || t.at[pid] == d
    ensures WellFormed(t)
  {
    forall p | p in t.tree ensures t.tree[p] <= Available(t, p) {}
    forall p | p in t.tree && p != [] && t.tree[p] != {} && Members(t, p) != {}
      ensures t.tree[p] * DOMAIN == {} && !Inhabited(t, p)
    {
      hide WellFormed, Available;
      if p == d { HereFine(k, t, d); } else { ElsewhereFine(k, t, d, p); }
    }
    hide Members, Inhabited, CanHold;
  }

  lemma HereFine(k: State, t: State, d: Path)
    requires CanHold(k, d) && d != [] && k.tree[d] != {}
    requires t.at.Keys <= k.at.Keys && forall pid | pid in t.at :: t.at[pid] == k.at[pid] || t.at[pid] == d
    ensures k.tree[d] * DOMAIN == {} && !Inhabited(t, d)
  {
  }

  lemma ElsewhereFine(k: State, t: State, d: Path, p: Path)
    requires WellFormed(k) && CanHold(k, d) && p != d && p in k.tree && p != [] && k.tree[p] != {}
    requires t.at.Keys <= k.at.Keys && forall pid | pid in t.at :: t.at[pid] == k.at[pid] || t.at[pid] == d
    requires Members(t, p) != {}
    ensures k.tree[p] * DOMAIN == {} && !Inhabited(t, p)
  {
    var pid :| pid in Members(t, p);
    assert pid in Members(k, p) && k.tree[p] * DOMAIN == {};
    PassesThreaded(k.tree[p]);
    AboveHolds(k, d, p);
  }

  lemma PassesThreaded(passed: set<Controller>)
    requires passed * DOMAIN == {}
    ensures passed - DOMAIN == passed
  {
    assert forall c | c in passed :: c !in passed * DOMAIN;
  }

  lemma AboveHolds(k: State, d: Path, p: Path)
    requires !Invalid(k, d) && p in k.tree && p != [] && k.tree[p] - DOMAIN != {}
    ensures p < d ==> Members(k, p) == {}
  {
    assert p < d ==> d[..|p|] == p;
  }

  lemma RmdirKeeps(k: State, d: Path)
    requires WellFormed(k)
    ensures WellFormed(Rmdir(k, d))
  {
    var t := Rmdir(k, d);
    if MayRemove(k, d) {
      forall p | p in t.tree && p != [] ensures Parent(p) in t.tree {
        assert p !in Children(k, d);
      }
      forall pid | pid in t.at ensures t.at[pid] in t.tree {
        assert pid !in Members(k, d);
      }
      SamePlaces(k, t);
    }
  }

  /** Only where there is no process do domain controllers go on. */
  lemma DomainHoldsNone(k: State, p: Path)
    requires WellFormed(k) && p in k.tree && p != [] && k.tree[p] * DOMAIN != {}
    ensures Members(k, p) == {}
  {
  }

  /** What is given a domain controller is below no threaded domain. */
  lemma GivenIsValid(k: State, d: Path, c: Controller)
    requires WellFormed(k) && c in DOMAIN && c in Available(k, d)
    ensures !Invalid(k, d)
  {
    forall n | 0 <= n < |d| ensures !ThreadedDomain(k, d[..n]) {
      if n > 0 {
        assert d[..n] <= Parent(d);
        TopDown(k, Parent(d), d[..n]);
        assert c in k.tree[d[..n]] * DOMAIN;
        DomainHoldsNone(k, d[..n]);
      }
    }
  }

  /** Nothing above a process is a threaded domain. */
  lemma NoneAbove(k: State, pid: Pid, d: Path)
    requires WellFormed(k) && pid in k.at && d <= k.at[pid]
    ensures !Invalid(k, d)
  {
    forall n | 0 <= n < |d| ensures !ThreadedDomain(k, d[..n]) {
      assert d[..n] < k.at[pid];
      if n > 0 && ThreadedDomain(k, d[..n]) { assert Inhabited(k, d[..n]); }
    }
  }

  /** Below what is invalid, all is. */
  lemma InvalidBelow(k: State, above: Path, d: Path)
    requires above <= d && Invalid(k, above)
    ensures Invalid(k, d)
  {
    var n :| 0 <= n < |above| && ThreadedDomain(k, above[..n]);
    assert d[..n] == above[..n];
  }

  /** Top-down: what a cgroup passes down, every cgroup above it passes down too. */
  lemma {:induction false} TopDown(k: State, d: Path, above: Path)
    requires WellFormed(k) && d in k.tree && above <= d
    ensures above in k.tree && k.tree[d] <= k.tree[above]
    decreases |d|
  {
    if above != d {
      assert above <= Parent(d);
      assert k.tree[d] <= Available(k, d);
      TopDown(k, Parent(d), above);
    }
  }

  /** The tree is closed upwards. */
  lemma {:induction false} AboveExists(k: State, d: Path, above: Path)
    requires WellFormed(k) && d in k.tree && above <= d
    ensures above in k.tree
  {
    TopDown(k, d, above);
  }

  lemma ParentExists(k: State, c: Path)
    requires WellFormed(k) && c in k.tree && c != []
    ensures Parent(c) in k.tree
  {
  }

  lemma BornKeeps(k: State, pid: Pid, child: Pid)
    requires WellFormed(k) && pid in k.at && child !in k.at
    ensures WellFormed(k.(at := k.at[child := k.at[pid]]))
  {
    var t := k.(at := k.at[child := k.at[pid]]);
    forall p | p in t.tree ensures t.tree[p] <= Available(t, p) {}
    forall p | p in t.tree && p != [] && t.tree[p] != {} && Members(t, p) != {}
      ensures t.tree[p] * DOMAIN == {} && !Inhabited(t, p)
    {
      var q :| q in Members(t, p);
      assert (if q == child then pid else q) in Members(k, p);
      assert forall r | r in t.at && p < t.at[r] :: (if r == child then pid else r) in k.at && p < k.at[if r == child then pid else r];
    }
    hide Members, Available;
  }

  lemma GoneKeeps(k: State, pid: Pid)
    requires WellFormed(k)
    ensures WellFormed(k.(at := k.at - {pid}))
  {
    var t := k.(at := k.at - {pid});
    forall p | p in t.tree ensures t.tree[p] <= Available(t, p) {}
    forall p | p in t.tree && p != [] && t.tree[p] != {} && Members(t, p) != {}
      ensures t.tree[p] * DOMAIN == {} && !Inhabited(t, p)
    {
      assert Members(t, p) <= Members(k, p);
    }
    hide Members, Available;
  }
}
