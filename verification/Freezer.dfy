/** `kill_by_freezing`: killing a whole cgroup on a kernel without `cgroup.kill`, while
    the processes in it go on forking between its system calls.
 */
module Freezer {

  type Pid = nat

  /** A leaf cgroup: its processes, each with whether SIGKILL is pending for it. */
  datatype Group = Group(procs: map<Pid, bool>, frozen: bool)

  /** What a process may do on its own. A pid is not used twice. */
  datatype Move = Forks(parent: Pid, child: Pid) | Dies(pid: Pid)

  /** A process steps only while it is not frozen and no SIGKILL is pending; with one
      pending all it can do is die, at the thaw or before. */
  predicate Running(g: Group, pid: Pid) { pid in g.procs && !g.frozen && !g.procs[pid] }

  predicate CanMove(g: Group, m: Move) {
    match m
    case Forks(parent, child) => Running(g, parent) && child !in g.procs
    case Dies(pid) => Running(g, pid) || (pid in g.procs && g.procs[pid])
  }

  function Moved(g: Group, m: Move): Group {
    if !CanMove(g, m) then g else
    match m
    case Forks(parent, child) => g.(procs := g.procs[child := false])
    case Dies(pid) => g.(procs := g.procs - {pid})
  }

  function MovedAll(g: Group, moves: seq<Move>): Group
    decreases |moves|
  {
    if moves == [] then g else MovedAll(Moved(g, moves[0]), moves[1..])
  }

  function Signalled(g: Group, pid: Pid): Group {
    if pid in g.procs then g.(procs := g.procs[pid := true]) else g
  }

  /** Signalling each of `pids`, with `gap(i)` happening before number `i`. */
  function SignalledAll(g: Group, pids: seq<Pid>, gap: nat -> seq<Move>, from: nat): Group
    requires from <= |pids|
    decreases |pids| - from
  {
    if from == |pids| then g
    else SignalledAll(Signalled(MovedAll(g, gap(from)), pids[from]), pids, gap, from + 1)
  }

  /** Some listed process is still there when its turn comes, so that a signal is sent. */
  ghost predicate SignalsSome(g: Group, pids: seq<Pid>, gap: nat -> seq<Move>, from: nat)
    requires from <= |pids|
    decreases |pids| - from
  {
    from < |pids| &&
    (pids[from] in MovedAll(g, gap(from)).procs ||
     SignalsSome(Signalled(MovedAll(g, gap(from)), pids[from]), pids, gap, from + 1))
  }

  /** No process here can ever take another step: all that is left to them is to die. */
  predicate Doomed(g: Group) { forall pid | pid in g.procs :: g.procs[pid] }

  ghost predicate Lists(g: Group, pids: seq<Pid>) { forall pid :: pid in pids <==> pid in g.procs }

  // --- What moves change ------------------------------------------------------

  lemma {:induction false} FrozenStay(g: Group, moves: seq<Move>)
    requires g.frozen
    ensures var t := MovedAll(g, moves);
            && t.frozen
            && (forall pid | pid in t.procs :: pid in g.procs && t.procs[pid] == g.procs[pid])
            && (forall pid | pid in g.procs && !g.procs[pid] :: pid in t.procs)
    decreases |moves|
  {
    if moves != [] { FrozenStay(Moved(g, moves[0]), moves[1..]); }
  }

  lemma {:induction false} DoomedStay(g: Group, moves: seq<Move>)
    requires Doomed(g)
    ensures Doomed(MovedAll(g, moves)) && MovedAll(g, moves).procs.Keys <= g.procs.Keys
    ensures forall m :: CanMove(g, m) ==> m.Dies?
    decreases |moves|
  {
    if moves != [] { DoomedStay(Moved(g, moves[0]), moves[1..]); }
  }

  /** While the group is frozen, the signals reach every process on the list. */
  lemma {:induction false} FrozenSignals(g: Group, pids: seq<Pid>, gap: nat -> seq<Move>, from: nat)
    requires g.frozen && from <= |pids|
    requires forall pid | pid in g.procs && !g.procs[pid] :: pid in pids[from..]
    ensures Doomed(SignalledAll(g, pids, gap, from)) && SignalledAll(g, pids, gap, from).frozen
    decreases |pids| - from
  {
    if from < |pids| {
      FrozenStay(g, gap(from));
      var t := Signalled(MovedAll(g, gap(from)), pids[from]);
      assert pids[from..] == [pids[from]] + pids[from + 1..];
      FrozenSignals(t, pids, gap, from + 1);
    }
  }

  // --- kill_by_freezing -------------------------------------------------------

  class Leaf {
    var procs: map<Pid, bool>
    var frozen: bool
    const hasFreezer: bool

    function Now(): Group
      reads this
    {
      Group(procs, frozen)
    }

    constructor (procs: map<Pid, bool>, hasFreezer: bool)
      ensures Now() == Group(procs, false) && this.hasFreezer == hasFreezer
    {
      this.procs, this.frozen, this.hasFreezer := procs, false, hasFreezer;
    }

    method Elsewhere(moves: seq<Move>)
      modifies `procs
      ensures Now() == MovedAll(old(Now()), moves)
    {
      procs := MovedAll(Now(), moves).procs;
      FrozenSame(old(Now()), moves);
    }

    /** A freeze is in force when its write returns. */
    method Freeze(on: bool) returns (ok: bool)
      modifies `frozen
      ensures ok == hasFreezer && frozen == if ok then on else old(frozen)
    {
      ok := hasFreezer;
      if ok { frozen := on; }
    }

    method Members() returns (pids: seq<Pid>)
      ensures Lists(Now(), pids)
    {
      pids := [];
      var left := procs.Keys;
      while left != {}
        invariant forall pid :: pid in pids <==> pid in procs && pid !in left
        invariant left <= procs.Keys
        decreases left
      {
        var pid :| pid in left;
        left := left - {pid};
        pids := pids + [pid];
      }
    }

    method Kill(pid: Pid) returns (sent: bool)
      modifies `procs
      ensures sent == (pid in old(procs)) && Now() == Signalled(old(Now()), pid)
    {
      sent := pid in procs;
      if sent { procs := procs[pid := true]; }
    }

    /** The loop of signals, one process at a time. */
    method SignalEach(pids: seq<Pid>, gap: nat -> seq<Move>) returns (signalled: bool)
      modifies `procs
      ensures Now() == SignalledAll(old(Now()), pids, gap, 0)
      ensures frozen ==> forall pid | pid in procs :: pid in old(procs)
      ensures signalled <==> SignalsSome(old(Now()), pids, gap, 0)
      ensures signalled ==> pids != []
      ensures frozen && Lists(old(Now()), pids) && !Doomed(old(Now())) ==> signalled
    {
      hide MovedAll;
      ghost var listed := Now();
      signalled := false;
      for i := 0 to |pids|
        invariant SignalledAll(Now(), pids, gap, i) == SignalledAll(listed, pids, gap, 0)
        invariant frozen ==> forall pid | pid in procs :: pid in listed.procs
        invariant frozen && !signalled ==> forall pid | pid in listed.procs && !listed.procs[pid] :: pid in procs && !procs[pid]
        invariant frozen && !signalled ==> forall k | 0 <= k < i :: pids[k] !in procs
        invariant signalled ==> i > 0
        invariant SignalsSome(listed, pids, gap, 0) <==> signalled || SignalsSome(Now(), pids, gap, i)
      {
        ghost var g := Now();
        Elsewhere(gap(i));
        if frozen { FrozenStay(g, gap(i)); }
        var sent := Kill(pids[i]);
        if sent { signalled := true; }
      }
      hide SignalledAll;
    }

    /** `kill_by_freezing`, with whatever the processes do between its system calls. With
        a freezer nothing in the group can take another step afterwards, and the result
        says whether there was anything to kill. */
    method KillByFreezing(before: seq<Move>, listing: seq<Move>, gap: nat -> seq<Move>, last: seq<Move>)
      returns (signalled: bool, ghost pids: seq<Pid>)
      requires !frozen
      modifies this
      ensures !frozen
      ensures var start := MovedAll(old(Now()), before);
              && (hasFreezer ==> Doomed(Now()) && (forall pid | pid in procs :: pid in start.procs))
              && (hasFreezer ==> Lists(MovedAll(start.(frozen := true), listing), pids))
              && (hasFreezer && !Doomed(MovedAll(start.(frozen := true), listing)) ==> signalled)
              && (signalled ==> pids != [])
              && (signalled <==> SignalsSome(MovedAll(start.(frozen := hasFreezer), listing), pids, gap, 0))
              && (!hasFreezer ==> Lists(MovedAll(start, listing), pids))
              && (!hasFreezer ==> Now() == MovedAll(SignalledAll(MovedAll(start, listing), pids, gap, 0), last))
    {
      hide MovedAll, SignalledAll, Lists, SignalsSome;
      Elsewhere(before);
      ghost var start := Now();
      var froze := Freeze(true);
      Elsewhere(listing);
      var all := Members();
      pids := all;
      ghost var listed := Now();
      if froze { FrozenStay(start.(frozen := true), listing); }
      signalled := SignalEach(all, gap);
      ghost var g := Now();
      Elsewhere(last);
      if froze {
        ListedAll(listed, all);
        FrozenSignals(listed, all, gap, 0);
        FrozenStay(g, last);
        var _ := Freeze(false);
      }
    }
  }

  lemma ListedAll(g: Group, pids: seq<Pid>)
    requires Lists(g, pids)
    ensures forall pid | pid in g.procs && !g.procs[pid] :: pid in pids[0..]
  {
    assert pids[0..] == pids;
  }

  lemma {:induction false} FrozenSame(g: Group, moves: seq<Move>)
    ensures MovedAll(g, moves).frozen == g.frozen
    decreases |moves|
  {
    if moves != [] { FrozenSame(Moved(g, moves[0]), moves[1..]); }
  }

  /** Without the freeze a child forked between the read and the signal survives, free to
      run: the list was [1] and 2 is neither killed nor on it. */
  lemma WithoutTheFreezeAChildSurvives(gap: nat -> seq<Move>)
    requires gap(0) == [Forks(1, 2)]
    ensures var g := Group(map[1 := false], false);
            && Lists(g, [1])
            && var t := SignalledAll(g, [1], gap, 0);
               2 in t.procs && Running(t, 2) && !Doomed(t)
  {
    var g := Group(map[1 := false], false);
    assert [Forks(1, 2)][1..] == [];
    assert MovedAll(g, gap(0)) == Moved(g, Forks(1, 2));
    assert SignalledAll(g, [1], gap, 0) == Signalled(Moved(g, Forks(1, 2)), 1);
  }

  /** Without it the list is still enough when nobody forks in between. */
  lemma {:induction false} QuietSignals(g: Group, pids: seq<Pid>, gap: nat -> seq<Move>, from: nat)
    requires from <= |pids| && forall i, m | from <= i < |pids| && m in gap(i) :: m.Dies?
    requires forall pid | pid in g.procs && !g.procs[pid] :: pid in pids[from..]
    ensures Doomed(SignalledAll(g, pids, gap, from))
    decreases |pids| - from
  {
    if from < |pids| {
      DeathsOnly(g, gap(from));
      var t := Signalled(MovedAll(g, gap(from)), pids[from]);
      assert pids[from..] == [pids[from]] + pids[from + 1..];
      QuietSignals(t, pids, gap, from + 1);
    }
  }

  lemma {:induction false} DeathsOnly(g: Group, moves: seq<Move>)
    requires forall m | m in moves :: m.Dies?
    ensures var t := MovedAll(g, moves); forall pid | pid in t.procs :: pid in g.procs && t.procs[pid] == g.procs[pid]
    decreases |moves|
  {
    if moves != [] {
      assert moves[0] in moves && forall m | m in moves[1..] :: m in moves;
      DeathsOnly(Moved(g, moves[0]), moves[1..]);
    }
  }
}
