/** The Python agent's `serve` loop and its handlers, against the steps of `PythonAgent`.
 */
module PythonServe {

  import F = Framing
  import opened Numbers
  import opened Protocol
  import opened PythonAgent
  import opened PythonRuns
  import opened Wrappers

  /** Milliseconds. */
  const HEARTBEAT := 2000

  /** A message the agent understands; `Other` is any other type. An EXEC comes with what
      forking or spawning gives: a process and its pipes, or nothing. */
  datatype Command =
    | ExecOf(id: Id, child: Option<(Pid, Pipes)>)
    | GoOf(id: Id) | CancelOf(id: Id) | PingMessage | ShutdownMessage | OtherMessage

  /** What `recv` gives for a message. */
  type Message = F.Recv<Command>

  /** Bytes, as `read` returns them. */
  type Octets = b: seq<int> | F.Bytes(b) witness []

  /** What a read of a result pipe finds: bytes, or end of file. */
  datatype Read = Data(bytes: Octets) | End

  /** One descriptor's turn in a batch: what the children did before it, and what it reads. */
  datatype Turn = Turn(children: seq<Input>, read: Read, message: Message)

  /** One pass of the loop. `select` wakes after `delay`, or when the next beat is due if
      that is sooner; sending the beat takes `beating` and the batch takes `working`. */
  datatype Pass =
    | Interrupted(delay: nat)
    | Broken
    | Woken(delay: nat, readable: set<Fd>, turns: Fd -> Turn, beating: nat, working: nat)

  datatype Beating = Beating(start: nat, finish: nat, round: seq<Id>)

  function Filter(watch: seq<Fd>, readable: set<Fd>): (ready: seq<Fd>)
    ensures forall fd :: fd in ready <==> fd in watch && fd in readable
    ensures Distinct(watch) ==> Distinct(ready)
  {
    if watch == [] then []
    else
      var rest := Filter(watch[1..], readable);
      assert watch == [watch[0]] + watch[1..];
      if watch[0] in readable then
        assert Distinct(watch) ==> watch[0] !in watch[1..];
        [watch[0]] + rest
      else rest
  }

  /** `next` is at most `period` plus `work` after `last`. */
  predicate Within(last: nat, next: nat, period: nat, work: nat) { next <= last + period + work }

  /** No two rounds, and no stretch since the last, is longer than the period and one pass. */
  predicate Punctual(begin: nat, beats: seq<Beating>, work: nat) {
    forall k | 0 <= k < |beats| :: Within(Before(begin, beats, k), beats[k].start, 2_000, work)
  }

  /** When the round before number `k` finished. */
  function Before(begin: nat, beats: seq<Beating>, k: nat): nat
    requires k <= |beats|
  {
    if k == 0 then begin else beats[k - 1].finish
  }

  /** The heartbeat rounds of a run. */
  function Ticks(log: seq<Input>): (rounds: seq<seq<Id>>) {
    if log == [] then []
    else
      var i := log[|log| - 1];
      Ticks(log[..|log| - 1]) + (if i.Tick? then [i.round] else [])
  }

  lemma {:induction false} TicksOfMore(log: seq<Input>, more: seq<Input>)
    ensures Ticks(log + more) == Ticks(log) + Ticks(more)
  {
    if more == [] {
      assert log + more == log;
    } else {
      var n := |more| - 1;
      TicksOfMore(log, more[..n]);
      assert (log + more)[..|log| + n] == log + more[..n];
    }
  }

  lemma {:induction false} RunsCompose(s: State, log: seq<Input>, more: seq<Input>)
    requires After(s, log).Some?
    ensures After(s, log + more) == After(After(s, log).value, more)
    ensures Ticks(log + more) == Ticks(log) + Ticks(more)
    decreases |log|
  {
    hide Enabled, Effect;
    TicksOfMore(log, more);
    if log == [] {
      assert log + more == more;
    } else {
      RunsCompose(Effect(s, log[0]), log[1..], more);
      assert (log + more)[1..] == log[1..] + more;
    }
  }

  lemma RunOneMore(s: State, log: seq<Input>, i: Input)
    requires After(s, log).Some? && Enabled(After(s, log).value, i)
    ensures After(s, log + [i]) == Some(Effect(After(s, log).value, i))
    ensures Ticks(log + [i]) == Ticks(log) + (if i.Tick? then [i.round] else [])
  {
    RunsCompose(s, log, [i]);
    assert [i][..0] == [];
    hide Enabled, Effect;
  }

  lemma ChildTicks(i: Input)
    ensures ChildStep(i) ==> !i.Tick?
  {
  }

  lemma ChildChanges(s: State, i: Input)
    requires Valid(s) && Enabled(s, i) && ChildStep(i)
    ensures Effect(s, i) == s.(procs := Effect(s, i).procs, trace := Effect(s, i).trace)
  {
    ChildKeepsProcs(s, i);
    hide Enabled, Effect, Valid;
  }

  /** What the protocol and the kernel allow a message to say: an id in flight is not
      used again, and `fork` and `pipe` return free numbers. */
  predicate Arrives(s: State, message: Message) {
    message.GotFrame? && message.event.Received? && message.event.message.ExecOf? ==>
      var exec := message.event.message;
      && exec.id !in s.inflight
      && (exec.child.Some? ==> exec.child.value.0 !in s.procs && Fresh(s, exec.child.value.1))
  }

  lemma TablesKnown(s: State)
    requires Valid(s)
    ensures s.wire !in s.byResultFd
    ensures forall fd | fd in s.byResultFd :: s.byResultFd[fd] in s.inflight
    ensures s.byResultFd == map[] ==> s.inflight == map[]
  {
    hide AgentFds, Procs, SentOk, PipesOk, LostOk, Follows;
  }

  predicate AtEnd(s: State, fd: Fd, read: Read)
    requires fd in s.byResultFd && s.byResultFd[fd] in s.inflight
  {
    read.End? && Closed(s, ResultW(s.inflight[s.byResultFd[fd]].req))
  }

  function BytesOf(read: Read): Octets { if read.End? then [] else read.bytes }

  /** The step of the agent that a read is: at end of file the request is finished, and
      otherwise the CHUNKs in what was read are forwarded. */
  function ReadInput(s: State, fd: Fd, read: Read): (i: Input)
    requires !s.dead && fd in s.byResultFd && s.byResultFd[fd] in s.inflight
    ensures Enabled(s, i)
  {
    if AtEnd(s, fd, read) then Eof(fd) else Input.Data(fd, BytesOf(read))
  }

  lemma ReadStep(s: State, fd: Fd, read: Read)
    requires !s.dead && fd in s.byResultFd && s.byResultFd[fd] in s.inflight
    ensures var i := ReadInput(s, fd, read); var t := Effect(s, i);
            && After(s, [i]) == Some(t) && Ticks([i]) == []
            && (forall other | other in s.byResultFd && other != fd :: other in t.byResultFd)
            && t.accepting == s.accepting && t.wire == s.wire
  {
    hide Held, AnswerOf, F.Chunks, F.Fitting, F.Ending, F.AllFit;
    var i := ReadInput(s, fd, read);
    assert [i][1..] == [] && [i][..0] == [];
  }

  lemma OneStep(s: State, i: Input)
    requires Enabled(s, i) && !i.Tick?
    ensures After(s, [i]) == Some(Effect(s, i)) && Ticks([i]) == []
  {
    hide Enabled, Effect;
    assert [i][1..] == [] && [i][..0] == [];
  }

  lemma AllReleased(s: State, round: seq<Id>)
    requires Distinct(round) && forall id | id in round :: id in s.inflight && s.inflight[id].goFd.None?
    requires forall id | id in s.inflight && s.inflight[id].goFd.None? :: id in round
    ensures IsRound(round, ReleasedIds(s))
  {
  }

  predicate IsShutdown(message: Message) {
    message.GotFrame? && message.event.Received? && message.event.message.ShutdownMessage?
  }

  // --- The steps a message, a turn and a batch are ------------------------------

  /** The steps of the run that are acting on a message. A PING is answered and is none. */
  ghost predicate Obeyed(message: Message, log: seq<Input>) {
    match message
    case EndOfStream => log == []
    case ConnectionLost => log == []
    case TooLong => log == [Dies]
    case CutHeader => log == [Dies]
    case Unfollowed => log == [Dies]
    case GotFrame(BadBody, _) => log == [Unknown]
    case GotFrame(Received(command), _) => Commanded(command, log)
  }

  ghost predicate Commanded(command: Command, log: seq<Input>) {
    match command
    case ExecOf(id, None) => log == [ExecFails(id)]
    case ExecOf(id, Some((pid, pipes))) => |log| == 1 && log[0].Exec? && log[0].id == id && log[0].pid == pid && log[0].pipes == pipes
    case GoOf(id) => log == [Go(id)]
    case CancelOf(id) => log == [PythonAgent.Cancel(id)]
    case PingMessage => log == []
    case ShutdownMessage => log == []
    case OtherMessage => log == [Unknown]
  }

  /** The messages after which no more are taken. */
  predicate Last(message: Message) {
    || message.EndOfStream? || message.ConnectionLost?
    || (message.GotFrame? && message.event.Received? && message.event.message.ShutdownMessage?)
  }

  /** One turn: some steps of the children, and then the message, with the end of accepting
      if it is the last; or what was read, or end of file if that is what there is. */
  ghost predicate Turned(s: State, fd: Fd, turn: Turn, log: seq<Input>) {
    exists n: nat, m: nat :: n <= m <= |log| && OneTurn(s, fd, turn, log[..n], log[n..m], log[m..])
  }

  ghost predicate OneTurn(s: State, fd: Fd, turn: Turn, children: seq<Input>, own: seq<Input>, stop: seq<Input>) {
    && (forall i | i in children :: ChildStep(i)) && After(s, children).Some?
    && var t := After(s, children).value;
       if fd != s.wire then
         && fd in t.byResultFd && t.byResultFd[fd] in t.inflight && stop == []
         && own == [if turn.read.End? && !Held(t, ResultW(t.inflight[t.byResultFd[fd]].req)) then Eof(fd)
                    else Input.Data(fd, if turn.read.End? then [] else turn.read.bytes)]
       else if Arrives(t, turn.message) then
         Obeyed(turn.message, own) && stop == (if Last(turn.message) then [Stop] else [])
       else own == [] && stop == []
  }

  /** When a pass that started at `start` wakes, with the next beat due at `due`. */
  function Wakes(start: nat, due: nat, delay: nat): nat {
    if due <= start then start else if start + delay < due then start + delay else due
  }

  /** What `serve` waits on: each result pipe in flight and, while it accepts messages, the
      control socket, last; each once. */
  predicate IsWatch(s: State, watch: seq<Fd>) {
    && Distinct(watch) && OnlyLast(watch, s.wire)
    && (forall fd | fd in watch :: fd in s.byResultFd || (fd == s.wire && s.accepting))
    && (forall fd | fd in s.byResultFd :: fd in watch) && (s.accepting ==> s.wire in watch)
  }

  /** A pass's steps: the beat, when there is one, and then the batch. */
  ghost predicate BeatThenBatch(s: State, beat: Option<Beating>, ready: seq<Fd>, turns: Fd -> Turn, log: seq<Input>) {
    if beat.None? then Taken(s, ready, turns, log)
    else log != [] && log[0] == Tick(beat.value.round) && After(s, log[..1]).Some? && Taken(After(s, log[..1]).value, ready, turns, log[1..])
  }

  lemma BatchAfterBeat(s: State, beat: Option<Beating>, ready: seq<Fd>, turns: Fd -> Turn, first: seq<Input>, step: seq<Input>)
    requires first == (if beat.Some? then [Tick(beat.value.round)] else []) && After(s, first).Some?
    requires Taken(if beat.Some? then After(s, first).value else s, ready, turns, step)
    ensures BeatThenBatch(s, beat, ready, turns, first + step)
  {
    hide Taken, After;
    var log := first + step;
    if beat.Some? { assert log[..1] == first && log[1..] == step; } else { assert log == step; }
  }

  /** One batch: a turn for each descriptor in order, until the agent ends. */
  ghost predicate Taken(s: State, ready: seq<Fd>, turns: Fd -> Turn, log: seq<Input>)
    decreases |ready|
  {
    if ready == [] || s.dead then log == []
    else
      exists n: nat ::
        n <= |log| && Turned(s, ready[0], turns(ready[0]), log[..n]) && After(s, log[..n]).Some? &&
        Taken(After(s, log[..n]).value, ready[1..], turns, log[n..])
  }

  lemma TakenNone(s: State, turns: Fd -> Turn)
    ensures Taken(s, [][..0], turns, [])
  {
  }

  lemma TurnedBy(s: State, fd: Fd, turn: Turn, children: seq<Input>, own: seq<Input>, stop: seq<Input>)
    requires OneTurn(s, fd, turn, children, own, stop)
    ensures Turned(s, fd, turn, children + own + stop)
  {
    hide OneTurn;
    var log := children + own + stop;
    var n, m: nat := |children|, |children| + |own|;
    assert log[..n] == children && log[n..m] == own && log[m..] == stop;
  }

  lemma TakenDead(s: State, ready: seq<Fd>, turns: Fd -> Turn, log: seq<Input>)
    requires Taken(s, ready, turns, log) && After(s, log).Some? && !After(s, log).value.dead
    ensures !s.dead
  {
    AfterNothing(s);
    hide Turned, Enabled, Effect;
  }

  lemma TakenFirst(s: State, ready: seq<Fd>, turns: Fd -> Turn, first: seq<Input>, later: seq<Input>)
    requires ready != [] && !s.dead && Turned(s, ready[0], turns(ready[0]), first) && After(s, first).Some?
    requires Taken(After(s, first).value, ready[1..], turns, later)
    ensures Taken(s, ready, turns, first + later)
  {
    hide Turned, After;
    var log, n: nat := first + later, |first|;
    assert log[..n] == first && log[n..] == later;
  }

  lemma TakenSplit(s: State, ready: seq<Fd>, turns: Fd -> Turn, log: seq<Input>) returns (first: seq<Input>, later: seq<Input>)
    requires ready != [] && Taken(s, ready, turns, log) && !s.dead
    ensures log == first + later && Turned(s, ready[0], turns(ready[0]), first) && After(s, first).Some?
    ensures Taken(After(s, first).value, ready[1..], turns, later)
  {
    hide Turned, After;
    var n: nat :| n <= |log| && Turned(s, ready[0], turns(ready[0]), log[..n]) && After(s, log[..n]).Some? &&
                  Taken(After(s, log[..n]).value, ready[1..], turns, log[n..]);
    first, later := log[..n], log[n..];
  }

  /** One turn more at the end. */
  lemma {:induction false} TakenOneMore(s: State, ready: seq<Fd>, turns: Fd -> Turn, log: seq<Input>, fd: Fd, step: seq<Input>)
    requires Taken(s, ready, turns, log) && After(s, log).Some? && !After(s, log).value.dead
    requires Turned(After(s, log).value, fd, turns(fd), step) && After(After(s, log).value, step).Some?
    ensures Taken(s, ready + [fd], turns, log + step)
    decreases |ready|
  {
    hide Turned, After;
    TakenDead(s, ready, turns, log);
    var more := ready + [fd];
    if ready == [] {
      AfterNothing(s);
      assert more[0] == fd && more[1..] == [];
      assert Taken(After(s, step).value, [], turns, []);
      TakenFirst(s, more, turns, step, []);
      assert step + [] == step && log + step == step;
    } else {
      var first, later := TakenSplit(s, ready, turns, log);
      RunsCompose(s, first, later);
      hide Taken;
      TakenOneMore(After(s, first).value, ready[1..], turns, later, fd, step);
      assert more[0] == ready[0] && more[1..] == ready[1..] + [fd];
      TakenFirst(s, more, turns, first, later + step);
      assert first + (later + step) == log + step;
    }
  }

  lemma OneChunk(bytes: seq<int>)
    ensures F.Concat([bytes]) == bytes
  {
    assert [bytes][..0] == [];
  }

  lemma PipeBytes(s: State, id: Id)
    requires Valid(s) && id in s.inflight
    ensures F.Bytes(s.inflight[id].chunks)
  {
    hide Tables, AgentFds, Procs, SentOk, LostOk, Follows;
    EndingBytes(s.inflight[id].got, s.read);
  }

  lemma {:induction false} EndingBytes(b: seq<int>, read: Reader)
    requires F.Bytes(b)
    ensures F.Bytes(F.Ending(b, read))
    decreases |b|
  {
    F.UnfoldChunks(b, read);
    if F.HasFrame(b) && F.IsChunk(read(F.Body(b))) { EndingBytes(F.AfterFrame(b), read); }
  }

  lemma RunNothing(s: State)
    ensures After(s, []) == Some(s) && Ticks([]) == []
  {
  }

  function Rounds(beats: seq<Beating>): (rounds: seq<seq<Id>>)
    ensures |rounds| == |beats| && forall k | 0 <= k < |rounds| :: rounds[k] == beats[k].round
  {
    seq(|beats|, k requires 0 <= k < |beats| => beats[k].round)
  }

  lemma RoundsOneMore(beats: seq<Beating>)
    requires beats != []
    ensures Rounds(beats) == Rounds(beats[..|beats| - 1]) + [beats[|beats| - 1].round]
  {
  }

  lemma TickStep(s: State, log: seq<Input>, round: seq<Id>)
    requires After(s, log).Some? && !After(s, log).value.dead && IsRound(round, ReleasedIds(After(s, log).value))
    ensures var t := After(s, log).value;
            After(s, log + [Tick(round)]) == Some(t.(trace := t.trace + Beats(round)))
    ensures Ticks(log + [Tick(round)]) == Ticks(log) + [round]
  {
    RunOneMore(s, log, Tick(round));
  }

  /** `last` may come only at the end. */
  predicate OnlyLast(fds: seq<Fd>, last: Fd) { forall k: nat :: k + 1 < |fds| ==> fds[k] != last }

  /** Filtering keeps the order: the control socket stays last. */
  lemma {:induction false} FilterKeepsLast(watch: seq<Fd>, readable: set<Fd>, wire: Fd)
    requires OnlyLast(watch, wire)
    ensures OnlyLast(Filter(watch, readable), wire)
  {
    if watch != [] {
      var rest := watch[1..];
      var later := Filter(rest, readable);
      FilterKeepsLast(rest, readable, wire);
      if rest == [] {
        assert later == [];
      } else if watch[0] in readable {
        var ready := [watch[0]] + later;
        forall k: nat | k + 1 < |ready| ensures ready[k] != wire {
          if k > 0 { assert ready[k] == later[k - 1]; }
        }
      }
    }
  }

  lemma NoBeats(begin: nat, work: nat)
    ensures Punctual(begin, [], work)
  {
  }

  lemma PunctualOneMore(begin: nat, beats: seq<Beating>, beat: Beating, work: nat)
    requires Punctual(begin, beats, work) && Within(Before(begin, beats, |beats|), beat.start, HEARTBEAT, work)
    ensures Punctual(begin, beats + [beat], work)
  {
    var more := beats + [beat];
    forall k | 0 <= k < |more| ensures Within(Before(begin, more, k), more[k].start, HEARTBEAT, work) {
      assert Before(begin, more, k) == Before(begin, beats, k);
      if k < |beats| { assert more[k] == beats[k]; }
    }
  }

  lemma AllAnswered(s: State)
    requires Valid(s) && !s.dead && s.inflight == map[]
    ensures forall id :: Execs(s.trace, id) == Answers(s.trace, id)
  {
    hide Tables, AgentFds, Procs, SentOk, PipesOk;
    forall id ensures Execs(s.trace, id) == Answers(s.trace, id) {
      TableAt(s.trace, Phases(s), id);
      OneAnswerEach(s.trace, id);
    }
  }

  lemma StopEffect(s: State)
    requires Enabled(s, Stop)
    ensures Effect(s, Stop) == s.(accepting := false)
  {
  }

  lemma StopStep(s: State, log: seq<Input>, t: State)
    requires After(s, log) == Some(t) && Ticks(log) == [] && !t.dead && t.accepting
    ensures Enabled(t, Stop) && After(s, log + [Stop]) == Some(t.(accepting := false)) && Ticks(log + [Stop]) == []
  {
    RunOneMore(s, log, Stop);
  }

  /** Of what the children try, what they can do. */
  ghost function Possible(s: State, steps: seq<Input>): seq<Input>
    decreases |steps|
  {
    if steps == [] then []
    else if ChildStep(steps[0]) && Enabled(s, steps[0]) then [steps[0]] + Possible(Effect(s, steps[0]), steps[1..])
    else Possible(s, steps[1..])
  }

  lemma PossibleFrom(s: State, steps: seq<Input>)
    ensures Possible(s, steps) == [] + Possible(s, steps[0..])
  {
    assert steps[0..] == steps;
  }

  lemma PossibleNone(s: State, steps: seq<Input>)
    ensures Possible(s, steps[|steps|..]) == []
  {
  }

  lemma PossibleStep(s: State, steps: seq<Input>, k: nat)
    requires k < |steps|
    ensures Possible(s, steps[k..]) ==
            if ChildStep(steps[k]) && Enabled(s, steps[k]) then [steps[k]] + Possible(Effect(s, steps[k]), steps[k + 1..])
            else Possible(s, steps[k + 1..])
  {
    assert steps[k..][1..] == steps[k + 1..];
    hide Enabled, Effect;
  }

  class Agent {
    const canFork: bool
    const wire: Fd
    const read: Reader
    var fds: map<Fd, PythonAgent.End>
    var inflight: map<Id, InFlight>
    var byResultFd: map<Fd, Id>
    var accepting: bool
    var dead: bool
    var lost: Option<Lost>
    var procs: map<Pid, Proc>
    var ids: seq<Id>
    var sent: set<nat>
    var trace: seq<Event>

    function Now(): State
      reads this
    {
      State(canFork, wire, read, fds, inflight, byResultFd, accepting, dead, lost, procs, ids, sent, trace)
    }

    constructor (canFork: bool, wire: Fd, read: Reader)
      ensures Now() == Initial(canFork, wire, read) && Valid(Now())
    {
      this.canFork, this.wire, this.read := canFork, wire, read;
      fds, inflight, byResultFd := map[wire := Control], map[], map[];
      accepting, dead, lost := true, false, None;
      procs, ids, sent, trace := map[], [], {}, [];
      new;
      InitialIsValid(canFork, wire, read);
      hide Valid;
    }

    method Send(e: Event)
      modifies `trace
      ensures Now() == Sent(old(Now()), e)
    {
      trace := trace + [e];
    }

    /** Every descriptor of a request in flight. */
    method OpenFds() returns (all: seq<Fd>)
      ensures IsOpenFds(Now(), all)
    {
      all := [];
      var left := inflight.Keys;
      while left != {}
        invariant left <= inflight.Keys
        invariant forall fd | fd in all :: Registered(inflight, fd)
        invariant forall id | id in inflight && id !in left ::
                    inflight[id].resultFd in all && (inflight[id].goFd.Some? ==> inflight[id].goFd.value in all)
        decreases left
      {
        var id :| id in left;
        left := left - {id};
        var other := inflight[id];
        all := all + [other.resultFd];
        if other.goFd.Some? { all := all + [other.goFd.value]; }
      }
    }

    /** `_exec` and `_exec_spawned`. */
    method Exec(id: Id, child: Option<(Pid, Pipes)>) returns (inherited: seq<Fd>)
      requires Valid(Now()) && !dead && accepting && id !in inflight
      requires child.Some? ==> child.value.0 !in procs && Fresh(Now(), child.value.1)
      modifies this
      ensures Valid(Now())
      ensures child.None? ==> Now() == Effect(old(Now()), ExecFails(id))
      ensures IsOpenFds(old(Now()), inherited)
      ensures child.Some? ==> Now() == OnExec(old(Now()), id, child.value.0, child.value.1, inherited)
    {
      hide Valid, Held, IsOpenFds, Child, Fresh, IsRound, ReleasedIds;
      var before := Now();
      inherited := OpenFds();
      Send(GotExec(id));
      if child.None? {
        StepKeepsValid(old(Now()), ExecFails(id));
        Send(Refused(id));
        assert trace == old(trace) + [GotExec(id), Refused(id)];
        return;
      }
      var (pid, pipes) := child.value;
      StepKeepsValid(old(Now()), PythonAgent.Exec(id, pid, pipes, inherited));
      var q := |ids|;
      procs := procs[pid := Child(before, id, pipes, inherited)];
      fds := fds + map[pipes.resultR := ResultR(q), pipes.goW := GoW(q)];
      inflight := inflight[id := InFlight(q, pid, pipes.resultR, Some(pipes.goW), false, [], [])];
      byResultFd := byResultFd[pipes.resultR := id];
      ids := ids + [id];
      Send(Forked(id));
      assert trace == old(trace) + [GotExec(id), Forked(id)];
    }

    method Release(id: Id)
      requires Valid(Now()) && !dead && accepting
      modifies this
      ensures Now() == OnGo(old(Now()), id) && Valid(Now())
    {
      hide Valid, Held;
      StepKeepsValid(Now(), Go(id));
      var before := Now();
      Send(GotGo(id));
      if id !in inflight || inflight[id].goFd.None? { return; }
      var request := inflight[id];
      if !Closed(before, GoR(request.req)) { sent := sent + {request.req}; }
      fds := fds - {request.goFd.value};
      inflight := inflight[id := request.(goFd := None)];
    }

    method CancelRequest(id: Id)
      requires Valid(Now()) && !dead && accepting
      modifies this
      ensures Now() == OnCancel(old(Now()), id) && Valid(Now())
    {
      hide Valid, Held;
      StepKeepsValid(Now(), PythonAgent.Cancel(id));
      if id in inflight { inflight := inflight[id := inflight[id].(cancelled := true)]; }
    }

    method Heartbeat() returns (round: seq<Id>)
      requires Valid(Now()) && !dead
      modifies this
      ensures IsRound(round, ReleasedIds(old(Now()))) && Now() == old(Now()).(trace := old(trace) + Beats(round)) && Valid(Now())
    {
      hide Valid, IsRound, ReleasedIds;
      round := [];
      var left := inflight.Keys;
      while left != {}
        invariant left <= inflight.Keys && Distinct(round)
        invariant forall id | id in round :: id in inflight && id !in left && inflight[id].goFd.None?
        invariant forall id | id in inflight && id !in left && inflight[id].goFd.None? :: id in round
        invariant Now() == old(Now()).(trace := old(trace) + Beats(round))
        decreases left
      {
        var id :| id in left;
        left := left - {id};
        if inflight[id].goFd.None? {
          Send(Beat(id));
          assert Beats(round + [id]) == Beats(round) + [Beat(id)];
          round := round + [id];
        }
      }
      AllReleased(old(Now()), round);
      StepKeepsValid(old(Now()), Tick(round));
    }

    /** An exception that nothing catches. */
    method Raise()
      modifies `dead, `fds
      ensures Now() == Died(old(Now()))
    {
      dead, fds := true, map[];
    }

    /** `_collect`: forward what is there, or finish at end of file. */
    method Collect(fd: Fd, found: Read)
      requires Valid(Now()) && !dead && fd in byResultFd && byResultFd[fd] in inflight
      modifies this
      ensures Valid(Now()) && Now() == Effect(old(Now()), ReadInput(old(Now()), fd, found))
    {
      hide Valid, Held, F.Bytes;
      StepKeepsValid(Now(), ReadInput(Now(), fd, found));
      if AtEnd(Now(), fd, found) {
        Finish(fd);
      } else {
        PipeBytes(Now(), byResultFd[fd]);
        ForwardChunks(fd, BytesOf(found));
      }
    }

    /** `_forward_chunks`: the loop itself is `Framing.ResultPipe.Collect`. */
    method ForwardChunks(fd: Fd, bytes: Octets)
      requires fd in byResultFd && byResultFd[fd] in inflight && F.Bytes(inflight[byResultFd[fd]].chunks)
      modifies this
      ensures Now() == OnData(old(Now()), fd, bytes)
    {
      hide F.Bytes, F.Chunks, F.Ending, F.Fitting, F.AllFit;
      var id := byResultFd[fd];
      var request := inflight[id];
      var pipe := new F.ResultPipe<Reply>();
      pipe.chunks := [request.chunks];
      OneChunk(request.chunks);
      var raised := pipe.Collect(bytes, read, Fits);
      assert [] + F.Fitting(Arriving(Now(), fd, bytes), Fits) == F.Fitting(Arriving(Now(), fd, bytes), Fits);
      trace := trace + Forwarded(pipe.sent);
      if raised {
        Raise();
      } else {
        inflight := inflight[id := request.(chunks := F.Concat(pipe.chunks), got := request.got + bytes)];
      }
    }

    /** `_finish`: out of the tables first, then decoded and sent, and both may raise. */
    method Finish(fd: Fd)
      requires fd in byResultFd && byResultFd[fd] in inflight
      modifies this
      ensures Now() == OnEof(old(Now()), fd)
    {
      hide F.Decode, AnswerFits, ReplacementFits;
      var id := byResultFd[fd];
      var request := inflight[id];
      Forget(fd);
      hide Cleared;
      var raised := false;
      match F.Decode(request.chunks, read) {
        case Nothing => Send(Done(id));
        case Answer(kind, m) => raised := SendResult(id, kind, m, request.cancelled);
        case Raises => raised := true;
      }
      if raised {
        Raise();
        lost := Some(Lost(id, request.goFd.None?, request.cancelled, request.got));
      }
    }

    method Forget(fd: Fd)
      requires fd in byResultFd && byResultFd[fd] in inflight
      modifies `fds, `byResultFd, `inflight
      ensures Now() == Cleared(old(Now()), fd)
    {
      var request := inflight[byResultFd[fd]];
      fds := fds - {fd};
      inflight := inflight - {byResultFd[fd]};
      byResultFd := byResultFd - {fd};
      if request.goFd.Some? { fds := fds - {request.goFd.value}; }
    }

    /** `_send_result`: the answer, or a DONE in its place; an answer that cannot be encoded
        and a DONE that does not fit raise. */
    method SendResult(id: Id, kind: string, m: Reply, cancelled: bool) returns (raised: bool)
      modifies `trace
      ensures raised <==> !m.encodes || (!AnswerFits(m, id, cancelled) && !ReplacementFits(m, id, cancelled))
      ensures raised ==> trace == old(trace)
      ensures !raised ==> trace == old(trace) + [if kind == "ERROR" && AnswerFits(m, id, cancelled) then Refused(id) else Done(id)]
    {
      if !m.encodes { return true; }
      if AnswerFits(m, id, cancelled) {
        Send(if kind == "ERROR" then Refused(id) else Done(id));
        return false;
      }
      if !ReplacementFits(m, id, cancelled) { return true; }
      Send(Done(id));
      return false;
    }

    /** What the children do while the agent is elsewhere. */
    method Children(steps: seq<Input>) returns (ghost log: seq<Input>)
      requires Valid(Now())
      modifies `procs, `trace
      ensures Valid(Now()) && After(old(Now()), log) == Some(Now()) && Ticks(log) == []
      ensures (forall i | i in log :: ChildStep(i)) && log == Possible(old(Now()), steps)
    {
      hide Valid, Enabled, Effect, After, ChildStep, Possible;
      log := [];
      RunNothing(Now());
      PossibleFrom(Now(), steps);
      for k := 0 to |steps|
        invariant Valid(Now()) && After(old(Now()), log) == Some(Now()) && Ticks(log) == []
        invariant forall i | i in log :: ChildStep(i)
        invariant Possible(old(Now()), steps) == log + Possible(Now(), steps[k..])
      {
        PossibleStep(Now(), steps, k);
        if ChildStep(steps[k]) && Enabled(Now(), steps[k]) {
          ghost var later := Possible(Effect(Now(), steps[k]), steps[k + 1..]);
          assert log + ([steps[k]] + later) == log + [steps[k]] + later;
          ChildDoes(old(Now()), log, steps[k]);
          log := log + [steps[k]];
        }
      }
      PossibleNone(Now(), steps);
    }

    method ChildDoes(ghost start: State, ghost sofar: seq<Input>, i: Input)
      requires Valid(Now()) && ChildStep(i) && Enabled(Now(), i) && After(start, sofar) == Some(Now())
      modifies `procs, `trace
      ensures Valid(Now()) && Now() == Effect(old(Now()), i)
      ensures After(start, sofar + [i]) == Some(Now()) && (Ticks(sofar) == [] ==> Ticks(sofar + [i]) == [])
    {
      hide Valid, Enabled, Effect, After, ChildStep, Ticks;
      var s := Now();
      StepKeepsValid(s, i);
      ChildChanges(s, i);
      ChildTicks(i);
      RunOneMore(start, sofar, i);
      procs, trace := Effect(s, i).procs, Effect(s, i).trace;
    }

    /** `_handle_message`: act on one message; `false` means stop accepting. A length over
        the limit, a header cut short and a body nested too deeply raise. */
    method HandleMessage(message: Message) returns (more: bool, ghost log: seq<Input>)
      requires Valid(Now()) && !dead && accepting && Arrives(Now(), message)
      modifies this
      ensures Valid(Now()) && After(old(Now()), log) == Some(Now()) && Ticks(log) == []
      ensures dead <==> message.TooLong? || message.CutHeader? || message.Unfollowed?
      ensures accepting && wire !in byResultFd
      ensures !more <==> message.EndOfStream? || message.ConnectionLost? || IsShutdown(message)
      ensures Obeyed(message, log)
    {
      hide Valid, Held, Effect;
      more, log := true, [];
      RunNothing(Now());
      match message
      case EndOfStream => more := false; TablesKnown(Now());
      case ConnectionLost => more := false; TablesKnown(Now());
      case TooLong => log := Escapes();
      case CutHeader => log := Escapes();
      case Unfollowed => log := Escapes();
      case GotFrame(event, _) =>
        if event.BadBody? {
          log := Complain();
        } else {
          more, log := Obey(event.message);
        }
    }

    /** An exception out of `recv`. */
    method Escapes() returns (ghost log: seq<Input>)
      requires Valid(Now()) && !dead
      modifies this
      ensures Valid(Now()) && After(old(Now()), log) == Some(Now()) && Ticks(log) == []
      ensures dead && accepting == old(accepting) && wire !in byResultFd && log == [Dies]
    {
      hide Valid;
      TablesKnown(Now());
      StepKeepsValid(Now(), Dies);
      OneStep(Now(), Dies);
      Raise();
      log := [Dies];
    }

    method Complain() returns (ghost log: seq<Input>)
      requires Valid(Now()) && !dead && accepting
      modifies this
      ensures Valid(Now()) && After(old(Now()), log) == Some(Now()) && Ticks(log) == []
      ensures !dead && accepting && wire !in byResultFd && log == [Unknown]
    {
      hide Valid;
      TablesKnown(Now());
      StepKeepsValid(Now(), Unknown);
      OneStep(Now(), Unknown);
      Send(Complaint);
      log := [Unknown];
    }

    method Obey(command: Command) returns (more: bool, ghost log: seq<Input>)
      requires Valid(Now()) && !dead && accepting && Arrives(Now(), F.GotFrame(F.Received(command), []))
      modifies this
      ensures Valid(Now()) && After(old(Now()), log) == Some(Now()) && Ticks(log) == []
      ensures !dead && accepting && wire !in byResultFd
      ensures !more <==> command.ShutdownMessage?
      ensures Commanded(command, log)
    {
      hide Valid, Held;
      ghost var before := Now();
      more, log := true, [];
      RunNothing(Now());
      match command {
        case ExecOf(id, child) =>
          var inherited := Exec(id, child);
          ghost var i := if child.None? then ExecFails(id) else PythonAgent.Exec(id, child.value.0, child.value.1, inherited);
          OneStep(before, i);
          log := [i];
        case GoOf(id) =>
          Release(id);
          OneStep(before, Go(id));
          log := [Go(id)];
        case CancelOf(id) =>
          CancelRequest(id);
          OneStep(before, PythonAgent.Cancel(id));
          log := [PythonAgent.Cancel(id)];
        case PingMessage =>
        case OtherMessage => log := Complain();
        case ShutdownMessage => more := false;
      }
      TablesKnown(Now());
    }

    /** The descriptors `serve` waits on. */
    method Watch() returns (watch: seq<Fd>)
      requires wire !in byResultFd
      ensures Distinct(watch) && (forall fd | fd in watch :: fd in byResultFd || (fd == wire && accepting))
      ensures forall fd | fd in byResultFd :: fd in watch
      ensures OnlyLast(watch, wire)
      ensures accepting ==> wire in watch
    {
      watch := [];
      var left := byResultFd.Keys;
      while left != {}
        invariant left <= byResultFd.Keys && Distinct(watch)
        invariant forall fd | fd in watch :: fd in byResultFd && fd !in left
        invariant forall fd | fd in byResultFd && fd !in left :: fd in watch
        decreases left
      {
        var fd :| fd in left;
        left := left - {fd};
        watch := watch + [fd];
      }
      assert wire !in watch;
      if accepting { watch := watch + [wire]; }
    }

    /** One descriptor's turn: the control socket has a message, a result pipe is read. */
    method TakeTurn(fd: Fd, turn: Turn) returns (ghost log: seq<Input>)
      requires Valid(Now()) && !dead && (fd in byResultFd || (fd == wire && accepting))
      modifies this
      ensures Valid(Now()) && After(old(Now()), log) == Some(Now()) && Ticks(log) == []
      ensures fd != wire ==> accepting == old(accepting)
      ensures fd != wire ==> forall other | other in old(byResultFd) && other != fd :: other in byResultFd
      ensures Turned(old(Now()), fd, turn, log)
    {
      hide Valid, Held, Enabled, Effect, After, Turned, Obeyed, Possible;
      ghost var step, stop: seq<Input> := [], [];
      log := Children(turn.children);
      ghost var kids := log;
      ghost var before := Now();
      TablesKnown(before);
      if fd != wire {
        Collect(fd, turn.read);
        ReadStep(before, fd, turn.read);
        RunsCompose(old(Now()), log, [ReadInput(before, fd, turn.read)]);
        step := [ReadInput(before, fd, turn.read)];
        log := log + step;
      } else if Arrives(Now(), turn.message) {
        var more: bool;
        more, step := HandleMessage(turn.message);
        RunsCompose(old(Now()), log, step);
        log := log + step;
        if !more && !dead {
          ghost var t := Now();
          StopStep(old(Now()), log, t);
          StepKeepsValid(t, Stop);
          StopEffect(t);
          accepting := false;
          stop := [Stop];
          log := log + stop;
        }
      }
      assert log == kids + step + stop;
      TurnedBy(old(Now()), fd, turn, kids, step, stop);
    }

    /** One batch. Every descriptor in it is still registered when its turn comes. */
    method Batch(ready: seq<Fd>, turns: Fd -> Turn) returns (ghost log: seq<Input>, ghost done: nat)
      requires Valid(Now()) && !dead && Distinct(ready)
      requires forall fd | fd in ready :: fd in byResultFd || (fd == wire && accepting)
      requires OnlyLast(ready, wire)
      modifies this
      ensures Valid(Now()) && After(old(Now()), log) == Some(Now()) && Ticks(log) == []
      ensures done <= |ready| && Taken(old(Now()), ready[..done], turns, log) && (dead || done == |ready|)
    {
      hide Valid, After, Turned, Taken;
      log, done := [], 0;
      RunNothing(Now());
      TakenNone(Now(), turns);
      assert ready[..0] == [][..0];
      for k := 0 to |ready|
        invariant Valid(Now()) && !dead && After(old(Now()), log) == Some(Now()) && Ticks(log) == []
        invariant done == k && Taken(old(Now()), ready[..k], turns, log)
        invariant forall j | k <= j < |ready| :: ready[j] in byResultFd || (ready[j] == wire && accepting)
      {
        ghost var step := TakeTurn(ready[k], turns(ready[k]));
        RunsCompose(old(Now()), log, step);
        TakenOneMore(old(Now()), ready[..k], turns, log, ready[k], step);
        assert ready[..k + 1] == ready[..k] + [ready[k]];
        log, done := log + step, k + 1;
        if dead { return; }
      }
    }

    /** One pass of the loop: wait, beat if a beat is due, and deal with the batch. A pass
        wakes when `select` says, or when the next beat is due; it beats exactly when it
        wakes no earlier than that; and whatever of what it waits on is readable has its turn. */
    method TakePass(pass: Pass, start: nat, due: nat) returns (now: nat, beat: Option<Beating>, ghost log: seq<Input>)
      requires Valid(Now()) && !dead && !pass.Broken? && (accepting || inflight != map[])
      modifies this
      ensures Valid(Now()) && After(old(Now()), log) == Some(Now())
      ensures Ticks(log) == if beat.Some? then [beat.value.round] else []
      ensures var woken := Wakes(start, due, pass.delay);
              && (beat.Some? <==> pass.Woken? && due <= woken)
              && (beat.Some? ==> beat.value.start == woken && beat.value.finish == woken + pass.beating)
              && (pass.Interrupted? ==> now == woken && log == [])
              && (beat.Some? ==> beat.value.finish <= now <= beat.value.finish + pass.working)
              && (pass.Woken? && beat.None? ==> woken <= now <= woken + pass.working)
      ensures pass.Woken? ==>
              exists watch: seq<Fd>, n: nat ::
                && IsWatch(old(Now()), watch) && n <= |Filter(watch, pass.readable)|
                && BeatThenBatch(old(Now()), beat, Filter(watch, pass.readable)[..n], pass.turns, log)
                && (dead || n == |Filter(watch, pass.readable)|)
    {
      hide Valid, After, Enabled, Effect, Ticks, Taken, Filter, OnlyLast;
      log, beat := [], None;
      RunNothing(Now());
      TablesKnown(Now());
      var watch := Watch();
      assert watch != [] && IsWatch(Now(), watch);
      now := start + Min(pass.delay, if start < due then due - start else 0);
      if pass.Interrupted? { return; }
      ghost var begun := Now();
      if now >= due {
        var round := Heartbeat();
        TickStep(old(Now()), [], round);
        log := [] + [Tick(round)];
        beat := Some(Beating(now, now + pass.beating, round));
        now := now + pass.beating;
      }
      ghost var first := log;
      var ready := Filter(watch, pass.readable);
      ghost var n := 0;
      if ready != [] {
        FilterKeepsLast(watch, pass.readable, wire);
        ghost var step;
        step, n := Batch(ready, pass.turns);
        RunsCompose(old(Now()), log, step);
        log := log + step;
        now := now + pass.working;
        BatchAfterBeat(begun, beat, ready[..n], pass.turns, first, step);
      } else {
        assert ready[..n] == [][..0];
        TakenNone(if beat.Some? then After(begun, first).value else begun, pass.turns);
        BatchAfterBeat(begun, beat, ready[..n], pass.turns, first, []);
        assert first + [] == log;
      }
    }

    /** `serve`. The batches are whatever `select` finds readable among what it waits on;
        `log` is the run of steps the loop took, so what holds of every run holds here.

        When the loop ends by its own condition every EXEC has had exactly one answer; an
        exception that escapes a handler ends it otherwise.
        While it loops, no heartbeat round starts later than the period plus one pass's
        work after the last one finished, and each names the requests GO has released. */
    method Serve(passes: seq<Pass>, begin: nat, work: nat)
      returns (left: bool, now: nat, beats: seq<Beating>, taken: nat, ghost log: seq<Input>)
      requires Valid(Now()) && !dead
      requires forall p | p in passes && p.Woken? :: p.beating + p.working <= work
      modifies this
      ensures Valid(Now()) && After(old(Now()), log) == Some(Now())
      ensures Ticks(log) == Rounds(beats)
      ensures Punctual(begin, beats, work) && Within(Before(begin, beats, |beats|), now, 2_000, work)
      ensures left <==> !dead && !accepting && inflight == map[]
      ensures taken <= |passes| && (forall k | 0 <= k < taken && passes[k].Broken? :: k == taken - 1)
      ensures left || dead || taken == |passes| || (taken > 0 && passes[taken - 1].Broken?)
      ensures left ==> forall id :: Execs(trace, id) == Answers(trace, id)
    {
      hide Valid, After, Ticks, Execs, Answers, Punctual;
      NoBeats(begin, work);
      now, beats, log, left, taken := begin, [], [], false, 0;
      RunNothing(Now());
      var due := now + HEARTBEAT;
      while (accepting || inflight != map[]) && taken < |passes|
        invariant taken <= |passes| && Valid(Now()) && !dead
        invariant forall k | 0 <= k < taken :: !passes[k].Broken?
        invariant After(old(Now()), log) == Some(Now()) && Ticks(log) == Rounds(beats)
        invariant due == Before(begin, beats, |beats|) + HEARTBEAT && now <= due + work
        invariant Punctual(begin, beats, work)
        decreases |passes| - taken
      {
        var pass := passes[taken];
        taken := taken + 1;
        if pass.Broken? { return; }
        ghost var step;
        var beat: Option<Beating>;
        now, beat, step := TakePass(pass, now, due);
        RunsCompose(old(Now()), log, step);
        log := log + step;
        if beat.Some? {
          PunctualOneMore(begin, beats, beat.value, work);
          beats := beats + [beat.value];
          RoundsOneMore(beats);
          due := beat.value.finish + HEARTBEAT;
        }
        if dead { return; }
      }
      left := !accepting && inflight == map[];
      if left { AllAnswered(Now()); }
    }
  }
}
