/** Runs of the Python agent and its children, in any interleaving: who holds which
    descriptor, who is answered, who may enter a handler, and what the children's own
    bytes can do.
 */
module PythonRuns {

  import F = Framing
  import opened Protocol
  import opened PythonAgent
  import opened Wrappers

  // --- Runs -------------------------------------------------------------------

  function Initial(canFork: bool, wire: Fd, read: Reader): State {
    State(canFork, wire, read, map[wire := Control], map[], map[], true, false, None, map[], [], {}, [])
  }

  lemma InitialIsValid(canFork: bool, wire: Fd, read: Reader)
    ensures Valid(Initial(canFork, wire, read))
  {
  }

  /** Where a run leads, or `None` when the supervisor or the operating system would not
      produce it. */
  function After(s: State, inputs: seq<Input>): Option<State>
    decreases |inputs|
  {
    if inputs == [] then Some(s)
    else if !Enabled(s, inputs[0]) then None
    else After(Effect(s, inputs[0]), inputs[1..])
  }

  lemma {:induction false} RunKeepsValid(s: State, inputs: seq<Input>)
    requires Valid(s)
    ensures var t := After(s, inputs); t.Some? ==> Valid(t.value)
    decreases |inputs|
  {
    hide Valid, Enabled, Effect;
    if inputs != [] && Enabled(s, inputs[0]) {
      StepKeepsValid(s, inputs[0]);
      RunKeepsValid(Effect(s, inputs[0]), inputs[1..]);
    }
  }

  /** A state some run of the agent and its children leads to. */
  ghost predicate Reached(s: State) {
    exists canFork, wire, read, inputs :: After(Initial(canFork, wire, read), inputs) == Some(s)
  }

  lemma ReachedIsValid(s: State)
    requires Reached(s)
    ensures Valid(s)
  {
    hide Valid, Initial, After;
    var canFork, wire, read, inputs :| After(Initial(canFork, wire, read), inputs) == Some(s);
    InitialIsValid(canFork, wire, read);
    RunKeepsValid(Initial(canFork, wire, read), inputs);
  }

  // --- Descriptors and ends of file -------------------------------------------

  /** Whatever the interleaving, a process that is past its set-up holds only its own
      request's ends: no other request's pipe, and not the control socket. */
  lemma HoldsOnlyItsOwn(s: State, pid: Pid, fd: Fd)
    requires Reached(s) && pid in s.procs && !s.procs[pid].stage.SettingUp? && fd in s.procs[pid].fds
    ensures s.procs[pid].fds[fd] in {ResultW(s.procs[pid].req), GoR(s.procs[pid].req)}
  {
    ReachedIsValid(s);
    hide Reached;
    assert Own(s.procs[pid], fd, s.procs[pid].fds[fd]);
  }

  /** A result pipe is at end of file exactly when the request's own child and that
      child's descendants have let go of it; a child before its handler has not. */
  lemma ResultPipeEnds(s: State, q: nat)
    requires Reached(s)
    ensures Closed(s, ResultW(q)) <==> forall pid | pid in s.procs && s.procs[pid].req == q :: !Holds(s.procs[pid], ResultW(q))
    ensures (forall pid | pid in s.procs :: s.procs[pid].req != q) ==> Closed(s, ResultW(q))
    ensures (exists pid :: pid in s.procs && s.procs[pid].req == q && !s.procs[pid].stage.InHandler?) ==> !Closed(s, ResultW(q))
  {
    ReachedIsValid(s);
    hide Reached;
    forall pid | pid in s.procs && Holds(s.procs[pid], ResultW(q)) ensures s.procs[pid].req == q {
      assert Clean(s.procs[pid]);
    }
    forall fd | fd in s.fds ensures s.fds[fd] != ResultW(q) {
      if !s.dead { assert Accounted(s, fd, s.fds[fd]); }
    }
    forall pid | pid in s.procs && s.procs[pid].req == q && !s.procs[pid].stage.InHandler?
      ensures Holds(s.procs[pid], ResultW(q))
    {
      assert Clean(s.procs[pid]);
      assert s.procs[pid].resultFd in s.procs[pid].fds;
    }
  }

  /** Once the agent has let go of a go pipe and no child is still setting up, whoever
      waits on it waits no longer: it enters if GO was written and leaves if not. */
  lemma BarrierResolves(s: State, pid: Pid)
    requires Reached(s) && pid in s.procs && s.procs[pid].stage.AtBarrier?
    requires s.dead || !InFlightNumber(s, s.procs[pid].req) || s.inflight[s.ids[s.procs[pid].req]].goFd.None?
    requires forall other | other in s.procs :: !s.procs[other].stage.SettingUp?
    ensures AtGo(s, s.procs[pid]) == if s.procs[pid].req in s.sent then Enters else Leaves
  {
    ReachedIsValid(s);
    hide Reached;
    var q := s.procs[pid].req;
    forall other | other in s.procs ensures !Holds(s.procs[other], GoW(q)) {
      forall fd | fd in s.procs[other].fds ensures s.procs[other].fds[fd] != GoW(q) { HoldsOnlyItsOwn(s, other, fd); }
    }
    forall fd | fd in s.fds ensures s.fds[fd] != GoW(q) {
      if !s.dead { assert Accounted(s, fd, s.fds[fd]); }
    }
  }

  /** Nothing will ever be written to the go pipe of request number `q`. */
  predicate NeverSent(s: State, q: nat) {
    q < |s.ids| && q !in s.sent && (s.dead || !InFlightNumber(s, q) || s.inflight[s.ids[q]].goFd.None?)
  }

  lemma GoNeverSends(s: State, id: Id, q: nat)
    requires Tables(s) && NeverSent(s, q) && !s.dead
    ensures NeverSent(OnGo(s, id), q)
  {
    hide Closed;
    if id in s.inflight {
      KnownRequest(s, id);
      hide Tables;
      UpdateKeepsNumber(s, id, s.inflight[id].(goFd := None), q);
    }
  }

  lemma CancelNeverSends(s: State, id: Id, q: nat)
    requires Tables(s) && NeverSent(s, q) && !s.dead
    ensures NeverSent(OnCancel(s, id), q)
  {
    if id in s.inflight {
      hide Tables;
      UpdateKeepsNumber(s, id, s.inflight[id].(cancelled := true), q);
    }
  }

  lemma EofNeverSends(s: State, fd: Fd, q: nat)
    requires Tables(s) && NeverSent(s, q) && fd in s.byResultFd && !s.dead
    ensures NeverSent(OnEof(s, fd), q)
  {
    EofKeepsNumber(s, fd, q);
    hide Tables, AnswerOf;
  }

  lemma DataNeverSends(s: State, fd: Fd, bytes: seq<int>, q: nat)
    requires NeverSent(s, q) && fd in s.byResultFd && s.byResultFd[fd] in s.inflight && !s.dead
    ensures NeverSent(OnData(s, fd, bytes), q)
  {
    var id := s.byResultFd[fd];
    var r := s.inflight[id];
    UpdateKeepsNumber(s, id, r.(chunks := F.Ending(r.chunks + bytes, s.read), got := r.got + bytes), q);
    hide F.Chunks, F.Ending, F.AllFit, F.Fitting;
  }

  /** A request whose go pipe the agent closed without writing is not released next. */
  lemma NeverSentLater(s: State, i: Input, q: nat)
    requires Valid(s) && Enabled(s, i) && NeverSent(s, q)
    ensures NeverSent(Effect(s, i), q)
  {
    hide Procs, Held, Follows, AgentFds, Child;
    if ChildStep(i) {
      ChildKeepsProcs(s, i);
      hide Effect, Enabled, Tables;
    } else if Quiet(i) {
      QuietChanges(s, i);
      hide Effect, Enabled, Tables;
    } else {
      match i
      case Exec(id, pid, pipes, inherited) => ExecKeepsNumbers(s, id, pid, pipes, inherited, q); hide InFlightNumber;
      case Eof(fd) => hide OnEof, NeverSent; EofNeverSends(s, fd, q);
      case Data(fd, bytes) => hide OnData, NeverSent; DataNeverSends(s, fd, bytes, q);
      case Go(id) => hide OnGo, NeverSent; GoNeverSends(s, id, q);
      case Cancel(id) => hide OnCancel, NeverSent; CancelNeverSends(s, id, q);
    }
  }

  // --- Continuations ----------------------------------------------------------

  /** If the agent closes a go pipe without writing to it, then whatever happens next no
      process of that request ever enters its handler. */
  lemma {:induction false} NeverEnters(s: State, inputs: seq<Input>, q: nat)
    requires Valid(s) && NeverSent(s, q)
    ensures var t := After(s, inputs);
            t.Some? ==> NeverSent(t.value, q) && forall pid | pid in t.value.procs && t.value.procs[pid].req == q ::
              !t.value.procs[pid].stage.InHandler?
    decreases |inputs|
  {
    hide Valid, NeverSent, Enabled, Effect;
    if inputs == [] {
      NoneInHandler(s, q);
    } else if Enabled(s, inputs[0]) {
      StepKeepsValid(s, inputs[0]);
      NeverSentLater(s, inputs[0], q);
      NeverEnters(Effect(s, inputs[0]), inputs[1..], q);
    }
  }

  lemma NoneInHandler(s: State, q: nat)
    requires Valid(s) && NeverSent(s, q)
    ensures forall pid | pid in s.procs && s.procs[pid].req == q :: !s.procs[pid].stage.InHandler?
  {
    hide Tables, AgentFds, PipesOk, LostOk, Follows, Clean;
  }

  // --- Answers ----------------------------------------------------------------

  /** The events a step adds to the run. */
  function Adds(s: State, i: Input): seq<Event>
    requires Enabled(s, i)
  {
    match i
    case Exec(id, _, _, _) => [GotExec(id), Forked(id)]
    case ExecFails(id) => [GotExec(id), Refused(id)]
    case Go(id) => [GotGo(id)]
    case Unknown => [Complaint]
    case Data(fd, bytes) => Forwarded(F.Fitting(Arriving(s, fd, bytes), Fits))
    case Eof(fd) =>
      var id := s.byResultFd[fd];
      var answer := AnswerOf(id, s.inflight[id].chunks, s.read, s.inflight[id].cancelled);
      if answer.Some? then [answer.value] else []
    case Tick(round) => Beats(round)
    case Reads(pid) => if AtGo(s, s.procs[pid]) == Enters then [Entered(s.procs[pid].id)] else []
    case _ => []
  }

  lemma PipeAdds(s: State, i: Input)
    requires Enabled(s, i) && (i.Data? || i.Eof?)
    ensures Effect(s, i).trace == s.trace + Adds(s, i)
  {
    hide Held, AnswerOf, F.Chunks, F.Fitting, F.Ending, F.AllFit;
    assert s.trace + [] == s.trace;
  }

  lemma StepAdds(s: State, i: Input)
    requires Enabled(s, i)
    ensures Effect(s, i).trace == s.trace + Adds(s, i)
  {
    if i.Data? || i.Eof? {
      PipeAdds(s, i);
    } else {
      hide Held, AnswerOf, IsOpenFds, Fresh, Child, OnData, OnEof, IsRound;
    }
  }

  /** The end of file at which nothing can be sent for the child's last frame, of all the
      bytes it wrote. */
  predicate Raises(s: State, i: Input) {
    && i.Eof? && Enabled(s, i)
    && var r := s.inflight[s.byResultFd[i.fd]];
       Unsendable(s.byResultFd[i.fd], F.Ending(r.got, s.read), s.read, r.cancelled)
  }

  /** What the end of a request's pipe sends, from all the bytes its child wrote: what
      follows the leading CHUNKs decides. */
  lemma EndSays(s: State, fd: Fd)
    requires Valid(s) && Enabled(s, Eof(fd))
    ensures var id, r := s.byResultFd[fd], s.inflight[s.byResultFd[fd]];
            Effect(s, Eof(fd)).trace == s.trace + EndOf(id, F.Ending(r.got, s.read), s.read, r.cancelled)
  {
    var id, r := s.byResultFd[fd], s.inflight[s.byResultFd[fd]];
    assert r.chunks == F.Ending(r.got, s.read);
    AnswerIsTerminal(id, r.chunks, s.read, r.cancelled);
    assert s.trace + [] == s.trace;
    hide AnswerOf, EndOf, F.Ending, Valid;
  }

  lemma RaisingStep(s: State, i: Input)
    requires Valid(s) && Enabled(s, i)
    ensures Effect(s, i).lost.Some? <==> s.lost.Some? || Raises(s, i)
    ensures Raises(s, i) ==> Effect(s, i).lost.value.id == s.byResultFd[i.fd]
  {
    hide F.Decode, F.Ending, Tables, AgentFds, Procs, SentOk, Follows, AnswerOf, Unsendable;
    if i.Eof? {
      var r := s.inflight[s.byResultFd[i.fd]];
      assert r.chunks == F.Ending(r.got, s.read);
      AnswerIsTerminal(s.byResultFd[i.fd], r.chunks, s.read, r.cancelled);
    } else {
      LostOnlyByEof(s, i);
      hide Effect;
    }
  }

  lemma DataLosesNothing(s: State, fd: Fd, bytes: seq<int>)
    requires fd in s.byResultFd && s.byResultFd[fd] in s.inflight
    ensures OnData(s, fd, bytes).lost == s.lost
  {
    hide F.Fitting, F.AllFit, F.Deep, F.Ending, F.Chunks;
  }

  lemma LostOnlyByEof(s: State, i: Input)
    requires Enabled(s, i) && !i.Eof?
    ensures Effect(s, i).lost == s.lost
  {
    hide Held, IsOpenFds, Fresh, Child, F.Bytes, IsRound, InFlightNumber, AnswerOf, OnEof, OnData, AtGo;
    if i.Data? { DataLosesNothing(s, i.fd, i.bytes); }
  }

  /** For some child's last frame nothing can be sent in the run. */
  predicate RunRaises(s: State, inputs: seq<Input>)
    decreases |inputs|
  {
    inputs != [] && Enabled(s, inputs[0]) && (Raises(s, inputs[0]) || RunRaises(Effect(s, inputs[0]), inputs[1..]))
  }

  lemma {:induction false} LostIff(s: State, inputs: seq<Input>)
    requires Valid(s) && After(s, inputs).Some?
    ensures After(s, inputs).value.lost.Some? <==> s.lost.Some? || RunRaises(s, inputs)
    decreases |inputs|
  {
    hide Valid, Enabled, Effect, Raises;
    if inputs != [] {
      StepKeepsValid(s, inputs[0]);
      RaisingStep(s, inputs[0]);
      LostIff(Effect(s, inputs[0]), inputs[1..]);
    }
  }

  lemma AnswersOfValid(s: State, id: Id)
    requires Valid(s)
    ensures Execs(s.trace, id) == Answers(s.trace, id) +
            (if id in s.inflight || (s.lost.Some? && s.lost.value.id == id) then 1 else 0)
    ensures Execs(s.trace, id) == Forks(s.trace, id) + Unstarted(s.trace, id)
    ensures s.lost.Some? ==> s.lost.value.id !in s.inflight
  {
    hide Tables, AgentFds, Procs, SentOk, PipesOk;
    assert Watch(s.trace, id) == Some(PhaseOf(s, id));
    OneAnswerEach(s.trace, id);
    hide Execs, Answers, Forks, Unstarted, Watch, Follows;
  }

  /** After any run `_inflight` and `_by_result_fd` are inverse bijections, each EXEC has
      had one FORKED unless it was refused without a process, and each EXEC whose request
      is not in flight has had exactly one answer: for every id, exactly when there was
      no child for whose last frame nothing can be sent. */
  lemma EveryRun(canFork: bool, wire: Fd, read: Reader, inputs: seq<Input>)
    requires After(Initial(canFork, wire, read), inputs).Some?
    ensures var s := After(Initial(canFork, wire, read), inputs).value;
            && (forall id :: Execs(s.trace, id) == Answers(s.trace, id) +
                  (if id in s.inflight || (s.lost.Some? && s.lost.value.id == id) then 1 else 0))
            && ((forall id | id !in s.inflight :: Execs(s.trace, id) == Answers(s.trace, id)) <==>
                !RunRaises(Initial(canFork, wire, read), inputs))
            && (forall id :: Execs(s.trace, id) == Forks(s.trace, id) + Unstarted(s.trace, id))
            && (forall id | id in s.inflight ::
                  s.inflight[id].resultFd in s.byResultFd && s.byResultFd[s.inflight[id].resultFd] == id)
            && (forall fd | fd in s.byResultFd :: s.byResultFd[fd] in s.inflight && s.inflight[s.byResultFd[fd]].resultFd == fd)
  {
    hide Valid, After, Initial, RunRaises, Execs, Answers, Forks, Unstarted;
    var s0 := Initial(canFork, wire, read);
    InitialIsValid(canFork, wire, read);
    RunKeepsValid(s0, inputs);
    LostIff(s0, inputs);
    NothingLost(canFork, wire, read);
    var s := After(s0, inputs).value;
    forall id ensures Execs(s.trace, id) == Answers(s.trace, id) +
                        (if id in s.inflight || (s.lost.Some? && s.lost.value.id == id) then 1 else 0)
              ensures Execs(s.trace, id) == Forks(s.trace, id) + Unstarted(s.trace, id)
    {
      AnswersOfValid(s, id);
    }
    if s.lost.Some? { AnswersOfValid(s, s.lost.value.id); }
    TablesOfValid(s);
  }

  lemma NothingLost(canFork: bool, wire: Fd, read: Reader)
    ensures Initial(canFork, wire, read).lost.None?
  {
  }

  lemma TablesOfValid(s: State)
    requires Valid(s)
    ensures forall id | id in s.inflight ::
              s.inflight[id].resultFd in s.byResultFd && s.byResultFd[s.inflight[id].resultFd] == id
    ensures forall fd | fd in s.byResultFd :: s.byResultFd[fd] in s.inflight && s.inflight[s.byResultFd[fd]].resultFd == fd
  {
    hide AgentFds, Procs, SentOk, PipesOk, LostOk, Follows;
  }

  /** A request whose answer raises is out of the tables, unanswered, and the agent that
      served it has ended. */
  lemma RaisingLosesTheAnswer(s: State, i: Input)
    requires Valid(s) && Raises(s, i)
    ensures var id, t := s.byResultFd[i.fd], Effect(s, i);
            && t.dead && id !in t.inflight && Execs(t.trace, id) == Answers(t.trace, id) + 1
  {
    StepKeepsValid(s, i);
    RaisingStep(s, i);
    var id, t := s.byResultFd[i.fd], Effect(s, i);
    AnswersOfValid(t, id);
    assert LostOk(t);
    hide Valid, Effect, Raises, Execs, Answers;
  }

  // Runs in which that happens: the child of `a` writes one frame and exits.

  /** The body of a frame for which nothing can be sent. */
  predicate Fatal(body: seq<int>, read: Reader) {
    && F.Bytes(body) && |body| <= F.MAX_FRAME_BYTES
    && !F.IsChunk(read(body)) && !read(body).TooDeep?
    && Unsendable("a", F.Frame(body), read, false)
  }

  const WORKER := Proc(0, "a", true, true, 5, 6, AtBarrier, map[5 := ResultW(0), 6 := GoR(0)])

  const REQUEST := InFlight(0, 1, 4, Some(7), false, [], [])

  function Started(read: Reader): State {
    State(false, 3, read, map[3 := Control, 4 := ResultR(0), 7 := GoW(0)], map["a" := REQUEST], map[4 := "a"],
          true, false, None, map[1 := WORKER], ["a"], {}, [GotExec("a"), Forked("a")])
  }

  function Running(read: Reader): State {
    State(false, 3, read, map[3 := Control, 4 := ResultR(0)], map["a" := REQUEST.(goFd := None)], map[4 := "a"],
          true, false, None, map[1 := WORKER.(stage := InHandler)], ["a"], {0},
          [GotExec("a"), Forked("a"), GotGo("a"), Entered("a")])
  }

  function Gone(read: Reader, body: seq<int>): State {
    var frame := F.Frame(body);
    Running(read).(procs := map[], inflight := map["a" := REQUEST.(goFd := None, chunks := frame, got := frame)])
  }

  function Raising(body: seq<int>): seq<Input> {
    [Exec("a", 1, Pipes(4, 5, 6, 7), [])] + ([Go("a")] + ([Reads(1)] + ([Data(4, F.Frame(body))] + ([Exits(1)] + ([Eof(4)] + [])))))
  }

  lemma Unroll(s: State, i: Input, rest: seq<Input>)
    requires Enabled(s, i)
    ensures After(s, [i] + rest) == After(Effect(s, i), rest)
  {
    assert ([i] + rest)[1..] == rest;
    hide Enabled, Effect;
  }

  lemma RaisingStarts(read: Reader, rest: seq<Input>)
    ensures After(Initial(false, 3, read), [Exec("a", 1, Pipes(4, 5, 6, 7), [])] + rest) == After(Started(read), rest)
  {
    var s, exec := Initial(false, 3, read), Exec("a", 1, Pipes(4, 5, 6, 7), []);
    assert Enabled(s, exec);
    assert Effect(s, exec).trace == Started(read).trace;
    assert Effect(s, exec) == Started(read);
    hide Enabled, Effect;
    Unroll(s, exec, rest);
  }

  function Let(read: Reader): State {
    Started(read).(fds := map[3 := Control, 4 := ResultR(0)], inflight := map["a" := REQUEST.(goFd := None)], sent := {0},
                   trace := [GotExec("a"), Forked("a"), GotGo("a")])
  }

  lemma WorkerHolds()
    ensures Holds(WORKER, GoR(0)) && !Holds(WORKER, GoW(0))
  {
    var fds := WORKER.fds;
    assert fds == map[5 := ResultW(0), 6 := GoR(0)];
    assert 6 in fds && fds[6] == GoR(0);
  }

  lemma RaisingGoes(read: Reader)
    ensures Enabled(Started(read), Go("a")) && Effect(Started(read), Go("a")) == Let(read)
  {
    var s, t := Started(read), Let(read);
    WorkerHolds();
    hide Holds, WORKER;
    assert s.procs == map[1 := WORKER];
    assert 1 in s.procs && Holds(s.procs[1], GoR(0));
    assert Held(s, GoR(0));
    hide Held;
    assert OnGo(s, "a").trace == t.trace && OnGo(s, "a").fds == t.fds;
  }

  lemma GoWIsClosed(read: Reader)
    ensures Closed(Let(read), GoW(0))
  {
    WorkerHolds();
    hide Holds, WORKER;
    assert Let(read).procs == map[1 := WORKER] && Let(read).fds == map[3 := Control, 4 := ResultR(0)];
  }

  lemma RaisingEnters(read: Reader)
    ensures Enabled(Let(read), Reads(1)) && Effect(Let(read), Reads(1)) == Running(read)
  {
    var t := Let(read);
    GoWIsClosed(read);
    hide Held;
    assert AtGo(t, WORKER) == Enters;
    hide AtGo;
    assert OnReads(t, 1).trace == Running(read).trace;
  }

  lemma RaisingRuns(read: Reader, rest: seq<Input>)
    ensures After(Started(read), [Go("a")] + ([Reads(1)] + rest)) == After(Running(read), rest)
  {
    hide Effect, Enabled;
    RaisingGoes(read);
    RaisingEnters(read);
    Unroll(Let(read), Reads(1), rest);
    Unroll(Started(read), Go("a"), [Reads(1)] + rest);
  }

  lemma WholeFrame(read: Reader, body: seq<int>)
    requires F.Bytes(body) && |body| <= F.MAX_FRAME_BYTES && !F.IsChunk(read(body)) && !read(body).TooDeep?
    ensures var frame := F.Frame(body);
            && F.Bytes(frame) && F.Chunks(frame, read) == [] && F.Ending(frame, read) == frame && !F.Deep(frame, read)
            && F.Decode(frame, read) == match read(body)
                                        case Object(kind, m) => F.Answer(kind, m)
                                        case NotJson => F.Nothing
                                        case _ => F.Raises
  {
    F.FirstOfFrames(body, []);
    F.SizeOfHeader(|body|, body);
    F.BytesOfMore(F.Header(|body|), body);
    assert F.Frame(body) + [] == F.Frame(body);
    assert F.Frame(body)[F.HEADER..] == body;
  }

  lemma RaisingWrites(read: Reader, body: seq<int>, rest: seq<Input>)
    requires Fatal(body, read)
    ensures After(Running(read), [Data(4, F.Frame(body))] + ([Exits(1)] + rest)) == After(Gone(read, body), rest)
  {
    WholeFrame(read, body);
    hide F.Chunks, F.Ending, F.Bytes, F.Frame, F.Deep, Unsendable, F.Decode;
    var s, frame := Running(read), F.Frame(body);
    assert [] + frame == frame;
    assert Arriving(s, 4, frame) == [] && F.AllFit<Reply>([], Fits) && F.Fitting<Reply>([], Fits) == [];
    assert s.trace + Forwarded([]) == s.trace;
    var t := s.(inflight := map["a" := REQUEST.(goFd := None, chunks := frame, got := frame)]);
    assert Effect(s, Data(4, frame)) == t;
    assert Effect(t, Exits(1)) == Gone(read, body);
    hide Effect;
    Unroll(t, Exits(1), rest);
    Unroll(s, Data(4, frame), [Exits(1)] + rest);
  }

  lemma GoneRaises(read: Reader, body: seq<int>)
    requires Fatal(body, read)
    ensures Raises(Gone(read, body), Eof(4))
  {
    WholeFrame(read, body);
    hide F.Decode, F.Ending, F.Frame, Unsendable;
    var s := Gone(read, body);
    assert s.procs == map[] && s.fds == map[3 := Control, 4 := ResultR(0)];
    assert !Held(s, ResultW(0));
  }

  /** The EXEC is then never answered: not in this run, and not in any continuation of it. */
  lemma FatalFrameLoses(read: Reader, body: seq<int>)
    requires Fatal(body, read)
    ensures var t := After(Initial(false, 3, read), Raising(body));
            t.Some? && t.value.dead && "a" !in t.value.inflight && Execs(t.value.trace, "a") == Answers(t.value.trace, "a") + 1
  {
    var end := [Eof(4)] + [];
    var s, frame := Gone(read, body), F.Frame(body);
    GoneRaises(read, body);
    hide Effect, Valid, Raises, Execs, Answers, Started, Running, Initial, F.Frame, Fatal;
    RaisingStarts(read, [Go("a")] + ([Reads(1)] + ([Data(4, frame)] + ([Exits(1)] + end))));
    RaisingRuns(read, [Data(4, frame)] + ([Exits(1)] + end));
    RaisingWrites(read, body, end);
    Unroll(s, Eof(4), []);
    GoneIsValid(read, body);
    RaisingLosesTheAnswer(s, Eof(4));
  }

  /** It is so for the JSON value [] as the child's answer. */
  lemma AnAnswerIsLost(read: Reader)
    requires read([91, 93]).OtherValue?
    ensures var t := After(Initial(false, 3, read), Raising([91, 93]));
            t.Some? && t.value.dead && "a" !in t.value.inflight && Execs(t.value.trace, "a") == Answers(t.value.trace, "a") + 1
  {
    WholeFrame(read, [91, 93]);
    hide F.Frame, F.Decode;
    FatalFrameLoses(read, [91, 93]);
  }

  /** And for an answer that fits a frame as the child wrote it, but is too long when it is
      encoded again, with readings too long for the replacement. */
  lemma ATooLongAnswerIsLost(read: Reader, body: seq<int>)
    requires F.Bytes(body) && |body| <= F.MAX_FRAME_BYTES
    requires read(body).Object? && read(body).kind != "CHUNK"
    requires !AnswerFits(read(body).message, "a", false) && !ReplacementFits(read(body).message, "a", false)
    ensures var t := After(Initial(false, 3, read), Raising(body));
            t.Some? && t.value.dead && "a" !in t.value.inflight && Execs(t.value.trace, "a") == Answers(t.value.trace, "a") + 1
  {
    WholeFrame(read, body);
    hide F.Frame, F.Decode;
    FatalFrameLoses(read, body);
  }

  lemma GoneIsValid(read: Reader, body: seq<int>)
    requires Fatal(body, read)
    ensures Valid(Gone(read, body))
  {
    var frame := F.Frame(body);
    hide Effect, Valid, After, F.Frame, Started, Running, Initial, Gone, Fatal;
    RaisingStarts(read, [Go("a")] + ([Reads(1)] + ([Data(4, frame)] + ([Exits(1)] + []))));
    RaisingRuns(read, [Data(4, frame)] + ([Exits(1)] + []));
    RaisingWrites(read, body, []);
    InitialIsValid(false, 3, read);
    RunKeepsValid(Initial(false, 3, read), [Exec("a", 1, Pipes(4, 5, 6, 7), [])] + ([Go("a")] + ([Reads(1)] + ([Data(4, frame)] + ([Exits(1)] + [])))));
    AfterNothing(Gone(read, body));
  }

  lemma AfterNothing(s: State)
    ensures After(s, []) == Some(s)
  {
  }

  /** A dead agent answers nothing more. */
  lemma {:induction false} DeadIsSilent(s: State, inputs: seq<Input>, id: Id)
    requires s.dead && After(s, inputs).Some?
    ensures var t := After(s, inputs).value; t.dead && Answers(t.trace, id) == Answers(s.trace, id)
    decreases |inputs|
  {
    hide Enabled, Effect, Answers;
    if inputs != [] {
      DeadStep(s, inputs[0], id);
      DeadIsSilent(Effect(s, inputs[0]), inputs[1..], id);
    }
  }

  lemma DeadStep(s: State, i: Input, id: Id)
    requires s.dead && Enabled(s, i)
    ensures Effect(s, i).dead && Answers(Effect(s, i).trace, id) == Answers(s.trace, id)
  {
    hide AtGo;
    StepAdds(s, i);
    assert Adds(s, i) == [] || (exists e :: Adds(s, i) == [e] && e.Entered?);
    if Adds(s, i) == [] {
      assert s.trace + [] == s.trace;
    } else {
      assert (s.trace + Adds(s, i))[..|s.trace|] == s.trace;
    }
  }

  // --- CHUNKs -----------------------------------------------------------------

  /** A read whose CHUNKs carry the id of a request that is not in flight. */
  predicate Strays(s: State, i: Input) {
    && i.Data? && Enabled(s, i)
    && exists k :: 0 <= k < |F.Fitting(Arriving(s, i.fd, i.bytes), Fits)| &&
         F.Fitting(Arriving(s, i.fd, i.bytes), Fits)[k].id !in s.inflight
  }

  lemma {:induction false} ForwardedOpenIff(trace: seq<Event>, messages: seq<Reply>, table: Id -> Phase)
    requires Follows(trace, table)
    ensures ChunksOpen(trace + Forwarded(messages)) <==>
            ChunksOpen(trace) && forall k | 0 <= k < |messages| :: table(messages[k].id) in {Blocked, Released}
  {
    hide Follows, ChunksOpen;
    if messages == [] {
      assert trace + Forwarded(messages) == trace;
    } else {
      var n := |messages| - 1;
      ForwardedOpenIff(trace, messages[..n], table);
      ChunksFollow(trace, messages[..n], table);
      var before := trace + Forwarded(messages[..n]);
      ChunksOneMore(before, Chunk(messages[n].id));
      TableAt(before, table, messages[n].id);
      assert trace + Forwarded(messages) == before + [Chunk(messages[n].id)];
    }
  }

  lemma TableAt(trace: seq<Event>, table: Id -> Phase, id: Id)
    requires Follows(trace, table)
    ensures Watch(trace, id) == Some(table(id))
  {
  }

  lemma OpenIsInFlight(s: State)
    requires Valid(s) && !s.dead
    ensures Follows(s.trace, Phases(s)) && forall id :: Phases(s)(id) in {Blocked, Released} <==> id in s.inflight
  {
    hide Tables, AgentFds, Procs, SentOk, PipesOk, Follows;
  }

  lemma DataStrays(s: State, i: Input)
    requires Valid(s) && Enabled(s, i) && i.Data?
    ensures ChunksOpen(s.trace + Adds(s, i)) <==> ChunksOpen(s.trace) && !Strays(s, i)
  {
    hide Valid, ChunksOpen, Follows, Phases, F.Fitting, Arriving, Forwarded, Held;
    OpenIsInFlight(s);
    ForwardedOpenIff(s.trace, F.Fitting(Arriving(s, i.fd, i.bytes), Fits), Phases(s));
  }

  /** Every CHUNK sent so far named an open request exactly when that was so before the
      step and the step lets none through that does not. */
  lemma StrayIff(s: State, i: Input)
    requires Valid(s) && Enabled(s, i)
    ensures ChunksOpen(Effect(s, i).trace) <==> ChunksOpen(s.trace) && !Strays(s, i)
  {
    StepAdds(s, i);
    if i.Data? {
      hide *;
      DataStrays(s, i);
    } else {
      NoChunks(s, i);
      hide Enabled, Adds, Effect, ChunksOpen, Valid;
      ChunksWithoutChunk(s.trace, Adds(s, i));
    }
  }

  lemma NoChunks(s: State, i: Input)
    requires Enabled(s, i) && !i.Data?
    ensures forall e | e in Adds(s, i) :: !e.Chunk?
  {
    hide F.Decode;
  }

  predicate RunStrays(s: State, inputs: seq<Input>)
    decreases |inputs|
  {
    inputs != [] && Enabled(s, inputs[0]) && (Strays(s, inputs[0]) || RunStrays(Effect(s, inputs[0]), inputs[1..]))
  }

  /** Over a run: the CHUNKs are those of open requests exactly when no child's CHUNK
      carried another id. */
  lemma {:induction false} ChunksIff(s: State, inputs: seq<Input>)
    requires Valid(s) && After(s, inputs).Some?
    ensures ChunksOpen(After(s, inputs).value.trace) <==> ChunksOpen(s.trace) && !RunStrays(s, inputs)
    decreases |inputs|
  {
    hide Valid, Enabled, Effect, Strays, ChunksOpen;
    if inputs != [] {
      StepKeepsValid(s, inputs[0]);
      StrayIff(s, inputs[0]);
      ChunksIff(Effect(s, inputs[0]), inputs[1..]);
    }
  }

  /** In any run, forked or spawned, a child enters its handler only after a GO for its
      request, received while that request was in flight. */
  lemma HandlerWaitsForGo(s: State, id: Id, k: nat) returns (forked: nat, go: nat)
    requires Reached(s) && k < |s.trace| && s.trace[k] == Entered(id)
    ensures forked < go < k && s.trace[forked] == Forked(id) && s.trace[go] == GotGo(id) && Open(s.trace[..k], id, forked)
  {
    ReachedIsValid(s);
    hide Tables, AgentFds, Procs, SentOk, Reached;
    assert Watch(s.trace, id) == Some(PhaseOf(s, id));
    forked, go := EntryFollowsGo(s.trace, id, k);
  }

  /** A descriptor of a `select` batch is still registered when its turn comes: only its
      own end of file takes it out. */
  lemma StaysRegistered(s: State, i: Input, fd: Fd)
    requires Valid(s) && Enabled(s, i) && fd in s.byResultFd && !(i.Eof? && i.fd == fd)
    ensures fd in Effect(s, i).byResultFd && Effect(s, i).byResultFd[fd] == s.byResultFd[fd]
  {
    hide Procs, SentOk, PipesOk, LostOk, Follows, Held, Child, InFlightNumber;
    if i.Exec? {
      FreshPipes(s, i.pipes);
      TablesAreHeld(s, fd);
      hide Tables, AgentFds, Fresh, IsOpenFds;
    } else {
      hide Tables, AgentFds;
      OthersStay(s, i, fd);
    }
  }

  lemma TablesAreHeld(s: State, fd: Fd)
    requires Tables(s) && AgentFds(s) && fd in s.byResultFd
    ensures fd in s.fds
  {
  }

  lemma OthersStay(s: State, i: Input, fd: Fd)
    requires Enabled(s, i) && !i.Exec? && fd in s.byResultFd && !(i.Eof? && i.fd == fd)
    ensures fd in Effect(s, i).byResultFd && Effect(s, i).byResultFd[fd] == s.byResultFd[fd]
  {
    if i.Data? || i.Eof? {
      PipeOthersStay(s, i, fd);
    } else {
      hide Held, Child, OnData, OnEof, IsRound, IsOpenFds, Fresh, InFlightNumber, ReleasedIds;
    }
  }

  lemma PipeOthersStay(s: State, i: Input, fd: Fd)
    requires Enabled(s, i) && (i.Data? || i.Eof?) && fd in s.byResultFd && !(i.Eof? && i.fd == fd)
    ensures fd in Effect(s, i).byResultFd && Effect(s, i).byResultFd[fd] == s.byResultFd[fd]
  {
    hide Held, AnswerOf, F.Chunks, F.Fitting, F.AllFit, F.Ending;
  }

  // --- FORKED, once for each child ----------------------------------------------

  function Starts(trace: seq<Event>): seq<Id> {
    if trace == [] then []
    else
      var e := trace[|trace| - 1];
      Starts(trace[..|trace| - 1]) + (if e.Forked? then [e.id] else [])
  }

  lemma {:induction false} StartsOfMore(trace: seq<Event>, more: seq<Event>)
    ensures Starts(trace + more) == Starts(trace) + Starts(more)
  {
    if more == [] {
      assert trace + more == trace;
    } else {
      var n := |more| - 1;
      StartsOfMore(trace, more[..n]);
      assert (trace + more)[..|trace| + n] == trace + more[..n] && (trace + more)[|trace| + n] == more[n];
      assert Starts(trace) + (Starts(more[..n]) + (if more[n].Forked? then [more[n].id] else [])) ==
             Starts(trace) + Starts(more[..n]) + (if more[n].Forked? then [more[n].id] else []);
    }
  }

  lemma {:induction false} NoStarts(events: seq<Event>)
    requires forall e | e in events :: !e.Forked?
    ensures Starts(events) == []
  {
    if events != [] {
      assert events[|events| - 1] in events;
      NoStarts(events[..|events| - 1]);
    }
  }

  lemma OnlyExecForks(s: State, i: Input)
    requires Enabled(s, i) && !i.Exec?
    ensures Effect(s, i).ids == s.ids && forall e | e in Adds(s, i) :: !e.Forked?
  {
    hide Held, F.Chunks, F.Fitting, F.Ending, F.AllFit, IsRound, IsOpenFds, AnswerOf, Child, Arriving;
    if i.Eof? {
      var id := s.byResultFd[i.fd];
      AnswerIsTerminal(id, s.inflight[id].chunks, s.read, s.inflight[id].cancelled);
    }
  }

  /** A step that starts a child sends one FORKED for it, and no other step sends any. */
  lemma StepKeepsStarts(s: State, i: Input)
    requires Enabled(s, i) && Starts(s.trace) == s.ids
    ensures Starts(Effect(s, i).trace) == Effect(s, i).ids
  {
    hide Starts, Enabled, Child;
    if i.Exec? {
      OneStart(i.id);
      StartsOfMore(s.trace, [GotExec(i.id), Forked(i.id)]);
    } else {
      StepAdds(s, i);
      OnlyExecForks(s, i);
      hide Effect, Adds;
      NoStarts(Adds(s, i));
      StartsOfMore(s.trace, Adds(s, i));
    }
  }

  /** In every run FORKED has been sent exactly once for each child that was started, in
      order of starting. */
  lemma {:induction false} StartsAreForks(s: State, inputs: seq<Input>)
    requires Starts(s.trace) == s.ids && After(s, inputs).Some?
    ensures var t := After(s, inputs).value; Starts(t.trace) == t.ids
    decreases |inputs|
  {
    hide Enabled, Effect, Starts;
    if inputs != [] {
      StepKeepsStarts(s, inputs[0]);
      StartsAreForks(Effect(s, inputs[0]), inputs[1..]);
    }
  }

  lemma ReachedStarts(s: State)
    requires Reached(s)
    ensures Starts(s.trace) == s.ids
  {
    hide After;
    var canFork, wire, read, inputs :| After(Initial(canFork, wire, read), inputs) == Some(s);
    StartsAreForks(Initial(canFork, wire, read), inputs);
  }

  /** In every run an answer is to an EXEC after which exactly one FORKED was sent for the
      request and nothing else that starts or answers it, or is the ERROR of one for which
      no FORKED was sent. */
  lemma AnswerHasItsFork(s: State, id: Id, k: nat) returns (exec: nat, forked: nat)
    requires Reached(s) && k < |s.trace| && s.trace[k] in {Done(id), Refused(id)}
    ensures exec < k && exec < forked && s.trace[exec] == GotExec(id) && OnlyForked(s.trace, id, exec, forked, k)
    ensures if forked < k then s.trace[forked] == Forked(id) else s.trace[k] == Refused(id)
  {
    ReachedIsValid(s);
    hide Tables, AgentFds, Procs, SentOk, PipesOk, LostOk, Reached;
    TableAt(s.trace, Phases(s), id);
    exec, forked := AnswerAfterItsFork(s.trace, id, k);
  }

  /** In every run each DONE answers an EXEC after which exactly one FORKED was sent for
      the request, and nothing else that starts or answers it. */
  lemma DoneHasOneFork(s: State, id: Id, k: nat) returns (exec: nat, forked: nat)
    requires Reached(s) && k < |s.trace| && s.trace[k] == Done(id)
    ensures exec < forked < k && s.trace[exec] == GotExec(id) && s.trace[forked] == Forked(id)
    ensures OnlyForked(s.trace, id, exec, forked, k)
  {
    ReachedIsValid(s);
    hide Tables, AgentFds, Procs, SentOk, PipesOk, LostOk, Reached;
    TableAt(s.trace, Phases(s), id);
    exec, forked := DoneAfterOneFork(s.trace, id, k);
  }

  lemma OneStart(id: Id)
    ensures Starts([GotExec(id), Forked(id)]) == [id]
  {
    assert [GotExec(id), Forked(id)][..1] == [GotExec(id)];
    NoStarts([GotExec(id)]);
  }
}
