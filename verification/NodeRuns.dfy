/** Runs of the Node agent and its workers, in any order of events: who is answered, what
    the workers' messages can do to the agent, and when a request is left in flight for good.
 */
module NodeRuns {

  import F = Framing
  import opened NodeAgent
  import opened NodeQueue
  import opened Protocol
  import opened Wrappers

  // --- Runs -------------------------------------------------------------------

  /** Where a run of events leads, or `None` when the supervisor or the operating system
      would not produce it. */
  function After(s: State, inputs: seq<Input>): Option<State>
    decreases |inputs|
  {
    if inputs == [] then Some(s)
    else if !Enabled(s, inputs[0]) then None
    else After(Step(s, inputs[0]), inputs[1..])
  }

  /** The hypothesis on a run: no worker says `ready` when that is not welcome. */
  predicate Orderly(s: State, inputs: seq<Input>)
    decreases |inputs|
  {
    inputs != [] && Enabled(s, inputs[0]) ==> Proper(s, inputs[0]) && Orderly(Step(s, inputs[0]), inputs[1..])
  }

  ghost predicate AlwaysValid(s: State, inputs: seq<Input>)
    decreases |inputs|
  {
    Valid(s) && (inputs != [] && Enabled(s, inputs[0]) ==> AlwaysValid(Step(s, inputs[0]), inputs[1..]))
  }

  /** The invariants hold throughout a run exactly when the run is orderly. */
  lemma {:induction false} OrderlyIff(s: State, inputs: seq<Input>)
    requires Valid(s)
    ensures AlwaysValid(s, inputs) <==> Orderly(s, inputs)
    decreases |inputs|
  {
    hide Valid, Enabled, Step, Proper;
    if inputs != [] && Enabled(s, inputs[0]) {
      StepKeepsValid(s, inputs[0]);
      if Proper(s, inputs[0]) { OrderlyIff(Step(s, inputs[0]), inputs[1..]); }
    }
  }

  lemma {:induction false} RunKeepsValid(s: State, inputs: seq<Input>)
    requires Valid(s) && Orderly(s, inputs)
    ensures var t := After(s, inputs); t.Some? ==> Valid(t.value)
    decreases |inputs|
  {
    hide Valid, Enabled, Step, Proper;
    if inputs != [] && Enabled(s, inputs[0]) {
      StepKeepsValid(s, inputs[0]);
      RunKeepsValid(Step(s, inputs[0]), inputs[1..]);
    }
  }

  /** A state some orderly run of the agent and its workers leads to. */
  ghost predicate Reached(s: State) {
    exists first, second, inputs ::
      first != second && Orderly(Initial(first, second), inputs) && After(Initial(first, second), inputs) == Some(s)
  }

  lemma ReachedIsValid(s: State)
    requires Reached(s)
    ensures Valid(s)
  {
    hide Valid, Initial, After, Orderly;
    var first, second, inputs :|
      first != second && Orderly(Initial(first, second), inputs) && After(Initial(first, second), inputs) == Some(s);
    InitialIsValid(first, second);
    RunKeepsValid(Initial(first, second), inputs);
  }

  // --- Answers ----------------------------------------------------------------

  /** The close of a worker whose request cannot be answered, by its last report and by
      what the close brings. */
  predicate Loses(s: State, i: Input) {
    && i.Close? && Enabled(s, i) && s.workers[i.pid].request.Some? && Unsendable(s.workers[i.pid], i.end)
  }

  /** The events that nothing in the agent survives: an error without a listener, a worker's
      message that is `null`, a CHUNK that cannot be sent, an answer that cannot. */
  predicate Crashes(s: State, i: Input) {
    && Enabled(s, i)
    && (i.Dies? || i.Null? || Loses(s, i) ||
        (i.Output? && !Room(0, i.size) &&
         s.workers[i.pid].request.Some? && s.workers[i.pid].request.value.stream))
  }

  predicate RunLoses(s: State, inputs: seq<Input>)
    decreases |inputs|
  {
    inputs != [] && Enabled(s, inputs[0]) && (Loses(s, inputs[0]) || RunLoses(Step(s, inputs[0]), inputs[1..]))
  }

  predicate RunCrashes(s: State, inputs: seq<Input>)
    decreases |inputs|
  {
    inputs != [] && Enabled(s, inputs[0]) && (Crashes(s, inputs[0]) || RunCrashes(Step(s, inputs[0]), inputs[1..]))
  }

  lemma CrashStep(s: State, i: Input)
    requires Enabled(s, i) && LostOk(s)
    ensures Step(s, i).crashed <==> s.crashed || Crashes(s, i)
    ensures Step(s, i).lost.Some? <==> s.lost.Some? || Loses(s, i)
  {
    hide AnswerOf, Unsendable, Short, Living, Without, IsRound, StartedIds;
    if i.Close? {
      if s.workers[i.pid].request.Some? { AnswerIsTerminal(s.workers[i.pid], i.end); }
      hide OnExec, OnReady, OnGo, OnStop, OnExit;
    } else {
      OnlyCloseLoses(s, i);
      hide OnClose;
    }
  }

  lemma LostIsOk(s: State)
    requires Valid(s)
    ensures LostOk(s)
  {
  }

  lemma {:induction false} CrashIff(s: State, inputs: seq<Input>)
    requires Valid(s) && Orderly(s, inputs) && After(s, inputs).Some?
    ensures var t := After(s, inputs).value;
            && (t.crashed <==> s.crashed || RunCrashes(s, inputs))
            && (t.lost.Some? <==> s.lost.Some? || RunLoses(s, inputs))
    decreases |inputs|
  {
    hide Valid, Enabled, Step, Crashes, Loses, Proper, LostOk;
    if inputs != [] {
      StepKeepsValid(s, inputs[0]);
      LostIsOk(s);
      CrashStep(s, inputs[0]);
      CrashIff(Step(s, inputs[0]), inputs[1..]);
    }
  }

  /** What a supervisor can count on after any orderly run: the pool is full until it stops,
      a free worker means an empty queue, and requests start in order of arrival. Each EXEC
      has exactly one answer unless its request is queued or in flight, for every id,
      exactly when no worker closed with a request that could not be answered; and the agent
      has crashed exactly when one of the events that crash it was in the run. */
  lemma EveryRun(first: Pid, second: Pid, inputs: seq<Input>)
    requires first != second && After(Initial(first, second), inputs).Some? && Orderly(Initial(first, second), inputs)
    ensures var s := After(Initial(first, second), inputs).value;
            && (!s.stopping ==> |Living(s.workers)| == POOL_SIZE)
            && (s.idle != [] ==> s.waiting == []) && |s.waiting| <= MAX_WAITING
            && Queue(s.trace) == Some(Ids(s.waiting))
            && (s.crashed <==> RunCrashes(Initial(first, second), inputs))
            && ((forall id | id !in s.inflight && id !in Ids(s.waiting) :: Execs(s.trace, id) == Answers(s.trace, id)) <==>
                !RunLoses(Initial(first, second), inputs))
            && (forall id :: Execs(s.trace, id) == Answers(s.trace, id) + Owed(s, id))
            && (forall id :: Execs(s.trace, id) == Forks(s.trace, id) + Unstarted(s.trace, id) + (if id in Ids(s.waiting) then 1 else 0))
            && (s.exited ==> forall id :: Execs(s.trace, id) == Answers(s.trace, id))
  {
    hide Valid, After, Initial, Orderly, RunLoses, RunCrashes, Execs, Answers, Forks, Unstarted, Living, Queue;
    var s0 := Initial(first, second);
    InitialIsValid(first, second);
    InitialIsWhole(first, second);
    RunKeepsValid(s0, inputs);
    CrashIff(s0, inputs);
    var s := After(s0, inputs).value;
    ValidPool(s);
    forall id ensures Execs(s.trace, id) == Answers(s.trace, id) + Owed(s, id)
              ensures Execs(s.trace, id) == Forks(s.trace, id) + Unstarted(s.trace, id) + (if id in Ids(s.waiting) then 1 else 0)
    {
      ValidCounts(s, id);
    }
    if s.lost.Some? { ValidCounts(s, s.lost.value.id); }
  }

  /** Whether the request of this id is still owed an answer. */
  function Owed(s: State, id: Id): nat {
    if id in s.inflight || id in Ids(s.waiting) || (s.lost.Some? && s.lost.value.id == id) then 1 else 0
  }

  lemma InitialIsWhole(first: Pid, second: Pid)
    ensures Initial(first, second).lost.None? && !Initial(first, second).crashed
  {
  }

  lemma ValidPool(s: State)
    requires Valid(s)
    ensures !s.stopping ==> |Living(s.workers)| == POOL_SIZE
    ensures (s.idle != [] ==> s.waiting == []) && |s.waiting| <= MAX_WAITING && Queue(s.trace) == Some(Ids(s.waiting))
    ensures s.exited ==> s.inflight == map[] && s.waiting == [] && s.lost.None?
  {
    hide Queue, IdleOk, ChunksOpen, Living, Distinct, InflightOk, Follows, Fits;
  }

  lemma ValidCounts(s: State, id: Id)
    requires Valid(s)
    ensures Execs(s.trace, id) == Answers(s.trace, id) + Owed(s, id)
    ensures Execs(s.trace, id) == Forks(s.trace, id) + Unstarted(s.trace, id) + (if id in Ids(s.waiting) then 1 else 0)
    ensures s.lost.Some? && s.lost.value.id == id ==> id !in s.inflight && id !in Ids(s.waiting)
  {
    hide Queue, IdleOk, ChunksOpen, Living, Distinct;
    assert Watch(s.trace, id) == Some(PhaseOf(s, id));
    OneAnswerEach(s.trace, id);
    hide Execs, Answers, Forks, Unstarted, Watch;
  }

  /** In any run a worker enters the handler only after a GO for its request, received
      while that request was in flight. */
  lemma HandlerWaitsForGo(s: State, id: Id, k: nat) returns (forked: nat, go: nat)
    requires Reached(s) && k < |s.trace| && s.trace[k] == Entered(id)
    ensures forked < go < k && s.trace[forked] == Forked(id) && s.trace[go] == GotGo(id) && Open(s.trace[..k], id, forked)
  {
    ReachedIsValid(s);
    hide Reached;
    assert Watch(s.trace, id) == Some(PhaseOf(s, id));
    forked, go := EntryFollowsGo(s.trace, id, k);
  }

  /** A worker is given one request, for good, and enters the handler at most once. */
  lemma OneRequestPerWorker(s: State, i: Input, pid: Pid)
    requires Reached(s) && Proper(s, i) && pid in s.workers && s.workers[pid].request.Some?
    ensures var t := Step(s, i);
            && pid in t.workers && t.workers[pid].request == s.workers[pid].request
            && t.workers[pid].entered <= 1
  {
    ReachedIsValid(s);
    hide Reached;
    StepKeepsTables(s, i);
    RequestStays(s, i, pid);
    hide Step, Enabled, IdleOk, InflightOk, Pool, Queue, Follows;
    assert Fits(Step(s, i).workers[pid]);
  }

  lemma RequestStays(s: State, i: Input, pid: Pid)
    requires Tables(s) && Proper(s, i) && pid in s.workers && s.workers[pid].request.Some?
    ensures pid in Step(s, i).workers && Step(s, i).workers[pid].request == s.workers[pid].request
  {
    hide Living, Without, Distinct, Queue, IsRound, StartedIds, Short, AnswerOf, OnExec, OnReady;
    assert Fits(s.workers[pid]);
    match i
    case Ready(ready) =>
      assert Fits(s.workers[ready]);
      hide Tables;
      ReadyRequest(s, ready, pid);
    case Exec(r) =>
      IdleFront(s);
      hide Tables;
      ExecRequest(s, r, pid);
    case _ =>
      hide Tables, Fits;
      OtherRequest(s, i, pid);
  }

  lemma OtherRequest(s: State, i: Input, pid: Pid)
    requires Enabled(s, i) && !i.Exec? && !i.Ready? && pid in s.workers && s.workers[pid].request.Some?
    ensures pid in Step(s, i).workers && Step(s, i).workers[pid].request == s.workers[pid].request
  {
    hide Living, Without, Distinct, Queue, IsRound, StartedIds, Short, AnswerOf, OnExec, OnReady, Ids, Refusals, Beats;
    if i.Close? {
      hide OnGo, OnCancel, OnExit, OnReport, OnEnter, OnStop, OnOutput;
    } else if i.Go? || i.Cancel? {
      hide OnClose, OnExit, OnReport, OnEnter, OnStop, OnOutput;
    } else {
      hide OnClose, OnGo, OnCancel;
    }
  }

  lemma ExecRequest(s: State, r: Request, pid: Pid)
    requires s.idle != [] ==> s.idle[0] in s.workers && Free(s.workers[s.idle[0]])
    requires pid in s.workers && s.workers[pid].request.Some?
    ensures pid in OnExec(s, r).workers && OnExec(s, r).workers[pid].request == s.workers[pid].request
  {
  }

  lemma ReadyRequest(s: State, ready: Pid, pid: Pid)
    requires Enabled(s, Ready(ready)) && Welcome(s, ready) && Fits(s.workers[ready])
    requires pid in s.workers && s.workers[pid].request.Some?
    ensures pid in OnReady(s, ready).workers && OnReady(s, ready).workers[pid].request == s.workers[pid].request
  {
  }

  /** When the pipes of a worker with a request close, that request gets its one answer, or
      the agent crashes and it gets none: exactly when the answer is unsendable. */
  lemma ClosingAnswers(s: State, pid: Pid, end: End)
    requires Reached(s) && Enabled(s, Close(pid, end)) && s.workers[pid].request.Some?
    ensures var w, id, t := s.workers[pid], s.workers[pid].request.value.id, OnClose(s, pid, end);
            && id !in t.inflight && Execs(t.trace, id) == Execs(s.trace, id) == Answers(s.trace, id) + 1
            && (if Unsendable(w, end) then t.crashed && Answers(t.trace, id) == Answers(s.trace, id)
                else t.crashed == s.crashed && Answers(t.trace, id) == Answers(s.trace, id) + 1)
  {
    ReachedIsValid(s);
    hide Reached;
    var w, id, t := s.workers[pid], s.workers[pid].request.value.id, OnClose(s, pid, end);
    StepKeepsValid(s, Close(pid, end));
    AnswerIsTerminal(w, end);
    ServedIsInFlight(s, pid);
    hide Valid, AnswerOf, Unsendable, Short, Execs, Answers;
    ValidCounts(s, id);
    ValidCounts(t, id);
    OneMoreAnswer(s.trace, id);
  }

  lemma ServedIsInFlight(s: State, pid: Pid)
    requires Valid(s) && pid in s.workers && s.workers[pid].life != Closed && s.workers[pid].request.Some?
    ensures s.workers[pid].request.value.id in s.inflight && s.lost != Some(Lost(s.workers[pid].request.value.id, true))
    ensures s.workers[pid].request.value.id !in Ids(s.waiting)
    ensures s.lost.Some? ==> s.lost.value.id != s.workers[pid].request.value.id
  {
    hide Queue, IdleOk, ChunksOpen, Living, Distinct, Follows, Fits;
    assert Serves(s.workers[pid]);
  }

  lemma OneMoreAnswer(trace: seq<Event>, id: Id)
    ensures Answers(trace + [Done(id)], id) == Answers(trace, id) + 1 == Answers(trace + [Refused(id)], id)
    ensures Execs(trace + [Done(id)], id) == Execs(trace, id) == Execs(trace + [Refused(id)], id)
  {
    assert (trace + [Done(id)])[..|trace|] == trace == (trace + [Refused(id)])[..|trace|];
  }

  /** A crashed agent answers nothing more. */
  lemma {:induction false} DeadIsSilent(s: State, inputs: seq<Input>, id: Id)
    requires s.crashed && After(s, inputs).Some?
    ensures var t := After(s, inputs).value; t.crashed && Answers(t.trace, id) == Answers(s.trace, id)
    decreases |inputs|
  {
    hide Enabled, Step, Answers;
    if inputs != [] {
      DeadStep(s, inputs[0], id);
      DeadIsSilent(Step(s, inputs[0]), inputs[1..], id);
    }
  }

  lemma DeadStep(s: State, i: Input, id: Id)
    requires s.crashed && Enabled(s, i)
    ensures Step(s, i).crashed && Answers(Step(s, i).trace, id) == Answers(s.trace, id)
  {
    StepAdds(s, i);
    UnansweredCount(s.trace, Adds(s, i), id);
  }

  // GO for a worker whose channel is closed

  /** The agent is about to end, or has, with this request in flight. */
  predicate Doomed(s: State, id: Id) {
    !s.exited && (s.broken || s.crashed) && id in s.inflight && id !in Ids(s.waiting)
  }

  /** GO for a request whose worker has exited or closed its channel is the end of the agent. */
  lemma GoDooms(s: State, id: Id)
    requires Valid(s) && Enabled(s, Go(id)) && InFlight(s, id)
    ensures var w := s.workers[s.inflight[id]];
            !w.started && !(Live(w) && w.linked) ==> Doomed(Step(s, Go(id)), id)
  {
    hide Queue, IdleOk, InflightOk, ChunksOpen, Living, Distinct, Follows, Fits, Pool, LostOk;
  }

  /** Nothing but messages that are already there comes before it, and none of them
      answers the request. */
  lemma {:induction false} DoomedForEver(s: State, inputs: seq<Input>, id: Id)
    requires Doomed(s, id) && After(s, inputs).Some?
    ensures var t := After(s, inputs).value; Doomed(t, id) && Answers(t.trace, id) == Answers(s.trace, id)
    ensures forall i | i in inputs :: Message(i) || i.Dies? || i.Enters?
    decreases |inputs|
  {
    hide Enabled, Step, Answers, Doomed;
    if inputs != [] {
      DoomedStep(s, inputs[0], id);
      DoomedForEver(Step(s, inputs[0]), inputs[1..], id);
    }
  }

  lemma DoomedStep(s: State, i: Input, id: Id)
    requires Doomed(s, id) && Enabled(s, i)
    ensures Doomed(Step(s, i), id) && Answers(Step(s, i).trace, id) == Answers(s.trace, id)
    ensures Message(i) || i.Dies? || i.Enters?
  {
    StepAdds(s, i);
    DoomedSilent(s, i, id);
    UnansweredCount(s.trace, Adds(s, i), id);
    hide Adds, Answers;
    hide OnReady, OnClose, OnExit, OnReport, OnOutput, Living, Without, IsRound, StartedIds, Short, AnswerOf, Queue;
    if i.Exec? {
      IdsOfTail(s.waiting, i.request);
      hide OnGo, OnStop, OnEnter;
    } else {
      hide OnExec;
    }
  }

  lemma DoomedSilent(s: State, i: Input, id: Id)
    requires Doomed(s, id) && Enabled(s, i)
    ensures Unanswered(Adds(s, i), id)
  {
    hide Living, Without, IsRound, StartedIds, Short, AnswerOf, Queue, Step;
  }


  // --- Runs in which the agent crashes ----------------------------------------

  lemma Unroll(s: State, i: Input, rest: seq<Input>)
    requires Enabled(s, i)
    ensures After(s, [i] + rest) == After(Step(s, i), rest)
    ensures Orderly(s, [i] + rest) <==> Proper(s, i) && Orderly(Step(s, i), rest)
  {
    assert ([i] + rest)[1..] == rest;
    hide Enabled, Step, Proper;
  }

  const A := Request("a", false)

  const B := Request("b", false)

  const PARKED := NEW_WORKER.(life := Parked)

  const SERVES_A := PARKED.(request := Some(A))

  const AWAITED := State(map[0 := SERVES_A, 1 := NEW_WORKER], [], [], map["a" := 0], false, false, false, false, None,
                         [GotExec("a"), Forked("a")])

  /** Worker 0 is given `a`. */
  lemma Awaits(rest: seq<Input>)
    ensures After(Initial(0, 1), [Ready(0)] + ([Exec(A)] + rest)) == After(AWAITED, rest)
    ensures Orderly(Initial(0, 1), [Ready(0)] + ([Exec(A)] + rest)) <==> Orderly(AWAITED, rest)
  {
    var s0 := Initial(0, 1);
    var s1 := s0.(workers := map[0 := PARKED, 1 := NEW_WORKER], idle := [0]);
    assert Step(s0, Ready(0)) == s1;
    assert Step(s1, Exec(A)) == AWAITED;
    hide Step;
    Unroll(s1, Exec(A), rest);
    Unroll(s0, Ready(0), [Exec(A)] + rest);
  }

  const ENTERED := AWAITED.(workers := map[0 := SERVES_A.(started := true, entered := 1), 1 := NEW_WORKER],
                            trace := [GotExec("a"), Forked("a"), GotGo("a"), Entered("a")])

  lemma EntersIt(rest: seq<Input>)
    ensures After(AWAITED, [Go("a")] + ([Enters(0)] + rest)) == After(ENTERED, rest)
    ensures Orderly(AWAITED, [Go("a")] + ([Enters(0)] + rest)) <==> Orderly(ENTERED, rest)
  {
    var s3 := AWAITED.(workers := map[0 := SERVES_A.(started := true, orders := 1), 1 := NEW_WORKER],
                       trace := [GotExec("a"), Forked("a"), GotGo("a")]);
    assert Step(AWAITED, Go("a")) == s3;
    assert Step(s3, Enters(0)).trace == ENTERED.trace;
    assert Step(s3, Enters(0)) == ENTERED;
    hide Step;
    Unroll(s3, Enters(0), rest);
    Unroll(AWAITED, Go("a"), [Enters(0)] + rest);
  }

  function Served(report: Report): Worker { SERVES_A.(started := true, entered := 1, result := Reported(report)) }

  function Reporting(report: Report, end: End): seq<Input> {
    [Ready(0)] + ([Exec(A)] + ([Go("a")] + ([Enters(0)] + ([Reports(0, report)] + ([Exit(0, 2)] + ([Close(0, end)] + []))))))
  }

  lemma ReportsIt(report: Report, rest: seq<Input>)
    ensures var s := ENTERED.(workers := map[0 := Served(report).(life := Exited), 1 := NEW_WORKER, 2 := NEW_WORKER]);
            && After(ENTERED, [Reports(0, report)] + ([Exit(0, 2)] + rest)) == After(s, rest)
            && (Orderly(ENTERED, [Reports(0, report)] + ([Exit(0, 2)] + rest)) <==> Orderly(s, rest))
  {
    var s5 := ENTERED.(workers := map[0 := Served(report), 1 := NEW_WORKER]);
    var s6 := ENTERED.(workers := map[0 := Served(report).(life := Exited), 1 := NEW_WORKER, 2 := NEW_WORKER]);
    assert Step(ENTERED, Reports(0, report)) == s5;
    assert Step(s5, Exit(0, 2)) == s6;
    hide Step;
    Unroll(s5, Exit(0, 2), rest);
    Unroll(ENTERED, Reports(0, report), [Exit(0, 2)] + rest);
  }

  lemma LosesIt(report: Report, end: End)
    requires Short(end) && Unsendable(Served(report), end)
    ensures var s := ENTERED.(workers := map[0 := Served(report).(life := Exited), 1 := NEW_WORKER, 2 := NEW_WORKER]);
            var t := After(s, [Close(0, end)] + []);
            && t.Some? && t.value.crashed && "a" !in t.value.inflight && t.value.trace == ENTERED.trace
            && Orderly(s, [Close(0, end)] + [])
  {
    var s := ENTERED.(workers := map[0 := Served(report).(life := Exited), 1 := NEW_WORKER, 2 := NEW_WORKER]);
    AnswerIsTerminal(s.workers[0], end);
    assert AnswerOf(s.workers[0], end).None?;
    Unroll(s, Close(0, end), []);
  }

  /** A worker that reports what cannot be sent, readings too long for a frame say: the
      agent crashes and the request is never answered, though the run is orderly. */
  lemma AnAnswerIsLost(report: Report, end: End)
    requires Short(end) && Unsendable(Served(report), end)
    ensures var t := After(Initial(0, 1), Reporting(report, end));
            && t.Some? && Orderly(Initial(0, 1), Reporting(report, end))
            && t.value.crashed && "a" !in t.value.inflight
            && Execs(t.value.trace, "a") == 1 && Answers(t.value.trace, "a") == 0
  {
    var end' := [Close(0, end)] + [];
    var report' := [Reports(0, report)] + ([Exit(0, 2)] + end');
    Awaits([Go("a")] + ([Enters(0)] + report'));
    EntersIt(report');
    ReportsIt(report, end');
    LosesIt(report, end);
    OneExec();
    hide After, Orderly, Initial, AWAITED, ENTERED, Execs, Answers, Unsendable;
  }

  lemma OneExec()
    ensures Execs(ENTERED.trace, "a") == 1 && Answers(ENTERED.trace, "a") == 0
  {
    var more := [Forked("a"), GotGo("a"), Entered("a")];
    assert ENTERED.trace == [GotExec("a")] + more;
    NoExecCount([GotExec("a")], more, "a");
    UnansweredCount([GotExec("a")], more, "a");
    assert [GotExec("a")][..0] == [];
  }

  lemma {:induction false} NoExecCount(trace: seq<Event>, more: seq<Event>, id: Id)
    requires forall e | e in more :: e != GotExec(id)
    ensures Execs(trace + more, id) == Execs(trace, id)
  {
    if more == [] {
      assert trace + more == trace;
    } else {
      var n := |more| - 1;
      assert more[n] in more && forall e | e in more[..n] :: e in more;
      NoExecCount(trace, more[..n], id);
      assert (trace + more)[..|trace| + n] == trace + more[..n];
    }
  }

  function GoTooLate(): seq<Input> { [Ready(0)] + ([Exec(A)] + ([Exit(0, 2)] + ([Go("a")] + ([Dies] + [])))) }

  const LEFT := AWAITED.(workers := map[0 := SERVES_A.(life := Exited), 1 := NEW_WORKER, 2 := NEW_WORKER])

  const TOO_LATE := LEFT.(workers := map[0 := SERVES_A.(life := Exited, started := true), 1 := NEW_WORKER, 2 := NEW_WORKER],
                          broken := true, trace := [GotExec("a"), Forked("a"), GotGo("a")])

  lemma WorkerLeaves(rest: seq<Input>)
    ensures After(AWAITED, [Exit(0, 2)] + rest) == After(LEFT, rest)
    ensures Orderly(AWAITED, [Exit(0, 2)] + rest) <==> Orderly(LEFT, rest)
  {
    assert Step(AWAITED, Exit(0, 2)) == LEFT;
    hide Step, After, Orderly;
    Unroll(AWAITED, Exit(0, 2), rest);
  }

  lemma GoBreaks(rest: seq<Input>)
    ensures After(LEFT, [Go("a")] + rest) == After(TOO_LATE, rest)
    ensures Orderly(LEFT, [Go("a")] + rest) <==> Orderly(TOO_LATE, rest)
  {
    assert OnGo(LEFT, "a") == TOO_LATE;
    hide OnGo, After, Orderly;
    Unroll(LEFT, Go("a"), rest);
  }

  lemma ThenItDies()
    ensures After(TOO_LATE, [Dies] + []) == Some(Crashed(TOO_LATE)) && Orderly(TOO_LATE, [Dies] + [])
  {
    assert Enabled(TOO_LATE, Dies) && Proper(TOO_LATE, Dies);
    DiesCrashes(TOO_LATE);
    hide Step, TOO_LATE, Enabled, Proper;
    Unroll(TOO_LATE, Dies, []);
  }

  lemma ItIsDoomed()
    ensures Doomed(Crashed(TOO_LATE), "a") && Answers(Crashed(TOO_LATE).trace, "a") == 0
  {
    UnansweredCount([], TOO_LATE.trace, "a");
    assert [] + TOO_LATE.trace == TOO_LATE.trace;
  }

  /** A GO that arrives when the worker has exited and its pipes are still open. */
  lemma AGoIsTooLate()
    ensures var t := After(Initial(0, 1), GoTooLate());
            && t.Some? && Orderly(Initial(0, 1), GoTooLate())
            && t.value.crashed && Doomed(t.value, "a") && Answers(t.value.trace, "a") == 0
  {
    hide After, Orderly, Initial, AWAITED, LEFT, TOO_LATE, Doomed, Answers;
    Awaits([Exit(0, 2)] + ([Go("a")] + ([Dies] + [])));
    WorkerLeaves([Go("a")] + ([Dies] + []));
    GoBreaks([Dies] + []);
    ThenItDies();
    ItIsDoomed();
  }

  lemma DiesCrashes(s: State)
    requires Enabled(s, Dies)
    ensures Step(s, Dies) == Crashed(s)
  {
  }

  // --- Requests left in flight for good ---------------------------------------

  /** A request in flight that no worker which can still close carries. */
  predicate Orphan(s: State, id: Id) {
    && !s.exited && id in s.inflight && id !in Ids(s.waiting)
    && forall pid | pid in s.workers && Serves(s.workers[pid]) :: s.workers[pid].request.value.id != id
  }

  ghost predicate Orphans(s: State) { exists id :: Orphan(s, id) }

  predicate Unanswered(events: seq<Event>, id: Id) { forall e | e in events :: !(About(e, id) && Terminal(e)) }

  lemma OrphanOfDispatch(s: State, r: Request, pid: Pid, id: Id)
    requires Orphan(s, id) && r.id != id
    ensures Orphan(Dispatched(s, r, pid), id)
  {
  }

  lemma OrphanOfExec(s: State, r: Request, id: Id)
    requires Orphan(s, id) && Enabled(s, Exec(r))
    ensures Orphan(OnExec(s, r), id)
  {
    IdsOfTail(s.waiting, r);
    var t := Sent(s, GotExec(r.id));
    if s.idle != [] { OrphanOfDispatch(t.(idle := s.idle[1..]), r, s.idle[0], id); }
  }

  lemma OrphanOfReady(s: State, pid: Pid, id: Id)
    requires Orphan(s, id) && Enabled(s, Ready(pid))
    ensures Orphan(OnReady(s, pid), id)
  {
    var t := s.(workers := s.workers[pid := Loaded(s.workers[pid])]);
    assert Orphan(t, id);
    if s.waiting != [] {
      IdsOfTail(s.waiting, s.waiting[0]);
      OrphanOfDispatch(t.(waiting := s.waiting[1..]), s.waiting[0], pid, id);
    }
  }

  predicate WorkerEvent(i: Input) { i.Exit? || i.Close? || i.Reports? || i.Enters? || i.Disconnects? }

  lemma OrphanOfClose(s: State, pid: Pid, end: End, id: Id)
    requires Orphan(s, id) && Enabled(s, Close(pid, end))
    ensures Orphan(OnClose(s, pid, end), id)
  {
    hide AnswerOf, Unsendable, Short;
    var w := s.workers[pid];
    if w.request.Some? {
      assert Serves(w) && w.request.value.id != id;
      assert id in s.inflight - {w.request.value.id};
    }
    var t := OnClose(s, pid, end);
    assert !t.exited && id in t.inflight && t.waiting == s.waiting;
    forall p | p in t.workers && Serves(t.workers[p]) ensures p in s.workers && Serves(s.workers[p]) && t.workers[p] == s.workers[p] {}
  }

  lemma OrphanOfWorker(s: State, i: Input, id: Id)
    requires Orphan(s, id) && Enabled(s, i) && WorkerEvent(i)
    ensures Orphan(Step(s, i), id)
  {
    hide Without, Living, Queue, AnswerOf, Unsendable, Short, OnExec, OnReady, OnGo, OnStop, OnCancel, OnClose;
    if i.Close? { OrphanOfClose(s, i.pid, i.end, id); }
  }

  lemma OrphanOfMessage(s: State, i: Input, id: Id)
    requires Orphan(s, id) && Enabled(s, i) && !(i.Exec? || i.Ready? || WorkerEvent(i))
    ensures Orphan(Step(s, i), id)
  {
    hide Without, Living, Queue, AnswerOf, Unsendable, Short;
  }

  lemma OrphanSilent(s: State, i: Input, id: Id)
    requires Orphan(s, id) && Enabled(s, i)
    ensures Unanswered(Adds(s, i), id)
  {
    hide Living, Queue, Without, IsRound, StartedIds, Step, AnswerOf, Unsendable, Short;
    if i.Close? && s.workers[i.pid].request.Some? {
      assert Serves(s.workers[i.pid]);
      AnswerIsTerminal(s.workers[i.pid], i.end);
    }
  }

  lemma OrphanStays(s: State, i: Input, id: Id)
    requires Orphan(s, id) && Enabled(s, i)
    ensures Orphan(Step(s, i), id) && Answers(Step(s, i).trace, id) == Answers(s.trace, id)
  {
    OrphanSilent(s, i, id);
    StepAdds(s, i);
    UnansweredCount(s.trace, Adds(s, i), id);
    hide Orphan, Enabled, OnExec, OnReady, Adds, Answers;
    match i
    case Exec(r) => OrphanOfExec(s, r, id);
    case Ready(pid) => OrphanOfReady(s, pid, id);
    case _ =>
      hide Step;
      if WorkerEvent(i) { OrphanOfWorker(s, i, id); } else { OrphanOfMessage(s, i, id); }
  }

  lemma {:induction false} UnansweredCount(trace: seq<Event>, more: seq<Event>, id: Id)
    requires Unanswered(more, id)
    ensures Answers(trace + more, id) == Answers(trace, id)
  {
    if more == [] {
      assert trace + more == trace;
    } else {
      var n := |more| - 1;
      assert more[n] in more && forall e | e in more[..n] :: e in more;
      UnansweredCount(trace, more[..n], id);
      assert (trace + more)[..|trace| + n] == trace + more[..n];
    }
  }

  /** An orphan is never answered, and the agent that has one never exits. */
  lemma {:induction false} OrphanForEver(s: State, inputs: seq<Input>, id: Id)
    requires Orphan(s, id)
    ensures var t := After(s, inputs);
            t.Some? ==> Orphan(t.value, id) && !t.value.exited && Answers(t.value.trace, id) == Answers(s.trace, id)
    decreases |inputs|
  {
    hide Orphan, Enabled, Step, Answers;
    if inputs != [] && Enabled(s, inputs[0]) {
      OrphanStays(s, inputs[0], id);
      OrphanForEver(Step(s, inputs[0]), inputs[1..], id);
    }
    assert Orphan(s, id) ==> !s.exited by { OrphanRuns(s, id); }
  }

  lemma OrphanRuns(s: State, id: Id)
    ensures Orphan(s, id) ==> !s.exited
  {
  }

  /** A request is given to a worker that is closed, or that carries one already. */
  predicate Misdirects(s: State, i: Input) {
    && Enabled(s, i)
    && ((i.Exec? && s.idle != [] && s.idle[0] in s.workers && Taken(s.workers[s.idle[0]])) ||
        (i.Ready? && s.waiting != [] && Taken(s.workers[i.pid])))
  }

  predicate Taken(w: Worker) { w.life == Closed || w.request.Some? }

  /** Each request in flight is carried by the worker the table names, and by no other. */
  predicate Carried(s: State) {
    && InflightOk(s.workers, s.inflight)
    && (forall pid | pid in s.idle :: pid in s.workers)
    && Distinct(Ids(s.waiting)) && forall id | id in s.inflight :: id !in Ids(s.waiting)
  }

  lemma DispatchCarries(s: State, r: Request, pid: Pid)
    requires Carried(s) && !s.exited && pid in s.workers && r.id !in s.inflight && r.id !in Ids(s.waiting)
    ensures var t := Dispatched(s, r, pid);
            if Taken(s.workers[pid]) then Orphans(t) else Carried(t)
  {
    var t, w := Dispatched(s, r, pid), s.workers[pid];
    if !Taken(w) {
      hide InflightOk;
      InflightMore(s.workers, s.inflight, pid, w.(request := Some(r), cancelled := false));
    } else if w.life == Closed {
      assert Orphan(t, r.id);
    } else {
      assert Serves(w);
      assert Orphan(t, w.request.value.id);
    }
  }

  lemma ExecCarries(s: State, r: Request)
    requires Carried(s) && Enabled(s, Exec(r))
    ensures if Misdirects(s, Exec(r)) then Orphans(OnExec(s, r)) else Carried(OnExec(s, r))
  {
    hide InflightOk, Orphans;
    IdsOfTail(s.waiting, r);
    if s.idle != [] {
      assert s.idle[0] in s.idle && forall pid | pid in s.idle[1..] :: pid in s.idle;
      DispatchCarries(Sent(s, GotExec(r.id)).(idle := s.idle[1..]), r, s.idle[0]);
      hide Dispatched;
    } else {
      hide Dispatched;
    }
  }

  lemma ReadyCarries(s: State, pid: Pid)
    requires Carried(s) && Enabled(s, Ready(pid))
    ensures if Misdirects(s, Ready(pid)) then Orphans(OnReady(s, pid)) else Carried(OnReady(s, pid))
  {
    hide InflightOk, Orphans;
    var w := Loaded(s.workers[pid]);
    InflightSame(s.workers, s.inflight, pid, w);
    if s.waiting != [] {
      IdsOfTail(s.waiting, s.waiting[0]);
      DispatchCarries(s.(workers := s.workers[pid := w], waiting := s.waiting[1..]), s.waiting[0], pid);
    }
    hide Dispatched;
  }

  lemma ExitCarries(s: State, pid: Pid, next: Pid)
    requires Carried(s) && Enabled(s, Exit(pid, next))
    ensures Carried(OnExit(s, pid, next))
  {
    hide InflightOk, Distinct;
    var gone := s.workers[pid].(life := Exited);
    InflightSame(s.workers, s.inflight, pid, gone);
    InflightSame(s.workers[pid := gone], s.inflight, next, NEW_WORKER);
    WithoutIsFewer(s.idle, pid);
    hide Without;
  }

  lemma {:induction false} WithoutIsFewer<T>(queue: seq<T>, id: T)
    ensures forall x | x in Without(queue, id) :: x in queue
  {
    if queue != [] {
      WithoutIsFewer(queue[1..], id);
      assert queue == [queue[0]] + queue[1..];
    }
  }

  lemma CloseCarries(s: State, pid: Pid, end: End)
    requires Carried(s) && Enabled(s, Close(pid, end))
    ensures Carried(OnClose(s, pid, end))
  {
    hide InflightOk, Distinct, AnswerOf, Short;
    var gone := s.workers[pid].(life := Closed);
    if gone.request.Some? {
      InflightLess(s.workers, s.inflight, pid, gone);
    } else {
      InflightSame(s.workers, s.inflight, pid, gone);
    }
  }

  lemma RecordCarries(s: State, pid: Pid, w: Worker)
    requires Carried(s) && pid in s.workers && w.request == s.workers[pid].request && w.life == s.workers[pid].life
    ensures Carried(s.(workers := s.workers[pid := w]))
  {
    hide InflightOk, Distinct;
    InflightSame(s.workers, s.inflight, pid, w);
  }

  lemma OtherCarries(s: State, i: Input)
    requires Carried(s) && Enabled(s, i) && !i.Exec? && !i.Ready? && !i.Exit? && !i.Close?
    ensures Carried(Step(s, i))
  {
    hide InflightOk, Distinct, IsRound, StartedIds, OnExec, OnReady, OnExit, OnClose, Live;
    match i
    case Reports(pid, report) => RecordCarries(s, pid, s.workers[pid].(result := Reported(report)));
    case Disconnects(pid) => RecordCarries(s, pid, s.workers[pid].(linked := false));
    case Enters(pid) =>
      var w := s.workers[pid];
      RecordCarries(s, pid, w.(orders := w.orders - 1, entered := w.entered + 1));
    case Go(id) =>
      if InFlight(s, id) {
        var w := s.workers[s.inflight[id]];
        RecordCarries(s, s.inflight[id], w.(started := true, orders := w.orders + 1));
        RecordCarries(s, s.inflight[id], w.(started := true));
      }
    case Cancel(id) =>
      if InFlight(s, id) { RecordCarries(s, s.inflight[id], s.workers[s.inflight[id]].(cancelled := true)); }
    case Shutdown => NothingTwice();
    case _ =>
  }

  lemma NothingTwice()
    ensures Distinct(Ids([]))
  {
  }

  /** One step orphans a request exactly when it gives one to a worker that is taken. */
  lemma CarriedStep(s: State, i: Input)
    requires Carried(s) && Enabled(s, i)
    ensures if Misdirects(s, i) then Orphans(Step(s, i)) else Carried(Step(s, i))
  {
    StepIs(s, i);
    NotMisdirected(s, i);
    hide *;
    if i.Exec? {
      ExecCarries(s, i.request);
    } else if i.Ready? {
      ReadyCarries(s, i.pid);
    } else if i.Exit? {
      ExitCarries(s, i.pid, i.next);
    } else if i.Close? {
      CloseCarries(s, i.pid, i.end);
    } else {
      OtherCarries(s, i);
    }
  }

  lemma StepIs(s: State, i: Input)
    requires Enabled(s, i)
    ensures i.Exec? ==> Step(s, i) == OnExec(s, i.request) && i == Exec(i.request)
    ensures i.Ready? ==> i.pid in s.workers && Step(s, i) == OnReady(s, i.pid) && i == Ready(i.pid)
    ensures i.Exit? ==> i.pid in s.workers && Step(s, i) == OnExit(s, i.pid, i.next) && i == Exit(i.pid, i.next)
    ensures i.Close? ==> i.pid in s.workers && Step(s, i) == OnClose(s, i.pid, i.end) && i == Close(i.pid, i.end)
  {
    hide OnExec, OnReady, OnExit, OnClose, IsRound, StartedIds, Short;
  }

  lemma NotMisdirected(s: State, i: Input)
    ensures !i.Exec? && !i.Ready? ==> !Misdirects(s, i)
  {
  }

  lemma CarriedHasNone(s: State)
    requires Carried(s)
    ensures !Orphans(s)
  {
    forall id ensures !Orphan(s, id) { if id in s.inflight { assert Serves(s.workers[s.inflight[id]]); } }
  }

  predicate RunMisdirects(s: State, inputs: seq<Input>)
    decreases |inputs|
  {
    inputs != [] && Enabled(s, inputs[0]) && (Misdirects(s, inputs[0]) || RunMisdirects(Step(s, inputs[0]), inputs[1..]))
  }

  /** Over any run, orderly or not: a request is left in flight for good exactly when one
      was given to a worker that was closed or carried one already. */
  lemma {:induction false} OrphanIff(s: State, inputs: seq<Input>)
    requires Carried(s) && After(s, inputs).Some?
    ensures Orphans(After(s, inputs).value) <==> RunMisdirects(s, inputs)
    decreases |inputs|
  {
    hide Carried, Orphan, Enabled, Step, Misdirects;
    if inputs == [] {
      CarriedHasNone(s);
    } else {
      var t := Step(s, inputs[0]);
      CarriedStep(s, inputs[0]);
      if Misdirects(s, inputs[0]) {
        var id :| Orphan(t, id);
        OrphanForEver(t, inputs[1..], id);
      } else {
        OrphanIff(t, inputs[1..]);
      }
    }
  }

  lemma InitialIsCarried(first: Pid, second: Pid)
    ensures Carried(Initial(first, second))
  {
  }

  lemma EveryOrphan(first: Pid, second: Pid, inputs: seq<Input>)
    requires After(Initial(first, second), inputs).Some?
    ensures Orphans(After(Initial(first, second), inputs).value) <==> RunMisdirects(Initial(first, second), inputs)
  {
    InitialIsCarried(first, second);
    OrphanIff(Initial(first, second), inputs);
  }

  /** A worker that says `ready` again while it serves `a` is given `b` as well; when it
      closes only `b` is answered. */
  function ReadyTwice(): seq<Input> {
    [Ready(0)] + ([Exec(A)] + ([Ready(0)] + ([Exec(B)] + ([Exit(0, 2)] + ([Close(0, QUIET)] + [])))))
  }

  const QUIET := End(true, 0, 0, 0)

  const SERVES_B := PARKED.(request := Some(B))

  /** Worker 0 serves `a` and is on the idle list. */
  const TWICE := State(map[0 := SERVES_A, 1 := NEW_WORKER], [0], [], map["a" := 0], false, false, false, false, None,
                       [GotExec("a"), Forked("a")])

  /** Worker 0 has been given `b` as well. */
  const BOTH := State(map[0 := SERVES_B, 1 := NEW_WORKER], [], [], map["a" := 0, "b" := 0], false, false, false, false, None,
                      [GotExec("a"), Forked("a"), GotExec("b"), Forked("b")])

  lemma ReadyTwiceStarts(rest: seq<Input>)
    ensures After(Initial(0, 1), [Ready(0)] + ([Exec(A)] + ([Ready(0)] + rest))) == After(TWICE, rest)
  {
    Awaits([Ready(0)] + rest);
    assert Step(AWAITED, Ready(0)) == TWICE;
    hide Step, Initial, After;
    Unroll(AWAITED, Ready(0), rest);
  }

  lemma ReadyTwiceGivesBoth(rest: seq<Input>)
    ensures After(TWICE, [Exec(B)] + rest) == After(BOTH, rest)
  {
    assert Step(TWICE, Exec(B)) == BOTH;
    hide Step;
    Unroll(TWICE, Exec(B), rest);
  }

  lemma ReadyTwiceCloses()
    ensures var t := After(BOTH, [Exit(0, 2)] + ([Close(0, QUIET)] + [])); t.Some? && Orphan(t.value, "a") && Answers(t.value.trace, "a") == 0
  {
    var s5 := BOTH.(workers := map[0 := SERVES_B.(life := Exited), 1 := NEW_WORKER, 2 := NEW_WORKER]);
    var s6 := s5.(workers := map[0 := SERVES_B.(life := Closed), 1 := NEW_WORKER, 2 := NEW_WORKER], inflight := map["a" := 0],
                  trace := s5.trace + [Done("b")]);
    assert Step(BOTH, Exit(0, 2)) == s5;
    assert Step(s5, Close(0, QUIET)) == s6;
    assert Orphan(s6, "a");
    UnansweredCount([], s6.trace, "a");
    assert [] + s6.trace == s6.trace;
    hide Step, Orphan;
    Unroll(s5, Close(0, QUIET), []);
    Unroll(BOTH, Exit(0, 2), [Close(0, QUIET)] + []);
  }

  lemma ReadyTwiceOrphans()
    ensures var t := After(Initial(0, 1), ReadyTwice()); t.Some? && Orphan(t.value, "a") && Answers(t.value.trace, "a") == 0
  {
    hide After, Orphan, Answers, TWICE, BOTH, Initial;
    ReadyTwiceStarts([Exec(B)] + ([Exit(0, 2)] + ([Close(0, QUIET)] + [])));
    ReadyTwiceGivesBoth([Exit(0, 2)] + ([Close(0, QUIET)] + []));
    ReadyTwiceCloses();
  }

  /** A `ready` that arrives after the worker's exit puts it on the idle list for good;
      a request it is given after its close is never answered. */
  function ReadyLate(): seq<Input> { [Exit(0, 2)] + ([Ready(0)] + ([Close(0, QUIET)] + ([Exec(A)] + []))) }

  /** Worker 0 has exited and closed, and is on the idle list. */
  const SHUT := NEW_WORKER.(life := Closed)

  const LATE := State(map[0 := SHUT, 1 := NEW_WORKER, 2 := NEW_WORKER], [0], [], map[], false, false, false, false, None, [])

  lemma ReadyLateStarts(rest: seq<Input>)
    ensures After(Initial(0, 1), [Exit(0, 2)] + ([Ready(0)] + ([Close(0, QUIET)] + rest))) == After(LATE, rest)
  {
    var s0 := Initial(0, 1);
    var s1 := s0.(workers := map[0 := NEW_WORKER.(life := Exited), 1 := NEW_WORKER, 2 := NEW_WORKER]);
    var s2 := s1.(idle := [0]);
    assert Step(s0, Exit(0, 2)) == s1;
    assert Step(s1, Ready(0)) == s2;
    assert Step(s2, Close(0, QUIET)) == LATE;
    hide Step;
    Unroll(s2, Close(0, QUIET), rest);
    Unroll(s1, Ready(0), [Close(0, QUIET)] + rest);
    Unroll(s0, Exit(0, 2), [Ready(0)] + ([Close(0, QUIET)] + rest));
  }

  lemma ReadyLateTakes()
    ensures var t := After(LATE, [Exec(A)] + []); t.Some? && Orphan(t.value, "a") && Answers(t.value.trace, "a") == 0
  {
    var s4 := LATE.(workers := map[0 := SHUT.(request := Some(A)), 1 := NEW_WORKER, 2 := NEW_WORKER], idle := [],
                    inflight := map["a" := 0], trace := [GotExec("a"), Forked("a")]);
    assert Step(LATE, Exec(A)) == s4;
    assert Orphan(s4, "a");
    UnansweredCount([], s4.trace, "a");
    assert [] + s4.trace == s4.trace;
    hide Step, Orphan;
    Unroll(LATE, Exec(A), []);
  }

  lemma ReadyLateOrphans()
    ensures var t := After(Initial(0, 1), ReadyLate()); t.Some? && Orphan(t.value, "a") && Answers(t.value.trace, "a") == 0
  {
    hide After, Orphan, Answers, LATE, Initial;
    ReadyLateStarts([Exec(A)] + []);
    ReadyLateTakes();
  }
}
