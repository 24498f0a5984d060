/** The Node agent (`zygo_agent.js`): a pool of one-shot workers, a queue in front of
    it, and the supervisor's requests in flight. The event handlers of `Agent` are
    methods; the worker processes around it are part of the state, so that a run is
    any sequence of messages, worker events and timer ticks.
 */
module NodeAgent {

  import F = Framing
  import opened NodeQueue
  import opened Protocol
  import opened Wrappers

  const POOL_SIZE := 2

  const MAX_WAITING := 64

  type Pid = nat

  datatype Request = Request(id: Id, stream: bool)

  /** `Parked` once loaded; `Exited` when the process has ended; `Closed` when its
      pipes have too. */
  datatype Life = Starting | Parked | Exited | Closed

  /** The size of a value when it is encoded; `None` when it is nested too deeply for that. */
  type Size = Option<nat>

  /** Encoded, it fits in a frame with `more` around it. */
  predicate Room(more: nat, size: Size) { size.Some? && more + size.value <= F.MAX_FRAME_BYTES }

  /** A worker's `result` message. `value` is the size of what it says: the code and words
      of a refusal, or else the result or error; `usage` that of its readings. */
  datatype Report = Report(refusal: bool, value: Size, usage: Size)

  datatype Result = NoResult | Reported(report: Report)

  /** What a close brings: whether the request's directory can be removed, and how much
      DONE, the DONE that replaces one that is too long, and ERROR carry besides what the
      worker reported. */
  datatype End = End(cleans: bool, done: nat, replacement: nat, error: nat)

  /** What the agent itself puts in an answer fits in a frame. */
  predicate Short(end: End) {
    end.done <= F.MAX_FRAME_BYTES && end.replacement <= F.MAX_FRAME_BYTES && end.error <= F.MAX_FRAME_BYTES
  }

  /** A worker record. `linked` is whether its message channel is open on its side,
      `orders` counts `run` messages the process has not read yet, and `entered` how often
      it has entered the handler. */
  datatype Worker = Worker(life: Life, linked: bool, request: Option<Request>, started: bool, cancelled: bool,
                           result: Result, orders: nat, entered: nat)

  const NEW_WORKER := Worker(Starting, true, None, false, false, NoResult, 0, 0)

  function Ids(requests: seq<Request>): (ids: seq<Id>)
    ensures |ids| == |requests| && forall i | 0 <= i < |ids| :: ids[i] == requests[i].id
  {
    seq(|requests|, i requires 0 <= i < |requests| => requests[i].id)
  }

  // --- The handlers as steps --------------------------------------------------

  type Workers = map<Pid, Worker>

  /** A request whose answer could not be sent: out of the table, and not answered. */
  datatype Lost = Lost(id: Id, released: bool)

  /** `exited` is the agent's own exit; `crashed` an exception or error event that nothing
      handles; and `broken` that such an event is due, before any but the messages that
      came in one piece with the one that caused it. */
  datatype State = State(workers: Workers, idle: seq<Pid>, waiting: seq<Request>, inflight: map<Id, Pid>,
                         stopping: bool, exited: bool, crashed: bool, broken: bool, lost: Option<Lost>, trace: seq<Event>)

  /** What can happen to the agent: messages (`Shutdown` is also the end of the stream,
      and `Unknown` a message or body it does not understand), events of its worker
      processes, and the heartbeat timer. `Output` is what a worker prints or reports as
      progress, with the size of its CHUNK; `Null` a worker's message that is `null`; and
      `Dies` an unhandled error of another kind, such as a worker that cannot be started. */
  datatype Input =
    | Exec(request: Request) | Go(id: Id) | Cancel(id: Id) | Ping | Unknown | Shutdown
    | Ready(pid: Pid) | Reports(pid: Pid, report: Report) | Output(pid: Pid, size: Size) | Null(pid: Pid)
    | Enters(pid: Pid) | Disconnects(pid: Pid) | Exit(pid: Pid, next: Pid) | Close(pid: Pid, end: End)
    | Tick(round: seq<Id>)
    | Dies

  predicate Message(i: Input) { i.Exec? || i.Go? || i.Cancel? || i.Ping? || i.Unknown? || i.Shutdown? }

  predicate Live(w: Worker) { w.life == Starting || w.life == Parked }

  function Living(workers: Workers): set<Pid> { set pid | pid in workers && Live(workers[pid]) }

  predicate InFlight(s: State, id: Id) { id in s.inflight && s.inflight[id] in s.workers }

  function StartedIds(s: State): set<Id> { set id | id in s.inflight && InFlight(s, id) && s.workers[s.inflight[id]].started }

  /** What the supervisor and the operating system may do next: an id is not reused
      while its request is open, no EXEC follows SHUTDOWN, and a worker's pipes close
      after it has exited. A worker may say what it likes, `ready` included, until then,
      while its channel is open; and it outlives an agent that has crashed. */
  predicate Enabled(s: State, i: Input) {
    && !s.exited
    && (s.crashed ==> i.Enters?)
    && (s.broken ==> Message(i) || i.Dies? || i.Enters?)
    && match i
       case Exec(r) => !s.stopping && r.id !in s.inflight && r.id !in Ids(s.waiting)
       case Ready(pid) => Speaks(s, pid)
       case Reports(pid, _) => Speaks(s, pid)
       case Null(pid) => Speaks(s, pid)
       case Output(pid, _) => pid in s.workers && s.workers[pid].life != Closed
       case Enters(pid) => pid in s.workers && s.workers[pid].life == Parked && s.workers[pid].orders > 0
       case Disconnects(pid) => Speaks(s, pid) && Live(s.workers[pid])
       case Exit(pid, next) => pid in s.workers && Live(s.workers[pid]) && next !in s.workers
       case Close(pid, end) =>
         pid in s.workers && s.workers[pid].life == Exited && Short(end) && (!s.workers[pid].started ==> end.cleans)
       case Tick(round) => !s.stopping && IsRound(round, StartedIds(s))
       case _ => true
  }

  predicate Speaks(s: State, pid: Pid) { pid in s.workers && s.workers[pid].life != Closed && s.workers[pid].linked }

  function Sent(s: State, e: Event): State { s.(trace := s.trace + [e]) }

  function Dispatched(s: State, r: Request, pid: Pid): State {
    if pid !in s.workers then s else
    Sent(s, Forked(r.id)).(workers := s.workers[pid := s.workers[pid].(request := Some(r), cancelled := false)],
                           inflight := s.inflight[r.id := pid])
  }

  /** A worker that has said `ready`. */
  function Loaded(w: Worker): Worker { if w.life == Starting then w.(life := Parked) else w }

  function OnReady(s: State, pid: Pid): State
    requires pid in s.workers
  {
    var t := s.(workers := s.workers[pid := Loaded(s.workers[pid])]);
    if s.waiting != [] then Dispatched(t.(waiting := s.waiting[1..]), s.waiting[0], pid)
    else t.(idle := s.idle + [pid])
  }

  function OnReport(s: State, pid: Pid, report: Report): State
    requires pid in s.workers
  {
    var w := s.workers[pid];
    if w.request.None? then s
    else s.(workers := s.workers[pid := w.(result := Reported(report))])
  }

  function Crashed(s: State): State { s.(crashed := true) }

  /** A CHUNK that cannot be sent throws. */
  function OnOutput(s: State, pid: Pid, size: Size): State
    requires pid in s.workers
  {
    var w := s.workers[pid];
    if w.request.None? || !w.request.value.stream then s
    else if Room(0, size) then Sent(s, Chunk(w.request.value.id))
    else Crashed(s)
  }

  function OnEnter(s: State, pid: Pid): State
    requires pid in s.workers && s.workers[pid].orders > 0
  {
    var w := s.workers[pid];
    var t := s.(workers := s.workers[pid := w.(orders := w.orders - 1, entered := w.entered + 1)]);
    if w.request.Some? then Sent(t, Entered(w.request.value.id)) else t
  }

  function OnExit(s: State, pid: Pid, next: Pid): State
    requires pid in s.workers
  {
    var gone := s.workers[pid := s.workers[pid].(life := Exited)];
    s.(workers := if s.stopping then gone else gone[next := NEW_WORKER], idle := Without(s.idle, pid))
  }

  /** The event that answers the request of a worker that has closed; `None` when
      answering it throws. A refusal is an ERROR; a DONE that is too long is replaced by
      one without the result, and nothing catches that one. */
  function AnswerOf(w: Worker, end: End): Option<Event>
    requires w.request.Some?
  {
    var id := w.request.value.id;
    if !end.cleans then None
    else match w.result
      case NoResult => Some(Done(id))
      case Reported(r) =>
        if r.refusal then (if Room(end.error, r.value) then Some(Refused(id)) else None)
        else if r.value.None? || r.usage.None? then None
        else if Room(end.done + r.value.value, r.usage) || Room(end.replacement, r.usage) then Some(Done(id))
        else None
  }

  /** The request leaves the table first and is answered then. */
  function OnClose(s: State, pid: Pid, end: End): State
    requires pid in s.workers
  {
    var w := s.workers[pid];
    var t := s.(workers := s.workers[pid := w.(life := Closed)]);
    if w.request.None? then t else
      var id := w.request.value.id;
      var left := s.inflight - {id};
      var answer := AnswerOf(w, end);
      if answer.Some? then Sent(t, answer.value).(inflight := left, exited := s.stopping && left == map[])
      else Crashed(t).(inflight := left, lost := Some(Lost(id, w.started)))
  }

  function OnExec(s: State, r: Request): State {
    var t := Sent(s, GotExec(r.id));
    if s.idle != [] then Dispatched(t.(idle := s.idle[1..]), r, s.idle[0])
    else if |s.waiting| >= MAX_WAITING then Sent(t, Refused(r.id))
    else t.(waiting := s.waiting + [r])
  }

  /** A `run` that cannot be written to the worker's channel makes an error event. */
  function OnGo(s: State, id: Id): State {
    var t := Sent(s, GotGo(id));
    if !InFlight(s, id) || s.workers[s.inflight[id]].started then t else
      var w := s.workers[s.inflight[id]];
      if Live(w) && w.linked
      then t.(workers := s.workers[s.inflight[id] := w.(started := true, orders := w.orders + 1)])
      else t.(workers := s.workers[s.inflight[id] := w.(started := true)], broken := true)
  }

  function OnCancel(s: State, id: Id): State {
    if !InFlight(s, id) then s
    else s.(workers := s.workers[s.inflight[id] := s.workers[s.inflight[id]].(cancelled := true)])
  }

  function OnStop(s: State): State {
    s.(stopping := true, idle := [], waiting := [], trace := s.trace + Refusals(Ids(s.waiting)),
       exited := s.inflight == map[])
  }

  function Step(s: State, i: Input): State
    requires Enabled(s, i)
  {
    match i
    case Exec(r) => OnExec(s, r)
    case Go(id) => OnGo(s, id)
    case Cancel(id) => OnCancel(s, id)
    case Ping => s
    case Unknown => Sent(s, Complaint)
    case Shutdown => OnStop(s)
    case Ready(pid) => OnReady(s, pid)
    case Reports(pid, report) => OnReport(s, pid, report)
    case Output(pid, size) => OnOutput(s, pid, size)
    case Null(pid) => Crashed(s)
    case Enters(pid) => OnEnter(s, pid)
    case Disconnects(pid) => s.(workers := s.workers[pid := s.workers[pid].(linked := false)])
    case Exit(pid, next) => OnExit(s, pid, next)
    case Close(pid, end) => OnClose(s, pid, end)
    case Tick(round) => s.(trace := s.trace + Beats(round))
    case Dies => Crashed(s)
  }

  // --- What the handlers do, field by field -------------------------------------

  /** Encoded, it fits: shallow enough, and no longer than 32 MiB with what is around it. */
  lemma RoomIs(more: nat, size: Size)
    ensures Room(more, size) <==> size.Some? && more + size.value <= 33_554_432
  {
  }

  /** The record of a worker that has been given `r`. */
  predicate Given(before: Worker, after: Worker, r: Request) {
    after == before.(request := after.request, cancelled := after.cancelled) && after.request == Some(r) && !after.cancelled
  }

  /** An EXEC goes to the worker that has been idle longest; without one it is refused when
      64 requests wait, and otherwise waits behind them. */
  lemma ExecIs(s: State, r: Request)
    requires Enabled(s, Exec(r)) && (s.idle != [] ==> s.idle[0] in s.workers)
    ensures var t := Step(s, Exec(r));
            if s.idle != [] then
              && t.trace == s.trace + [GotExec(r.id), Forked(r.id)] && t.idle == s.idle[1..]
              && t.inflight == s.inflight[r.id := s.idle[0]]
              && t.workers.Keys == s.workers.Keys && Given(s.workers[s.idle[0]], t.workers[s.idle[0]], r)
              && (forall pid | pid in s.workers && pid != s.idle[0] :: t.workers[pid] == s.workers[pid])
              && t == s.(trace := t.trace, idle := t.idle, inflight := t.inflight, workers := t.workers)
            else if |s.waiting| >= 64 then t == s.(trace := s.trace + [GotExec(r.id), Refused(r.id)])
            else t == s.(trace := s.trace + [GotExec(r.id)], waiting := s.waiting + [r])
  {
  }

  /** A worker that says `ready` takes the request that has waited longest, or goes to the
      end of the idle list. */
  lemma ReadyIs(s: State, pid: Pid)
    requires Enabled(s, Ready(pid))
    ensures var t, w := Step(s, Ready(pid)), s.workers[pid].(life := if s.workers[pid].life == Starting then Parked else s.workers[pid].life);
            && t.workers.Keys == s.workers.Keys && (forall p | p in s.workers && p != pid :: t.workers[p] == s.workers[p])
            && if s.waiting != [] then
                 && t.trace == s.trace + [Forked(s.waiting[0].id)] && t.waiting == s.waiting[1..]
                 && t.inflight == s.inflight[s.waiting[0].id := pid] && Given(w, t.workers[pid], s.waiting[0])
                 && t == s.(trace := t.trace, waiting := t.waiting, inflight := t.inflight, workers := t.workers)
               else t.workers[pid] == w && t == s.(idle := s.idle + [pid], workers := t.workers)
  {
  }

  /** One that exits is off the idle list, and a new one is loading in its place unless the
      agent is stopping. */
  lemma ExitIs(s: State, pid: Pid, next: Pid)
    requires Enabled(s, Exit(pid, next)) && Distinct(s.idle)
    ensures var t := Step(s, Exit(pid, next));
            && t.workers[pid] == s.workers[pid].(life := Exited)
            && t.workers.Keys == s.workers.Keys + (if s.stopping then {} else {next})
            && (forall p | p in s.workers && p != pid :: t.workers[p] == s.workers[p])
            && (!s.stopping ==> t.workers[next] == Worker(Starting, true, None, false, false, NoResult, 0, 0))
            && (forall p :: p in t.idle <==> p in s.idle && p != pid)
            && t == s.(workers := t.workers, idle := t.idle)
  {
    WithoutKeepsRest(s.idle, pid);
    hide Without;
  }

  /** What a worker says and prints: its last report counts, while it has a request; output
      goes up for a streaming one; what cannot be sent, or read, crashes the agent; and with
      its order a worker enters the handler. */
  lemma WorkerIs(s: State, pid: Pid, report: Report, size: Size)
    requires pid in s.workers
    ensures Enabled(s, Reports(pid, report)) ==>
            Step(s, Reports(pid, report)) ==
            if s.workers[pid].request.None? then s
            else s.(workers := s.workers[pid := s.workers[pid].(result := Reported(report))])
    ensures Enabled(s, Output(pid, size)) ==>
            Step(s, Output(pid, size)) ==
            if s.workers[pid].request.None? || !s.workers[pid].request.value.stream then s
            else if size.Some? && size.value <= 33_554_432 then s.(trace := s.trace + [Chunk(s.workers[pid].request.value.id)])
            else s.(crashed := true)
    ensures Enabled(s, Null(pid)) ==> Step(s, Null(pid)) == s.(crashed := true)
    ensures Enabled(s, Disconnects(pid)) ==>
            Step(s, Disconnects(pid)) == s.(workers := s.workers[pid := s.workers[pid].(linked := false)])
    ensures Enabled(s, Enters(pid)) ==>
            var w := s.workers[pid];
            Step(s, Enters(pid)) ==
            s.(workers := s.workers[pid := w.(orders := w.orders - 1, entered := w.entered + 1)],
               trace := s.trace + if w.request.Some? then [Entered(w.request.value.id)] else [])
  {
  }

  /** What ends the request of a worker that closes: nothing when that cannot be sent, the
      ERROR of a refusal, or, in all other cases and so without any report, its DONE. */
  function EndOf(w: Worker, end: End): seq<Event>
    requires w.request.Some?
  {
    if Unsendable(w, end) then []
    else if w.result.Reported? && w.result.report.refusal then [Refused(w.request.value.id)]
    else [Done(w.request.value.id)]
  }

  /** The directory cannot be removed; or the worker's last report is a refusal too long
      for an ERROR; or it is a result that cannot be encoded, or is too long and has
      readings that are too long even without it. */
  predicate Unsendable(w: Worker, end: End) {
    || !end.cleans
    || (w.result.Reported? && var r := w.result.report;
        if r.refusal then r.value.None? || end.error + r.value.value > 33_554_432
        else r.value.None? || r.usage.None? ||
             (end.done + r.value.value + r.usage.value > 33_554_432 && end.replacement + r.usage.value > 33_554_432))
  }

  /** A close: the worker's request, if it has one, is out of the table, and its end is sent;
      when there is none the agent crashes and the request is lost; and the agent exits when
      it was stopping and the request was the last. */
  lemma CloseIs(s: State, pid: Pid, end: End)
    requires Enabled(s, Close(pid, end))
    ensures var t, w := Step(s, Close(pid, end)), s.workers[pid];
            && t.workers == s.workers[pid := w.(life := Closed)]
            && if w.request.None? then t == s.(workers := t.workers)
               else
                 var id, left := w.request.value.id, s.inflight - {w.request.value.id};
                 && t.inflight == left && t.trace == s.trace + EndOf(w, end)
                 && (if EndOf(w, end) == [] then t.crashed && t.lost == Some(Lost(id, w.started)) && t.exited == s.exited
                     else t.crashed == s.crashed && t.lost == s.lost && t.exited == (s.stopping && left == map[]))
                 && t == s.(workers := t.workers, inflight := left, trace := t.trace, crashed := t.crashed, lost := t.lost, exited := t.exited)
  {
    var w := s.workers[pid];
    if w.request.Some? { AnswerIsTerminal(w, end); }
    hide AnswerOf, Unsendable, Short;
    assert s.trace + [] == s.trace;
  }

  /** GO, the first time, releases its request and gives the worker the event, or, when that
      cannot be written to it, makes an error event; any other changes nothing. */
  lemma GoIs(s: State, id: Id)
    requires Enabled(s, Go(id))
    ensures var t := Step(s, Go(id));
            && t.trace == s.trace + [GotGo(id)]
            && (if id in s.inflight && s.inflight[id] in s.workers && !s.workers[s.inflight[id]].started then
                  var pid := s.inflight[id];
                  var w := s.workers[pid];
                  if (w.life == Starting || w.life == Parked) && w.linked
                  then t == s.(trace := t.trace, workers := s.workers[pid := w.(started := true, orders := w.orders + 1)])
                  else t == s.(trace := t.trace, broken := true, workers := s.workers[pid := w.(started := true)])
                else t == s.(trace := t.trace))
  {
  }

  /** CANCEL marks the worker of its request, and that is all. */
  lemma CancelIs(s: State, id: Id)
    requires Enabled(s, Cancel(id))
    ensures var t := Step(s, Cancel(id));
            if id in s.inflight && s.inflight[id] in s.workers then
              && t.workers[s.inflight[id]].cancelled
              && t == s.(workers := s.workers[s.inflight[id] := s.workers[s.inflight[id]].(cancelled := true)])
            else t == s
  {
  }

  /** Shutdown, or the end of the stream: every waiting request is refused in order, nobody
      is idle or waits any more, and the agent exits if nothing is in flight. */
  lemma StopIs(s: State)
    requires Enabled(s, Shutdown)
    ensures var t, n := Step(s, Shutdown), |s.waiting|;
            && t.stopping && t.idle == [] && t.waiting == [] && t.exited == (s.inflight == map[])
            && |t.trace| == |s.trace| + n && t.trace[..|s.trace|] == s.trace
            && (forall k | 0 <= k < n :: t.trace[|s.trace| + k] == Refused(s.waiting[k].id))
            && t == s.(stopping := true, idle := [], waiting := [], trace := t.trace, exited := t.exited)
  {
  }

  /** The rest: a complaint, nothing, an error without a listener, a heartbeat. */
  lemma MessageIs(s: State, round: seq<Id>)
    requires Enabled(s, Dies)
    ensures Enabled(s, Unknown) ==> Step(s, Unknown) == s.(trace := s.trace + [Complaint])
    ensures Enabled(s, Ping) ==> Step(s, Ping) == s
    ensures Step(s, Dies) == s.(crashed := true)
    ensures Enabled(s, Tick(round)) ==>
            && (forall id :: id in round <==> id in s.inflight && s.inflight[id] in s.workers && s.workers[s.inflight[id]].started)
            && Step(s, Tick(round)) == s.(trace := s.trace + seq(|round|, k requires 0 <= k < |round| => Beat(round[k])))
  {
    assert Beats(round) == seq(|round|, k requires 0 <= k < |round| => Beat(round[k]));
    hide Beats;
  }

  // --- What every step keeps --------------------------------------------------

  predicate Fits(w: Worker) {
    && (w.life == Starting ==> w.request.None?)
    && (w.request.None? ==> !w.started && w.result == NoResult)
    && w.orders + w.entered <= (if w.started then 1 else 0)
  }

  predicate Free(w: Worker) { w.life == Parked && w.request.None? }

  predicate IdleOk(workers: Workers, idle: seq<Pid>, stopping: bool) {
    && Distinct(idle)
    && (forall pid | pid in idle :: pid in workers && Free(workers[pid]))
    && (!stopping ==> forall pid | pid in workers && Free(workers[pid]) :: pid in idle)
  }

  predicate Serves(w: Worker) { w.request.Some? && w.life != Closed }

  /** `inflight` and the workers' own requests say the same. */
  predicate InflightOk(workers: Workers, inflight: map<Id, Pid>) {
    && (forall id | id in inflight ::
          inflight[id] in workers && Serves(workers[inflight[id]]) && workers[inflight[id]].request.value.id == id)
    && (forall pid | pid in workers && Serves(workers[pid]) ::
          workers[pid].request.value.id in inflight && inflight[workers[pid].request.value.id] == pid)
  }

  predicate Tables(s: State) {
    && (forall pid | pid in s.workers :: Fits(s.workers[pid]))
    && IdleOk(s.workers, s.idle, s.stopping)
    && InflightOk(s.workers, s.inflight)
    && Distinct(Ids(s.waiting))
    && (forall id | id in s.inflight :: id !in Ids(s.waiting))
  }

  /** The queue is short and empty while a worker is free; the pool is full until the
      agent stops; it exits, unless it has crashed, once it is stopping and nothing is in
      flight. */
  predicate Pool(s: State) {
    && (s.idle != [] ==> s.waiting == [])
    && |s.waiting| <= MAX_WAITING
    && (s.stopping ==> s.waiting == [])
    && (!s.stopping ==> |Living(s.workers)| == POOL_SIZE)
    && (s.exited <==> s.stopping && s.inflight == map[] && !s.crashed)
  }

  /** A request is lost by a crash only, and was in flight. */
  predicate LostOk(s: State) {
    s.lost.Some? ==> s.crashed && s.lost.value.id !in s.inflight && s.lost.value.id !in Ids(s.waiting)
  }

  function PhaseOf(s: State, id: Id): Phase {
    if InFlight(s, id) then (if s.workers[s.inflight[id]].started then Released else Blocked)
    else if id in Ids(s.waiting) then Waiting
    else if s.lost.Some? && s.lost.value.id == id then (if s.lost.value.released then Released else Blocked)
    else Absent
  }

  ghost function Phases(s: State): Id -> Phase { id => PhaseOf(s, id) }

  ghost predicate Valid(s: State) {
    && Tables(s)
    && Pool(s) && LostOk(s)
    && Queue(s.trace) == Some(Ids(s.waiting))
    && Follows(s.trace, Phases(s))
    && ChunksOpen(s.trace)
  }

  /** A `ready` that leaves the agent's tables right: a worker's first, or one from an
      exited worker that takes a waiting request with it, which its close will answer, or
      one during shutdown from a free worker that is not on the idle list. */
  predicate Welcome(s: State, pid: Pid)
    requires pid in s.workers
  {
    var w := s.workers[pid];
    || w.life == Starting
    || (w.life == Exited && w.request.None? && s.waiting != [])
    || (s.stopping && Free(w) && pid !in s.idle)
  }

  /** The agent checks nothing of the kind, so this is a hypothesis on its workers. */
  predicate Proper(s: State, i: Input) { Enabled(s, i) && (i.Ready? ==> Welcome(s, i.pid)) }

  lemma IdsOfTail(waiting: seq<Request>, r: Request)
    ensures Ids(waiting + [r]) == Ids(waiting) + [r.id]
    ensures waiting != [] ==> Ids(waiting) == [waiting[0].id] + Ids(waiting[1..])
  {
    if waiting != [] { assert Ids(waiting) == [waiting[0].id] + Ids(waiting[1..]); }
  }

  lemma InflightSame(workers: Workers, inflight: map<Id, Pid>, pid: Pid, w: Worker)
    requires InflightOk(workers, inflight)
    requires if pid in workers then w.request == workers[pid].request && Serves(w) == Serves(workers[pid]) else !Serves(w)
    ensures InflightOk(workers[pid := w], inflight)
  {
  }

  lemma InflightMore(workers: Workers, inflight: map<Id, Pid>, pid: Pid, w: Worker)
    requires InflightOk(workers, inflight) && pid in workers && !Serves(workers[pid])
    requires Serves(w) && w.request.value.id !in inflight
    ensures InflightOk(workers[pid := w], inflight[w.request.value.id := pid])
  {
  }

  lemma InflightLess(workers: Workers, inflight: map<Id, Pid>, pid: Pid, w: Worker)
    requires InflightOk(workers, inflight) && pid in workers && Serves(workers[pid]) && !Serves(w)
    ensures InflightOk(workers[pid := w], inflight - {workers[pid].request.value.id})
  {
  }

  lemma IdleSame(workers: Workers, idle: seq<Pid>, stopping: bool, pid: Pid, w: Worker)
    requires IdleOk(workers, idle, stopping)
    requires !Free(w) && (pid in workers ==> !Free(workers[pid]))
    ensures IdleOk(workers[pid := w], idle, stopping)
  {
  }

  lemma IdleMore(workers: Workers, idle: seq<Pid>, stopping: bool, pid: Pid, w: Worker)
    requires IdleOk(workers, idle, stopping) && pid in workers && !Free(workers[pid]) && Free(w)
    ensures IdleOk(workers[pid := w], idle + [pid], stopping)
  {
    forall p | p in workers[pid := w] && Free(workers[pid := w][p]) && !stopping ensures p in idle + [pid] {
      if p != pid { assert p in idle; }
    }
  }

  lemma IdleLess(workers: Workers, idle: seq<Pid>, stopping: bool, pid: Pid, w: Worker)
    requires IdleOk(workers, idle, stopping) && pid in workers && !Free(w)
    ensures IdleOk(workers[pid := w], Without(idle, pid), stopping)
  {
    WithoutKeepsRest(idle, pid);
    hide Without;
  }

  lemma IdleFront(s: State)
    requires Tables(s)
    ensures forall pid | pid in s.idle :: pid in s.workers
    ensures s.idle != [] ==> s.idle[0] in s.workers && Free(s.workers[s.idle[0]])
  {
    if s.idle != [] { assert s.idle[0] in s.idle; }
  }

  lemma ExecKeepsTables(s: State, r: Request)
    requires Tables(s) && Enabled(s, Exec(r))
    ensures Tables(OnExec(s, r))
  {
    hide IdleOk, InflightOk;
    IdsOfTail(s.waiting, r);
    if s.idle != [] {
      IdleFront(s);
      var w := s.workers[s.idle[0]].(request := Some(r), cancelled := false);
      InflightMore(s.workers, s.inflight, s.idle[0], w);
      IdleLess(s.workers, s.idle, s.stopping, s.idle[0], w);
    }
  }

  lemma ReadyKeepsTables(s: State, pid: Pid)
    requires Tables(s) && Pool(s) && Enabled(s, Ready(pid)) && Welcome(s, pid)
    ensures Tables(OnReady(s, pid))
  {
    hide IdleOk, InflightOk;
    var w := Loaded(s.workers[pid]);
    assert Fits(s.workers[pid]);
    if s.waiting != [] {
      IdsOfTail(s.waiting, s.waiting[0]);
      var busy := w.(request := Some(s.waiting[0]), cancelled := false);
      assert s.workers[pid := w][pid := busy] == s.workers[pid := busy];
      InflightMore(s.workers, s.inflight, pid, busy);
      IdleSame(s.workers, s.idle, s.stopping, pid, busy);
    } else {
      InflightSame(s.workers, s.inflight, pid, w);
      if s.workers[pid].life == Starting {
        IdleMore(s.workers, s.idle, s.stopping, pid, w);
      } else {
        assert s.workers[pid := w] == s.workers;
        IdleAgain(s.workers, s.idle, s.stopping, pid);
      }
    }
  }

  lemma IdleAgain(workers: Workers, idle: seq<Pid>, stopping: bool, pid: Pid)
    requires IdleOk(workers, idle, stopping) && pid in workers && Free(workers[pid]) && stopping
    ensures IdleOk(workers, idle + [pid], stopping) <==> pid !in idle
  {
    if pid in idle {
      var k :| 0 <= k < |idle| && idle[k] == pid;
      assert (idle + [pid])[k] == (idle + [pid])[|idle|];
    }
  }

  /** The agent's tables survive a `ready` exactly when it is welcome. */
  lemma WelcomeIff(s: State, pid: Pid)
    requires Tables(s) && Pool(s) && Enabled(s, Ready(pid))
    ensures Tables(OnReady(s, pid)) <==> Welcome(s, pid)
  {
    var w := s.workers[pid];
    if Welcome(s, pid) {
      ReadyKeepsTables(s, pid);
    } else if w.request.Some? {
      BusyReady(s, pid);
    } else {
      FreeReady(s, pid);
    }
  }

  /** A worker that already carries a request: the request is forgotten, or the worker
      is on the idle list with it. */
  lemma BusyReady(s: State, pid: Pid)
    requires Tables(s) && Enabled(s, Ready(pid)) && s.workers[pid].request.Some?
    ensures !Tables(OnReady(s, pid))
  {
    var w, t := s.workers[pid], OnReady(s, pid);
    var id := w.request.value.id;
    assert Fits(w) && Serves(w);
    assert id in s.inflight && s.inflight[id] == pid;
    assert s.workers[pid := w] == s.workers;
    if s.waiting != [] {
      IdsOfTail(s.waiting, s.waiting[0]);
      assert s.waiting[0].id in Ids(s.waiting) && id !in Ids(s.waiting);
      assert t.inflight[id] == pid && t.workers[pid].request.value.id != id;
    } else {
      assert t.idle[|s.idle|] == pid;
    }
  }

  /** A worker that carries nothing and is unwelcome: on the list twice, or exited. */
  lemma FreeReady(s: State, pid: Pid)
    requires Tables(s) && Pool(s) && Enabled(s, Ready(pid)) && s.workers[pid].request.None? && !Welcome(s, pid)
    ensures !Tables(OnReady(s, pid))
  {
    var w, t := s.workers[pid], OnReady(s, pid);
    assert s.workers[pid := w] == s.workers;
    if w.life == Parked {
      assert pid in s.idle;
      assert t.idle == s.idle + [pid];
      if s.stopping { IdleAgain(s.workers, s.idle, true, pid); } else { Twice(s.idle, pid); }
    } else {
      assert t.idle[|s.idle|] == pid;
    }
  }

  lemma Twice<T>(s: seq<T>, x: T)
    requires x in s
    ensures !Distinct(s + [x])
  {
    var k :| 0 <= k < |s| && s[k] == x;
    assert (s + [x])[k] == (s + [x])[|s|];
  }

  lemma ExitKeepsTables(s: State, pid: Pid, next: Pid)
    requires Tables(s) && Enabled(s, Exit(pid, next))
    ensures Tables(OnExit(s, pid, next))
  {
    hide IdleOk, InflightOk, Without;
    var gone := s.workers[pid].(life := Exited);
    InflightSame(s.workers, s.inflight, pid, gone);
    IdleLess(s.workers, s.idle, s.stopping, pid, gone);
    InflightSame(s.workers[pid := gone], s.inflight, next, NEW_WORKER);
    IdleSame(s.workers[pid := gone], Without(s.idle, pid), s.stopping, next, NEW_WORKER);
  }

  lemma CloseKeepsTables(s: State, pid: Pid, end: End)
    requires Tables(s) && pid in s.workers && s.workers[pid].life == Exited
    ensures Tables(OnClose(s, pid, end))
  {
    hide IdleOk, InflightOk, AnswerOf, Distinct;
    var gone := s.workers[pid].(life := Closed);
    assert Fits(s.workers[pid]) && Fits(gone);
    IdleSame(s.workers, s.idle, s.stopping, pid, gone);
    if gone.request.Some? {
      InflightLess(s.workers, s.inflight, pid, gone);
    } else {
      InflightSame(s.workers, s.inflight, pid, gone);
    }
  }

  /** A step that changes a worker's record but not what it carries or whether it is free. */
  lemma RecordKeepsTables(s: State, pid: Pid, w: Worker, trace: seq<Event>)
    requires Tables(s) && pid in s.workers && Fits(w)
    requires w.request == s.workers[pid].request && w.life == s.workers[pid].life
    ensures Tables(s.(workers := s.workers[pid := w], trace := trace))
  {
    hide InflightOk;
    InflightSame(s.workers, s.inflight, pid, w);
  }

  lemma TablesOf(k: State, t: State)
    requires Tables(k) && k.workers == t.workers && k.inflight == t.inflight && k.waiting == t.waiting
    requires k.idle == t.idle && k.stopping == t.stopping
    ensures Tables(t)
  {
  }

  lemma GoKeepsTables(s: State, id: Id)
    requires Tables(s)
    ensures Tables(OnGo(s, id)) && Tables(OnCancel(s, id))
  {
    hide IdleOk, Distinct;
    if InFlight(s, id) {
      var w := s.workers[s.inflight[id]];
      assert Fits(w) && Serves(w);
      hide InflightOk;
      if !w.started {
        RecordKeepsTables(s, s.inflight[id], w.(started := true, orders := w.orders + 1), s.trace);
        RecordKeepsTables(s, s.inflight[id], w.(started := true), s.trace);
      }
      RecordKeepsTables(s, s.inflight[id], w.(cancelled := true), s.trace);
      hide Fits, Tables;
      TablesOf(s.(workers := OnGo(s, id).workers), OnGo(s, id));
    } else {
      hide Fits, Tables;
      TablesOf(s, OnGo(s, id));
    }
  }

  lemma WorkerKeepsTables(s: State, pid: Pid, report: Report)
    requires Tables(s) && pid in s.workers
    ensures Tables(OnReport(s, pid, report)) && Tables(s.(workers := s.workers[pid := s.workers[pid].(linked := false)]))
    ensures s.workers[pid].orders > 0 ==> Tables(OnEnter(s, pid))
  {
    hide IdleOk, InflightOk;
    var w := s.workers[pid];
    if w.request.Some? { RecordKeepsTables(s, pid, w.(result := Reported(report)), s.trace); }
    RecordKeepsTables(s, pid, w.(linked := false), s.trace);
    if w.orders > 0 {
      RecordKeepsTables(s, pid, w.(orders := w.orders - 1, entered := w.entered + 1), OnEnter(s, pid).trace);
    }
  }

  lemma StepKeepsTables(s: State, i: Input)
    requires Tables(s) && Pool(s) && Proper(s, i)
    ensures Tables(Step(s, i))
  {
    hide IdleOk, InflightOk, Fits, AnswerOf, Distinct, Short, OnExec, OnGo, OnCancel, OnClose, OnExit, OnReady, OnReport, OnEnter, OnStop;
    match i
    case Exec(r) => ExecKeepsTables(s, r);
    case Ready(pid) => ReadyKeepsTables(s, pid);
    case Exit(pid, next) => ExitKeepsTables(s, pid, next);
    case Close(pid, end) => CloseKeepsTables(s, pid, end);
    case Go(id) => GoKeepsTables(s, id);
    case Cancel(id) => GoKeepsTables(s, id);
    case Reports(pid, report) => WorkerKeepsTables(s, pid, report);
    case Disconnects(pid) => WorkerKeepsTables(s, pid, Report(false, None, None));
    case Enters(pid) => WorkerKeepsTables(s, pid, Report(false, None, None));
    case Shutdown => StopKeepsTables(s);
    case _ =>
  }

  lemma StopKeepsTables(s: State)
    requires Tables(s)
    ensures Tables(OnStop(s))
  {
    hide InflightOk, Fits, Free;
  }

  lemma LivingSame(workers: Workers, pid: Pid, w: Worker)
    requires Live(w) == (pid in workers && Live(workers[pid]))
    ensures Living(workers[pid := w]) == Living(workers)
  {
  }

  /** One exits and one starts. */
  lemma LivingSwap(workers: Workers, pid: Pid, gone: Worker, next: Pid)
    requires pid in workers && Live(workers[pid]) && !Live(gone) && next !in workers
    ensures |Living(workers[pid := gone][next := NEW_WORKER])| == |Living(workers)|
  {
    assert Living(workers[pid := gone][next := NEW_WORKER]) == Living(workers) - {pid} + {next};
  }

  lemma StepKeepsLiving(s: State, i: Input)
    requires Tables(s) && Enabled(s, i)
    ensures !s.stopping || !i.Exit? ==> |Living(Step(s, i).workers)| == |Living(s.workers)|
  {
    hide Tables, Living, Without, Distinct, Fits, Free, Queue, AnswerOf, Short;
    IdleFront(s);
    match i
    case Exec(r) =>
      if s.idle != [] {
        LivingSame(s.workers, s.idle[0], s.workers[s.idle[0]].(request := Some(r), cancelled := false));
      }
    case Ready(pid) =>
      var w := Loaded(s.workers[pid]);
      LivingSame(s.workers, pid, w);
      if s.waiting != [] {
        LivingSame(s.workers[pid := w], pid, w.(request := Some(s.waiting[0]), cancelled := false));
      }
    case Exit(pid, next) => LivingSwap(s.workers, pid, s.workers[pid].(life := Exited), next);
    case Close(pid, _) => LivingSame(s.workers, pid, s.workers[pid].(life := Closed));
    case Disconnects(pid) => LivingSame(s.workers, pid, s.workers[pid].(linked := false));
    case Go(id) => RecordKeepsLiving(s, id);
    case Cancel(id) => RecordKeepsLiving(s, id);
    case Reports(pid, report) => LivingSame(s.workers, pid, s.workers[pid].(result := Reported(report)));
    case Enters(pid) =>
      var w := s.workers[pid];
      LivingSame(s.workers, pid, w.(orders := w.orders - 1, entered := w.entered + 1));
    case _ =>
  }

  lemma StepKeepsPool(s: State, i: Input)
    requires Tables(s) && Pool(s) && Enabled(s, i)
    ensures Pool(Step(s, i))
  {
    hide Living, AnswerOf, Short, IsRound, StartedIds, Tables, Without, OnExec, OnClose, OnReady, OnExit;
    StepKeepsLiving(s, i);
    match i
    case Exec(r) => ExecKeepsPool(s, r);
    case Ready(pid) => ReadyKeepsPool(s, pid);
    case Exit(pid, next) => ExitKeepsPool(s, pid, next);
    case Close(pid, end) => CloseKeepsPool(s, pid, end);
    case _ =>
  }

  lemma ExecKeepsPool(s: State, r: Request)
    requires Pool(s) && Enabled(s, Exec(r)) && |Living(OnExec(s, r).workers)| == |Living(s.workers)|
    ensures Pool(OnExec(s, r))
  {
    hide Living;
  }

  lemma ReadyKeepsPool(s: State, pid: Pid)
    requires Pool(s) && Enabled(s, Ready(pid)) && |Living(OnReady(s, pid).workers)| == |Living(s.workers)|
    ensures Pool(OnReady(s, pid))
  {
    hide Living;
  }

  lemma ExitKeepsPool(s: State, pid: Pid, next: Pid)
    requires Pool(s) && Enabled(s, Exit(pid, next))
    requires !s.stopping ==> |Living(OnExit(s, pid, next).workers)| == |Living(s.workers)|
    ensures Pool(OnExit(s, pid, next))
  {
    hide Living, Without;
    NothingIn(s.idle, pid);
  }

  lemma CloseKeepsPool(s: State, pid: Pid, end: End)
    requires Pool(s) && Enabled(s, Close(pid, end)) && |Living(OnClose(s, pid, end).workers)| == |Living(s.workers)|
    ensures Pool(OnClose(s, pid, end))
  {
    hide Living, AnswerOf, Short;
  }

  lemma RecordKeepsLiving(s: State, id: Id)
    ensures Living(OnGo(s, id).workers) == Living(s.workers) == Living(OnCancel(s, id).workers)
  {
    hide Living;
    if InFlight(s, id) {
      var w := s.workers[s.inflight[id]];
      LivingSame(s.workers, s.inflight[id], w.(started := true, orders := w.orders + 1));
      LivingSame(s.workers, s.inflight[id], w.(started := true));
      LivingSame(s.workers, s.inflight[id], w.(cancelled := true));
    }
  }

  // --- The run against the queue ----------------------------------------------

  lemma ExecKeepsQueue(s: State, r: Request)
    requires Tables(s) && Pool(s) && Enabled(s, Exec(r)) && Queue(s.trace) == Some(Ids(s.waiting))
    ensures var t := OnExec(s, r); Queue(t.trace) == Some(Ids(t.waiting))
  {
    hide InflightOk, Living, Fits, Queue, Without, Distinct;
    var ids, more := Ids(s.waiting), s.trace + [GotExec(r.id)];
    QueueOneMore(s.trace, GotExec(r.id));
    QueueOneMore(more, Forked(r.id));
    QueueOneMore(more, Refused(r.id));
    WithoutAbsent(ids, r.id);
    IdsOfTail(s.waiting, r);
    if s.idle != [] { assert ids == [] && (ids + [r.id])[1..] == []; }
  }

  lemma CloseKeepsQueue(s: State, pid: Pid, end: End)
    requires Tables(s) && Enabled(s, Close(pid, end)) && Queue(s.trace) == Some(Ids(s.waiting))
    ensures var t := OnClose(s, pid, end); Queue(t.trace) == Some(Ids(t.waiting))
  {
    hide IdleOk, Fits, Queue, Without, Distinct, Short, AnswerOf, Unsendable;
    var ids, w := Ids(s.waiting), s.workers[pid];
    if w.request.Some? {
      assert Serves(w);
      var id := w.request.value.id;
      AnswerIsTerminal(w, end);
      WithoutAbsent(ids, id);
      QueueOneMore(s.trace, Refused(id));
      QueueOneMore(s.trace, Done(id));
    }
  }

  lemma StepKeepsQueue(s: State, i: Input)
    requires Tables(s) && Pool(s) && Enabled(s, i) && Queue(s.trace) == Some(Ids(s.waiting))
    ensures var t := Step(s, i); Queue(t.trace) == Some(Ids(t.waiting))
  {
    hide IdleOk, Living, Fits, Queue, Without, Distinct, Short, InflightOk, OnClose;
    var ids := Ids(s.waiting);
    match i
    case Exec(r) => ExecKeepsQueue(s, r);
    case Ready(pid) =>
      if s.waiting != [] {
        IdsOfTail(s.waiting, s.waiting[0]);
        QueueOneMore(s.trace, Forked(s.waiting[0].id));
      }
    case Close(pid, end) => CloseKeepsQueue(s, pid, end);
    case Shutdown => RefusalsEmptyQueue(s.trace, ids);
    case Tick(round) => BeatsKeepQueue(s.trace, round);
    case Go(id) => QueueOneMore(s.trace, GotGo(id));
    case Unknown => QueueOneMore(s.trace, Complaint);
    case Output(pid, _) =>
      if s.workers[pid].request.Some? { QueueOneMore(s.trace, Chunk(s.workers[pid].request.value.id)); }
    case Enters(pid) =>
      if s.workers[pid].request.Some? { QueueOneMore(s.trace, Entered(s.workers[pid].request.value.id)); }
    case _ =>
  }

  // --- The run against the protocol -------------------------------------------

  /** A worker that carries nothing takes a request that has no phase yet or waits. */
  lemma DispatchPhases(s: State, r: Request, pid: Pid, w: Worker)
    requires InflightOk(s.workers, s.inflight) && pid in s.workers && !Serves(s.workers[pid]) && !w.started
    ensures var t := s.(workers := s.workers[pid := w], inflight := s.inflight[r.id := pid]);
            forall id :: PhaseOf(t, id) == if id == r.id then Blocked else PhaseOf(s, id)
  {
  }

  lemma ExecFollows(s: State, r: Request)
    requires Tables(s) && Pool(s) && LostOk(s) && Follows(s.trace, Phases(s)) && Enabled(s, Exec(r))
    ensures var t := OnExec(s, r); Follows(t.trace, Phases(t))
  {
    hide IdleOk, Follows, InflightOk, Distinct;
    IdleFront(s);
    var waits := (id: Id) => if id == r.id then Waiting else PhaseOf(s, id);
    FollowsStep(s.trace, GotExec(r.id), Phases(s), waits);
    var t := OnExec(s, r);
    var more := s.trace + [GotExec(r.id)];
    IdsOfTail(s.waiting, r);
    if s.idle != [] {
      DispatchPhases(s, r, s.idle[0], s.workers[s.idle[0]].(request := Some(r), cancelled := false));
      FollowsStep(more, Forked(r.id), waits, Phases(t));
    } else if |s.waiting| >= MAX_WAITING {
      FollowsStep(more, Refused(r.id), waits, Phases(t));
    } else {
      FollowsSame(more, waits, Phases(t));
    }
  }

  lemma ReadyFollows(s: State, pid: Pid)
    requires Tables(s) && Pool(s) && LostOk(s) && Follows(s.trace, Phases(s)) && Enabled(s, Ready(pid)) && Welcome(s, pid)
    ensures var t := OnReady(s, pid); Follows(t.trace, Phases(t))
  {
    hide Follows, InflightOk, Distinct;
    var t := OnReady(s, pid);
    if s.waiting != [] {
      IdsOfTail(s.waiting, s.waiting[0]);
      var w := Loaded(s.workers[pid]);
      assert Fits(s.workers[pid]);
      var busy := w.(request := Some(s.waiting[0]), cancelled := false);
      assert s.workers[pid := w][pid := busy] == s.workers[pid := busy];
      DispatchPhases(s, s.waiting[0], pid, busy);
      FollowsStep(s.trace, Forked(s.waiting[0].id), Phases(s), Phases(t));
    } else {
      FollowsSame(s.trace, Phases(s), Phases(t));
    }
  }

  /** A close answers the worker's request or loses it, and touches no other. */
  lemma ClosePhases(s: State, pid: Pid, end: End)
    requires Tables(s) && LostOk(s) && Enabled(s, Close(pid, end)) && s.workers[pid].request.Some?
    ensures var id, t := s.workers[pid].request.value.id, OnClose(s, pid, end);
            && PhaseOf(s, id) in {Blocked, Released}
            && PhaseOf(t, id) == (if AnswerOf(s.workers[pid], end).Some? then Absent else PhaseOf(s, id))
            && forall other | other != id :: PhaseOf(t, other) == PhaseOf(s, other)
  {
    hide IdleOk, AnswerOf, Short;
    assert Serves(s.workers[pid]);
  }

  /** What answers a request is its DONE or its ERROR, and there is none exactly when the
      answer is `Unsendable`. */
  lemma AnswerIsTerminal(w: Worker, end: End)
    requires w.request.Some?
    ensures var answer := AnswerOf(w, end);
            && (answer.Some? ==> answer.value in {Done(w.request.value.id), Refused(w.request.value.id)})
            && (answer.None? <==> Unsendable(w, end))
            && EndOf(w, end) == (if answer.Some? then [answer.value] else [])
  {
  }

  lemma CloseFollows(s: State, pid: Pid, end: End)
    requires Tables(s) && LostOk(s) && Follows(s.trace, Phases(s)) && Enabled(s, Close(pid, end))
    ensures var t := OnClose(s, pid, end); Follows(t.trace, Phases(t))
  {
    hide Tables, Follows, AnswerOf, Unsendable, LostOk;
    var w, t := s.workers[pid], OnClose(s, pid, end);
    if w.request.None? {
      FollowsSame(s.trace, Phases(s), Phases(t));
    } else {
      ClosePhases(s, pid, end);
      AnswerIsTerminal(w, end);
      hide PhaseOf;
      var answer := AnswerOf(w, end);
      if answer.Some? {
        FollowsStep(s.trace, answer.value, Phases(s), Phases(t));
      } else {
        FollowsSame(s.trace, Phases(s), Phases(t));
      }
    }
  }

  lemma CloseKeepsLost(s: State, pid: Pid, end: End)
    requires Tables(s) && LostOk(s) && Enabled(s, Close(pid, end))
    ensures LostOk(OnClose(s, pid, end))
  {
    hide IdleOk, AnswerOf, Short;
    if s.workers[pid].request.Some? { assert Serves(s.workers[pid]); }
  }

  lemma StepKeepsLost(s: State, i: Input)
    requires Tables(s) && LostOk(s) && Enabled(s, i)
    ensures LostOk(Step(s, i))
  {
    hide Tables, AnswerOf, Short, Living, Without, Queue, IsRound, StartedIds;
    if i.Close? {
      CloseKeepsLost(s, i.pid, i.end);
    } else if s.lost.None? {
      hide LostOk;
      OnlyCloseLoses(s, i);
      assert LostOk(Step(s, i)) by { NoneLost(Step(s, i)); }
    }
  }

  lemma NoneLost(s: State)
    ensures s.lost.None? ==> LostOk(s)
  {
  }

  lemma OnlyCloseLoses(s: State, i: Input)
    requires Enabled(s, i) && !i.Close?
    ensures Step(s, i).lost == s.lost
  {
    hide AnswerOf, OnClose, Short, Living, Without, Queue, IsRound, StartedIds;
  }

  lemma {:induction false} StopFollows(trace: seq<Event>, ids: seq<Id>, before: Id -> Phase)
    requires Follows(trace, before) && Distinct(ids) && forall id | id in ids :: before(id) == Waiting
    ensures Follows(trace + Refusals(ids), id => if id in ids then Absent else before(id))
    decreases ids
  {
    hide Follows, Watch;
    var after := (id: Id) => if id in ids then Absent else before(id);
    if ids == [] {
      assert trace + Refusals(ids) == trace;
      FollowsSame(trace, before, after);
    } else {
      var next := (id: Id) => if id == ids[0] then Absent else before(id);
      FollowsStep(trace, Refused(ids[0]), before, next);
      StopFollows(trace + [Refused(ids[0])], ids[1..], next);
      assert trace + Refusals(ids) == trace + [Refused(ids[0])] + Refusals(ids[1..]);
      FollowsSame(trace + Refusals(ids), id => if id in ids[1..] then Absent else next(id), after);
    }
  }

  /** A worker's record changes, but neither what it carries nor, but for `id`, whether it
      has started. */
  lemma RecordPhases(s: State, id: Id, w: Worker)
    requires InflightOk(s.workers, s.inflight) && InFlight(s, id)
    ensures var t := s.(workers := s.workers[s.inflight[id] := w]);
            && PhaseOf(t, id) == (if w.started then Released else Blocked)
            && forall other | other != id :: PhaseOf(t, other) == PhaseOf(s, other)
  {
    forall other | other != id && other in s.inflight ensures s.inflight[other] != s.inflight[id] {
      assert s.workers[s.inflight[other]].request.value.id == other;
    }
    hide InflightOk;
  }

  lemma GoPhases(s: State, id: Id)
    requires InflightOk(s.workers, s.inflight)
    ensures forall other :: PhaseOf(OnGo(s, id), other) ==
                            if other == id && PhaseOf(s, id) == Blocked && InFlight(s, id) then Released else PhaseOf(s, other)
    ensures forall other :: PhaseOf(OnCancel(s, id), other) == PhaseOf(s, other)
  {
    hide Live, InflightOk;
    if InFlight(s, id) {
      var w := s.workers[s.inflight[id]];
      RecordPhases(s, id, w.(started := true, orders := w.orders + 1));
      RecordPhases(s, id, w.(started := true));
      RecordPhases(s, id, w.(cancelled := true));
      PhasesOf(s.(workers := OnGo(s, id).workers), OnGo(s, id));
    } else {
      PhasesOf(s, OnGo(s, id));
    }
  }

  lemma PhasesOf(k: State, t: State)
    requires k.workers == t.workers && k.inflight == t.inflight && k.waiting == t.waiting && k.lost == t.lost
    ensures forall other :: PhaseOf(k, other) == PhaseOf(t, other)
  {
  }

  lemma GoFollows(s: State, id: Id)
    requires Tables(s) && LostOk(s) && Follows(s.trace, Phases(s)) && !s.crashed
    ensures Follows(OnGo(s, id).trace, Phases(OnGo(s, id)))
    ensures Follows(OnCancel(s, id).trace, Phases(OnCancel(s, id)))
  {
    GoPhases(s, id);
    hide Tables, Follows, InflightOk, IdleOk, Fits;
    assert PhaseOf(s, id) == Blocked ==> InFlight(s, id);
    assert OnGo(s, id).trace == s.trace + [GotGo(id)] && OnCancel(s, id).trace == s.trace;
    hide PhaseOf, OnGo, OnCancel;
    FollowsStep(s.trace, GotGo(id), Phases(s), Phases(OnGo(s, id)));
    FollowsSame(s.trace, Phases(s), Phases(OnCancel(s, id)));
  }

  lemma ReportFollows(s: State, pid: Pid, report: Report)
    requires Follows(s.trace, Phases(s)) && pid in s.workers
    ensures var t := OnReport(s, pid, report); Follows(t.trace, Phases(t))
    ensures var t := s.(workers := s.workers[pid := s.workers[pid].(linked := false)]); Follows(t.trace, Phases(t))
  {
    hide Follows;
    FollowsSame(s.trace, Phases(s), Phases(OnReport(s, pid, report)));
    FollowsSame(s.trace, Phases(s), Phases(s.(workers := s.workers[pid := s.workers[pid].(linked := false)])));
  }

  lemma OutputFollows(s: State, pid: Pid, size: Size)
    requires Tables(s) && Follows(s.trace, Phases(s)) && pid in s.workers && s.workers[pid].life != Closed
    ensures var t := OnOutput(s, pid, size); Follows(t.trace, Phases(t))
  {
    hide IdleOk, Follows, Fits, Distinct;
    var w, t := s.workers[pid], OnOutput(s, pid, size);
    PhasesOf(s, t);
    if w.request.Some? {
      assert Serves(w);
      assert PhaseOf(s, w.request.value.id) in {Blocked, Released};
      hide PhaseOf, InflightOk, Tables;
      FollowsStep(s.trace, Chunk(w.request.value.id), Phases(s), Phases(t));
    }
    hide PhaseOf, InflightOk, Tables;
    FollowsSame(s.trace, Phases(s), Phases(t));
  }

  lemma EnterFollows(s: State, pid: Pid)
    requires Tables(s) && Follows(s.trace, Phases(s)) && Enabled(s, Enters(pid))
    ensures var t := OnEnter(s, pid); Follows(t.trace, Phases(t))
  {
    hide IdleOk, Follows;
    var w := s.workers[pid];
    if w.request.Some? {
      FollowsStep(s.trace, Entered(w.request.value.id), Phases(s), Phases(OnEnter(s, pid)));
    }
  }

  lemma StepFollows(s: State, i: Input)
    requires Tables(s) && Pool(s) && LostOk(s) && Follows(s.trace, Phases(s)) && Proper(s, i)
    ensures var t := Step(s, i); Follows(t.trace, Phases(t))
  {
    hide IdleOk, Follows, Fits, InflightOk, AnswerOf, Short;
    match i
    case Exec(r) => ExecFollows(s, r);
    case Ready(pid) => ReadyFollows(s, pid);
    case Close(pid, end) => CloseFollows(s, pid, end);
    case Go(id) => GoFollows(s, id);
    case Cancel(id) => GoFollows(s, id);
    case Reports(pid, report) => ReportFollows(s, pid, report);
    case Disconnects(pid) => ReportFollows(s, pid, Report(false, None, None));
    case Output(pid, size) => OutputFollows(s, pid, size);
    case Enters(pid) => EnterFollows(s, pid);
    case Tick(round) =>
      RoundFollows(s.trace, round, Phases(s));
      FollowsSame(Step(s, i).trace, Phases(s), Phases(Step(s, i)));
    case Shutdown =>
      var ids := Ids(s.waiting);
      StopFollows(s.trace, ids, Phases(s));
      FollowsSame(Step(s, i).trace, id => if id in ids then Absent else Phases(s)(id), Phases(Step(s, i)));
    case Exit(pid, next) =>
      ExitKeepsPhases(s, pid, next);
      FollowsSame(s.trace, Phases(s), Phases(Step(s, i)));
    case Unknown =>
      FollowsStep(s.trace, Complaint, Phases(s), Phases(Step(s, i)));
    case Ping =>
    case Null(_) => FollowsSame(s.trace, Phases(s), Phases(Step(s, i)));
    case Dies => FollowsSame(s.trace, Phases(s), Phases(Step(s, i)));
  }

  lemma ExitKeepsPhases(s: State, pid: Pid, next: Pid)
    requires Tables(s) && Enabled(s, Exit(pid, next))
    ensures forall id :: PhaseOf(OnExit(s, pid, next), id) == PhaseOf(s, id)
  {
    hide IdleOk;
  }

  // --- The agent at its start, and all the invariants together ----------------

  function Spawned(s: State, pid: Pid): State { s.(workers := s.workers[pid := NEW_WORKER]) }

  const EMPTY := State(map[], [], [], map[], false, false, false, false, None, [])

  /** The agent as `main` leaves it: a full pool of loading workers. */
  function Initial(first: Pid, second: Pid): State { Spawned(Spawned(EMPTY, first), second) }

  lemma SpawnKeepsTables(s: State, pid: Pid)
    requires Tables(s) && pid !in s.workers
    ensures Tables(Spawned(s, pid))
  {
    hide IdleOk, InflightOk, Distinct;
    InflightSame(s.workers, s.inflight, pid, NEW_WORKER);
    IdleSame(s.workers, s.idle, s.stopping, pid, NEW_WORKER);
  }

  lemma SpawnAddsOne(s: State, pid: Pid)
    requires pid !in s.workers
    ensures |Living(Spawned(s, pid).workers)| == |Living(s.workers)| + 1
  {
    assert Living(Spawned(s, pid).workers) == Living(s.workers) + {pid};
  }

  lemma EmptyIsSound()
    ensures Tables(EMPTY) && Living(EMPTY.workers) == {}
  {
  }

  lemma InitialIsValid(first: Pid, second: Pid)
    requires first != second
    ensures Valid(Initial(first, second))
  {
    hide Tables, Living, Follows, Queue, PhaseOf;
    EmptyIsSound();
    SpawnKeepsTables(EMPTY, first);
    SpawnAddsOne(EMPTY, first);
    SpawnKeepsTables(Spawned(EMPTY, first), second);
    SpawnAddsOne(Spawned(EMPTY, first), second);
    StartsAbsent(Initial(first, second));
  }

  lemma StartsAbsent(s: State)
    ensures s.trace == [] && s.waiting == [] ==> Queue(s.trace) == Some(Ids(s.waiting))
    ensures s.trace == [] && s.waiting == [] && s.inflight == map[] && s.lost.None? ==> Follows(s.trace, Phases(s))
  {
  }

  /** A CHUNK goes out under the id of the request its worker carries. */
  lemma StepKeepsChunks(s: State, i: Input)
    requires Tables(s) && Follows(s.trace, Phases(s)) && ChunksOpen(s.trace) && Enabled(s, i)
    ensures ChunksOpen(Step(s, i).trace)
  {
    hide ChunksOpen, IdleOk, Pool, Queue, Short, AnswerOf;
    if i.Output? {
      var w := s.workers[i.pid];
      if w.request.Some? {
        var id := w.request.value.id;
        assert Watch(s.trace, id) == Some(PhaseOf(s, id));
        ChunksOneMore(s.trace, Chunk(id));
      }
    } else {
      StepAdds(s, i);
      NoChunks(s, i);
      hide Step, Adds;
      ChunksWithoutChunk(s.trace, Adds(s, i));
    }
  }

  lemma NoChunks(s: State, i: Input)
    requires Enabled(s, i) && !i.Output?
    ensures forall e | e in Adds(s, i) :: !e.Chunk?
  {
    hide AnswerOf, Unsendable, Short, IsRound, StartedIds;
    if i.Close? && s.workers[i.pid].request.Some? { AnswerIsTerminal(s.workers[i.pid], i.end); }
  }

  /** The events a step adds to the run. */
  function Adds(s: State, i: Input): seq<Event>
    requires Enabled(s, i)
  {
    match i
    case Exec(r) =>
      [GotExec(r.id)] + (if s.idle != [] then (if s.idle[0] in s.workers then [Forked(r.id)] else [])
                         else if |s.waiting| >= MAX_WAITING then [Refused(r.id)] else [])
    case Go(id) => [GotGo(id)]
    case Unknown => [Complaint]
    case Shutdown => Refusals(Ids(s.waiting))
    case Ready(pid) => if s.waiting == [] then [] else [Forked(s.waiting[0].id)]
    case Output(pid, size) =>
      var w := s.workers[pid];
      if w.request.Some? && w.request.value.stream && Room(0, size) then [Chunk(w.request.value.id)] else []
    case Enters(pid) =>
      var w := s.workers[pid];
      if w.request.Some? then [Entered(w.request.value.id)] else []
    case Close(pid, end) =>
      var w := s.workers[pid];
      if w.request.None? || AnswerOf(w, end).None? then [] else [AnswerOf(w, end).value]
    case Tick(round) => Beats(round)
    case _ => []
  }

  lemma StepAdds(s: State, i: Input)
    requires Enabled(s, i)
    ensures Step(s, i).trace == s.trace + Adds(s, i)
  {
    hide Queue, Living, Without, IsRound, StartedIds, Short, AnswerOf;
    assert s.trace + [] == s.trace;
  }

  /** Every proper step keeps every invariant, and any other breaks them. */
  lemma StepKeepsValid(s: State, i: Input)
    requires Valid(s) && Enabled(s, i)
    ensures Valid(Step(s, i)) <==> Proper(s, i)
  {
    if Proper(s, i) {
      StepKeepsTables(s, i);
      StepKeepsPool(s, i);
      StepKeepsLost(s, i);
      StepKeepsQueue(s, i);
      StepFollows(s, i);
      StepKeepsChunks(s, i);
    } else {
      WelcomeIff(s, i.pid);
    }
    hide Proper, Tables, Pool, LostOk, Queue, Follows, ChunksOpen, OnReady, Enabled;
  }

  // --- The handlers -----------------------------------------------------------

  lemma IdleIsKnown(s: State)
    requires Valid(s)
    ensures s.idle != [] ==> s.idle[0] in s.workers
  {
    IdleFront(s);
  }

  lemma InflightIsKnown(s: State)
    requires Valid(s)
    ensures forall id | id in s.inflight :: s.inflight[id] in s.workers
  {
    hide IdleOk, Pool, Queue, Follows;
  }

  class Agent {
    var workers: Workers
    var idle: seq<Pid>
    var waiting: seq<Request>
    var inflight: map<Id, Pid>
    var shuttingDown: bool
    var exited: bool
    var crashed: bool
    var broken: bool
    var lost: Option<Lost>
    var trace: seq<Event>

    function Now(): State
      reads this
    {
      State(workers, idle, waiting, inflight, shuttingDown, exited, crashed, broken, lost, trace)
    }

    constructor (first: Pid, second: Pid)
      requires first != second
      ensures Now() == Initial(first, second) && Valid(Now())
    {
      hide Valid;
      workers := map[];
      idle, waiting, inflight, trace := [], [], map[], [];
      shuttingDown, exited, crashed, broken, lost := false, false, false, false, None;
      new;
      SpawnWorker(first);
      SpawnWorker(second);
      InitialIsValid(first, second);
    }

    method Send(e: Event)
      modifies `trace
      ensures Now() == Sent(old(Now()), e)
    {
      trace := trace + [e];
    }

    method SpawnWorker(pid: Pid)
      modifies `workers
      ensures workers == old(workers)[pid := NEW_WORKER]
    {
      workers := workers[pid := NEW_WORKER];
    }

    method Dispatch(request: Request, pid: Pid)
      requires pid in workers
      modifies `workers, `inflight, `trace
      ensures Now() == Dispatched(old(Now()), request, pid)
    {
      workers := workers[pid := workers[pid].(request := Some(request), cancelled := false)];
      inflight := inflight[request.id := pid];
      Send(Forked(request.id));
    }

    method WorkerReady(pid: Pid)
      requires Valid(Now()) && Enabled(Now(), Ready(pid))
      modifies this
      ensures Now() == OnReady(old(Now()), pid) && (Valid(Now()) <==> Welcome(old(Now()), pid))
    {
      hide Valid;
      StepKeepsValid(Now(), Ready(pid));
      workers := workers[pid := Loaded(workers[pid])];
      if waiting != [] {
        var next := waiting[0];
        waiting := waiting[1..];
        Dispatch(next, pid);
      } else {
        idle := idle + [pid];
      }
    }

    method WorkerReports(pid: Pid, report: Report)
      requires Valid(Now()) && Enabled(Now(), Reports(pid, report))
      modifies this
      ensures Now() == OnReport(old(Now()), pid, report) && Valid(Now())
    {
      hide Valid;
      StepKeepsValid(Now(), Reports(pid, report));
      if workers[pid].request.Some? { workers := workers[pid := workers[pid].(result := Reported(report))]; }
    }

    method WorkerOutput(pid: Pid, size: Size)
      requires Valid(Now()) && Enabled(Now(), Output(pid, size))
      modifies this
      ensures Now() == OnOutput(old(Now()), pid, size) && Valid(Now())
    {
      hide Valid;
      StepKeepsValid(Now(), Output(pid, size));
      var w := workers[pid];
      if w.request.Some? && w.request.value.stream {
        if Room(0, size) { Send(Chunk(w.request.value.id)); } else { crashed := true; }
      }
    }

    /** A message that is `null` has no `type` to look at, whoever sends it. */
    method WorkerSaysNull(pid: Pid)
      requires Valid(Now()) && Enabled(Now(), Null(pid))
      modifies this
      ensures Now() == Crashed(old(Now())) && Valid(Now())
    {
      hide Valid;
      StepKeepsValid(Now(), Null(pid));
      crashed := true;
    }

    /** An error event that has no listener. */
    method Fails()
      requires Valid(Now()) && Enabled(Now(), Dies)
      modifies this
      ensures Now() == Crashed(old(Now())) && Valid(Now())
    {
      hide Valid;
      StepKeepsValid(Now(), Dies);
      crashed := true;
    }

    method WorkerExits(pid: Pid, next: Pid)
      requires Valid(Now()) && Enabled(Now(), Exit(pid, next))
      modifies this
      ensures Now() == OnExit(old(Now()), pid, next) && Valid(Now())
    {
      hide Valid;
      StepKeepsValid(Now(), Exit(pid, next));
      workers := workers[pid := workers[pid].(life := Exited)];
      var at := IndexOf(idle, pid);
      WithoutIndex(idle, pid);
      if at < |idle| { idle := idle[..at] + idle[at + 1..]; }
      if !shuttingDown { SpawnWorker(next); }
    }

    method WorkerCloses(pid: Pid, end: End)
      requires Valid(Now()) && Enabled(Now(), Close(pid, end))
      modifies this
      ensures Now() == OnClose(old(Now()), pid, end) && Valid(Now())
    {
      hide Valid;
      StepKeepsValid(Now(), Close(pid, end));
      workers := workers[pid := workers[pid].(life := Closed)];
      if workers[pid].request.Some? { Finish(pid, end); }
    }

    /** `_finish`: out of the table first; then the directory is removed and the answer
        sent, and both may throw. */
    method Finish(pid: Pid, end: End)
      requires pid in workers && workers[pid].request.Some? && !exited
      modifies `inflight, `trace, `exited, `crashed, `lost
      ensures var w, id := workers[pid], workers[pid].request.value.id;
              && inflight == old(inflight) - {id}
              && (if Unsendable(w, end)
                  then crashed && lost == Some(Lost(id, w.started)) && trace == old(trace) && !exited
                  else crashed == old(crashed) && lost == old(lost) &&
                       trace == old(trace) + [if w.result.Reported? && w.result.report.refusal then Refused(id) else Done(id)] &&
                       (exited <==> shuttingDown && inflight == map[]))
    {
      var w := workers[pid];
      var id := w.request.value.id;
      inflight := inflight - {id};
      var thrown := !end.cleans;
      if !thrown {
        match w.result {
          case NoResult => Send(Done(id));
          case Reported(r) => thrown := SendResult(id, r, end);
        }
      }
      if thrown {
        crashed, lost := true, Some(Lost(id, w.started));
      } else if shuttingDown && inflight == map[] {
        exited := true;
      }
    }

    /** `_error` for a refusal, and `_sendResult`: only a DONE that is too long is replaced. */
    method SendResult(id: Id, r: Report, end: End) returns (thrown: bool)
      modifies `trace
      ensures thrown <==> if r.refusal then r.value.None? || end.error + r.value.value > 33_554_432
                          else r.value.None? || r.usage.None? ||
                               (end.done + r.value.value + r.usage.value > 33_554_432 && end.replacement + r.usage.value > 33_554_432)
      ensures trace == old(trace) + if thrown then [] else [if r.refusal then Refused(id) else Done(id)]
    {
      if r.refusal {
        if !Room(end.error, r.value) { return true; }
        Send(Refused(id));
        return false;
      }
      if r.value.None? || r.usage.None? { return true; }
      if !Room(end.done + r.value.value, r.usage) && !Room(end.replacement, r.usage) { return true; }
      Send(Done(id));
      return false;
    }

    method ReceiveExec(request: Request)
      requires Valid(Now()) && Enabled(Now(), Exec(request))
      modifies this
      ensures Now() == OnExec(old(Now()), request) && Valid(Now())
    {
      hide Valid;
      StepKeepsValid(Now(), Exec(request));
      IdleIsKnown(Now());
      Send(GotExec(request.id));
      if idle != [] {
        var w := idle[0];
        idle := idle[1..];
        Dispatch(request, w);
      } else if |waiting| >= MAX_WAITING {
        Send(Refused(request.id));
      } else {
        waiting := waiting + [request];
      }
    }

    method ReceiveGo(id: Id)
      requires Valid(Now()) && Enabled(Now(), Go(id))
      modifies this
      ensures Now() == OnGo(old(Now()), id) && Valid(Now())
    {
      hide Valid;
      StepKeepsValid(Now(), Go(id));
      Send(GotGo(id));
      if id !in inflight || inflight[id] !in workers { return; }
      var pid := inflight[id];
      if workers[pid].started { return; }
      workers := workers[pid := workers[pid].(started := true)];
      if Live(workers[pid]) && workers[pid].linked {
        workers := workers[pid := workers[pid].(orders := workers[pid].orders + 1)];
      } else {
        broken := true;
      }
    }

    method ReceiveCancel(id: Id)
      requires Valid(Now()) && Enabled(Now(), Cancel(id))
      modifies this
      ensures Now() == OnCancel(old(Now()), id) && Valid(Now())
    {
      hide Valid;
      StepKeepsValid(Now(), Cancel(id));
      if id in inflight && inflight[id] in workers {
        workers := workers[inflight[id] := workers[inflight[id]].(cancelled := true)];
      }
    }

    method Stop()
      requires Valid(Now()) && Enabled(Now(), Shutdown)
      modifies this
      ensures Now() == OnStop(old(Now())) && Valid(Now())
    {
      hide Valid;
      StepKeepsValid(Now(), Shutdown);
      shuttingDown := true;
      idle := [];
      ghost var ids := Ids(waiting);
      for i := 0 to |waiting|
        invariant Now() == old(Now()).(stopping := true, idle := [], trace := old(trace) + Refusals(ids[..i]))
      {
        Send(Refused(waiting[i].id));
        assert Refusals(ids[..i + 1]) == Refusals(ids[..i]) + [Refused(ids[i])];
      }
      assert ids[..|waiting|] == ids;
      waiting := [];
      if inflight == map[] { exited := true; }
    }

    method Heartbeat() returns (round: seq<Id>)
      requires Valid(Now()) && !exited && !crashed && !broken && !shuttingDown
      modifies this
      ensures IsRound(round, StartedIds(old(Now()))) && Now() == old(Now()).(trace := old(trace) + Beats(round)) && Valid(Now())
    {
      hide Valid;
      InflightIsKnown(Now());
      round := [];
      var left := inflight.Keys;
      while left != {}
        invariant left <= inflight.Keys && Distinct(round)
        invariant forall id | id in inflight :: inflight[id] in workers
        invariant forall id | id in round :: id in inflight && id !in left
        invariant forall id | id in round :: workers[inflight[id]].started
        invariant forall id | id in inflight && id !in left && workers[inflight[id]].started :: id in round
        invariant Now() == old(Now()).(trace := old(trace) + Beats(round))
        decreases left
      {
        var id :| id in left;
        left := left - {id};
        if workers[inflight[id]].started {
          Send(Beat(id));
          assert Beats(round + [id]) == Beats(round) + [Beat(id)];
          round := round + [id];
        }
      }
      StepKeepsValid(old(Now()), Tick(round));
    }
  }
}
