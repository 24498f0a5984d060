/** The Python agent (`zygo_agent.py`) and the processes it starts, with a descriptor
    table for each process: `fork` copies the table, so what a child holds and when a
    pipe reaches end of file are facts of the state. A run is any interleaving of the
    agent's handlers with the steps of the children. What holds of runs is in `PythonRuns`.
 */
module PythonAgent {

  import F = Framing
  import opened Protocol
  import opened Wrappers

  type Fd = nat

  type Pid = nat

  /** A pipe end, by the serial number of the request the pipe was made for. */
  datatype End = Control | ResultR(req: nat) | ResultW(req: nat) | GoR(req: nat) | GoW(req: nat)

  /** Closing what it inherited; waiting for GO; past the barrier. */
  datatype Stage = SettingUp(closing: seq<Fd>) | AtBarrier | InHandler

  /** A process of request `req`: the child itself (`root`) or a descendant of it. */
  datatype Proc = Proc(req: nat, id: Id, root: bool, spawned: bool, resultFd: Fd, goFd: Fd, stage: Stage, fds: map<Fd, End>)

  /** What a child's JSON object amounts to: the id it carries, which is the child's own
      choice (one that is no string counts as one no request has); whether it is shallow
      enough to be encoded again, and its size then. `answer` is its size as the answer to a
      request, which may be a cancelled one, and `replacement` that of the DONE that says
      the answer is too long, which repeats the child's own readings. */
  datatype Reply = Reply(id: Id, encodes: bool, size: nat, answer: (Id, bool) -> nat, replacement: (Id, bool) -> nat)

  type Reader = F.Reader<Reply>

  predicate Fits(m: Reply) { m.encodes && m.size <= F.MAX_FRAME_BYTES }

  /** A request's answer can be sent, or else its replacement. */
  predicate AnswerFits(m: Reply, id: Id, cancelled: bool) { m.answer(id, cancelled) <= F.MAX_FRAME_BYTES }

  predicate ReplacementFits(m: Reply, id: Id, cancelled: bool) { m.replacement(id, cancelled) <= F.MAX_FRAME_BYTES }

  /** `chunks` is what is pending of the result pipe's bytes, and `got` all that was read. */
  datatype InFlight = InFlight(req: nat, pid: Pid, resultFd: Fd, goFd: Option<Fd>, cancelled: bool,
                               chunks: seq<int>, got: seq<int>)

  /** A request whose answer raised: out of the tables, and not answered. */
  datatype Lost = Lost(id: Id, released: bool, cancelled: bool, got: seq<int>)

  /** `ids[q]` is the id of request number `q`; `sent` holds the requests whose go pipe
      has been written to. `dead` is an agent that went away without finishing, and
      `read` what the JSON reader makes of a frame's body. */
  datatype State = State(canFork: bool, wire: Fd, read: Reader, fds: map<Fd, End>,
                         inflight: map<Id, InFlight>, byResultFd: map<Fd, Id>,
                         accepting: bool, dead: bool, lost: Option<Lost>,
                         procs: map<Pid, Proc>, ids: seq<Id>, sent: set<nat>, trace: seq<Event>)

  /** The four descriptors of the two pipes made for a request. */
  datatype Pipes = Pipes(resultR: Fd, resultW: Fd, goR: Fd, goW: Fd)

  datatype Input =
    | Exec(id: Id, pid: Pid, pipes: Pipes, inherited: seq<Fd>) | ExecFails(id: Id)
    | Go(id: Id) | Cancel(id: Id) | Ping | Unknown | Stop
    | Data(fd: Fd, bytes: seq<int>) | Eof(fd: Fd)
    | Tick(round: seq<Id>)
    | Dies
    | Sets(pid: Pid) | Reads(pid: Pid) | Helps(pid: Pid, helper: Pid) | Drops(pid: Pid, fd: Fd) | Exits(pid: Pid)

  // --- The processes ----------------------------------------------------------

  predicate Holds(p: Proc, e: End) { exists fd :: fd in p.fds && p.fds[fd] == e }

  predicate Held(s: State, e: End) {
    || (exists fd :: fd in s.fds && s.fds[fd] == e)
    || (exists pid :: pid in s.procs && Holds(s.procs[pid], e))
  }

  predicate Registered(inflight: map<Id, InFlight>, fd: Fd) {
    exists id :: id in inflight && (inflight[id].resultFd == fd || inflight[id].goFd == Some(fd))
  }

  predicate Fresh(s: State, p: Pipes) {
    && Distinct([p.resultR, p.resultW, p.goR, p.goW])
    && forall fd | fd in [p.resultR, p.resultW, p.goR, p.goW] :: fd !in s.fds
  }

  /** What the agent holds for a request after the fork, and what its child starts with. */
  function Ends(q: nat, p: Pipes): map<Fd, End> { map[p.resultR := ResultR(q), p.goW := GoW(q)] }

  function OwnEnds(q: nat, p: Pipes): map<Fd, End> { map[p.resultW := ResultW(q), p.goR := GoR(q)] }

  function Child(s: State, id: Id, p: Pipes, inherited: seq<Fd>): Proc {
    var q := |s.ids|;
    if s.canFork then
      Proc(q, id, true, false, p.resultW, p.goR, SettingUp([s.wire, p.resultR, p.goW] + inherited),
           s.fds + Ends(q, p) + OwnEnds(q, p))
    else
      Proc(q, id, true, true, p.resultW, p.goR, AtBarrier, OwnEnds(q, p))
  }

  /** What a blocking read at the barrier makes of the go pipe: a byte of it for a fork,
      the whole of it for a spawned worker. */
  datatype Barrier = Blocks | Enters | Leaves

  predicate Closed(s: State, e: End) { !Held(s, e) }

  function AtGo(s: State, p: Proc): Barrier {
    if p.spawned && !Closed(s, GoW(p.req)) then Blocks
    else if p.req in s.sent then Enters
    else if Closed(s, GoW(p.req)) then Leaves
    else Blocks
  }

  // --- The handlers and the children as steps ---------------------------------

  predicate InFlightNumber(s: State, q: nat) {
    q < |s.ids| && s.ids[q] in s.inflight && s.inflight[s.ids[q]].req == q
  }

  function ReleasedIds(s: State): set<Id> { set id | id in s.inflight && s.inflight[id].goFd.None? }

  predicate IsOpenFds(s: State, fds: seq<Fd>) {
    && (forall fd | fd in fds :: Registered(s.inflight, fd))
    && (forall id | id in s.inflight ::
          s.inflight[id].resultFd in fds && (s.inflight[id].goFd.Some? ==> s.inflight[id].goFd.value in fds))
  }

  /** What may happen next. An id is not reused while its request is in flight; `fork`
      and `pipe` return numbers that are free; a read sees end of file only when no
      process holds a write end. */
  predicate Enabled(s: State, i: Input) {
    match i
    case Exec(id, pid, pipes, inherited) =>
      !s.dead && s.accepting && id !in s.inflight && pid !in s.procs && Fresh(s, pipes) && IsOpenFds(s, inherited)
    case ExecFails(id) => !s.dead && s.accepting && id !in s.inflight
    case Go(_) => !s.dead && s.accepting
    case Cancel(_) => !s.dead && s.accepting
    case Ping => !s.dead && s.accepting
    case Unknown => !s.dead && s.accepting
    case Stop => !s.dead && s.accepting
    case Data(fd, bytes) => !s.dead && fd in s.byResultFd && s.byResultFd[fd] in s.inflight && F.Bytes(bytes)
    case Eof(fd) =>
      !s.dead && fd in s.byResultFd && s.byResultFd[fd] in s.inflight && Closed(s, ResultW(s.inflight[s.byResultFd[fd]].req))
    case Tick(round) => !s.dead && IsRound(round, ReleasedIds(s))
    case Dies => !s.dead
    case Sets(pid) => pid in s.procs && s.procs[pid].stage.SettingUp?
    case Reads(pid) => pid in s.procs && s.procs[pid].stage.AtBarrier? && AtGo(s, s.procs[pid]) != Blocks
    case Helps(pid, helper) => pid in s.procs && s.procs[pid].stage.InHandler? && helper !in s.procs
    case Drops(pid, fd) => pid in s.procs && s.procs[pid].stage.InHandler?
    case Exits(pid) => pid in s.procs
  }

  function Sent(s: State, e: Event): State { s.(trace := s.trace + [e]) }

  function OnExec(s: State, id: Id, pid: Pid, p: Pipes, inherited: seq<Fd>): State {
    var q := |s.ids|;
    var child := Child(s, id, p, inherited);
    s.(fds := s.fds + Ends(q, p),
       inflight := s.inflight[id := InFlight(q, pid, p.resultR, Some(p.goW), false, [], [])],
       byResultFd := s.byResultFd[p.resultR := id],
       procs := s.procs[pid := child],
       ids := s.ids + [id],
       trace := s.trace + [GotExec(id), Forked(id)])
  }

  function OnGo(s: State, id: Id): State {
    var t := Sent(s, GotGo(id));
    if id !in s.inflight || s.inflight[id].goFd.None? then t else
      var r := s.inflight[id];
      t.(fds := s.fds - {r.goFd.value}, inflight := s.inflight[id := r.(goFd := None)],
         sent := if Closed(s, GoR(r.req)) then s.sent else s.sent + {r.req})
  }

  function OnCancel(s: State, id: Id): State {
    if id !in s.inflight then s else s.(inflight := s.inflight[id := s.inflight[id].(cancelled := true)])
  }

  /** An exception nobody catches: the process ends and its descriptors close. */
  function Died(s: State): State { s.(dead := true, fds := map[]) }

  function Forwarded(messages: seq<Reply>): (events: seq<Event>)
    ensures |events| == |messages| && forall i | 0 <= i < |events| :: events[i] == Chunk(messages[i].id)
  {
    seq(|messages|, i requires 0 <= i < |messages| => Chunk(messages[i].id))
  }

  /** The CHUNKs a read completes. */
  function Arriving(s: State, fd: Fd, bytes: seq<int>): seq<Reply>
    requires fd in s.byResultFd && s.byResultFd[fd] in s.inflight
  {
    F.Chunks(s.inflight[s.byResultFd[fd]].chunks + bytes, s.read)
  }

  /** They go up as they are, whatever id they carry; one that has grown past the frame
      limit raises, and so does a frame nested too deeply to be read. */
  function OnData(s: State, fd: Fd, bytes: seq<int>): State
    requires fd in s.byResultFd && s.byResultFd[fd] in s.inflight
  {
    var id := s.byResultFd[fd];
    var r := s.inflight[id];
    var messages := Arriving(s, fd, bytes);
    var t := s.(trace := s.trace + Forwarded(F.Fitting(messages, Fits)));
    if F.AllFit(messages, Fits) && !F.Deep(F.Ending(r.chunks + bytes, s.read), s.read)
    then t.(inflight := s.inflight[id := r.(chunks := F.Ending(r.chunks + bytes, s.read), got := r.got + bytes)])
    else Died(t)
  }

  /** The event that answers a request whose pipe ended with `raw`; `None` when it raises.
      An answer that does not fit is replaced by a DONE, and nothing catches that one. */
  function AnswerOf(id: Id, raw: seq<int>, read: Reader, cancelled: bool): Option<Event> {
    match F.Decode(raw, read)
    case Nothing => Some(Done(id))
    case Answer(kind, m) =>
      if !m.encodes then None
      else if AnswerFits(m, id, cancelled) then Some(if kind == "ERROR" then Refused(id) else Done(id))
      else if ReplacementFits(m, id, cancelled) then Some(Done(id))
      else None
    case Raises => None
  }

  // What a child's last bytes amount to, read off the bytes

  function Announced(raw: seq<int>): int
    requires |raw| >= 4
  {
    ((raw[0] * 256 + raw[1]) * 256 + raw[2]) * 256 + raw[3]
  }

  /** Four bytes of length, the most significant first, and no fewer bytes than they say. */
  predicate WholeFrame(raw: seq<int>) { |raw| >= 4 && 0 <= Announced(raw) <= |raw| - 4 }

  function BodyOf(raw: seq<int>): seq<int>
    requires WholeFrame(raw)
  {
    raw[4..4 + Announced(raw)]
  }

  /** There is a whole frame, and its body cannot be decoded, or cannot be encoded again,
      or is too long as an answer and its readings too long even for the replacement. */
  predicate Unsendable(id: Id, raw: seq<int>, read: Reader, cancelled: bool) {
    && WholeFrame(raw)
    && match read(BodyOf(raw))
       case Object(_, m) =>
         !m.encodes || (m.answer(id, cancelled) > 33_554_432 && m.replacement(id, cancelled) > 33_554_432)
       case NotJson => false
       case _ => true
  }

  /** There is a whole frame, and its body is an ERROR that fits. */
  predicate SaysError(id: Id, raw: seq<int>, read: Reader, cancelled: bool) {
    && WholeFrame(raw)
    && match read(BodyOf(raw))
       case Object(kind, m) => kind == "ERROR" && m.encodes && m.answer(id, cancelled) <= 33_554_432
       case _ => false
  }

  /** What ends a request: nothing, its ERROR, or, in all other cases and so when the child
      wrote nothing or was cut short, its DONE. */
  function EndOf(id: Id, raw: seq<int>, read: Reader, cancelled: bool): seq<Event> {
    if Unsendable(id, raw, read, cancelled) then []
    else if SaysError(id, raw, read, cancelled) then [Refused(id)]
    else [Done(id)]
  }

  /** A finished request out of the tables, its descriptors closed. */
  function Cleared(s: State, fd: Fd): State
    requires fd in s.byResultFd && s.byResultFd[fd] in s.inflight
  {
    var id := s.byResultFd[fd];
    var r := s.inflight[id];
    s.(fds := s.fds - {fd} - (if r.goFd.Some? then {r.goFd.value} else {}),
       byResultFd := s.byResultFd - {fd}, inflight := s.inflight - {id})
  }

  /** The request leaves the tables first and its answer is decoded then. */
  function OnEof(s: State, fd: Fd): State
    requires fd in s.byResultFd && s.byResultFd[fd] in s.inflight
  {
    var id := s.byResultFd[fd];
    var r := s.inflight[id];
    var answer := AnswerOf(id, r.chunks, s.read, r.cancelled);
    if answer.Some? then Sent(Cleared(s, fd), answer.value)
    else Died(Cleared(s, fd)).(lost := Some(Lost(id, r.goFd.None?, r.cancelled, r.got)))
  }

  function WithProc(s: State, pid: Pid, p: Proc): State { s.(procs := s.procs[pid := p]) }

  function OnSets(s: State, pid: Pid): State
    requires pid in s.procs && s.procs[pid].stage.SettingUp?
  {
    var p := s.procs[pid];
    var closing := p.stage.closing;
    WithProc(s, pid, if closing == [] then p.(stage := AtBarrier)
                     else p.(stage := SettingUp(closing[1..]), fds := p.fds - {closing[0]}))
  }

  function OnReads(s: State, pid: Pid): State
    requires pid in s.procs
  {
    var p := s.procs[pid];
    if AtGo(s, p) == Enters
    then Sent(WithProc(s, pid, p.(stage := InHandler, fds := if p.spawned then p.fds else p.fds - {p.goFd})), Entered(p.id))
    else s.(procs := s.procs - {pid})
  }

  function Effect(s: State, i: Input): State
    requires Enabled(s, i)
  {
    match i
    case Exec(id, pid, pipes, inherited) => OnExec(s, id, pid, pipes, inherited)
    case ExecFails(id) => s.(trace := s.trace + [GotExec(id), Refused(id)])
    case Go(id) => OnGo(s, id)
    case Cancel(id) => OnCancel(s, id)
    case Ping => s
    case Unknown => Sent(s, Complaint)
    case Stop => s.(accepting := false)
    case Data(fd, bytes) => OnData(s, fd, bytes)
    case Eof(fd) => OnEof(s, fd)
    case Tick(round) => s.(trace := s.trace + Beats(round))
    case Dies => Died(s)
    case Sets(pid) => OnSets(s, pid)
    case Reads(pid) => OnReads(s, pid)
    case Helps(pid, helper) => WithProc(s, helper, s.procs[pid].(root := false))
    case Drops(pid, fd) => WithProc(s, pid, s.procs[pid].(fds := s.procs[pid].fds - {fd}))
    case Exits(pid) => s.(procs := s.procs - {pid})
  }

  // --- What the handlers do, field by field -------------------------------------

  /** An EXEC whose child has started: it is in flight under its id and its result pipe,
      with the pipe's write end and the go pipe's read end the child's alone, and what a
      forked child closes first is the socket, its pipes' other ends and all it inherited. */
  lemma ExecIs(s: State, id: Id, pid: Pid, p: Pipes, inherited: seq<Fd>)
    requires Enabled(s, Exec(id, pid, p, inherited))
    ensures var t, q := Effect(s, Exec(id, pid, p, inherited)), |s.ids|;
            && t.trace == s.trace + [GotExec(id), Forked(id)] && t.ids == s.ids + [id]
            && t.inflight == s.inflight[id := InFlight(q, pid, p.resultR, Some(p.goW), false, [], [])]
            && t.byResultFd == s.byResultFd[p.resultR := id]
            && t.fds == s.fds[p.resultR := ResultR(q)][p.goW := GoW(q)]
            && t.procs.Keys == s.procs.Keys + {pid} && (forall other | other in s.procs :: t.procs[other] == s.procs[other])
            && t.procs[pid].req == q && t.procs[pid].id == id && t.procs[pid].spawned == !s.canFork && t.procs[pid].root
            && t.procs[pid].resultFd == p.resultW && t.procs[pid].goFd == p.goR
            && (if s.canFork
                then t.procs[pid].stage == SettingUp([s.wire, p.resultR, p.goW] + inherited) &&
                     t.procs[pid].fds == s.fds[p.resultR := ResultR(q)][p.goW := GoW(q)][p.resultW := ResultW(q)][p.goR := GoR(q)]
                else t.procs[pid].stage == AtBarrier && t.procs[pid].fds == map[p.resultW := ResultW(q), p.goR := GoR(q)])
            && t == s.(fds := t.fds, inflight := t.inflight, byResultFd := t.byResultFd, procs := t.procs, ids := t.ids, trace := t.trace)
  {
    hide Held, IsOpenFds;
    var q := |s.ids|;
    assert Distinct([p.resultR, p.resultW, p.goR, p.goW]);
    assert s.fds + Ends(q, p) == s.fds[p.resultR := ResultR(q)][p.goW := GoW(q)];
    assert s.fds + Ends(q, p) + OwnEnds(q, p) == (s.fds + Ends(q, p))[p.resultW := ResultW(q)][p.goR := GoR(q)];
  }

  /** One that could not be started leaves its ERROR and nothing else. */
  lemma ExecFailsIs(s: State, id: Id)
    requires Enabled(s, ExecFails(id))
    ensures Effect(s, ExecFails(id)) == s.(trace := s.trace + [GotExec(id), Refused(id)])
  {
  }

  /** GO for a request in flight, the first time: the agent's end of the go pipe is closed,
      and the byte is in it if anybody still reads it. Any other GO changes nothing. */
  lemma GoIs(s: State, id: Id)
    requires Enabled(s, Go(id))
    ensures var t := Effect(s, Go(id));
            && t.trace == s.trace + [GotGo(id)]
            && (if id in s.inflight && s.inflight[id].goFd.Some?
                then var r := s.inflight[id];
                     && t.inflight == s.inflight[id := r.(goFd := None)] && t.fds == s.fds - {r.goFd.value}
                     && (forall q :: q in t.sent <==> q in s.sent || (q == r.req && Held(s, GoR(r.req))))
                else t.inflight == s.inflight && t.fds == s.fds && t.sent == s.sent)
            && t == s.(fds := t.fds, inflight := t.inflight, sent := t.sent, trace := t.trace)
  {
    hide Held;
  }

  /** CANCEL marks its request, and that is all. */
  lemma CancelIs(s: State, id: Id)
    requires Enabled(s, Cancel(id))
    ensures var t := Effect(s, Cancel(id));
            && t == s.(inflight := t.inflight) && t.inflight.Keys == s.inflight.Keys
            && (forall other | other in s.inflight && other != id :: t.inflight[other] == s.inflight[other])
            && (id in s.inflight ==> t.inflight[id].cancelled && t.inflight[id] == s.inflight[id].(cancelled := true))
  {
  }

  /** The other messages: a complaint, the end of accepting, nothing; an exception that
      ends the agent; and a heartbeat. */
  lemma MessageIs(s: State, round: seq<Id>)
    requires Enabled(s, Unknown)
    ensures Effect(s, Unknown) == s.(trace := s.trace + [Complaint])
    ensures Effect(s, Stop) == s.(accepting := false) && Effect(s, Ping) == s && Effect(s, Dies) == s.(dead := true, fds := map[])
    ensures Enabled(s, Tick(round)) ==>
            && (forall id :: id in round <==> id in s.inflight && s.inflight[id].goFd.None?)
            && Effect(s, Tick(round)) == s.(trace := s.trace + seq(|round|, k requires 0 <= k < |round| => Beat(round[k])))
  {
    assert Beats(round) == seq(|round|, k requires 0 <= k < |round| => Beat(round[k]));
  }

  /** Bytes on a result pipe: the CHUNKs they complete go up under the ids they carry,
      until one cannot be sent; that, or a frame nested too deeply after them, is the end
      of the agent, and otherwise the rest is kept. */
  lemma DataIs(s: State, fd: Fd, bytes: seq<int>)
    requires Enabled(s, Data(fd, bytes))
    ensures var t, id, r := Effect(s, Data(fd, bytes)), s.byResultFd[fd], s.inflight[s.byResultFd[fd]];
            var all := r.chunks + bytes;
            var chunks := F.Fitting(F.Chunks(all, s.read), Fits);
            && t.trace == s.trace + seq(|chunks|, k requires 0 <= k < |chunks| => Chunk(chunks[k].id))
            && (if F.AllFit(F.Chunks(all, s.read), Fits) && !F.Deep(F.Ending(all, s.read), s.read)
                then t == s.(inflight := s.inflight[id := r.(chunks := F.Ending(all, s.read), got := r.got + bytes)], trace := t.trace)
                else t == s.(dead := true, fds := map[], trace := t.trace))
  {
    hide F.Chunks, F.Fitting, F.AllFit, F.Deep, F.Ending;
    var r := s.inflight[s.byResultFd[fd]];
    var chunks := F.Fitting(F.Chunks(r.chunks + bytes, s.read), Fits);
    assert Forwarded(chunks) == seq(|chunks|, k requires 0 <= k < |chunks| => Chunk(chunks[k].id));
  }

  /** A CHUNK that can be sent is one that is shallow enough and within the limit. */
  lemma FitsIs(m: Reply)
    ensures Fits(m) <==> m.encodes && m.size <= 33_554_432
  {
  }

  /** End of file: the request is out of both tables and its descriptors are closed; what
      is sent is its end; and when nothing can be sent the agent ends and the request is lost. */
  lemma EofIs(s: State, fd: Fd)
    requires Enabled(s, Eof(fd))
    ensures var t, id, r := Effect(s, Eof(fd)), s.byResultFd[fd], s.inflight[s.byResultFd[fd]];
            var end := EndOf(id, r.chunks, s.read, r.cancelled);
            && t.inflight == s.inflight - {id} && t.byResultFd == s.byResultFd - {fd} && t.trace == s.trace + end
            && (if end == []
                then t.dead && t.fds == map[] && t.lost == Some(Lost(id, r.goFd.None?, r.cancelled, r.got))
                else t.dead == s.dead && t.lost == s.lost &&
                     t.fds == s.fds - {fd} - (if r.goFd.Some? then {r.goFd.value} else {}))
            && t == s.(inflight := t.inflight, byResultFd := t.byResultFd, trace := t.trace, dead := t.dead, fds := t.fds, lost := t.lost)
  {
    hide Held, AnswerOf, EndOf;
    var id, r := s.byResultFd[fd], s.inflight[s.byResultFd[fd]];
    AnswerIsTerminal(id, r.chunks, s.read, r.cancelled);
    assert s.trace + [] == s.trace;
  }

  /** A child closes what it inherited, one descriptor at a time, and is then at the
      barrier; there a byte lets it in, a forked one closing its go pipe, and end of file
      without one makes it leave. */
  lemma ChildIs(s: State, pid: Pid)
    ensures Enabled(s, Sets(pid)) ==>
            var p, t := s.procs[pid], Effect(s, Sets(pid));
            && t == s.(procs := s.procs[pid := t.procs[pid]])
            && (if p.stage.closing == [] then t.procs[pid] == p.(stage := AtBarrier)
                else t.procs[pid] == p.(stage := SettingUp(p.stage.closing[1..]), fds := p.fds - {p.stage.closing[0]}))
    ensures Enabled(s, Reads(pid)) ==>
            var p, t := s.procs[pid], Effect(s, Reads(pid));
            if p.req in s.sent
            then t == s.(procs := s.procs[pid := p.(stage := InHandler, fds := if p.spawned then p.fds else p.fds - {p.goFd})],
                         trace := s.trace + [Entered(p.id)])
            else t == s.(procs := s.procs - {pid})
  {
    hide Held;
  }

  /** A process in its handler may fork, drop a descriptor and exit. */
  lemma ProcessIs(s: State, pid: Pid, helper: Pid, fd: Fd)
    ensures Enabled(s, Exits(pid)) ==> Effect(s, Exits(pid)) == s.(procs := s.procs - {pid})
    ensures Enabled(s, Drops(pid, fd)) ==>
            Effect(s, Drops(pid, fd)) == s.(procs := s.procs[pid := s.procs[pid].(fds := s.procs[pid].fds - {fd})])
    ensures Enabled(s, Helps(pid, helper)) ==>
            Effect(s, Helps(pid, helper)) == s.(procs := s.procs[helper := s.procs[pid].(root := false)])
  {
    hide Held;
  }

  // --- What every step keeps --------------------------------------------------

  /** Id and descriptor tables are inverse to each other. */
  predicate Tables(s: State) {
    && (forall id | id in s.inflight ::
          var r := s.inflight[id];
          && r.req < |s.ids| && s.ids[r.req] == id
          && r.resultFd in s.byResultFd && s.byResultFd[r.resultFd] == id)
    && (forall fd | fd in s.byResultFd ::
          s.byResultFd[fd] in s.inflight && s.inflight[s.byResultFd[fd]].resultFd == fd)
    && s.wire !in s.byResultFd
  }

  /** The agent holds the control socket, the read end and, until GO, the go end of each
      request in flight, and nothing else. */
  predicate AgentFds(s: State) {
    && s.wire in s.fds && s.fds[s.wire] == Control
    && (forall id | id in s.inflight ::
          var r := s.inflight[id];
          && r.resultFd in s.fds && s.fds[r.resultFd] == ResultR(r.req)
          && (r.goFd.Some? ==> r.goFd.value in s.fds && s.fds[r.goFd.value] == GoW(r.req)))
    && (forall fd | fd in s.fds :: Accounted(s, fd, s.fds[fd]))
  }

  predicate Accounted(s: State, fd: Fd, e: End) {
    match e
    case Control => fd == s.wire
    case ResultR(q) => InFlightNumber(s, q) && s.inflight[s.ids[q]].resultFd == fd
    case GoW(q) => InFlightNumber(s, q) && s.inflight[s.ids[q]].goFd == Some(fd)
    case _ => false
  }

  predicate Closing(p: Proc, fd: Fd) { p.stage.SettingUp? && fd in p.stage.closing }

  predicate Own(p: Proc, fd: Fd, e: End) {
    (fd == p.resultFd && e == ResultW(p.req)) || (fd == p.goFd && e == GoR(p.req))
  }

  /** All a process holds are its own request's ends and what it has yet to close; while
      it has not passed the barrier it does hold them, and they are not on the list. */
  predicate Clean(p: Proc) {
    && (forall fd | fd in p.fds :: Own(p, fd, p.fds[fd]) || (Closing(p, fd) && !p.fds[fd].ResultW? && !p.fds[fd].GoR?))
    && (!p.stage.InHandler? ==>
          && p.root && p.resultFd in p.fds && p.fds[p.resultFd] == ResultW(p.req)
          && p.goFd in p.fds && p.fds[p.goFd] == GoR(p.req)
          && !Closing(p, p.resultFd) && !Closing(p, p.goFd))
  }

  predicate Procs(s: State) {
    forall pid | pid in s.procs ::
      var p := s.procs[pid];
      && p.req < |s.ids| && s.ids[p.req] == p.id && Clean(p)
      && (if p.stage.InHandler? then p.req in s.sent else InFlightNumber(s, p.req) && s.inflight[s.ids[p.req]].pid == pid)
  }

  predicate SentOk(s: State) {
    forall q | q in s.sent :: q < |s.ids| && (InFlightNumber(s, q) ==> s.inflight[s.ids[q]].goFd.None?)
  }

  /** What is pending of each pipe is what one parse of all its bytes leaves. */
  predicate PipesOk(s: State) {
    forall id | id in s.inflight ::
      var r := s.inflight[id];
      F.Bytes(r.got) && r.chunks == F.Ending(r.got, s.read) && F.AllFit(F.Chunks(r.got, s.read), Fits)
  }

  /** A request is lost only when nothing can be sent for the last frame of its child's bytes. */
  predicate LostOk(s: State) {
    s.lost.Some? ==>
      && s.dead && s.lost.value.id !in s.inflight
      && Unsendable(s.lost.value.id, F.Ending(s.lost.value.got, s.read), s.read, s.lost.value.cancelled)
  }

  function PhaseOf(s: State, id: Id): Phase {
    if id in s.inflight then (if s.inflight[id].goFd.None? then Released else Blocked)
    else if s.lost.Some? && s.lost.value.id == id then (if s.lost.value.released then Released else Blocked)
    else Absent
  }

  ghost function Phases(s: State): Id -> Phase { id => PhaseOf(s, id) }

  ghost predicate Valid(s: State) {
    && Tables(s)
    && (if s.dead then s.fds == map[] else AgentFds(s))
    && Procs(s)
    && SentOk(s)
    && PipesOk(s)
    && LostOk(s)
    && Follows(s.trace, Phases(s))
  }

  lemma {:induction false} ChunksFollow(trace: seq<Event>, messages: seq<Reply>, table: Id -> Phase)
    requires Follows(trace, table)
    ensures Follows(trace + Forwarded(messages), table)
  {
    hide Follows;
    if messages == [] {
      assert trace + Forwarded(messages) == trace;
    } else {
      var n := |messages| - 1;
      ChunksFollow(trace, messages[..n], table);
      FollowsStep(trace + Forwarded(messages[..n]), Chunk(messages[n].id), table, table);
      assert trace + Forwarded(messages) == trace + Forwarded(messages[..n]) + [Chunk(messages[n].id)];
    }
  }

  // Exec

  lemma FreshPipes(s: State, p: Pipes)
    requires Fresh(s, p)
    ensures p.resultR !in s.fds && p.resultW !in s.fds && p.goR !in s.fds && p.goW !in s.fds
    ensures p.resultR != p.resultW && p.resultR != p.goR && p.resultR != p.goW
    ensures p.resultW != p.goR && p.resultW != p.goW && p.goR != p.goW
  {
    var all := [p.resultR, p.resultW, p.goR, p.goW];
    assert all[0] in all && all[1] in all && all[2] in all && all[3] in all;
    assert all[0] != all[1] && all[0] != all[2] && all[0] != all[3] && all[1] != all[2] && all[1] != all[3] && all[2] != all[3];
  }

  lemma ExecKeepsNumbers(s: State, id: Id, pid: Pid, p: Pipes, inherited: seq<Fd>, q: nat)
    requires id !in s.inflight
    ensures var t := OnExec(s, id, pid, p, inherited);
            && (InFlightNumber(s, q) ==> InFlightNumber(t, q) && t.inflight[t.ids[q]] == s.inflight[s.ids[q]])
            && (InFlightNumber(t, q) ==> InFlightNumber(s, q) || q == |s.ids|)
            && InFlightNumber(t, |s.ids|) && t.ids[|s.ids|] == id
  {
    hide Child;
  }

  lemma ExecTables(s: State, id: Id, pid: Pid, p: Pipes, inherited: seq<Fd>)
    requires Tables(s) && AgentFds(s) && id !in s.inflight && Fresh(s, p)
    ensures Tables(OnExec(s, id, pid, p, inherited))
  {
    FreshPipes(s, p);
    hide Fresh, Child;
  }

  lemma ExecAccounts(s: State, id: Id, pid: Pid, p: Pipes, inherited: seq<Fd>)
    requires AgentFds(s) && id !in s.inflight
    ensures var t := OnExec(s, id, pid, p, inherited);
            && (forall fd | fd in s.fds :: Accounted(t, fd, s.fds[fd]))
            && Accounted(t, p.resultR, ResultR(|s.ids|)) && Accounted(t, p.goW, GoW(|s.ids|))
  {
    hide Child, InFlightNumber;
    ExecKeepsNumbers(s, id, pid, p, inherited, |s.ids|);
    forall fd | fd in s.fds ensures Accounted(OnExec(s, id, pid, p, inherited), fd, s.fds[fd]) {
      if !s.fds[fd].Control? { ExecKeepsNumbers(s, id, pid, p, inherited, s.fds[fd].req); }
    }
  }

  lemma ExecFds(s: State, id: Id, pid: Pid, p: Pipes, inherited: seq<Fd>)
    requires AgentFds(s) && id !in s.inflight && Fresh(s, p)
    ensures AgentFds(OnExec(s, id, pid, p, inherited))
  {
    FreshPipes(s, p);
    ExecAccounts(s, id, pid, p, inherited);
    hide Fresh, Child, Accounted;
  }

  lemma AllRegistered(s: State, fd: Fd)
    requires AgentFds(s) && fd in s.fds && fd != s.wire
    ensures Registered(s.inflight, fd) && (s.fds[fd].ResultR? || s.fds[fd].GoW?)
  {
  }

  lemma RegisteredIsHeld(s: State, fd: Fd)
    requires AgentFds(s) && Registered(s.inflight, fd)
    ensures fd in s.fds
  {
  }

  /** The list the child closes is everything it inherits but its own ends. */
  lemma InheritedCovers(s: State, inherited: seq<Fd>)
    requires AgentFds(s) && IsOpenFds(s, inherited)
    ensures s.wire in s.fds && s.fds[s.wire] == Control
    ensures forall fd | fd in s.fds :: (fd == s.wire || fd in inherited) && !s.fds[fd].ResultW? && !s.fds[fd].GoR?
    ensures forall fd | fd in inherited :: fd in s.fds
  {
    forall fd | fd in s.fds ensures (fd == s.wire || fd in inherited) && !s.fds[fd].ResultW? && !s.fds[fd].GoR? {
      if fd != s.wire { AllRegistered(s, fd); }
    }
    forall fd | fd in inherited ensures fd in s.fds { RegisteredIsHeld(s, fd); }
  }

  lemma CopyIsClean(held: map<Fd, End>, q: nat, id: Id, p: Pipes, closing: seq<Fd>)
    requires p.resultR !in held && p.resultW !in held && p.goR !in held && p.goW !in held
    requires p.resultR != p.resultW && p.resultR != p.goR && p.resultW != p.goR && p.resultW != p.goW && p.goR != p.goW
    requires forall fd | fd in held :: fd in closing && !held[fd].ResultW? && !held[fd].GoR?
    requires p.resultR in closing && p.goW in closing && p.resultW !in closing && p.goR !in closing
    ensures Clean(Proc(q, id, true, false, p.resultW, p.goR, SettingUp(closing), held + Ends(q, p) + OwnEnds(q, p)))
  {
  }

  lemma ChildIsClean(s: State, id: Id, p: Pipes, inherited: seq<Fd>)
    requires AgentFds(s) && Fresh(s, p) && IsOpenFds(s, inherited)
    ensures var c := Child(s, id, p, inherited); Clean(c) && !c.stage.InHandler? && c.req == |s.ids| && c.id == id
  {
    FreshPipes(s, p);
    InheritedCovers(s, inherited);
    hide AgentFds, Fresh, IsOpenFds;
    if s.canFork {
      var front := [s.wire, p.resultR, p.goW];
      var closing := front + inherited;
      assert front[0] in closing && front[1] in closing && front[2] in closing;
      CopyIsClean(s.fds, |s.ids|, id, p, closing);
      hide Clean;
    }
  }

  lemma ExecProcs(s: State, id: Id, pid: Pid, p: Pipes, inherited: seq<Fd>)
    requires Procs(s) && AgentFds(s) && Fresh(s, p) && IsOpenFds(s, inherited)
    requires id !in s.inflight && pid !in s.procs
    ensures Procs(OnExec(s, id, pid, p, inherited))
  {
    ChildIsClean(s, id, p, inherited);
    hide Clean, Child, AgentFds, Fresh, IsOpenFds, InFlightNumber;
    var t := OnExec(s, id, pid, p, inherited);
    ExecKeepsNumbers(s, id, pid, p, inherited, |s.ids|);
    forall other | other in s.procs ensures InFlightNumber(s, s.procs[other].req) ==>
      InFlightNumber(t, s.procs[other].req) && t.inflight[t.ids[s.procs[other].req]] == s.inflight[s.ids[s.procs[other].req]]
    {
      ExecKeepsNumbers(s, id, pid, p, inherited, s.procs[other].req);
    }
  }

  lemma ExecSent(s: State, id: Id, pid: Pid, p: Pipes, inherited: seq<Fd>)
    requires SentOk(s) && id !in s.inflight
    ensures SentOk(OnExec(s, id, pid, p, inherited))
  {
    hide Child;
    var t := OnExec(s, id, pid, p, inherited);
    forall q | q in s.sent ensures q < |t.ids| && (InFlightNumber(t, q) ==> t.inflight[t.ids[q]].goFd.None?) {
      ExecKeepsNumbers(s, id, pid, p, inherited, q);
    }
  }

  lemma ExecFollows(s: State, id: Id, pid: Pid, p: Pipes, inherited: seq<Fd>)
    requires Follows(s.trace, Phases(s)) && id !in s.inflight && s.lost.None?
    ensures Follows(OnExec(s, id, pid, p, inherited).trace, Phases(OnExec(s, id, pid, p, inherited)))
    ensures Follows(s.trace + [GotExec(id), Refused(id)], Phases(s))
  {
    hide Follows, Child;
    var waits := (other: Id) => if other == id then Waiting else PhaseOf(s, other);
    var more := s.trace + [GotExec(id)];
    FollowsStep(s.trace, GotExec(id), Phases(s), waits);
    FollowsStep(more, Forked(id), waits, Phases(OnExec(s, id, pid, p, inherited)));
    FollowsStep(more, Refused(id), waits, Phases(s));
    assert more + [Forked(id)] == s.trace + [GotExec(id), Forked(id)];
    assert more + [Refused(id)] == s.trace + [GotExec(id), Refused(id)];
  }

  lemma ExecPipes(s: State, id: Id, pid: Pid, p: Pipes, inherited: seq<Fd>)
    requires PipesOk(s) && LostOk(s) && !s.dead
    ensures PipesOk(OnExec(s, id, pid, p, inherited)) && LostOk(OnExec(s, id, pid, p, inherited))
  {
    hide Child;
    F.NothingRead(s.read, Fits);
  }

  lemma ExecKeepsValid(s: State, id: Id, pid: Pid, p: Pipes, inherited: seq<Fd>)
    requires Valid(s) && Enabled(s, Exec(id, pid, p, inherited))
    ensures Valid(OnExec(s, id, pid, p, inherited))
  {
    ExecTables(s, id, pid, p, inherited);
    ExecFds(s, id, pid, p, inherited);
    ExecProcs(s, id, pid, p, inherited);
    ExecSent(s, id, pid, p, inherited);
    ExecFollows(s, id, pid, p, inherited);
    ExecPipes(s, id, pid, p, inherited);
    hide Tables, AgentFds, Procs, SentOk, PipesOk, LostOk, Follows, Fresh, IsOpenFds, Phases;
  }

  // GO and CANCEL

  lemma FdOf(s: State, id: Id, other: Id)
    requires Tables(s) && AgentFds(s) && id in s.inflight && other in s.inflight && id != other
    ensures s.inflight[id].resultFd != s.inflight[other].resultFd && s.inflight[id].req != s.inflight[other].req
    ensures s.inflight[id].goFd.Some? ==> s.inflight[id].goFd != s.inflight[other].goFd
    ensures s.inflight[other].goFd != Some(s.inflight[id].resultFd)
    ensures s.inflight[id].goFd != Some(s.inflight[id].resultFd)
    ensures s.inflight[id].resultFd != s.wire && s.inflight[id].goFd != Some(s.wire)
  {
  }

  function Updated(s: State, id: Id, r: InFlight): State { s.(inflight := s.inflight[id := r]) }

  predicate SameRequest(a: InFlight, b: InFlight) { a.req == b.req && a.pid == b.pid && a.resultFd == b.resultFd }

  lemma KnownRequest(s: State, id: Id)
    requires Tables(s) && id in s.inflight
    ensures s.inflight[id].req < |s.ids| && s.ids[s.inflight[id].req] == id && InFlightNumber(s, s.inflight[id].req)
    ensures s.inflight[id].resultFd in s.byResultFd && s.byResultFd[s.inflight[id].resultFd] == id
  {
  }

  lemma UpdateKeepsNumber(s: State, id: Id, r: InFlight, q: nat)
    requires id in s.inflight && SameRequest(r, s.inflight[id])
    ensures InFlightNumber(Updated(s, id, r), q) <==> InFlightNumber(s, q)
    ensures InFlightNumber(s, q) ==> SameRequest(Updated(s, id, r).inflight[s.ids[q]], s.inflight[s.ids[q]])
  {
  }

  lemma UpdateTables(s: State, id: Id, r: InFlight)
    requires Tables(s) && id in s.inflight && SameRequest(r, s.inflight[id])
    ensures Tables(Updated(s, id, r))
  {
  }

  lemma UpdateProcs(s: State, id: Id, r: InFlight)
    requires Procs(s) && id in s.inflight && SameRequest(r, s.inflight[id])
    ensures Procs(Updated(s, id, r))
  {
    hide Clean;
    forall pid | pid in s.procs && InFlightNumber(s, s.procs[pid].req)
      ensures var q := s.procs[pid].req;
              InFlightNumber(Updated(s, id, r), q) && SameRequest(Updated(s, id, r).inflight[s.ids[q]], s.inflight[s.ids[q]])
    {
      UpdateKeepsNumber(s, id, r, s.procs[pid].req);
    }
  }

  lemma UpdateSent(s: State, id: Id, r: InFlight, sent: set<nat>)
    requires SentOk(s) && id in s.inflight && SameRequest(r, s.inflight[id])
    requires r.goFd == s.inflight[id].goFd || r.goFd.None?
    requires r.req < |s.ids| && s.ids[r.req] == id
    requires sent == s.sent || (r.goFd.None? && sent == s.sent + {r.req})
    ensures SentOk(Updated(s, id, r).(sent := sent))
  {
    forall q | q in sent ensures q < |s.ids| && (InFlightNumber(Updated(s, id, r), q) ==> Updated(s, id, r).inflight[s.ids[q]].goFd.None?) {
      UpdateKeepsNumber(s, id, r, q);
    }
  }

  lemma CancelTables(s: State, id: Id)
    requires Tables(s) && Procs(s) && SentOk(s)
    ensures Tables(OnCancel(s, id)) && Procs(OnCancel(s, id)) && SentOk(OnCancel(s, id))
  {
    hide Tables, Procs, SentOk;
    if id in s.inflight {
      KnownRequest(s, id);
      var marked := s.inflight[id].(cancelled := true);
      UpdateTables(s, id, marked);
      UpdateProcs(s, id, marked);
      UpdateSent(s, id, marked, s.sent);
    }
  }

  lemma GoTables(s: State, id: Id)
    requires Tables(s) && Procs(s) && SentOk(s)
    ensures Tables(OnGo(s, id)) && Procs(OnGo(s, id)) && SentOk(OnGo(s, id))
  {
    hide Tables, Procs, SentOk, Closed;
    var t := OnGo(s, id);
    if id in s.inflight && s.inflight[id].goFd.Some? {
      KnownRequest(s, id);
      var gone := s.inflight[id].(goFd := None);
      UpdateTables(s, id, gone);
      UpdateProcs(s, id, gone);
      UpdateSent(s, id, gone, t.sent);
      Frame(Updated(s, id, gone).(sent := t.sent), t);
      Frame(Updated(s, id, gone), t);
    } else {
      Frame(s, t);
    }
  }

  /** What the tables say does not depend on the agent's descriptors or the trace. */
  lemma Frame(s: State, t: State)
    requires t.inflight == s.inflight && t.byResultFd == s.byResultFd && t.ids == s.ids && t.wire == s.wire
    ensures Tables(s) ==> Tables(t)
    ensures SentOk(s) && t.sent == s.sent ==> SentOk(t)
    ensures Procs(s) && t.procs == s.procs && s.sent <= t.sent ==> Procs(t)
    ensures PipesOk(s) && t.read == s.read ==> PipesOk(t)
  {
  }

  lemma GoFds(s: State, id: Id)
    requires Tables(s) && AgentFds(s) && id in s.inflight && s.inflight[id].goFd.Some?
    ensures AgentFds(OnGo(s, id))
  {
    var r, t := s.inflight[id], OnGo(s, id);
    forall other | other in s.inflight && other != id
      ensures s.inflight[other].resultFd != r.goFd.value && s.inflight[other].goFd != r.goFd
    {
      FdOf(s, id, other);
      FdOf(s, other, id);
    }
    assert r.goFd != Some(r.resultFd) && r.goFd != Some(s.wire);
    hide Tables, Closed;
    forall fd | fd in t.fds ensures Accounted(t, fd, t.fds[fd]) {
      if !t.fds[fd].Control? { UpdateKeepsNumber(s, id, r.(goFd := None), t.fds[fd].req); }
    }
    hide Accounted;
  }

  lemma UpdateFds(s: State, id: Id, r: InFlight)
    requires AgentFds(s) && id in s.inflight && SameRequest(r, s.inflight[id]) && r.goFd == s.inflight[id].goFd
    ensures AgentFds(Updated(s, id, r))
  {
    var t := Updated(s, id, r);
    forall fd | fd in t.fds ensures Accounted(t, fd, t.fds[fd]) {
      if !t.fds[fd].Control? { UpdateKeepsNumber(s, id, r, t.fds[fd].req); }
    }
    hide Accounted;
  }

  lemma GoPhases(s: State, id: Id)
    requires s.lost.None?
    ensures forall other | other != id :: PhaseOf(OnGo(s, id), other) == PhaseOf(s, other)
    ensures PhaseOf(OnGo(s, id), id) == if PhaseOf(s, id) == Blocked then Released else PhaseOf(s, id)
  {
    hide Closed;
  }

  lemma CancelPhases(s: State, id: Id)
    ensures forall other :: PhaseOf(OnCancel(s, id), other) == PhaseOf(s, other)
  {
  }

  lemma GoFollows(s: State, id: Id)
    requires Follows(s.trace, Phases(s)) && s.lost.None?
    ensures Follows(OnGo(s, id).trace, Phases(OnGo(s, id)))
    ensures Follows(OnCancel(s, id).trace, Phases(OnCancel(s, id)))
  {
    hide Follows, Closed;
    GoPhases(s, id);
    CancelPhases(s, id);
    hide PhaseOf;
    FollowsStep(s.trace, GotGo(id), Phases(s), Phases(OnGo(s, id)));
    FollowsSame(s.trace, Phases(s), Phases(OnCancel(s, id)));
  }

  lemma FdsFrame(s: State, t: State)
    requires t.inflight == s.inflight && t.ids == s.ids && t.wire == s.wire && t.fds == s.fds
    ensures AgentFds(s) ==> AgentFds(t)
  {
  }

  lemma SamePipes(s: State, t: State, id: Id, r: InFlight)
    requires PipesOk(s) && id in s.inflight && r.chunks == s.inflight[id].chunks && r.got == s.inflight[id].got
    requires t.read == s.read && t.inflight == s.inflight[id := r]
    ensures PipesOk(t)
  {
    hide F.Bytes, F.Ending, F.AllFit, F.Chunks;
  }

  lemma GoPipes(s: State, id: Id)
    requires PipesOk(s) && s.lost.None?
    ensures PipesOk(OnGo(s, id)) && LostOk(OnGo(s, id)) && PipesOk(OnCancel(s, id)) && LostOk(OnCancel(s, id))
  {
    hide Closed, PipesOk;
    if id in s.inflight {
      SamePipes(s, OnCancel(s, id), id, s.inflight[id].(cancelled := true));
      if s.inflight[id].goFd.Some? {
        SamePipes(s, OnGo(s, id), id, s.inflight[id].(goFd := None));
      } else {
        Frame(s, OnGo(s, id));
      }
    } else {
      Frame(s, OnGo(s, id));
    }
  }

  lemma GoFdsOk(s: State, id: Id)
    requires Tables(s) && AgentFds(s)
    ensures AgentFds(OnGo(s, id)) && AgentFds(OnCancel(s, id))
  {
    hide Tables, AgentFds, Closed;
    if id in s.inflight {
      UpdateFds(s, id, s.inflight[id].(cancelled := true));
      if s.inflight[id].goFd.Some? { GoFds(s, id); } else { FdsFrame(s, OnGo(s, id)); }
    } else {
      FdsFrame(s, OnGo(s, id));
    }
  }

  lemma GoKeepsValid(s: State, id: Id)
    requires Valid(s) && !s.dead
    ensures Valid(OnGo(s, id)) && Valid(OnCancel(s, id))
  {
    GoTables(s, id);
    CancelTables(s, id);
    GoFollows(s, id);
    GoPipes(s, id);
    GoFdsOk(s, id);
    hide Tables, AgentFds, Procs, SentOk, PipesOk, LostOk, Follows, Phases, Closed;
  }

  // End of file

  lemma EofKeepsNumber(s: State, fd: Fd, q: nat)
    requires Tables(s) && fd in s.byResultFd
    ensures InFlightNumber(Cleared(s, fd), q) <==> InFlightNumber(s, q) && q != s.inflight[s.byResultFd[fd]].req
    ensures InFlightNumber(Cleared(s, fd), q) ==> Cleared(s, fd).inflight[s.ids[q]] == s.inflight[s.ids[q]]
  {
  }

  lemma EofTables(s: State, fd: Fd)
    requires Tables(s) && fd in s.byResultFd
    ensures Tables(Cleared(s, fd))
  {
  }

  /** A process that has not passed the barrier holds the write end its request's reader
      waits on, so the request cannot have been finished. */
  lemma EofProcs(s: State, fd: Fd)
    requires Tables(s) && Procs(s) && SentOk(s) && Enabled(s, Eof(fd))
    ensures Procs(Cleared(s, fd)) && SentOk(Cleared(s, fd))
  {
    var q, t := s.inflight[s.byResultFd[fd]].req, Cleared(s, fd);
    forall pid | pid in s.procs && !s.procs[pid].stage.InHandler?
      ensures InFlightNumber(t, s.procs[pid].req) && t.inflight[s.ids[s.procs[pid].req]] == s.inflight[s.ids[s.procs[pid].req]]
    {
      var p := s.procs[pid];
      assert Holds(p, ResultW(p.req)) by { assert p.fds[p.resultFd] == ResultW(p.req); }
      EofKeepsNumber(s, fd, p.req);
    }
    forall n | n in s.sent ensures InFlightNumber(t, n) ==> InFlightNumber(s, n) && t.inflight[t.ids[n]] == s.inflight[s.ids[n]] {
      EofKeepsNumber(s, fd, n);
    }
    hide Clean, InFlightNumber, Tables, Held;
  }

  lemma EofFds(s: State, fd: Fd)
    requires Tables(s) && AgentFds(s) && fd in s.byResultFd
    ensures AgentFds(Cleared(s, fd))
  {
    var id, t := s.byResultFd[fd], Cleared(s, fd);
    var r := s.inflight[id];
    assert r.resultFd == fd;
    forall other | other in t.inflight
      ensures s.inflight[other].resultFd != fd && Some(s.inflight[other].resultFd) != r.goFd
      ensures s.inflight[other].goFd != Some(fd) && (r.goFd.Some? ==> s.inflight[other].goFd != r.goFd)
    {
      FdOf(s, id, other);
      FdOf(s, other, id);
    }
    assert fd != s.wire && r.goFd != Some(s.wire);
    forall f | f in t.fds ensures Accounted(t, f, t.fds[f]) {
      if !t.fds[f].Control? { EofKeepsNumber(s, fd, t.fds[f].req); }
    }
    hide Accounted, Tables;
  }

  lemma AnswerIsTerminal(id: Id, raw: seq<int>, read: Reader, cancelled: bool)
    ensures var answer := AnswerOf(id, raw, read, cancelled);
            && (answer.Some? ==> answer.value in {Done(id), Refused(id)})
            && (answer.None? <==> Unsendable(id, raw, read, cancelled))
            && EndOf(id, raw, read, cancelled) == (if answer.Some? then [answer.value] else [])
  {
    assert |raw| >= 4 ==> F.Size(raw) == Announced(raw);
    hide F.Size, Announced;
  }

  lemma EofPhases(s: State, fd: Fd)
    requires s.lost.None? && fd in s.byResultFd && s.byResultFd[fd] in s.inflight
    ensures var id, t := s.byResultFd[fd], OnEof(s, fd);
            && PhaseOf(s, id) in {Blocked, Released}
            && (t.lost.Some? ==> PhaseOf(t, id) == PhaseOf(s, id)) && (t.lost.None? ==> PhaseOf(t, id) == Absent)
            && (forall other | other != id :: PhaseOf(t, other) == PhaseOf(s, other))
  {
    hide AnswerOf;
  }

  lemma EofFollows(s: State, fd: Fd)
    requires s.lost.None? && fd in s.byResultFd && s.byResultFd[fd] in s.inflight && Follows(s.trace, Phases(s))
    ensures Follows(OnEof(s, fd).trace, Phases(OnEof(s, fd)))
  {
    var id, t := s.byResultFd[fd], OnEof(s, fd);
    hide Follows, AnswerOf, Cleared;
    AnswerIsTerminal(id, s.inflight[id].chunks, s.read, s.inflight[id].cancelled);
    EofPhases(s, fd);
    hide PhaseOf;
    var answer := AnswerOf(id, s.inflight[id].chunks, s.read, s.inflight[id].cancelled);
    if answer.Some? {
      FollowsStep(s.trace, answer.value, Phases(s), Phases(t));
    } else {
      FollowsSame(s.trace, Phases(s), Phases(t));
    }
  }

  lemma EofLost(s: State, fd: Fd)
    requires Tables(s) && PipesOk(s) && s.lost.None? && fd in s.byResultFd
    ensures PipesOk(OnEof(s, fd)) && LostOk(OnEof(s, fd))
  {
    var r := s.inflight[s.byResultFd[fd]];
    AnswerIsTerminal(s.byResultFd[fd], r.chunks, s.read, r.cancelled);
    assert r.chunks == F.Ending(r.got, s.read);
    hide Tables, AnswerOf, Unsendable, F.Decode, F.Ending, F.Chunks, F.Bytes, F.AllFit;
  }

  lemma EofTransfers(s: State, fd: Fd)
    requires fd in s.byResultFd && s.byResultFd[fd] in s.inflight && !s.dead
    requires Tables(Cleared(s, fd)) && AgentFds(Cleared(s, fd)) && Procs(Cleared(s, fd)) && SentOk(Cleared(s, fd))
    ensures var t := OnEof(s, fd);
            Tables(t) && (if t.dead then t.fds == map[] else AgentFds(t)) && Procs(t) && SentOk(t)
  {
    hide Tables, AgentFds, Procs, SentOk, AnswerOf;
    var c, t := Cleared(s, fd), OnEof(s, fd);
    assert !c.dead && c.fds == Cleared(s, fd).fds;
    hide Cleared;
    Frame(c, t);
    if !t.dead { FdsFrame(c, t); }
  }

  lemma EofKeepsValid(s: State, fd: Fd)
    requires Valid(s) && Enabled(s, Eof(fd))
    ensures Valid(OnEof(s, fd))
  {
    EofTables(s, fd);
    EofProcs(s, fd);
    EofFds(s, fd);
    EofTransfers(s, fd);
    EofFollows(s, fd);
    EofLost(s, fd);
    hide Tables, AgentFds, Procs, SentOk, PipesOk, LostOk, Follows, Phases, AnswerOf, Cleared, OnEof;
  }

  // The processes

  /** A process goes away, or its record changes within what `Procs` allows. */
  lemma ProcsStep(s: State, pid: Pid, p: Proc)
    requires Procs(s)
    requires p.req < |s.ids| && s.ids[p.req] == p.id && Clean(p)
    requires if p.stage.InHandler? then p.req in s.sent else InFlightNumber(s, p.req) && s.inflight[s.ids[p.req]].pid == pid
    ensures Procs(WithProc(s, pid, p))
  {
    hide Clean;
  }

  lemma SetsClean(p: Proc)
    requires Clean(p) && p.stage.SettingUp?
    ensures p.stage.closing == [] ==> Clean(p.(stage := AtBarrier))
    ensures p.stage.closing != [] ==>
            Clean(p.(stage := SettingUp(p.stage.closing[1..]), fds := p.fds - {p.stage.closing[0]}))
  {
    var closing := p.stage.closing;
    if closing != [] {
      assert closing == [closing[0]] + closing[1..];
    }
  }

  lemma LaterClean(p: Proc, fds: set<Fd>)
    requires Clean(p) && !p.stage.SettingUp?
    ensures Clean(p.(stage := InHandler, fds := p.fds - fds)) && Clean(p.(stage := InHandler))
    ensures p.stage.InHandler? ==> Clean(p.(root := false))
  {
  }

  lemma ChildFrame(s: State, t: State)
    requires t == s.(procs := t.procs, trace := t.trace)
    ensures Tables(s) ==> Tables(t)
    ensures AgentFds(s) ==> AgentFds(t)
    ensures SentOk(s) ==> SentOk(t)
    ensures PipesOk(s) ==> PipesOk(t)
    ensures LostOk(s) ==> LostOk(t)
    ensures Procs(s) && t.procs == s.procs ==> Procs(t)
  {
  }

  lemma ReleasedAtBarrier(s: State, pid: Pid)
    requires Procs(s) && SentOk(s) && pid in s.procs && s.procs[pid].stage.AtBarrier?
    ensures AtGo(s, s.procs[pid]) == Enters ==> s.procs[pid].req in s.sent && PhaseOf(s, s.procs[pid].id) == Released
  {
    hide Held, Clean;
    assert InFlightNumber(s, s.procs[pid].req);
  }

  lemma ReadsFollows(s: State, pid: Pid)
    requires Procs(s) && SentOk(s) && Follows(s.trace, Phases(s)) && Enabled(s, Reads(pid))
    ensures Follows(OnReads(s, pid).trace, Phases(OnReads(s, pid)))
  {
    hide Follows, AtGo, Procs, SentOk;
    ReleasedAtBarrier(s, pid);
    var p, t := s.procs[pid], OnReads(s, pid);
    if AtGo(s, p) == Enters {
      FollowsStep(s.trace, Entered(p.id), Phases(s), Phases(t));
    } else {
      FollowsSame(s.trace, Phases(s), Phases(t));
    }
  }

  lemma ExitProcs(s: State, pid: Pid)
    requires Procs(s)
    ensures Procs(s.(procs := s.procs - {pid}))
  {
    hide Clean;
  }

  lemma EntersProcs(s: State, pid: Pid, fds: map<Fd, End>)
    requires Procs(s) && pid in s.procs && s.procs[pid].stage.AtBarrier? && s.procs[pid].req in s.sent
    requires fds == s.procs[pid].fds || fds == s.procs[pid].fds - {s.procs[pid].goFd}
    ensures Procs(WithProc(s, pid, s.procs[pid].(stage := InHandler, fds := fds)))
  {
    var p := s.procs[pid];
    LaterClean(p, {p.goFd});
    var entered := p.(stage := InHandler, fds := fds);
    assert Clean(entered) && p.req < |s.ids| && s.ids[p.req] == p.id;
    hide Clean, Procs, InFlightNumber;
    ProcsStep(s, pid, entered);
  }

  lemma ReadsProcs(s: State, pid: Pid)
    requires Procs(s) && Enabled(s, Reads(pid))
    ensures Procs(OnReads(s, pid))
  {
    hide Procs, Held;
    var p, t := s.procs[pid], OnReads(s, pid);
    ExitProcs(s, pid);
    if AtGo(s, p) == Enters {
      var fds := if p.spawned then p.fds else p.fds - {p.goFd};
      EntersProcs(s, pid, fds);
      ChildFrame(WithProc(s, pid, p.(stage := InHandler, fds := fds)), t);
    }
  }

  lemma SetsProcs(s: State, pid: Pid)
    requires Procs(s) && Enabled(s, Sets(pid))
    ensures Procs(OnSets(s, pid))
  {
    var p := s.procs[pid];
    SetsClean(p);
    var closing := p.stage.closing;
    var next := if closing == [] then p.(stage := AtBarrier)
                else p.(stage := SettingUp(closing[1..]), fds := p.fds - {closing[0]});
    assert p.req < |s.ids| && s.ids[p.req] == p.id && InFlightNumber(s, p.req) && s.inflight[s.ids[p.req]].pid == pid;
    hide Clean, Procs, InFlightNumber;
    ProcsStep(s, pid, next);
  }

  lemma HandlerProcs(s: State, pid: Pid, helper: Pid, fd: Fd)
    requires Procs(s) && pid in s.procs && s.procs[pid].stage.InHandler?
    ensures Procs(WithProc(s, helper, s.procs[pid].(root := false)))
    ensures Procs(WithProc(s, pid, s.procs[pid].(fds := s.procs[pid].fds - {fd})))
  {
    var p := s.procs[pid];
    LaterClean(p, {fd});
    assert p.(stage := InHandler, fds := p.fds - {fd}) == p.(fds := p.fds - {fd});
    assert p.req < |s.ids| && s.ids[p.req] == p.id && p.req in s.sent;
    hide Clean, Procs, InFlightNumber;
    ProcsStep(s, helper, p.(root := false));
    ProcsStep(s, pid, p.(fds := p.fds - {fd}));
  }

  predicate ChildStep(i: Input) { i.Sets? || i.Reads? || i.Helps? || i.Drops? || i.Exits? }

  lemma ChildKeepsProcs(s: State, i: Input)
    requires Valid(s) && Enabled(s, i) && ChildStep(i)
    ensures Procs(Effect(s, i))
    ensures Effect(s, i) == s.(procs := Effect(s, i).procs, trace := Effect(s, i).trace)
    ensures if i.Reads? then Effect(s, i) == OnReads(s, i.pid) else Effect(s, i).trace == s.trace
  {
    hide Follows, Held, Clean, InFlightNumber, Tables, AgentFds, SentOk;
    match i
    case Sets(pid) => SetsProcs(s, pid);
    case Reads(pid) => ReadsProcs(s, pid);
    case Helps(pid, helper) => HandlerProcs(s, pid, helper, 0);
    case Drops(pid, fd) => HandlerProcs(s, pid, pid, fd);
    case Exits(pid) => ExitProcs(s, pid);
  }

  lemma ChildKeepsValid(s: State, i: Input)
    requires Valid(s) && Enabled(s, i) && ChildStep(i)
    ensures Valid(Effect(s, i))
  {
    hide Follows, Procs, Effect, Tables, AgentFds, SentOk, PipesOk, LostOk, Phases;
    ChildKeepsProcs(s, i);
    var t := Effect(s, i);
    if i.Reads? { ReadsFollows(s, i.pid); }
    hide Enabled, OnReads;
    ChildFrame(s, t);
    ChildPhases(s, t);
  }

  lemma ChildPhases(s: State, t: State)
    requires t.inflight == s.inflight && t.lost == s.lost && Follows(s.trace, Phases(s))
    ensures t.trace == s.trace ==> Follows(t.trace, Phases(t))
  {
    hide Follows;
    FollowsSame(s.trace, Phases(s), Phases(t));
  }

  // Everything

  predicate Quiet(i: Input) { i.ExecFails? || i.Ping? || i.Unknown? || i.Stop? || i.Tick? || i.Dies? }

  lemma QuietChanges(s: State, i: Input)
    requires Enabled(s, i) && Quiet(i)
    ensures var t := Effect(s, i);
            t == s.(trace := t.trace, accepting := t.accepting, dead := t.dead, fds := t.fds) && (if t.dead then t.fds == map[] else !s.dead && t.fds == s.fds)
  {
    hide Held, InFlightNumber;
  }

  lemma QuietFollows(s: State, i: Input)
    requires Follows(s.trace, Phases(s)) && LostOk(s) && Enabled(s, i) && Quiet(i)
    ensures Follows(Effect(s, i).trace, Phases(s))
  {
    hide Follows, Held;
    match i {
      case ExecFails(id) => ExecFollows(s, id, 0, Pipes(0, 0, 0, 0), []);
      case Unknown =>
        FollowsStep(s.trace, Complaint, Phases(s), Phases(s));
      case Tick(round) => RoundFollows(s.trace, round, Phases(s));
      case _ =>
    }
  }

  lemma QuietKeepsValid(s: State, i: Input)
    requires Valid(s) && Enabled(s, i) && Quiet(i)
    ensures Valid(Effect(s, i))
  {
    hide Tables, AgentFds, Procs, SentOk, PipesOk, Follows, Enabled, Effect;
    QuietChanges(s, i);
    QuietFollows(s, i);
    var t := Effect(s, i);
    Frame(s, t);
    if !t.dead { FdsFrame(s, t); }
    FollowsSame(t.trace, Phases(s), Phases(t));
  }

  // Bytes of a result pipe

  lemma DataTables(s: State, fd: Fd, bytes: seq<int>)
    requires Valid(s) && Enabled(s, Data(fd, bytes))
    ensures var t := OnData(s, fd, bytes);
            Tables(t) && (if t.dead then t.fds == map[] else AgentFds(t)) && Procs(t) && SentOk(t) && PipesOk(t) && LostOk(t)
  {
    hide Tables, AgentFds, Procs, SentOk, PipesOk, Follows;
    var id, t := s.byResultFd[fd], OnData(s, fd, bytes);
    var r := s.inflight[id];
    var more := r.(chunks := F.Ending(r.chunks + bytes, s.read), got := r.got + bytes);
    KnownRequest(s, id);
    if t.dead {
      Frame(s, t);
    } else {
      UpdateTables(s, id, more);
      UpdateProcs(s, id, more);
      UpdateSent(s, id, more, s.sent);
      UpdateFds(s, id, more);
      MorePipes(s, id, bytes);
      Frame(Updated(s, id, more), t);
      FdsFrame(Updated(s, id, more), t);
    }
  }

  lemma MorePipes(s: State, id: Id, bytes: seq<int>)
    requires PipesOk(s) && id in s.inflight && F.Bytes(bytes)
    requires F.AllFit(F.Chunks(s.inflight[id].chunks + bytes, s.read), Fits)
    ensures var r := s.inflight[id];
            PipesOk(Updated(s, id, r.(chunks := F.Ending(r.chunks + bytes, s.read), got := r.got + bytes)))
  {
    var r := s.inflight[id];
    F.ChunksOfMore(r.got, bytes, s.read);
    F.FittingOfMore(F.Chunks(r.got, s.read), F.Chunks(r.chunks + bytes, s.read), Fits);
    F.BytesOfMore(r.got, bytes);
    hide F.Chunks, F.Ending, F.AllFit, F.Bytes;
  }

  lemma DataFollows(s: State, fd: Fd, bytes: seq<int>)
    requires Follows(s.trace, Phases(s)) && fd in s.byResultFd && s.byResultFd[fd] in s.inflight
    ensures Follows(OnData(s, fd, bytes).trace, Phases(OnData(s, fd, bytes)))
  {
    hide Follows, F.Chunks, F.Ending, F.AllFit, F.Fitting;
    var t := OnData(s, fd, bytes);
    ChunksFollow(s.trace, F.Fitting(Arriving(s, fd, bytes), Fits), Phases(s));
    FollowsSame(t.trace, Phases(s), Phases(t));
  }

  lemma DataKeepsValid(s: State, fd: Fd, bytes: seq<int>)
    requires Valid(s) && Enabled(s, Data(fd, bytes))
    ensures Valid(OnData(s, fd, bytes))
  {
    DataTables(s, fd, bytes);
    DataFollows(s, fd, bytes);
    hide Tables, AgentFds, Procs, SentOk, PipesOk, LostOk, Follows, OnData, Phases;
  }

  lemma StepKeepsValid(s: State, i: Input)
    requires Valid(s) && Enabled(s, i)
    ensures Valid(Effect(s, i))
  {
    hide Valid;
    match i
    case Exec(id, pid, pipes, inherited) => ExecKeepsValid(s, id, pid, pipes, inherited);
    case Go(id) => GoKeepsValid(s, id);
    case Cancel(id) => GoKeepsValid(s, id);
    case Eof(fd) => EofKeepsValid(s, fd);
    case Data(fd, bytes) => DataKeepsValid(s, fd, bytes);
    case _ => if ChildStep(i) { ChildKeepsValid(s, i); } else { QuietKeepsValid(s, i); }
  }
}
