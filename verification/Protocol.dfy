/** The warm-execution protocol both agents speak, as a monitor that watches a run
    for one request id, and what a run that the monitor accepts is worth.
 */
module Protocol {
  import opened Wrappers

  type Id = string

  datatype Event =
    | GotExec(id: Id)    // EXEC received
    | GotGo(id: Id)      // GO received
    | Forked(id: Id)     // FORKED sent
    | Chunk(id: Id)      // CHUNK sent under this id
    | Beat(id: Id)       // heartbeat PING sent
    | Entered(id: Id)    // the request's process enters the handler
    | Done(id: Id)       // DONE sent
    | Refused(id: Id)    // ERROR sent as the answer to the EXEC
    | Complaint          // ERROR sent about a message, whatever id it carries

  datatype Phase =
    | Absent             // no unanswered EXEC
    | Waiting            // EXEC received, no process yet
    | Blocked            // FORKED sent, GO not yet received
    | Released           // GO received

  predicate Distinct<T(==)>(s: seq<T>) { forall i, j | 0 <= i < j < |s| :: s[i] != s[j] }

  predicate About(e: Event, id: Id) { !e.Complaint? && e.id == id }

  predicate Terminal(e: Event) { e.Done? || e.Refused? }

  /** The monitor: `None` is a violation of the protocol. CHUNKs are watched apart, by
      `ChunksOpen`: their id need not be the agent's choice. */
  function Next(phase: Phase, e: Event): Option<Phase>
    requires !e.Complaint?
  {
    match e
    case GotExec(_) => if phase == Absent then Some(Waiting) else None
    case GotGo(_) => Some(if phase == Blocked then Released else phase)
    case Forked(_) => if phase == Waiting then Some(Blocked) else None
    case Chunk(_) => Some(phase)
    case Beat(_) => if phase == Released then Some(phase) else None
    case Entered(_) => if phase == Released then Some(phase) else None
    case Done(_) => if phase == Blocked || phase == Released then Some(Absent) else None
    case Refused(_) => if phase == Absent then None else Some(Absent)
  }

  function Watch(trace: seq<Event>, id: Id): Option<Phase> {
    if trace == [] then Some(Absent)
    else
      var before := Watch(trace[..|trace| - 1], id);
      var e := trace[|trace| - 1];
      if before.None? || !About(e, id) then before else Next(before.value, e)
  }

  lemma WatchOneMore(trace: seq<Event>, e: Event, id: Id)
    ensures Watch(trace + [e], id) ==
            if Watch(trace, id).None? || !About(e, id) then Watch(trace, id) else Next(Watch(trace, id).value, e)
  {
    assert (trace + [e])[..|trace|] == trace;
  }

  /** Every CHUNK goes out under the id of a request that has a process and no answer. */
  predicate ChunksOpen(trace: seq<Event>) {
    trace == [] ||
      var before, e := trace[..|trace| - 1], trace[|trace| - 1];
      ChunksOpen(before) && (e.Chunk? ==> Watch(before, e.id) in {Some(Blocked), Some(Released)})
  }

  lemma ChunksOneMore(trace: seq<Event>, e: Event)
    ensures ChunksOpen(trace + [e]) <==>
            ChunksOpen(trace) && (e.Chunk? ==> Watch(trace, e.id) in {Some(Blocked), Some(Released)})
  {
    assert (trace + [e])[..|trace|] == trace;
  }

  lemma {:induction false} ChunksWithoutChunk(trace: seq<Event>, more: seq<Event>)
    requires forall e | e in more :: !e.Chunk?
    ensures ChunksOpen(trace + more) <==> ChunksOpen(trace)
  {
    if more == [] {
      assert trace + more == trace;
    } else {
      var n := |more| - 1;
      assert more[n] in more && forall e | e in more[..n] :: e in more;
      ChunksWithoutChunk(trace, more[..n]);
      ChunksOneMore(trace + more[..n], more[n]);
      assert trace + more == trace + more[..n] + [more[n]];
    }
  }

  /** A heartbeat round: the released requests, each once, in any order. */
  predicate IsRound(round: seq<Id>, released: set<Id>) {
    Distinct(round) && (forall id | id in round :: id in released) && (forall id | id in released :: id in round)
  }

  // --- A run against a table of phases ----------------------------------------

  /** The run is accepted for every id, and leaves each id in the phase `table` gives it. */
  ghost predicate Follows(trace: seq<Event>, table: Id -> Phase) {
    forall id :: Watch(trace, id) == Some(table(id))
  }

  /** One more event, when the table moves as the monitor does at its id and nowhere else. */
  lemma FollowsStep(trace: seq<Event>, e: Event, before: Id -> Phase, after: Id -> Phase)
    requires Follows(trace, before)
    requires !e.Complaint? ==> Next(before(e.id), e) == Some(after(e.id))
    requires forall id :: e.Complaint? || id != e.id ==> after(id) == before(id)
    ensures Follows(trace + [e], after)
  {
    forall id ensures Watch(trace + [e], id) == Some(after(id)) {
      WatchOneMore(trace, e, id);
      assert Watch(trace, id) == Some(before(id));
    }
  }

  lemma FollowsSame(trace: seq<Event>, before: Id -> Phase, after: Id -> Phase)
    requires Follows(trace, before) && forall id :: before(id) == after(id)
    ensures Follows(trace, after)
  {
  }

  function Beats(round: seq<Id>): (beats: seq<Event>)
    ensures |beats| == |round| && forall i | 0 <= i < |beats| :: beats[i] == Beat(round[i])
  {
    seq(|round|, i requires 0 <= i < |round| => Beat(round[i]))
  }

  lemma {:induction false} RoundFollows(trace: seq<Event>, round: seq<Id>, table: Id -> Phase)
    requires Follows(trace, table) && forall id | id in round :: table(id) == Released
    ensures Follows(trace + Beats(round), table)
    decreases round
  {
    hide Follows;
    if round == [] {
      assert trace + Beats(round) == trace;
    } else {
      FollowsStep(trace, Beat(round[0]), table, table);
      RoundFollows(trace + [Beat(round[0])], round[1..], table);
      assert trace + Beats(round) == trace + [Beat(round[0])] + Beats(round[1..]);
    }
  }

  // --- What an accepted run is worth -----------------------------------------------

  function Count(trace: seq<Event>, which: Event -> bool): nat {
    if trace == [] then 0
    else Count(trace[..|trace| - 1], which) + (if which(trace[|trace| - 1]) then 1 else 0)
  }

  function Execs(trace: seq<Event>, id: Id): nat { Count(trace, (e: Event) => e == GotExec(id)) }

  function Forks(trace: seq<Event>, id: Id): nat { Count(trace, (e: Event) => e == Forked(id)) }

  function Answers(trace: seq<Event>, id: Id): nat { Count(trace, (e: Event) => About(e, id) && Terminal(e)) }

  function Dones(trace: seq<Event>, id: Id): nat { Count(trace, (e: Event) => e == Done(id)) }

  /** ERRORs that answered an EXEC for which no process had been started. */
  function Unstarted(trace: seq<Event>, id: Id): nat {
    if trace == [] then 0
    else
      var before := trace[..|trace| - 1];
      Unstarted(before, id) + (if trace[|trace| - 1] == Refused(id) && Watch(before, id) == Some(Waiting) then 1 else 0)
  }

  /** Every EXEC has exactly one answer, except the one still open, and exactly one FORKED,
      except one that was refused without a process or still waits for one. */
  lemma {:induction false} OneAnswerEach(trace: seq<Event>, id: Id)
    requires Watch(trace, id).Some?
    ensures var phase := Watch(trace, id).value;
            && Execs(trace, id) == Answers(trace, id) + (if phase == Absent then 0 else 1)
            && Execs(trace, id) == Forks(trace, id) + Unstarted(trace, id) + (if phase == Waiting then 1 else 0)
            && Dones(trace, id) + Unstarted(trace, id) <= Answers(trace, id)
  {
    if trace != [] { OneAnswerEach(trace[..|trace| - 1], id); }
  }

  /** The request is open from `from` on: no answer since. */
  ghost predicate Open(trace: seq<Event>, id: Id, from: nat) {
    forall k | from < k < |trace| :: !(About(trace[k], id) && Terminal(trace[k]))
  }

  lemma {:induction false} OpenSinceFork(trace: seq<Event>, id: Id) returns (forked: nat, go: nat)
    requires Watch(trace, id).Some? && Watch(trace, id).value in {Blocked, Released}
    ensures forked < |trace| && trace[forked] == Forked(id) && Open(trace, id, forked)
    ensures Watch(trace, id).value == Released ==> forked < go < |trace| && trace[go] == GotGo(id)
  {
    var n := |trace| - 1;
    var before := Watch(trace[..n], id);
    if before.value in {Blocked, Released} {
      forked, go := OpenSinceFork(trace[..n], id);
      if before.value == Blocked { go := n; }
    } else {
      forked, go := n, n;
    }
  }

  /** No handler is entered, and no heartbeat sent, but for a request whose GO came
      after its FORKED and which has not been answered since. */
  lemma EntryFollowsGo(trace: seq<Event>, id: Id, k: nat) returns (forked: nat, go: nat)
    requires Watch(trace, id).Some? && k < |trace| && trace[k] in {Entered(id), Beat(id)}
    ensures forked < go < k && trace[forked] == Forked(id) && trace[go] == GotGo(id) && Open(trace[..k], id, forked)
  {
    WatchPrefix(trace, id, k + 1);
    assert trace[..k + 1][..k] == trace[..k];
    forked, go := OpenSinceFork(trace[..k], id);
  }

  /** A DONE comes after the FORKED of its own request, with no other answer between. */
  lemma DoneFollowsFork(trace: seq<Event>, id: Id, k: nat) returns (forked: nat)
    requires Watch(trace, id).Some? && k < |trace| && trace[k] == Done(id)
    ensures forked < k && trace[forked] == Forked(id) && Open(trace[..k], id, forked)
  {
    WatchPrefix(trace, id, k + 1);
    assert trace[..k + 1][..k] == trace[..k];
    var go;
    forked, go := OpenSinceFork(trace[..k], id);
  }

  /** Between `from` and `to` nothing about the request but FORKED at `forked`. */
  ghost predicate OnlyForked(trace: seq<Event>, id: Id, from: nat, forked: nat, to: nat)
    requires to <= |trace|
  {
    forall k | from < k < to && k != forked ::
      trace[k] != GotExec(id) && trace[k] != Forked(id) && !(About(trace[k], id) && Terminal(trace[k]))
  }

  lemma {:induction false} ForkedOnce(trace: seq<Event>, id: Id) returns (exec: nat, forked: nat)
    requires Watch(trace, id).Some? && Watch(trace, id).value != Absent
    ensures exec < |trace| && trace[exec] == GotExec(id) && OnlyForked(trace, id, exec, forked, |trace|)
    ensures Watch(trace, id).value == Waiting ==> forked == |trace|
    ensures Watch(trace, id).value != Waiting ==> exec < forked < |trace| && trace[forked] == Forked(id)
  {
    var n := |trace| - 1;
    var before := Watch(trace[..n], id);
    if before == Some(Absent) {
      exec, forked := n, n + 1;
    } else {
      exec, forked := ForkedOnce(trace[..n], id);
      if before == Some(Waiting) { forked := if trace[n] == Forked(id) then n else n + 1; }
    }
  }

  /** Each answer is to an EXEC after which exactly one FORKED was sent, and nothing else
      that starts or answers the request, or is an ERROR and no FORKED was sent. */
  lemma AnswerAfterItsFork(trace: seq<Event>, id: Id, k: nat) returns (exec: nat, forked: nat)
    requires Watch(trace, id).Some? && k < |trace| && trace[k] in {Done(id), Refused(id)}
    ensures exec < k && exec < forked && trace[exec] == GotExec(id) && OnlyForked(trace, id, exec, forked, k)
    ensures if forked < k then trace[forked] == Forked(id) else trace[k] == Refused(id)
  {
    WatchPrefix(trace, id, k + 1);
    assert trace[..k + 1][..k] == trace[..k];
    exec, forked := ForkedOnce(trace[..k], id);
  }

  lemma DoneAfterOneFork(trace: seq<Event>, id: Id, k: nat) returns (exec: nat, forked: nat)
    requires Watch(trace, id).Some? && k < |trace| && trace[k] == Done(id)
    ensures exec < forked < k && trace[exec] == GotExec(id) && trace[forked] == Forked(id)
    ensures OnlyForked(trace, id, exec, forked, k)
  {
    exec, forked := AnswerAfterItsFork(trace, id, k);
  }

  lemma {:induction false} WatchPrefix(trace: seq<Event>, id: Id, k: nat)
    requires Watch(trace, id).Some? && k <= |trace|
    ensures Watch(trace[..k], id).Some?
    decreases |trace|
  {
    if k < |trace| {
      var shorter := trace[..|trace| - 1];
      WatchPrefix(shorter, id, k);
      assert shorter[..k] == trace[..k];
    } else {
      assert trace[..k] == trace;
    }
  }
}
