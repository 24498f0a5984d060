/** The Node agent's queue, as what first-in first-out service of a run implies.
 */
module NodeQueue {

  import opened Protocol
  import opened Wrappers

  /** `queue` less the first `id` in it. */
  function Without<T(==)>(queue: seq<T>, id: T): seq<T> {
    if queue == [] then []
    else if queue[0] == id then queue[1..]
    else [queue[0]] + Without(queue[1..], id)
  }

  /** The requests a run has accepted and not yet started, in order of arrival; `None`
      when one was started that was not the oldest of them. */
  function Queue(trace: seq<Event>): Option<seq<Id>> {
    if trace == [] then Some([])
    else
      var before := Queue(trace[..|trace| - 1]);
      if before.None? then None else Queued(before.value, trace[|trace| - 1])
  }

  function Queued(queue: seq<Id>, e: Event): Option<seq<Id>> {
    match e
    case GotExec(id) => if id in queue then None else Some(queue + [id])
    case Forked(id) => if queue != [] && queue[0] == id then Some(queue[1..]) else None
    case Refused(id) => Some(Without(queue, id))
    case _ => Some(queue)
  }

  lemma QueueOneMore(trace: seq<Event>, e: Event)
    ensures Queue(trace + [e]) == if Queue(trace).None? then None else Queued(Queue(trace).value, e)
  {
    assert (trace + [e])[..|trace|] == trace;
  }

  lemma {:induction false} WithoutAbsent<T>(queue: seq<T>, id: T)
    ensures id !in queue ==> Without(queue, id) == queue
    ensures id !in queue ==> Without(queue + [id], id) == queue
  {
    if queue != [] {
      WithoutAbsent(queue[1..], id);
      assert (queue + [id])[1..] == queue[1..] + [id];
      assert queue == [queue[0]] + queue[1..];
    }
  }

  /** `a` stands in the queue before any `b`. */
  ghost predicate Ahead(queue: seq<Id>, a: Id, b: Id) {
    exists p :: 0 <= p < |queue| && queue[p] == a && b !in queue[..p + 1]
  }

  lemma {:induction false} AheadWithout(queue: seq<Id>, id: Id, a: Id, b: Id)
    requires Ahead(queue, a, b) && id != a
    ensures Ahead(Without(queue, id), a, b)
  {
    var p :| 0 <= p < |queue| && queue[p] == a && b !in queue[..p + 1];
    var rest := queue[1..];
    if queue[0] == id {
      assert rest[p - 1] == a && b !in rest[..p - 1 + 1] by { assert forall x | x in rest[..p] :: x in queue[..p + 1]; }
    } else if p > 0 {
      assert rest[p - 1] == a && b !in rest[..p - 1 + 1] by { assert forall x | x in rest[..p] :: x in queue[..p + 1]; }
      AheadWithout(rest, id, a, b);
      var left := Without(rest, id);
      var q :| 0 <= q < |left| && left[q] == a && b !in left[..q + 1];
      var all := [queue[0]] + left;
      assert queue[0] in queue[..p + 1];
      assert all[q + 1] == a && all[..q + 1 + 1] == [queue[0]] + left[..q + 1];
    } else {
      var all := [queue[0]] + Without(rest, id);
      assert all[0] == a && all[..0 + 1] == [a] && queue[..0 + 1] == [a];
    }
  }

  lemma AheadStep(queue: seq<Id>, e: Event, a: Id, b: Id)
    requires Ahead(queue, a, b) && Queued(queue, e).Some?
    requires a != b && e !in {Forked(a), Refused(a), GotExec(b)}
    ensures Ahead(Queued(queue, e).value, a, b)
    ensures e != Forked(b)
  {
    var p :| 0 <= p < |queue| && queue[p] == a && b !in queue[..p + 1];
    match e
    case GotExec(c) =>
      var more := queue + [c];
      assert more[p] == a && more[..p + 1] == queue[..p + 1];
    case Forked(c) =>
      var rest := queue[1..];
      assert queue[0] in queue[..p + 1];
      assert rest[p - 1] == a && b !in rest[..p - 1 + 1] by { assert forall x | x in rest[..p] :: x in queue[..p + 1]; }
    case Refused(c) => AheadWithout(queue, c, a, b);
    case _ =>
  }

  lemma {:induction false} QueuePrefix(trace: seq<Event>, k: nat)
    requires Queue(trace).Some? && k <= |trace|
    ensures Queue(trace[..k]).Some?
    decreases |trace|
  {
    if k < |trace| {
      var shorter := trace[..|trace| - 1];
      QueuePrefix(shorter, k);
      assert shorter[..k] == trace[..k];
    } else {
      assert trace[..k] == trace;
    }
  }

  lemma {:induction false} StaysAhead(trace: seq<Event>, a: Id, b: Id, i: nat, j: nat, n: nat)
    requires Queue(trace).Some? && a != b
    requires i < j < n <= |trace| && trace[i] == GotExec(a) && trace[j] == GotExec(b)
    requires forall m | i < m < n :: trace[m] !in {Forked(a), Refused(a)}
    requires forall m | j < m < n :: trace[m] != GotExec(b)
    ensures Queue(trace[..n]).Some? && Ahead(Queue(trace[..n]).value, a, b)
    decreases n
  {
    QueuePrefix(trace, n);
    QueuePrefix(trace, n - 1);
    assert trace[..n] == trace[..n - 1] + [trace[n - 1]];
    QueueOneMore(trace[..n - 1], trace[n - 1]);
    var queue := Queue(trace[..n - 1]).value;
    if j + 1 < n {
      StaysAhead(trace, a, b, i, j, n - 1);
      AheadStep(queue, trace[n - 1], a, b);
    } else {
      StaysQueued(trace, a, i, n - 1);
      var p :| 0 <= p < |queue| && queue[p] == a;
      var more := queue + [b];
      assert more[p] == a && more[..p + 1] == queue[..p + 1];
      assert forall x | x in queue[..p + 1] :: x in queue;
    }
  }

  lemma {:induction false} StaysQueued(trace: seq<Event>, a: Id, i: nat, n: nat)
    requires Queue(trace).Some? && i < n <= |trace| && trace[i] == GotExec(a)
    requires forall m | i < m < n :: trace[m] !in {Forked(a), Refused(a)}
    ensures Queue(trace[..n]).Some? && a in Queue(trace[..n]).value
    decreases n
  {
    QueuePrefix(trace, n);
    QueuePrefix(trace, n - 1);
    assert trace[..n] == trace[..n - 1] + [trace[n - 1]];
    QueueOneMore(trace[..n - 1], trace[n - 1]);
    if i + 1 < n {
      StaysQueued(trace, a, i, n - 1);
      if trace[n - 1].Refused? { WithoutOther(Queue(trace[..n - 1]).value, trace[n - 1].id, a); }
    }
  }

  lemma {:induction false} WithoutOther<T>(queue: seq<T>, id: T, a: T)
    requires a in queue && id != a
    ensures a in Without(queue, id)
  {
    if queue[0] != a && queue[0] != id { WithoutOther(queue[1..], id, a); }
  }

  /** A run in which `a` is still queued cannot start a `b` that arrived after it. */
  lemma NoOvertaking(trace: seq<Event>, a: Id, b: Id, i: nat, j: nat)
    requires Queue(trace).Some? && a != b
    requires i < j < |trace| && trace[i] == GotExec(a) && trace[j] == GotExec(b)
    requires forall m | i < m < |trace| :: trace[m] !in {Forked(a), Refused(a)}
    requires forall m | j < m < |trace| :: trace[m] != GotExec(b)
    ensures Queue(trace + [Forked(b)]).None?
  {
    StaysAhead(trace, a, b, i, j, |trace|);
    assert trace[..|trace|] == trace;
    QueueOneMore(trace, Forked(b));
    hide Queue;
    var queue := Queue(trace).value;
    var p :| 0 <= p < |queue| && queue[p] == a && b !in queue[..p + 1];
    assert queue[0] in queue[..p + 1];
  }

  /** When a request is started, every request that arrived before it has already been
      started or refused. */
  lemma FirstInFirstOut(trace: seq<Event>, a: Id, b: Id, i: nat, j: nat, k: nat) returns (m: nat)
    requires Queue(trace).Some? && a != b
    requires i < j < k < |trace| && trace[i] == GotExec(a) && trace[j] == GotExec(b) && trace[k] == Forked(b)
    requires forall m | j < m < k :: trace[m] != GotExec(b)
    ensures i < m < k && trace[m] in {Forked(a), Refused(a)}
  {
    var before := trace[..k];
    QueuePrefix(trace, k);
    QueuePrefix(trace, k + 1);
    assert trace[..k + 1] == before + [Forked(b)];
    hide Queue;
    if forall m | i < m < k :: before[m] !in {Forked(a), Refused(a)} {
      NoOvertaking(before, a, b, i, j);
    }
    m :| i < m < k && before[m] in {Forked(a), Refused(a)};
  }

  lemma {:induction false} WithoutKeepsRest<T>(queue: seq<T>, id: T)
    requires Distinct(queue)
    ensures Distinct(Without(queue, id))
    ensures forall x :: x in Without(queue, id) <==> x in queue && x != id
  {
    if queue != [] {
      var first, rest := queue[0], queue[1..];
      assert queue == [first] + rest && first !in rest;
      if first != id {
        WithoutKeepsRest(rest, id);
        var left := Without(rest, id);
        forall x ensures x in [first] + left <==> x in queue && x != id {
          assert x in queue <==> x == first || x in rest;
        }
        hide Without;
        DistinctMore(first, left);
      }
    }
  }

  lemma DistinctMore<T>(first: T, rest: seq<T>)
    requires Distinct(rest) && first !in rest
    ensures Distinct([first] + rest)
  {
  }

  lemma NothingIn<T>(queue: seq<T>, id: T)
    ensures queue == [] ==> Without(queue, id) == []
  {
  }

  lemma {:induction false} BeatsKeepQueue(trace: seq<Event>, round: seq<Id>)
    requires Queue(trace).Some?
    ensures Queue(trace + Beats(round)) == Queue(trace)
  {
    if round == [] {
      assert trace + Beats(round) == trace;
    } else {
      var n := |round| - 1;
      BeatsKeepQueue(trace, round[..n]);
      assert trace + Beats(round) == trace + Beats(round[..n]) + [Beat(round[n])];
      QueueOneMore(trace + Beats(round[..n]), Beat(round[n]));
    }
  }

  function Refusals(ids: seq<Id>): (events: seq<Event>)
    ensures |events| == |ids| && forall i | 0 <= i < |events| :: events[i] == Refused(ids[i])
  {
    seq(|ids|, i requires 0 <= i < |ids| => Refused(ids[i]))
  }

  lemma {:induction false} RefusalsEmptyQueue(trace: seq<Event>, ids: seq<Id>)
    requires Queue(trace) == Some(ids)
    ensures Queue(trace + Refusals(ids)) == Some([])
    decreases ids
  {
    hide Queue;
    if ids == [] {
      assert trace + Refusals(ids) == trace;
    } else {
      QueueOneMore(trace, Refused(ids[0]));
      assert Queue(trace + [Refused(ids[0])]) == Some(ids[1..]);
      RefusalsEmptyQueue(trace + [Refused(ids[0])], ids[1..]);
      assert trace + Refusals(ids) == trace + [Refused(ids[0])] + Refusals(ids[1..]);
    }
  }

  function IndexOf<T(==)>(queue: seq<T>, id: T): (at: nat)
    ensures at <= |queue| && id !in queue[..at] && (at < |queue| ==> queue[at] == id)
  {
    if queue == [] || queue[0] == id then 0
    else
      assert queue == [queue[0]] + queue[1..];
      1 + IndexOf(queue[1..], id)
  }

  lemma {:induction false} WithoutIndex<T>(queue: seq<T>, id: T)
    ensures var at := IndexOf(queue, id);
            Without(queue, id) == if at < |queue| then queue[..at] + queue[at + 1..] else queue
  {
    if queue != [] && queue[0] != id {
      var rest := queue[1..];
      WithoutIndex(rest, id);
      var at := IndexOf(rest, id);
      assert IndexOf(queue, id) == 1 + at && Without(queue, id) == [queue[0]] + Without(rest, id);
      hide IndexOf, Without;
      assert queue == [queue[0]] + rest;
      if at < |rest| { assert queue[..at + 1] == [queue[0]] + rest[..at] && queue[at + 2..] == rest[at + 1..]; }
    }
  }
}
