/** Length-prefixed framing, as both agents speak it: what comes out does not
    depend on how the bytes were cut on the way in.
 */
module Framing {
  import opened Wrappers

  /** What a JSON reader makes of a frame's body. `TooDeep` is a value nested deeper than
      the Python interpreter can follow; Node's reader has no such limit, or reports it as
      a body it cannot parse. */
  datatype Parsed<M> =
    | Object(kind: string, message: M)
    | OtherValue
    | NotJson
    | NotText
    | TooDeep

  type Reader<!M> = seq<int> -> Parsed<M>

  const MAX_FRAME_BYTES := 32 * 1024 * 1024

  const HEADER := 4

  predicate Bytes(b: seq<int>) { forall i | 0 <= i < |b| :: 0 <= b[i] < 256 }

  /** The big-endian length at the front of `b`. */
  function Size(b: seq<int>): int
    requires |b| >= HEADER
  {
    0x100_0000 * b[0] + 0x1_0000 * b[1] + 0x100 * b[2] + b[3]
  }

  function Header(size: nat): seq<int> {
    [size / 0x100_0000 % 256, size / 0x1_0000 % 256, size / 0x100 % 256, size % 256]
  }

  function Frame(body: seq<int>): seq<int> { Header(|body|) + body }

  /** Four bytes, the most significant first, that give the length back. */
  lemma SizeOfHeader(size: nat, rest: seq<int>)
    requires size < 0x1_0000_0000
    ensures Bytes(Header(size)) && Size(Header(size) + rest) == size
    ensures var h := Header(size); |h| == 4 && size == ((h[0] * 256 + h[1]) * 256 + h[2]) * 256 + h[3]
  {
    var a, b, c := size / 0x100, size / 0x1_0000, size / 0x100_0000;
    assert a / 0x100 == b && b / 0x100 == c && c < 256;
    assert size == 0x100 * a + size % 0x100 && a == 0x100 * b + a % 0x100 && b == 0x100 * c + b % 0x100;
  }

  /** The whole first frame of `b`, if it is there and within the limit. */
  predicate HasFrame(b: seq<int>) {
    |b| >= HEADER && 0 <= Size(b) <= MAX_FRAME_BYTES && |b| >= HEADER + Size(b)
  }

  predicate OverLimit(b: seq<int>) { |b| >= HEADER && Size(b) > MAX_FRAME_BYTES }

  function Body(b: seq<int>): seq<int>
    requires HasFrame(b)
  {
    b[HEADER..HEADER + Size(b)]
  }

  function AfterFrame(b: seq<int>): seq<int>
    requires HasFrame(b)
  {
    b[HEADER + Size(b)..]
  }

  lemma FrameOfMore(a: seq<int>, b: seq<int>)
    ensures HasFrame(a) ==> HasFrame(a + b) && Body(a + b) == Body(a) && AfterFrame(a + b) == AfterFrame(a) + b
    ensures OverLimit(a) ==> OverLimit(a + b)
  {
    if |a| >= HEADER { assert Size(a + b) == Size(a); }
  }

  lemma FirstOfFrames(body: seq<int>, rest: seq<int>)
    requires |body| <= MAX_FRAME_BYTES
    ensures var b := Frame(body) + rest; HasFrame(b) && Body(b) == body && AfterFrame(b) == rest
  {
    assert Frame(body) + rest == Header(|body|) + (body + rest);
    SizeOfHeader(|body|, body + rest);
    hide Size;
  }

  // --- The control connection -------------------------------------------------

  datatype Event<M> = Received(message: M) | BadBody

  function EventOf<M>(p: Parsed<M>): Event<M> { if p.Object? then Received(p.message) else BadBody }

  /** The reference: every whole frame of a stream, in one pass. */
  function Events<M>(b: seq<int>, read: Reader<M>): seq<Event<M>>
    decreases |b|
  {
    if HasFrame(b) then [EventOf(read(Body(b)))] + Events(AfterFrame(b), read) else []
  }

  /** What one pass leaves: an incomplete frame, or one that is over the limit. */
  function Remainder(b: seq<int>): seq<int>
    decreases |b|
  {
    if HasFrame(b) then Remainder(AfterFrame(b)) else b
  }

  lemma {:induction false} EventsOfMore<M>(a: seq<int>, b: seq<int>, read: Reader<M>)
    ensures Events(a + b, read) == Events(a, read) + Events(Remainder(a) + b, read)
    ensures Remainder(a + b) == Remainder(Remainder(a) + b)
    decreases |a|
  {
    hide HasFrame, Body;
    if HasFrame(a) {
      FrameOfMore(a, b);
      var e, more := EventOf(read(Body(a))), AfterFrame(a);
      EventsOfMore(more, b, read);
      assert [e] + (Events(more, read) + Events(Remainder(more) + b, read)) ==
             [e] + Events(more, read) + Events(Remainder(more) + b, read);
    } else {
      assert Events(a, read) == [] && Remainder(a) == a;
    }
  }

  /** `Framing` of the Node agent: bytes not yet parsed, messages handed on, and
      the lengths that made it close the connection. */
  class NodeFraming<!M> {
    var pending: seq<int>
    var delivered: seq<Event<M>>
    var closed: seq<int>

    constructor ()
      ensures pending == [] && delivered == [] && closed == []
    {
      pending, delivered, closed := [], [], [];
    }

    method OnData(chunk: seq<int>, read: Reader<M>)
      requires Bytes(pending) && Bytes(chunk)
      modifies this
      ensures Bytes(pending) && pending == Remainder(old(pending) + chunk)
      ensures delivered == old(delivered) + Events(old(pending) + chunk, read)
      ensures closed == old(closed) + if OverLimit(pending) then [Size(pending)] else []
    {
      hide Events, Remainder, Bytes;
      BytesOfMore(pending, chunk);
      pending := pending + chunk;
      ghost var all := pending;
      while true
        invariant Bytes(pending) && closed == old(closed)
        invariant Remainder(pending) == Remainder(all)
        invariant delivered + Events(pending, read) == old(delivered) + Events(all, read)
        decreases |pending|
      {
        Unfold(pending, read);
        if |pending| < HEADER {
          return;
        }
        var size := Size(pending);
        if size > MAX_FRAME_BYTES {
          closed := closed + [size];
          return;
        }
        if |pending| < HEADER + size {
          return;
        }
        var body := pending[HEADER..HEADER + size];
        pending := pending[HEADER + size..];
        assert delivered + [EventOf(read(body))] + Events(pending, read) ==
               delivered + ([EventOf(read(body))] + Events(pending, read));
        var parsed := read(body);
        if parsed.Object? {
          delivered := delivered + [Received(parsed.message)];
        } else {
          delivered := delivered + [BadBody];
        }
      }
    }
  }

  lemma BytesOfMore(a: seq<int>, b: seq<int>)
    requires Bytes(a) && Bytes(b)
    ensures Bytes(a + b)
  {
  }

  lemma Unfold<M>(b: seq<int>, read: Reader<M>)
    requires Bytes(b)
    ensures |b| >= HEADER ==> Size(b) >= 0
    ensures HasFrame(b) ==> Events(b, read) == [EventOf(read(Body(b)))] + Events(AfterFrame(b), read)
    ensures HasFrame(b) ==> Remainder(b) == Remainder(AfterFrame(b)) && Bytes(AfterFrame(b))
    ensures !HasFrame(b) ==> Events(b, read) == [] && Remainder(b) == b
  {
  }

  function Concat(chunks: seq<seq<int>>): seq<int> {
    if chunks == [] then [] else Concat(chunks[..|chunks| - 1]) + chunks[|chunks| - 1]
  }

  /** However a stream is cut, the Node agent hands on the same messages and
      bad-body reports, keeps the same bytes, and closes only at a length over the
      limit, behind which it delivers nothing. */
  method FeedAll<M>(framing: NodeFraming<M>, chunks: seq<seq<int>>, read: Reader<M>)
    requires framing.pending == [] && framing.delivered == [] && framing.closed == []
    requires forall i | 0 <= i < |chunks| :: Bytes(chunks[i])
    modifies framing
    ensures framing.delivered == Events(Concat(chunks), read)
    ensures framing.pending == Remainder(Concat(chunks))
    ensures framing.closed != [] <==> OverLimit(Remainder(Concat(chunks)))
  {
    assert framing.delivered == Events([], read);
    for i := 0 to |chunks|
      invariant Bytes(framing.pending)
      invariant framing.delivered == Events(Concat(chunks[..i]), read)
      invariant framing.pending == Remainder(Concat(chunks[..i]))
      invariant framing.closed != [] <==> OverLimit(framing.pending)
    {
      ghost var before, kept := Concat(chunks[..i]), framing.pending;
      assert chunks[..i + 1][..i] == chunks[..i];
      EventsOfMore(before, chunks[i], read);
      RemainderIsStuck(before, chunks[i]);
      framing.OnData(chunks[i], read);
    }
    assert chunks[..|chunks|] == chunks;
  }

  lemma {:induction false} RemainderIsStuck(a: seq<int>, b: seq<int>)
    ensures OverLimit(Remainder(a)) ==> Remainder(Remainder(a) + b) == Remainder(a) + b && OverLimit(Remainder(a) + b)
  {
    FrameOfMore(Remainder(a), b);
  }

  function Frames(bodies: seq<seq<int>>): seq<int> {
    if bodies == [] then [] else Frame(bodies[0]) + Frames(bodies[1..])
  }

  /** A frame whose body is an object is its message, and any other a bad body. */
  ghost predicate Tells<M>(e: Event<M>, p: Parsed<M>) {
    match p
    case Object(_, m) => e == Received(m)
    case _ => e == BadBody
  }

  /** What was sent is what is received: frame by frame, a message exactly for an object. */
  lemma SentIsTold<M>(bodies: seq<seq<int>>, tail: seq<int>, read: Reader<M>)
    requires forall i | 0 <= i < |bodies| :: |bodies[i]| <= MAX_FRAME_BYTES
    ensures var events := Events(Frames(bodies) + tail, read);
            && |events| >= |bodies| && events[|bodies|..] == Events(tail, read)
            && forall i | 0 <= i < |bodies| :: Tells(events[i], read(bodies[i]))
  {
    SentIsReceived(bodies, tail, read);
    hide Events, Frames;
  }

  /** So when every body is an object, the messages, in order and nothing else. */
  lemma MessagesAreReceived<M>(bodies: seq<seq<int>>, chunks: seq<seq<int>>, read: Reader<M>)
    requires forall i | 0 <= i < |bodies| :: |bodies[i]| <= MAX_FRAME_BYTES && read(bodies[i]).Object?
    requires Concat(chunks) == Frames(bodies)
    ensures Events(Concat(chunks), read) ==
            seq(|bodies|, i requires 0 <= i < |bodies| => Received(read(bodies[i]).message))
  {
    SentIsTold(bodies, [], read);
    assert Frames(bodies) + [] == Frames(bodies);
    assert Events([], read) == [];
    hide Events, Frames, Concat;
    var events := Events(Concat(chunks), read);
    assert |events[|bodies|..]| == 0;
    forall i | 0 <= i < |bodies| ensures events[i] == Received(read(bodies[i]).message) { assert Tells(events[i], read(bodies[i])); }
  }

  lemma {:induction false} SentIsReceived<M>(bodies: seq<seq<int>>, tail: seq<int>, read: Reader<M>)
    requires forall i | 0 <= i < |bodies| :: |bodies[i]| <= MAX_FRAME_BYTES
    ensures Events(Frames(bodies) + tail, read) ==
            seq(|bodies|, i requires 0 <= i < |bodies| => EventOf(read(bodies[i]))) + Events(tail, read)
    ensures Remainder(Frames(bodies) + tail) == Remainder(tail)
    decreases |bodies|
  {
    hide HasFrame, Body, AfterFrame, Frame;
    if bodies == [] {
      assert Frames(bodies) + tail == tail;
    } else {
      var rest := Frames(bodies[1..]) + tail;
      assert Frames(bodies) + tail == Frame(bodies[0]) + rest;
      FirstOfFrames(bodies[0], rest);
      SentIsReceived(bodies[1..], tail, read);
    }
  }

  /** `send`: a body over the limit is refused before anything is written. */
  method Send<M>(wire: seq<int>, body: seq<int>, ghost read: Reader<M>) returns (out: Option<seq<int>>)
    requires Remainder(wire) == []
    ensures out.Some? <==> |body| <= 32 * 1024 * 1024
    ensures out.Some? ==> Remainder(out.value) == [] && |Events(out.value, read)| == |Events(wire, read)| + 1
    ensures out.Some? ==> Events(out.value, read)[..|Events(wire, read)|] == Events(wire, read)
    ensures out.Some? ==> Tells(Events(out.value, read)[|Events(wire, read)|], read(body))
  {
    if |body| > MAX_FRAME_BYTES {
      return None;
    }
    out := Some(wire + (Header(|body|) + body));
    EventsOfMore(wire, Frame(body), read);
    FirstOfFrames(body, []);
    assert Frame(body) + [] == Frame(body) && [] + Frame(body) == Frame(body);
  }

  // --- The Python agent's control connection ----------------------------------

  datatype Recv<M> =
    | GotFrame(event: Event<M>, rest: seq<int>)
    | EndOfStream
    | ConnectionLost
    | TooLong
    | CutHeader
    | Unfollowed

  /** A body nested too deeply raises what `recv` does not catch. */
  function Told<M>(p: Parsed<M>, rest: seq<int>): Recv<M> { if p.TooDeep? then Unfollowed else GotFrame(EventOf(p), rest) }

  /** `recv` on what is left of a stream that then ends. `_read_exactly` gives no
      bytes at all, rather than `None`, for a read cut short: a cut header cannot
      be unpacked, and a cut body is read as if it were empty. */
  function PythonRecv<M>(b: seq<int>, read: Reader<M>): Recv<M> {
    if b == [] then EndOfStream
    else if |b| < HEADER then CutHeader
    else if Size(b) > MAX_FRAME_BYTES then TooLong
    else if HasFrame(b) then Told(read(Body(b)), AfterFrame(b))
    else if |b| == HEADER then ConnectionLost
    else Told(read([]), [])
  }

  /** All the events `recv` gives until it stops. */
  function PythonEvents<M>(b: seq<int>, read: Reader<M>): seq<Event<M>>
    decreases |b|
  {
    var r := PythonRecv(b, read);
    if r.GotFrame? && |r.rest| < |b| then [r.event] + PythonEvents(r.rest, read) else []
  }

  /** What `recv` gives in the end. */
  function PythonEnd<M>(b: seq<int>, read: Reader<M>): Recv<M>
    decreases |b|
  {
    var r := PythonRecv(b, read);
    if r.GotFrame? && |r.rest| < |b| then PythonEnd(r.rest, read) else r
  }

  /** The Python agent receives what was sent, frame by frame, while nothing is nested too
      deeply for it; at the first such frame it stops. */
  lemma {:induction false} PythonIsTold<M>(bodies: seq<seq<int>>, tail: seq<int>, read: Reader<M>)
    requires forall i | 0 <= i < |bodies| :: |bodies[i]| <= MAX_FRAME_BYTES && !read(bodies[i]).TooDeep?
    ensures var events := PythonEvents(Frames(bodies) + tail, read);
            && |events| >= |bodies| && events[|bodies|..] == PythonEvents(tail, read)
            && forall i | 0 <= i < |bodies| :: Tells(events[i], read(bodies[i]))
    ensures PythonEnd(Frames(bodies) + tail, read) == PythonEnd(tail, read)
    decreases |bodies|
  {
    if bodies == [] {
      assert Frames(bodies) + tail == tail;
    } else {
      var rest := Frames(bodies[1..]) + tail;
      var b := Frames(bodies) + tail;
      assert b == Frame(bodies[0]) + rest;
      FirstOfFrames(bodies[0], rest);
      OneFrame(b, read);
      PythonIsTold(bodies[1..], tail, read);
      hide HasFrame, Body, AfterFrame, Frame, Frames, PythonRecv, PythonEvents, PythonEnd, EventOf, Tells;
      OneMoreTold(bodies, PythonEvents(rest, read), PythonEvents(tail, read), read);
    }
  }

  lemma OneMoreTold<M>(bodies: seq<seq<int>>, later: seq<Event<M>>, end: seq<Event<M>>, read: Reader<M>)
    requires bodies != [] && |later| >= |bodies| - 1 && later[|bodies| - 1..] == end
    requires forall i | 0 <= i < |bodies| - 1 :: Tells(later[i], read(bodies[1..][i]))
    ensures var events := [EventOf(read(bodies[0]))] + later;
            events[|bodies|..] == end && forall i | 0 <= i < |bodies| :: Tells(events[i], read(bodies[i]))
  {
    var events := [EventOf(read(bodies[0]))] + later;
    assert Tells(events[0], read(bodies[0]));
    forall i | 0 < i < |bodies| ensures Tells(events[i], read(bodies[i])) { assert Tells(later[i - 1], read(bodies[1..][i - 1])); }
  }

  lemma OneFrame<M>(b: seq<int>, read: Reader<M>)
    requires HasFrame(b) && !read(Body(b)).TooDeep?
    ensures PythonEvents(b, read) == [EventOf(read(Body(b)))] + PythonEvents(AfterFrame(b), read)
    ensures PythonEnd(b, read) == PythonEnd(AfterFrame(b), read)
  {
  }

  /** How it stops at what is left when all whole frames are read: at the end of the stream;
      with an exception for a header cut short or a length over the limit; as a lost
      connection for a header with nothing after it; and a body cut short counts as read. */
  lemma PythonStops<M>(tail: seq<int>, read: Reader<M>)
    requires Bytes(tail) && !read([]).TooDeep?
    requires |tail| >= 4 ==>
             var size := ((tail[0] * 256 + tail[1]) * 256 + tail[2]) * 256 + tail[3]; size > 33_554_432 || |tail| < 4 + size
    ensures PythonEnd(tail, read) ==
            if |tail| == 0 then EndOfStream
            else if |tail| < 4 then CutHeader
            else if ((tail[0] * 256 + tail[1]) * 256 + tail[2]) * 256 + tail[3] > 33_554_432 then TooLong
            else if |tail| == 4 then ConnectionLost
            else EndOfStream
  {
    assert PythonEnd([], read) == EndOfStream;
  }

  /** How many frames come before the first that is nested too deeply. */
  function Followed<M>(b: seq<int>, read: Reader<M>): (n: nat)
    ensures n <= |Events(b, read)|
    decreases |b|
  {
    if HasFrame(b) && !read(Body(b)).TooDeep? then 1 + Followed(AfterFrame(b), read) else 0
  }

  /** The two agents read one stream alike up to the first body that is nested too deeply,
      but for a body that the end of the stream cut short: Python reports it as a message
      it cannot read. */
  lemma {:induction false} AgentsAgree<M>(b: seq<int>, read: Reader<M>)
    requires Bytes(b)
    ensures var r, n := Remainder(b), Followed(b, read);
            PythonEvents(b, read) == Events(b, read)[..n] +
            if n == |Events(b, read)| && |r| > HEADER && !OverLimit(r) && !read([]).TooDeep? then [EventOf(read([]))] else []
    decreases |b|
  {
    Unfold(b, read);
    if HasFrame(b) {
      AgentsAgree(AfterFrame(b), read);
    } else if |b| > HEADER && !OverLimit(b) {
      assert PythonEvents([], read) == [];
    }
  }

  // --- A child's result pipe --------------------------------------------------

  /** What the bytes left at end of file are: nothing, the child's answer, or a
      value that `_decode_result_frame` raises on. */
  datatype Outcome<M> = Nothing | Answer(kind: string, message: M) | Raises

  function Decode<M>(raw: seq<int>, read: Reader<M>): Outcome<M> {
    if |raw| < HEADER then Nothing
    else if |raw| < HEADER + Size(raw) || Size(raw) < 0 then Nothing
    else
      match read(raw[HEADER..HEADER + Size(raw)])
      case Object(kind, m) => Answer(kind, m)
      case NotJson => Nothing
      case OtherValue => Raises
      case NotText => Raises
      case TooDeep => Raises
  }

  predicate IsChunk<M>(p: Parsed<M>) { p.Object? && p.kind == "CHUNK" }

  /** The reference: the leading CHUNK frames of a byte string. */
  function Chunks<M>(b: seq<int>, read: Reader<M>): seq<M>
    decreases |b|
  {
    if HasFrame(b) && IsChunk(read(Body(b))) then [read(Body(b)).message] + Chunks(AfterFrame(b), read) else []
  }

  /** What comes after them. */
  function Ending<M>(b: seq<int>, read: Reader<M>): seq<int>
    decreases |b|
  {
    if HasFrame(b) && IsChunk(read(Body(b))) then Ending(AfterFrame(b), read) else b
  }

  /** A whole frame, first in `b`, that is nested too deeply: `_forward_chunks` raises on it. */
  predicate Deep<M>(b: seq<int>, read: Reader<M>) { HasFrame(b) && read(Body(b)).TooDeep? }

  /** Reading on does not get past such a frame. */
  lemma DeepStays<M>(a: seq<int>, b: seq<int>, read: Reader<M>)
    requires Deep(Ending(a, read), read)
    ensures Chunks(a + b, read) == Chunks(a, read) && Deep(Ending(a + b, read), read)
  {
    var left := Ending(a, read);
    ChunksOfMore(a, b, read);
    FrameOfMore(left, b);
    hide HasFrame, Body;
    assert Chunks(left + b, read) == [] && Ending(left + b, read) == left + b;
  }

  lemma {:induction false} ChunksOfMore<M>(a: seq<int>, b: seq<int>, read: Reader<M>)
    ensures Chunks(a + b, read) == Chunks(a, read) + Chunks(Ending(a, read) + b, read)
    ensures Ending(a + b, read) == Ending(Ending(a, read) + b, read)
    decreases |a|
  {
    hide HasFrame, Body;
    if HasFrame(a) && IsChunk(read(Body(a))) {
      FrameOfMore(a, b);
      var m, more := read(Body(a)).message, AfterFrame(a);
      ChunksOfMore(more, b, read);
      assert [m] + (Chunks(more, read) + Chunks(Ending(more, read) + b, read)) ==
             [m] + Chunks(more, read) + Chunks(Ending(more, read) + b, read);
    } else {
      assert Chunks(a, read) == [] && Ending(a, read) == a;
    }
  }

  /** The messages that go out when each has to fit in a frame again and the first that
      does not raises. */
  function Fitting<M>(messages: seq<M>, fits: M -> bool): seq<M> {
    if messages == [] || !fits(messages[0]) then [] else [messages[0]] + Fitting(messages[1..], fits)
  }

  predicate AllFit<M>(messages: seq<M>, fits: M -> bool) { forall i | 0 <= i < |messages| :: fits(messages[i]) }

  lemma AllFitOfMore<M>(a: seq<M>, b: seq<M>, fits: M -> bool)
    ensures AllFit(a + b, fits) <==> AllFit(a, fits) && AllFit(b, fits)
  {
    assert forall i | 0 <= i < |b| :: (a + b)[|a| + i] == b[i];
    assert forall i | 0 <= i < |a| :: (a + b)[i] == a[i];
  }

  lemma {:induction false} FittingOfMore<M>(a: seq<M>, b: seq<M>, fits: M -> bool)
    ensures Fitting(a + b, fits) == if AllFit(a, fits) then a + Fitting(b, fits) else Fitting(a, fits)
    ensures AllFit(a + b, fits) <==> AllFit(a, fits) && AllFit(b, fits)
  {
    AllFitOfMore(a, b, fits);
    if a == [] {
      assert a + b == b;
    } else {
      var first, rest := a[0], a[1..];
      FittingOfMore(rest, b, fits);
      assert a == [first] + rest && a + b == [first] + (rest + b);
      AllFitOfMore([first], rest, fits);
      assert AllFit([first], fits) <==> fits(first);
      hide AllFit;
    }
  }

  /** One request's result pipe in the Python agent. */
  class ResultPipe<!M> {
    var chunks: seq<seq<int>>
    var sent: seq<M>

    constructor ()
      ensures chunks == [] && sent == []
    {
      chunks, sent := [], [];
    }

    /** A read that returned bytes: `_collect` up to and with `_forward_chunks`. A CHUNK
        that can no longer be sent raises, after those before it have gone out, and so does
        a frame nested too deeply to be read. */
    method Collect(chunk: seq<int>, read: Reader<M>, fits: M -> bool) returns (raised: bool)
      requires Bytes(Concat(chunks)) && Bytes(chunk)
      modifies this
      ensures var all := old(Concat(chunks)) + chunk; raised <==> !AllFit(Chunks(all, read), fits) || Deep(Ending(all, read), read)
      ensures sent == old(sent) + Fitting(Chunks(old(Concat(chunks)) + chunk, read), fits)
      ensures !raised ==> Bytes(Concat(chunks)) && Concat(chunks) == Ending(old(Concat(chunks)) + chunk, read)
    {
      hide Chunks, Ending, Bytes, Fitting, AllFit, Size, Body, AfterFrame;
      BytesOfMore(Concat(chunks), chunk);
      ghost var before := Concat(chunks);
      chunks := chunks + [chunk];
      assert chunks[..|chunks| - 1] == old(chunks);
      var buffer := Concat(chunks);
      var at := 0;
      raised := false;
      ghost var done: seq<M> := [];
      FittingNone(done, fits);
      while true
        invariant 0 <= at <= |buffer| && Bytes(buffer[at..])
        invariant Ending(buffer[at..], read) == Ending(buffer, read)
        invariant done + Chunks(buffer[at..], read) == Chunks(buffer, read)
        invariant sent == old(sent) + done && AllFit(done, fits)
        decreases |buffer| - at
      {
        var left := buffer[at..];
        UnfoldChunks(left, read);
        if |buffer| - at < HEADER {
          break;
        }
        var size := Size(left);
        var end := at + HEADER + size;
        if |buffer| < end || size > MAX_FRAME_BYTES {
          break;
        }
        var message := read(buffer[at + HEADER..end]);
        FrameAt(buffer, at);
        if message.TooDeep? {
          assert Ending(left, read) == left && Chunks(left, read) == [];
          assert done + [] == done;
          FittingNone(done, fits);
          FittingOfMore(done, [], fits);
          raised := true;
          return;
        }
        if !message.Object? || message.kind != "CHUNK" {
          break;
        }
        FittingOne(message.message, Chunks(buffer[end..], read), fits);
        if !fits(message.message) {
          FittingOfMore(done, Chunks(left, read), fits);
          assert done + [] == done;
          raised := true;
          return;
        }
        FittingOfMore(done, [message.message], fits);
        assert done + [message.message] + Chunks(buffer[end..], read) == done + ([message.message] + Chunks(buffer[end..], read));
        sent := sent + [message.message];
        done := done + [message.message];
        at := end;
      }
      FittingNone(done, fits);
      assert Chunks(buffer[at..], read) == [] && !Deep(buffer[at..], read);
      assert done + [] == done;
      FittingOfMore(done, [], fits);
      chunks := [buffer[at..]];
      assert chunks[..0] == [] && Concat(chunks) == [] + buffer[at..] == buffer[at..];
    }
  }

  lemma FittingNone<M>(none: seq<M>, fits: M -> bool)
    ensures Fitting<M>([], fits) == [] && AllFit<M>([], fits)
  {
  }

  lemma FittingOne<M>(first: M, rest: seq<M>, fits: M -> bool)
    ensures !fits(first) ==> Fitting([first] + rest, fits) == [] && !AllFit([first] + rest, fits)
    ensures fits(first) ==> AllFit([first], fits)
  {
    assert ([first] + rest)[0] == first;
  }

  lemma FrameAt(buffer: seq<int>, at: nat)
    requires at <= |buffer| && HasFrame(buffer[at..])
    ensures var end := at + HEADER + Size(buffer[at..]);
            && end <= |buffer| && Body(buffer[at..]) == buffer[at + HEADER..end] && AfterFrame(buffer[at..]) == buffer[end..]
  {
  }

  lemma UnfoldChunks<M>(b: seq<int>, read: Reader<M>)
    requires Bytes(b)
    ensures |b| >= HEADER ==> Size(b) >= 0
    ensures if HasFrame(b) && IsChunk(read(Body(b)))
            then Chunks(b, read) == [read(Body(b)).message] + Chunks(AfterFrame(b), read) &&
                 Ending(b, read) == Ending(AfterFrame(b), read) && Bytes(AfterFrame(b))
            else Chunks(b, read) == [] && Ending(b, read) == b
  {
  }

  /** A request's pipe from first read to end of file. However the bytes are split,
      the CHUNKs sent on and the answer decoded are those of one pass over the
      whole byte string; it is `cut` exactly when one of them does not fit, or what comes
      after them is nested too deeply. */
  method ReadToEnd<M>(pipe: ResultPipe<M>, pieces: seq<seq<int>>, read: Reader<M>, fits: M -> bool)
    returns (cut: bool, outcome: Outcome<M>)
    requires pipe.chunks == [] && pipe.sent == []
    requires forall i | 0 <= i < |pieces| :: Bytes(pieces[i])
    modifies pipe
    ensures cut <==> !AllFit(Chunks(Concat(pieces), read), fits) || Deep(Ending(Concat(pieces), read), read)
    ensures pipe.sent == Fitting(Chunks(Concat(pieces), read), fits)
    ensures !cut ==> pipe.sent == Chunks(Concat(pieces), read) && outcome == Decode(Ending(Concat(pieces), read), read)
  {
    hide Chunks, Ending, Fitting, AllFit, Bytes, Decode;
    cut, outcome := false, Nothing;
    NothingRead(read, fits);
    for i := 0 to |pieces|
      invariant Bytes(Concat(pipe.chunks))
      invariant AllFit(Chunks(Concat(pieces[..i]), read), fits) && !Deep(Ending(Concat(pieces[..i]), read), read)
      invariant pipe.sent == Chunks(Concat(pieces[..i]), read)
      invariant Concat(pipe.chunks) == Ending(Concat(pieces[..i]), read)
    {
      assert pieces[..i + 1][..i] == pieces[..i];
      ghost var so := Chunks(Concat(pieces[..i]), read);
      ghost var now := Chunks(Ending(Concat(pieces[..i]), read) + pieces[i], read);
      ChunksOfMore(Concat(pieces[..i]), pieces[i], read);
      FittingOfMore(so, now, fits);
      cut := pipe.Collect(pieces[i], read, fits);
      if cut {
        ConcatSplit(pieces, i + 1);
        ChunksOfMore(Concat(pieces[..i + 1]), Concat(pieces[i + 1..]), read);
        FittingOfMore(so + now, Chunks(Ending(Concat(pieces[..i + 1]), read) + Concat(pieces[i + 1..]), read), fits);
        if Deep(Ending(Concat(pieces[..i + 1]), read), read) {
          DeepStays(Concat(pieces[..i + 1]), Concat(pieces[i + 1..]), read);
          FittingOfMore(so + now, [], fits);
        }
        return;
      }
      AllFitting(now, fits);
    }
    assert pieces[..|pieces|] == pieces;
    outcome := Decode(Concat(pipe.chunks), read);
    AllFitting(pipe.sent, fits);
  }

  lemma {:induction false} AllFitting<M>(messages: seq<M>, fits: M -> bool)
    ensures AllFit(messages, fits) <==> Fitting(messages, fits) == messages
  {
    if messages != [] {
      AllFitting(messages[1..], fits);
      assert messages == [messages[0]] + messages[1..];
    }
  }

  lemma NothingRead<M>(read: Reader<M>, fits: M -> bool)
    ensures Chunks([], read) == [] && Ending([], read) == [] && AllFit(Chunks([], read), fits) && !Deep([], read)
    ensures Bytes([])
  {
  }

  lemma {:induction false} ConcatSplit(pieces: seq<seq<int>>, n: nat)
    requires n <= |pieces|
    ensures Concat(pieces) == Concat(pieces[..n]) + Concat(pieces[n..])
    decreases |pieces|
  {
    if n == |pieces| {
      assert pieces[..n] == pieces && pieces[n..] == [];
    } else {
      var last := |pieces| - 1;
      ConcatSplit(pieces[..last], n);
      assert pieces[..last][..n] == pieces[..n] && pieces[..last][n..] == pieces[n..][..last - n];
    }
  }

  function Messages<M>(bodies: seq<seq<int>>, read: Reader<M>): seq<M>
    requires forall i | 0 <= i < |bodies| :: read(bodies[i]).Object?
  {
    if bodies == [] then [] else [read(bodies[0]).message] + Messages(bodies[1..], read)
  }

  /** A child that writes CHUNKs and then one other frame: every CHUNK goes up,
      once and in order, and the other frame is the answer, never sent early. */
  lemma {:induction false} WellBehavedChild<M>(chunks: seq<seq<int>>, last: seq<int>, read: Reader<M>)
    requires forall i | 0 <= i < |chunks| :: |chunks[i]| <= MAX_FRAME_BYTES && read(chunks[i]).Object? && read(chunks[i]).kind == "CHUNK"
    requires |last| <= MAX_FRAME_BYTES && read(last).Object? && read(last).kind != "CHUNK"
    ensures Chunks(Frames(chunks) + Frame(last), read) ==
            Messages(chunks, read)
    ensures Decode(Ending(Frames(chunks) + Frame(last), read), read) == Answer(read(last).kind, read(last).message)
    decreases |chunks|
  {
    if chunks == [] {
      assert Frames(chunks) + Frame(last) == Frame(last) + [] == Frame(last);
      FirstOfFrames(last, []);
    } else {
      var rest := Frames(chunks[1..]) + Frame(last);
      assert Frames(chunks) + Frame(last) == Frame(chunks[0]) + rest;
      FirstOfFrames(chunks[0], rest);
      WellBehavedChild(chunks[1..], last, read);
      hide HasFrame, Body, AfterFrame, Frame;
    }
  }
}
