/** Both ends of a protocol negotiation, each a multistream layer with its size limit, over a byte stream that is
    chunked in any way (`src/layers/yamux_multistream.rs`). */
module Negotiation {
  import opened Bytes
  import opened FrameBuffer
  import opened MultistreamView
  import opened MultistreamChunks

  // ---------------------------------------------------------------------------
  // One end, given bytes
  // ---------------------------------------------------------------------------

  /** What one end makes of what it is given: its layer, the bytes it says back on the stream, its outputs. */
  datatype Talk = Talk(layer: Layer, said: seq<Byte>, outputs: seq<OutputState>)

  function SaidOn(commands: seq<Command>, id: StreamId): seq<Byte>
  {
    if commands == [] then []
    else (if commands[0].SendBytes? && commands[0].id == id then commands[0].bytes else []) + SaidOn(commands[1..], id)
  }

  function OutputsOn(t: Turn, id: StreamId): seq<OutputState>
  {
    if t.Emit? && t.output.streamId == id then [t.output.state] else []
  }

  function Then(o: Outcome, id: StreamId, t: Talk): Talk
  {
    Talk(t.layer, SaidOn(o.commands, id) + t.said, OutputsOn(o.turn, id) + t.outputs)
  }

  function ToRead(l: Layer, id: StreamId): nat
  {
    if l.readFrom != Some(id) then 0 else if id !in l.slots then 1 else 2 + |l.slots[id].pending|
  }

  lemma {:induction false} RoundReads(l: Layer, id: StreamId, isUtf8: Name -> bool)
    requires l.readFrom == Some(id)
    ensures ToRead(Round(l, RemoteClosed(id), true, isUtf8).layer, id) < ToRead(l, id)
  {
    if id in l.slots { ParseShrinks(l.slots[id].pending); }
  }

  /** Rounds for as long as the layer reads from the stream; they take no report. */
  function ReadOut(l: Layer, id: StreamId, isUtf8: Name -> bool): Talk
    decreases ToRead(l, id)
  {
    if l.readFrom != Some(id) then Talk(l, [], [])
    else
      RoundReads(l, id, isUtf8);
      var o := Round(l, RemoteClosed(id), true, isUtf8);
      Then(o, id, ReadOut(o.layer, id, isUtf8))
  }

  /** Reports of the chunks in turn, each read out before the next. */
  function Receive(l: Layer, id: StreamId, chunks: seq<seq<Byte>>, isUtf8: Name -> bool): Talk
    decreases |chunks|
  {
    if chunks == [] then Talk(l, [], [])
    else
      var o := Round(l, RemoteData(id, chunks[0]), true, isUtf8);
      var t := ReadOut(o.layer, id, isUtf8);
      var u := Receive(t.layer, id, chunks[1..], isUtf8);
      Then(o, id, Talk(u.layer, t.said + u.said, t.outputs + u.outputs))
  }

  // ---------------------------------------------------------------------------
  // What it makes of whole messages
  // ---------------------------------------------------------------------------

  /** Where messages lead: the state (None: the stream is given up), what is said back, and the outputs. */
  datatype Course = Course(next: Option<State>, said: seq<Byte>, outputs: seq<OutputState>)

  function SaidBy(r: Reaction): seq<Byte> { if r.next.Some? && r.send.Some? then Framed(r.send.value) else [] }

  function OutputBy(r: Reaction): seq<OutputState> { if r.output.Some? then [r.output.value] else [] }

  function Join(said: seq<Byte>, outputs: seq<OutputState>, c: Course): Course
  {
    Course(c.next, said + c.said, outputs + c.outputs)
  }

  /** The reactions to messages in turn, until the stream is given up. */
  function ReactAll(s: State, messages: seq<seq<Byte>>, isUtf8: Name -> bool): Course
    decreases |messages|
  {
    if messages == [] then Course(Some(s), [], [])
    else
      var r := React(s, messages[0], isUtf8);
      Join(SaidBy(r), OutputBy(r),
           if r.next.None? then Course(None, [], []) else ReactAll(r.next.value, messages[1..], isUtf8))
  }

  /** A course, and then what is made of the rest. */
  function After(c: Course, t: Talk): Talk { Talk(t.layer, c.said + t.said, c.outputs + t.outputs) }

  /** No message but the last makes it give up the stream. */
  predicate Lively(s: State, messages: seq<seq<Byte>>, isUtf8: Name -> bool)
    decreases |messages|
  {
    |messages| <= 1
    || (React(s, messages[0], isUtf8).next.Some?
        && Lively(React(s, messages[0], isUtf8).next.value, messages[1..], isUtf8))
  }

  /** The stream as the course leaves it, in a layer otherwise as before. */
  function Left(l: Layer, id: StreamId, next: Option<State>, tail: seq<Byte>, limit: nat): Layer
  {
    Layer(if next.Some? then l.slots[id := Slot(tail, false, next.value, limit)] else l.slots - {id}, None)
  }

  /** A slot in some state, with some bytes that hold no complete message. */
  predicate At(l: Layer, id: StreamId, s: State, pending: seq<Byte>, limit: nat)
  {
    id in l.slots && l.slots[id] == Slot(pending, false, s, limit)
  }

  /** One round on a stream whose first message is complete. */
  lemma {:induction false} OneMessage(l: Layer, id: StreamId, s: State, limit: nat, m: seq<Byte>, more: seq<Byte>,
                                      isUtf8: Name -> bool)
    requires At(l, id, s, Framed(m) + more, limit) && |m| < U64_LIMIT
    ensures var o, r := Pulled(l, id, true, isUtf8), React(s, m, isUtf8);
            && o.layer.readFrom == Some(id)
            && o.layer.slots
               == (if r.next.Some? then l.slots[id := Slot(more, false, r.next.value, limit)] else l.slots - {id})
            && SaidOn(o.commands, id) == SaidBy(r)
            && OutputsOn(o.turn, id) == OutputBy(r)
  {
    ParseFramed(m, more);
    var o := Pulled(l, id, true, isUtf8);
    if o.commands != [] {
      assert o.commands == [o.commands[0]] && o.commands[1..] == [];
      assert SaidOn(o.commands, id) == (if o.commands[0].SendBytes? then o.commands[0].bytes else []) + SaidOn([], id);
    }
  }

  lemma {:induction false} NoMessage(l: Layer, id: StreamId, s: State, limit: nat, tail: seq<Byte>,
                                     isUtf8: Name -> bool)
    requires At(l, id, s, tail, limit) && Waits(tail)
    ensures Pulled(l, id, true, isUtf8) == Outcome(Layer(l.slots, None), [], Again)
  {
    assert l.slots[id := l.slots[id]] == l.slots;
  }

  /** Reading out a stream that holds whole messages and then an incomplete one. */
  lemma {:induction false} ReadsAll(l: Layer, id: StreamId, s: State, limit: nat, messages: seq<seq<Byte>>,
                                    tail: seq<Byte>, isUtf8: Name -> bool)
    requires l.readFrom == Some(id) && At(l, id, s, FramedAll(messages) + tail, limit)
    requires Sendable(messages) && Waits(tail) && Lively(s, messages, isUtf8)
    ensures var c := ReactAll(s, messages, isUtf8);
            ReadOut(l, id, isUtf8) == Talk(Left(l, id, c.next, tail, limit), c.said, c.outputs)
    decreases |messages|
  {
    RoundReads(l, id, isUtf8);
    var o := Round(l, RemoteClosed(id), true, isUtf8);
    if messages == [] {
      assert FramedAll(messages) + tail == tail;
      NoMessage(l, id, s, limit, tail, isUtf8);
      assert ReadOut(o.layer, id, isUtf8) == Talk(o.layer, [], []);
      assert l.slots[id := Slot(tail, false, s, limit)] == l.slots;
    } else {
      var m, rest := messages[0], messages[1..];
      Assoc(Framed(m), FramedAll(rest), tail);
      OneMessage(l, id, s, limit, m, FramedAll(rest) + tail, isUtf8);
      ReadsRest(l, o, id, s, limit, messages, tail, isUtf8);
    }
  }

  lemma {:induction false} ReadsRest(l: Layer, o: Outcome, id: StreamId, s: State, limit: nat,
                                     messages: seq<seq<Byte>>, tail: seq<Byte>, isUtf8: Name -> bool)
    requires messages != [] && Sendable(messages) && Waits(tail) && Lively(s, messages, isUtf8)
             && o.layer.readFrom == Some(id)
    requires var r := React(s, messages[0], isUtf8);
             && o.layer.slots
                == (if r.next.Some?
                    then l.slots[id := Slot(FramedAll(messages[1..]) + tail, false, r.next.value, limit)]
                    else l.slots - {id})
             && SaidOn(o.commands, id) == SaidBy(r)
             && OutputsOn(o.turn, id) == OutputBy(r)
    ensures var c := ReactAll(s, messages, isUtf8);
            Then(o, id, ReadOut(o.layer, id, isUtf8)) == Talk(Left(l, id, c.next, tail, limit), c.said, c.outputs)
    decreases |messages|, 0
  {
    var r, rest := React(s, messages[0], isUtf8), messages[1..];
    if r.next.Some? {
      ReadsAll(o.layer, id, r.next.value, limit, rest, tail, isUtf8);
      SameLeft(l, o.layer, id, ReactAll(r.next.value, rest, isUtf8).next, FramedAll(rest) + tail, r.next.value, tail,
               limit);
    } else {
      RoundReads(o.layer, id, isUtf8);
      var o2 := Round(o.layer, RemoteClosed(id), true, isUtf8);
      assert ReadOut(o2.layer, id, isUtf8) == Talk(o2.layer, [], []);
      assert ReadOut(o.layer, id, isUtf8) == Talk(o2.layer, [], []);
    }
  }

  lemma {:induction false} SameLeft(l: Layer, l': Layer, id: StreamId, next: Option<State>, pending: seq<Byte>,
                                    s: State, tail: seq<Byte>, limit: nat)
    requires l'.slots == l.slots[id := Slot(pending, false, s, limit)]
    ensures Left(l', id, next, tail, limit) == Left(l, id, next, tail, limit)
  {
  }

  // ---------------------------------------------------------------------------
  // What it makes of chunks
  // ---------------------------------------------------------------------------

  lemma {:induction false} ReceiveAbsent(l: Layer, id: StreamId, chunks: seq<seq<Byte>>, isUtf8: Name -> bool)
    requires l.readFrom == None && id !in l.slots
    ensures Receive(l, id, chunks, isUtf8) == Talk(l, [], [])
    decreases |chunks|
  {
    if chunks != [] {
      assert Round(l, RemoteData(id, chunks[0]), true, isUtf8) == Outcome(l, [], Again);
      assert ReadOut(l, id, isUtf8) == Talk(l, [], []);
      ReceiveAbsent(l, id, chunks[1..], isUtf8);
    }
  }

  lemma {:induction false} JoinJoins(said: seq<Byte>, outputs: seq<OutputState>, c: Course, d: Course)
    ensures Join(said, outputs, Join(c.said, c.outputs, d)) == Join(said + c.said, outputs + c.outputs, d)
  {
    Assoc(said, c.said, d.said);
    Assoc(outputs, c.outputs, d.outputs);
  }

  lemma {:induction false} CourseSplits(s: State, a: seq<seq<Byte>>, b: seq<seq<Byte>>, isUtf8: Name -> bool)
    requires Lively(s, a + b, isUtf8)
    ensures var c := ReactAll(s, a, isUtf8);
            && Lively(s, a, isUtf8)
            && (c.next.None? ==> b == [] && ReactAll(s, a + b, isUtf8) == c)
            && (c.next.Some? ==>
                  && Lively(c.next.value, b, isUtf8)
                  && ReactAll(s, a + b, isUtf8) == Join(c.said, c.outputs, ReactAll(c.next.value, b, isUtf8)))
    decreases |a|
  {
    if a == [] {
      assert a + b == b;
      assert ReactAll(s, b, isUtf8) == Join([], [], ReactAll(s, b, isUtf8));
    } else {
      assert (a + b)[1..] == a[1..] + b && (a + b)[0] == a[0];
      var r := React(s, a[0], isUtf8);
      if r.next.Some? {
        CourseSplits(r.next.value, a[1..], b, isUtf8);
        var c := ReactAll(r.next.value, a[1..], isUtf8);
        if c.next.Some? { JoinJoins(SaidBy(r), OutputBy(r), c, ReactAll(c.next.value, b, isUtf8)); }
      } else {
        assert a + b == [a[0]] && b == [];
      }
    }
  }

  /** Some chunk did not fit: the stream is gone, after the outputs for fewer messages than there were. */
  predicate Cut(t: Talk, id: StreamId, s: State, messages: seq<seq<Byte>>, k: nat, isUtf8: Name -> bool)
  {
    && t.layer.readFrom == None && id !in t.layer.slots
    && k < |messages| && t.outputs == ReactAll(s, messages[..k], isUtf8).outputs + [Closed(IncomingMessageTooLarge)]
  }

  /** The first chunk, when it fits, is read out with what was pending. */
  lemma {:induction false} FirstChunk(l: Layer, id: StreamId, s: State, limit: nat, pending: seq<Byte>,
                                      chunk: seq<Byte>, messages: seq<seq<Byte>>, isUtf8: Name -> bool)
    requires l.readFrom == None && At(l, id, s, pending, limit) && |Unread(pending)| + |chunk| <= limit
    requires pending + chunk == FramedAll(messages) + Tail(pending + chunk) && Waits(Tail(pending + chunk))
    requires Sendable(messages) && Lively(s, messages, isUtf8)
    ensures var o, c := Round(l, RemoteData(id, chunk), true, isUtf8), ReactAll(s, messages, isUtf8);
            Then(o, id, ReadOut(o.layer, id, isUtf8))
            == Talk(Left(l, id, c.next, Tail(pending + chunk), limit), c.said, c.outputs)
  {
    var fed := Layer(l.slots[id := Slot(pending + chunk, false, s, limit)], Some(id));
    FedIsPulled(l, id, chunk, true, isUtf8);
    ReadsAll(fed, id, s, limit, messages, Tail(pending + chunk), isUtf8);
    RoundReads(fed, id, isUtf8);
    assert Round(fed, RemoteClosed(id), true, isUtf8) == Round(l, RemoteData(id, chunk), true, isUtf8);
    SameLeft(l, fed, id, ReactAll(s, messages, isUtf8).next, pending + chunk, s, Tail(pending + chunk), limit);
  }

  lemma {:induction false} ReceiveStep(l: Layer, id: StreamId, chunks: seq<seq<Byte>>, isUtf8: Name -> bool)
    requires chunks != []
    ensures var o := Round(l, RemoteData(id, chunks[0]), true, isUtf8);
            var h := Then(o, id, ReadOut(o.layer, id, isUtf8));
            Receive(l, id, chunks, isUtf8)
            == After(Course(None, h.said, h.outputs), Receive(h.layer, id, chunks[1..], isUtf8))
  {
    var o := Round(l, RemoteData(id, chunks[0]), true, isUtf8);
    var t := ReadOut(o.layer, id, isUtf8);
    var u := Receive(t.layer, id, chunks[1..], isUtf8);
    Assoc(SaidOn(o.commands, id), t.said, u.said);
    Assoc(OutputsOn(o.turn, id), t.outputs, u.outputs);
  }

  /** A chunk that does not fit ends the stream, whatever follows. */
  lemma {:induction false} CutHere(l: Layer, id: StreamId, s: State, limit: nat, pending: seq<Byte>,
                                   chunks: seq<seq<Byte>>, messages: seq<seq<Byte>>, isUtf8: Name -> bool)
    requires l.readFrom == None && At(l, id, s, pending, limit) && chunks != [] && messages != []
    requires |Unread(pending)| + |chunks[0]| > limit
    ensures Cut(Receive(l, id, chunks, isUtf8), id, s, messages, 0, isUtf8)
  {
    var o := Round(l, RemoteData(id, chunks[0]), true, isUtf8);
    ReceiveStep(l, id, chunks, isUtf8);
    assert ReadOut(o.layer, id, isUtf8) == Talk(o.layer, [], []);
    assert o.commands == [ResetStream(id)] && SaidOn(o.commands, id) == [] + SaidOn([], id);
    ReceiveAbsent(o.layer, id, chunks[1..], isUtf8);
    assert messages[..0] == [];
  }

  /** A cut that comes after some messages is a cut of the whole. */
  lemma {:induction false} CutLater(t: Talk, u: Talk, id: StreamId, s: State, a: seq<seq<Byte>>, b: seq<seq<Byte>>,
                                    k: nat, isUtf8: Name -> bool)
    requires Lively(s, a + b, isUtf8) && ReactAll(s, a, isUtf8).next.Some?
    requires Cut(u, id, ReactAll(s, a, isUtf8).next.value, b, k, isUtf8)
    requires t.layer == u.layer && t.outputs == ReactAll(s, a, isUtf8).outputs + u.outputs
    ensures Cut(t, id, s, a + b, |a| + k, isUtf8)
  {
    var c := ReactAll(s, a, isUtf8);
    assert (a + b)[..|a| + k] == a + b[..k] && a + b == (a + b[..k]) + b[k..];
    CourseSplits(s, a + b[..k], b[k..], isUtf8);
    CourseSplits(s, a, b[..k], isUtf8);
    Assoc(c.outputs, ReactAll(c.next.value, b[..k], isUtf8).outputs, [Closed(IncomingMessageTooLarge)]);
  }

  /** What becomes of messages: all of them get their reactions, or the stream is cut with some message not reached. */
  predicate Follows(t: Talk, l: Layer, id: StreamId, s: State, limit: nat, messages: seq<seq<Byte>>, fits: bool,
                    k: nat, isUtf8: Name -> bool)
  {
    var c := ReactAll(s, messages, isUtf8);
    if fits then t == Talk(Left(l, id, c.next, [], limit), c.said, c.outputs) else Cut(t, id, s, messages, k, isUtf8)
  }

  /** Messages that come in chunks, the first bytes of them already pending. */
  ghost predicate Arriving(l: Layer, id: StreamId, s: State, limit: nat, pending: seq<Byte>, chunks: seq<seq<Byte>>,
                     messages: seq<seq<Byte>>, isUtf8: Name -> bool)
  {
    && l.readFrom == None && At(l, id, s, pending, limit) && Waits(pending)
    && pending + Concat(chunks) == FramedAll(messages) && Sendable(messages) && Lively(s, messages, isUtf8)
  }

  /** All of them get their reactions if each chunk fits when it is reported; if not, the stream is cut. */
  lemma {:induction false} Receives(l: Layer, id: StreamId, s: State, limit: nat, pending: seq<Byte>,
                                    chunks: seq<seq<Byte>>, messages: seq<seq<Byte>>, isUtf8: Name -> bool)
      returns (k: nat)
    requires Arriving(l, id, s, limit, pending, chunks, messages, isUtf8)
    ensures Follows(Receive(l, id, chunks, isUtf8), l, id, s, limit, messages, ChunksFit(pending, limit, chunks), k,
                    isUtf8)
    decreases |chunks|
  {
    k := 0;
    if chunks == [] {
      ReceivesNothing(l, id, s, limit, pending, messages, isUtf8);
    } else if |Unread(pending)| + |chunks[0]| > limit {
      SomeMessage(pending, chunks, messages, limit);
      CutHere(l, id, s, limit, pending, chunks, messages, isUtf8);
    } else {
      var a, b, c := FirstFits(l, id, s, limit, pending, chunks, messages, isUtf8);
      var tail, later := Tail(pending + chunks[0]), chunks[1..];
      var h := Left(l, id, c.next, tail, limit);
      var u, fits := Receive(h, id, later, isUtf8), ChunksFit(tail, limit, later);
      if c.next.Some? {
        var i := Receives(h, id, c.next.value, limit, tail, later, b, isUtf8);
        k := |a| + i;
        GoesOn(l, h, u, c, id, s, limit, a, b, tail, fits, i, isUtf8);
      } else {
        NothingMore(l, c, id, s, limit, tail, later, a, b, isUtf8);
      }
    }
  }

  lemma {:induction false} ReceivesNothing(l: Layer, id: StreamId, s: State, limit: nat, pending: seq<Byte>,
                                           messages: seq<seq<Byte>>, isUtf8: Name -> bool)
    requires Arriving(l, id, s, limit, pending, [], messages, isUtf8)
    ensures Follows(Receive(l, id, [], isUtf8), l, id, s, limit, messages, true, 0, isUtf8)
  {
    assert pending + [] == pending;
    ParsePrefix(pending, [], messages);
    assert l.slots[id := l.slots[id]] == l.slots;
  }

  /** A first chunk that fits brings the first messages `a`, and the others `b` are arriving. */
  lemma {:induction false} FirstFits(l: Layer, id: StreamId, s: State, limit: nat, pending: seq<Byte>,
                                     chunks: seq<seq<Byte>>, messages: seq<seq<Byte>>, isUtf8: Name -> bool)
      returns (a: seq<seq<Byte>>, b: seq<seq<Byte>>, c: Course)
    requires chunks != [] && |Unread(pending)| + |chunks[0]| <= limit
    requires Arriving(l, id, s, limit, pending, chunks, messages, isUtf8)
    ensures messages == a + b && c == ReactAll(s, a, isUtf8) && Lively(s, a + b, isUtf8)
    ensures var tail := Tail(pending + chunks[0]);
            var h := Left(l, id, c.next, tail, limit);
            && tail + Concat(chunks[1..]) == FramedAll(b)
            && Receive(l, id, chunks, isUtf8) == After(c, Receive(h, id, chunks[1..], isUtf8))
            && (c.next.Some? ==> Arriving(h, id, c.next.value, limit, tail, chunks[1..], b, isUtf8))
  {
    Assoc(pending, chunks[0], Concat(chunks[1..]));
    a, b := Parts(pending + chunks[0], Concat(chunks[1..]), s, messages, isUtf8);
    c := ReactAll(s, a, isUtf8);
    FirstChunk(l, id, s, limit, pending, chunks[0], a, isUtf8);
    ReceiveStep(l, id, chunks, isUtf8);
  }

  /** The messages that some first bytes complete, and the others. */
  lemma {:induction false} Parts(bytes: seq<Byte>, later: seq<Byte>, s: State, messages: seq<seq<Byte>>,
                                 isUtf8: Name -> bool)
      returns (a: seq<seq<Byte>>, b: seq<seq<Byte>>)
    requires Sendable(messages) && bytes + later == FramedAll(messages) && Lively(s, messages, isUtf8)
    ensures messages == a + b && Sendable(a) && Sendable(b) && Lively(s, a, isUtf8)
    ensures bytes == FramedAll(a) + Tail(bytes) && Tail(bytes) + later == FramedAll(b) && Waits(Tail(bytes))
    ensures var c := ReactAll(s, a, isUtf8); c.next.Some? ==> Lively(c.next.value, b, isUtf8)
  {
    var j := EndsIn(bytes, later, messages);
    a, b := messages[..j], messages[j..];
    assert messages == a + b;
    CourseSplits(s, a, b, isUtf8);
  }

  lemma {:induction false} NothingMore(l: Layer, c: Course, id: StreamId, s: State, limit: nat, tail: seq<Byte>,
                                       chunks: seq<seq<Byte>>, a: seq<seq<Byte>>, b: seq<seq<Byte>>,
                                         isUtf8: Name -> bool)
    requires Lively(s, a + b, isUtf8) && c == ReactAll(s, a, isUtf8) && c.next.None?
             && tail + Concat(chunks) == FramedAll(b)
    ensures ChunksFit(tail, limit, chunks)
    ensures Follows(After(c, Receive(Left(l, id, None, tail, limit), id, chunks, isUtf8)), l, id, s, limit, a + b,
                    true, 0, isUtf8)
  {
    CourseSplits(s, a, b, isUtf8);
    ReceiveAbsent(Left(l, id, None, tail, limit), id, chunks, isUtf8);
    NothingLeft(tail, chunks, limit);
    assert c.said + [] == c.said && c.outputs + [] == c.outputs;
  }

  /** Nothing to say in chunks always fits. */
  lemma {:induction false} SomeMessage(pending: seq<Byte>, chunks: seq<seq<Byte>>, messages: seq<seq<Byte>>, limit: nat)
    requires chunks != [] && pending + Concat(chunks) == FramedAll(messages) && |Unread(pending)| + |chunks[0]| > limit
    ensures messages != []
  {
    UnreadShrinks(pending);
  }

  /** The first messages and then the others, seen as one. */
  lemma {:induction false} GoesOn(l: Layer, h: Layer, u: Talk, c: Course, id: StreamId, s: State, limit: nat,
                                  a: seq<seq<Byte>>, b: seq<seq<Byte>>, tail: seq<Byte>, fits: bool, i: nat,
                                  isUtf8: Name -> bool)
    requires Lively(s, a + b, isUtf8) && c == ReactAll(s, a, isUtf8) && c.next.Some?
    requires h == Left(l, id, c.next, tail, limit)
    requires Follows(u, h, id, c.next.value, limit, b, fits, i, isUtf8)
    ensures Follows(After(c, u), l, id, s, limit, a + b, fits, |a| + i, isUtf8)
  {
    if fits {
      CourseSplits(s, a, b, isUtf8);
      SameLeft(l, h, id, ReactAll(c.next.value, b, isUtf8).next, tail, c.next.value, [], limit);
    } else {
      CutLater(After(c, u), u, id, s, a, b, i, isUtf8);
    }
  }

  lemma {:induction false} NothingLeft(tail: seq<Byte>, chunks: seq<seq<Byte>>, limit: nat)
    requires tail + Concat(chunks) == []
    ensures tail == [] && ChunksFit(tail, limit, chunks)
  {
    FewBytesFit(tail, limit, chunks);
  }

  // ---------------------------------------------------------------------------
  // Both ends
  // ---------------------------------------------------------------------------

  const NA: Name := [110, 97]

  function Line(name: Name): seq<Byte> { name + [NEWLINE] }

  /** Who accepts what, which names are UTF-8, and how the bytes of each message exchange come in chunks. */
  datatype Setting = Setting(accepts: Name -> bool, isUtf8: Name -> bool, cuts: (nat, seq<Byte>) -> seq<seq<Byte>>)

  ghost predicate CutsOnly(w: Setting)
  {
    forall k, bytes :: Whole(w, k, bytes)
  }

  predicate Whole(w: Setting, k: nat, bytes: seq<Byte>) { Concat(w.cuts(k, bytes)) == bytes }

  /** The protocol each end has in the end, if any, and whether one of them cut the stream for its size. */
  datatype Deal = Deal(dialer: Option<Name>, listener: Option<Name>, cut: bool)

  predicate WasCut(t: Talk) { Closed(IncomingMessageTooLarge) in t.outputs }

  function Proposed(t: Talk): Option<Name>
  {
    if t.outputs != [] && t.outputs[|t.outputs| - 1].IncomingProtocol? then Some(t.outputs[|t.outputs| - 1].name)
      else None
  }

  function Won(t: Talk): Option<Name>
  {
    if t.outputs != [] && t.outputs[|t.outputs| - 1].OutgoingAccepted? then Some(t.outputs[|t.outputs| - 1].name)
      else None
  }

  /** The proposals the dialer has left to make. */
  function ToPropose(l: Layer, id: StreamId): nat
  {
    if id in l.slots && l.slots[id].state.Outgoing? then 1 + |l.slots[id].state.rest| else 0
  }

  /** The dialer's bytes reach the listener, whose user answers the proposal they make; the answer reaches the dialer,
      who may propose again. */
  function Converse(dialer: Layer, listener: Layer, id: StreamId, up: seq<Byte>, k: nat, w: Setting): Deal
    decreases ToPropose(dialer, id), 1
  {
    var heard := Receive(listener, id, w.cuts(2 * k, up), w.isUtf8);
    if WasCut(heard) then Deal(None, None, true)
    else if Proposed(heard).None? || AnswerError(heard.layer, id, true).Some? then Deal(None, None, false)
    else
      var name := Proposed(heard).value;
      var back := Receive(dialer, id, w.cuts(2 * k + 1, heard.said + Framed(Reply(name, w))), w.isUtf8);
      Resume(dialer, heard.layer, id, back, if w.accepts(name) then Some(name) else None, k, w)
  }

  /** What the listener's user answers. */
  function Reply(name: Name, w: Setting): seq<Byte> { if w.accepts(name) then Line(name) else NOT_AVAILABLE }

  /** The dialer has made `back` of the answer, which took up a protocol or refused it. */
  function Resume(dialer: Layer, listener: Layer, id: StreamId, back: Talk, taken: Option<Name>, k: nat,
                  w: Setting): Deal
    decreases ToPropose(dialer, id), 0
  {
    if WasCut(back) then Deal(None, taken, true)
    else if Won(back).Some? || taken.Some? then Deal(Won(back), taken, false)
    else if back.said != [] && ToPropose(back.layer, id) < ToPropose(dialer, id) then
      Converse(back.layer, Answered(listener, id, NewIncomingProtocol, None), id, back.said, k + 1, w)
    else Deal(None, None, false)
  }

  /** One end opens a stream for some protocols, and the other is told that it was opened. */
  function Negotiated(dialer: Layer, listener: Layer, id: StreamId, names: seq<Name>, limit: nat, w: Setting): Deal
    requires names != []
  {
    Converse(Opened(dialer, id, names, limit), Round(listener, RemoteOpened(id), true, w.isUtf8).layer, id,
             Framed(MULTISTREAM_HEADER) + Framed(Line(names[0])), 0, w)
  }

  // ---------------------------------------------------------------------------
  // What becomes of the negotiation
  // ---------------------------------------------------------------------------

  /** The bytes of one direction of an exchange: the first comes behind the header. */
  function Spoken(first: bool, m: seq<Byte>): seq<Byte>
  {
    (if first then Framed(MULTISTREAM_HEADER) else []) + Framed(m)
  }

  /** How a negotiation ends. */
  datatype Fate = Agreed(name: Name) | AllRefused | ListenerCuts | DialerCuts(taken: Option<Name>) | ReadsNa

  predicate ProposalFits(name: Name, k: nat, w: Setting)
  {
    ChunksFit([], PROTOCOL_MAX_LEN, w.cuts(2 * k, Spoken(k == 0, Line(name))))
  }

  predicate AnswerFits(name: Name, k: nat, limit: nat, w: Setting)
  {
    ChunksFit([], limit, w.cuts(2 * k + 1, Spoken(k == 0, Reply(name, w))))
  }

  /** From the names, the limits and the chunks alone: the first exchange that is cut, accepted, or misread decides. */
  function FateOf(names: seq<Name>, k: nat, limit: nat, w: Setting): Fate
    decreases |names|
  {
    if names == [] then AllRefused
    else if !ProposalFits(names[0], k, w) then ListenerCuts
    else if !AnswerFits(names[0], k, limit, w) then DialerCuts(if w.accepts(names[0]) then Some(names[0]) else None)
    else if w.accepts(names[0]) then Agreed(names[0])
    else if names[0] == NA then ReadsNa
    else FateOf(names[1..], k + 1, limit, w)
  }

  function DealOf(f: Fate): Deal
  {
    match f
    case Agreed(name) => Deal(Some(name), Some(name), false)
    case AllRefused => Deal(None, None, false)
    case ListenerCuts => Deal(None, None, true)
    case DialerCuts(taken) => Deal(None, taken, true)
    case ReadsNa => Deal(Some(NA), None, false)
  }

  function Lines(first: bool, m: seq<Byte>): seq<seq<Byte>> { (if first then [MULTISTREAM_HEADER] else []) + [m] }

  lemma {:induction false} LinesSpoken(first: bool, m: seq<Byte>)
    ensures FramedAll(Lines(first, m)) == Spoken(first, m)
    ensures |m| < U64_LIMIT ==> Sendable(Lines(first, m))
  {
    FramedCons(m, []);
    assert [m] + [] == [m] && Framed(m) + [] == Framed(m);
    if first { FramedCons(MULTISTREAM_HEADER, [m]); }
  }

  /** The header takes the end from `s` to `s2` with nothing to tell its user. */
  predicate Greets(s: State, s2: State, first: bool, isUtf8: Name -> bool)
  {
    if first then React(s, MULTISTREAM_HEADER, isUtf8).next == Some(s2)
      && React(s, MULTISTREAM_HEADER, isUtf8).output == None
    else s == s2
  }

  function Greeting(s: State, first: bool, isUtf8: Name -> bool): seq<Byte>
  {
    if first then SaidBy(React(s, MULTISTREAM_HEADER, isUtf8)) else []
  }

  lemma {:induction false} LinesCourse(s: State, s2: State, first: bool, m: seq<Byte>, isUtf8: Name -> bool)
    requires Greets(s, s2, first, isUtf8)
    ensures Lively(s, Lines(first, m), isUtf8)
    ensures var r := React(s2, m, isUtf8);
            ReactAll(s, Lines(first, m), isUtf8) == Course(r.next, Greeting(s, first, isUtf8) + SaidBy(r), OutputBy(r))
  {
    var r := React(s2, m, isUtf8);
    assert [m][1..] == [];
    assert SaidBy(r) + [] == SaidBy(r) && OutputBy(r) + [] == OutputBy(r);
    assert ReactAll(s2, [m], isUtf8) == Course(r.next, SaidBy(r), OutputBy(r)) by {
      if r.next.Some? { assert ReactAll(r.next.value, [], isUtf8) == Course(r.next, [], []); }
    }
    if first {
      assert Lines(first, m)[1..] == [m];
    } else {
      assert Lines(first, m) == [m] && [] + SaidBy(r) == SaidBy(r);
    }
  }

  lemma {:induction false} NothingToTell(s: State, s2: State, first: bool, m: seq<Byte>, k: nat, isUtf8: Name -> bool)
    requires Greets(s, s2, first, isUtf8) && k < |Lines(first, m)|
    ensures ReactAll(s, Lines(first, m)[..k], isUtf8).outputs == []
  {
    if k == 0 {
      assert Lines(first, m)[..0] == [];
    } else {
      assert Lines(first, m)[..1] == [MULTISTREAM_HEADER];
    }
  }

  /** One end of an exchange: it reacts to the message, or cuts the stream. */
  lemma {:induction false} EndHears(l: Layer, id: StreamId, s: State, s2: State, limit: nat, first: bool, m: seq<Byte>,
                                    chunks: seq<seq<Byte>>, isUtf8: Name -> bool)
    requires l.readFrom == None && At(l, id, s, [], limit) && Greets(s, s2, first, isUtf8)
    requires Concat(chunks) == Spoken(first, m) && |m| < U64_LIMIT
    ensures var t, r := Receive(l, id, chunks, isUtf8), React(s2, m, isUtf8);
            if ChunksFit([], limit, chunks)
            then t == Talk(Left(l, id, r.next, [], limit), Greeting(s, first, isUtf8) + SaidBy(r), OutputBy(r))
            else t.outputs == [Closed(IncomingMessageTooLarge)]
  {
    LinesSpoken(first, m);
    LinesCourse(s, s2, first, m, isUtf8);
    assert [] + Concat(chunks) == Concat(chunks);
    var k := Receives(l, id, s, limit, [], chunks, Lines(first, m), isUtf8);
    if !ChunksFit([], limit, chunks) {
      NothingToTell(s, s2, first, m, k, isUtf8);
    }
  }

  function ListenerState(k: nat): State { if k == 0 then NewIncoming else NewIncomingProtocol }

  function DialerState(k: nat, names: seq<Name>): State
    requires names != []
  {
    Outgoing(k != 0, names[0], names[1..])
  }

  lemma {:induction false} ListenerHears(l: Layer, id: StreamId, k: nat, name: Name, w: Setting)
    requires l.readFrom == None && At(l, id, ListenerState(k), [], PROTOCOL_MAX_LEN)
    requires CutsOnly(w) && w.isUtf8(name) && |Line(name)| < U64_LIMIT
    ensures var t := Receive(l, id, w.cuts(2 * k, Spoken(k == 0, Line(name))), w.isUtf8);
            if ProposalFits(name, k, w)
            then t == Talk(Left(l, id, Some(WaitingForAccept(name)), [], PROTOCOL_MAX_LEN),
                           if k == 0 then Framed(MULTISTREAM_HEADER) else [], [IncomingProtocol(name)])
            else t.outputs == [Closed(IncomingMessageTooLarge)]
  {
    var up := Spoken(k == 0, Line(name));
    assert Whole(w, 2 * k, up);
    assert Line(name)[..|Line(name)| - 1] == name;
    EndHears(l, id, ListenerState(k), NewIncomingProtocol, PROTOCOL_MAX_LEN, k == 0, Line(name), w.cuts(2 * k, up),
             w.isUtf8);
    var g := Greeting(ListenerState(k), k == 0, w.isUtf8);
    assert g + [] == g;
  }

  lemma {:induction false} DialerHears(l: Layer, id: StreamId, k: nat, names: seq<Name>, limit: nat, w: Setting)
    requires names != [] && l.readFrom == None && At(l, id, DialerState(k, names), [], limit)
    requires CutsOnly(w) && |Line(names[0])| < U64_LIMIT
    ensures var t := Receive(l, id, w.cuts(2 * k + 1, Spoken(k == 0, Reply(names[0], w))), w.isUtf8);
            var r := React(Outgoing(true, names[0], names[1..]), Reply(names[0], w), w.isUtf8);
            if AnswerFits(names[0], k, limit, w)
            then t == Talk(Left(l, id, r.next, [], limit), SaidBy(r), OutputBy(r))
            else t.outputs == [Closed(IncomingMessageTooLarge)]
  {
    var answer := Reply(names[0], w);
    assert Whole(w, 2 * k + 1, Spoken(k == 0, answer));
    DialerGreets(k, names, w.isUtf8);
    EndHearsQuietly(l, id, DialerState(k, names), Outgoing(true, names[0], names[1..]), limit, k == 0, answer,
                    w.cuts(2 * k + 1, Spoken(k == 0, answer)), w.isUtf8);
  }

  /** An end that does not answer the header. */
  lemma {:induction false} EndHearsQuietly(l: Layer, id: StreamId, s: State, s2: State, limit: nat, first: bool,
                                           m: seq<Byte>, chunks: seq<seq<Byte>>, isUtf8: Name -> bool)
    requires l.readFrom == None && At(l, id, s, [], limit) && Greets(s, s2, first, isUtf8)
    requires Greeting(s, first, isUtf8) == [] && Concat(chunks) == Spoken(first, m) && |m| < U64_LIMIT
    ensures var t, r := Receive(l, id, chunks, isUtf8), React(s2, m, isUtf8);
            if ChunksFit([], limit, chunks) then t == Talk(Left(l, id, r.next, [], limit), SaidBy(r), OutputBy(r))
            else t.outputs == [Closed(IncomingMessageTooLarge)]
  {
    EndHears(l, id, s, s2, limit, first, m, chunks, isUtf8);
    NothingBefore(SaidBy(React(s2, m, isUtf8)));
  }

  lemma {:induction false} NothingBefore(bytes: seq<Byte>)
    ensures [] + bytes == bytes
  {
  }

  lemma {:induction false} DialerGreets(k: nat, names: seq<Name>, isUtf8: Name -> bool)
    requires names != []
    ensures Greets(DialerState(k, names), Outgoing(true, names[0], names[1..]), k == 0, isUtf8)
    ensures Greeting(DialerState(k, names), k == 0, isUtf8) == []
  {
  }

  lemma {:induction false} SameAnswer(name: Name)
    ensures Line(name) == NOT_AVAILABLE <==> name == NA
  {
    if Line(name) == NOT_AVAILABLE { assert name == Line(name)[..2]; }
  }

  ghost predicate Nameable(names: seq<Name>, isUtf8: Name -> bool)
  {
    forall n :: n in names ==> isUtf8(n) && |Line(n)| < U64_LIMIT
  }

  /** Both ends are about to exchange the first of `names` and its answer. */
  predicate Facing(dialer: Layer, listener: Layer, id: StreamId, names: seq<Name>, k: nat, limit: nat)
  {
    && names != []
    && dialer.readFrom == None && At(dialer, id, DialerState(k, names), [], limit)
    && listener.readFrom == None && At(listener, id, ListenerState(k), [], PROTOCOL_MAX_LEN)
  }

  /** A refusal that is read as such leads to the next proposal. */
  lemma {:induction false} NextProposal(dialer: Layer, listener: Layer, id: StreamId, names: seq<Name>, k: nat,
                                        limit: nat, isUtf8: Name -> bool)
    requires Facing(dialer, listener, id, names, k, limit) && names[0] != NA && |names| > 1
    ensures var r := React(Outgoing(true, names[0], names[1..]), NOT_AVAILABLE, isUtf8);
            var heard := Left(listener, id, Some(WaitingForAccept(names[0])), [], PROTOCOL_MAX_LEN);
            && OutputBy(r) == [] && SaidBy(r) == Spoken(false, Line(names[1]))
            && Facing(Left(dialer, id, r.next, [], limit), Answered(heard, id, NewIncomingProtocol, None), id,
                      names[1..], k + 1, limit)
  {
    SameAnswer(names[0]);
    assert [] + Framed(Line(names[1])) == Framed(Line(names[1]));
    assert names[1..][0] == names[1] && names[1..][1..] == names[2..];
  }

  /** The listener takes in the proposal, and what the dialer makes of the answer decides. */
  lemma {:induction false} ProposalMade(dialer: Layer, listener: Layer, id: StreamId, names: seq<Name>, k: nat,
                                        limit: nat, w: Setting)
    requires Facing(dialer, listener, id, names, k, limit) && CutsOnly(w) && Nameable(names, w.isUtf8)
    ensures Converse(dialer, listener, id, Spoken(k == 0, Line(names[0])), k, w)
            == if !ProposalFits(names[0], k, w) then Deal(None, None, true)
               else Resume(dialer, Left(listener, id, Some(WaitingForAccept(names[0])), [], PROTOCOL_MAX_LEN), id,
                           Receive(dialer, id, w.cuts(2 * k + 1, Spoken(k == 0, Reply(names[0], w))), w.isUtf8),
                           if w.accepts(names[0]) then Some(names[0]) else None, k, w)
  {
    ListenerHears(listener, id, k, names[0], w);
  }

  /** The dialer's side of it: done, or the next proposal. */
  lemma {:induction false} AnswerMade(dialer: Layer, listener: Layer, id: StreamId, names: seq<Name>, k: nat,
                                      limit: nat, back: Talk, w: Setting)
    requires Facing(dialer, listener, id, names, k, limit) && !w.accepts(names[0])
    requires var r := React(Outgoing(true, names[0], names[1..]), NOT_AVAILABLE, w.isUtf8);
             back == Talk(Left(dialer, id, r.next, [], limit), SaidBy(r), OutputBy(r))
    ensures var heard := Left(listener, id, Some(WaitingForAccept(names[0])), [], PROTOCOL_MAX_LEN);
            var listener2 := Answered(heard, id, NewIncomingProtocol, None);
            && (names[0] != NA && |names| > 1 ==> Facing(back.layer, listener2, id, names[1..], k + 1, limit))
            && Resume(dialer, heard, id, back, None, k, w)
               == if names[0] == NA then Deal(Some(NA), None, false)
                  else if |names| == 1 then Deal(None, None, false)
                  else Converse(back.layer, listener2, id, Spoken(false, Line(names[1])), k + 1, w)
  {
    SameAnswer(names[0]);
    if names[0] != NA && |names| > 1 { NextProposal(dialer, listener, id, names, k, limit, w.isUtf8); }
  }

  lemma {:induction false} AcceptanceMade(dialer: Layer, listener: Layer, id: StreamId, names: seq<Name>, k: nat,
                                          limit: nat, back: Talk, w: Setting)
    requires names != []
    requires var r := React(Outgoing(true, names[0], names[1..]), Line(names[0]), w.isUtf8);
             back == Talk(Left(dialer, id, r.next, [], limit), SaidBy(r), OutputBy(r))
    ensures Resume(dialer, listener, id, back, Some(names[0]), k, w) == Deal(Some(names[0]), Some(names[0]), false)
  {
  }

  ghost predicate Meeting(dialer: Layer, listener: Layer, id: StreamId, names: seq<Name>, k: nat, limit: nat,
                          w: Setting)
  {
    Facing(dialer, listener, id, names, k, limit) && CutsOnly(w) && Nameable(names, w.isUtf8)
  }

  /** A proposal or an answer that does not fit. */
  lemma {:induction false} ExchangeCut(dialer: Layer, listener: Layer, id: StreamId, names: seq<Name>, k: nat,
                                       limit: nat, w: Setting)
    requires Meeting(dialer, listener, id, names, k, limit, w)
    requires !ProposalFits(names[0], k, w) || !AnswerFits(names[0], k, limit, w)
    ensures Converse(dialer, listener, id, Spoken(k == 0, Line(names[0])), k, w)
            == Deal(None, if ProposalFits(names[0], k, w) && w.accepts(names[0]) then Some(names[0]) else None, true)
  {
    ProposalMade(dialer, listener, id, names, k, limit, w);
    if ProposalFits(names[0], k, w) { DialerHears(dialer, id, k, names, limit, w); }
  }

  /** A proposal that is accepted. */
  lemma {:induction false} ExchangeAccepted(dialer: Layer, listener: Layer, id: StreamId, names: seq<Name>, k: nat,
                                            limit: nat, w: Setting)
    requires Meeting(dialer, listener, id, names, k, limit, w)
    requires ProposalFits(names[0], k, w) && AnswerFits(names[0], k, limit, w) && w.accepts(names[0])
    ensures Converse(dialer, listener, id, Spoken(k == 0, Line(names[0])), k, w)
            == Deal(Some(names[0]), Some(names[0]), false)
  {
    ProposalMade(dialer, listener, id, names, k, limit, w);
    DialerHears(dialer, id, k, names, limit, w);
    AcceptanceMade(dialer, Left(listener, id, Some(WaitingForAccept(names[0])), [], PROTOCOL_MAX_LEN), id, names, k,
                   limit,
                   Receive(dialer, id, w.cuts(2 * k + 1, Spoken(k == 0, Line(names[0]))), w.isUtf8), w);
  }

  /** A proposal that is refused. */
  lemma {:induction false} ExchangeRefused(dialer: Layer, listener: Layer, id: StreamId, names: seq<Name>, k: nat,
                                           limit: nat, w: Setting)
      returns (dialer2: Layer, listener2: Layer)
    requires Meeting(dialer, listener, id, names, k, limit, w)
    requires ProposalFits(names[0], k, w) && AnswerFits(names[0], k, limit, w) && !w.accepts(names[0])
    ensures names[0] != NA && |names| > 1 ==> Meeting(dialer2, listener2, id, names[1..], k + 1, limit, w)
    ensures Converse(dialer, listener, id, Spoken(k == 0, Line(names[0])), k, w)
            == if names[0] == NA then Deal(Some(NA), None, false)
               else if |names| == 1 then Deal(None, None, false)
               else Converse(dialer2, listener2, id, Spoken(false, Line(names[1])), k + 1, w)
  {
    ProposalMade(dialer, listener, id, names, k, limit, w);
    DialerHears(dialer, id, k, names, limit, w);
    var back := Receive(dialer, id, w.cuts(2 * k + 1, Spoken(k == 0, NOT_AVAILABLE)), w.isUtf8);
    AnswerMade(dialer, listener, id, names, k, limit, back, w);
    dialer2 := back.layer;
    listener2 := Answered(Left(listener, id, Some(WaitingForAccept(names[0])), [], PROTOCOL_MAX_LEN), id,
                          NewIncomingProtocol, None);
  }

  lemma {:induction false} FateRefused(names: seq<Name>, k: nat, limit: nat, w: Setting, deal: Deal)
    requires names != [] && ProposalFits(names[0], k, w) && AnswerFits(names[0], k, limit, w) && !w.accepts(names[0])
    requires deal == if names[0] == NA then Deal(Some(NA), None, false)
                     else if |names| == 1 then Deal(None, None, false)
                     else DealOf(FateOf(names[1..], k + 1, limit, w))
    ensures deal == DealOf(FateOf(names, k, limit, w))
  {
    if |names| == 1 { assert names[1..] == []; }
  }

  /** The conversation from here on ends as the names, the limits and the chunks say. */
  predicate Ends(dialer: Layer, listener: Layer, id: StreamId, names: seq<Name>, k: nat, limit: nat, w: Setting)
  {
    names != [] && Converse(dialer, listener, id, Spoken(k == 0, Line(names[0])), k, w)
      == DealOf(FateOf(names, k, limit, w))
  }

  lemma {:induction false} Decided(dialer: Layer, listener: Layer, id: StreamId, names: seq<Name>, k: nat, limit: nat,
                                   w: Setting)
    requires Meeting(dialer, listener, id, names, k, limit, w)
    requires !ProposalFits(names[0], k, w) || !AnswerFits(names[0], k, limit, w) || w.accepts(names[0])
    ensures Ends(dialer, listener, id, names, k, limit, w)
  {
    var up, down, taken := ProposalFits(names[0], k, w), AnswerFits(names[0], k, limit, w), w.accepts(names[0]);
    FateNow(names, k, limit, w, up, down, taken);
    if up && down {
      ExchangeAccepted(dialer, listener, id, names, k, limit, w);
    } else {
      ExchangeCut(dialer, listener, id, names, k, limit, w);
    }
  }

  lemma {:induction false} FateNow(names: seq<Name>, k: nat, limit: nat, w: Setting, up: bool, down: bool, taken: bool)
    requires names != [] && up == ProposalFits(names[0], k, w) && down == AnswerFits(names[0], k, limit, w)
    requires taken == w.accepts(names[0]) && (!up || !down || taken)
    ensures DealOf(FateOf(names, k, limit, w))
            == if up && down then Deal(Some(names[0]), Some(names[0]), false)
               else Deal(None, if up && taken then Some(names[0]) else None, true)
  {
  }

  /** One exchange: it decides, or all depends on the rest. */
  lemma {:induction false} Exchange(dialer: Layer, listener: Layer, id: StreamId, names: seq<Name>, k: nat, limit: nat,
                                    w: Setting)
      returns (dialer2: Layer, listener2: Layer)
    requires Meeting(dialer, listener, id, names, k, limit, w)
    ensures Ends(dialer, listener, id, names, k, limit, w)
            || (Meeting(dialer2, listener2, id, names[1..], k + 1, limit, w)
                && (Ends(dialer2, listener2, id, names[1..], k + 1, limit, w) ==>
                      Ends(dialer, listener, id, names, k, limit, w)))
  {
    dialer2, listener2 := dialer, listener;
    if !ProposalFits(names[0], k, w) || !AnswerFits(names[0], k, limit, w) || w.accepts(names[0]) {
      Decided(dialer, listener, id, names, k, limit, w);
    } else {
      dialer2, listener2 := Refusal(dialer, listener, id, names, k, limit, w);
    }
  }

  lemma {:induction false} Refusal(dialer: Layer, listener: Layer, id: StreamId, names: seq<Name>, k: nat, limit: nat,
                                   w: Setting)
      returns (dialer2: Layer, listener2: Layer)
    requires Meeting(dialer, listener, id, names, k, limit, w)
    requires ProposalFits(names[0], k, w) && AnswerFits(names[0], k, limit, w) && !w.accepts(names[0])
    ensures Ends(dialer, listener, id, names, k, limit, w)
            || (Meeting(dialer2, listener2, id, names[1..], k + 1, limit, w)
                && (Ends(dialer2, listener2, id, names[1..], k + 1, limit, w) ==>
                      Ends(dialer, listener, id, names, k, limit, w)))
  {
    dialer2, listener2 := ExchangeRefused(dialer, listener, id, names, k, limit, w);
    var deal := Converse(dialer, listener, id, Spoken(k == 0, Line(names[0])), k, w);
    if names[0] == NA || |names| == 1 {
      FateRefused(names, k, limit, w, deal);
    } else if Ends(dialer2, listener2, id, names[1..], k + 1, limit, w) {
      assert names[1..][0] == names[1];
      FateRefused(names, k, limit, w, deal);
    }
  }

  lemma {:induction false} ConverseEnds(dialer: Layer, listener: Layer, id: StreamId, names: seq<Name>, k: nat,
                                        limit: nat, w: Setting)
    requires Meeting(dialer, listener, id, names, k, limit, w)
    ensures Ends(dialer, listener, id, names, k, limit, w)
    decreases |names|, 1
  {
    var dialer2, listener2 := Exchange(dialer, listener, id, names, k, limit, w);
    if !Ends(dialer, listener, id, names, k, limit, w) {
      EndsLater(dialer2, listener2, id, names, k, limit, w, Ends(dialer, listener, id, names, k, limit, w));
    }
  }

  lemma {:induction false} EndsLater(dialer: Layer, listener: Layer, id: StreamId, names: seq<Name>, k: nat, limit: nat,
                                     w: Setting, ends: bool)
    requires names != [] && Meeting(dialer, listener, id, names[1..], k + 1, limit, w)
    requires Ends(dialer, listener, id, names[1..], k + 1, limit, w) ==> ends
    ensures ends
    decreases |names|, 0
  {
    ConverseEnds(dialer, listener, id, names[1..], k + 1, limit, w);
  }

  // ---------------------------------------------------------------------------
  // When the two ends agree
  // ---------------------------------------------------------------------------

  /** A stream just opened at both ends. */
  lemma {:induction false} OpenedFaces(dialer: Layer, listener: Layer, id: StreamId, names: seq<Name>, limit: nat,
                                       isUtf8: Name -> bool)
    requires names != [] && dialer.readFrom == None && listener.readFrom == None && id !in listener.slots
    ensures Facing(Opened(dialer, id, names, limit), Round(listener, RemoteOpened(id), true, isUtf8).layer, id, names,
                   0, limit)
  {
    var slots := listener.slots[id := Slot([], false, NewIncoming, PROTOCOL_MAX_LEN)];
    assert ParseOne([]) == Wait;
    NoMessage(Layer(slots, None), id, NewIncoming, PROTOCOL_MAX_LEN, [], isUtf8);
  }

  /** Every negotiation, however its bytes are chunked: what each end has in the end follows from the names, the two
      limits and the chunks. */
  lemma {:induction false} NegotiationEnds(dialer: Layer, listener: Layer, id: StreamId, names: seq<Name>, limit: nat,
                                           w: Setting)
    requires names != [] && dialer.readFrom == None && listener.readFrom == None && id !in listener.slots
    requires CutsOnly(w) && Nameable(names, w.isUtf8)
    ensures Negotiated(dialer, listener, id, names, limit, w) == DealOf(FateOf(names, 0, limit, w))
  {
    OpenedFaces(dialer, listener, id, names, limit, w.isUtf8);
    ConverseEnds(Opened(dialer, id, names, limit), Round(listener, RemoteOpened(id), true, w.isUtf8).layer, id, names,
                 0, limit, w);
  }

  /** The first proposal the listener's user accepts. */
  function FirstAccepted(names: seq<Name>, accepts: Name -> bool): Option<Name>
  {
    if names == [] then None else if accepts(names[0]) then Some(names[0]) else FirstAccepted(names[1..], accepts)
  }

  /** A protocol called "na" is proposed, and refused, before any is accepted. */
  predicate RefusesNa(names: seq<Name>, accepts: Name -> bool)
  {
    names != [] && !accepts(names[0]) && (names[0] == NA || RefusesNa(names[1..], accepts))
  }

  /** Up to the first that is accepted, each proposal fits the listener's limit and each answer the dialer's. */
  predicate ExchangesFit(names: seq<Name>, k: nat, limit: nat, w: Setting)
    decreases |names|
  {
    names == []
    || (ProposalFits(names[0], k, w) && AnswerFits(names[0], k, limit, w)
        && (w.accepts(names[0]) || ExchangesFit(names[1..], k + 1, limit, w)))
  }

  lemma {:induction false} FateAgrees(names: seq<Name>, k: nat, limit: nat, w: Setting)
    ensures var f, first := FateOf(names, k, limit, w), FirstAccepted(names, w.accepts);
            && (DealOf(f) == Deal(first, first, false) <==>
                  ExchangesFit(names, k, limit, w) && !RefusesNa(names, w.accepts))
            && (f.Agreed? ==> first == Some(f.name))
            && (f.DialerCuts? && f.taken.Some? ==> first == f.taken)
            && (f.ReadsNa? ==> RefusesNa(names, w.accepts))
    decreases |names|
  {
    if names != [] {
      var up, down := ProposalFits(names[0], k, w), AnswerFits(names[0], k, limit, w);
      if up && down && !w.accepts(names[0]) && names[0] != NA { FateAgrees(names[1..], k + 1, limit, w); }
    }
  }

  /** Both ends have the first acceptable protocol, or none when there is none, and neither cut the stream, if and only
      if no protocol called "na" is refused on the way and every proposal and every answer up to there fits the limit of
      the end that takes it in. */
  lemma {:induction false} NegotiationAgrees(dialer: Layer, listener: Layer, id: StreamId, names: seq<Name>,
                                             limit: nat, w: Setting)
    requires names != [] && dialer.readFrom == None && listener.readFrom == None && id !in listener.slots
    requires CutsOnly(w) && Nameable(names, w.isUtf8)
    ensures var deal, first := Negotiated(dialer, listener, id, names, limit, w), FirstAccepted(names, w.accepts);
            deal == Deal(first, first, false) <==> ExchangesFit(names, 0, limit, w) && !RefusesNa(names, w.accepts)
  {
    NegotiationEnds(dialer, listener, id, names, limit, w);
    FateAgrees(names, 0, limit, w);
  }

  /** They end up with different protocols if and only if the refusal of "na" is read as its acceptance, or the dialer
      cuts the stream on the acceptance. */
  lemma {:induction false} NegotiationDiffers(dialer: Layer, listener: Layer, id: StreamId, names: seq<Name>,
                                              limit: nat, w: Setting)
    requires names != [] && dialer.readFrom == None && listener.readFrom == None && id !in listener.slots
    requires CutsOnly(w) && Nameable(names, w.isUtf8)
    ensures var deal, fate := Negotiated(dialer, listener, id, names, limit, w), FateOf(names, 0, limit, w);
            && (deal.dialer != deal.listener <==> fate.ReadsNa? || (fate.DialerCuts? && fate.taken.Some?))
            && (fate.ReadsNa? ==> RefusesNa(names, w.accepts) && deal == Deal(Some(NA), None, false))
  {
    NegotiationEnds(dialer, listener, id, names, limit, w);
    FateAgrees(names, 0, limit, w);
  }

  // ---------------------------------------------------------------------------
  // What holds for every chunking
  // ---------------------------------------------------------------------------

  lemma {:induction false} LinesAreMessages(first: bool, m: seq<Byte>)
    requires |m| < U64_LIMIT
    ensures Messages(Spoken(first, m)) == Lines(first, m)
  {
    assert Framed(m) + [] == Framed(m) && [] + Framed(m) == Framed(m) && Messages([]) == [];
    ParseFramed(m, []);
    assert Messages(Framed(m)) == [m];
    if first { ParseFramed(MULTISTREAM_HEADER, Framed(m)); }
  }

  /** A message above the limit is cut however it is chunked. */
  lemma {:induction false} TooLong(first: bool, m: seq<Byte>, limit: nat, chunks: seq<seq<Byte>>, i: nat)
    requires Concat(chunks) == Spoken(first, m) && |m| < U64_LIMIT
    requires i < |Lines(first, m)| && limit < |Lines(first, m)[i]|
    ensures !ChunksFit([], limit, chunks)
  {
    LinesAreMessages(first, m);
    assert [] + Concat(chunks) == Concat(chunks);
    OversizedIsCut([], limit, chunks, i);
  }

  /** A name of 1024 bytes or more never becomes a protocol: the listener cuts the stream on it, whatever its user
      would accept and however the proposal is chunked. */
  lemma {:induction false} LongNameIsCut(dialer: Layer, listener: Layer, id: StreamId, names: seq<Name>, limit: nat,
                                         w: Setting)
    requires names != [] && dialer.readFrom == None && listener.readFrom == None && id !in listener.slots
    requires CutsOnly(w) && Nameable(names, w.isUtf8) && |names[0]| >= PROTOCOL_MAX_LEN
    ensures Negotiated(dialer, listener, id, names, limit, w) == Deal(None, None, true)
  {
    NegotiationEnds(dialer, listener, id, names, limit, w);
    var up := Spoken(true, Line(names[0]));
    assert Whole(w, 0, up);
    TooLong(true, Line(names[0]), PROTOCOL_MAX_LEN, w.cuts(0, up), 1);
  }

  /** A dialer whose limit is below the 19 bytes of the header gets no protocol, however the answer is chunked; where
      the proposal is accepted, the listener believes in it. */
  lemma {:induction false} HeaderIsCut(dialer: Layer, listener: Layer, id: StreamId, names: seq<Name>, limit: nat,
                                       w: Setting)
    requires names != [] && dialer.readFrom == None && listener.readFrom == None && id !in listener.slots
    requires CutsOnly(w) && Nameable(names, w.isUtf8) && limit < |MULTISTREAM_HEADER|
    ensures Negotiated(dialer, listener, id, names, limit, w)
            == Deal(None, if ProposalFits(names[0], 0, w) && w.accepts(names[0]) then Some(names[0]) else None, true)
  {
    NegotiationEnds(dialer, listener, id, names, limit, w);
    var down := Spoken(true, Reply(names[0], w));
    assert Whole(w, 1, down);
    TooLong(true, Reply(names[0], w), limit, w.cuts(1, down), 0);
  }

  /** With every proposal and answer, the header before it included, within the limit of the end that takes it in, every
      chunking fits. */
  lemma {:induction false} ShortNamesFit(names: seq<Name>, k: nat, limit: nat, w: Setting)
    requires CutsOnly(w)
    requires forall n :: n in names ==>
               |Spoken(true, Line(n))| <= PROTOCOL_MAX_LEN && |Spoken(true, Reply(n, w))| <= limit
    ensures ExchangesFit(names, k, limit, w)
    decreases |names|
  {
    if names != [] {
      var name, first := names[0], k == 0;
      var up, down := Spoken(first, Line(name)), Spoken(first, Reply(name, w));
      assert name in names && Whole(w, 2 * k, up) && Whole(w, 2 * k + 1, down);
      FewBytesFit([], PROTOCOL_MAX_LEN, w.cuts(2 * k, up));
      FewBytesFit([], limit, w.cuts(2 * k + 1, down));
      ShortNamesFit(names[1..], k + 1, limit, w);
    }
  }

  /** So then the ends agree unless a refused "na" is in the way. */
  lemma {:induction false} ShortNamesAgree(dialer: Layer, listener: Layer, id: StreamId, names: seq<Name>, limit: nat,
                                           w: Setting)
    requires names != [] && dialer.readFrom == None && listener.readFrom == None && id !in listener.slots
    requires CutsOnly(w) && Nameable(names, w.isUtf8) && !RefusesNa(names, w.accepts)
    requires forall n :: n in names ==>
               |Spoken(true, Line(n))| <= PROTOCOL_MAX_LEN && |Spoken(true, Reply(n, w))| <= limit
    ensures var first := FirstAccepted(names, w.accepts);
            Negotiated(dialer, listener, id, names, limit, w) == Deal(first, first, false)
  {
    ShortNamesFit(names, 0, limit, w);
    NegotiationAgrees(dialer, listener, id, names, limit, w);
  }
}
