/** The whole stack on one stream: what is sent at one end is handed over at the other. The two ends are any two
    sessions that run the code of `src/layers/yamux.rs` and hold the stream. This program only dials, so that its own
    streams are odd and its peer's even: no two sessions of it, both started new, come to share a stream, and one of
    the two ends stands for a listening peer that runs the same writer or the same reader. */
module EndToEnd {
  import opened Bytes
  import opened FrameBuffer
  import H = Header
  import S = YamuxStream
  import Flow = YamuxFlow
  import O = YamuxOrder
  import Y = YamuxView
  import D = YamuxDrain
  import R = YamuxRuns
  import G = YamuxReading
  import M = MultistreamView
  import C = MultistreamChunks
  import V = Varint
  import N = Noise

  // ---------------------------------------------------------------------------
  // The bytes of a stream
  // ---------------------------------------------------------------------------

  /** The payload among what a stream carries, in order. */
  function BytesIn(items: seq<S.Item>): seq<Byte>
  {
    if items == [] then [] else (if items[0].Octet? then [items[0].b] else []) + BytesIn(items[1..])
  }

  lemma {:induction false} BytesInSplit(a: seq<S.Item>, b: seq<S.Item>)
    ensures BytesIn(a + b) == BytesIn(a) + BytesIn(b)
  {
    if a == [] {
      assert a + b == b;
    } else {
      assert (a + b)[1..] == a[1..] + b;
      BytesInSplit(a[1..], b);
      Assoc(if a[0].Octet? then [a[0].b] else [], BytesIn(a[1..]), BytesIn(b));
    }
  }

  lemma {:induction false} BytesInOctets(bytes: seq<Byte>)
    ensures BytesIn(S.Octets(bytes)) == bytes
  {
    if bytes != [] {
      BytesInOctets(bytes[1..]);
      assert S.Octets(bytes)[1..] == S.Octets(bytes[1..]);
      assert bytes == [bytes[0]] + bytes[1..];
    }
  }

  lemma {:induction false} BytesInFrames(frames: seq<H.Frame>)
    ensures BytesIn(S.Written(frames)) == G.DataBytes(frames)
  {
    if frames != [] {
      BytesInFrames(frames[1..]);
      BytesInSplit(S.ItemsIn(frames[0]), S.Written(frames[1..]));
      if frames[0].header.frameType.DataFrame? {
        BytesInOctets(frames[0].payload);
      } else {
        NoBytesIn(S.ItemsIn(frames[0])[0]);
      }
    }
  }

  lemma {:induction false} NoBytesIn(item: S.Item)
    requires item.Control?
    ensures BytesIn([item]) == []
  {
  }

  // ---------------------------------------------------------------------------
  // Messages
  // ---------------------------------------------------------------------------

  /** A prefix of the framed messages holds a prefix of them, and all of them if it is the whole. */
  lemma {:induction false} MessagesOfPrefix(arrived: seq<Byte>, later: seq<Byte>, messages: seq<seq<Byte>>)
    requires Sendable(messages) && arrived + later == FramedAll(messages)
    ensures Messages(arrived) <= messages
    ensures later == [] ==> Messages(arrived) == messages
    decreases |messages|
  {
    ParsePrefix(arrived, later, messages);
    var p := ParseOne(arrived);
    if p.Frame? {
      MessagesOfPrefix(p.rest, later, messages[1..]);
      assert messages == [messages[0]] + messages[1..];
      assert Messages(arrived) == [messages[0]] + Messages(p.rest);
    }
  }

  // ---------------------------------------------------------------------------
  // The sending session
  // ---------------------------------------------------------------------------

  /** Everything a stream was asked to carry in a run, what it had queued at first included. */
  ghost function Asked(v: Y.View, events: seq<R.SessionEvent>, id: H.StreamId): seq<S.Item>
    requires id in v.accounts
  {
    S.Queued(v.accounts[id].stream.outbound) + O.AskedIn(id, v.accounts[id], R.LifeOf(v, events, id))
  }

  /** A run of the sending session in which the stream stays in the table, its queue is never discarded, no
      visit of the writer overtakes on it, and, should it be the peer's, the session does not turn it away. */
  ghost predicate SendsInOrder(v: Y.View, events: seq<R.SessionEvent>, v': Y.View, id: H.StreamId)
  {
    && Y.Sound(v) && R.OwnIsWhole(v) && R.Run(v, events, v') && R.StaysIn(v, events, id) && R.Unspoken(v, events, id)
    && O.AllKeepQueue(R.LifeOf(v, events, id)) && !O.MetOvertaking(id, v.accounts[id], R.LifeOf(v, events, id))
  }

  /** The data of the user's sends on the stream that the session accepted, in turn. */
  ghost function AcceptedSends(v: Y.View, events: seq<R.SessionEvent>, id: H.StreamId): seq<seq<Byte>>
    decreases |events|
  {
    if events == [] || !R.Possible(v, events[0]) || id !in v.accounts then []
    else AcceptedBy(v.accounts[id], events[0], id) + AcceptedSends(R.Step(v, events[0]), events[1..], id)
  }

  function AcceptedBy(a: Flow.Account, e: R.SessionEvent, id: H.StreamId): seq<seq<Byte>>
  {
    if e.Call? && e.id == id && e.event.Send? && Flow.QueueData(a.stream, e.event.data).Some? then [e.event.data]
      else []
  }

  /** The multistream layer sends each message as its length and then its data (`send_multistream_data`). */
  function Pieces(messages: seq<seq<Byte>>): seq<seq<Byte>>
  {
    if messages == [] then [] else [V.Encoded(|messages[0]|), messages[0]] + Pieces(messages[1..])
  }

  lemma {:induction false} PiecesAreFramed(messages: seq<seq<Byte>>)
    ensures Concat(Pieces(messages)) == FramedAll(messages)
  {
    if messages != [] {
      var m, rest := messages[0], Pieces(messages[1..]);
      PiecesAreFramed(messages[1..]);
      var two := Pieces(messages);
      assert two[0] == V.Encoded(|m|) && two[1..] == [m] + rest && ([m] + rest)[1..] == rest;
      Assoc(V.Encoded(|m|), m, Concat(rest));
    }
  }

  lemma {:induction false} VisitsAskNothing(id: H.StreamId, a: Flow.Account, visits: seq<Flow.StreamEvent>)
    requires forall e :: e in visits ==> e.WriterVisit?
    ensures O.AskedIn(id, a, visits) == []
    decreases |visits|
  {
    if visits != [] {
      assert visits[0] in visits;
      if Flow.Apply(id, a, visits[0]).Some? { VisitsAskNothing(id, Flow.Apply(id, a, visits[0]).value, visits[1..]); }
    }
  }

  lemma {:induction false} OneAsks(id: H.StreamId, a: Flow.Account, e: Flow.StreamEvent)
    ensures O.AskedIn(id, a, [e]) == O.AskedBy(a, e)
  {
    var rest := [e][1..];
    assert rest == [];
    assert O.AskedBy(a, e) + [] == O.AskedBy(a, e);
  }

  lemma {:induction false} AskedByBytes(a: Flow.Account, e: Flow.StreamEvent)
    ensures BytesIn(O.AskedBy(a, e)) == if e.Send? && Flow.QueueData(a.stream, e.data).Some? then e.data else []
  {
    if e.Send? {
      BytesInOctets(e.data);
    } else if O.AskedBy(a, e) != [] {
      NoBytesIn(O.AskedBy(a, e)[0]);
    }
  }

  /** Of what one event makes the stream carry, only an accepted send has bytes. */
  lemma {:induction false} StepAsks(v: Y.View, e: R.SessionEvent, id: H.StreamId)
    requires R.Possible(v, e) && id in v.accounts
    ensures BytesIn(O.AskedIn(id, v.accounts[id], R.Does(v, e, id))) == Concat(AcceptedBy(v.accounts[id], e, id))
  {
    var a, does := v.accounts[id], R.Does(v, e, id);
    if e.Drain? {
      VisitsAskNothing(id, a, does);
    } else if does != [] {
      assert does == [does[0]];
      OneAsks(id, a, does[0]);
      AskedByBytes(a, does[0]);
      OnePiece(does[0]);
    }
  }

  lemma {:induction false} OnePiece(e: Flow.StreamEvent)
    ensures e.Send? ==> Concat([e.data]) == e.data
  {
    if e.Send? {
      assert [e.data][1..] == [];
      assert e.data + [] == e.data;
    }
  }

  lemma {:induction false} ConcatSplit(a: seq<seq<Byte>>, b: seq<seq<Byte>>)
    ensures Concat(a + b) == Concat(a) + Concat(b)
  {
    if a == [] {
      assert a + b == b;
    } else {
      assert (a + b)[1..] == a[1..] + b;
      ConcatSplit(a[1..], b);
      Assoc(a[0], Concat(a[1..]), Concat(b));
    }
  }

  /** Over every run, whatever lies between the sends: the bytes a stream was asked to carry are those of the accepted
      sends, in turn. */
  lemma {:induction false} SendsAreAsked(v: Y.View, events: seq<R.SessionEvent>, v': Y.View, id: H.StreamId)
    requires Y.Sound(v) && R.Run(v, events, v') && R.StaysIn(v, events, id)
    ensures BytesIn(O.AskedIn(id, v.accounts[id], R.LifeOf(v, events, id))) == Concat(AcceptedSends(v, events, id))
    decreases |events|
  {
    if events != [] {
      var a, e, w := v.accounts[id], events[0], R.Step(v, events[0]);
      assert id in w.accounts;
      StepAsks(v, e, id);
      R.StepProjects(v, e, id);
      R.StepKeepsSound(v, e);
      SendsAreAsked(w, events[1..], v', id);
      var does, later := R.Does(v, e, id), R.LifeOf(w, events[1..], id);
      R.LifeAppend(id, a, does, later);
      BytesInSplit(O.AskedIn(id, a, does), O.AskedIn(id, w.accounts[id], later));
      ConcatSplit(AcceptedBy(a, e, id), AcceptedSends(w, events[1..], id));
    }
  }

  lemma {:induction false} WireCarriesAsked(v: Y.View, events: seq<R.SessionEvent>, v': Y.View, id: H.StreamId)
    requires SendsInOrder(v, events, v', id)
    ensures id in v'.accounts
    ensures S.Written(D.ForStream(R.WireFrames(v, events), id)) + S.Queued(v'.accounts[id].stream.outbound)
            == Asked(v, events, id)
  {
    R.WireOfStream(v, events, v', id);
    R.RunProjects(v, events, v', id);
    LifeCarriesAsked(id, v.accounts[id], R.LifeOf(v, events, id));
  }

  lemma {:induction false} LifeCarriesAsked(id: H.StreamId, a: Flow.Account, life: seq<Flow.StreamEvent>)
    requires Flow.Life(id, a, life).Some? && O.AllKeepQueue(life) && !O.MetOvertaking(id, a, life)
    ensures S.Written(O.WrittenIn(id, a, life)) + S.Queued(Flow.Life(id, a, life).value.stream.outbound)
            == S.Queued(a.stream.outbound) + O.AskedIn(id, a, life)
  {
    var asked, sent := S.Queued(a.stream.outbound), S.Written(O.WrittenIn(id, a, life));
    assert [] + asked == asked && [] + sent == sent;
    O.LifeKeepsOrder(id, a, life, [], asked);
  }

  /** The bytes on the wire for a stream, then those still queued, are those it was asked to carry. */
  lemma {:induction false} WireCarriesBytes(v: Y.View, events: seq<R.SessionEvent>, v': Y.View, id: H.StreamId)
    requires SendsInOrder(v, events, v', id)
    ensures id in v'.accounts
    ensures G.DataBytes(D.ForStream(R.WireFrames(v, events), id)) + BytesIn(S.Queued(v'.accounts[id].stream.outbound))
            == BytesIn(Asked(v, events, id))
  {
    WireCarriesAsked(v, events, v', id);
    var frames := D.ForStream(R.WireFrames(v, events), id);
    BytesInFrames(frames);
    BytesInSplit(S.Written(frames), S.Queued(v'.accounts[id].stream.outbound));
  }

  predicate Ends(i: S.Item) { i.Control? && (i.msg.CloseMsg? || i.msg.ResetMsg? || i.msg.OpenMsg?) }

  /** No byte is asked for behind a close. */
  predicate ClosesLast(items: seq<S.Item>)
  {
    items == [] || ((Ends(items[0]) ==> BytesIn(items) == []) && ClosesLast(items[1..]))
  }

  lemma {:induction false} ClosesLastSuffix(a: seq<S.Item>, b: seq<S.Item>)
    requires ClosesLast(a + b)
    ensures ClosesLast(b)
  {
    if a == [] {
      assert a + b == b;
    } else {
      assert (a + b)[1..] == a[1..] + b;
      ClosesLastSuffix(a[1..], b);
    }
  }

  /** What a stream's frames on the wire look like: made by the writer. */
  ghost predicate AllMade(frames: seq<H.Frame>) { forall f :: f in frames ==> S.Made(f) }

  /** Frames that carry a stream's items in order, none after a close, are plain until the last payload. */
  lemma {:induction false} OrderTalksPlainly(frames: seq<H.Frame>, id: H.StreamId, rest: seq<S.Item>)
    requires AllMade(D.ForStream(frames, id)) && ClosesLast(S.Written(D.ForStream(frames, id)) + rest)
    ensures G.PlainTalk(frames, id)
  {
    if frames != [] {
      var f, tail := frames[0], frames[1..];
      var own, later := D.ForStream(frames, id), D.ForStream(tail, id);
      if f.header.streamId != id {
        assert [] + later == later;
        OrderTalksPlainly(tail, id, rest);
      } else {
        assert own[0] == f && own[1..] == later;
        var items, after := S.ItemsIn(f), S.Written(later) + rest;
        Assoc(items, S.Written(later), rest);
        assert S.Made(f);
        ClosesLastSuffix(items, after);
        OrderTalksPlainly(tail, id, rest);
        if !G.Plain(f) { ClosingFrame(f, own, rest); }
      }
    }
  }

  lemma {:induction false} ClosingFrame(f: H.Frame, own: seq<H.Frame>, rest: seq<S.Item>)
    requires own != [] && own[0] == f && S.Made(f) && !G.Plain(f) && ClosesLast(S.Written(own) + rest)
    ensures G.DataBytes(own) == []
  {
    var items := S.Written(own) + rest;
    assert items[0] == S.ItemsIn(f)[0] && Ends(items[0]);
    BytesInFrames(own);
    BytesInSplit(S.Written(own), rest);
  }

  lemma {:induction false} ForStreamMade(frames: seq<H.Frame>, id: H.StreamId)
    requires AllMade(frames)
    ensures AllMade(D.ForStream(frames, id))
  {
    if frames != [] { ForStreamMade(frames[1..], id); }
  }

  /** A sender that keeps a stream's order and is asked for nothing behind its close talks plainly on it, in any
      part of what it sends. */
  lemma {:induction false} SenderTalksPlainly(v: Y.View, events: seq<R.SessionEvent>, v': Y.View, id: H.StreamId,
                                              frames: seq<H.Frame>)
    requires SendsInOrder(v, events, v', id) && ClosesLast(Asked(v, events, id)) && frames <= R.WireFrames(v, events)
    ensures G.PlainTalk(frames, id)
  {
    var all := R.WireFrames(v, events);
    var tail := all[|frames|..];
    assert all == frames + tail;
    D.ForStreamAppend(frames, tail, id);
    R.WireOfStream(v, events, v', id);
    R.LogsMade(v, events, v');
    ForStreamMade(R.Logs(v, events), id);
    assert forall f :: f in D.ForStream(frames, id) ==> f in D.ForStream(all, id);
    WireCarriesAsked(v, events, v', id);
    var left := S.Queued(v'.accounts[id].stream.outbound);
    S.WrittenAppend(D.ForStream(frames, id), D.ForStream(tail, id));
    Assoc(S.Written(D.ForStream(frames, id)), S.Written(D.ForStream(tail, id)), left);
    OrderTalksPlainly(frames, id, S.Written(D.ForStream(tail, id)) + left);
  }

  // ---------------------------------------------------------------------------
  // From the receiving session to its multistream layer
  // ---------------------------------------------------------------------------

  function InputOf(n: Y.Notice): M.Input
  {
    match n
    case Opened(id) => M.RemoteOpened(id)
    case Got(id, payload) => M.RemoteData(id, payload)
    case Closed(id) => M.RemoteClosed(id)
  }

  function InputsOf(notices: seq<Y.Notice>): seq<M.Input>
  {
    if notices == [] then [] else [InputOf(notices[0])] + InputsOf(notices[1..])
  }

  /** The reports a run of the layer takes from the session below. */
  function Taken(l: M.Layer, events: seq<M.Event>, isUtf8: M.Name -> bool): seq<M.Input>
    decreases |events|
  {
    if events == [] then []
    else (if events[0].Drive? && l.readFrom == None then [events[0].input] else [])
         + Taken(M.Happens(l, events[0], isUtf8).layer, events[1..], isUtf8)
  }

  function InputBytes(inputs: seq<M.Input>, id: H.StreamId): seq<Byte>
  {
    if inputs == [] then []
    else (if inputs[0].RemoteData? && inputs[0].id == id then inputs[0].bytes else []) + InputBytes(inputs[1..], id)
  }

  lemma {:induction false} TakenBytes(l: M.Layer, events: seq<M.Event>, isUtf8: M.Name -> bool, id: H.StreamId)
    ensures M.ReceivedOn(l, events, isUtf8, id) == InputBytes(Taken(l, events, isUtf8), id)
    decreases |events|
  {
    if events != [] {
      var next := M.Happens(l, events[0], isUtf8).layer;
      var rest := Taken(next, events[1..], isUtf8);
      TakenBytes(next, events[1..], isUtf8, id);
      if events[0].Drive? && l.readFrom == None {
        assert ([events[0].input] + rest)[1..] == rest;
      } else {
        assert [] + rest == rest;
      }
    }
  }

  lemma {:induction false} NoticeBytes(notices: seq<Y.Notice>, id: H.StreamId)
    ensures InputBytes(InputsOf(notices), id) == G.GotBytes(notices, id)
  {
    if notices != [] {
      NoticeBytes(notices[1..], id);
      assert InputsOf(notices)[1..] == InputsOf(notices[1..]);
    }
  }

  // ---------------------------------------------------------------------------
  // The whole stack
  // ---------------------------------------------------------------------------

  /** The sending end: a run of its session, any number of drains, calls and incoming frames long; the messages sent
      before it of which the receiver was not handed all, and those sent in it. */
  datatype Sending = Sending(
    id: H.StreamId, earlier: seq<seq<Byte>>, messages: seq<seq<Byte>>,
    view: Y.View, events: seq<R.SessionEvent>, after: Y.View)

  /** The receiving end: a run of its session, and a run of the multistream layer above it. */
  datatype Receiving = Receiving(
    view: Y.View, events: seq<R.SessionEvent>, after: Y.View,
    layer: M.Layer, drives: seq<M.Event>, isUtf8: M.Name -> bool)

  /** What the receiving session had to report in its run. */
  function News(y: Receiving): seq<Y.Notice>
  {
    if |y.view.notices| <= |y.after.notices| then y.after.notices[|y.view.notices|..] else []
  }

  /** At first the receiver has pending, and the sender has queued, what is left of the earlier messages; the sends that
      the session accepts in the run are the pieces of the new messages. */
  ghost predicate Sent(x: Sending, pending: seq<Byte>)
  {
    && SendsInOrder(x.view, x.events, x.after, x.id) && ClosesLast(Asked(x.view, x.events, x.id))
    && Sendable(x.earlier) && pending + BytesIn(S.Queued(x.view.accounts[x.id].stream.outbound)) == FramedAll(x.earlier)
    && Sendable(x.messages) && AcceptedSends(x.view, x.events, x.id) == Pieces(x.messages)
  }

  lemma {:induction false} FramedAllAppend(a: seq<seq<Byte>>, b: seq<seq<Byte>>)
    ensures FramedAll(a + b) == FramedAll(a) + FramedAll(b)
  {
    if a == [] {
      assert a + b == b;
    } else {
      assert (a + b)[1..] == a[1..] + b;
      FramedAllAppend(a[1..], b);
      Assoc(Framed(a[0]), FramedAll(a[1..]), FramedAll(b));
    }
  }

  /** What the receiver has pending and what the sender is asked to carry are the framed messages. */
  lemma {:induction false} SentIsFramed(x: Sending, pending: seq<Byte>)
    requires Sent(x, pending)
    ensures pending + BytesIn(Asked(x.view, x.events, x.id)) == FramedAll(x.earlier + x.messages)
  {
    var a, life := x.view.accounts[x.id], R.LifeOf(x.view, x.events, x.id);
    SendsAreAsked(x.view, x.events, x.after, x.id);
    PiecesAreFramed(x.messages);
    BytesInSplit(S.Queued(a.stream.outbound), O.AskedIn(x.id, a, life));
    Assoc(pending, BytesIn(S.Queued(a.stream.outbound)), FramedAll(x.messages));
    FramedAllAppend(x.earlier, x.messages);
  }

  /** The wire's bytes, written to the encrypted transport in any pieces, of which some have arrived. */
  ghost predicate Carried(x: Sending, cipher: N.Cipher, writes: seq<seq<Byte>>, arrived: seq<Byte>, later: seq<Byte>)
  {
    && N.Lawful(cipher) && Concat(writes) == R.WireBytes(x.view, x.events)
    && arrived + later == N.FramedAll(N.Sealed(cipher, 0, N.AllChunks(writes)))
  }

  /** The receiving session, on which the stream is open, takes in frames of what has arrived. */
  ghost predicate Read(y: Receiving, id: H.StreamId, cipher: N.Cipher, arrived: seq<Byte>)
  {
    && SessionReads(y, id) && G.FramesIn(y.events) <= H.ParseFrames(N.Plaintext(cipher, 0, arrived))
  }

  /** The layer above, on which the stream is established, takes the first `n` of its reports; meanwhile the stream is
      not closed, reset or opened anew there, and each chunk of it fits the stream's limit when it is taken. */
  ghost predicate TakenUp(y: Receiving, id: H.StreamId, n: nat)
  {
    && M.Drained(y.layer) && M.Established(y.layer, id) && C.Undisturbed(y.layer, y.drives, y.isUtf8, id)
    && C.ChunksFit(C.Tail(y.layer.slots[id].pending), y.layer.slots[id].maxBufferSize,
                   C.ChunksIn(y.layer, y.drives, y.isUtf8, id))
    && n <= |News(y)| && Taken(y.layer, y.drives, y.isUtf8) == InputsOf(News(y)[..n])
  }

  lemma {:induction false} ArrivedFrames(x: Sending, cipher: N.Cipher, writes: seq<seq<Byte>>, arrived: seq<Byte>,
                                         later: seq<Byte>)
    requires Carried(x, cipher, writes, arrived, later) && R.OwnIsWhole(x.view) && R.Run(x.view, x.events, x.after)
    ensures H.ParseFrames(N.Plaintext(cipher, 0, arrived)) <= R.WireFrames(x.view, x.events)
  {
    N.WritesCarryPlaintext(cipher, writes, arrived, later);
    var plain, all := N.Plaintext(cipher, 0, arrived), R.WireBytes(x.view, x.events);
    assert all == plain + all[|plain|..];
    H.ParseFramesExtends(plain, all[|plain|..]);
    R.WireParses(x.view, x.events, x.after);
  }

  lemma {:induction false} Cancel<T>(a: seq<T>, b: seq<T>, c: seq<T>)
    requires a + b == a + c
    ensures b == c
  {
    assert (a + b)[|a|..] == b && (a + c)[|a|..] == c;
  }

  /** The receiving end as far as the session goes. */
  ghost predicate SessionReads(y: Receiving, id: H.StreamId)
  {
    Y.Sound(y.view) && R.Run(y.view, y.events, y.after) && G.Open(y.view, id) && G.NoResetOf(y.events, id)
  }

  /** The session's news of the stream are the payload of the frames it took in. */
  lemma {:induction false} SessionReports(y: Receiving, id: H.StreamId)
    requires SessionReads(y, id) && G.PlainTalk(G.FramesIn(y.events), id)
    ensures G.GotBytes(News(y), id) == G.DataBytes(D.ForStream(G.FramesIn(y.events), id))
  {
    G.OpenIsHeard(y.view, y.events, y.after, id);
    G.HeardIsReported(y.view, y.events, y.after, id);
    R.NoticesGrow(y.view, y.events, y.after);
    NewsOnly(y, id, G.DataBytes(D.ForStream(G.FramesIn(y.events), id)));
  }

  lemma {:induction false} NewsOnly(y: Receiving, id: H.StreamId, bytes: seq<Byte>)
    requires y.view.notices <= y.after.notices
    requires G.GotBytes(y.after.notices, id) == G.GotBytes(y.view.notices, id) + bytes
    ensures G.GotBytes(News(y), id) == bytes
  {
    assert y.after.notices == y.view.notices + News(y);
    G.GotBytesAppend(y.view.notices, News(y), id);
    Cancel(G.GotBytes(y.view.notices, id), G.GotBytes(News(y), id), bytes);
  }

  /** What the layer received of the stream, and then what of the news it has not taken yet, are the news. */
  lemma {:induction false} LayerTakes(y: Receiving, id: H.StreamId, n: nat)
    requires TakenUp(y, id, n)
    ensures M.ReceivedOn(y.layer, y.drives, y.isUtf8, id) + G.GotBytes(News(y)[n..], id) == G.GotBytes(News(y), id)
  {
    var news := News(y);
    assert news == news[..n] + news[n..];
    G.GotBytesAppend(news[..n], news[n..], id);
    TakenBytes(y.layer, y.drives, y.isUtf8, id);
    NoticeBytes(news[..n], id);
  }

  /** What of the stream's bytes has not reached the receiving layer: still in the news, still on the way, or
      still queued. */
  ghost function Underway(x: Sending, y: Receiving, n: nat): seq<Byte>
    requires n <= |News(y)| && G.FramesIn(y.events) <= R.WireFrames(x.view, x.events) && x.id in x.after.accounts
  {
    G.GotBytes(News(y)[n..], x.id)
    + G.DataBytes(D.ForStream(R.WireFrames(x.view, x.events)[|G.FramesIn(y.events)|..], x.id))
    + BytesIn(S.Queued(x.after.accounts[x.id].stream.outbound))
  }

  lemma {:induction false} AddUp(received: seq<Byte>, news: seq<Byte>, data: seq<Byte>, tail: seq<Byte>,
                                 wire: seq<Byte>, queued: seq<Byte>)
    requires received + news == data && wire == data + tail
    ensures received + (news + tail + queued) == wire + queued
  {
  }

  /** What was received so far and what the session took in after that, from the reports alone. */
  lemma {:induction false} TakenIn(x: Sending, y: Receiving, n: nat)
    requires SendsInOrder(x.view, x.events, x.after, x.id) && ClosesLast(Asked(x.view, x.events, x.id))
    requires SessionReads(y, x.id) && G.FramesIn(y.events) <= R.WireFrames(x.view, x.events) && TakenUp(y, x.id, n)
    ensures M.ReceivedOn(y.layer, y.drives, y.isUtf8, x.id) + G.GotBytes(News(y)[n..], x.id)
            == G.DataBytes(D.ForStream(G.FramesIn(y.events), x.id))
  {
    SenderTalksPlainly(x.view, x.events, x.after, x.id, G.FramesIn(y.events));
    SessionReports(y, x.id);
    LayerTakes(y, x.id, n);
  }

  lemma {:induction false} BytesAddUp(x: Sending, y: Receiving, n: nat)
    requires SendsInOrder(x.view, x.events, x.after, x.id) && ClosesLast(Asked(x.view, x.events, x.id))
    requires SessionReads(y, x.id) && G.FramesIn(y.events) <= R.WireFrames(x.view, x.events) && TakenUp(y, x.id, n)
    ensures x.id in x.after.accounts
    ensures M.ReceivedOn(y.layer, y.drives, y.isUtf8, x.id) + Underway(x, y, n)
            == BytesIn(Asked(x.view, x.events, x.id))
  {
    TakenIn(x, y, n);
    WireCarriesBytes(x.view, x.events, x.after, x.id);
    var head, all := G.FramesIn(y.events), R.WireFrames(x.view, x.events);
    assert all[..|head|] == head;
    WireSplits(all, |head|, x.id);
    var received, news := M.ReceivedOn(y.layer, y.drives, y.isUtf8, x.id), G.GotBytes(News(y)[n..], x.id);
    var data, tail := G.DataBytes(D.ForStream(head, x.id)), G.DataBytes(D.ForStream(all[|head|..], x.id));
    AddUp(received, news, data, tail, G.DataBytes(D.ForStream(all, x.id)),
          BytesIn(S.Queued(x.after.accounts[x.id].stream.outbound)));
  }

  lemma {:induction false} WireSplits(all: seq<H.Frame>, k: nat, id: H.StreamId)
    requires k <= |all|
    ensures G.DataBytes(D.ForStream(all, id))
            == G.DataBytes(D.ForStream(all[..k], id)) + G.DataBytes(D.ForStream(all[k..], id))
  {
    assert all == all[..k] + all[k..];
    D.ForStreamAppend(all[..k], all[k..], id);
    G.DataBytesAppend(D.ForStream(all[..k], id), D.ForStream(all[k..], id));
  }

  /** Framed messages in chunks that fit do not cost the stream. */
  lemma {:induction false} FitsSoStays(y: Receiving, id: H.StreamId, n: nat, later: seq<Byte>, messages: seq<seq<Byte>>)
    requires TakenUp(y, id, n) && Sendable(messages)
    requires y.layer.slots[id].pending + M.ReceivedOn(y.layer, y.drives, y.isUtf8, id) + later == FramedAll(messages)
    ensures M.StaysEstablished(y.layer, y.drives, y.isUtf8, id)
  {
    var pending, chunks := y.layer.slots[id].pending, C.ChunksIn(y.layer, y.drives, y.isUtf8, id);
    C.ChunksAreReceived(y.layer, y.drives, y.isUtf8, id);
    Assoc(pending, Concat(chunks), later);
    var j := C.EndsIn(pending, Concat(chunks) + later, messages);
    Assoc(C.Tail(pending), Concat(chunks), later);
    C.FramedNeverBad(C.Tail(pending), chunks, later, messages[j..]);
    C.SurvivesExactlyWhenChunksFit(y.layer, y.drives, y.isUtf8, id);
  }

  /** What the layer is handed of messages of which it received some first bytes. */
  lemma {:induction false} LayerHandsOver(y: Receiving, id: H.StreamId, n: nat, later: seq<Byte>,
                                          messages: seq<seq<Byte>>)
    requires TakenUp(y, id, n) && Sendable(messages)
    requires y.layer.slots[id].pending + M.ReceivedOn(y.layer, y.drives, y.isUtf8, id) + later == FramedAll(messages)
    ensures var got := M.HandedOver(y.layer, y.drives, y.isUtf8, id);
            && got <= messages
            && (later == [] && M.Final(y.layer, y.drives, y.isUtf8).readFrom == None ==> got == messages)
  {
    FitsSoStays(y, id, n, later, messages);
    MessagesOfPrefix(y.layer.slots[id].pending + M.ReceivedOn(y.layer, y.drives, y.isUtf8, id), later, messages);
    M.EveryMessageHandedOver(y.layer, y.drives, y.isUtf8, id);
  }

  /** Messages sent on a stream over any run of calls, drains and window updates, interleaved with any other
      streams' traffic, sealed in any pieces, arrived up to any point, taken in by the peer's session among
      anything else it does, and reported to its multistream layer in any chunks that fit: the peer is handed a prefix
      of the same messages, and exactly those messages once nothing is underway and the layer has turned back
      to its input. */
  lemma {:induction false} MessagesArrive(x: Sending, cipher: N.Cipher, writes: seq<seq<Byte>>, arrived: seq<Byte>,
                                          later: seq<Byte>, y: Receiving, n: nat)
    requires x.id in y.layer.slots
    ensures Sent(x, y.layer.slots[x.id].pending) && Carried(x, cipher, writes, arrived, later)
            && Read(y, x.id, cipher, arrived) && TakenUp(y, x.id, n) ==>
              var got, all := M.HandedOver(y.layer, y.drives, y.isUtf8, x.id), x.earlier + x.messages;
              && got <= all
              && G.FramesIn(y.events) <= R.WireFrames(x.view, x.events) && x.id in x.after.accounts
              && (Underway(x, y, n) == [] && M.Final(y.layer, y.drives, y.isUtf8).readFrom == None ==> got == all)
  {
    var pending := y.layer.slots[x.id].pending;
    if Sent(x, pending) && Carried(x, cipher, writes, arrived, later) && Read(y, x.id, cipher, arrived)
      && TakenUp(y, x.id, n) {
      ArrivedFrames(x, cipher, writes, arrived, later);
      BytesAddUp(x, y, n);
      SentIsFramed(x, pending);
      Assoc(pending, M.ReceivedOn(y.layer, y.drives, y.isUtf8, x.id), Underway(x, y, n));
      LayerHandsOver(y, x.id, n, Underway(x, y, n), x.earlier + x.messages);
    }
  }
}
