/** A run of a connection in which a notification is handed over before its subscription is said to be open
    (`src/connection.rs`). */
module ConnectionHalfOpen {
  import opened Bytes
  import opened ConnectionView
  import opened ConnectionRuns
  import opened ConnectionSafety
  import F = FrameBuffer
  import V = Varint
  import M = MultistreamView

  /** Where the run stands: the stream that the peer opened, its slot, and the sides of the one subscription. */
  datatype Stage = Stage(next: StreamId, ours: Side, theirs: Side, slot: M.Slot, reading: bool)

  const PEER: StreamId := 2

  predicate Stands(c: Conn, s: Subscription, t: Stage)
  {
    && c.inflight == map[] && c.incoming == map[] && c.subs == [s.(ours := t.ours, theirs := t.theirs)]
    && c.nextBuf == [] && !c.finished && c.delivered == [] && c.net.nextId == t.next <= 3
    && PEER in c.net.layer.slots && c.net.layer.slots[PEER] == t.slot
    && c.net.layer.readFrom == (if t.reading then Some(PEER) else None)
    && !On(t.ours, PEER)
  }

  function Turn(input: M.Input): Event { Next(Drive([], input, false, true, true)) }

  lemma {:induction false} RunSnoc(g: Config, c: Conn, events: seq<Event>, c': Conn, e: Event)
    requires Run(g, c, events, c') && Possible(c', e)
    ensures Run(g, c, events + [e], Step(g, c', e))
    decreases |events|
  {
    if events == [] {
      assert events + [e] == [e] && [e][1..] == [];
    } else {
      assert (events + [e])[1..] == events[1..] + [e];
      RunSnoc(g, Step(g, c, events[0]), events[1..], c', e);
    }
  }

  // ---------------------------------------------------------------------------
  // Single rounds
  // ---------------------------------------------------------------------------

  predicate Empty(slot: M.Slot) { slot.pending == [] && !slot.failed }

  /** A whole frame on a stream with nothing pending. */
  lemma {:induction false} FrameRound(l: M.Layer, m: Payload, isUtf8: M.Name -> bool)
    requires l.readFrom == None && PEER in l.slots && Empty(l.slots[PEER])
    requires |F.Framed(m)| <= l.slots[PEER].maxBufferSize && |m| < U64_LIMIT
    requires M.React(l.slots[PEER].state, m, isUtf8).next.Some?
    ensures var o := M.Round(l, M.RemoteData(PEER, F.Framed(m)), true, isUtf8);
            var r := M.React(l.slots[PEER].state, m, isUtf8);
            && o.layer == M.Layer(l.slots[PEER := l.slots[PEER].(state := r.next.value)], Some(PEER))
            && o.turn == M.TurnFor(PEER, r, true)
  {
    var s, bytes := l.slots[PEER], F.Framed(m);
    assert [] + bytes == bytes == bytes + [];
    F.ParseFramed(m, []);
    assert F.Unread([]) == [];
    M.FedIsPulled(l, PEER, bytes, true, isUtf8);
    var r, fed := M.React(s.state, m, isUtf8), l.slots[PEER := s.(pending := bytes)];
    assert fed[PEER := s.(state := r.next.value)] == l.slots[PEER := s.(state := r.next.value)];
  }

  lemma {:induction false} IdleRound(l: M.Layer, input: M.Input, isUtf8: M.Name -> bool)
    requires l.readFrom == Some(PEER) && PEER in l.slots && Empty(l.slots[PEER])
    ensures M.Round(l, input, true, isUtf8) == M.Outcome(M.Layer(l.slots, None), [], M.Again)
  {
    assert F.ParseOne([]) == F.Wait;
    assert l.slots[PEER := l.slots[PEER]] == l.slots;
  }

  // ---------------------------------------------------------------------------
  // Single turns
  // ---------------------------------------------------------------------------

  lemma {:induction false} TurnReacts(g: Config, c: Conn, s: Subscription, t: Stage, input: M.Input)
    requires Stands(c, s, t) && Possible(c, Turn(input))
    ensures var o := M.Round(c.net.layer, input, true, g.isUtf8);
            Step(g, c, Turn(input)) == Reacted(g, AfterRound(c, o), o.turn, true)
  {
  }

  /** The turn that finds nothing more in the buffer; it takes no report. */
  lemma {:induction false} IdleTurn(g: Config, c: Conn, s: Subscription, t: Stage)
    requires Stands(c, s, t) && t.reading && Empty(t.slot)
    ensures Stands(Step(g, c, Turn(M.RemoteClosed(PEER))), s, t.(reading := false))
  {
    IdleRound(c.net.layer, M.RemoteClosed(PEER), g.isUtf8);
  }

  lemma {:induction false} OpeningTurn(g: Config, c: Conn, s: Subscription)
    requires Initial(c) && c.subs == [s]
    ensures Stands(Step(g, c, Turn(M.RemoteOpened(PEER))), s,
                   Stage(1, Closed, Closed, M.Slot([], false, M.NewIncoming, M.PROTOCOL_MAX_LEN), false))
  {
    assert F.ParseOne([]) == F.Wait;
    assert c.subs[0] == s;
    assert s == s.(ours := Closed, theirs := Closed);
  }

  lemma {:induction false} HeaderTurn(g: Config, c: Conn, s: Subscription, t: Stage)
    requires Stands(c, s, t) && !t.reading && Empty(t.slot) && t.slot.state == M.NewIncoming
    requires t.slot.maxBufferSize == M.PROTOCOL_MAX_LEN
    ensures Stands(Step(g, c, Turn(M.RemoteData(PEER, F.Framed(M.MULTISTREAM_HEADER)))), s,
                   t.(slot := t.slot.(state := M.NewIncomingProtocol), reading := true))
  {
    V.EncodedFitsU64(|M.MULTISTREAM_HEADER|);
    FrameRound(c.net.layer, M.MULTISTREAM_HEADER, g.isUtf8);
  }

  lemma {:induction false} ProposalTurn(g: Config, c: Conn, s: Subscription, t: Stage)
    requires Stands(c, s, t) && !t.reading && Empty(t.slot) && t.slot.state == M.NewIncomingProtocol && t.next == 1
    requires t.ours == t.theirs == Closed && s.allowInbound && g.isUtf8(s.name)
    requires |Line(s.name)| < U64_LIMIT && |F.Framed(Line(s.name))| <= t.slot.maxBufferSize
    ensures Stands(Step(g, c, Turn(M.RemoteData(PEER, F.Framed(Line(s.name))))), s,
                   Stage(3, Handshake(1), Handshake(PEER), M.Slot([], false, M.Open, s.maxSize), true))
  {
    var o := M.Round(c.net.layer, M.RemoteData(PEER, F.Framed(Line(s.name))), true, g.isUtf8);
    assert Line(s.name)[..|Line(s.name)| - 1] == s.name;
    FrameRound(c.net.layer, Line(s.name), g.isUtf8);
    TurnReacts(g, c, s, t, M.RemoteData(PEER, F.Framed(Line(s.name))));
    ProposalTaken(g, AfterRound(c, o), s, t.(slot := t.slot.(state := M.WaitingForAccept(s.name)), reading := true));
  }

  lemma {:induction false} ProposalTaken(g: Config, c: Conn, s: Subscription, t: Stage)
    requires Stands(c, s, t) && t.next == 1 && t.ours == t.theirs == Closed && s.allowInbound
    requires Empty(t.slot) && t.slot.state == M.WaitingForAccept(s.name)
    ensures var e := Handle(g, c, M.Output(PEER, M.IncomingProtocol(s.name)), true);
            && !e.failed && e.said == None
            && Stands(e.conn, s,
                      Stage(3, Handshake(1), Handshake(PEER), M.Slot([], false, M.Open, s.maxSize), t.reading))
  {
    var o := M.Output(PEER, M.IncomingProtocol(s.name));
    assert OutboundOf(c.subs, PEER) == 1 && InboundOf(c.subs, o) == 0 by { assert Proposes(o, c.subs[0].name); }
  }

  predicate DataFits(t: Stage, m: Payload) { |m| < U64_LIMIT && |F.Framed(m)| <= t.slot.maxBufferSize }

  /** A message on the open stream. */
  lemma {:induction false} DataRound(g: Config, c: Conn, s: Subscription, t: Stage, m: Payload)
    requires Stands(c, s, t) && !t.reading && Empty(t.slot) && t.slot.state == M.Open && DataFits(t, m)
    ensures var o := M.Round(c.net.layer, M.RemoteData(PEER, F.Framed(m)), true, g.isUtf8);
            Stands(AfterRound(c, o), s, t.(reading := true)) && o.turn == M.Emit(M.Output(PEER, M.Data(m)))
  {
    FrameRound(c.net.layer, m, g.isUtf8);
  }

  lemma {:induction false} HandshakeTurn(g: Config, c: Conn, s: Subscription, t: Stage, m: Payload)
    requires Stands(c, s, t) && !t.reading && Empty(t.slot) && t.slot.state == M.Open && DataFits(t, m)
    requires t.ours == Handshake(1) && t.theirs == Handshake(PEER) && g.validates(s.protocol, m)
    ensures Stands(Step(g, c, Turn(M.RemoteData(PEER, F.Framed(m)))), s, t.(theirs := Open(PEER), reading := true))
  {
    DataRound(g, c, s, t, m);
    var o := M.Round(c.net.layer, M.RemoteData(PEER, F.Framed(m)), true, g.isUtf8);
    TurnReacts(g, c, s, t, M.RemoteData(PEER, F.Framed(m)));
    HandshakeTaken(g, AfterRound(c, o), s, t.(reading := true), m);
  }

  lemma {:induction false} HandshakeTaken(g: Config, c: Conn, s: Subscription, t: Stage, m: Payload)
    requires Stands(c, s, t) && t.slot.state == M.Open
    requires t.ours == Handshake(1) && t.theirs == Handshake(PEER) && g.validates(s.protocol, m)
    ensures var e := Handle(g, c, M.Output(PEER, M.Data(m)), true);
            !e.failed && e.said == None && Stands(e.conn, s, t.(theirs := Open(PEER)))
  {
    assert OutboundOf(c.subs, PEER) == 1 && InboundOf(c.subs, M.Output(PEER, M.Data(m))) == 0 by {
      assert On(c.subs[0].theirs, PEER);
    }
  }

  lemma {:induction false} ValueTurn(g: Config, c: Conn, s: Subscription, t: Stage, m: Payload)
    requires Stands(c, s, t) && !t.reading && Empty(t.slot) && t.slot.state == M.Open && DataFits(t, m)
    requires t.ours == Handshake(1) && t.theirs == Open(PEER)
    ensures Step(g, c, Turn(M.RemoteData(PEER, F.Framed(m)))).delivered == [Notification(s.protocol, Received(m))]
  {
    DataRound(g, c, s, t, m);
    var o := M.Round(c.net.layer, M.RemoteData(PEER, F.Framed(m)), true, g.isUtf8);
    TurnReacts(g, c, s, t, M.RemoteData(PEER, F.Framed(m)));
    ValueTaken(g, AfterRound(c, o), s, t.(reading := true), m);
    assert [] + [Notification(s.protocol, Received(m))] == [Notification(s.protocol, Received(m))];
  }

  lemma {:induction false} ValueTaken(g: Config, c: Conn, s: Subscription, t: Stage, m: Payload)
    requires Stands(c, s, t) && t.ours == Handshake(1) && t.theirs == Open(PEER)
    ensures Handle(g, c, M.Output(PEER, M.Data(m)), true) == Saying(c, Notification(s.protocol, Received(m)))
  {
    assert OutboundOf(c.subs, PEER) == 1 && InboundOf(c.subs, M.Output(PEER, M.Data(m))) == 0 by {
      assert On(c.subs[0].theirs, PEER);
    }
  }

  // ---------------------------------------------------------------------------
  // The run
  // ---------------------------------------------------------------------------

  /** The peer opens a stream and says the header and a proposal: we accept it, and begin to open our side. */
  lemma {:induction false} PeerProposes(g: Config, c: Conn, s: Subscription) returns (events: seq<Event>, c': Conn)
    requires Initial(c) && c.subs == [s] && s.allowInbound && g.isUtf8(s.name)
    requires |Line(s.name)| < U64_LIMIT && |F.Framed(Line(s.name))| <= M.PROTOCOL_MAX_LEN
    ensures Run(g, c, events, c')
    ensures Stands(c', s, Stage(3, Handshake(1), Handshake(PEER), M.Slot([], false, M.Open, s.maxSize), true))
  {
    var t := Stage(1, Closed, Closed, M.Slot([], false, M.NewIncoming, M.PROTOCOL_MAX_LEN), false);
    OpeningTurn(g, c, s);
    events, c' := Extend(g, c, [], c, Turn(M.RemoteOpened(PEER)));
    HeaderTurn(g, c', s, t);
    events, c' := Extend(g, c, events, c', Turn(M.RemoteData(PEER, F.Framed(M.MULTISTREAM_HEADER))));
    t := t.(slot := t.slot.(state := M.NewIncomingProtocol), reading := true);
    IdleTurn(g, c', s, t);
    events, c' := Extend(g, c, events, c', Turn(M.RemoteClosed(PEER)));
    t := t.(reading := false);
    ProposalTurn(g, c', s, t);
    events, c' := Extend(g, c, events, c', Turn(M.RemoteData(PEER, F.Framed(Line(s.name)))));
  }

  lemma {:induction false} Extend(g: Config, c: Conn, events: seq<Event>, c': Conn, e: Event)
      returns (more: seq<Event>, c'': Conn)
    requires Run(g, c, events, c') && Possible(c', e)
    ensures c'' == Step(g, c', e) && Run(g, c, more, c'')
  {
    RunSnoc(g, c, events, c', e);
    more, c'' := events + [e], Step(g, c', e);
  }

  /** On every new connection with one subscription that the peer may open: the peer proposes it, shakes hands and sends
      a value at once. That value is the first thing the user hears; "opened" was never said. */
  lemma {:induction false} ValueBeforeOpened(g: Config, c: Conn, s: Subscription, handshake: Payload, value: Payload)
      returns (events: seq<Event>, c': Conn)
    requires Initial(c) && c.subs == [s] && s.allowInbound && g.isUtf8(s.name) && g.validates(s.protocol, handshake)
    requires |Line(s.name)| < U64_LIMIT && |F.Framed(Line(s.name))| <= M.PROTOCOL_MAX_LEN
    requires |handshake| < U64_LIMIT && |F.Framed(handshake)| <= s.maxSize
    requires |value| < U64_LIMIT && |F.Framed(value)| <= s.maxSize
    ensures Run(g, c, events, c') && c'.delivered == [Notification(s.protocol, Received(value))]
  {
    var t := Stage(3, Handshake(1), Handshake(PEER), M.Slot([], false, M.Open, s.maxSize), true);
    events, c' := PeerProposes(g, c, s);
    IdleTurn(g, c', s, t);
    events, c' := Extend(g, c, events, c', Turn(M.RemoteClosed(PEER)));
    HandshakeTurn(g, c', s, t.(reading := false), handshake);
    events, c' := Extend(g, c, events, c', Turn(M.RemoteData(PEER, F.Framed(handshake))));
    t := t.(theirs := Open(PEER));
    IdleTurn(g, c', s, t);
    events, c' := Extend(g, c, events, c', Turn(M.RemoteClosed(PEER)));
    ValueTurn(g, c', s, t.(reading := false), value);
    events, c' := Extend(g, c, events, c', Turn(M.RemoteData(PEER, F.Framed(value))));
  }
}
