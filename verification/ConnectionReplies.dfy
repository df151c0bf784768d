/** What a connection says on the streams the peer opened: its answer to a proposal, and its response to a request
    (`src/connection.rs`). */
module ConnectionReplies {
  import opened Bytes
  import opened ConnectionView
  import opened ConnectionRuns
  import opened ConnectionOwners
  import opened ConnectionSafety
  import opened ConnectionWire
  import opened ConnectionNews
  import M = MultistreamView

  /** A stream on which data may be sent. */
  predicate MaySpeak(c: Conn, id: StreamId) { id in c.net.layer.slots && c.net.layer.slots[id].state == M.Open }

  /** What a response makes us say on a stream: on an open one, if the session below takes it, the response and then the
      close; on another that is still there the close alone; and nothing anywhere else. */
  lemma {:induction false} ResponseGoesOut(c: Conn, id: StreamId, data: Payload, takes: bool, k: StreamId)
    ensures var words := Words(Responded(c, id, data, takes), k);
            if k != id || id !in c.net.layer.slots then words == Words(c, k)
            else if MaySpeak(c, id) && takes then words == Words(c, id) + [Sends(id, data), M.CloseStream(id)]
            else words == Words(c, id) + [M.CloseStream(id)]
  {
    if MaySpeak(c, id) && takes {
      StartWords(c.net, id, data, takes, k);
    } else {
      SendWords(c.net, id, data, takes, k);
      CloseWords(NetSend(c.net, id, data, takes), id, k);
    }
  }

  /** A stream we open: the negotiation is begun on it, for one protocol, with the limit configured for that. */
  predicate Negotiating(c: Conn, id: StreamId, name: M.Name, limit: nat)
  {
    && id in c.net.layer.slots && c.net.layer.slots[id] == M.Slot([], false, M.Outgoing(false, name, []), limit)
    && Words(c, id) == Opening(id, name)
  }

  lemma {:induction false} OpeningGoesOut(c: Conn, name: M.Name, limit: nat)
    requires Room(c.net) && Words(c, c.net.nextId) == []
    ensures var c' := c.(net := NetOpen(c.net, name, limit)); Negotiating(c', c.net.nextId, name, limit)
  {
    OpenWords(c.net, name, limit, c.net.nextId);
    assert [name][1..] == [];
    assert [] + Opening(c.net.nextId, name) == Opening(c.net.nextId, name);
  }

  /** A request, and our side of a subscription, are opened so. */
  lemma {:induction false} OpenedRight(g: Config, c: Conn, payload: Payload, r: nat, i: nat)
    requires Room(c.net) && FutureSilent(c) && c.net.nextId % 2 == 1
    ensures r < |g.requests| && (forall k :: 0 <= k < r ==> g.requests[k].protocol != g.requests[r].protocol) ==>
              Negotiating(Requested(g, c, g.requests[r].protocol, payload), c.net.nextId, g.requests[r].name,
                          g.requests[r].maxSize)
    ensures DistinctProtocols(c.subs) && i < |c.subs| && c.subs[i].ours.Closed? ==>
              var c' := Subscribed(c, c.subs[i].protocol);
              Negotiating(c', c.net.nextId, c.subs[i].name, c.subs[i].maxSize)
              && c'.subs == c.subs[i := c.subs[i].(ours := Handshake(c.net.nextId))]
  {
    if r < |g.requests| && forall k :: 0 <= k < r ==> g.requests[k].protocol != g.requests[r].protocol {
      assert ProtocolOf(g.requests, g.requests[r].protocol) == r;
      OpeningGoesOut(c, g.requests[r].name, g.requests[r].maxSize);
    }
    if DistinctProtocols(c.subs) && i < |c.subs| && c.subs[i].ours.Closed? {
      assert SubOf(c.subs, c.subs[i].protocol) == i;
      OpeningGoesOut(c, c.subs[i].name, c.subs[i].maxSize);
    }
  }

  /** A subscription that is cancelled or cut: both its streams are reset and gone. */
  lemma {:induction false} SilencedRight(c: Conn, i: nat, id: StreamId)
    requires i < |c.subs| && (On(c.subs[i].ours, id) || On(c.subs[i].theirs, id))
    ensures var c' := Silenced(c, i);
            && id !in c'.net.layer.slots && M.ResetStream(id) in c'.net.outbox[|c.net.outbox|..]
            && c'.subs == c.subs[i := c.subs[i].(ours := Closed, theirs := Closed)]
  {
    var s, n := c.subs[i], ResetSide(c.net, c.subs[i].ours);
    var added := (if s.ours.Closed? then [] else [M.ResetStream(s.ours.id)])
                 + (if s.theirs.Closed? then [] else [M.ResetStream(s.theirs.id)]);
    assert Silenced(c, i).net.outbox == c.net.outbox + added;
    assert M.ResetStream(id) in added;
  }

  /** A proposal is reported by the name that awaits its answer. */
  predicate Awaited(c: Conn, id: StreamId, name: M.Name)
  {
    id in c.net.layer.slots && c.net.layer.slots[id].state == M.WaitingForAccept(name)
  }

  predicate ReportsAwaited(o: M.Outcome)
  {
    o.turn.Emit? && o.turn.output.state.IncomingProtocol? ==>
        o.turn.output.streamId in o.layer.slots
        && o.layer.slots[o.turn.output.streamId].state == M.WaitingForAccept(o.turn.output.state.name)
  }

  lemma {:induction false} PulledAwaited(l: M.Layer, id: StreamId, takes: bool, isUtf8: M.Name -> bool)
    requires id in l.slots
    ensures ReportsAwaited(M.Pulled(l, id, takes, isUtf8))
  {
  }

  lemma {:induction false} RoundAwaited(l: M.Layer, input: M.Input, takes: bool, isUtf8: M.Name -> bool)
    ensures ReportsAwaited(M.Round(l, input, takes, isUtf8))
  {
    if l.readFrom.Some? {
      if l.readFrom.value in l.slots { PulledAwaited(l, l.readFrom.value, takes, isUtf8); }
    } else {
      match input
      case RemoteOpened(id) =>
        var slots := if id in l.slots then l.slots
          else l.slots[id := M.Slot([], false, M.NewIncoming, M.PROTOCOL_MAX_LEN)];
        PulledAwaited(l.(slots := slots), id, takes, isUtf8);
      case RemoteData(id, bytes) =>
        if id in l.slots {
          var s := l.slots[id];
          PulledAwaited(l.(slots := l.slots[id := s.(pending := s.pending + bytes)]), id, takes, isUtf8);
        }
      case RemoteClosed(id) =>
    }
  }

  /** In every reachable state a proposal that is reported awaits its answer, on a stream nobody has. */
  lemma {:induction false} ProposalsAreAwaited(g: Config, c: Conn, d: Drive, id: StreamId, name: M.Name)
    requires Safe(c) && Possible(c, Next(d))
    requires M.Round(c.net.layer, d.input, d.takes, g.isUtf8).turn == M.Emit(M.Output(id, M.IncomingProtocol(name)))
    ensures var c1 := AfterRound(c, M.Round(c.net.layer, d.input, d.takes, g.isUtf8));
            Awaited(c1, id, name) && Unclaimed(c1, id) && id != c1.net.nextId
  {
    var o := M.Output(id, M.IncomingProtocol(name));
    RoundAwaited(c.net.layer, d.input, d.takes, g.isUtf8);
    RoundKeepsOwned(c, d.input, d.takes, g.isUtf8);
    var c1 := AfterRound(c, M.Round(c.net.layer, d.input, d.takes, g.isUtf8));
    ProposalUnowned(c1, o);
    forall i | 0 <= i < |c1.subs| ensures !On(c1.subs[i].ours, id) { assert SubOwned(c1, c1.subs[i], Some(o)); }
  }

  lemma {:induction false} AnswerSpoken(n: Net, id: StreamId, name: M.Name, accept: Option<nat>)
    requires id in n.layer.slots && n.layer.slots[id].state == M.WaitingForAccept(name)
    ensures M.AnswerError(n.layer, id, true).None?
    ensures Spoken(NetAnswer(n, id, accept, true).outbox, id)
            == Spoken(n.outbox, id) + [Sends(id, if accept.Some? then Line(name) else M.NOT_AVAILABLE)]
  {
    SpokenSnoc(n.outbox, Sends(id, if accept.Some? then Line(name) else M.NOT_AVAILABLE), id);
  }

  /** The first subscription of that name. */
  predicate FirstNamed(c: Conn, i: nat, name: M.Name)
  {
    i < |c.subs| && c.subs[i].name == name && forall k :: 0 <= k < i ==> c.subs[k].name != name
  }

  lemma {:induction false} NamedIsInbound(c: Conn, id: StreamId, name: M.Name, i: nat)
    requires Unclaimed(c, id) && FirstNamed(c, i, name)
    ensures OutboundOf(c.subs, id) == |c.subs| && InboundOf(c.subs, M.Output(id, M.IncomingProtocol(name))) == i
  {
    var o := M.Output(id, M.IncomingProtocol(name));
    var r := InboundOf(c.subs, o);
    if r < |c.subs| { assert !On(c.subs[r].theirs, id) && Proposes(o, c.subs[r].name); }
    assert Proposes(o, c.subs[i].name);
  }

  /** A proposal of a subscription's name, whose inbound side is free: it is taken if the peer may open it or we have
      opened ours, and then our side is there too; if not the stream is reset. */
  lemma {:induction false} SubscriptionProposed(g: Config, c: Conn, id: StreamId, name: M.Name, i: nat)
    requires Room(c.net) && Awaited(c, id, name) && Unclaimed(c, id) && FirstNamed(c, i, name)
    requires c.subs[i].theirs.Closed? && id != c.net.nextId
    ensures var s, e := c.subs[i], Handle(g, c, M.Output(id, M.IncomingProtocol(name)), true);
            && !e.failed && e.said == None && |e.conn.subs| == |c.subs|
            && (if s.allowInbound || !s.ours.Closed? then
                  && Words(e.conn, id) == Words(c, id) + [Sends(id, Line(name))]
                  && MaySpeak(e.conn, id) && e.conn.net.layer.slots[id].maxBufferSize == s.maxSize
                  && e.conn.subs[i].theirs == Handshake(id)
                  && e.conn.subs[i].ours == (if s.ours.Closed? then Handshake(c.net.nextId) else s.ours)
                else
                  && id !in e.conn.net.layer.slots && e.conn.net.outbox == c.net.outbox + [M.ResetStream(id)]
                  && e.conn.subs == c.subs)
  {
    var s := c.subs[i];
    NamedIsInbound(c, id, name, i);
    if s.allowInbound || !s.ours.Closed? {
      AnswerSpoken(c.net, id, name, Some(s.maxSize));
      var n := NetAnswer(c.net, id, Some(s.maxSize), true);
      if s.ours.Closed? { OpenWords(n, s.name, s.maxSize, id); }
    }
  }

  lemma {:induction false} Unnamed(c: Conn, id: StreamId, name: M.Name)
    requires Unclaimed(c, id) && forall k :: 0 <= k < |c.subs| ==> c.subs[k].name != name
    ensures OutboundOf(c.subs, id) == |c.subs| && InboundOf(c.subs, M.Output(id, M.IncomingProtocol(name))) == |c.subs|
  {
    var o := M.Output(id, M.IncomingProtocol(name));
    var r := InboundOf(c.subs, o);
  }

  /** A proposal of another name: taken for the first request protocol of that name that the peer may ask for, and
      refused if there is none. */
  lemma {:induction false} RequestProposed(g: Config, c: Conn, id: StreamId, name: M.Name)
    requires Room(c.net) && Awaited(c, id, name) && Unclaimed(c, id)
    requires forall k :: 0 <= k < |c.subs| ==> c.subs[k].name != name
    ensures var e := Handle(g, c, M.Output(id, M.IncomingProtocol(name)), true);
            && !e.failed && e.said == None && e.conn.subs == c.subs
            && (forall r ::
                  0 <= r < |g.requests| && Asks(g, r, name) && (forall k :: 0 <= k < r ==> !Asks(g, k, name)) ==>
                  && Words(e.conn, id) == Words(c, id) + [Sends(id, Line(name))]
                  && MaySpeak(e.conn, id) && e.conn.net.layer.slots[id].maxBufferSize == g.requests[r].maxSize
                  && e.conn.incoming == c.incoming[id := g.requests[r].protocol])
            && ((forall r :: 0 <= r < |g.requests| ==> !Asks(g, r, name)) ==>
                  && Words(e.conn, id) == Words(c, id) + [Sends(id, M.NOT_AVAILABLE)]
                  && e.conn.incoming == c.incoming)
  {
    Unnamed(c, id, name);
    var o := M.Output(id, M.IncomingProtocol(name));
    var r := ListenerOf(g.requests, o);
    FirstAsks(g, id, name);
    AnswerSpoken(c.net, id, name, if r < |g.requests| then Some(g.requests[r].maxSize) else None);
  }

  /** An output that nobody can make anything of: on a stream nobody has, or on that of a peer's request, a stream that
      is still there is reset, and a close is only noted. */
  lemma {:induction false} OutOfTurn(g: Config, c: Conn, o: M.Output, takes: bool)
    requires Room(c.net) && o.streamId !in c.inflight && !o.state.IncomingProtocol?
    requires if o.streamId in c.incoming then !o.state.Data? && !o.state.Closed? else Unclaimed(c, o.streamId)
    ensures var e := Handle(g, c, o, takes);
            && e.said == None && !e.failed && e.conn.subs == c.subs && e.conn.incoming == c.incoming - {o.streamId}
            && e.conn.net == if o.state.Closed? then c.net
                             else Net(c.net.layer.(slots := c.net.layer.slots - {o.streamId}),
                                      c.net.outbox + [M.ResetStream(o.streamId)], c.net.nextId)
  {
    if o.streamId !in c.incoming {
      assert c.incoming - {o.streamId} == c.incoming;
      NobodysOutput(c, o);
    }
  }

  lemma {:induction false} NobodysOutput(c: Conn, o: M.Output)
    requires Unclaimed(c, o.streamId) && !o.state.IncomingProtocol?
    ensures OutboundOf(c.subs, o.streamId) == |c.subs| && InboundOf(c.subs, o) == |c.subs|
  {
  }

  predicate Asks(g: Config, r: nat, name: M.Name)
    requires r < |g.requests|
  {
    g.requests[r].allowInbound && g.requests[r].name == name
  }

  lemma {:induction false} FirstAsks(g: Config, id: StreamId, name: M.Name)
    ensures var r := ListenerOf(g.requests, M.Output(id, M.IncomingProtocol(name)));
            && (r < |g.requests| ==> Asks(g, r, name))
            && forall k :: 0 <= k < r ==> !Asks(g, k, name)
  {
    var o := M.Output(id, M.IncomingProtocol(name));
    forall k | 0 <= k < ListenerOf(g.requests, o) ensures !Asks(g, k, name) {
      if Asks(g, k, name) { assert Proposes(o, g.requests[k].name); }
    }
  }
}
