/** What the user is told of the peer's requests and of subscriptions, from what was heard of their streams alone
    (`src/connection.rs`). */
module ConnectionNews {
  import opened Bytes
  import opened ConnectionView
  import opened ConnectionRuns
  import opened ConnectionOwners
  import opened ConnectionSafety
  import opened ConnectionHeard
  import M = MultistreamView

  // ---------------------------------------------------------------------------
  // What each output means, given those before it
  // ---------------------------------------------------------------------------

  /** What was heard of a stream since its last proposal, that proposal included. */
  function Since(outs: seq<M.OutputState>): seq<M.OutputState>
  {
    if outs == [] then []
    else
      var last := outs[|outs| - 1];
      if last.IncomingProtocol? then [last] else Since(outs[..|outs| - 1]) + [last]
  }

  /** On the stream of a peer's request, after its proposal: the request itself, or why there is none. */
  function TellsRequest(out: M.OutputState): Option<Asked>
  {
    match out
    case Data(bytes) => Some(Wanted(bytes))
    case Closed(IncomingMessageTooLarge) => Some(TooLarge)
    case Closed(ClosedByRemote) => Some(Withdrawn)
    case _ => None
  }

  /** The peer has answered on our stream of a subscription: with its handshake, the one message there is. */
  predicate Shaken(outs: seq<M.OutputState>) { outs != [] && outs[|outs| - 1].Data? }

  /** On our stream of a subscription: its acceptance is no news, the peer's handshake is if the other side is open, and
      everything else ends the subscription. */
  function TellsOurs(g: Config, p: nat, theirsOpen: bool, outs: seq<M.OutputState>, out: M.OutputState): Option<News>
  {
    match out
    case OutgoingAccepted(_) => if Shaken(outs) then Some(Broken(ProtocolError)) else None
    case OutgoingRejected => Some(Broken(if Shaken(outs) then ProtocolError else NotAccepted))
    case Data(bytes) =>
      if Shaken(outs) then Some(Broken(ProtocolError))
      else if !g.validates(p, bytes) then Some(Broken(TheirHandshakeRejected))
      else if theirsOpen then Some(Opened)
      else None
    case Closed(IncomingMessageTooLarge) => Some(Broken(PayloadTooLarge))
    case Closed(ClosedByRemote) => Some(if Shaken(outs) then Ended else Broken(OurHandshakeRejected))
    case IncomingProtocol(_) => Some(Broken(ProtocolError))
  }

  /** On the peer's stream of a subscription: its first message is the handshake, the others are values. */
  function TellsTheirs(g: Config, p: nat, oursOpen: bool, outs: seq<M.OutputState>, out: M.OutputState): Option<News>
  {
    match out
    case Data(bytes) =>
      if |Since(outs)| > 1 then Some(Received(bytes))
      else if !g.validates(p, bytes) then Some(Broken(TheirHandshakeRejected))
      else if oursOpen then Some(Opened)
      else None
    case Closed(IncomingMessageTooLarge) => Some(Broken(PayloadTooLarge))
    case Closed(ClosedByRemote) => Some(Ended)
    case _ => Some(Broken(ProtocolError))
  }

  // ---------------------------------------------------------------------------
  // What is known of a stream in use
  // ---------------------------------------------------------------------------

  predicate TheirsKnown(g: Config, s: Subscription, outs: seq<M.OutputState>)
  {
    var said := Since(outs);
    && said != [] && said[0] == M.IncomingProtocol(s.name)
    && (s.theirs.Handshake? ==> |said| == 1)
    && (s.theirs.Open? ==>
          && |said| > 1 && said[1].Data? && g.validates(s.protocol, said[1].bytes)
          && forall k :: 1 < k < |said| ==> said[k].Data?)
  }

  predicate OursKnown(g: Config, s: Subscription, outs: seq<M.OutputState>)
  {
    && (s.ours.Handshake? ==> forall x :: x in outs ==> x.OutgoingAccepted?)
    && (s.ours.Open? ==>
          && Shaken(outs) && g.validates(s.protocol, outs[|outs| - 1].bytes)
          && forall x :: x in outs[..|outs| - 1] ==> x.OutgoingAccepted?)
  }

  /** The peer's request was proposed, by the name of a protocol that may be asked for. */
  predicate RequestKnown(g: Config, protocol: nat, outs: seq<M.OutputState>)
  {
    outs != [] && exists q :: q in g.requests && q.allowInbound && q.protocol == protocol
                              && outs[|outs| - 1] == M.IncomingProtocol(q.name)
  }

  ghost predicate Known(g: Config, c: Conn, id: StreamId, outs: seq<M.OutputState>)
  {
    && (id in c.incoming ==> RequestKnown(g, c.incoming[id], outs))
    && (forall i :: 0 <= i < |c.subs| && On(c.subs[i].theirs, id) ==> TheirsKnown(g, c.subs[i], outs))
    && (forall i :: 0 <= i < |c.subs| && On(c.subs[i].ours, id) ==> OursKnown(g, c.subs[i], outs))
    && (id % 2 == 1 && id >= c.net.nextId ==> outs == [])
  }

  // ---------------------------------------------------------------------------
  // Events that do not concern the stream
  // ---------------------------------------------------------------------------

  predicate SameConfig(s: Subscription, s': Subscription) { s'.protocol == s.protocol && s'.name == s.name }

  /** Whoever has the stream now had it before, just so; unless it was opened just now. */
  ghost predicate Unmoved(c: Conn, c': Conn, id: StreamId)
  {
    && |c'.subs| == |c.subs| && c'.net.nextId >= c.net.nextId
    && (id in c'.incoming ==> id in c.incoming && c'.incoming[id] == c.incoming[id])
    && (forall i :: 0 <= i < |c.subs| ==> SubUnmoved(c.subs[i], c'.subs[i], id, c.net.nextId))
  }

  predicate SubUnmoved(s: Subscription, s': Subscription, id: StreamId, next: StreamId)
  {
    && SameConfig(s, s')
    && (On(s'.theirs, id) ==> s'.theirs == s.theirs)
    && (On(s'.ours, id) ==> s'.ours == s.ours || (id == next && s'.ours == Handshake(id)))
  }

  lemma {:induction false} UnmovedKnown(g: Config, c: Conn, c': Conn, id: StreamId, outs: seq<M.OutputState>)
    requires Known(g, c, id, outs) && Unmoved(c, c', id) && c.net.nextId % 2 == 1
    ensures Known(g, c', id, outs)
  {
    forall i | 0 <= i < |c'.subs| && On(c'.subs[i].theirs, id) ensures TheirsKnown(g, c'.subs[i], outs) {
      assert SubUnmoved(c.subs[i], c'.subs[i], id, c.net.nextId);
    }
    forall i | 0 <= i < |c'.subs| && On(c'.subs[i].ours, id) ensures OursKnown(g, c'.subs[i], outs) {
      assert SubUnmoved(c.subs[i], c'.subs[i], id, c.net.nextId);
    }
  }

  lemma {:induction false} OneSubMoves(c: Conn, c': Conn, i: nat, id: StreamId)
    requires i < |c.subs| && OthersKept(c, c', i) && c'.net.nextId >= c.net.nextId && c'.incoming == c.incoming
    requires SubUnmoved(c.subs[i], c'.subs[i], id, c.net.nextId)
    ensures Unmoved(c, c', id)
  {
    forall k | 0 <= k < |c.subs| ensures SubUnmoved(c.subs[k], c'.subs[k], id, c.net.nextId) {
      if k != i { assert c'.subs[k] == c.subs[k]; }
    }
  }

  lemma {:induction false} OutboundElsewhere(g: Config, c: Conn, i: nat, out: M.OutputState, takes: bool, id: StreamId)
    requires i < |c.subs| && !c.subs[i].ours.Closed? && c.subs[i].ours.id != id
    ensures Unmoved(c, OnOutbound(g, c, i, out, takes).conn, id)
  {
    match ReadOutbound(c.subs[i].ours, out, Valid(g, c.subs[i], out))
    case Over(_) => SilencedElsewhere(c, i, id);
    case Shaken => OneSubMoves(c, OnOutbound(g, c, i, out, takes).conn, i, id);
    case _ =>
  }

  lemma {:induction false} InboundElsewhere(g: Config, c: Conn, i: nat, o: M.Output, takes: bool, id: StreamId)
    requires i < |c.subs| && !c.subs[i].theirs.Closed? && o.streamId != id
    requires On(c.subs[i].theirs, o.streamId) || o.state.IncomingProtocol?
    ensures Unmoved(c, OnInbound(g, c, i, o.state, takes).conn, id)
  {
    match ReadInbound(c.subs[i].theirs, o.state, Valid(g, c.subs[i], o.state))
    case Over(_) => SilencedElsewhere(c, i, id);
    case Shaken => OneSubMoves(c, OnInbound(g, c, i, o.state, takes).conn, i, id);
    case _ =>
  }

  lemma {:induction false} ProposalElsewhere(c: Conn, i: nat, own: StreamId, takes: bool, id: StreamId)
    requires i < |c.subs| && Room(c.net) && own != id
    ensures Unmoved(c, OnProposal(c, i, own, takes).conn, id)
  {
    OneSubMoves(c, OnProposal(c, i, own, takes).conn, i, id);
  }

  lemma {:induction false} HandleElsewhere(g: Config, c: Conn, o: M.Output, takes: bool, id: StreamId)
    requires Room(c.net) && o.streamId != id
    ensures Unmoved(c, Handle(g, c, o, takes).conn, id)
  {
    if o.streamId !in c.inflight && o.streamId !in c.incoming {
      var out, inb := OutboundOf(c.subs, o.streamId), InboundOf(c.subs, o);
      if out < |c.subs| {
        OutboundElsewhere(g, c, out, o.state, takes, id);
      } else if inb < |c.subs| {
        if c.subs[inb].theirs.Closed? {
          ProposalElsewhere(c, inb, o.streamId, takes, id);
        } else {
          InboundElsewhere(g, c, inb, o, takes, id);
        }
      }
    }
  }

  lemma {:induction false} ListenedElsewhere(g: Config, c: Conn, d: Drive, id: StreamId)
    requires Possible(c, Next(d))
    requires var t := M.Round(c.net.layer, d.input, d.takes, g.isUtf8).turn; t.Emit? ==> t.output.streamId != id
    ensures Unmoved(c, Listened(g, c, d), id)
  {
    var o := M.Round(c.net.layer, d.input, d.takes, g.isUtf8);
    ReactedElsewhere(g, AfterRound(c, o), o.turn, d.takesReply, id);
    SameTables(c, AfterRound(c, o), Listened(g, c, d), id);
  }

  lemma {:induction false} SameTables(c: Conn, c1: Conn, c': Conn, id: StreamId)
    requires c1.incoming == c.incoming && c1.subs == c.subs && c1.net.nextId == c.net.nextId && Unmoved(c1, c', id)
    ensures Unmoved(c, c', id)
  {
  }

  lemma {:induction false} ConcludedTables(c: Conn, e: Effect, id: StreamId)
    requires Unmoved(c, e.conn, id)
    ensures Unmoved(c, Conclude(e), id)
  {
  }

  lemma {:induction false} ReactedElsewhere(g: Config, c: Conn, t: M.Turn, takes: bool, id: StreamId)
    requires Room(c.net) && (t.Emit? ==> t.output.streamId != id)
    ensures Unmoved(c, Reacted(g, c, t, takes), id)
  {
    if t.Emit? {
      HandleElsewhere(g, c, t.output, takes, id);
      ConcludedTables(c, Handle(g, c, t.output, takes), id);
    }
  }

  lemma {:induction false} SubscribeElsewhere(c: Conn, p: nat, id: StreamId)
    requires Room(c.net)
    ensures Unmoved(c, Subscribed(c, p), id)
  {
    if SubscribeError(c, p).None? { OneSubMoves(c, Subscribed(c, p), SubOf(c.subs, p), id); }
  }

  lemma {:induction false} CancelElsewhere(c: Conn, p: nat, id: StreamId)
    ensures Unmoved(c, SubscriptionCancelled(c, p), id)
  {
    var i := SubOf(c.subs, p);
    if i < |c.subs| {
      SilencedElsewhere(c, i, id);
      SameAfter(c, Silenced(c, i), SubscriptionCancelled(c, p), id);
    }
  }

  lemma {:induction false} SilencedElsewhere(c: Conn, i: nat, id: StreamId)
    requires i < |c.subs|
    ensures Unmoved(c, Silenced(c, i), id)
  {
    OneSubMoves(c, Silenced(c, i), i, id);
  }

  lemma {:induction false} SameAfter(c: Conn, c1: Conn, c': Conn, id: StreamId)
    requires Unmoved(c, c1, id) && c'.incoming == c1.incoming && c'.subs == c1.subs && c'.net == c1.net
    ensures Unmoved(c, c', id)
  {
  }

  lemma {:induction false} CallElsewhere(g: Config, c: Conn, e: Event, id: StreamId)
    requires Possible(c, e) && !e.Next?
    ensures Unmoved(c, Step(g, c, e), id)
  {
    if e.CallSubscribe? {
      SubscribeElsewhere(c, e.protocol, id);
    } else if e.CallCancelSubscription? {
      CancelElsewhere(c, e.protocol, id);
    }
  }

  lemma {:induction false} StepElsewhere(g: Config, c: Conn, e: Event, id: StreamId)
    requires Possible(c, e) && OutputOn(g, c, e, id) == []
    ensures Unmoved(c, Step(g, c, e), id)
  {
    if e.Next? {
      if Listens(c, e.drive) { ListenedElsewhere(g, c, e.drive, id); }
    } else {
      CallElsewhere(g, c, e, id);
    }
  }

  // ---------------------------------------------------------------------------
  // Outputs on the stream
  // ---------------------------------------------------------------------------

  function Note(p: nat, news: Option<News>): Option<Message>
  {
    if news.Some? then Some(Notification(p, news.value)) else None
  }

  function Ask(id: StreamId, p: nat, asked: Option<Asked>): Option<Message>
  {
    if asked.Some? then Some(Request(id, p, asked.value)) else None
  }

  /** Nobody has the stream. */
  ghost predicate Unclaimed(c: Conn, id: StreamId)
  {
    && id !in c.inflight && id !in c.incoming
    && forall i :: 0 <= i < |c.subs| ==> !On(c.subs[i].ours, id) && !On(c.subs[i].theirs, id)
  }

  /** What is said on an output, whoever has the stream; on a stream nobody has, only that a second proposal for a
      subscription ends it. */
  ghost predicate Tells(g: Config, c: Conn, o: M.Output, takes: bool, outs: seq<M.OutputState>, e: Effect)
  {
    if e.failed then e.said == None && CannotReply(c, o, takes) else Says(g, c, o, outs, e.said)
  }

  /** What is called for cannot be sent, or the proposal not be answered. */
  predicate CannotReply(c: Conn, o: M.Output, takes: bool)
  {
    || M.SendError(c.net.layer, o.streamId, takes).Some?
    || (o.state.IncomingProtocol? && M.AnswerError(c.net.layer, o.streamId, takes).Some?)
  }

  ghost predicate Says(g: Config, c: Conn, o: M.Output, outs: seq<M.OutputState>, said: Option<Message>)
  {
    var id, out := o.streamId, o.state;
    && (id in c.incoming ==> said == Ask(id, c.incoming[id], TellsRequest(out)))
    && (forall i :: 0 <= i < |c.subs| && On(c.subs[i].ours, id) ==>
          said == Note(c.subs[i].protocol, TellsOurs(g, c.subs[i].protocol, c.subs[i].theirs.Open?, outs, out)))
    && (forall i :: 0 <= i < |c.subs| && On(c.subs[i].theirs, id) ==>
          said == Note(c.subs[i].protocol, TellsTheirs(g, c.subs[i].protocol, c.subs[i].ours.Open?, outs, out)))
    && (Unclaimed(c, id) && said.Some? ==>
          exists i :: 0 <= i < |c.subs| && out == M.IncomingProtocol(c.subs[i].name) && !c.subs[i].theirs.Closed?
                      && said == Some(Notification(c.subs[i].protocol, Broken(ProtocolError))))
  }

  lemma {:induction false} SinceSnoc(outs: seq<M.OutputState>, out: M.OutputState)
    ensures Since(outs + [out]) == if out.IncomingProtocol? then [out] else Since(outs) + [out]
  {
    assert (outs + [out])[..|outs|] == outs;
  }

  lemma {:induction false} RequestTells(g: Config, c: Conn, o: M.Output, takes: bool, outs: seq<M.OutputState>)
    requires Owned(c, Some(o)) && o.streamId in c.inflight
    ensures Known(g, OnRequest(c, o.streamId, o.state, takes).conn, o.streamId, outs + [o.state])
    ensures Tells(g, c, o, takes, outs, OnRequest(c, o.streamId, o.state, takes))
  {
    forall i | 0 <= i < |c.subs| ensures !On(c.subs[i].ours, o.streamId) && !On(c.subs[i].theirs, o.streamId) {
      assert SubOwned(c, c.subs[i], Some(o));
    }
  }

  lemma {:induction false} IncomingTells(g: Config, c: Conn, o: M.Output, takes: bool, outs: seq<M.OutputState>)
    requires Owned(c, Some(o)) && o.streamId in c.incoming
    ensures Known(g, OnIncoming(c, o.streamId, o.state).conn, o.streamId, outs + [o.state])
    ensures Tells(g, c, o, takes, outs, OnIncoming(c, o.streamId, o.state))
  {
    forall i | 0 <= i < |c.subs| ensures !On(c.subs[i].ours, o.streamId) && !On(c.subs[i].theirs, o.streamId) {
      assert SubOwned(c, c.subs[i], Some(o));
    }
  }

  /** Only this subscription has the stream, on one side. */
  lemma {:induction false} OnlyOne(c: Conn, i: nat, id: StreamId, o: Option<M.Output>)
    requires Owned(c, o) && i < |c.subs| && (On(c.subs[i].ours, id) || On(c.subs[i].theirs, id))
    ensures id !in c.incoming && id !in c.inflight
    ensures On(c.subs[i].ours, id) != On(c.subs[i].theirs, id) && (On(c.subs[i].ours, id) <==> id % 2 == 1)
    ensures forall k :: 0 <= k < |c.subs| && k != i ==> !On(c.subs[k].ours, id) && !On(c.subs[k].theirs, id)
    ensures On(c.subs[i].ours, id) ==> id < c.net.nextId
  {
    assert SubOwned(c, c.subs[i], o);
    forall k | 0 <= k < |c.subs| && k != i ensures !On(c.subs[k].ours, id) && !On(c.subs[k].theirs, id) {
      assert Apart(c.subs[i], c.subs[k]) && SubOwned(c, c.subs[k], o);
    }
  }

  /** One subscription changes, and the others have nothing to do with the stream. */
  lemma {:induction false} KnownOfOne(g: Config, c: Conn, c': Conn, i: nat, id: StreamId, outs: seq<M.OutputState>)
    requires i < |c.subs| && OthersKept(c, c', i) && id !in c'.incoming
    requires forall k :: 0 <= k < |c.subs| && k != i ==> !On(c.subs[k].ours, id) && !On(c.subs[k].theirs, id)
    requires On(c'.subs[i].theirs, id) ==> TheirsKnown(g, c'.subs[i], outs)
    requires On(c'.subs[i].ours, id) ==> OursKnown(g, c'.subs[i], outs)
    requires id % 2 == 0 || id < c'.net.nextId
    ensures Known(g, c', id, outs)
  {
    forall k | 0 <= k < |c'.subs| && k != i ensures !On(c'.subs[k].ours, id) && !On(c'.subs[k].theirs, id) {
      assert c'.subs[k] == c.subs[k];
    }
  }

  lemma {:induction false} TellsOfOne(g: Config, c: Conn, i: nat, o: M.Output, takes: bool, outs: seq<M.OutputState>,
                                      e: Effect)
    requires i < |c.subs| && o.streamId !in c.incoming
    requires On(c.subs[i].ours, o.streamId) != On(c.subs[i].theirs, o.streamId)
    requires forall k :: 0 <= k < |c.subs| && k != i ==>
               !On(c.subs[k].ours, o.streamId) && !On(c.subs[k].theirs, o.streamId)
    requires e.failed ==> e.said == None && CannotReply(c, o, takes)
    requires var s := c.subs[i];
             e.failed
             || e.said == Note(s.protocol,
                               if On(s.ours, o.streamId) then TellsOurs(g, s.protocol, s.theirs.Open?, outs, o.state)
                                      else TellsTheirs(g, s.protocol, s.ours.Open?, outs, o.state))
    ensures Tells(g, c, o, takes, outs, e)
  {
  }

  lemma {:induction false} OutboundTells(g: Config, c: Conn, i: nat, o: M.Output, takes: bool, outs: seq<M.OutputState>)
    requires Owned(c, Some(o)) && i < |c.subs| && On(c.subs[i].ours, o.streamId) && OursKnown(g, c.subs[i], outs)
    ensures var e := OnOutbound(g, c, i, o.state, takes);
            (e.failed || Known(g, e.conn, o.streamId, outs + [o.state])) && Tells(g, c, o, takes, outs, e)
  {
    var s, id, e := c.subs[i], o.streamId, OnOutbound(g, c, i, o.state, takes);
    OnlyOne(c, i, id, Some(o));
    OutboundSays(g, c, i, o.state, takes, outs);
    TellsOfOne(g, c, i, o, takes, outs, e);
    if !e.failed { KnownOfOne(g, c, e.conn, i, id, outs + [o.state]); }
  }

  lemma {:induction false} OutboundSays(g: Config, c: Conn, i: nat, out: M.OutputState, takes: bool,
                                        outs: seq<M.OutputState>)
    requires i < |c.subs| && !c.subs[i].ours.Closed? && OursKnown(g, c.subs[i], outs)
    ensures var s, e := c.subs[i], OnOutbound(g, c, i, out, takes);
            && e.said == Note(s.protocol, TellsOurs(g, s.protocol, s.theirs.Open?, outs, out))
            && (!e.conn.subs[i].ours.Closed? ==> OursKnown(g, e.conn.subs[i], outs + [out]))
            && (e.failed ==> e.said == None && M.SendError(c.net.layer, s.ours.id, takes).Some?)
            && e.conn.incoming == c.incoming && e.conn.net.nextId == c.net.nextId
            && (e.conn.subs[i].theirs.Closed? || e.conn.subs[i].theirs == s.theirs)
  {
    var s := c.subs[i];
    ReadsOurs(g, s, outs, out);
    match ReadOutbound(s.ours, out, Valid(g, s, out))
    case Over(news) =>
    case Agreed =>
    case Shaken =>
  }

  /** What an output on our stream is read as, and what it leaves known. */
  lemma {:induction false} ReadsOurs(g: Config, s: Subscription, outs: seq<M.OutputState>, out: M.OutputState)
    requires !s.ours.Closed? && OursKnown(g, s, outs)
    ensures var tells := TellsOurs(g, s.protocol, s.theirs.Open?, outs, out);
            match ReadOutbound(s.ours, out, Valid(g, s, out))
            case Agreed => tells == None && OursKnown(g, s, outs + [out])
            case Shaken =>
              && tells == (if s.theirs.Open? then Some(Opened) else None)
              && OursKnown(g, s.(ours := Open(s.ours.id)), outs + [out])
            case Report(_) => false
            case Over(news) => tells == Some(news)
  {
    assert (outs + [out])[..|outs|] == outs;
    if s.ours.Handshake? { NotShaken(outs); }
  }

  lemma {:induction false} NotShaken(outs: seq<M.OutputState>)
    requires forall x :: x in outs ==> x.OutgoingAccepted?
    ensures !Shaken(outs)
  {
    if outs != [] { assert outs[|outs| - 1] in outs; }
  }

  lemma {:induction false} InboundTells(g: Config, c: Conn, i: nat, o: M.Output, takes: bool, outs: seq<M.OutputState>)
    requires Owned(c, Some(o)) && i < |c.subs| && On(c.subs[i].theirs, o.streamId) && TheirsKnown(g, c.subs[i], outs)
    ensures var e := OnInbound(g, c, i, o.state, takes);
            (e.failed || Known(g, e.conn, o.streamId, outs + [o.state])) && Tells(g, c, o, takes, outs, e)
  {
    var s, id, e := c.subs[i], o.streamId, OnInbound(g, c, i, o.state, takes);
    OnlyOne(c, i, id, Some(o));
    InboundSays(g, c, i, o.state, takes, outs);
    TellsOfOne(g, c, i, o, takes, outs, e);
    if !e.failed { KnownOfOne(g, c, e.conn, i, id, outs + [o.state]); }
  }

  lemma {:induction false} InboundSays(g: Config, c: Conn, i: nat, out: M.OutputState, takes: bool,
                                       outs: seq<M.OutputState>)
    requires i < |c.subs| && !c.subs[i].theirs.Closed? && TheirsKnown(g, c.subs[i], outs)
    ensures var s, e := c.subs[i], OnInbound(g, c, i, out, takes);
            && e.said == (if e.failed then None
                          else Note(s.protocol, TellsTheirs(g, s.protocol, s.ours.Open?, outs, out)))
            && (e.failed ==> M.SendError(c.net.layer, s.theirs.id, takes).Some?)
            && (!e.failed && !e.conn.subs[i].theirs.Closed? ==> TheirsKnown(g, e.conn.subs[i], outs + [out]))
            && (e.failed ==> e.conn == c)
            && e.conn.incoming == c.incoming && e.conn.net.nextId == c.net.nextId
            && (e.conn.subs[i].ours.Closed? || e.conn.subs[i].ours == s.ours)
  {
    var s := c.subs[i];
    ReadsTheirs(g, s, outs, out);
    match ReadInbound(s.theirs, out, Valid(g, s, out))
    case Over(news) =>
    case Report(_) =>
    case Shaken =>
  }

  /** What an output on the peer's stream is read as, and what it leaves known. */
  lemma {:induction false} ReadsTheirs(g: Config, s: Subscription, outs: seq<M.OutputState>, out: M.OutputState)
    requires !s.theirs.Closed? && TheirsKnown(g, s, outs)
    ensures var tells := TellsTheirs(g, s.protocol, s.ours.Open?, outs, out);
            match ReadInbound(s.theirs, out, Valid(g, s, out))
            case Report(bytes) => tells == Some(Received(bytes)) && TheirsKnown(g, s, outs + [out])
            case Shaken =>
              && tells == (if s.ours.Open? then Some(Opened) else None)
              && TheirsKnown(g, s.(theirs := Open(s.theirs.id)), outs + [out])
            case Agreed => false
            case Over(news) => tells == Some(news)
  {
    SinceSnoc(outs, out);
  }

  /** A second proposal for a subscription cuts it; the stream is nobody's. */
  lemma {:induction false} SecondProposalTells(g: Config, c: Conn, i: nat, o: M.Output, takes: bool,
                                               outs: seq<M.OutputState>)
    requires Owned(c, Some(o)) && Proposed(c, o) && i < |c.subs| && !c.subs[i].theirs.Closed?
    requires Unclaimed(c, o.streamId) && o.state == M.IncomingProtocol(c.subs[i].name)
    ensures var e := OnInbound(g, c, i, o.state, takes);
            Known(g, e.conn, o.streamId, outs + [o.state]) && Tells(g, c, o, takes, outs, e)
  {
    ProposalUnowned(c, o);
    KnownOfOne(g, c, OnInbound(g, c, i, o.state, takes).conn, i, o.streamId, outs + [o.state]);
  }

  lemma {:induction false} ProposalTells(g: Config, c: Conn, i: nat, o: M.Output, takes: bool, outs: seq<M.OutputState>)
    requires Owned(c, Some(o)) && Proposed(c, o) && i < |c.subs| && c.subs[i].theirs.Closed? && Room(c.net)
    requires Unclaimed(c, o.streamId) && o.state == M.IncomingProtocol(c.subs[i].name)
    ensures var e := OnProposal(c, i, o.streamId, takes);
            (e.failed || Known(g, e.conn, o.streamId, outs + [o.state])) && Tells(g, c, o, takes, outs, e)
  {
    var e := OnProposal(c, i, o.streamId, takes);
    ProposalUnowned(c, o);
    SinceSnoc(outs, o.state);
    if !e.failed { KnownOfOne(g, c, e.conn, i, o.streamId, outs + [o.state]); }
  }

  lemma {:induction false} StrangerTells(g: Config, c: Conn, o: M.Output, takes: bool, outs: seq<M.OutputState>)
    requires Owned(c, Some(o)) && Proposed(c, o) && Unclaimed(c, o.streamId)
    requires o.streamId % 2 == 0 || o.streamId < c.net.nextId
    ensures var e := OnStranger(g, c, o, takes);
            (e.failed || Known(g, e.conn, o.streamId, outs + [o.state])) && Tells(g, c, o, takes, outs, e)
  {
    var r := ListenerOf(g.requests, o);
    if r < |g.requests| { assert g.requests[r] in g.requests; }
  }

  /** Every output: what is said is what it tells, and what it leaves is known. */
  lemma {:induction false} HandleTells(g: Config, c: Conn, o: M.Output, takes: bool, outs: seq<M.OutputState>)
    requires Owned(c, Some(o)) && Proposed(c, o) && Room(c.net) && Known(g, c, o.streamId, outs)
    requires o.streamId % 2 == 0 || o.streamId < c.net.nextId
    ensures var e := Handle(g, c, o, takes);
            (e.failed || Known(g, e.conn, o.streamId, outs + [o.state])) && Tells(g, c, o, takes, outs, e)
  {
    var id := o.streamId;
    if id in c.inflight {
      RequestTells(g, c, o, takes, outs);
    } else if id in c.incoming {
      IncomingTells(g, c, o, takes, outs);
    } else {
      UnaskedTells(g, c, o, takes, outs);
    }
  }

  lemma {:induction false} UnaskedTells(g: Config, c: Conn, o: M.Output, takes: bool, outs: seq<M.OutputState>)
    requires Owned(c, Some(o)) && Proposed(c, o) && Room(c.net) && Known(g, c, o.streamId, outs)
    requires o.streamId !in c.inflight && o.streamId !in c.incoming
             && (o.streamId % 2 == 0 || o.streamId < c.net.nextId)
    ensures var e := Handle(g, c, o, takes);
            (e.failed || Known(g, e.conn, o.streamId, outs + [o.state])) && Tells(g, c, o, takes, outs, e)
  {
    var id, out, inb := o.streamId, OutboundOf(c.subs, o.streamId), InboundOf(c.subs, o);
    if out < |c.subs| {
      OutboundTells(g, c, out, o, takes, outs);
    } else if inb < |c.subs| {
      if On(c.subs[inb].theirs, id) {
        InboundTells(g, c, inb, o, takes, outs);
      } else {
        ProposedUnclaimed(c, o);
        if c.subs[inb].theirs.Closed? {
          ProposalTells(g, c, inb, o, takes, outs);
        } else {
          SecondProposalTells(g, c, inb, o, takes, outs);
        }
      }
    } else {
      StrangerTells(g, c, o, takes, outs);
    }
  }

  lemma {:induction false} ProposedUnclaimed(c: Conn, o: M.Output)
    requires Owned(c, Some(o)) && Proposed(c, o) && o.state.IncomingProtocol?
    requires o.streamId !in c.inflight && OutboundOf(c.subs, o.streamId) == |c.subs|
    ensures Unclaimed(c, o.streamId)
  {
    ProposalUnowned(c, o);
  }

  // ---------------------------------------------------------------------------
  // Every run
  // ---------------------------------------------------------------------------

  /** Outputs come on streams of the peer's or streams we have opened. */
  lemma {:induction false} EmittedOnOpened(g: Config, c: Conn, d: Drive)
    requires Owned(c, None) && Possible(c, Next(d))
    ensures var t := M.Round(c.net.layer, d.input, d.takes, g.isUtf8).turn;
            t.Emit? ==> t.output.streamId % 2 == 0 || t.output.streamId < c.net.nextId
  {
    var t := M.Round(c.net.layer, d.input, d.takes, g.isUtf8).turn;
    if t.Emit? && t.output.streamId % 2 == 1 && t.output.streamId >= c.net.nextId {
      M.RoundAbsent(c.net.layer, d.input, d.takes, g.isUtf8, t.output.streamId);
    }
  }

  /** The turn that hears an output of the stream: what is told of it, and what is known then. */
  lemma {:induction false} TurnKnown(g: Config, c: Conn, d: Drive, id: StreamId, out: M.OutputState,
                                     outs: seq<M.OutputState>)
    requires Safe(c) && Possible(c, Next(d)) && Known(g, c, id, outs) && !c.finished
    requires M.Round(c.net.layer, d.input, d.takes, g.isUtf8).turn == M.Emit(M.Output(id, out))
    ensures var c' := Listened(g, c, d); c'.finished || Known(g, c', id, outs + [out])
    ensures var c1 := AfterRound(c, M.Round(c.net.layer, d.input, d.takes, g.isUtf8));
            Tells(g, c1, M.Output(id, out), d.takesReply, outs, Handle(g, c1, M.Output(id, out), d.takesReply))
  {
    var r := M.Round(c.net.layer, d.input, d.takes, g.isUtf8);
    RoundKeepsOwned(c, d.input, d.takes, g.isUtf8);
    EmittedOnOpened(g, c, d);
    HandleTells(g, AfterRound(c, r), M.Output(id, out), d.takesReply, outs);
  }

  lemma {:induction false} StepKnown(g: Config, c: Conn, e: Event, id: StreamId, outs: seq<M.OutputState>)
    requires Safe(c) && Possible(c, e) && (c.finished || Known(g, c, id, outs))
    ensures Step(g, c, e).finished || Known(g, Step(g, c, e), id, outs + OutputOn(g, c, e, id))
  {
    if OutputOn(g, c, e, id) != [] {
      TurnKnown(g, c, e.drive, id, Emitted(g, c, e).value.state, outs);
    } else {
      assert outs + [] == outs;
      if c.finished {
        StaysFinished(g, c, e);
      } else {
        StepElsewhere(g, c, e, id);
        UnmovedKnown(g, c, Step(g, c, e), id, outs);
      }
    }
  }

  lemma {:induction false} StaysFinished(g: Config, c: Conn, e: Event)
    requires Possible(c, e) && c.finished
    ensures Step(g, c, e).finished
  {
  }

  lemma {:induction false} RunKnown(g: Config, c: Conn, events: seq<Event>, c': Conn, id: StreamId,
                                    outs: seq<M.OutputState>)
    requires Safe(c) && Run(g, c, events, c') && (c.finished || Known(g, c, id, outs))
    ensures c'.finished || Known(g, c', id, outs + OutputsOn(g, c, events, id))
    decreases |events|
  {
    if events == [] {
      assert outs + [] == outs;
    } else {
      var out := OutputOn(g, c, events[0], id);
      StepKnown(g, c, events[0], id, outs);
      StepIsSafe(g, c, events[0]);
      RunKnown(g, Step(g, c, events[0]), events[1..], c', id, outs + out);
      Assoc(outs, out, OutputsOn(g, Step(g, c, events[0]), events[1..], id));
    }
  }

  /** What a turn returns on an output: what the output tells of, given all that was heard of its stream before; or
      nothing, when a reply that is called for cannot be sent, which ends the connection. */
  ghost predicate Told(g: Config, c: Conn, d: Drive, o: M.Output, outs: seq<M.OutputState>, said: Option<Message>)
    requires Possible(c, Next(d))
  {
    var c', after := Step(g, c, Next(d)), AfterRound(c, M.Round(c.net.layer, d.input, d.takes, g.isUtf8));
    && c'.delivered == c.delivered + Maybe(said)
    && (Says(g, c, o, outs, said) || (said == None && c'.finished && CannotReply(after, o, d.takesReply)))
  }

  lemma {:induction false} TurnTold(g: Config, c: Conn, d: Drive, o: M.Output, outs: seq<M.OutputState>)
      returns (said: Option<Message>)
    requires Safe(c) && Possible(c, Next(d)) && Emitted(g, c, Next(d)) == Some(o) && Known(g, c, o.streamId, outs)
    ensures Told(g, c, d, o, outs, said)
  {
    var c1 := AfterRound(c, M.Round(c.net.layer, d.input, d.takes, g.isUtf8));
    var e := Handle(g, c1, o, d.takesReply);
    said := e.said;
    TurnKnown(g, c, d, o.streamId, o.state, outs);
    TurnConcludes(g, c, d, o, e);
    if !e.failed { SameSays(g, c, c1, o, outs, said); }
  }

  lemma {:induction false} TurnConcludes(g: Config, c: Conn, d: Drive, o: M.Output, e: Effect)
    requires Possible(c, Next(d)) && Emitted(g, c, Next(d)) == Some(o)
    requires e == Handle(g, AfterRound(c, M.Round(c.net.layer, d.input, d.takes, g.isUtf8)), o, d.takesReply)
    ensures var c' := Step(g, c, Next(d)); c'.delivered == c.delivered + Maybe(e.said) && (e.failed ==> c'.finished)
  {
    assert c.delivered + [] == c.delivered;
  }

  lemma {:induction false} SameSays(g: Config, c: Conn, c1: Conn, o: M.Output, outs: seq<M.OutputState>,
                                    said: Option<Message>)
    requires Says(g, c1, o, outs, said)
    requires c1.inflight == c.inflight && c1.incoming == c.incoming && c1.subs == c.subs
    ensures Says(g, c, o, outs, said)
  {
    assert Unclaimed(c, o.streamId) ==> Unclaimed(c1, o.streamId);
  }

  /** In every run, when a turn hears an output. */
  lemma {:induction false} ToldExactly(g: Config, c0: Conn, events: seq<Event>, c: Conn, d: Drive, o: M.Output)
      returns (said: Option<Message>)
    requires Initial(c0) && Run(g, c0, events, c) && Possible(c, Next(d)) && Emitted(g, c, Next(d)) == Some(o)
    ensures Told(g, c, d, o, OutputsOn(g, c0, events, o.streamId), said)
  {
    InitiallySafe(c0);
    EveryConnectionIsSafe(g, c0, events, c);
    var outs := OutputsOn(g, c0, events, o.streamId);
    NewKnown(g, c0, o.streamId);
    RunKnown(g, c0, events, c, o.streamId, []);
    assert [] + outs == outs;
    said := TurnTold(g, c, d, o, outs);
  }

  lemma {:induction false} NewKnown(g: Config, c: Conn, id: StreamId)
    requires Initial(c)
    ensures Known(g, c, id, [])
  {
  }

  /** When a turn ends the connection: the session has ended with nothing left to read, the layer fails, or a reply that
      is called for cannot be sent. */
  lemma {:induction false} EndsExactly(g: Config, c: Conn, d: Drive)
    requires Possible(c, Next(d)) && !c.finished
    ensures var idle := c.nextBuf == [] && FirstExpired(c, d.expired) == |d.expired|;
            var r := M.Round(c.net.layer, d.input, d.takes, g.isUtf8);
            && (idle && d.ended && c.net.layer.readFrom == None ==> Step(g, c, Next(d)).finished)
            && (Listens(c, d) && r.turn.Fail? ==> Step(g, c, Next(d)).finished)
            && (Listens(c, d) && r.turn.Again? ==> !Step(g, c, Next(d)).finished)
            && (!idle ==> !Step(g, c, Next(d)).finished)
  {
  }

  /** And when it hears none: it returns what was kept back, or the timeout of a request in flight, or nothing. */
  lemma {:induction false} OtherwiseTold(g: Config, c: Conn, d: Drive)
    requires Possible(c, Next(d)) && Emitted(g, c, Next(d)) == None
    ensures var told := Step(g, c, Next(d)).delivered;
            || told == c.delivered
            || (c.nextBuf != [] && told == c.delivered + [c.nextBuf[0]])
            || (exists id :: id in d.expired && id in c.inflight
                             && told == c.delivered + [Response(id, c.inflight[id].protocol, Failed(Timeout))])
  {
    var r := FirstExpired(c, d.expired);
    if !c.finished && c.nextBuf == [] && r < |d.expired| { assert d.expired[r] in d.expired; }
  }
}
