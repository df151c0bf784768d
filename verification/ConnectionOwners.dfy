/** Who owns a stream: in every reachable state of a connection at most one request of ours, request of
    the peer's, or side of a subscription (`src/connection.rs`). */
module ConnectionOwners {
  import opened Bytes
  import opened ConnectionView
  import M = MultistreamView

  predicate IsOurs(n: Net, id: StreamId) { id % 2 == 1 && id < n.nextId }

  predicate IsTheirs(id: StreamId) { id % 2 == 0 }

  /** An output the multistream layer has emitted and the connection has not yet handled; a stream it
      reports closed is gone already. */
  predicate Kept(n: Net, id: StreamId, o: Option<M.Output>)
  {
    M.Held(n.layer, id) || (o.Some? && o.value.streamId == id && o.value.state.Closed?)
  }

  ghost predicate NetSound(n: Net) { n.nextId % 2 == 1 && M.OddAreOurs(n.layer, n.nextId) && M.OneProposal(n.layer) }

  ghost predicate RequestsOwned(c: Conn, o: Option<M.Output>)
  {
    && (forall id :: id in c.inflight ==> IsOurs(c.net, id))
    && (forall id :: id in c.incoming ==> IsTheirs(id) && Kept(c.net, id, o))
  }

  /** The streams of one subscription: ours odd, theirs even, both its own, and theirs only beside ours. */
  ghost predicate SubOwned(c: Conn, s: Subscription, o: Option<M.Output>)
  {
    && (!s.ours.Closed? ==> IsOurs(c.net, s.ours.id) && s.ours.id !in c.inflight)
    && (!s.theirs.Closed? ==>
          IsTheirs(s.theirs.id) && s.theirs.id !in c.incoming && !s.ours.Closed? && Kept(c.net, s.theirs.id, o))
  }

  predicate Apart(a: Subscription, b: Subscription)
  {
    && (!a.ours.Closed? && !b.ours.Closed? ==> a.ours.id != b.ours.id)
    && (!a.theirs.Closed? && !b.theirs.Closed? ==> a.theirs.id != b.theirs.id)
  }

  ghost predicate Owned(c: Conn, o: Option<M.Output>)
  {
    && NetSound(c.net) && RequestsOwned(c, o)
    && (forall i :: 0 <= i < |c.subs| ==> SubOwned(c, c.subs[i], o))
    && (forall i, j :: 0 <= i < |c.subs| && 0 <= j < |c.subs| && i != j ==> Apart(c.subs[i], c.subs[j]))
  }

  /** A proposal is reported while it awaits its answer. */
  predicate Proposed(c: Conn, o: M.Output)
  {
    o.state.IncomingProtocol? ==>
        o.streamId in c.net.layer.slots && c.net.layer.slots[o.streamId].state.WaitingForAccept?
  }

  // ---------------------------------------------------------------------------
  // Plain terms
  // ---------------------------------------------------------------------------

  datatype Owner = OurRequest | TheirRequest | Outbound(i: nat) | Inbound(i: nat)

  predicate Owns(c: Conn, w: Owner, id: StreamId)
  {
    match w
    case OurRequest => id in c.inflight
    case TheirRequest => id in c.incoming
    case Outbound(i) => i < |c.subs| && On(c.subs[i].ours, id)
    case Inbound(i) => i < |c.subs| && On(c.subs[i].theirs, id)
  }

  /** At most one owner; what we opened is odd, what the peer opened even; no inbound side without ours. */
  lemma {:induction false} OneOwner(c: Conn, a: Owner, b: Owner, id: StreamId)
    requires Owned(c, None) && Owns(c, a, id) && Owns(c, b, id)
    ensures a == b
    ensures a.OurRequest? || a.Outbound? <==> id % 2 == 1
    ensures a.Inbound? ==> !c.subs[a.i].ours.Closed?
  {
    OwnerParity(c, a, id);
    OwnerParity(c, b, id);
    assert forall i, j :: 0 <= i < |c.subs| && 0 <= j < |c.subs| && i != j ==> Apart(c.subs[i], c.subs[j]);
  }

  lemma {:induction false} OwnerParity(c: Conn, a: Owner, id: StreamId)
    requires Owned(c, None) && Owns(c, a, id)
    ensures a.OurRequest? || a.Outbound? <==> id % 2 == 1
    ensures a.Outbound? ==> id !in c.inflight
    ensures a.Inbound? ==> id !in c.incoming && !c.subs[a.i].ours.Closed?
  {
  }

  // ---------------------------------------------------------------------------
  // Moves
  // ---------------------------------------------------------------------------

  /** The layer below changed, but no stream in use was lost. */
  ghost predicate NetKeeps(c: Conn, n: Net, o: Option<M.Output>)
  {
    && NetSound(n) && n.nextId >= c.net.nextId
    && (forall id :: id in c.incoming ==> Kept(n, id, o))
    && (forall i :: 0 <= i < |c.subs| && !c.subs[i].theirs.Closed? ==> Kept(n, c.subs[i].theirs.id, o))
  }

  lemma {:induction false} NetMoves(c: Conn, n: Net, o: Option<M.Output>, o': Option<M.Output>)
    requires Owned(c, o) && NetKeeps(c, n, o')
    ensures Owned(c.(net := n), o')
  {
  }

  /** One subscription changed. */
  lemma {:induction false} SubMoves(c: Conn, i: nat, s: Subscription, o: Option<M.Output>)
    requires Owned(c, o) && i < |c.subs| && SubOwned(c, s, o)
    requires forall j :: 0 <= j < |c.subs| && j != i ==> Apart(c.subs[j], s)
    ensures Owned(c.(subs := c.subs[i := s]), o)
  {
  }

  /** Nothing to do with this output is in use any more. */
  ghost predicate Settled(c: Conn, id: StreamId)
  {
    id !in c.incoming && forall i :: 0 <= i < |c.subs| ==> !On(c.subs[i].theirs, id)
  }

  lemma {:induction false} Forget(c: Conn, o: M.Output)
    requires Owned(c, Some(o)) && (o.state.Closed? ==> Settled(c, o.streamId))
    ensures Owned(c, None)
  {
  }

  lemma {:induction false} ResetKeeps(c: Conn, id: StreamId, o: Option<M.Output>)
    requires Owned(c, o) && Settled(c, id)
    ensures Owned(c.(net := NetReset(c.net, id)), o)
  {
  }

  /** A stream of ours is nobody's inbound stream. */
  lemma {:induction false} OursSettled(c: Conn, id: StreamId, o: Option<M.Output>)
    requires Owned(c, o) && id % 2 == 1
    ensures Settled(c, id)
  {
  }

  lemma {:induction false} SendKeeps(c: Conn, id: StreamId, data: Payload, takes: bool, o: Option<M.Output>)
    requires Owned(c, o)
    ensures Owned(c.(net := NetSend(c.net, id, data, takes)), o)
  {
  }

  lemma {:induction false} CloseKeeps(c: Conn, id: StreamId, o: Option<M.Output>)
    requires Owned(c, o)
    ensures Owned(c.(net := NetClose(c.net, id)), o)
  {
  }

  lemma {:induction false} AnswerKeeps(c: Conn, id: StreamId, accept: Option<nat>, takes: bool, o: Option<M.Output>)
    requires Owned(c, o)
    ensures Owned(c.(net := NetAnswer(c.net, id, accept, takes)), o)
    ensures accept.Some? && M.AnswerError(c.net.layer, id, takes).None? ==>
              M.Held(NetAnswer(c.net, id, accept, takes).layer, id)
  {
    var n := NetAnswer(c.net, id, accept, takes);
    forall i | 0 <= i < |c.subs| && !c.subs[i].theirs.Closed? ensures Kept(n, c.subs[i].theirs.id, o) {
      assert SubOwned(c, c.subs[i], o);
    }
    NetMoves(c, n, o, o);
  }

  lemma {:induction false} OpenKeeps(c: Conn, name: M.Name, maxSize: nat, o: Option<M.Output>)
    requires Owned(c, o) && Room(c.net)
    ensures Owned(c.(net := NetOpen(c.net, name, maxSize)), o)
    ensures c.net.nextId !in c.inflight && forall j :: 0 <= j < |c.subs| ==> !On(c.subs[j].ours, c.net.nextId)
  {
  }

  /** Fewer requests in either table. */
  lemma {:induction false} RemovalKeeps(c: Conn, c': Conn, o: Option<M.Output>)
    requires Owned(c, o) && c'.net == c.net && c'.subs == c.subs
    requires c'.inflight.Keys <= c.inflight.Keys && c'.incoming.Keys <= c.incoming.Keys
    ensures Owned(c', o)
  {
  }

  // ---------------------------------------------------------------------------
  // Outputs
  // ---------------------------------------------------------------------------

  lemma {:induction false} RequestKeepsOwned(c: Conn, o: M.Output, takes: bool)
    requires Owned(c, Some(o)) && o.streamId in c.inflight
    ensures Owned(OnRequest(c, o.streamId, o.state, takes).conn, None)
  {
    var id, p := o.streamId, c.inflight[o.streamId].protocol;
    OursSettled(c, id, Some(o));
    Forget(c, o);
    match RequestEnding(c.inflight[id].state, o.state)
    case Some(e) =>
      var c1 := if e.reset then c.(net := NetReset(c.net, id)) else c;
      if e.reset { ResetKeeps(c, id, None); }
      RemovalKeeps(c1, c1.(inflight := c.inflight - {id}), None);
    case None =>
      var waiting := c.(inflight := c.inflight[id := Inflight(p, AwaitingConfirmation([]))]);
      RemovalKeeps(c, waiting, None);
      var sent := c.(inflight := c.inflight[id := Inflight(p, AwaitingResponse)]);
      RemovalKeeps(c, sent, None);
      var payload := if c.inflight[id].state.AwaitingConfirmation? then c.inflight[id].state.payload else [];
      SendKeeps(sent, id, payload, takes, None);
      CloseKeeps(sent.(net := NetSend(c.net, id, payload, takes)), id, None);
  }

  lemma {:induction false} IncomingSettled(c: Conn, id: StreamId, o: Option<M.Output>)
    requires Owned(c, o) && id in c.incoming
    ensures Settled(c.(incoming := c.incoming - {id}), id)
  {
  }

  lemma {:induction false} IncomingKeepsOwned(c: Conn, o: M.Output)
    requires Owned(c, Some(o)) && o.streamId in c.incoming
    ensures Owned(OnIncoming(c, o.streamId, o.state).conn, None)
  {
    var gone := c.(incoming := c.incoming - {o.streamId});
    RemovalKeeps(c, gone, Some(o));
    IncomingSettled(c, o.streamId, Some(o));
    Forget(gone, o);
    ResetKeeps(gone, o.streamId, None);
  }

  lemma {:induction false} SilencedKeepsOwned(c: Conn, i: nat, o: Option<M.Output>)
    requires Owned(c, o) && i < |c.subs|
    ensures Owned(Silenced(c, i), o)
  {
  }

  /** Cutting a subscription on whose stream the output came settles that stream. */
  lemma {:induction false} CutKeepsOwned(c: Conn, i: nat, o: M.Output)
    requires Owned(c, Some(o)) && i < |c.subs|
    requires o.state.Closed? ==> On(c.subs[i].theirs, o.streamId) || o.streamId % 2 == 1
    ensures Owned(Silenced(c, i), None)
  {
  }

  lemma {:induction false} OutboundKeepsOwned(g: Config, c: Conn, i: nat, o: M.Output, takes: bool)
    requires Owned(c, Some(o)) && i < |c.subs| && On(c.subs[i].ours, o.streamId)
    ensures Owned(OnOutbound(g, c, i, o.state, takes).conn, None)
  {
    var s := c.subs[i];
    assert SubOwned(c, s, Some(o));
    match ReadOutbound(s.ours, o.state, Valid(g, s, o.state))
    case Over(_) => CutKeepsOwned(c, i, o);
    case Agreed =>
      Forget(c, o);
      SendKeeps(c, s.ours.id, s.handshake, takes, None);
    case Shaken =>
      Forget(c, o);
      SameStreams(c, i, s.(ours := Open(s.ours.id)));
  }

  /** A side that opens keeps its stream. */
  lemma {:induction false} SameStreams(c: Conn, i: nat, s: Subscription)
    requires Owned(c, None) && i < |c.subs|
    requires forall id :: On(s.ours, id) == On(c.subs[i].ours, id)
    requires forall id :: On(s.theirs, id) == On(c.subs[i].theirs, id)
    ensures Owned(c.(subs := c.subs[i := s]), None)
  {
    var b := c.subs[i];
    assert SubOwned(c, b, None);
    assert !b.ours.Closed? ==> On(b.ours, b.ours.id);
    assert !s.ours.Closed? ==> On(s.ours, s.ours.id);
    assert !b.theirs.Closed? ==> On(b.theirs, b.theirs.id);
    assert !s.theirs.Closed? ==> On(s.theirs, s.theirs.id);
    forall j | 0 <= j < |c.subs| && j != i ensures Apart(c.subs[j], s) { assert Apart(c.subs[j], b); }
    SubMoves(c, i, s, None);
  }

  lemma {:induction false} InboundKeepsOwned(g: Config, c: Conn, i: nat, o: M.Output, takes: bool)
    requires Owned(c, Some(o)) && i < |c.subs| && !c.subs[i].theirs.Closed?
    requires o.state.IncomingProtocol? || On(c.subs[i].theirs, o.streamId)
    ensures Owned(OnInbound(g, c, i, o.state, takes).conn, None)
  {
    var s := c.subs[i];
    match ReadInbound(s.theirs, o.state, Valid(g, s, o.state))
    case Over(_) => CutKeepsOwned(c, i, o);
    case Report(_) => Forget(c, o);
    case Shaken =>
      Forget(c, o);
      SendKeeps(c, s.theirs.id, s.handshake, takes, None);
      SameStreams(c.(net := NetSend(c.net, s.theirs.id, s.handshake, takes)), i, s.(theirs := Open(s.theirs.id)));
  }

  lemma {:induction false} BegunKeepsOwned(c: Conn, i: nat)
    requires Owned(c, None) && i < |c.subs| && c.subs[i].ours.Closed? && Room(c.net)
    ensures Owned(Begun(c, i), None)
  {
  }

  /** A stream awaiting an answer to its proposal is nobody's yet. */
  lemma {:induction false} ProposalUnowned(c: Conn, o: M.Output)
    requires Owned(c, Some(o)) && Proposed(c, o) && o.state.IncomingProtocol?
    ensures Settled(c, o.streamId) && IsTheirs(o.streamId)
  {
  }

  lemma {:induction false} ProposalKeepsOwned(c: Conn, i: nat, o: M.Output, takes: bool)
    requires Owned(c, Some(o)) && Proposed(c, o) && o.state.IncomingProtocol? && Room(c.net)
    requires i < |c.subs| && c.subs[i].theirs.Closed?
    ensures Owned(OnProposal(c, i, o.streamId, takes).conn, None)
  {
    var s, id := c.subs[i], o.streamId;
    ProposalUnowned(c, o);
    Forget(c, o);
    if !s.allowInbound && s.ours.Closed? {
      ResetKeeps(c, id, None);
    } else {
      AnswerKeeps(c, id, Some(s.maxSize), takes, None);
      if M.AnswerError(c.net.layer, id, takes).None? {
        JoinedKeepsOwned(c.(net := NetAnswer(c.net, id, Some(s.maxSize), takes)), i, id);
      }
    }
  }

  /** The inbound side takes the stream that was just accepted, beside an outbound side. */
  lemma {:induction false} TakesInbound(c: Conn, i: nat, id: StreamId)
    requires Owned(c, None) && i < |c.subs| && !c.subs[i].ours.Closed?
    requires Settled(c, id) && IsTheirs(id) && M.Held(c.net.layer, id)
    ensures Owned(c.(subs := c.subs[i := c.subs[i].(theirs := Handshake(id))]), None)
  {
  }

  lemma {:induction false} JoinedKeepsOwned(c: Conn, i: nat, id: StreamId)
    requires Owned(c, None) && Room(c.net) && i < |c.subs|
    requires Settled(c, id) && IsTheirs(id) && M.Held(c.net.layer, id)
    ensures Owned(Joined(c, i, id), None)
  {
    if c.subs[i].ours.Closed? {
      BegunKeepsOwned(c, i);
      TakesInbound(Begun(c, i), i, id);
      var both := c.subs[i].(ours := Handshake(c.net.nextId), theirs := Handshake(id));
      assert c.subs[i := c.subs[i].(theirs := Handshake(id))][i := both] == Begun(c, i).subs[i := both];
    } else {
      TakesInbound(c, i, id);
    }
  }

  lemma {:induction false} StrangerKeepsOwned(g: Config, c: Conn, o: M.Output, takes: bool)
    requires Owned(c, Some(o)) && Proposed(c, o) && Settled(c, o.streamId)
    ensures Owned(OnStranger(g, c, o, takes).conn, None)
  {
    var id, r := o.streamId, ListenerOf(g.requests, o);
    Forget(c, o);
    if r < |g.requests| {
      ProposalUnowned(c, o);
      AnswerKeeps(c, id, Some(g.requests[r].maxSize), takes, None);
      var c1 := c.(net := NetAnswer(c.net, id, Some(g.requests[r].maxSize), takes));
      if M.AnswerError(c.net.layer, id, takes).None? {
        AddsIncoming(c1, id, g.requests[r].protocol);
      }
    } else if o.state.IncomingProtocol? {
      AnswerKeeps(c, id, None, takes, None);
    } else if !o.state.Closed? {
      ResetKeeps(c, id, None);
    }
  }

  lemma {:induction false} AddsIncoming(c: Conn, id: StreamId, protocol: nat)
    requires Owned(c, None) && Settled(c, id) && IsTheirs(id) && M.Held(c.net.layer, id)
    ensures Owned(c.(incoming := c.incoming[id := protocol]), None)
  {
  }

  /** Handling any output keeps every stream with one owner. */
  lemma {:induction false} HandleKeepsOwned(g: Config, c: Conn, o: M.Output, takes: bool)
    requires Owned(c, Some(o)) && Proposed(c, o) && Room(c.net)
    ensures Owned(Handle(g, c, o, takes).conn, None)
  {
    var id := o.streamId;
    if id in c.inflight {
      RequestKeepsOwned(c, o, takes);
    } else if id in c.incoming {
      IncomingKeepsOwned(c, o);
    } else {
      var out, inb := OutboundOf(c.subs, id), InboundOf(c.subs, o);
      if out < |c.subs| {
        OutboundKeepsOwned(g, c, out, o, takes);
      } else if inb < |c.subs| {
        if c.subs[inb].theirs.Closed? {
          ProposalKeepsOwned(c, inb, o, takes);
        } else {
          InboundKeepsOwned(g, c, inb, o, takes);
        }
      } else {
        StrangerKeepsOwned(g, c, o, takes);
      }
    }
  }

  // ---------------------------------------------------------------------------
  // Steps
  // ---------------------------------------------------------------------------

  lemma {:induction false} RoundKeepsOwned(c: Conn, input: M.Input, takes: bool, isUtf8: M.Name -> bool)
    requires Owned(c, None) && (input.RemoteOpened? ==> input.id % 2 == 0)
    ensures var o := M.Round(c.net.layer, input, takes, isUtf8);
            && Owned(AfterRound(c, o), if o.turn.Emit? then Some(o.turn.output) else None)
            && (o.turn.Emit? ==> Proposed(AfterRound(c, o), o.turn.output))
  {
    M.RoundPromises(c.net.layer, input, takes, isUtf8, c.net.nextId);
    M.RoundLeavesOdd(c.net.layer, input, takes, isUtf8, c.net.nextId, 1);
    var o := M.Round(c.net.layer, input, takes, isUtf8);
    var n := AfterRound(c, o).net;
    var out := if o.turn.Emit? then Some(o.turn.output) else None;
    forall i | 0 <= i < |c.subs| && !c.subs[i].theirs.Closed? ensures Kept(n, c.subs[i].theirs.id, out) {
      assert SubOwned(c, c.subs[i], None);
    }
    NetMoves(c, n, None, out);
  }

  /** Ownership looks only at the tables and the layer below. */
  lemma {:induction false} OwnedFrame(c: Conn, c': Conn)
    requires Owned(c, None)
    requires c'.inflight == c.inflight && c'.incoming == c.incoming && c'.subs == c.subs && c'.net == c.net
    ensures Owned(c', None)
  {
  }

  lemma {:induction false} AbortKeepsOwned(c: Conn, id: StreamId)
    requires Owned(c, None) && id in c.inflight
    ensures Owned(c.(inflight := c.inflight - {id}, net := NetReset(c.net, id)), None)
  {
  }

  lemma {:induction false} DrivenKeepsOwned(g: Config, c: Conn, d: Drive)
    requires Owned(c, None) && Possible(c, Next(d))
    ensures Owned(Driven(g, c, d), None)
  {
    if !c.finished {
      var r := FirstExpired(c, d.expired);
      if c.nextBuf != [] {
        OwnedFrame(c, Popped(c));
      } else if r < |d.expired| {
        AbortKeepsOwned(c, d.expired[r]);
        OwnedFrame(c.(inflight := c.inflight - {d.expired[r]}, net := NetReset(c.net, d.expired[r])),
                   TimedOut(c, d.expired[r]));
      } else if d.ended && c.net.layer.readFrom == None {
        OwnedFrame(c, c.(finished := true));
      } else {
        ListenedKeepsOwned(g, c, d);
      }
    }
  }

  lemma {:induction false} ConcludeKeepsOwned(e: Effect)
    requires Owned(e.conn, None)
    ensures Owned(Conclude(e), None)
  {
  }

  lemma {:induction false} ReactedKeepsOwned(g: Config, c: Conn, t: M.Turn, takes: bool)
    requires Owned(c, if t.Emit? then Some(t.output) else None) && (t.Emit? ==> Proposed(c, t.output)) && Room(c.net)
    ensures Owned(Reacted(g, c, t, takes), None)
  {
    if t.Emit? {
      HandleKeepsOwned(g, c, t.output, takes);
      ConcludeKeepsOwned(Handle(g, c, t.output, takes));
    } else {
      OwnedFrame(c, Reacted(g, c, t, takes));
    }
  }

  lemma {:induction false} ListenedKeepsOwned(g: Config, c: Conn, d: Drive)
    requires Owned(c, None) && Possible(c, Next(d))
    ensures Owned(Listened(g, c, d), None)
  {
    var o := M.Round(c.net.layer, d.input, d.takes, g.isUtf8);
    RoundKeepsOwned(c, d.input, d.takes, g.isUtf8);
    ReactedKeepsOwned(g, AfterRound(c, o), o.turn, d.takesReply);
  }

  lemma {:induction false} AddsInflight(c: Conn, id: StreamId, q: Inflight)
    requires Owned(c, None) && IsOurs(c.net, id) && forall j :: 0 <= j < |c.subs| ==> !On(c.subs[j].ours, id)
    ensures Owned(c.(inflight := c.inflight[id := q]), None)
  {
  }

  lemma {:induction false} RequestedKeepsOwned(g: Config, c: Conn, protocol: nat, payload: Payload)
    requires Owned(c, None) && Room(c.net)
    ensures Owned(Requested(g, c, protocol, payload), None)
  {
    var r := ProtocolOf(g.requests, protocol);
    if r < |g.requests| {
      var c', q := Requested(g, c, protocol, payload), g.requests[r];
      OpenKeeps(c, q.name, q.maxSize, None);
      AddsInflight(c.(net := NetOpen(c.net, q.name, q.maxSize)), c.net.nextId,
                   Inflight(protocol, AwaitingConfirmation(payload)));
      OwnedFrame(c'.(issued := c.issued), c');
    }
  }

  lemma {:induction false} CancelledKeepsOwned(c: Conn, id: StreamId)
    requires Owned(c, None)
    ensures Owned(RequestCancelled(c, id), None)
  {
    if id in c.inflight {
      AbortKeepsOwned(c, id);
      OwnedFrame(c.(inflight := c.inflight - {id}, net := NetReset(c.net, id)), RequestCancelled(c, id));
    }
  }

  /** Every step of a connection keeps every stream with one owner. */
  lemma {:induction false} StepKeepsOwned(g: Config, c: Conn, e: Event)
    requires Owned(c, None) && Possible(c, e)
    ensures Owned(Step(g, c, e), None)
  {
    match e
    case CallRequest(p, payload) => RequestedKeepsOwned(g, c, p, payload);
    case CallCancelRequest(id) => CancelledKeepsOwned(c, id);
    case CallRespond(id, payload, takes) =>
      SendKeeps(c, id, payload, takes, None);
      CloseKeeps(c.(net := NetSend(c.net, id, payload, takes)), id, None);
    case CallSubscribe(p) =>
      if SubscribeError(c, p).None? { BegunKeepsOwned(c, SubOf(c.subs, p)); }
    case CallNotify(p, payload, takes) =>
      if NotifyError(c, p, takes).None? { SendKeeps(c, c.subs[SubOf(c.subs, p)].ours.id, payload, takes, None); }
    case CallCancelSubscription(p) =>
      var i := SubOf(c.subs, p);
      if i < |c.subs| {
        SilencedKeepsOwned(c, i, None);
        OwnedFrame(Silenced(c, i), Step(g, c, e));
      }
    case Next(d) => DrivenKeepsOwned(g, c, d);
  }
}
