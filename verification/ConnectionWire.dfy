/** What a connection says on the streams it opened: a request's payload once and only after acceptance, and
    a subscription's handshake before it counts as open (`src/connection.rs`). */
module ConnectionWire {
  import opened Bytes
  import opened ConnectionView
  import opened ConnectionRuns
  import opened ConnectionOwners
  import opened ConnectionSafety
  import F = FrameBuffer
  import M = MultistreamView

  /** What was asked of the session below for a stream, apart from resets. */
  function Spoken(box: seq<M.Command>, id: StreamId): seq<M.Command>
  {
    if box == [] then []
    else
      var c := box[|box| - 1];
      Spoken(box[..|box| - 1], id) + if c.id == id && !c.ResetStream? then [c] else []
  }

  predicate Silent(commands: seq<M.Command>, id: StreamId)
  {
    forall c :: c in commands ==> c.id != id || c.ResetStream?
  }

  lemma {:induction false} SpokenSnoc(box: seq<M.Command>, c: M.Command, id: StreamId)
    ensures Spoken(box + [c], id) == Spoken(box, id) + if c.id == id && !c.ResetStream? then [c] else []
  {
    assert (box + [c])[..|box|] == box;
  }

  lemma {:induction false} SpokenSilent(box: seq<M.Command>, commands: seq<M.Command>, id: StreamId)
    requires Silent(commands, id)
    ensures Spoken(box + commands, id) == Spoken(box, id)
    decreases |commands|
  {
    if commands == [] {
      assert box + commands == box;
    } else {
      var init, c := commands[..|commands| - 1], commands[|commands| - 1];
      assert commands == init + [c];
      Assoc(box, init, [c]);
      SpokenSilent(box, init, id);
      SpokenSnoc(box + init, c, id);
    }
  }

  function Words(c: Conn, id: StreamId): seq<M.Command> { Spoken(c.net.outbox, id) }

  // ---------------------------------------------------------------------------
  // What must have been said
  // ---------------------------------------------------------------------------

  function Sends(id: StreamId, data: Payload): M.Command { M.SendBytes(id, F.Framed(data)) }

  /** The start of a negotiation. */
  function Opening(id: StreamId, name: M.Name): seq<M.Command>
  {
    [Sends(id, M.MULTISTREAM_HEADER), Sends(id, Line(name))]
  }

  /** A request from beginning to end: the negotiation, the payload, FIN. */
  function WholeRequest(id: StreamId, r: Issue): seq<M.Command>
  {
    Opening(id, r.name) + [Sends(id, r.payload), M.CloseStream(id)]
  }

  /** A request's stream carries the negotiation alone until it is accepted, and then all of it, once. */
  ghost predicate RequestWired(c: Conn, id: StreamId)
    requires id in c.issued
  {
    var r, words := c.issued[id], Words(c, id);
    && (words == Opening(id, r.name) || words == WholeRequest(id, r))
    && (id in c.inflight ==>
          match c.inflight[id].state
          case AwaitingResponse => words == WholeRequest(id, r)
          case AwaitingConfirmation(p) => words == Opening(id, r.name) && (p == r.payload || c.finished))
  }

  predicate IsValue(m: Message) { m.Response? && m.res.Value? }

  /** A response value is an answer to a payload that was sent. */
  ghost predicate AnswersFollow(c: Conn)
  {
    forall m :: m in History(c) && IsValue(m) ==>
        m.id in c.issued && Words(c, m.id) == WholeRequest(m.id, c.issued[m.id])
  }

  function AfterHandshake(id: StreamId, s: Subscription): seq<M.Command>
  {
    Opening(id, s.name) + [Sends(id, s.handshake)]
  }

  predicate Accepting(o: Option<M.Output>, id: StreamId)
  {
    o.Some? && o.value.streamId == id && o.value.state.OutgoingAccepted?
  }

  predicate Closing(o: Option<M.Output>, id: StreamId) { o.Some? && o.value.streamId == id && o.value.state.Closed? }

  /** Our side of a subscription: the negotiation, then the handshake once accepted, and open only after it. */
  ghost predicate OursWired(c: Conn, s: Subscription, o: Option<M.Output>)
  {
    match s.ours
    case Closed => true
    case Open(id) => AfterHandshake(id, s) <= Words(c, id)
    case Handshake(id) =>
      || c.finished || Closing(o, id)
      || Words(c, id) == if M.Held(c.net.layer, id) && !Accepting(o, id) then AfterHandshake(id, s)
         else Opening(id, s.name)
  }

  /** The peer's side is open only once our handshake went out on it. */
  predicate TheirsWired(c: Conn, s: Subscription)
  {
    s.theirs.Open? ==> Sends(s.theirs.id, s.handshake) in c.net.outbox
  }

  ghost predicate SubWired(c: Conn, s: Subscription, o: Option<M.Output>)
  {
    OursWired(c, s, o) && TheirsWired(c, s) && (!s.ours.Closed? ==> s.ours.id !in c.issued)
  }

  /** Nothing has been said on identifiers not yet given out. */
  ghost predicate FutureSilent(c: Conn)
  {
    forall id: StreamId :: id % 2 == 1 && id >= c.net.nextId ==> Words(c, id) == []
  }

  // ---------------------------------------------------------------------------
  // The layer below
  // ---------------------------------------------------------------------------

  lemma {:induction false} ResetWords(n: Net, id: StreamId, k: StreamId)
    ensures Spoken(NetReset(n, id).outbox, k) == Spoken(n.outbox, k) && n.outbox <= NetReset(n, id).outbox
  {
    SpokenSnoc(n.outbox, M.ResetStream(id), k);
  }

  lemma {:induction false} SendWords(n: Net, id: StreamId, data: Payload, takes: bool, k: StreamId)
    ensures var n' := NetSend(n, id, data, takes);
            && n.outbox <= n'.outbox && n'.layer == n.layer
            && Spoken(n'.outbox, k) == Spoken(n.outbox, k)
                 + if k == id && M.SendError(n.layer, id, takes).None? then [Sends(id, data)] else []
  {
    SpokenSnoc(n.outbox, Sends(id, data), k);
  }

  lemma {:induction false} CloseWords(n: Net, id: StreamId, k: StreamId)
    ensures var n' := NetClose(n, id);
            && n.outbox <= n'.outbox
            && Spoken(n'.outbox, k) == Spoken(n.outbox, k) + if k == id && id in n.layer.slots then [M.CloseStream(id)]
               else []
  {
    SpokenSnoc(n.outbox, M.CloseStream(id), k);
  }

  lemma {:induction false} AnswerWords(n: Net, id: StreamId, accept: Option<nat>, takes: bool, k: StreamId)
    requires k != id
    ensures var n' := NetAnswer(n, id, accept, takes);
            n.outbox <= n'.outbox && Spoken(n'.outbox, k) == Spoken(n.outbox, k)
  {
    if M.AnswerError(n.layer, id, takes).None? {
      var line := if accept.Some? then Line(n.layer.slots[id].state.name) else M.NOT_AVAILABLE;
      SpokenSnoc(n.outbox, Sends(id, line), k);
    }
  }

  lemma {:induction false} OpenWords(n: Net, name: M.Name, maxSize: nat, k: StreamId)
    requires Room(n)
    ensures var n' := NetOpen(n, name, maxSize);
            && n.outbox <= n'.outbox
            && Spoken(n'.outbox, k) == Spoken(n.outbox, k) + if k == n.nextId then Opening(n.nextId, name) else []
  {
    var a, b := Sends(n.nextId, M.MULTISTREAM_HEADER), Sends(n.nextId, Line(name));
    SpokenSnoc(n.outbox, a, k);
    SpokenSnoc(n.outbox + [a], b, k);
    Assoc(n.outbox, [a], [b]);
    assert [a] + [b] == [a, b];
    Assoc(Spoken(n.outbox, k), [a], [b]);
  }

  // ---------------------------------------------------------------------------
  // Who speaks on which stream
  // ---------------------------------------------------------------------------

  /** From `c` to `c'` nothing is said on stream `k`, and nothing said is taken back. */
  ghost predicate Quiet(c: Conn, c': Conn, k: StreamId)
  {
    && c.net.outbox <= c'.net.outbox
    && (k < c.net.nextId || k >= c'.net.nextId ==> Words(c', k) == Words(c, k))
  }

  lemma {:induction false} SilencedQuiet(c: Conn, i: nat, k: StreamId)
    requires i < |c.subs|
    ensures Quiet(c, Silenced(c, i), k)
  {
    var n := ResetSide(c.net, c.subs[i].ours);
    if !c.subs[i].ours.Closed? { ResetWords(c.net, c.subs[i].ours.id, k); }
    if !c.subs[i].theirs.Closed? { ResetWords(n, c.subs[i].theirs.id, k); }
  }

  /** Sending a payload and closing our half: the only two things said. */
  lemma {:induction false} StartWords(n: Net, id: StreamId, payload: Payload, takes: bool, k: StreamId)
    requires M.SendError(n.layer, id, takes).None?
    ensures var n' := NetClose(NetSend(n, id, payload, takes), id);
            && n.outbox <= n'.outbox && n'.nextId == n.nextId
            && Spoken(n'.outbox, k) == Spoken(n.outbox, k) + if k == id then [Sends(id, payload), M.CloseStream(id)]
               else []
  {
    var n1 := NetSend(n, id, payload, takes);
    SendWords(n, id, payload, takes, k);
    CloseWords(n1, id, k);
    Assoc(Spoken(n.outbox, k), [Sends(id, payload)], [M.CloseStream(id)]);
    assert [Sends(id, payload)] + [M.CloseStream(id)] == [Sends(id, payload), M.CloseStream(id)];
  }

  lemma {:induction false} RequestQuiet(c: Conn, own: StreamId, out: M.OutputState, takes: bool, k: StreamId)
    requires own in c.inflight && k != own
    ensures Quiet(c, OnRequest(c, own, out, takes).conn, k)
  {
    if RequestEnding(c.inflight[own].state, out).Some? {
      ResetWords(c.net, own, k);
    } else if M.SendError(c.net.layer, own, takes).None? {
      StartWords(c.net, own, c.inflight[own].state.payload, takes, k);
    }
  }

  lemma {:induction false} OutboundQuiet(g: Config, c: Conn, i: nat, out: M.OutputState, takes: bool, k: StreamId)
    requires i < |c.subs| && !c.subs[i].ours.Closed? && k != c.subs[i].ours.id
    ensures Quiet(c, OnOutbound(g, c, i, out, takes).conn, k)
  {
    if ReadOutbound(c.subs[i].ours, out, Valid(g, c.subs[i], out)).Over? {
      SilencedQuiet(c, i, k);
    } else {
      SendWords(c.net, c.subs[i].ours.id, c.subs[i].handshake, takes, k);
    }
  }

  lemma {:induction false} InboundQuiet(g: Config, c: Conn, i: nat, out: M.OutputState, takes: bool, k: StreamId)
    requires i < |c.subs| && !c.subs[i].theirs.Closed? && k != c.subs[i].theirs.id
    ensures Quiet(c, OnInbound(g, c, i, out, takes).conn, k)
  {
    match ReadInbound(c.subs[i].theirs, out, Valid(g, c.subs[i], out))
    case Over(_) => SilencedQuiet(c, i, k);
    case Shaken => SendWords(c.net, c.subs[i].theirs.id, c.subs[i].handshake, takes, k);
    case Report(_) =>
  }

  lemma {:induction false} JoinedQuiet(c: Conn, i: nat, own: StreamId, k: StreamId)
    requires i < |c.subs| && Room(c.net)
    ensures Quiet(c, Joined(c, i, own), k)
  {
    OpenWords(c.net, c.subs[i].name, c.subs[i].maxSize, k);
  }

  lemma {:induction false} ProposalQuiet(c: Conn, i: nat, own: StreamId, takes: bool, k: StreamId)
    requires i < |c.subs| && Room(c.net) && k != own
    ensures Quiet(c, OnProposal(c, i, own, takes).conn, k)
  {
    var s := c.subs[i];
    if !s.allowInbound && s.ours.Closed? {
      ResetWords(c.net, own, k);
    } else {
      AnswerWords(c.net, own, Some(s.maxSize), takes, k);
      JoinedQuiet(c.(net := NetAnswer(c.net, own, Some(s.maxSize), takes)), i, own, k);
    }
  }

  lemma {:induction false} StrangerQuiet(g: Config, c: Conn, o: M.Output, takes: bool, k: StreamId)
    requires k != o.streamId || !o.state.IncomingProtocol?
    ensures Quiet(c, OnStranger(g, c, o, takes).conn, k)
  {
    var r := ListenerOf(g.requests, o);
    ResetWords(c.net, o.streamId, k);
    if o.state.IncomingProtocol? {
      AnswerWords(c.net, o.streamId, if r < |g.requests| then Some(g.requests[r].maxSize) else None, takes, k);
    }
  }

  /** The connection speaks on an odd stream only when the output was for its owner. */
  lemma {:induction false} HandleQuiet(g: Config, c: Conn, o: M.Output, takes: bool, k: StreamId)
    requires Owned(c, Some(o)) && Proposed(c, o) && Room(c.net) && k % 2 == 1
    requires k == o.streamId ==> k !in c.inflight && forall i :: 0 <= i < |c.subs| ==> !On(c.subs[i].ours, k)
    ensures Quiet(c, Handle(g, c, o, takes).conn, k)
  {
    var own := o.streamId;
    if own in c.inflight {
      RequestQuiet(c, own, o.state, takes, k);
    } else if own in c.incoming {
      ResetWords(c.net, own, k);
    } else {
      UnrequestedQuiet(g, c, o, takes, k);
    }
  }

  lemma {:induction false} UnrequestedQuiet(g: Config, c: Conn, o: M.Output, takes: bool, k: StreamId)
    requires Owned(c, Some(o)) && Proposed(c, o) && Room(c.net) && k % 2 == 1 && o.streamId !in c.inflight
             && o.streamId !in c.incoming
    requires k == o.streamId ==> forall i :: 0 <= i < |c.subs| ==> !On(c.subs[i].ours, k)
    ensures Quiet(c, Handle(g, c, o, takes).conn, k)
  {
    var out, inb := OutboundOf(c.subs, o.streamId), InboundOf(c.subs, o);
    if out < |c.subs| {
      OutboundQuiet(g, c, out, o.state, takes, k);
    } else if inb < |c.subs| {
      assert SubOwned(c, c.subs[inb], Some(o));
      if c.subs[inb].theirs.Closed? {
        ProposalQuiet(c, inb, o.streamId, takes, k);
      } else {
        InboundQuiet(g, c, inb, o.state, takes, k);
      }
    } else {
      StrangerQuiet(g, c, o, takes, k);
    }
  }

  // ---------------------------------------------------------------------------
  // Requests
  // ---------------------------------------------------------------------------

  /** The entry of a request is as it was, or gone. */
  predicate SameEntry(c: Conn, c': Conn, k: StreamId)
  {
    k in c'.inflight ==> k in c.inflight && c'.inflight[k] == c.inflight[k]
  }

  lemma {:induction false} QuietKeepsRequest(c: Conn, c': Conn, k: StreamId)
    requires k in c.issued && c'.issued == c.issued && RequestWired(c, k) && SameEntry(c, c', k)
    requires Words(c', k) == Words(c, k) && (c.finished ==> c'.finished)
    ensures RequestWired(c', k)
  {
  }

  lemma {:induction false} OthersSameEntry(c: Conn, own: StreamId, out: M.OutputState, takes: bool, k: StreamId)
    requires own in c.inflight && k != own
    ensures SameEntry(c, OnRequest(c, own, out, takes).conn, k)
  {
  }

  /** An output on a request's own stream: the payload goes out exactly on acceptance, and a value is handed
      over only after it went out. */
  lemma {:induction false} OwnOutput(c: Conn, k: StreamId, out: M.OutputState, takes: bool)
    requires k in c.inflight && k in c.issued && RequestWired(c, k) && !c.finished
    ensures var e := OnRequest(c, k, out, takes);
            && RequestWired(Conclude(e), k)
            && (e.said.Some? && IsValue(e.said.value) ==>
                  e.said.value.id == k && Words(e.conn, k) == WholeRequest(k, c.issued[k]))
  {
    if RequestEnding(c.inflight[k].state, out).Some? {
      ResetWords(c.net, k, k);
    } else if M.SendError(c.net.layer, k, takes).None? {
      StartWords(c.net, k, c.issued[k].payload, takes, k);
    }
  }

  /** The streams of subscriptions are not those of requests. */
  ghost predicate SubsApart(c: Conn)
  {
    forall i :: 0 <= i < |c.subs| && !c.subs[i].ours.Closed? ==> c.subs[i].ours.id !in c.issued
  }

  ghost predicate Ready(c: Conn, o: M.Output) { Owned(c, Some(o)) && Proposed(c, o) && Room(c.net) && !c.finished }

  /** An answered request is never spoken of again. */
  lemma {:induction false} AnsweredQuiet(g: Config, c: Conn, o: M.Output, takes: bool, k: StreamId)
    requires Ready(c, o) && SubsApart(c) && k in c.issued && IsOurs(c.net, k) && k !in c.inflight
    ensures Words(Handle(g, c, o, takes).conn, k) == Words(c, k)
  {
    HandleQuiet(g, c, o, takes, k);
  }

  lemma {:induction false} HandleKeepsRequest(g: Config, c: Conn, o: M.Output, takes: bool, k: StreamId)
    requires Ready(c, o) && SubsApart(c) && k in c.issued && IsOurs(c.net, k) && RequestWired(c, k)
    ensures RequestWired(Conclude(Handle(g, c, o, takes)), k)
  {
    var e := Handle(g, c, o, takes);
    if k == o.streamId && k in c.inflight {
      OwnOutput(c, k, o.state, takes);
    } else {
      HandleQuiet(g, c, o, takes, k);
      if o.streamId in c.inflight { OthersSameEntry(c, o.streamId, o.state, takes, k); }
      QuietKeepsRequest(c, Conclude(e), k);
    }
  }

  // ---------------------------------------------------------------------------
  // Subscriptions
  // ---------------------------------------------------------------------------

  /** A stream past its negotiation stays so, and one that is not stays that. */
  ghost predicate Steady(c: Conn, c': Conn, k: StreamId) { M.Held(c'.net.layer, k) <==> M.Held(c.net.layer, k) }

  lemma {:induction false} SilencedSteady(c: Conn, i: nat, k: StreamId)
    requires i < |c.subs| && !On(c.subs[i].ours, k) && !On(c.subs[i].theirs, k)
    ensures Steady(c, Silenced(c, i), k)
  {
  }

  lemma {:induction false} RequestSteady(c: Conn, own: StreamId, out: M.OutputState, takes: bool, k: StreamId)
    requires own in c.inflight && k != own
    ensures Steady(c, OnRequest(c, own, out, takes).conn, k)
  {
  }

  lemma {:induction false} OutboundSteady(g: Config, c: Conn, i: nat, out: M.OutputState, takes: bool, k: StreamId)
    requires i < |c.subs| && !c.subs[i].ours.Closed? && !On(c.subs[i].ours, k) && !On(c.subs[i].theirs, k)
    ensures Steady(c, OnOutbound(g, c, i, out, takes).conn, k)
  {
    SilencedSteady(c, i, k);
  }

  lemma {:induction false} InboundSteady(g: Config, c: Conn, i: nat, out: M.OutputState, takes: bool, k: StreamId)
    requires i < |c.subs| && !c.subs[i].theirs.Closed? && !On(c.subs[i].ours, k) && !On(c.subs[i].theirs, k)
    ensures Steady(c, OnInbound(g, c, i, out, takes).conn, k)
  {
    SilencedSteady(c, i, k);
  }

  lemma {:induction false} ProposalSteady(c: Conn, i: nat, own: StreamId, takes: bool, k: StreamId)
    requires i < |c.subs| && Room(c.net) && k != own && k < c.net.nextId
    ensures Steady(c, OnProposal(c, i, own, takes).conn, k)
  {
  }

  lemma {:induction false} AnswerSteady(n: Net, id: StreamId, accept: Option<nat>, takes: bool, k: StreamId)
    requires k != id
    ensures M.Held(NetAnswer(n, id, accept, takes).layer, k) <==> M.Held(n.layer, k)
  {
  }

  lemma {:induction false} StrangerSteady(g: Config, c: Conn, o: M.Output, takes: bool, k: StreamId)
    requires k != o.streamId
    ensures Steady(c, OnStranger(g, c, o, takes).conn, k)
  {
    var r := ListenerOf(g.requests, o);
    if o.state.IncomingProtocol? {
      AnswerSteady(c.net, o.streamId, if r < |g.requests| then Some(g.requests[r].maxSize) else None, takes, k);
    }
  }

  /** The subscription an output is for, if it is for one. */
  function Routed(c: Conn, o: M.Output): nat
  {
    if o.streamId in c.inflight || o.streamId in c.incoming then |c.subs|
    else if OutboundOf(c.subs, o.streamId) < |c.subs| then OutboundOf(c.subs, o.streamId)
    else InboundOf(c.subs, o)
  }

  /** An output for someone else leaves a subscription and what was said on its stream alone. */
  lemma {:induction false} OthersLeave(g: Config, c: Conn, o: M.Output, takes: bool, i: nat)
    requires Ready(c, o) && i < |c.subs| && Routed(c, o) != i && !c.subs[i].ours.Closed?
    ensures var e, k := Handle(g, c, o, takes), c.subs[i].ours.id;
            k != o.streamId && Steady(c, e.conn, k)
  {
    var own, k := o.streamId, c.subs[i].ours.id;
    assert SubOwned(c, c.subs[i], Some(o));
    if own in c.inflight {
      RequestSteady(c, own, o.state, takes, k);
    } else if own !in c.incoming {
      var j := Routed(c, o);
      if j < |c.subs| {
        assert SubOwned(c, c.subs[j], Some(o)) && Apart(c.subs[i], c.subs[j]);
        if OutboundOf(c.subs, own) < |c.subs| {
          OutboundSteady(g, c, j, o.state, takes, k);
        } else if c.subs[j].theirs.Closed? {
          ProposalSteady(c, j, own, takes, k);
        } else {
          InboundSteady(g, c, j, o.state, takes, k);
        }
      } else {
        StrangerSteady(g, c, o, takes, k);
      }
    }
  }

  lemma {:induction false} OthersSameSub(g: Config, c: Conn, o: M.Output, takes: bool, i: nat)
    requires Room(c.net) && i < |c.subs| && Routed(c, o) != i
    ensures var c' := Handle(g, c, o, takes).conn; |c'.subs| == |c.subs| && c'.subs[i] == c.subs[i]
  {
  }

  /** Nothing happened to a subscription or on its stream. */
  lemma {:induction false} SubStays(c: Conn, c': Conn, s: Subscription, o: Option<M.Output>)
    requires SubWired(c, s, o) && c'.issued == c.issued && c.net.outbox <= c'.net.outbox && (c.finished ==> c'.finished)
    requires !s.ours.Closed? ==> Words(c', s.ours.id) == Words(c, s.ours.id) && Steady(c, c', s.ours.id)
    requires !s.ours.Closed? && o.Some? ==> o.value.streamId != s.ours.id
    ensures SubWired(c', s, None)
  {
  }

  lemma {:induction false} CutWired(c: Conn, i: nat, news: News)
    requires i < |c.subs|
    ensures SubWired(Conclude(Cut(c, i, news)), Cut(c, i, news).conn.subs[i], None)
  {
  }

  /** Acceptance: the handshake is the next thing said, or the connection has failed. */
  lemma {:induction false} AgreedWired(c: Conn, s: Subscription, o: M.Output, takes: bool)
    requires s.ours == Handshake(o.streamId) && o.state.OutgoingAccepted? && SubWired(c, s, Some(o)) && !c.finished
    ensures var e := Effect(c.(net := NetSend(c.net, o.streamId, s.handshake, takes)), None,
                            M.SendError(c.net.layer, o.streamId, takes).Some?);
            SubWired(Conclude(e), s, None)
  {
    SendWords(c.net, o.streamId, s.handshake, takes, o.streamId);
  }

  /** The peer's handshake came after ours went out. */
  lemma {:induction false} ShakenWired(c: Conn, i: nat, o: M.Output)
    requires i < |c.subs| && c.subs[i].ours == Handshake(o.streamId) && o.state.Data?
    requires SubWired(c, c.subs[i], Some(o)) && !c.finished && M.Held(c.net.layer, o.streamId)
    ensures var e := Progress(c, i, c.subs[i].(ours := Open(o.streamId)));
            SubWired(Conclude(e), e.conn.subs[i], None)
  {
  }

  /** The handshake goes out on acceptance, and our side opens only on the peer's answer to it. */
  lemma {:induction false} OutboundWired(g: Config, c: Conn, i: nat, o: M.Output, takes: bool)
    requires i < |c.subs| && On(c.subs[i].ours, o.streamId) && SubWired(c, c.subs[i], Some(o)) && !c.finished
    requires o.state.Data? ==> M.Held(c.net.layer, o.streamId)
    ensures var e := OnOutbound(g, c, i, o.state, takes); SubWired(Conclude(e), e.conn.subs[i], None)
  {
    var s := c.subs[i];
    match ReadOutbound(s.ours, o.state, Valid(g, s, o.state))
    case Agreed => AgreedWired(c, s, o, takes);
    case Shaken => ShakenWired(c, i, o);
    case Over(news) => CutWired(c, i, news);
  }

  /** Our handshake goes out on the peer's stream before that side opens. */
  lemma {:induction false} TheirsShaken(c: Conn, i: nat, o: M.Output, takes: bool)
    requires i < |c.subs| && !c.subs[i].theirs.Closed? && SubWired(c, c.subs[i], Some(o))
    requires !c.subs[i].ours.Closed? ==> c.subs[i].ours.id != o.streamId && c.subs[i].ours.id != c.subs[i].theirs.id
    requires M.SendError(c.net.layer, c.subs[i].theirs.id, takes).None?
    ensures var s, id := c.subs[i], c.subs[i].theirs.id;
            var e := Progress(c.(net := NetSend(c.net, id, s.handshake, takes)), i, s.(theirs := Open(id)));
            SubWired(Conclude(e), e.conn.subs[i], None)
  {
    var s, id := c.subs[i], c.subs[i].theirs.id;
    var c1 := c.(net := NetSend(c.net, id, s.handshake, takes));
    if !s.ours.Closed? { SendWords(c.net, id, s.handshake, takes, s.ours.id); }
    SendWords(c.net, id, s.handshake, takes, id);
    SubStays(c, c1, s, Some(o));
    assert c1.net.outbox[|c.net.outbox|] == Sends(id, s.handshake);
  }

  lemma {:induction false} InboundWired(g: Config, c: Conn, i: nat, o: M.Output, takes: bool)
    requires Ready(c, o) && i < |c.subs| && !c.subs[i].theirs.Closed? && SubWired(c, c.subs[i], Some(o))
    requires !On(c.subs[i].ours, o.streamId)
    ensures var e := OnInbound(g, c, i, o.state, takes); SubWired(Conclude(e), e.conn.subs[i], None)
  {
    var s := c.subs[i];
    assert SubOwned(c, s, Some(o));
    match ReadInbound(s.theirs, o.state, Valid(g, s, o.state))
    case Over(news) => CutWired(c, i, news);
    case Report(_) => SubStays(c, Conclude(OnInbound(g, c, i, o.state, takes)), s, Some(o));
    case Shaken =>
      if M.SendError(c.net.layer, s.theirs.id, takes).None? {
        TheirsShaken(c, i, o, takes);
      } else {
        SubStays(c, Conclude(OnInbound(g, c, i, o.state, takes)), s, Some(o));
      }
  }

  lemma {:induction false} JoinedWired(c: Conn, i: nat, id: StreamId)
    requires Room(c.net) && i < |c.subs| && SubWired(c, c.subs[i], None)
    requires c.net.nextId % 2 == 1 && FutureSilent(c) && c.net.nextId !in c.issued
    ensures SubWired(Joined(c, i, id), Joined(c, i, id).subs[i], None)
  {
    var n, s := c.net.nextId, c.subs[i];
    OpenWords(c.net, s.name, s.maxSize, n);
    assert Words(c, n) == [] && [] + Opening(n, s.name) == Opening(n, s.name);
  }

  lemma {:induction false} ProposalWired(c: Conn, i: nat, o: M.Output, takes: bool)
    requires Ready(c, o) && i < |c.subs| && c.subs[i].theirs.Closed? && SubWired(c, c.subs[i], Some(o))
    requires !On(c.subs[i].ours, o.streamId) && o.state.IncomingProtocol?
    requires FutureSilent(c) && c.net.nextId !in c.issued
    ensures var e := OnProposal(c, i, o.streamId, takes); SubWired(Conclude(e), e.conn.subs[i], None)
  {
    var s, own := c.subs[i], o.streamId;
    assert SubOwned(c, s, Some(o));
    ProposalUnowned(c, o);
    if !s.allowInbound && s.ours.Closed? {
      ResetWords(c.net, own, 0);
    } else {
      var c1 := c.(net := NetAnswer(c.net, own, Some(s.maxSize), takes));
      AnsweredStays(c, i, o, takes);
      if M.AnswerError(c.net.layer, own, takes).None? { JoinedWired(c1, i, own); }
    }
  }

  lemma {:induction false} AnsweredStays(c: Conn, i: nat, o: M.Output, takes: bool)
    requires i < |c.subs| && SubWired(c, c.subs[i], Some(o)) && FutureSilent(c) && IsTheirs(o.streamId)
    requires !c.subs[i].ours.Closed? ==> c.subs[i].ours.id % 2 == 1
    ensures var c1 := c.(net := NetAnswer(c.net, o.streamId, Some(c.subs[i].maxSize), takes));
            SubWired(c1, c.subs[i], None) && FutureSilent(c1)
  {
    var s, own := c.subs[i], o.streamId;
    var c1 := c.(net := NetAnswer(c.net, own, Some(s.maxSize), takes));
    forall k: StreamId | k % 2 == 1 ensures Words(c1, k) == Words(c, k) && c.net.outbox <= c1.net.outbox {
      AnswerWords(c.net, own, Some(s.maxSize), takes, k);
    }
    AnswerWords(c.net, own, Some(s.maxSize), takes, 1);
    SubStays(c, c1, s, Some(o));
  }

  // ---------------------------------------------------------------------------
  // Outputs
  // ---------------------------------------------------------------------------

  ghost predicate Wired(c: Conn, o: Option<M.Output>)
  {
    && FutureSilent(c) && AnswersFollow(c)
    && (forall id :: id in c.issued ==> IsOurs(c.net, id) && RequestWired(c, id))
    && (forall i :: 0 <= i < |c.subs| ==> SubWired(c, c.subs[i], o))
  }

  /** An output on a stream of ours is on one we opened, and data only past its negotiation. */
  ghost predicate DataHeld(c: Conn, o: M.Output)
  {
    o.streamId % 2 == 1 ==> o.streamId < c.net.nextId && (o.state.Data? ==> M.Held(c.net.layer, o.streamId))
  }

  lemma {:induction false} OtherSubWired(g: Config, c: Conn, o: M.Output, takes: bool, i: nat)
    requires Ready(c, o) && i < |c.subs| && SubWired(c, c.subs[i], Some(o)) && Routed(c, o) != i
    ensures SubWired(Conclude(Handle(g, c, o, takes)), c.subs[i], None)
  {
    assert SubOwned(c, c.subs[i], Some(o));
    if !c.subs[i].ours.Closed? {
      OthersLeave(g, c, o, takes, i);
      HandleQuiet(g, c, o, takes, c.subs[i].ours.id);
      SubStays(c, Conclude(Handle(g, c, o, takes)), c.subs[i], Some(o));
    }
  }

  lemma {:induction false} HandleKeepsSub(g: Config, c: Conn, o: M.Output, takes: bool, i: nat)
    requires Ready(c, o) && Wired(c, Some(o)) && DataHeld(c, o) && i < |c.subs|
    ensures var e := Handle(g, c, o, takes);
            |e.conn.subs| == |c.subs| && SubWired(Conclude(e), e.conn.subs[i], None)
  {
    assert SubWired(c, c.subs[i], Some(o)) && SubOwned(c, c.subs[i], Some(o));
    if Routed(c, o) != i {
      OthersSameSub(g, c, o, takes, i);
      OtherSubWired(g, c, o, takes, i);
    } else if OutboundOf(c.subs, o.streamId) < |c.subs| {
      OutboundWired(g, c, i, o, takes);
    } else if c.subs[i].theirs.Closed? {
      ProposalWired(c, i, o, takes);
    } else {
      InboundWired(g, c, i, o, takes);
    }
  }

  /** Nothing was said on a stream not yet given out, whoever the output was for. */
  lemma {:induction false} HandleKeepsFuture(g: Config, c: Conn, o: M.Output, takes: bool)
    requires Ready(c, o) && FutureSilent(c) && (o.streamId % 2 == 1 ==> o.streamId < c.net.nextId)
    ensures FutureSilent(Conclude(Handle(g, c, o, takes)))
  {
    var e := Handle(g, c, o, takes);
    forall k: StreamId | k % 2 == 1 && k >= e.conn.net.nextId ensures Words(Conclude(e), k) == [] {
      HandleQuiet(g, c, o, takes, k);
      assert Words(c, k) == [];
    }
  }

  lemma {:induction false} HandleKeepsAnswers(g: Config, c: Conn, o: M.Output, takes: bool)
    requires Ready(c, o) && Wired(c, Some(o)) && Conserved(c) && c.nextBuf == []
    ensures AnswersFollow(Conclude(Handle(g, c, o, takes)))
  {
    var e := Handle(g, c, o, takes);
    var c' := Conclude(e);
    assert SubsApart(c) by {
      forall i | 0 <= i < |c.subs| && !c.subs[i].ours.Closed? ensures c.subs[i].ours.id !in c.issued {
        assert SubWired(c, c.subs[i], Some(o));
      }
    }
    forall m | m in History(c') && IsValue(m)
      ensures m.id in c'.issued && Words(c', m.id) == WholeRequest(m.id, c'.issued[m.id])
    {
      if m in History(c) {
        AnsweredNotInflight(c, m);
        AnsweredQuiet(g, c, o, takes, m.id);
      } else {
        ValueIsOwn(g, c, o, takes);
        InflightIssued(c, o.streamId);
        OwnOutput(c, o.streamId, o.state, takes);
      }
    }
  }

  lemma {:induction false} InflightIssued(c: Conn, id: StreamId)
    requires Conserved(c) && id in c.inflight
    ensures id in c.issued
  {
    assert Places(c, id) >= 1;
  }

  lemma {:induction false} AnsweredNotInflight(c: Conn, m: Message)
    requires Conserved(c) && m in History(c) && m.Response?
    ensures m.id !in c.inflight
  {
    var i :| 0 <= i < |History(c)| && History(c)[i] == m;
    CountsOne(History(c), m.id, i);
    assert Places(c, m.id) <= 1;
  }

  /** Only a request's own stream leads to a value. */
  lemma {:induction false} ValueIsOwn(g: Config, c: Conn, o: M.Output, takes: bool)
    requires Room(c.net)
    ensures var e := Handle(g, c, o, takes);
            e.said.Some? && IsValue(e.said.value) ==>
                o.streamId in c.inflight && e == OnRequest(c, o.streamId, o.state, takes)
  {
  }

  lemma {:induction false} HandleKeepsWired(g: Config, c: Conn, o: M.Output, takes: bool)
    requires Ready(c, o) && Wired(c, Some(o)) && DataHeld(c, o) && Conserved(c) && c.nextBuf == []
    ensures Wired(Conclude(Handle(g, c, o, takes)), None)
  {
    var c' := Conclude(Handle(g, c, o, takes));
    HandleKeepsFuture(g, c, o, takes);
    HandleKeepsAnswers(g, c, o, takes);
    assert SubsApart(c) by {
      forall i | 0 <= i < |c.subs| && !c.subs[i].ours.Closed? ensures c.subs[i].ours.id !in c.issued {
        assert SubWired(c, c.subs[i], Some(o));
      }
    }
    forall id | id in c'.issued ensures IsOurs(c'.net, id) && RequestWired(c', id) {
      HandleKeepsRequest(g, c, o, takes, id);
    }
    forall i | 0 <= i < |c'.subs| ensures SubWired(c', c'.subs[i], None) {
      SubCount(g, c, o, takes);
      HandleKeepsSub(g, c, o, takes, i);
    }
  }

  lemma {:induction false} SubCount(g: Config, c: Conn, o: M.Output, takes: bool)
    requires Room(c.net)
    ensures |Handle(g, c, o, takes).conn.subs| == |c.subs|
  {
  }

  // ---------------------------------------------------------------------------
  // Rounds
  // ---------------------------------------------------------------------------

  /** A round of the layer below: what it sends itself is not for streams of ours. */
  lemma {:induction false} RoundQuiet(c: Conn, o: M.Outcome, k: StreamId)
    requires M.LeavesOdd(c.net.layer, o, k) && k % 2 == 1
    ensures Words(AfterRound(c, o), k) == Words(c, k)
  {
    SpokenSilent(c.net.outbox, o.commands, k);
  }

  function OutputOf(t: M.Turn): Option<M.Output> { if t.Emit? then Some(t.output) else None }

  lemma {:induction false} RoundKeepsSub(c: Conn, o: M.Outcome, s: Subscription)
    requires SubWired(c, s, None) && (!s.ours.Closed? ==> s.ours.id % 2 == 1 && M.LeavesOdd(c.net.layer, o, s.ours.id))
    requires M.Promised(c.net.layer, o, c.net.nextId)
    ensures SubWired(AfterRound(c, o), s, OutputOf(o.turn))
  {
    if !s.ours.Closed? { RoundQuiet(c, o, s.ours.id); }
  }

  lemma {:induction false} RoundDataHeld(c: Conn, d: Drive, isUtf8: M.Name -> bool)
    requires Owned(c, None) && Possible(c, Next(d))
    ensures var o := M.Round(c.net.layer, d.input, d.takes, isUtf8);
            o.turn.Emit? ==> DataHeld(AfterRound(c, o), o.turn.output)
  {
    var l, o := c.net.layer, M.Round(c.net.layer, d.input, d.takes, isUtf8);
    if o.turn.Emit? && o.turn.output.streamId % 2 == 1 {
      var id := o.turn.output.streamId;
      if id !in l.slots { M.RoundAbsent(l, d.input, d.takes, isUtf8, id); }
      M.RoundPromises(l, d.input, d.takes, isUtf8, c.net.nextId);
      M.RoundLeavesOdd(l, d.input, d.takes, isUtf8, c.net.nextId, id);
    }
  }

  lemma {:induction false} RoundKeepsWired(c: Conn, d: Drive, isUtf8: M.Name -> bool)
    requires Owned(c, None) && Wired(c, None) && Possible(c, Next(d))
    ensures var o := M.Round(c.net.layer, d.input, d.takes, isUtf8);
            Wired(AfterRound(c, o), OutputOf(o.turn))
  {
    var l, o := c.net.layer, M.Round(c.net.layer, d.input, d.takes, isUtf8);
    M.RoundPromises(l, d.input, d.takes, isUtf8, c.net.nextId);
    forall k: StreamId | k % 2 == 1 ensures M.LeavesOdd(l, o, k) {
      M.RoundLeavesOdd(l, d.input, d.takes, isUtf8, c.net.nextId, k);
    }
    OutcomeKeepsWired(c, o);
  }

  lemma {:induction false} OutcomeKeepsWired(c: Conn, o: M.Outcome)
    requires Owned(c, None) && Wired(c, None) && M.Promised(c.net.layer, o, c.net.nextId)
    requires forall k: StreamId :: k % 2 == 1 ==> M.LeavesOdd(c.net.layer, o, k)
    ensures Wired(AfterRound(c, o), OutputOf(o.turn))
  {
    var c1 := AfterRound(c, o);
    forall k: StreamId | k % 2 == 1 ensures Words(c1, k) == Words(c, k) { RoundQuiet(c, o, k); }
    forall i | 0 <= i < |c.subs| ensures SubWired(c1, c1.subs[i], OutputOf(o.turn)) {
      assert SubOwned(c, c.subs[i], None) && SubWired(c, c.subs[i], None);
      RoundKeepsSub(c, o, c.subs[i]);
    }
    SameRequests(c, c1);
  }

  /** With the same words on every odd stream, requests are as they were. */
  lemma {:induction false} SameRequests(c: Conn, c': Conn)
    requires Wired(c, None) && (forall k: StreamId :: k % 2 == 1 ==> Words(c', k) == Words(c, k))
    requires c'.issued == c.issued && c'.net.nextId == c.net.nextId && (c.finished ==> c'.finished)
    requires forall k :: k in c'.inflight ==> k in c.inflight && c'.inflight[k] == c.inflight[k]
    requires forall m :: m in History(c') && IsValue(m) ==> m in History(c)
    ensures FutureSilent(c') && AnswersFollow(c')
    ensures forall id :: id in c'.issued ==> IsOurs(c'.net, id) && RequestWired(c', id)
  {
    forall id | id in c'.issued ensures IsOurs(c'.net, id) && RequestWired(c', id) {
      assert RequestWired(c, id) && IsOurs(c.net, id);
    }
  }

  lemma {:induction false} ReactedKeepsWired(g: Config, c: Conn, t: M.Turn, takes: bool)
    requires Owned(c, OutputOf(t)) && Wired(c, OutputOf(t)) && Conserved(c) && c.nextBuf == [] && Room(c.net)
             && !c.finished
    requires t.Emit? ==> Proposed(c, t.output) && DataHeld(c, t.output)
    ensures Wired(Reacted(g, c, t, takes), None)
  {
    if t.Emit? {
      HandleKeepsWired(g, c, t.output, takes);
    } else {
      var c' := Reacted(g, c, t, takes);
      SameRequests(c, c');
      forall i | 0 <= i < |c'.subs| ensures SubWired(c', c'.subs[i], None) {
        SubStays(c, c', c.subs[i], None);
      }
    }
  }

  lemma {:induction false} ListenedKeepsWired(g: Config, c: Conn, d: Drive)
    requires Owned(c, None) && Wired(c, None) && Conserved(c) && Possible(c, Next(d)) && c.nextBuf == [] && !c.finished
    ensures Wired(Listened(g, c, d), None)
  {
    var o := M.Round(c.net.layer, d.input, d.takes, g.isUtf8);
    RoundKeepsWired(c, d, g.isUtf8);
    RoundDataHeld(c, d, g.isUtf8);
    RoundKeepsOwned(c, d.input, d.takes, g.isUtf8);
    ReactedKeepsWired(g, AfterRound(c, o), o.turn, d.takesReply);
  }

  // ---------------------------------------------------------------------------
  // Steps
  // ---------------------------------------------------------------------------

  /** A step that says nothing on streams of ours, ends no request with a value and, at most, closes
      subscriptions. */
  lemma {:induction false} QuietKeepsWired(c: Conn, c': Conn)
    requires Wired(c, None) && c.net.outbox <= c'.net.outbox
    requires forall k: StreamId :: k % 2 == 1 ==> Words(c', k) == Words(c, k)
    requires c'.issued == c.issued && c'.net.nextId == c.net.nextId && (c.finished ==> c'.finished)
    requires forall k :: k in c'.inflight ==> k in c.inflight && c'.inflight[k] == c.inflight[k]
    requires forall m :: m in History(c') && IsValue(m) ==> m in History(c)
    requires |c'.subs| == |c.subs|
    requires forall i :: 0 <= i < |c.subs| ==> SubKept(c, c', i)
    ensures Wired(c', None)
  {
    SameRequests(c, c');
    forall i | 0 <= i < |c'.subs| ensures SubWired(c', c'.subs[i], None) {
      assert SubKept(c, c', i) && SubWired(c, c.subs[i], None);
      if !c'.subs[i].ours.Closed? { SubStays(c, c', c.subs[i], None); }
    }
  }

  ghost predicate SubKept(c: Conn, c': Conn, i: nat)
    requires i < |c.subs| == |c'.subs|
  {
    || (c'.subs[i].ours.Closed? && c'.subs[i].theirs.Closed?)
    || (c'.subs[i] == c.subs[i]
        && (!c.subs[i].ours.Closed? ==> c.subs[i].ours.id % 2 == 1 && Steady(c, c', c.subs[i].ours.id)))
  }

  /** Resetting the stream of a request of ours. */
  lemma {:induction false} AbortKeepsWired(c: Conn, c': Conn, id: StreamId)
    requires Owned(c, None) && Wired(c, None) && id in c.inflight
    requires c'.inflight == c.inflight - {id} && c'.net == NetReset(c.net, id) && c'.subs == c.subs
    requires c'.issued == c.issued && c'.finished == c.finished
    requires forall m :: m in History(c') && IsValue(m) ==> m in History(c)
    ensures Wired(c', None)
  {
    forall k: StreamId | k % 2 == 1 ensures Words(c', k) == Words(c, k) { ResetWords(c.net, id, k); }
    ResetWords(c.net, id, 0);
    forall i | 0 <= i < |c.subs| ensures SubKept(c, c', i) { assert SubOwned(c, c.subs[i], None); }
    QuietKeepsWired(c, c');
  }

  /** The record of messages may change as long as no value is added. */
  lemma {:induction false} RecordKeepsWired(c: Conn, c': Conn)
    requires Owned(c, None) && Wired(c, None)
    requires c' == c.(nextBuf := c'.nextBuf, delivered := c'.delivered, finished := c'.finished)
             && (c.finished ==> c'.finished)
    requires forall m :: m in History(c') && IsValue(m) ==> m in History(c)
    ensures Wired(c', None)
  {
    forall i | 0 <= i < |c.subs| ensures SubKept(c, c', i) { assert SubOwned(c, c.subs[i], None); }
    QuietKeepsWired(c, c');
  }

  lemma {:induction false} DrivenKeepsWired(g: Config, c: Conn, d: Drive)
    requires Safe(c) && Wired(c, None) && Possible(c, Next(d))
    ensures Wired(Driven(g, c, d), None)
  {
    if !c.finished {
      var r := FirstExpired(c, d.expired);
      if c.nextBuf != [] {
        RecordKeepsWired(c, Popped(c));
      } else if r < |d.expired| {
        AbortKeepsWired(c, TimedOut(c, d.expired[r]), d.expired[r]);
      } else if d.ended && c.net.layer.readFrom == None {
        RecordKeepsWired(c, c.(finished := true));
      } else {
        ListenedKeepsWired(g, c, d);
      }
    }
  }

  /** Our stream opens: what is said on it is the start of a negotiation, and elsewhere nothing. */
  lemma {:induction false} OpenedWords(c: Conn, name: M.Name, maxSize: nat)
    requires Owned(c, None) && Wired(c, None) && Room(c.net)
    ensures var c1 := c.(net := NetOpen(c.net, name, maxSize));
            && c.net.outbox <= c1.net.outbox && FutureSilent(c1)
            && Words(c1, c.net.nextId) == Opening(c.net.nextId, name)
            && (forall k: StreamId :: k != c.net.nextId ==> Words(c1, k) == Words(c, k))
            && (forall k: StreamId :: k != c.net.nextId ==> Steady(c, c1, k))
            && !M.Held(c1.net.layer, c.net.nextId)
  {
    var n, c1 := c.net.nextId, c.(net := NetOpen(c.net, name, maxSize));
    forall k: StreamId | k != n ensures Words(c1, k) == Words(c, k) { OpenWords(c.net, name, maxSize, k); }
    OpenWords(c.net, name, maxSize, n);
    assert Words(c, n) == [] && [] + Opening(n, name) == Opening(n, name);
  }

  lemma {:induction false} FutureFollows(c: Conn, c': Conn)
    requires FutureSilent(c) && c'.net == c.net
    ensures FutureSilent(c')
  {
    forall k: StreamId | k % 2 == 1 && k >= c'.net.nextId ensures Words(c', k) == [] { assert Words(c, k) == []; }
  }

  lemma {:induction false} OpenedKeepsSub(c: Conn, c': Conn, i: nat)
    requires Owned(c, None) && Wired(c, None) && Room(c.net) && i < |c.subs| && c.net.outbox <= c'.net.outbox
    requires forall k: StreamId :: k != c.net.nextId ==> Words(c', k) == Words(c, k) && Steady(c, c', k)
    requires c'.finished == c.finished && forall id :: id in c'.issued ==> id in c.issued || id == c.net.nextId
    ensures SubWired(c', c.subs[i], None)
  {
    assert SubWired(c, c.subs[i], None) && SubOwned(c, c.subs[i], None);
  }

  lemma {:induction false} RequestKeepsWired(g: Config, c: Conn, protocol: nat, payload: Payload)
    requires Owned(c, None) && Wired(c, None) && Room(c.net)
    ensures Wired(Requested(g, c, protocol, payload), None)
  {
    var r := ProtocolOf(g.requests, protocol);
    if r < |g.requests| {
      var c', n := Requested(g, c, protocol, payload), c.net.nextId;
      OpenedWords(c, g.requests[r].name, g.requests[r].maxSize);
      FutureFollows(c.(net := c'.net), c');
      forall id | id in c'.issued ensures IsOurs(c'.net, id) && RequestWired(c', id) {
        if id != n { assert IsOurs(c.net, id) && RequestWired(c, id) && Words(c', id) == Words(c, id); }
      }
      forall i | 0 <= i < |c'.subs| ensures SubWired(c', c'.subs[i], None) { OpenedKeepsSub(c, c', i); }
    }
  }

  lemma {:induction false} BegunKeepsWired(c: Conn, i: nat)
    requires Owned(c, None) && Wired(c, None) && Room(c.net) && i < |c.subs| && c.subs[i].ours.Closed?
    ensures Wired(Begun(c, i), None)
  {
    var c', n, s := Begun(c, i), c.net.nextId, c.subs[i];
    OpenedWords(c, s.name, s.maxSize);
    FutureFollows(c.(net := c'.net), c');
    forall id | id in c'.issued ensures IsOurs(c'.net, id) && RequestWired(c', id) {
      assert IsOurs(c.net, id) && RequestWired(c, id) && Words(c', id) == Words(c, id);
    }
    assert SubOwned(c, s, None);
    forall j | 0 <= j < |c'.subs| ensures SubWired(c', c'.subs[j], None) {
      if j != i { OpenedKeepsSub(c, c', j); }
    }
  }

  lemma {:induction false} RespondKeepsWired(c: Conn, id: StreamId, data: Payload, takes: bool)
    requires Owned(c, None) && Wired(c, None) && id % 2 == 0
    ensures Wired(Responded(c, id, data, takes), None)
  {
    var c', n1 := Responded(c, id, data, takes), NetSend(c.net, id, data, takes);
    forall k: StreamId | k % 2 == 1 ensures Words(c', k) == Words(c, k) {
      SendWords(c.net, id, data, takes, k);
      CloseWords(n1, id, k);
    }
    SendWords(c.net, id, data, takes, 1);
    CloseWords(n1, id, 1);
    forall i | 0 <= i < |c.subs| ensures SubKept(c, c', i) { assert SubOwned(c, c.subs[i], None); }
    QuietKeepsWired(c, c');
  }

  lemma {:induction false} NotifyKeepsWired(c: Conn, protocol: nat, data: Payload, takes: bool)
    requires Owned(c, None) && Wired(c, None)
    ensures Wired(Notified(c, protocol, data, takes), None)
  {
    if NotifyError(c, protocol, takes).None? {
      var c', j := Notified(c, protocol, data, takes), SubOf(c.subs, protocol);
      var own := c.subs[j].ours.id;
      assert SubOwned(c, c.subs[j], None) && SubWired(c, c.subs[j], None);
      forall k: StreamId ensures c.net.outbox <= c'.net.outbox && Words(c, k) <= Words(c', k)
        && (k != own ==> Words(c', k) == Words(c, k)) {
        SendWords(c.net, own, data, takes, k);
      }
      SendWords(c.net, own, data, takes, own);
      assert FutureSilent(c') && History(c') == History(c);
      forall id | id in c'.issued ensures IsOurs(c'.net, id) && RequestWired(c', id) {
        assert IsOurs(c.net, id) && RequestWired(c, id) && id != own;
      }
      forall i | 0 <= i < |c'.subs| ensures SubWired(c', c'.subs[i], None) { NotifyKeepsSub(c, c', j, i); }
    }
  }

  lemma {:induction false} NotifyKeepsSub(c: Conn, c': Conn, j: nat, i: nat)
    requires Owned(c, None) && Wired(c, None) && i < |c.subs| && j < |c.subs| && c.subs[j].ours.Open?
    requires c.net.outbox <= c'.net.outbox && c'.net.layer == c.net.layer && c'.issued == c.issued
             && c'.finished == c.finished
    requires forall k: StreamId ::
               Words(c, k) <= Words(c', k) && (k != c.subs[j].ours.id ==> Words(c', k) == Words(c, k))
    ensures SubWired(c', c.subs[i], None)
  {
    assert SubWired(c, c.subs[i], None);
    if i != j { assert Apart(c.subs[i], c.subs[j]); }
  }

  lemma {:induction false} CancelKeepsWired(c: Conn, protocol: nat)
    requires Owned(c, None) && Wired(c, None)
    ensures Wired(SubscriptionCancelled(c, protocol), None)
  {
    var j := SubOf(c.subs, protocol);
    if j < |c.subs| {
      var c' := SubscriptionCancelled(c, protocol);
      forall k: StreamId ensures Words(c', k) == Words(c, k) && c.net.outbox <= c'.net.outbox {
        SilencedQuiet(c, j, k);
      }
      SilencedQuiet(c, j, 1);
      PushedHistory(c, c', Notification(protocol, Ended));
      forall i | 0 <= i < |c.subs| ensures SubKept(c, c', i) {
        assert SubOwned(c, c.subs[i], None) && SubOwned(c, c.subs[j], None);
        if i != j && !c.subs[i].ours.Closed? {
          assert Apart(c.subs[i], c.subs[j]);
          SilencedSteady(c, j, c.subs[i].ours.id);
        }
      }
      QuietKeepsWired(c, c');
    }
  }

  /** Every step keeps what has been said in order. */
  lemma {:induction false} StepKeepsWired(g: Config, c: Conn, e: Event)
    requires Safe(c) && Wired(c, None) && Possible(c, e)
    ensures Wired(Step(g, c, e), None)
  {
    match e
    case CallRequest(p, payload) => RequestKeepsWired(g, c, p, payload);
    case CallCancelRequest(id) =>
      if id in c.inflight {
        PushedHistory(c, Step(g, c, e), Response(id, c.inflight[id].protocol, Cancelled));
        AbortKeepsWired(c, Step(g, c, e), id);
      }
    case CallRespond(id, payload, takes) => RespondKeepsWired(c, id, payload, takes);
    case CallSubscribe(p) =>
      if SubscribeError(c, p).None? { BegunKeepsWired(c, SubOf(c.subs, p)); }
    case CallNotify(p, payload, takes) => NotifyKeepsWired(c, p, payload, takes);
    case CallCancelSubscription(p) => CancelKeepsWired(c, p);
    case Next(d) => DrivenKeepsWired(g, c, d);
  }

  // ---------------------------------------------------------------------------
  // Whole runs
  // ---------------------------------------------------------------------------

  lemma {:induction false} EveryRunIsWired(g: Config, c: Conn, events: seq<Event>, c': Conn)
    requires Safe(c) && Wired(c, None) && Run(g, c, events, c')
    ensures Wired(c', None)
    decreases |events|
  {
    if events != [] {
      StepIsSafe(g, c, events[0]);
      StepKeepsWired(g, c, events[0]);
      EveryRunIsWired(g, Step(g, c, events[0]), events[1..], c');
    }
  }

  lemma {:induction false} EveryConnectionIsWired(g: Config, c: Conn, events: seq<Event>, c': Conn)
    requires Initial(c) && Run(g, c, events, c')
    ensures Wired(c', None)
  {
    InitiallySafe(c);
    EveryRunIsWired(g, c, events, c');
  }

  /** What goes out on a request's stream, in every run: the negotiation; then, once the peer has accepted the
      protocol, the payload as it was given and FIN, once; and nothing after that but a reset. A value is
      returned only for a request that went out whole. */
  lemma {:induction false} RequestGoesOutOnce(g: Config, c0: Conn, events: seq<Event>, c: Conn, id: StreamId)
    requires Initial(c0) && Run(g, c0, events, c) && id in c.issued
    ensures Words(c, id) == Opening(id, c.issued[id].name) || Words(c, id) == WholeRequest(id, c.issued[id])
    ensures id in c.inflight && c.inflight[id].state.AwaitingResponse? ==>
              Words(c, id) == WholeRequest(id, c.issued[id])
    ensures forall i :: 0 <= i < |c.delivered| && IsValue(c.delivered[i]) && c.delivered[i].id == id ==>
              Words(c, id) == WholeRequest(id, c.issued[id])
  {
    EveryConnectionIsWired(g, c0, events, c);
    assert RequestWired(c, id);
    assert forall i :: 0 <= i < |c.delivered| ==> c.delivered[i] in History(c);
  }

  /** A subscription the user was last told is open has our handshake on both of its streams: on ours directly
      after the negotiation. */
  lemma {:induction false} OpenMeansHandshakesSent(g: Config, c0: Conn, events: seq<Event>, c: Conn, i: nat)
    requires Initial(c0) && Run(g, c0, events, c) && i < |c.subs| && ToldOpen(History(c), c.subs[i].protocol)
    ensures var s := c.subs[i];
            && BothOpen(s)
            && Opening(s.ours.id, s.name) + [Sends(s.ours.id, s.handshake)] <= Words(c, s.ours.id)
            && Sends(s.theirs.id, s.handshake) in c.net.outbox
  {
    EveryConnectionIsSafe(g, c0, events, c);
    EveryConnectionIsWired(g, c0, events, c);
    assert SubWired(c, c.subs[i], None);
  }
}
