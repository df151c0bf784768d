/** Whole runs of a connection, from its start and over every interleaving of calls, timeouts, outputs
    and failures (`src/connection.rs`). */
module ConnectionSafety {
  import opened Bytes
  import opened ConnectionView
  import opened ConnectionRuns
  import opened ConnectionOwners
  import F = FrameBuffer
  import V = Varint
  import M = MultistreamView

  /** Only what the user cancelled is kept back. */
  ghost predicate OnlyCancellations(buf: seq<Message>)
  {
    forall m :: m in buf ==> (m.Response? && m.res.Cancelled?) || (m.Notification? && m.news.Ended?)
  }

  ghost predicate Safe(c: Conn)
  {
    Conserved(c) && Truthful(c) && Owned(c, None) && OnlyCancellations(c.nextBuf)
  }

  /** A connection as `from_stream` sets it up. */
  ghost predicate Initial(c: Conn)
  {
    && c == Conn(map[], map[], c.subs, [], false, Net(M.Layer(map[], None), [], 1), [], map[])
    && DistinctProtocols(c.subs)
    && forall i :: 0 <= i < |c.subs| ==> c.subs[i].ours.Closed? && c.subs[i].theirs.Closed?
  }

  lemma {:induction false} InitiallySafe(c: Conn)
    requires Initial(c)
    ensures Safe(c)
  {
  }

  lemma {:induction false} ListenedKeepsBack(g: Config, c: Conn, d: Drive)
    requires Room(c.net)
    ensures Listened(g, c, d).nextBuf == c.nextBuf
  {
  }

  lemma {:induction false} StepKeepsBack(g: Config, c: Conn, e: Event)
    requires Possible(c, e) && OnlyCancellations(c.nextBuf)
    ensures OnlyCancellations(Step(g, c, e).nextBuf)
  {
    if e.Next? && !c.finished && c.nextBuf == [] {
      ListenedKeepsBack(g, c, e.drive);
    }
  }

  lemma {:induction false} StepIsSafe(g: Config, c: Conn, e: Event)
    requires Safe(c) && Possible(c, e)
    ensures Safe(Step(g, c, e))
  {
    StepConserves(g, c, e);
    StepKeepsOwned(g, c, e);
    StepKeepsBack(g, c, e);
  }

  ghost predicate Run(g: Config, c: Conn, events: seq<Event>, c': Conn)
    decreases |events|
  {
    if events == [] then c' == c
    else Possible(c, events[0]) && Run(g, Step(g, c, events[0]), events[1..], c')
  }

  /** Every reachable state of a connection: requests conserved, "opened" alternating and true, one owner
      per stream, and nothing but cancellations kept back. */
  lemma {:induction false} EveryRunIsSafe(g: Config, c: Conn, events: seq<Event>, c': Conn)
    requires Safe(c) && Run(g, c, events, c')
    ensures Safe(c')
    decreases |events|
  {
    if events != [] {
      StepIsSafe(g, c, events[0]);
      EveryRunIsSafe(g, Step(g, c, events[0]), events[1..], c');
    }
  }

  lemma {:induction false} EveryConnectionIsSafe(g: Config, c: Conn, events: seq<Event>, c': Conn)
    requires Initial(c) && Run(g, c, events, c')
    ensures Safe(c')
  {
    InitiallySafe(c);
    EveryRunIsSafe(g, c, events, c');
  }

  // ---------------------------------------------------------------------------
  // Requests, in plain terms
  // ---------------------------------------------------------------------------

  lemma {:induction false} ResponsesSplit(a: seq<Message>, b: seq<Message>, id: StreamId)
    ensures Responses(a + b, id) == Responses(a, id) + Responses(b, id)
    decreases |b|
  {
    if b == [] {
      assert a + b == a;
    } else {
      var init, m := b[..|b| - 1], b[|b| - 1];
      assert b == init + [m];
      Assoc(a, init, [m]);
      ResponsesSplit(a, init, id);
      HistorySnoc(a + init, m, id, 0);
      HistorySnoc(init, m, id, 0);
    }
  }

  lemma {:induction false} AnsweredAtMostOnce(h: seq<Message>, id: StreamId, i: nat, j: nat)
    requires Responses(h, id) <= 1 && i < j < |h|
    requires h[i].Response? && h[i].id == id
    ensures !(h[j].Response? && h[j].id == id)
  {
    if h[j].Response? && h[j].id == id {
      assert h == h[..j] + h[j..];
      ResponsesSplit(h[..j], h[j..], id);
      CountsOne(h[..j], id, i);
      CountsOne(h[j..], id, 0);
    }
  }

  lemma {:induction false} CountsOne(h: seq<Message>, id: StreamId, i: nat)
    requires i < |h| && h[i].Response? && h[i].id == id
    ensures Responses(h, id) >= 1
    decreases |h|
  {
    if i < |h| - 1 { CountsOne(h[..|h| - 1], id, i); }
  }

  /** A request issued is in flight, or its cancellation is kept back, or one answer was returned:
      exactly one of the three. */
  lemma {:induction false} ExactlyOnePlace(g: Config, c0: Conn, events: seq<Event>, c: Conn, id: StreamId)
    requires Initial(c0) && Run(g, c0, events, c)
    ensures (if id in c.inflight then 1 else 0) + Responses(c.nextBuf, id) + Responses(c.delivered, id)
            == if id in c.issued then 1 else 0
  {
    EveryConnectionIsSafe(g, c0, events, c);
    assert Places(c, id) == if id in c.issued then 1 else 0;
    ResponsesSplit(c.delivered, c.nextBuf, id);
  }

  /** No two of the messages returned answer the same request. */
  lemma {:induction false} OneResponseEach(g: Config, c0: Conn, events: seq<Event>, c: Conn, i: nat, j: nat)
    requires Initial(c0) && Run(g, c0, events, c) && i < j < |c.delivered|
    requires c.delivered[i].Response? && c.delivered[j].Response?
    ensures c.delivered[i].id != c.delivered[j].id
  {
    var id := c.delivered[i].id;
    ExactlyOnePlace(g, c0, events, c, id);
    AnsweredAtMostOnce(c.delivered, id, i, j);
  }

  /** In every reachable state a stream has at most one owner; those we opened are odd and those the peer
      opened even; no inbound side is up without ours. */
  lemma {:induction false} OneOwnerAlways(g: Config, c0: Conn, events: seq<Event>, c: Conn, a: Owner, b: Owner,
                                          id: StreamId)
    requires Initial(c0) && Run(g, c0, events, c) && Owns(c, a, id) && Owns(c, b, id)
    ensures a == b
    ensures a.OurRequest? || a.Outbound? <==> id % 2 == 1
    ensures a.Inbound? ==> !c.subs[a.i].ours.Closed?
  {
    EveryConnectionIsSafe(g, c0, events, c);
    OneOwner(c, a, b, id);
  }

  // ---------------------------------------------------------------------------
  // Subscriptions, in plain terms
  // ---------------------------------------------------------------------------

  function OpenedCount(h: seq<Message>, protocol: nat): nat
  {
    if h == [] then 0
    else OpenedCount(h[..|h| - 1], protocol) + if h[|h| - 1] == Notification(protocol, Opened) then 1 else 0
  }

  predicate Rises(c: Conn, c': Conn, i: nat)
  {
    i < |c.subs| && i < |c'.subs| && !BothOpen(c.subs[i]) && BothOpen(c'.subs[i])
  }

  /** How often, in a run, both sides of a subscription came to be open. */
  ghost function RiseCount(g: Config, c: Conn, events: seq<Event>, i: nat): nat
    decreases |events|
  {
    if events == [] || !Possible(c, events[0]) then 0
    else
      var c' := Step(g, c, events[0]);
      (if Rises(c, c', i) then 1 else 0) + RiseCount(g, c', events[1..], i)
  }

  lemma {:induction false} AgreesCounts(c: Conn, c': Conn, said: Option<Message>, i: nat)
    requires Agrees(c, c', said) && i < |c.subs|
    ensures var p := c.subs[i].protocol;
            && |c'.subs| == |c.subs| && c'.subs[i].protocol == p
            && OpenedCount(History(c'), p) == OpenedCount(History(c), p) + if Rises(c, c', i) then 1 else 0
  {
    assert SubAgrees(c.subs[i], c'.subs[i], said);
    if said.Some? {
      assert (History(c) + [said.value])[..|History(c)|] == History(c);
    } else {
      assert History(c) + [] == History(c);
    }
  }

  lemma {:induction false} StepCounts(g: Config, c: Conn, e: Event, i: nat)
    requires DistinctProtocols(c.subs) && Possible(c, e) && i < |c.subs|
    ensures var c', p := Step(g, c, e), c.subs[i].protocol;
            && |c'.subs| == |c.subs| && c'.subs[i].protocol == p
            && OpenedCount(History(c'), p) == OpenedCount(History(c), p) + if Rises(c, c', i) then 1 else 0
  {
    if e.Next? {
      var said := DrivenAgrees(g, c, e.drive);
      AgreesCounts(c, Step(g, c, e), said, i);
    } else if !e.CallRequest? {
      var said := CallAgrees(g, c, e);
      AgreesCounts(c, Step(g, c, e), said, i);
    }
  }

  /** "Opened" is said exactly once each time both sides come to be open. */
  lemma {:induction false} OpenedOncePerRise(g: Config, c: Conn, events: seq<Event>, c': Conn, i: nat)
    requires Safe(c) && Run(g, c, events, c') && i < |c.subs|
    ensures OpenedCount(History(c'), c.subs[i].protocol)
            == OpenedCount(History(c), c.subs[i].protocol) + RiseCount(g, c, events, i)
    decreases |events|
  {
    if events != [] {
      StepCounts(g, c, events[0], i);
      StepIsSafe(g, c, events[0]);
      OpenedOncePerRise(g, Step(g, c, events[0]), events[1..], c', i);
    }
  }

  /** Between two "opened" returned for one subscription an end was returned, in order or in error. */
  lemma {:induction false} EndedBetweenOpenings(g: Config, c0: Conn, events: seq<Event>, c: Conn, i: nat, j: nat)
      returns (k: nat)
    requires Initial(c0) && Run(g, c0, events, c) && i < j < |c.delivered|
    requires IsOpened(c.delivered[i]) && IsOpened(c.delivered[j]) && c.delivered[i].protocol == c.delivered[j].protocol
    ensures i < k < j && IsStatus(c.delivered[k], c.delivered[i].protocol)
    ensures c.delivered[k].news.Ended? || c.delivered[k].news.Broken?
  {
    EveryConnectionIsSafe(g, c0, events, c);
    PrefixAlternates(History(c), |c.delivered|);
    assert History(c)[..|c.delivered|] == c.delivered;
    k := EndedBetween(c.delivered, i, j);
  }

  /** A value comes from the inbound side of a subscription, which is open. */
  lemma {:induction false} ValueComesFrom(g: Config, c: Conn, o: M.Output, takes: bool) returns (i: nat)
    requires Room(c.net)
    ensures var e := Handle(g, c, o, takes);
            e.said.Some? && e.said.value.Notification? && e.said.value.news.Received? ==>
              i < |c.subs| && c.subs[i].theirs.Open? && c.subs[i].protocol == e.said.value.protocol
  {
    i := InboundOf(c.subs, o);
  }

  predicate SaysValue(c: Conn, c': Conn, protocol: nat)
  {
    |c'.delivered| > |c.delivered| && c'.delivered[|c.delivered|].Notification?
    && c'.delivered[|c.delivered|].protocol == protocol && c'.delivered[|c.delivered|].news.Received?
  }

  lemma {:induction false} ReactedValue(g: Config, c: Conn, t: M.Turn, takes: bool, protocol: nat)
    requires Truthful(c) && Room(c.net) && SaysValue(c, Reacted(g, c, t, takes), protocol)
    ensures var i := SubOf(c.subs, protocol);
            i < |c.subs| && (ToldOpen(History(c), protocol) <==> c.subs[i].ours.Open?)
  {
    if t.Emit? {
      var k := ValueComesFrom(g, c, t.output, takes);
      assert Handle(g, c, t.output, takes).said == Some(Reacted(g, c, t, takes).delivered[|c.delivered|]);
      assert k == SubOf(c.subs, protocol);
    }
  }

  /** A value may come before "opened", since only the inbound side is looked at. In every safe state, so in every
      reachable one, a value handed over is for a subscription the user was last told is open if and only if our
      side of it is open too. */
  lemma {:induction false} ValueFollowsOpenedExactly(g: Config, c: Conn, d: Drive, protocol: nat)
    requires Safe(c) && Possible(c, Next(d)) && SaysValue(c, Step(g, c, Next(d)), protocol)
    ensures var i := SubOf(c.subs, protocol);
            i < |c.subs| && (ToldOpen(History(c), protocol) <==> c.subs[i].ours.Open?)
  {
    if !c.finished && c.nextBuf == [] && FirstExpired(c, d.expired) == |d.expired|
      && !(d.ended && c.net.layer.readFrom == None) {
      var o := M.Round(c.net.layer, d.input, d.takes, g.isUtf8);
      ReactedValue(g, AfterRound(c, o), o.turn, d.takesReply, protocol);
    }
  }

  /** Cancelling a subscription always says "closed"; in every safe state, so in every reachable one, to a user
      last told it is open if and only if both sides are. */
  lemma {:induction false} ClosedFollowsOpenedExactly(c: Conn, protocol: nat)
    requires Safe(c) && SubOf(c.subs, protocol) < |c.subs|
    ensures SubscriptionCancelled(c, protocol).nextBuf == c.nextBuf + [Notification(protocol, Ended)]
    ensures ToldOpen(History(c), protocol) <==> BothOpen(c.subs[SubOf(c.subs, protocol)])
  {
  }

  /** So on a new connection it says "closed" of a subscription that never was open. */
  lemma {:induction false} ClosedWithoutOpened(c: Conn, protocol: nat)
    requires Initial(c) && SubOf(c.subs, protocol) < |c.subs|
    ensures SubscriptionCancelled(c, protocol).nextBuf == [Notification(protocol, Ended)]
            && !ToldOpen(History(c), protocol)
  {
    assert History(c) == [] && [] + [Notification(protocol, Ended)] == [Notification(protocol, Ended)];
  }

  // ---------------------------------------------------------------------------
  // When a request can still be answered
  // ---------------------------------------------------------------------------

  /** Neither cancelled nor timed out. */
  predicate LeavesAlone(e: Event, id: StreamId)
  {
    match e
    case CallCancelRequest(other) => other != id
    case Next(d) => id !in d.expired
    case _ => true
  }

  predicate LeftAlone(events: seq<Event>, id: StreamId)
  {
    events == [] || (LeavesAlone(events[0], id) && LeftAlone(events[1..], id))
  }

  /** In flight on a stream that the layer below has given up on, without a word (lines 407-410 of
      `src/layers/yamux_multistream.rs`, among others). */
  predicate Stranded(c: Conn, id: StreamId) { id in c.inflight && id !in c.net.layer.slots && IsOurs(c.net, id) }

  lemma {:induction false} SilencedKeepsStranded(c: Conn, i: nat, id: StreamId)
    requires i < |c.subs| && Stranded(c, id)
    ensures Stranded(Silenced(c, i), id)
  {
  }

  lemma {:induction false} ProposalKeepsStranded(c: Conn, i: nat, own: StreamId, takes: bool, id: StreamId)
    requires i < |c.subs| && Room(c.net) && Stranded(c, id)
    ensures Stranded(OnProposal(c, i, own, takes).conn, id)
  {
  }

  lemma {:induction false} StrangerKeepsStranded(g: Config, c: Conn, o: M.Output, takes: bool, id: StreamId)
    requires Stranded(c, id)
    ensures Stranded(OnStranger(g, c, o, takes).conn, id)
  {
  }

  lemma {:induction false} RequestKeepsStranded(c: Conn, own: StreamId, out: M.OutputState, takes: bool, id: StreamId)
    requires own in c.inflight && own != id && Stranded(c, id)
    ensures Stranded(OnRequest(c, own, out, takes).conn, id)
  {
  }

  lemma {:induction false} OutputKeepsStranded(g: Config, c: Conn, o: M.Output, takes: bool, id: StreamId)
    requires Room(c.net) && Stranded(c, id) && o.streamId != id
    ensures Stranded(Handle(g, c, o, takes).conn, id)
  {
    var own := o.streamId;
    if own in c.inflight {
      RequestKeepsStranded(c, own, o.state, takes, id);
    } else if own !in c.incoming {
      UnrequestedKeepsStranded(g, c, o, takes, id);
    }
  }

  lemma {:induction false} UnrequestedKeepsStranded(g: Config, c: Conn, o: M.Output, takes: bool, id: StreamId)
    requires Room(c.net) && Stranded(c, id) && o.streamId !in c.inflight && o.streamId !in c.incoming
    ensures Stranded(Handle(g, c, o, takes).conn, id)
  {
    var out, inb := OutboundOf(c.subs, o.streamId), InboundOf(c.subs, o);
    if out < |c.subs| {
      SilencedKeepsStranded(c, out, id);
    } else if inb < |c.subs| {
      if c.subs[inb].theirs.Closed? {
        ProposalKeepsStranded(c, inb, o.streamId, takes, id);
      } else {
        SilencedKeepsStranded(c, inb, id);
      }
    } else {
      StrangerKeepsStranded(g, c, o, takes, id);
    }
  }

  lemma {:induction false} ReactedKeepsStranded(g: Config, c: Conn, t: M.Turn, takes: bool, id: StreamId)
    requires Room(c.net) && Stranded(c, id) && (t.Emit? ==> t.output.streamId != id)
    ensures Stranded(Reacted(g, c, t, takes), id)
  {
    if t.Emit? { OutputKeepsStranded(g, c, t.output, takes, id); }
  }

  lemma {:induction false} ListenedKeepsStranded(g: Config, c: Conn, d: Drive, id: StreamId)
    requires Possible(c, Next(d)) && Stranded(c, id)
    ensures Stranded(Listened(g, c, d), id)
  {
    M.RoundAbsent(c.net.layer, d.input, d.takes, g.isUtf8, id);
    var o := M.Round(c.net.layer, d.input, d.takes, g.isUtf8);
    ReactedKeepsStranded(g, AfterRound(c, o), o.turn, d.takesReply, id);
  }

  lemma {:induction false} TurnKeepsStranded(g: Config, c: Conn, d: Drive, id: StreamId)
    requires Possible(c, Next(d)) && Stranded(c, id) && id !in d.expired
    ensures Stranded(Driven(g, c, d), id)
  {
    if !c.finished && c.nextBuf == [] { ListenedKeepsStranded(g, c, d, id); }
  }

  lemma {:induction false} StepKeepsStranded(g: Config, c: Conn, e: Event, id: StreamId)
    requires Possible(c, e) && Stranded(c, id) && LeavesAlone(e, id)
    ensures Stranded(Step(g, c, e), id)
  {
    if e.Next? {
      TurnKeepsStranded(g, c, e.drive, id);
    } else if e.CallCancelSubscription? && SubOf(c.subs, e.protocol) < |c.subs| {
      SilencedKeepsStranded(c, SubOf(c.subs, e.protocol), id);
    }
  }

  /** A stranded request stays in flight in every run that neither cancels it nor times it out. */
  lemma {:induction false} StrandedForever(g: Config, c: Conn, events: seq<Event>, c': Conn, id: StreamId)
    requires Stranded(c, id) && Run(g, c, events, c') && LeftAlone(events, id)
    ensures Stranded(c', id)
    decreases |events|
  {
    if events != [] {
      StepKeepsStranded(g, c, events[0], id);
      StrandedForever(g, Step(g, c, events[0]), events[1..], c', id);
    }
  }

  /** Between turns, with nothing kept back and no buffer half read. */
  predicate Idle(c: Conn) { !c.finished && c.nextBuf == [] && c.net.layer.readFrom == None }

  /** A turn that takes the report of a close. */
  function TakeClose(id: StreamId): Drive { Drive([], M.RemoteClosed(id), false, true, true) }

  /** The close of a request's stream answers it. */
  lemma {:induction false} CloseAnswers(g: Config, c: Conn, id: StreamId)
    requires Safe(c) && Idle(c) && Room(c.net) && id in c.inflight && id in c.net.layer.slots
    ensures id !in Driven(g, c, TakeClose(id)).inflight
  {
    var d := TakeClose(id);
    var o := M.Round(c.net.layer, d.input, d.takes, g.isUtf8);
    assert o.turn == M.Emit(M.Output(id, M.Closed(M.ClosedByRemote)));
    assert Driven(g, c, d) == Conclude(OnRequest(AfterRound(c, o), id, o.turn.output.state, true));
  }

  /** The code does get there: a peer that opens with anything but the multistream header, here an empty
      frame, strands the request. */
  lemma {:induction false} PeerCanStrand(g: Config, c: Conn, id: StreamId)
    requires Safe(c) && Idle(c) && Room(c.net) && id in c.inflight && id in c.net.layer.slots
    requires Unanswered(c.net.layer.slots[id])
    ensures Stranded(Step(g, c, Next(Drive([], M.RemoteData(id, F.Framed([])), false, true, true))), id)
  {
    EmptyFrameGivesUp(c.net.layer, id, g.isUtf8);
  }

  /** An outgoing stream on which nothing has come back yet. */
  predicate Unanswered(s: M.Slot)
  {
    s.pending == [] && !s.failed && s.maxBufferSize >= 1 && s.state.Outgoing? && !s.state.seenHeader
  }

  lemma {:induction false} EmptyFrameGivesUp(l: M.Layer, id: StreamId, isUtf8: M.Name -> bool)
    requires l.readFrom == None && id in l.slots && Unanswered(l.slots[id])
    ensures M.Round(l, M.RemoteData(id, F.Framed([])), true, isUtf8)
            == M.Outcome(M.Layer(l.slots - {id}, Some(id)), [M.ResetStream(id)], M.Again)
  {
    EmptyFrame();
    EmptyIsNotHeader(l.slots[id].state, isUtf8);
    var s := l.slots[id].(pending := F.Framed([]));
    M.FedIsPulled(l, id, F.Framed([]), true, isUtf8);
    M.GivesUp(l.(slots := l.slots[id := s]), id, [], true, isUtf8);
    assert l.slots[id := s] - {id} == l.slots - {id};
  }

  lemma {:induction false} EmptyFrame()
    ensures |F.Framed([])| == 1 && [] + F.Framed([]) == F.Framed([]) && F.Unread([]) == []
    ensures F.ParseOne(F.Framed([])) == F.Frame([], [])
  {
    assert F.Framed([]) == V.Encoded(0) + [] == [0];
    F.ParseFramed([], []);
    assert F.Framed([]) + [] == F.Framed([]);
  }

  lemma {:induction false} EmptyIsNotHeader(s: M.State, isUtf8: M.Name -> bool)
    requires s.Outgoing? && !s.seenHeader
    ensures M.React(s, [], isUtf8) == M.GIVE_UP
  {
  }
}
