/** What the theorems about whole runs mean for one call on a connection. */
module ConnectionFacts {
  import opened Bytes
  import opened ConnectionView
  import opened ConnectionRuns
  import opened ConnectionOwners
  import opened ConnectionSafety
  import opened ConnectionWire
  import M = MultistreamView

  lemma {:induction false} KeepsValid(g: Config, c: Conn, e: Event)
    requires Safe(c) && Wired(c, None) && Possible(c, e)
    ensures Safe(Step(g, c, e)) && Wired(Step(g, c, e), None)
  {
    StepIsSafe(g, c, e);
    StepKeepsWired(g, c, e);
  }

  /** The same, for the state a call has led to. */
  lemma {:induction false} KeptBy(g: Config, c: Conn, e: Event, c': Conn)
    requires Safe(c) && Wired(c, None) && Possible(c, e) && c' == Step(g, c, e)
    ensures Safe(c') && Wired(c', None)
  {
    KeepsValid(g, c, e);
  }

  lemma {:induction false} InitiallyWired(c: Conn)
    requires Initial(c)
    ensures Wired(c, None)
  {
  }

  /** The request as it was made: its protocol, the name configured for that, and its payload. */
  ghost predicate Records(g: Config, r: Issue, protocol: nat, payload: Payload)
  {
    && r.protocol == protocol && r.payload == payload
    && exists k :: 0 <= k < |g.requests| && g.requests[k].protocol == protocol && g.requests[k].name == r.name
                   && forall j :: 0 <= j < k ==> g.requests[j].protocol != protocol
  }

  lemma {:induction false} RequestFacts(g: Config, c: Conn, protocol: nat, payload: Payload)
    requires Safe(c) && Room(c.net)
    ensures var c' := Requested(g, c, protocol, payload);
            if ProtocolOf(g.requests, protocol) < |g.requests|
            then
              && c.net.nextId !in c.issued && c.net.nextId in c'.inflight && Responses(History(c'), c.net.nextId) == 0
              && c.net.nextId in c'.issued && Records(g, c'.issued[c.net.nextId], protocol, payload)
            else c' == c && forall k :: 0 <= k < |g.requests| ==> g.requests[k].protocol != protocol
  {
    assert Places(c, c.net.nextId) == 0;
  }

  /** Why a subscription cannot be opened, and why nothing can be sent on one. */
  lemma {:induction false} ErrorsExactly(c: Conn, protocol: nat, takes: bool, i: nat)
    requires DistinctProtocols(c.subs) && i < |c.subs| && c.subs[i].protocol == protocol
    ensures var ours := c.subs[i].ours;
            && SubscribeError(c, protocol) == (if ours.Closed? then None else Some(AlreadySubscribed))
            && (NotifyError(c, protocol, takes) == Some(SubscriptionClosed) <==> ours.Closed?)
            && (NotifyError(c, protocol, takes) == Some(SubscriptionNotReady) <==> ours.Handshake?)
            && (NotifyError(c, protocol, takes) == None <==> ours.Open? && MaySend(c, ours.id) && takes)
  {
    assert SubOf(c.subs, protocol) == i;
  }

  predicate MaySend(c: Conn, id: StreamId) { id in c.net.layer.slots && c.net.layer.slots[id].state == M.Open }

  lemma {:induction false} CancelFacts(g: Config, c: Conn, id: StreamId)
    requires Safe(c) && id in c.inflight
    ensures Responses(RequestCancelled(c, id).nextBuf, id) == 1 && Responses(c.delivered, id) == 0
  {
    InflightIssued(c, id);
    assert Places(c, id) == 1;
    ResponsesSplit(c.delivered, c.nextBuf, id);
    HistorySnoc(c.nextBuf, Response(id, c.inflight[id].protocol, Cancelled), id, 0);
  }

  lemma {:induction false} SubscribeFacts(c: Conn, protocol: nat)
    requires Safe(c) && ToldOpen(History(c), protocol) && SubOf(c.subs, protocol) < |c.subs|
    ensures SubscribeError(c, protocol) == Some(AlreadySubscribed)
  {
  }

  lemma {:induction false} NotifyFacts(c: Conn, protocol: nat, data: Payload, takes: bool)
    requires Safe(c) && Wired(c, None)
    ensures ToldOpen(History(c), protocol) && SubOf(c.subs, protocol) < |c.subs| ==>
              NotifyError(c, protocol, takes) == None || NotifyError(c, protocol, takes).value.StreamError?
    ensures NotifyError(c, protocol, takes) == None ==>
              var s := c.subs[SubOf(c.subs, protocol)];
              && s.ours.Open? && AfterHandshake(s.ours.id, s) <= Words(c, s.ours.id)
              && Words(Notified(c, protocol, data, takes), s.ours.id) == Words(c, s.ours.id) + [Sends(s.ours.id, data)]
  {
    if NotifyError(c, protocol, takes) == None {
      var s := c.subs[SubOf(c.subs, protocol)];
      assert SubWired(c, s, None);
      SendWords(c.net, s.ours.id, data, takes, s.ours.id);
    }
  }

  lemma {:induction false} CancelSubscriptionFacts(c: Conn, protocol: nat)
    requires Safe(SubscriptionCancelled(c, protocol))
    ensures var c' := SubscriptionCancelled(c, protocol);
            !ToldOpen(History(c'), protocol) || SubOf(c'.subs, protocol) == |c'.subs|
  {
    var i := SubOf(c.subs, protocol);
    if i < |c.subs| {
      PushedHistory(c, SubscriptionCancelled(c, protocol), Notification(protocol, Ended));
      HistorySnoc(History(c), Notification(protocol, Ended), 0, protocol);
    }
  }

  /** What a message returned after `before` tells the user: a response is for a request that was made and not
      answered before, and will not be answered again; a value, for one that went out whole; "opened" is news
      and true. */
  ghost predicate Tells(before: seq<Message>, c: Conn, m: Message)
  {
    && (m.Response? ==>
          && m.id in c.issued && m.id !in c.inflight
          && Responses(before, m.id) == 0 && Responses(c.nextBuf, m.id) == 0)
    && (IsValue(m) ==> m.id in c.issued && Words(c, m.id) == WholeRequest(m.id, c.issued[m.id]))
    && (IsOpened(m) ==> !ToldOpen(before, m.protocol) && IsOpen(c, m.protocol))
  }

  /** A turn keeps everything shown of whole runs, and what it returns tells the truth. */
  lemma {:induction false} NextKept(g: Config, c: Conn, d: Drive, c': Conn, said: Option<Message>)
    requires Possible(c, Next(d)) && Safe(c) && Wired(c, None)
    requires c' == Step(g, c, Next(d)) && c'.delivered == c.delivered + Maybe(said)
    ensures Safe(c') && Wired(c', None) && (said.Some? ==> Tells(c.delivered, c', said.value))
  {
    KeepsValid(g, c, Next(d));
    if said.Some? {
      TurnOpened(g, c, d, said.value);
      ReturnedTells(c', c.delivered, said.value);
    }
  }

  lemma {:induction false} ReturnedTells(c: Conn, before: seq<Message>, m: Message)
    requires Safe(c) && Wired(c, None) && c.delivered == before + [m] && (IsOpened(m) ==> IsOpen(c, m.protocol))
    ensures Tells(before, c, m)
  {
    ReturnedFacts(c, before, m);
  }

  lemma {:induction false} TurnOpened(g: Config, c: Conn, d: Drive, m: Message)
    requires Possible(c, Next(d)) && Safe(c) && Safe(Step(g, c, Next(d)))
             && Step(g, c, Next(d)).delivered == c.delivered + [m]
    ensures IsOpened(m) ==> IsOpen(Step(g, c, Next(d)), m.protocol)
  {
    NotKeptBack(g, c, d, m);
    if IsOpened(m) { OpenedIsTrue(g, c, d, m); }
  }

  /** Only cancellations are kept back. */
  lemma {:induction false} NotKeptBack(g: Config, c: Conn, d: Drive, m: Message)
    requires Possible(c, Next(d)) && Safe(c) && Step(g, c, Next(d)).delivered == c.delivered + [m]
    ensures IsOpened(m) ==> c.nextBuf == []
  {
    if c.nextBuf != [] && !c.finished {
      assert c.nextBuf[0] in c.nextBuf;
      assert (c.delivered + [c.nextBuf[0]])[|c.delivered|] == c.nextBuf[0];
      assert (c.delivered + [m])[|c.delivered|] == m;
    }
  }

  predicate IsOpen(c: Conn, protocol: nat)
  {
    var i := SubOf(c.subs, protocol);
    i < |c.subs| && BothOpen(c.subs[i])
  }

  lemma {:induction false} OpenedIsTrue(g: Config, c: Conn, d: Drive, m: Message)
    requires Possible(c, Next(d)) && Safe(c) && Safe(Step(g, c, Next(d)))
             && Step(g, c, Next(d)).delivered == c.delivered + [m] && IsOpened(m)
    requires c.nextBuf == []
    ensures IsOpen(Step(g, c, Next(d)), m.protocol)
  {
    var c' := Step(g, c, Next(d));
    var said := DrivenAgrees(g, c, d);
    SaidNow(c, c', said, m);
    var i := SubOf(c.subs, m.protocol);
    assert SubAgrees(c.subs[i], c'.subs[i], said);
    assert SubOf(c'.subs, m.protocol) == i;
  }

  lemma {:induction false} SaidNow(c: Conn, c': Conn, said: Option<Message>, m: Message)
    requires c.nextBuf == [] && Agrees(c, c', said) && c'.delivered == c.delivered + [m]
    ensures said == Some(m)
  {
    assert History(c) == c.delivered && History(c')[|c.delivered|] == m;
  }

  lemma {:induction false} ReturnedFacts(c: Conn, before: seq<Message>, m: Message)
    requires Safe(c) && Wired(c, None) && c.delivered == before + [m]
    ensures m.Response? ==>
              m.id in c.issued && m.id !in c.inflight && Responses(before, m.id) == 0 && Responses(c.nextBuf, m.id) == 0
    ensures IsValue(m) ==> Words(c, m.id) == WholeRequest(m.id, c.issued[m.id])
    ensures IsOpened(m) ==> !ToldOpen(before, m.protocol)
  {
    assert m in History(c) by { assert History(c)[|before|] == m; }
    HistorySnoc(before, m, if m.Response? then m.id else 0, 0);
    if m.Response? {
      assert Places(c, m.id) <= 1;
      ResponsesSplit(c.delivered, c.nextBuf, m.id);
    }
    PrefixAlternates(History(c), |c.delivered|);
    assert History(c)[..|c.delivered|] == c.delivered;
  }
}
