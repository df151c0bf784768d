/** What every step of a connection keeps: each request is accounted for once, and `Opened` alternates with the end
    of a subscription (`src/connection.rs`). That no stream has two owners is in `ConnectionOwners`. */
module ConnectionRuns {
  import opened Bytes
  import opened ConnectionView
  import M = MultistreamView

  // ---------------------------------------------------------------------------
  // The messages for the user
  // ---------------------------------------------------------------------------

  /** Every message ever made for the user, in order: those returned, then those kept back. */
  function History(c: Conn): seq<Message> { c.delivered + c.nextBuf }

  function Responses(h: seq<Message>, id: StreamId): nat
  {
    if h == [] then 0
    else Responses(h[..|h| - 1], id) + if h[|h| - 1].Response? && h[|h| - 1].id == id then 1 else 0
  }

  predicate IsStatus(m: Message, protocol: nat) { m.Notification? && m.protocol == protocol && !m.news.Received? }

  /** The user's last word on a subscription was that it opened. */
  predicate ToldOpen(h: seq<Message>, protocol: nat)
  {
    if h == [] then false
    else if IsStatus(h[|h| - 1], protocol) then h[|h| - 1].news.Opened?
    else ToldOpen(h[..|h| - 1], protocol)
  }

  predicate IsOpened(m: Message) { m.Notification? && m.news.Opened? }

  /** "Opened" is never said twice without an end in between. */
  predicate Alternates(h: seq<Message>)
  {
    if h == [] then true
    else
      var init, m := h[..|h| - 1], h[|h| - 1];
      Alternates(init) && (IsOpened(m) ==> !ToldOpen(init, m.protocol))
  }

  function Maybe(m: Option<Message>): seq<Message> { if m.Some? then [m.value] else [] }

  lemma {:induction false} HistorySnoc(h: seq<Message>, m: Message, id: StreamId, protocol: nat)
    ensures Responses(h + [m], id) == Responses(h, id) + if m.Response? && m.id == id then 1 else 0
    ensures ToldOpen(h + [m], protocol) == if IsStatus(m, protocol) then m.news.Opened? else ToldOpen(h, protocol)
    ensures Alternates(h + [m]) == (Alternates(h) && (IsOpened(m) ==> !ToldOpen(h, m.protocol)))
  {
  }

  /** In plain terms: between two "opened" of one subscription there is an end, in order or in error. */
  lemma {:induction false} EndedBetween(h: seq<Message>, i: nat, j: nat) returns (k: nat)
    requires Alternates(h) && i < j < |h|
    requires IsOpened(h[i]) && IsOpened(h[j]) && h[i].protocol == h[j].protocol
    ensures i < k < j && IsStatus(h[k], h[i].protocol) && (h[k].news.Ended? || h[k].news.Broken?)
  {
    PrefixAlternates(h, j + 1);
    assert h[..j + 1][..j] == h[..j];
    k := LastEnd(h[..j], i);
  }

  lemma {:induction false} PrefixAlternates(h: seq<Message>, n: nat)
    requires Alternates(h) && n <= |h|
    ensures Alternates(h[..n])
    decreases |h|
  {
    if n < |h| {
      PrefixAlternates(h[..|h| - 1], n);
      assert h[..|h| - 1][..n] == h[..n];
    } else {
      assert h[..n] == h;
    }
  }

  lemma {:induction false} LastEnd(h: seq<Message>, i: nat) returns (k: nat)
    requires i < |h| && IsOpened(h[i]) && !ToldOpen(h, h[i].protocol)
    ensures i < k < |h| && IsStatus(h[k], h[i].protocol) && (h[k].news.Ended? || h[k].news.Broken?)
    decreases |h|
  {
    k := |h| - 1;
    if !IsStatus(h[k], h[i].protocol) {
      k := LastEnd(h[..k], i);
    }
  }

  // ---------------------------------------------------------------------------
  // What one step may say
  // ---------------------------------------------------------------------------

  ghost predicate DistinctProtocols(subs: seq<Subscription>)
  {
    forall i, j :: 0 <= i < j < |subs| ==> subs[i].protocol != subs[j].protocol
  }

  /** A response takes its request out of flight; nothing else does. */
  ghost predicate RequestsAgree(before: set<StreamId>, after: set<StreamId>, said: Option<Message>)
  {
    if said.Some? && said.value.Response? then said.value.id in before && after == before - {said.value.id}
    else after == before
  }

  /** A status says how the subscription now stands, and "opened" is news; without one nothing changes. */
  ghost predicate SubAgrees(a: Subscription, b: Subscription, said: Option<Message>)
  {
    && b.protocol == a.protocol
    && (if said.Some? && IsStatus(said.value, a.protocol)
        then BothOpen(b) == said.value.news.Opened? && (said.value.news.Opened? ==> !BothOpen(a))
        else BothOpen(b) == BothOpen(a))
  }

  ghost predicate SubsAgree(before: seq<Subscription>, after: seq<Subscription>, said: Option<Message>)
  {
    && |after| == |before|
    && (forall i :: 0 <= i < |before| ==> SubAgrees(before[i], after[i], said))
    && (said.Some? && IsOpened(said.value) ==> SubOf(before, said.value.protocol) < |before|)
  }

  ghost predicate Accounts(c: Conn, e: Effect)
  {
    && e.conn.delivered == c.delivered && e.conn.nextBuf == c.nextBuf && e.conn.issued == c.issued
    && e.conn.net.nextId >= c.net.nextId
    && RequestsAgree(c.inflight.Keys, e.conn.inflight.Keys, e.said)
    && SubsAgree(c.subs, e.conn.subs, e.said)
  }

  lemma {:induction false} OneSubAgrees(subs: seq<Subscription>, i: nat, s: Subscription, said: Option<Message>)
    requires DistinctProtocols(subs) && i < |subs| && SubAgrees(subs[i], s, said)
    requires said.Some? && said.value.Notification? ==> said.value.protocol == subs[i].protocol
    ensures SubsAgree(subs, subs[i := s], said)
  {
  }

  lemma {:induction false} CutAccounts(c: Conn, i: nat, news: News)
    requires DistinctProtocols(c.subs) && i < |c.subs| && (news.Ended? || news.Broken?)
    ensures Accounts(c, Cut(c, i, news))
  {
  }

  lemma {:induction false} OutboundAccounts(g: Config, c: Conn, i: nat, out: M.OutputState, takes: bool)
    requires DistinctProtocols(c.subs) && i < |c.subs| && !c.subs[i].ours.Closed?
    ensures Accounts(c, OnOutbound(g, c, i, out, takes))
  {
    var s := c.subs[i];
    match ReadOutbound(s.ours, out, Valid(g, s, out))
    case Over(news) => CutAccounts(c, i, news);
    case Shaken =>
      var e := OnOutbound(g, c, i, out, takes);
      OneSubAgrees(c.subs, i, s.(ours := Open(s.ours.id)), e.said);
    case _ =>
  }

  lemma {:induction false} InboundAccounts(g: Config, c: Conn, i: nat, out: M.OutputState, takes: bool)
    requires DistinctProtocols(c.subs) && i < |c.subs| && !c.subs[i].theirs.Closed?
    ensures Accounts(c, OnInbound(g, c, i, out, takes))
  {
    var s := c.subs[i];
    match ReadInbound(s.theirs, out, Valid(g, s, out))
    case Over(news) => CutAccounts(c, i, news);
    case Shaken =>
      if M.SendError(c.net.layer, s.theirs.id, takes).None? {
        OneSubAgrees(c.subs, i, s.(theirs := Open(s.theirs.id)), OnInbound(g, c, i, out, takes).said);
      } else {
        SameSubsAgree(c.subs, None);
      }
    case Report(bytes) => SameSubsAgree(c.subs, Some(Notification(s.protocol, Received(bytes))));
  }

  lemma {:induction false} ProposalAccounts(c: Conn, i: nat, id: StreamId, takes: bool)
    requires DistinctProtocols(c.subs) && i < |c.subs| && Room(c.net) && c.subs[i].theirs.Closed?
    ensures Accounts(c, OnProposal(c, i, id, takes))
  {
    var after := OnProposal(c, i, id, takes).conn.subs;
    assert !BothOpen(c.subs[i]) && !BothOpen(after[i]);
    SubsMove(c.subs, after, i);
  }

  lemma {:induction false} SubsMove(before: seq<Subscription>, after: seq<Subscription>, i: nat)
    requires i < |before| == |after| && after == before[i := after[i]] && SubAgrees(before[i], after[i], None)
    ensures SubsAgree(before, after, None)
  {
  }

  lemma {:induction false} SameSubsAgree(subs: seq<Subscription>, said: Option<Message>)
    requires said.Some? && said.value.Notification? ==> said.value.news.Received?
    ensures SubsAgree(subs, subs, said)
  {
  }

  lemma {:induction false} RequestAccounts(c: Conn, id: StreamId, out: M.OutputState, takes: bool)
    requires id in c.inflight
    ensures Accounts(c, OnRequest(c, id, out, takes))
  {
    SameSubsAgree(c.subs, OnRequest(c, id, out, takes).said);
  }

  lemma {:induction false} IncomingAccounts(c: Conn, id: StreamId, out: M.OutputState)
    requires id in c.incoming
    ensures Accounts(c, OnIncoming(c, id, out))
  {
    SameSubsAgree(c.subs, OnIncoming(c, id, out).said);
  }

  lemma {:induction false} StrangerAccounts(g: Config, c: Conn, o: M.Output, takes: bool)
    ensures Accounts(c, OnStranger(g, c, o, takes))
  {
    SameSubsAgree(c.subs, None);
  }

  /** Whatever comes in, at most one message results, and it says what has become of its request or its
      subscription. */
  lemma {:induction false} HandleAccounts(g: Config, c: Conn, o: M.Output, takes: bool)
    requires DistinctProtocols(c.subs) && Room(c.net)
    ensures Accounts(c, Handle(g, c, o, takes))
  {
    var id := o.streamId;
    if id in c.inflight {
      RequestAccounts(c, id, o.state, takes);
    } else if id in c.incoming {
      IncomingAccounts(c, id, o.state);
    } else {
      var out, inb := OutboundOf(c.subs, id), InboundOf(c.subs, o);
      if out < |c.subs| {
        OutboundAccounts(g, c, out, o.state, takes);
      } else if inb < |c.subs| {
        if c.subs[inb].theirs.Closed? {
          ProposalAccounts(c, inb, id, takes);
        } else {
          InboundAccounts(g, c, inb, o.state, takes);
        }
      } else {
        StrangerAccounts(g, c, o, takes);
      }
    }
  }

  // ---------------------------------------------------------------------------
  // Requests are conserved, "opened" is the truth
  // ---------------------------------------------------------------------------

  /** The places a request can be in: in flight, or answered (the answer returned or kept back). */
  function Places(c: Conn, id: StreamId): nat { Responses(History(c), id) + if id in c.inflight then 1 else 0 }

  /** Every request issued is in exactly one place, and nothing else is in any. */
  ghost predicate Conserved(c: Conn)
  {
    && (forall id :: Places(c, id) == if id in c.issued then 1 else 0)
    && (forall id :: id in c.issued ==> id < c.net.nextId)
  }

  /** What the user was last told about a subscription is how it stands. */
  ghost predicate Truthful(c: Conn)
  {
    && DistinctProtocols(c.subs) && Alternates(History(c))
    && forall i :: 0 <= i < |c.subs| ==> ToldOpen(History(c), c.subs[i].protocol) == BothOpen(c.subs[i])
  }

  /** What a step says agrees with what it does. */
  ghost predicate Agrees(c: Conn, c': Conn, said: Option<Message>)
  {
    && History(c') == History(c) + Maybe(said)
    && c'.issued == c.issued && c'.net.nextId >= c.net.nextId
    && RequestsAgree(c.inflight.Keys, c'.inflight.Keys, said)
    && SubsAgree(c.subs, c'.subs, said)
  }

  lemma {:induction false} AgreesConserves(c: Conn, c': Conn, said: Option<Message>)
    requires Conserved(c) && Agrees(c, c', said)
    ensures Conserved(c')
  {
    forall id: StreamId ensures Places(c', id) == if id in c'.issued then 1 else 0 {
      assert Places(c, id) == if id in c.issued then 1 else 0;
      if said.Some? {
        HistorySnoc(History(c), said.value, id, 0);
      } else {
        assert History(c) + [] == History(c);
      }
      assert id in c'.inflight <==> id in c'.inflight.Keys;
    }
  }

  lemma {:induction false} AgreesIsTrue(c: Conn, c': Conn, said: Option<Message>)
    requires Truthful(c) && Agrees(c, c', said)
    ensures Truthful(c')
  {
    var h := History(c);
    if said.Some? {
      HistorySnoc(h, said.value, 0, 0);
      if IsOpened(said.value) {
        var k := SubOf(c.subs, said.value.protocol);
        assert SubAgrees(c.subs[k], c'.subs[k], said);
      }
    } else {
      assert h + [] == h;
    }
    forall i | 0 <= i < |c'.subs| ensures ToldOpen(History(c'), c'.subs[i].protocol) == BothOpen(c'.subs[i]) {
      assert SubAgrees(c.subs[i], c'.subs[i], said);
      if said.Some? { HistorySnoc(h, said.value, 0, c.subs[i].protocol); }
    }
    SameProtocols(c.subs, c'.subs, said);
  }

  lemma {:induction false} SameProtocols(before: seq<Subscription>, after: seq<Subscription>, said: Option<Message>)
    requires DistinctProtocols(before) && SubsAgree(before, after, said)
    ensures DistinctProtocols(after)
  {
  }

  /** A message told at once, when none is kept back. */
  lemma {:induction false} ToldHistory(c: Conn, c': Conn, said: Option<Message>)
    requires c.nextBuf == [] == c'.nextBuf && c'.delivered == c.delivered + Maybe(said)
    ensures History(c') == History(c) + Maybe(said)
  {
  }

  lemma {:induction false} PushedHistory(c: Conn, c': Conn, m: Message)
    requires c'.delivered == c.delivered && c'.nextBuf == c.nextBuf + [m]
    ensures History(c') == History(c) + [m]
  {
  }

  lemma {:induction false} ReactedAgrees(g: Config, c: Conn, t: M.Turn, takes: bool) returns (said: Option<Message>)
    requires DistinctProtocols(c.subs) && Room(c.net) && c.nextBuf == []
    ensures Agrees(c, Reacted(g, c, t, takes), said)
  {
    said := None;
    if t.Emit? {
      HandleAccounts(g, c, t.output, takes);
      said := Handle(g, c, t.output, takes).said;
    } else {
      SameSubsAgree(c.subs, None);
    }
    assert c.delivered + [] == c.delivered;
    ToldHistory(c, Reacted(g, c, t, takes), said);
  }

  lemma {:induction false} ListenedAgrees(g: Config, c: Conn, d: Drive) returns (said: Option<Message>)
    requires DistinctProtocols(c.subs) && Room(c.net) && c.nextBuf == []
    ensures Agrees(c, Listened(g, c, d), said)
  {
    var o := M.Round(c.net.layer, d.input, d.takes, g.isUtf8);
    said := ReactedAgrees(g, AfterRound(c, o), o.turn, d.takesReply);
  }

  lemma {:induction false} DrivenAgrees(g: Config, c: Conn, d: Drive) returns (said: Option<Message>)
    requires DistinctProtocols(c.subs) && Room(c.net)
    ensures Agrees(c, Driven(g, c, d), said)
  {
    said := None;
    SameSubsAgree(c.subs, None);
    assert History(c) + [] == History(c);
    if !c.finished {
      var r := FirstExpired(c, d.expired);
      if c.nextBuf != [] {
        assert (c.delivered + [c.nextBuf[0]]) + c.nextBuf[1..] == c.delivered + c.nextBuf;
      } else if r < |d.expired| {
        var id := d.expired[r];
        said := Some(Response(id, c.inflight[id].protocol, Failed(Timeout)));
        SameSubsAgree(c.subs, said);
        ToldHistory(c, Driven(g, c, d), said);
      } else if !(d.ended && c.net.layer.readFrom == None) {
        said := ListenedAgrees(g, c, d);
      }
    }
  }

  lemma {:induction false} CancelRequestAgrees(c: Conn, id: StreamId) returns (said: Option<Message>)
    ensures Agrees(c, RequestCancelled(c, id), said)
  {
    said := None;
    if id in c.inflight {
      said := Some(Response(id, c.inflight[id].protocol, Cancelled));
      PushedHistory(c, RequestCancelled(c, id), said.value);
    } else {
      assert History(c) + [] == History(c);
    }
    SameSubsAgree(c.subs, said);
  }

  lemma {:induction false} CancelSubscriptionAgrees(c: Conn, protocol: nat) returns (said: Option<Message>)
    requires DistinctProtocols(c.subs)
    ensures Agrees(c, SubscriptionCancelled(c, protocol), said)
  {
    var i := SubOf(c.subs, protocol);
    if i < |c.subs| {
      said := Some(Notification(protocol, Ended));
      OneSubAgrees(c.subs, i, c.subs[i].(ours := Closed, theirs := Closed), said);
      PushedHistory(c, SubscriptionCancelled(c, protocol), said.value);
    } else {
      said := None;
      SameSubsAgree(c.subs, None);
      assert History(c) + [] == History(c);
    }
  }

  lemma {:induction false} CallAgrees(g: Config, c: Conn, e: Event) returns (said: Option<Message>)
    requires DistinctProtocols(c.subs) && Possible(c, e) && !e.Next? && !e.CallRequest?
    ensures Agrees(c, Step(g, c, e), said)
  {
    if e.CallCancelRequest? {
      said := CancelRequestAgrees(c, e.id);
    } else if e.CallCancelSubscription? {
      said := CancelSubscriptionAgrees(c, e.protocol);
    } else {
      said := None;
      SameSubsAgree(c.subs, None);
      assert History(c) + [] == History(c);
      if e.CallSubscribe? && SubscribeError(c, e.protocol).None? {
        SubsMove(c.subs, Step(g, c, e).subs, SubOf(c.subs, e.protocol));
      }
    }
  }

  lemma {:induction false} RequestConserves(g: Config, c: Conn, protocol: nat, payload: Payload)
    requires Conserved(c) && Truthful(c) && Room(c.net)
    ensures Conserved(Requested(g, c, protocol, payload)) && Truthful(Requested(g, c, protocol, payload))
  {
  }

  /** Every step keeps both. */
  lemma {:induction false} StepConserves(g: Config, c: Conn, e: Event)
    requires Conserved(c) && Truthful(c) && Possible(c, e)
    ensures Conserved(Step(g, c, e)) && Truthful(Step(g, c, e))
  {
    if e.CallRequest? {
      RequestConserves(g, c, e.protocol, e.payload);
    } else {
      var said;
      if e.Next? { said := DrivenAgrees(g, c, e.drive); } else { said := CallAgrees(g, c, e); }
      AgreesConserves(c, Step(g, c, e), said);
      AgreesIsTrue(c, Step(g, c, e), said);
    }
  }
}
