/** `Connection`: its calls and the loop of `next`, over a `YamuxMultistream` (`src/connection.rs`);
    `ConnectionView` says what each step means. */
module Connection {
  import opened Bytes
  import opened ConnectionView
  import opened ConnectionRuns
  import opened ConnectionOwners
  import opened ConnectionSafety
  import opened ConnectionWire
  import opened ConnectionFacts
  import opened ConnectionReplies
  import M = MultistreamView
  import opened Multistream

  class Connection {
    const yamux: YamuxMultistream
    const g: Config
    var inflight: map<StreamId, Inflight>
    var incoming: map<StreamId, nat>
    var subs: seq<Subscription>
    var nextBuf: seq<Message>
    var finished: bool
    /** The identifier the session below gives out next. */
    var nextId: StreamId
    ghost var delivered: seq<Message>
    ghost var issued: map<StreamId, Issue>

    ghost predicate Shaped()
      reads yamux
    {
      yamux.Valid() && yamux.isUtf8 == g.isUtf8
    }

    /** Between calls: the layer below is in shape, and everything shown of whole runs holds. */
    ghost predicate Valid()
      reads this, yamux
    {
      Shaped() && Safe(Model()) && Wired(Model(), None)
    }

    ghost function Below(): Net
      requires yamux.Valid()
      reads this`nextId, yamux
    {
      Net(yamux.Model(), yamux.outbox, nextId)
    }

    ghost function Model(): Conn
      requires yamux.Valid()
      reads this, yamux
    {
      Conn(inflight, incoming, subs, nextBuf, finished, Below(), delivered, issued)
    }

    /** `from_stream`, once the session is up: the configured protocols, each with its own identifier. */
    constructor (g: Config, subs: seq<Subscription>)
      requires DistinctProtocols(subs) && forall i :: 0 <= i < |subs| ==> subs[i].ours.Closed? && subs[i].theirs.Closed?
      ensures Valid() && fresh(yamux) && this.g == g
      ensures Initial(Model()) && this.subs == subs
    {
      yamux := new YamuxMultistream(g.isUtf8);
      this.g, this.subs := g, subs;
      inflight, incoming, nextBuf, finished, nextId := map[], map[], [], false, 1;
      delivered, issued := [], map[];
      new;
      InitiallySafe(Model());
      InitiallyWired(Model());
    }

    // -------------------------------------------------------------------------
    // The layer below
    // -------------------------------------------------------------------------

    method OpenStream(name: M.Name, maxSize: nat) returns (id: StreamId)
      requires Shaped() && nextId + 2 < 0x1_0000_0000
      modifies this`nextId, yamux
      ensures Shaped() && Below() == NetOpen(old(Below()), name, maxSize) && id == old(nextId)
    {
      id := nextId;
      var error := yamux.OpenStream(id, [name], maxSize);
      nextId := nextId + 2;
      assert [name][1..] == [];
    }

    method SendData(id: StreamId, data: Payload, takes: bool) returns (error: Option<M.Error>)
      requires Shaped()
      modifies yamux`outbox
      ensures Shaped() && Below() == NetSend(old(Below()), id, data, takes)
      ensures error == M.SendError(old(Below()).layer, id, takes)
    {
      error := yamux.SendData(id, data, takes);
    }

    method Answer(id: StreamId, accept: Option<nat>, takes: bool) returns (error: Option<M.Error>)
      requires Shaped()
      modifies yamux
      ensures Shaped() && Below() == NetAnswer(old(Below()), id, accept, takes)
      ensures error == M.AnswerError(old(Below()).layer, id, takes)
    {
      if accept.Some? {
        error := yamux.AcceptProtocol(id, accept.value, takes);
      } else {
        error := yamux.RejectProtocol(id, takes);
      }
    }

    method CloseStream(id: StreamId)
      requires Shaped()
      modifies yamux
      ensures Shaped() && Below() == NetClose(old(Below()), id)
    {
      yamux.Close(id);
    }

    method ResetStream(id: StreamId)
      requires Shaped()
      modifies yamux
      ensures Shaped() && Below() == NetReset(old(Below()), id)
    {
      yamux.ResetImmediately(id);
    }

    // -------------------------------------------------------------------------
    // What the user calls
    // -------------------------------------------------------------------------

    /** `request`: on success a new identifier, in flight and not answered. */
    method Request(protocol: nat, payload: Payload) returns (r: Result<StreamId, CallError>)
      requires Valid() && nextId + 2 < 0x1_0000_0000
      modifies this, yamux
      ensures Valid() && Model() == Requested(g, old(Model()), protocol, payload)
      ensures r.Ok? <==> exists k :: 0 <= k < |g.requests| && g.requests[k].protocol == protocol
      ensures r.Ok? ==> r.value !in old(issued) && r.value in inflight && Responses(delivered + nextBuf, r.value) == 0
      ensures r.Err? ==> Model() == old(Model())
      ensures r.Ok? ==> r.value in issued && Records(g, issued[r.value], protocol, payload)
    {
      ghost var c := Model();
      r := MakeRequest(protocol, payload);
      KeptBy(g, c, CallRequest(protocol, payload), Model());
      RequestFacts(g, c, protocol, payload);
      assert r.Ok? ==> g.requests[ProtocolOf(g.requests, protocol)].protocol == protocol;
    }

    /** `cancel_request`: the request is out of flight, and if it was in flight one cancellation is on its way. */
    method CancelRequest(id: StreamId)
      requires Valid()
      modifies this, yamux
      ensures Valid() && Model() == RequestCancelled(old(Model()), id)
      ensures id !in inflight && forall k :: k != id ==> (k in inflight <==> k in old(inflight))
      ensures id in old(inflight) ==> Responses(nextBuf, id) == 1 && Responses(delivered, id) == 0
    {
      ghost var c := Model();
      DropRequest(id);
      KeptBy(g, c, CallCancelRequest(id), Model());
      if id in c.inflight { CancelFacts(g, c, id); }
    }

    /** `respond`, to an identifier that came with a request of the peer's. */
    method Respond(id: StreamId, response: Payload, takes: bool)
      requires Valid() && id % 2 == 0
      modifies this, yamux
      ensures Valid() && Model() == Responded(old(Model()), id, response, takes)
      ensures old(MaySpeak(Model(), id)) && takes ==>
                Words(Model(), id) == old(Words(Model(), id)) + [Sends(id, response), M.CloseStream(id)]
    {
      ghost var c := Model();
      SendResponse(id, response, takes);
      KeptBy(g, c, CallRespond(id, response, takes), Model());
      ResponseGoesOut(c, id, response, takes, id);
    }

    /** `subscribe`: refused for an unknown protocol, and when our side is open or opening already. */
    method Subscribe(protocol: nat) returns (error: Option<CallError>)
      requires Valid() && nextId + 2 < 0x1_0000_0000
      modifies this, yamux
      ensures Valid() && Model() == Subscribed(old(Model()), protocol)
      ensures error == SubscribeError(old(Model()), protocol)
      ensures ToldOpen(old(delivered + nextBuf), protocol) && SubOf(old(subs), protocol) < |old(subs)| ==>
                error == Some(AlreadySubscribed)
    {
      ghost var c := Model();
      error := BeginSubscription(protocol);
      KeptBy(g, c, CallSubscribe(protocol), Model());
      if ToldOpen(History(c), protocol) && SubOf(c.subs, protocol) < |c.subs| { SubscribeFacts(c, protocol); }
    }

    /** `send_notification`: what is sent follows our handshake on our stream, and is the last thing said on it; a
        user last told the subscription is open is refused only by the stream below. */
    method SendNotification(protocol: nat, data: Payload, takes: bool) returns (error: Option<CallError>)
      requires Valid()
      modifies this, yamux
      ensures Valid() && Model() == Notified(old(Model()), protocol, data, takes)
      ensures error == NotifyError(old(Model()), protocol, takes)
      ensures error == None ==>
                var i := SubOf(subs, protocol);
                && i < |subs| && subs[i].ours.Open?
                && AfterHandshake(subs[i].ours.id, subs[i]) <= old(Words(Model(), subs[SubOf(subs, protocol)].ours.id))
                && Words(Model(), subs[i].ours.id)
                   == old(Words(Model(), subs[SubOf(subs, protocol)].ours.id)) + [Sends(subs[i].ours.id, data)]
      ensures ToldOpen(delivered + nextBuf, protocol) && SubOf(subs, protocol) < |subs| ==>
                error == None || error.value.StreamError?
    {
      ghost var c := Model();
      error := Notify(protocol, data, takes);
      KeptBy(g, c, CallNotify(protocol, data, takes), Model());
      NotifyFacts(c, protocol, data, takes);
    }

    /** `cancel_subscription`: both sides are closed, and the user's last word on it will be an end. */
    method CancelSubscription(protocol: nat)
      requires Valid()
      modifies this, yamux
      ensures Valid() && Model() == SubscriptionCancelled(old(Model()), protocol)
      ensures !ToldOpen(delivered + nextBuf, protocol) || SubOf(subs, protocol) == |subs|
    {
      ghost var c := Model();
      DropSubscription(protocol);
      KeptBy(g, c, CallCancelSubscription(protocol), Model());
      CancelSubscriptionFacts(c, protocol);
    }

    /** One turn of `next`. A response returned is for a request that was made and not answered before, and a value
        for one that went out whole; "opened" is news to the user, and true. */
    method Next(d: Drive) returns (said: Option<Message>)
      requires Valid() && nextId + 2 < 0x1_0000_0000 && (d.input.RemoteOpened? ==> d.input.id % 2 == 0)
      modifies this, yamux
      ensures Valid() && Model() == Driven(g, old(Model()), d)
      ensures delivered == old(delivered) + if said.Some? then [said.value] else []
      ensures said.Some? ==> Tells(old(delivered), Model(), said.value)
    {
      ghost var c := Model();
      said := Turn(d);
      NextKept(g, c, d, Model(), said);
    }

    // -------------------------------------------------------------------------
    // The calls, step by step
    // -------------------------------------------------------------------------

    /** `request`. */
    method MakeRequest(protocol: nat, payload: Payload) returns (r: Result<StreamId, CallError>)
      requires Shaped() && nextId + 2 < 0x1_0000_0000
      modifies this, yamux
      ensures Shaped() && Model() == Requested(g, old(Model()), protocol, payload)
      ensures r == if ProtocolOf(g.requests, protocol) == |g.requests| then Err(ProtocolNotFound) else Ok(old(nextId))
    {
      var k := ProtocolOf(g.requests, protocol);
      if k == |g.requests| {
        return Err(ProtocolNotFound);
      }
      var id := OpenStream(g.requests[k].name, g.requests[k].maxSize);
      inflight := inflight[id := Inflight(protocol, AwaitingConfirmation(payload))];
      issued := issued[id := Issue(protocol, g.requests[k].name, payload)];
      return Ok(id);
    }

    /** `cancel_request`. */
    method DropRequest(id: StreamId)
      requires Shaped()
      modifies this, yamux
      ensures Shaped() && Model() == RequestCancelled(old(Model()), id)
    {
      if id in inflight {
        var protocol := inflight[id].protocol;
        inflight := inflight - {id};
        ResetStream(id);
        nextBuf := nextBuf + [Response(id, protocol, Cancelled)];
      }
    }

    /** `respond`. */
    method SendResponse(id: StreamId, response: Payload, takes: bool)
      requires Shaped()
      modifies yamux
      ensures Shaped() && Model() == Responded(old(Model()), id, response, takes)
    {
      var ignored := SendData(id, response, takes);
      CloseStream(id);
    }

    /** `subscribe`. */
    method BeginSubscription(protocol: nat) returns (error: Option<CallError>)
      requires Shaped() && nextId + 2 < 0x1_0000_0000
      modifies this, yamux
      ensures Shaped() && Model() == Subscribed(old(Model()), protocol)
      ensures error == SubscribeError(old(Model()), protocol)
    {
      var i := SubOf(subs, protocol);
      if i == |subs| {
        return Some(ProtocolNotFound);
      }
      if !subs[i].ours.Closed? {
        return Some(AlreadySubscribed);
      }
      var id := OpenStream(subs[i].name, subs[i].maxSize);
      subs := subs[i := subs[i].(ours := Handshake(id))];
      return None;
    }

    /** `send_notification`. */
    method Notify(protocol: nat, data: Payload, takes: bool) returns (error: Option<CallError>)
      requires Shaped()
      modifies yamux
      ensures Shaped() && Model() == Notified(old(Model()), protocol, data, takes)
      ensures error == NotifyError(old(Model()), protocol, takes)
    {
      var i := SubOf(subs, protocol);
      if i == |subs| {
        return Some(ProtocolNotFound);
      }
      match subs[i].ours {
        case Closed => return Some(SubscriptionClosed);
        case Handshake(_) => return Some(SubscriptionNotReady);
        case Open(id) =>
          var refused := SendData(id, data, takes);
          return if refused.Some? then Some(StreamError(refused.value)) else None;
      }
    }

    /** `cancel_subscription_silently`, on a subscription that was found. */
    method Silence(i: nat)
      requires Shaped() && i < |subs|
      modifies this`subs, yamux
      ensures Shaped() && Model() == Silenced(old(Model()), i)
    {
      if !subs[i].ours.Closed? {
        ResetStream(subs[i].ours.id);
      }
      if !subs[i].theirs.Closed? {
        ResetStream(subs[i].theirs.id);
      }
      subs := subs[i := subs[i].(ours := Closed, theirs := Closed)];
    }

    /** `cancel_subscription`. */
    method DropSubscription(protocol: nat)
      requires Shaped()
      modifies this, yamux
      ensures Shaped() && Model() == SubscriptionCancelled(old(Model()), protocol)
    {
      var i := SubOf(subs, protocol);
      if i < |subs| {
        Silence(i);
        nextBuf := nextBuf + [Notification(protocol, Ended)];
      }
    }

    // -------------------------------------------------------------------------
    // Outputs
    // -------------------------------------------------------------------------

    /** A request of ours has ended: it leaves the table, with its stream if that is still up. */
    method Finish(id: StreamId, answer: Answer, reset: bool) returns (said: Option<Message>)
      requires Shaped() && id in inflight
      modifies this`inflight, yamux
      ensures Shaped() && said == Some(Response(id, old(inflight)[id].protocol, answer))
      ensures Model() == old(Model()).(inflight := old(inflight) - {id},
                                       net := if reset then NetReset(old(Below()), id) else old(Below()))
    {
      var protocol := inflight[id].protocol;
      inflight := inflight - {id};
      if reset {
        ResetStream(id);
      }
      return Some(Response(id, protocol, answer));
    }

    /** An output on the stream of a request of ours (lines 539-634). */
    method HandleRequest(id: StreamId, out: M.OutputState, takes: bool) returns (said: Option<Message>, failed: bool)
      requires Shaped() && id in inflight
      modifies this`inflight, yamux
      ensures Shaped() && Effect(Model(), said, failed) == OnRequest(old(Model()), id, out, takes)
    {
      failed := false;
      match inflight[id].state {
        case AwaitingConfirmation(payload) =>
          match out {
            case OutgoingAccepted(_) => failed := StartRequest(id, payload, takes); said := None;
            case OutgoingRejected => said := Finish(id, Failed(ProtocolRejected), false);
            case _ => said := Finish(id, Failed(MultistreamProtocolError), true);
          }
        case AwaitingResponse =>
          match out {
            case Data(bytes) => said := Finish(id, Value(bytes), true);
            case Closed(reason) =>
              match reason {
                case ClosedByRemote => said := Finish(id, Failed(ClosedByRemote), true);
                case IncomingMessageTooLarge => said := Finish(id, Failed(RemotePayloadTooLarge), false);
              }
            case _ => said := Finish(id, Failed(MultistreamProtocolError), true);
          }
      }
    }

    /** The protocol was accepted: the payload goes out and our half of the stream closes. */
    method StartRequest(id: StreamId, payload: Payload, takes: bool) returns (failed: bool)
      requires Shaped() && id in inflight && inflight[id].state == AwaitingConfirmation(payload)
      modifies this`inflight, yamux
      ensures Shaped() && failed == M.SendError(old(Below()).layer, id, takes).Some?
      ensures var p := old(inflight)[id].protocol;
              Model() == if failed
                         then old(Model()).(inflight := old(inflight)[id := Inflight(p, AwaitingConfirmation([]))])
                         else old(Model()).(inflight := old(inflight)[id := Inflight(p, AwaitingResponse)],
                                            net := NetClose(NetSend(old(Below()), id, payload, takes), id))
    {
      var protocol := inflight[id].protocol;
      var error := SendData(id, payload, takes);
      if error.Some? {
        inflight := inflight[id := Inflight(protocol, AwaitingConfirmation([]))];
        return true;
      }
      CloseStream(id);
      inflight := inflight[id := Inflight(protocol, AwaitingResponse)];
      return false;
    }

    /** An output on the stream of a request of the peer's (lines 635-667). */
    method HandleIncoming(id: StreamId, out: M.OutputState) returns (said: Option<Message>)
      requires Shaped() && id in incoming
      modifies this`incoming, yamux
      ensures Shaped() && Effect(Model(), said, false) == OnIncoming(old(Model()), id, out)
    {
      var protocol := incoming[id];
      incoming := incoming - {id};
      match out {
        case Data(bytes) => said := Some(ConnectionView.Request(id, protocol, Wanted(bytes)));
        case Closed(reason) =>
          said := Some(ConnectionView.Request(id, protocol, if reason.ClosedByRemote? then Withdrawn else TooLarge));
        case _ =>
          ResetStream(id);
          said := None;
      }
    }

    method EndSubscription(i: nat, news: News) returns (said: Option<Message>)
      requires Shaped() && i < |subs|
      modifies this`subs, yamux
      ensures Shaped() && Effect(Model(), said, false) == Cut(old(Model()), i, news)
    {
      var protocol := subs[i].protocol;
      Silence(i);
      return Some(Notification(protocol, news));
    }

    /** An output on our stream of a subscription (lines 668-780). */
    method HandleOutbound(i: nat, out: M.OutputState, takes: bool) returns (said: Option<Message>, failed: bool)
      requires Shaped() && i < |subs| && !subs[i].ours.Closed?
      modifies this`subs, yamux
      ensures Shaped() && Effect(Model(), said, failed) == OnOutbound(g, old(Model()), i, out, takes)
    {
      failed := false;
      match subs[i].ours {
        case Handshake(id) =>
          match out {
            case OutgoingAccepted(_) =>
              var error := SendData(id, subs[i].handshake, takes);
              said, failed := None, error.Some?;
            case OutgoingRejected => said := EndSubscription(i, Broken(NotAccepted));
            case Data(handshake) =>
              if g.validates(subs[i].protocol, handshake) {
                subs := subs[i := subs[i].(ours := Open(id))];
                said := if subs[i].theirs.Open? then Some(Notification(subs[i].protocol, Opened)) else None;
              } else {
                said := EndSubscription(i, Broken(TheirHandshakeRejected));
              }
            case Closed(reason) =>
              said := EndSubscription(
                i, Broken(if reason.ClosedByRemote? then OurHandshakeRejected else PayloadTooLarge));
            case IncomingProtocol(_) => said := EndSubscription(i, Broken(ProtocolError));
          }
        case Open(_) =>
          match out {
            case Closed(reason) =>
              said := EndSubscription(i, if reason.ClosedByRemote? then Ended else Broken(PayloadTooLarge));
            case _ => said := EndSubscription(i, Broken(ProtocolError));
          }
      }
    }

    /** An accepted stream becomes the inbound side; ours is opened beside it if it is not yet. */
    method TakeInbound(i: nat, id: StreamId)
      requires Shaped() && i < |subs| && nextId + 2 < 0x1_0000_0000
      modifies this`subs, this`nextId, yamux
      ensures Shaped() && Model() == Joined(old(Model()), i, id)
    {
      subs := subs[i := subs[i].(theirs := Handshake(id))];
      if subs[i].ours.Closed? {
        var ours := OpenStream(subs[i].name, subs[i].maxSize);
        subs := subs[i := subs[i].(ours := Handshake(ours))];
      }
    }

    /** A proposal for a subscription whose inbound side is closed (lines 797-817). */
    method HandleProposal(i: nat, id: StreamId, takes: bool) returns (failed: bool)
      requires Shaped() && i < |subs| && nextId + 2 < 0x1_0000_0000
      modifies this`subs, this`nextId, yamux
      ensures Shaped() && Effect(Model(), None, failed) == OnProposal(old(Model()), i, id, takes)
    {
      if !subs[i].allowInbound && subs[i].ours.Closed? {
        ResetStream(id);
        return false;
      }
      var error := Answer(id, Some(subs[i].maxSize), takes);
      if error.Some? {
        return true;
      }
      TakeInbound(i, id);
      return false;
    }

    /** An output on the peer's stream of a subscription (lines 818-904). */
    method HandleInbound(i: nat, out: M.OutputState, takes: bool) returns (said: Option<Message>, failed: bool)
      requires Shaped() && i < |subs| && !subs[i].theirs.Closed?
      modifies this`subs, yamux
      ensures Shaped() && Effect(Model(), said, failed) == OnInbound(g, old(Model()), i, out, takes)
    {
      failed := false;
      match out {
        case Data(bytes) =>
          match subs[i].theirs {
            case Handshake(id) =>
              if g.validates(subs[i].protocol, bytes) {
                said, failed := ShakeInbound(i, takes);
              } else {
                said := EndSubscription(i, Broken(TheirHandshakeRejected));
              }
            case Open(_) => said := Some(Notification(subs[i].protocol, Received(bytes)));
          }
        case Closed(reason) =>
          said := EndSubscription(i, if reason.ClosedByRemote? then Ended else Broken(PayloadTooLarge));
        case _ => said := EndSubscription(i, Broken(ProtocolError));
      }
    }

    /** Their handshake is valid: ours goes back, and their side is open (lines 821-833). */
    method ShakeInbound(i: nat, takes: bool) returns (said: Option<Message>, failed: bool)
      requires Shaped() && i < |subs| && subs[i].theirs.Handshake?
      modifies this`subs, yamux`outbox
      ensures Shaped()
      ensures var c, s, id := old(Model()), old(subs)[i], old(subs)[i].theirs.id;
              Effect(Model(), said, failed) ==
              if M.SendError(c.net.layer, id, takes).Some? then Effect(c, None, true)
              else Progress(c.(net := NetSend(c.net, id, s.handshake, takes)), i, s.(theirs := Open(id)))
    {
      var id := subs[i].theirs.id;
      var error := SendData(id, subs[i].handshake, takes);
      if error.Some? {
        return None, true;
      }
      subs := subs[i := subs[i].(theirs := Open(id))];
      said := if subs[i].ours.Open? then Some(Notification(subs[i].protocol, Opened)) else None;
      failed := false;
    }

    /** An output nobody expects: a request of the peer's begins, or the stream is turned away
        (lines 906-939). */
    method HandleStranger(o: M.Output, takes: bool) returns (failed: bool)
      requires Shaped()
      modifies this`incoming, yamux
      ensures Shaped() && Effect(Model(), None, failed) == OnStranger(g, old(Model()), o, takes)
    {
      var r := ListenerOf(g.requests, o);
      if r < |g.requests| {
        var error := Answer(o.streamId, Some(g.requests[r].maxSize), takes);
        if error.Some? {
          return true;
        }
        incoming := incoming[o.streamId := g.requests[r].protocol];
        return false;
      }
      match o.state {
        case IncomingProtocol(_) =>
          var error := Answer(o.streamId, None, takes);
          return error.Some?;
        case Closed(_) => return false;
        case _ =>
          ResetStream(o.streamId);
          return false;
      }
    }

    /** One output, routed to whoever owns its stream. */
    method HandleOutput(o: M.Output, takes: bool) returns (said: Option<Message>, failed: bool)
      requires Shaped() && nextId + 2 < 0x1_0000_0000
      modifies this`inflight, this`incoming, this`subs, this`nextId, yamux
      ensures Shaped() && Effect(Model(), said, failed) == Handle(g, old(Model()), o, takes)
    {
      var id := o.streamId;
      said, failed := None, false;
      if id in inflight {
        said, failed := HandleRequest(id, o.state, takes);
        return;
      }
      if id in incoming {
        said := HandleIncoming(id, o.state);
        return;
      }
      var out, inb := OutboundOf(subs, id), InboundOf(subs, o);
      if out < |subs| {
        said, failed := HandleOutbound(out, o.state, takes);
      } else if inb == |subs| {
        failed := HandleStranger(o, takes);
      } else if subs[inb].theirs.Closed? {
        failed := HandleProposal(inb, id, takes);
      } else {
        said, failed := HandleInbound(inb, o.state, takes);
      }
    }

    // -------------------------------------------------------------------------
    // Driving
    // -------------------------------------------------------------------------

    /** `handle_request_timeouts`, given what the timers hand back in turn. */
    method HandleRequestTimeouts(expired: seq<StreamId>) returns (said: Option<Message>)
      requires Shaped()
      modifies this`inflight, yamux
      ensures Shaped()
      ensures var r := FirstExpired(old(Model()), expired);
              if r == |expired| then said == None && Model() == old(Model())
              else said.Some? && Told(Model(), said.value) == TimedOut(old(Model()), expired[r])
    {
      for k := 0 to |expired|
        invariant Shaped() && Model() == old(Model())
        invariant forall j :: 0 <= j < k ==> expired[j] !in old(inflight)
      {
        if expired[k] in inflight {
          said := Finish(expired[k], Failed(Timeout), true);
          return;
        }
      }
      return None;
    }

    /** One turn of `next`: a message kept back, else a timed-out request, else one round of the layer below
        and the output it leads to. */
    method Turn(d: Drive) returns (said: Option<Message>)
      requires Shaped() && nextId + 2 < 0x1_0000_0000
      modifies this, yamux
      ensures Shaped() && Model() == Driven(g, old(Model()), d)
      ensures delivered == old(delivered) + if said.Some? then [said.value] else []
    {
      if finished {
        return None;
      }
      if nextBuf != [] {
        said := Some(nextBuf[0]);
        nextBuf := nextBuf[1..];
      } else {
        said := HandleRequestTimeouts(d.expired);
        if said.None? {
          if d.ended && yamux.readFrom.None? {
            finished := true;
            return None;
          }
          said := Listen(d);
        }
      }
      if said.Some? {
        delivered := delivered + [said.value];
      }
    }

    method Listen(d: Drive) returns (said: Option<Message>)
      requires Shaped() && nextId + 2 < 0x1_0000_0000
      modifies this`inflight, this`incoming, this`subs, this`nextId, this`finished, yamux
      ensures Shaped()
      ensures (if said.Some? then Told(Model(), said.value) else Model()) == Listened(g, old(Model()), d)
    {
      var turn, used := yamux.Step(d.input, d.takes);
      assert Model() == AfterRound(old(Model()), M.Round(old(Below()).layer, d.input, d.takes, g.isUtf8));
      said := ReactTo(turn, d.takesReply);
    }

    /** What the round led to: nothing, a failure, or an output to handle. */
    method ReactTo(turn: M.Turn, takes: bool) returns (said: Option<Message>)
      requires Shaped() && nextId + 2 < 0x1_0000_0000
      modifies this`inflight, this`incoming, this`subs, this`nextId, this`finished, yamux
      ensures Shaped()
      ensures (if said.Some? then Told(Model(), said.value) else Model()) == Reacted(g, old(Model()), turn, takes)
    {
      match turn {
        case Again => return None;
        case Fail(_) =>
          finished := true;
          return None;
        case Emit(output) =>
          var failed;
          said, failed := HandleOutput(output, takes);
          finished := finished || failed;
      }
    }
  }
}
