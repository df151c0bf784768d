/** A connection as a value: requests, incoming requests and two-sided subscriptions routed over the
    streams of the multistream layer (`src/connection.rs`). */
module ConnectionView {
  import opened Bytes
  import F = FrameBuffer
  import M = MultistreamView

  type StreamId = M.StreamId
  type Payload = seq<Byte>

  // ---------------------------------------------------------------------------
  // State
  // ---------------------------------------------------------------------------

  datatype RequestState = AwaitingConfirmation(payload: Payload) | AwaitingResponse

  datatype Inflight = Inflight(protocol: nat, state: RequestState)

  datatype Side = Closed | Handshake(id: StreamId) | Open(id: StreamId)

  datatype Subscription = Subscription(
    protocol: nat, name: M.Name, allowInbound: bool, handshake: Payload, maxSize: nat, ours: Side, theirs: Side)

  datatype RequestProtocol = RequestProtocol(protocol: nat, name: M.Name, allowInbound: bool, maxSize: nat)

  datatype RequestError = Timeout | ProtocolRejected | ClosedByRemote | RemotePayloadTooLarge | MultistreamProtocolError

  datatype Answer = Value(bytes: Payload) | Cancelled | Failed(error: RequestError)

  datatype Asked = Wanted(bytes: Payload) | Withdrawn | TooLarge

  datatype NotificationError =
    NotAccepted | OurHandshakeRejected | TheirHandshakeRejected | PayloadTooLarge | ProtocolError

  datatype News = Opened | Received(bytes: Payload) | Ended | Broken(error: NotificationError)

  datatype Message =
    | Request(id: StreamId, protocol: nat, req: Asked)
    | Response(id: StreamId, protocol: nat, res: Answer)
    | Notification(protocol: nat, news: News)

  /** The layer below: its streams, what it has been asked to send, the next identifier of ours. */
  datatype Net = Net(layer: M.Layer, outbox: seq<M.Command>, nextId: StreamId)

  /** A request as it was made: its protocol, the name of that, and its payload. */
  datatype Issue = Issue(protocol: nat, name: M.Name, payload: Payload)

  /** `delivered` is every message returned to the user so far, `issued` every request made. */
  datatype Conn = Conn(
    inflight: map<StreamId, Inflight>, incoming: map<StreamId, nat>, subs: seq<Subscription>,
    nextBuf: seq<Message>, finished: bool, net: Net, delivered: seq<Message>, issued: map<StreamId, Issue>)

  datatype Config = Config(requests: seq<RequestProtocol>, validates: (nat, Payload) -> bool, isUtf8: M.Name -> bool)

  datatype CallError =
    ProtocolNotFound | AlreadySubscribed | SubscriptionClosed | SubscriptionNotReady | StreamError(error: M.Error)

  /** The first element from `k` on that passes; the length when none does. */
  function First<T>(s: seq<T>, test: T -> bool, k: nat := 0): (r: nat)
    requires k <= |s|
    ensures k <= r <= |s| && (r < |s| ==> test(s[r])) && forall j :: k <= j < r ==> !test(s[j])
    decreases |s| - k
  {
    if k == |s| || test(s[k]) then k else First(s, test, k + 1)
  }

  predicate On(side: Side, id: StreamId) { !side.Closed? && side.id == id }

  function SubOf(subs: seq<Subscription>, protocol: nat): (r: nat)
    ensures r <= |subs| && (r < |subs| ==> subs[r].protocol == protocol)
    ensures r == |subs| ==> forall j :: 0 <= j < |subs| ==> subs[j].protocol != protocol
  {
    First(subs, (s: Subscription) => s.protocol == protocol)
  }

  function OutboundOf(subs: seq<Subscription>, id: StreamId): (r: nat)
    ensures r <= |subs| && (r < |subs| ==> On(subs[r].ours, id))
    ensures r == |subs| ==> forall j :: 0 <= j < |subs| ==> !On(subs[j].ours, id)
  {
    First(subs, (s: Subscription) => On(s.ours, id))
  }

  predicate Proposes(o: M.Output, name: M.Name) { o.state == M.IncomingProtocol(name) }

  function InboundOf(subs: seq<Subscription>, o: M.Output): (r: nat)
    ensures r <= |subs| && (r < |subs| ==> On(subs[r].theirs, o.streamId) || Proposes(o, subs[r].name))
    ensures r == |subs| ==> forall j :: 0 <= j < |subs| ==> !On(subs[j].theirs, o.streamId)
  {
    First(subs, (s: Subscription) => On(s.theirs, o.streamId) || Proposes(o, s.name))
  }

  function ListenerOf(requests: seq<RequestProtocol>, o: M.Output): (r: nat)
    ensures r <= |requests| && (r < |requests| ==> requests[r].allowInbound && Proposes(o, requests[r].name))
  {
    First(requests, (q: RequestProtocol) => q.allowInbound && Proposes(o, q.name))
  }

  // ---------------------------------------------------------------------------
  // The layer below
  // ---------------------------------------------------------------------------

  /** The source panics when identifiers run out. */
  predicate Room(n: Net) { n.nextId + 2 < 0x1_0000_0000 }

  function Line(name: M.Name): M.Name { name + [M.NEWLINE] }

  function NetOpen(n: Net, name: M.Name, maxSize: nat): Net
    requires Room(n)
  {
    Net(M.Opened(n.layer, n.nextId, [name], maxSize),
        n.outbox + [M.SendBytes(n.nextId, F.Framed(M.MULTISTREAM_HEADER)), M.SendBytes(n.nextId, F.Framed(Line(name)))],
        n.nextId + 2)
  }

  function NetSend(n: Net, id: StreamId, data: Payload, takes: bool): Net
  {
    if M.SendError(n.layer, id, takes).Some? then n else n.(outbox := n.outbox + [M.SendBytes(id, F.Framed(data))])
  }

  function NetClose(n: Net, id: StreamId): Net
  {
    n.(layer := M.ClosedHere(n.layer, id),
       outbox := if id in n.layer.slots then n.outbox + [M.CloseStream(id)] else n.outbox)
  }

  function NetReset(n: Net, id: StreamId): Net
  {
    n.(layer := n.layer.(slots := n.layer.slots - {id}), outbox := n.outbox + [M.ResetStream(id)])
  }

  function NetAnswer(n: Net, id: StreamId, accept: Option<nat>, takes: bool): Net
  {
    var state := if accept.Some? then M.Open else M.NewIncomingProtocol;
    var layer := M.Answered(n.layer, id, state, accept);
    if M.AnswerError(n.layer, id, takes).Some? then n.(layer := layer)
    else
      var line := if accept.Some? then Line(n.layer.slots[id].state.name) else M.NOT_AVAILABLE;
      n.(layer := layer, outbox := n.outbox + [M.SendBytes(id, F.Framed(line))])
  }

  function ResetSide(n: Net, side: Side): Net { if side.Closed? then n else NetReset(n, side.id) }

  // ---------------------------------------------------------------------------
  // Calls
  // ---------------------------------------------------------------------------

  function ProtocolOf(requests: seq<RequestProtocol>, protocol: nat): (r: nat)
    ensures r <= |requests| && (r < |requests| ==> requests[r].protocol == protocol)
    ensures r == |requests| ==> forall j :: 0 <= j < |requests| ==> requests[j].protocol != protocol
  {
    First(requests, (q: RequestProtocol) => q.protocol == protocol)
  }

  /** `request`. */
  function Requested(g: Config, c: Conn, protocol: nat, payload: Payload): Conn
    requires Room(c.net)
  {
    var r := ProtocolOf(g.requests, protocol);
    if r == |g.requests| then c
    else c.(net := NetOpen(c.net, g.requests[r].name, g.requests[r].maxSize),
            inflight := c.inflight[c.net.nextId := Inflight(protocol, AwaitingConfirmation(payload))],
            issued := c.issued[c.net.nextId := Issue(protocol, g.requests[r].name, payload)])
  }

  /** `cancel_request`. */
  function RequestCancelled(c: Conn, id: StreamId): Conn
  {
    if id !in c.inflight then c
    else c.(inflight := c.inflight - {id}, net := NetReset(c.net, id),
            nextBuf := c.nextBuf + [Response(id, c.inflight[id].protocol, Cancelled)])
  }

  /** `respond`. */
  function Responded(c: Conn, id: StreamId, data: Payload, takes: bool): Conn
  {
    c.(net := NetClose(NetSend(c.net, id, data, takes), id))
  }

  function SubscribeError(c: Conn, protocol: nat): Option<CallError>
  {
    var i := SubOf(c.subs, protocol);
    if i == |c.subs| then Some(ProtocolNotFound)
    else if !c.subs[i].ours.Closed? then Some(AlreadySubscribed)
    else None
  }

  /** Opens our side of a subscription. */
  function Begun(c: Conn, i: nat): (c': Conn)
    requires Room(c.net) && i < |c.subs|
    ensures c'.inflight == c.inflight && SameRecord(c, c') && OthersKept(c, c', i)
  {
    c.(net := NetOpen(c.net, c.subs[i].name, c.subs[i].maxSize),
       subs := c.subs[i := c.subs[i].(ours := Handshake(c.net.nextId))])
  }

  /** `subscribe`. */
  function Subscribed(c: Conn, protocol: nat): Conn
    requires Room(c.net)
  {
    if SubscribeError(c, protocol).Some? then c else Begun(c, SubOf(c.subs, protocol))
  }

  function NotifyError(c: Conn, protocol: nat, takes: bool): Option<CallError>
  {
    var i := SubOf(c.subs, protocol);
    if i == |c.subs| then Some(ProtocolNotFound)
    else match c.subs[i].ours
      case Closed => Some(SubscriptionClosed)
      case Handshake(_) => Some(SubscriptionNotReady)
      case Open(id) =>
        var e := M.SendError(c.net.layer, id, takes);
        if e.Some? then Some(StreamError(e.value)) else None
  }

  /** `send_notification`. */
  function Notified(c: Conn, protocol: nat, data: Payload, takes: bool): Conn
  {
    if NotifyError(c, protocol, takes).Some? then c
    else c.(net := NetSend(c.net, c.subs[SubOf(c.subs, protocol)].ours.id, data, takes))
  }

  /** `cancel_subscription_silently` on a subscription found. */
  function Silenced(c: Conn, i: nat): Conn
    requires i < |c.subs|
  {
    c.(net := ResetSide(ResetSide(c.net, c.subs[i].ours), c.subs[i].theirs),
       subs := c.subs[i := c.subs[i].(ours := Closed, theirs := Closed)])
  }

  /** `cancel_subscription`. */
  function SubscriptionCancelled(c: Conn, protocol: nat): Conn
  {
    var i := SubOf(c.subs, protocol);
    if i == |c.subs| then c
    else Silenced(c, i).(nextBuf := c.nextBuf + [Notification(protocol, Ended)])
  }

  // ---------------------------------------------------------------------------
  // Outputs of the multistream layer
  // ---------------------------------------------------------------------------

  /** What handling an output leads to: a new state, at most one message, and whether it failed. */
  datatype Effect = Effect(conn: Conn, said: Option<Message>, failed: bool)

  /** Handling an output leaves the record of messages and requests to `next`, and opens at most one stream. */
  predicate SameRecord(c: Conn, c': Conn)
  {
    && c'.delivered == c.delivered && c'.nextBuf == c.nextBuf && c'.issued == c.issued
    && (c'.net.nextId == c.net.nextId || c'.net.nextId == c.net.nextId + 2)
  }

  /** No subscription but one has changed. */
  ghost predicate OthersKept(c: Conn, c': Conn, i: nat)
  {
    |c'.subs| == |c.subs| && forall j :: 0 <= j < |c.subs| && j != i ==> c'.subs[j] == c.subs[j]
  }

  function Quietly(c: Conn): Effect { Effect(c, None, false) }
  function Saying(c: Conn, m: Message): Effect { Effect(c, Some(m), false) }

  /** How a request ends on this output, if it does: the answer, and whether the stream is reset. */
  datatype Ending = Ending(answer: Answer, reset: bool)

  function RequestEnding(s: RequestState, out: M.OutputState): Option<Ending>
  {
    match (s, out)
    case (AwaitingConfirmation(_), OutgoingAccepted(_)) => None
    case (AwaitingConfirmation(_), OutgoingRejected) => Some(Ending(Failed(ProtocolRejected), false))
    case (AwaitingResponse, Data(bytes)) => Some(Ending(Value(bytes), true))
    case (AwaitingResponse, Closed(IncomingMessageTooLarge)) => Some(Ending(Failed(RemotePayloadTooLarge), false))
    case (AwaitingResponse, Closed(_)) => Some(Ending(Failed(ClosedByRemote), true))
    case (_, _) => Some(Ending(Failed(MultistreamProtocolError), true))
  }

  /** Lines 539-634. */
  function OnRequest(c: Conn, id: StreamId, out: M.OutputState, takes: bool): (e: Effect)
    requires id in c.inflight
    ensures e.conn.subs == c.subs && SameRecord(c, e.conn)
  {
    var p := c.inflight[id].protocol;
    match RequestEnding(c.inflight[id].state, out)
    case Some(e) =>
      Saying(c.(inflight := c.inflight - {id}, net := if e.reset then NetReset(c.net, id) else c.net),
             Response(id, p, e.answer))
    case None =>
      if M.SendError(c.net.layer, id, takes).Some? then
        Effect(c.(inflight := c.inflight[id := Inflight(p, AwaitingConfirmation([]))]), None, true)
      else
        var payload := if c.inflight[id].state.AwaitingConfirmation? then c.inflight[id].state.payload else [];
        Quietly(c.(inflight := c.inflight[id := Inflight(p, AwaitingResponse)],
                   net := NetClose(NetSend(c.net, id, payload, takes), id)))
  }

  /** Lines 635-667. */
  function OnIncoming(c: Conn, id: StreamId, out: M.OutputState): (e: Effect)
    requires id in c.incoming
    ensures e.conn.inflight == c.inflight && SameRecord(c, e.conn) && e.conn.subs == c.subs
  {
    var p, gone := c.incoming[id], c.(incoming := c.incoming - {id});
    match out
    case Data(bytes) => Saying(gone, Request(id, p, Wanted(bytes)))
    case Closed(IncomingMessageTooLarge) => Saying(gone, Request(id, p, TooLarge))
    case Closed(_) => Saying(gone, Request(id, p, Withdrawn))
    case _ => Quietly(gone.(net := NetReset(c.net, id)))
  }

  /** What an output on a stream of a subscription means: the peer's handshake, something to report,
      or the end of the subscription. */
  datatype Reading = Agreed | Shaken | Report(bytes: Payload) | Over(news: News)

  function ReadOutbound(side: Side, out: M.OutputState, valid: bool): Reading
  {
    match out
    case Closed(IncomingMessageTooLarge) => Over(Broken(PayloadTooLarge))
    case Closed(_) => if side.Open? then Over(Ended) else Over(Broken(OurHandshakeRejected))
    case OutgoingAccepted(_) => if side.Open? then Over(Broken(ProtocolError)) else Agreed
    case OutgoingRejected => Over(Broken(if side.Open? then ProtocolError else NotAccepted))
    case Data(_) =>
      if side.Open? then Over(Broken(ProtocolError)) else if valid then Shaken else Over(Broken(TheirHandshakeRejected))
    case IncomingProtocol(_) => Over(Broken(ProtocolError))
  }

  function ReadInbound(side: Side, out: M.OutputState, valid: bool): Reading
  {
    match out
    case Closed(IncomingMessageTooLarge) => Over(Broken(PayloadTooLarge))
    case Closed(_) => Over(Ended)
    case Data(bytes) =>
      if side.Open? then Report(bytes) else if valid then Shaken else Over(Broken(TheirHandshakeRejected))
    case _ => Over(Broken(ProtocolError))
  }

  predicate Valid(g: Config, s: Subscription, out: M.OutputState) { out.Data? && g.validates(s.protocol, out.bytes) }

  predicate BothOpen(s: Subscription) { s.ours.Open? && s.theirs.Open? }

  function Cut(c: Conn, i: nat, news: News): Effect
    requires i < |c.subs|
  {
    Saying(Silenced(c, i), Notification(c.subs[i].protocol, news))
  }

  /** One side of a subscription has opened; the user hears of it when both have. */
  function Progress(c: Conn, i: nat, s: Subscription): Effect
    requires i < |c.subs|
  {
    var c' := c.(subs := c.subs[i := s]);
    if BothOpen(s) then Saying(c', Notification(s.protocol, Opened)) else Quietly(c')
  }

  /** Lines 668-780. */
  function OnOutbound(g: Config, c: Conn, i: nat, out: M.OutputState, takes: bool): (e: Effect)
    requires i < |c.subs| && !c.subs[i].ours.Closed?
    ensures e.conn.inflight == c.inflight && SameRecord(c, e.conn)
    ensures OthersKept(c, e.conn, i)
  {
    var s := c.subs[i];
    var id := s.ours.id;
    match ReadOutbound(s.ours, out, Valid(g, s, out))
    case Agreed =>
      Effect(c.(net := NetSend(c.net, id, s.handshake, takes)), None, M.SendError(c.net.layer, id, takes).Some?)
    case Shaken => Progress(c, i, s.(ours := Open(id)))
    case Report(_) => Quietly(c)
    case Over(news) => Cut(c, i, news)
  }

  /** An accepted stream becomes the inbound side; ours is opened beside it if it is not yet. */
  function Joined(c: Conn, i: nat, id: StreamId): (c': Conn)
    requires i < |c.subs| && Room(c.net)
    ensures c'.inflight == c.inflight && SameRecord(c, c') && OthersKept(c, c', i)
  {
    var c' := c.(subs := c.subs[i := c.subs[i].(theirs := Handshake(id))]);
    if c.subs[i].ours.Closed? then Begun(c', i) else c'
  }

  /** Lines 796-817: a proposal for a subscription whose inbound side is closed. */
  function OnProposal(c: Conn, i: nat, id: StreamId, takes: bool): (e: Effect)
    requires i < |c.subs| && Room(c.net)
    ensures e.conn.inflight == c.inflight && SameRecord(c, e.conn)
    ensures OthersKept(c, e.conn, i)
  {
    var s := c.subs[i];
    if !s.allowInbound && s.ours.Closed? then Quietly(c.(net := NetReset(c.net, id)))
    else
      var c' := c.(net := NetAnswer(c.net, id, Some(s.maxSize), takes));
      if M.AnswerError(c.net.layer, id, takes).Some? then Effect(c', None, true) else Quietly(Joined(c', i, id))
  }

  /** Lines 818-904. */
  function OnInbound(g: Config, c: Conn, i: nat, out: M.OutputState, takes: bool): (e: Effect)
    requires i < |c.subs| && !c.subs[i].theirs.Closed?
    ensures e.conn.inflight == c.inflight && SameRecord(c, e.conn)
    ensures OthersKept(c, e.conn, i)
  {
    var s := c.subs[i];
    var id := s.theirs.id;
    match ReadInbound(s.theirs, out, Valid(g, s, out))
    case Report(bytes) => Saying(c, Notification(s.protocol, Received(bytes)))
    case Shaken =>
      if M.SendError(c.net.layer, id, takes).Some? then Effect(c, None, true)
      else Progress(c.(net := NetSend(c.net, id, s.handshake, takes)), i, s.(theirs := Open(id)))
    case Agreed => Quietly(c)
    case Over(news) => Cut(c, i, news)
  }

  /** Lines 906-939: nobody expects this output. */
  function OnStranger(g: Config, c: Conn, o: M.Output, takes: bool): (e: Effect)
    ensures e.conn.inflight == c.inflight && SameRecord(c, e.conn) && e.conn.subs == c.subs
  {
    var id, r := o.streamId, ListenerOf(g.requests, o);
    if r < |g.requests| then
      var c' := c.(net := NetAnswer(c.net, id, Some(g.requests[r].maxSize), takes));
      if M.AnswerError(c.net.layer, id, takes).Some? then Effect(c', None, true)
      else Quietly(c'.(incoming := c.incoming[id := g.requests[r].protocol]))
    else if o.state.IncomingProtocol? then
      Effect(c.(net := NetAnswer(c.net, id, None, takes)), None, M.AnswerError(c.net.layer, id, takes).Some?)
    else if o.state.Closed? then Quietly(c)
    else Quietly(c.(net := NetReset(c.net, id)))
  }

  /** One output, routed: to a request of ours, to a request of the peer's, to a subscription. */
  function Handle(g: Config, c: Conn, o: M.Output, takes: bool): (e: Effect)
    requires Room(c.net)
    ensures SameRecord(c, e.conn) && (o.streamId !in c.inflight ==> e.conn.inflight == c.inflight)
  {
    var id := o.streamId;
    if id in c.inflight then OnRequest(c, id, o.state, takes)
    else if id in c.incoming then OnIncoming(c, id, o.state)
    else
      var out, inb := OutboundOf(c.subs, id), InboundOf(c.subs, o);
      if out < |c.subs| then OnOutbound(g, c, out, o.state, takes)
      else if inb < |c.subs| then
        if c.subs[inb].theirs.Closed? then OnProposal(c, inb, id, takes) else OnInbound(g, c, inb, o.state, takes)
      else OnStranger(g, c, o, takes)
  }

  // ---------------------------------------------------------------------------
  // Driving
  // ---------------------------------------------------------------------------

  function Told(c: Conn, m: Message): Conn { c.(delivered := c.delivered + [m]) }

  function Conclude(e: Effect): Conn
  {
    var c := e.conn.(finished := e.conn.finished || e.failed);
    if e.said.Some? then Told(c, e.said.value) else c
  }

  /** The first of the expired requests that is still in flight. */
  function FirstExpired(c: Conn, expired: seq<StreamId>): (r: nat)
    ensures r <= |expired| && (r < |expired| ==> expired[r] in c.inflight)
    ensures forall j :: 0 <= j < r ==> expired[j] !in c.inflight
  {
    First(expired, (id: StreamId) => id in c.inflight)
  }

  function TimedOut(c: Conn, id: StreamId): Conn
    requires id in c.inflight
  {
    Told(c.(inflight := c.inflight - {id}, net := NetReset(c.net, id)),
         Response(id, c.inflight[id].protocol, Failed(Timeout)))
  }

  function Popped(c: Conn): Conn
    requires c.nextBuf != []
  {
    Told(c.(nextBuf := c.nextBuf[1..]), c.nextBuf[0])
  }

  /** What drives a turn of `next`: the timers' expired requests, what the session below has to report
      (or that it has ended), and whether it takes data, first during the round and then for the reply. */
  datatype Drive = Drive(expired: seq<StreamId>, input: M.Input, ended: bool, takes: bool, takesReply: bool)

  function AfterRound(c: Conn, o: M.Outcome): Conn
  {
    c.(net := c.net.(layer := o.layer, outbox := c.net.outbox + o.commands))
  }

  function Reacted(g: Config, c: Conn, t: M.Turn, takes: bool): Conn
    requires Room(c.net)
  {
    match t
    case Again => c
    case Fail(_) => c.(finished := true)
    case Emit(output) => Conclude(Handle(g, c, output, takes))
  }

  /** A round of the multistream layer, and the reaction to what it led to. */
  function Listened(g: Config, c: Conn, d: Drive): Conn
    requires Room(c.net)
  {
    var o := M.Round(c.net.layer, d.input, d.takes, g.isUtf8);
    Reacted(g, AfterRound(c, o), o.turn, d.takesReply)
  }

  /** One turn of the loop in `next_inner`: a message kept back, else a timeout, else the layer below. */
  function Driven(g: Config, c: Conn, d: Drive): Conn
    requires Room(c.net)
  {
    if c.finished then c
    else if c.nextBuf != [] then Popped(c)
    else
      var r := FirstExpired(c, d.expired);
      if r < |d.expired| then TimedOut(c, d.expired[r])
      else if d.ended && c.net.layer.readFrom == None then c.(finished := true)
      else Listened(g, c, d)
  }

  datatype Event =
    | CallRequest(protocol: nat, payload: Payload)
    | CallCancelRequest(id: StreamId)
    | CallRespond(id: StreamId, payload: Payload, takes: bool)
    | CallSubscribe(protocol: nat)
    | CallNotify(protocol: nat, payload: Payload, takes: bool)
    | CallCancelSubscription(protocol: nat)
    | Next(drive: Drive)

  /** The streams the peer opens are even (`YamuxView.Negotiate`), a response identifier is one of them,
      and our identifiers have not run out. */
  predicate Possible(c: Conn, e: Event)
  {
    && (e.CallRequest? || e.CallSubscribe? || e.Next? ==> Room(c.net))
    && (e.Next? && e.drive.input.RemoteOpened? ==> e.drive.input.id % 2 == 0)
    && (e.CallRespond? ==> e.id % 2 == 0)
  }

  function Step(g: Config, c: Conn, e: Event): Conn
    requires Possible(c, e)
  {
    match e
    case CallRequest(p, payload) => Requested(g, c, p, payload)
    case CallCancelRequest(id) => RequestCancelled(c, id)
    case CallRespond(id, payload, takes) => Responded(c, id, payload, takes)
    case CallSubscribe(p) => Subscribed(c, p)
    case CallNotify(p, payload, takes) => Notified(c, p, payload, takes)
    case CallCancelSubscription(p) => SubscriptionCancelled(c, p)
    case Next(d) => Driven(g, c, d)
  }
}
