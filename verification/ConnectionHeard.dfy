/** What a run of a connection hears from the layer below, stream by stream, and when its timers and its user speak
    up for a stream (`src/connection.rs`). */
module ConnectionHeard {
  import opened Bytes
  import opened ConnectionView
  import opened ConnectionSafety
  import M = MultistreamView

  /** For one stream: an output of the multistream layer, its timer, or the user's cancellation. */
  datatype Item = Heard(state: M.OutputState) | Expired | Dropped

  /** The turn gets as far as the layer below. */
  predicate Listens(c: Conn, d: Drive)
  {
    && !c.finished && c.nextBuf == [] && FirstExpired(c, d.expired) == |d.expired|
    && !(d.ended && c.net.layer.readFrom == None)
  }

  /** The output of the layer in this event, if it gets there and there is one. */
  function Emitted(g: Config, c: Conn, e: Event): Option<M.Output>
  {
    if e.Next? && Listens(c, e.drive)
    then
      match M.Round(c.net.layer, e.drive.input, e.drive.takes, g.isUtf8).turn
      case Emit(o) => Some(o)
      case _ => None
    else None
  }

  /** The request that is timed out in this event. */
  function TimesOut(c: Conn, e: Event): Option<StreamId>
  {
    if e.Next? && !c.finished && c.nextBuf == [] && FirstExpired(c, e.drive.expired) < |e.drive.expired|
    then Some(e.drive.expired[FirstExpired(c, e.drive.expired)])
    else None
  }

  function ItemsOf(g: Config, c: Conn, e: Event, id: StreamId): seq<Item>
  {
    var o := Emitted(g, c, e);
    if o.Some? && o.value.streamId == id then [Heard(o.value.state)]
    else if TimesOut(c, e) == Some(id) then [Expired]
    else if e == CallCancelRequest(id) && id in c.issued then [Dropped]
    else []
  }

  /** A stream's log over a run. */
  ghost function LogOf(g: Config, c: Conn, events: seq<Event>, id: StreamId): seq<Item>
    decreases |events|
  {
    if events == [] || !Possible(c, events[0]) then []
    else ItemsOf(g, c, events[0], id) + LogOf(g, Step(g, c, events[0]), events[1..], id)
  }

  /** The outputs alone. */
  function OutputOn(g: Config, c: Conn, e: Event, id: StreamId): seq<M.OutputState>
  {
    var o := Emitted(g, c, e);
    if o.Some? && o.value.streamId == id then [o.value.state] else []
  }

  ghost function OutputsOn(g: Config, c: Conn, events: seq<Event>, id: StreamId): seq<M.OutputState>
    decreases |events|
  {
    if events == [] || !Possible(c, events[0]) then []
    else OutputOn(g, c, events[0], id) + OutputsOn(g, Step(g, c, events[0]), events[1..], id)
  }

  // ---------------------------------------------------------------------------
  // Streams the layer does not have
  // ---------------------------------------------------------------------------

  /** A stream of ours that is gone. */
  predicate Gone(n: Net, id: StreamId) { id % 2 == 1 && id < n.nextId && id !in n.layer.slots }

  lemma {:induction false} SilencedKeepsGone(c: Conn, i: nat, id: StreamId)
    requires i < |c.subs| && Gone(c.net, id)
    ensures Gone(Silenced(c, i).net, id)
  {
  }

  lemma {:induction false} ProposalKeepsGone(c: Conn, i: nat, own: StreamId, takes: bool, id: StreamId)
    requires i < |c.subs| && Room(c.net) && Gone(c.net, id)
    ensures Gone(OnProposal(c, i, own, takes).conn.net, id)
  {
  }

  lemma {:induction false} StrangerKeepsGone(g: Config, c: Conn, o: M.Output, takes: bool, id: StreamId)
    requires Gone(c.net, id)
    ensures Gone(OnStranger(g, c, o, takes).conn.net, id)
  {
  }

  lemma {:induction false} HandleKeepsGone(g: Config, c: Conn, o: M.Output, takes: bool, id: StreamId)
    requires Room(c.net) && Gone(c.net, id)
    ensures Gone(Handle(g, c, o, takes).conn.net, id)
  {
    var own, inb := o.streamId, InboundOf(c.subs, o);
    if own !in c.inflight && own !in c.incoming {
      UnclaimedKeepsGone(g, c, o, takes, id);
    }
  }

  lemma {:induction false} UnclaimedKeepsGone(g: Config, c: Conn, o: M.Output, takes: bool, id: StreamId)
    requires Room(c.net) && Gone(c.net, id) && o.streamId !in c.inflight && o.streamId !in c.incoming
    ensures Gone(Handle(g, c, o, takes).conn.net, id)
  {
    var out, inb := OutboundOf(c.subs, o.streamId), InboundOf(c.subs, o);
    if out < |c.subs| {
      SilencedKeepsGone(c, out, id);
    } else if inb < |c.subs| {
      if c.subs[inb].theirs.Closed? {
        ProposalKeepsGone(c, inb, o.streamId, takes, id);
      } else {
        SilencedKeepsGone(c, inb, id);
      }
    } else {
      StrangerKeepsGone(g, c, o, takes, id);
    }
  }

  /** It stays gone, and nothing is heard of it. */
  lemma {:induction false} StepKeepsGone(g: Config, c: Conn, e: Event, id: StreamId)
    requires Possible(c, e) && Gone(c.net, id)
    ensures Gone(Step(g, c, e).net, id)
    ensures Emitted(g, c, e).Some? ==> Emitted(g, c, e).value.streamId != id
  {
    if e.Next? {
      if Listens(c, e.drive) { ListenedKeepsGone(g, c, e.drive, id); }
    } else if e.CallCancelSubscription? && SubOf(c.subs, e.protocol) < |c.subs| {
      SilencedKeepsGone(c, SubOf(c.subs, e.protocol), id);
    }
  }

  lemma {:induction false} ListenedKeepsGone(g: Config, c: Conn, d: Drive, id: StreamId)
    requires Possible(c, Next(d)) && Gone(c.net, id)
    ensures Gone(Listened(g, c, d).net, id)
    ensures var o := M.Round(c.net.layer, d.input, d.takes, g.isUtf8); o.turn.Emit? ==> o.turn.output.streamId != id
  {
    M.RoundAbsent(c.net.layer, d.input, d.takes, g.isUtf8, id);
    var o := M.Round(c.net.layer, d.input, d.takes, g.isUtf8);
    ReactedKeepsGone(g, AfterRound(c, o), o.turn, d.takesReply, id);
  }

  lemma {:induction false} ReactedKeepsGone(g: Config, c: Conn, t: M.Turn, takes: bool, id: StreamId)
    requires Room(c.net) && Gone(c.net, id)
    ensures Gone(Reacted(g, c, t, takes).net, id)
  {
    if t.Emit? { HandleKeepsGone(g, c, t.output, takes, id); }
  }
}
