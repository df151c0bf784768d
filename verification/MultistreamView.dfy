/** The multistream layer as a value: negotiation and message reassembly per stream, and what every run
    of them keeps (`src/layers/yamux_multistream.rs`). */
module MultistreamView {
  import opened Bytes
  import opened FrameBuffer
  import H = Header

  type StreamId = H.StreamId
  type Name = seq<Byte>

  /** "/multistream/1.0.0\n" */
  const MULTISTREAM_HEADER: seq<Byte> :=
    [47, 109, 117, 108, 116, 105, 115, 116, 114, 101, 97, 109, 47, 49, 46, 48, 46, 48, 10]
  const NEWLINE: Byte := 10
  /** "na\n" */
  const NOT_AVAILABLE: seq<Byte> := [110, 97, 10]
  const PROTOCOL_MAX_LEN: nat := 1024

  datatype State =
    | NewIncoming
    | NewIncomingProtocol
    | WaitingForAccept(name: Name)
    | Outgoing(seenHeader: bool, current: Name, rest: seq<Name>)
    | Open
    | ClosedByUs

  datatype CloseReason = ClosedByRemote | IncomingMessageTooLarge

  datatype OutputState =
    | IncomingProtocol(name: Name)
    | OutgoingRejected
    | OutgoingAccepted(name: Name)
    | Data(bytes: seq<Byte>)
    | Closed(reason: CloseReason)

  datatype Output = Output(streamId: StreamId, state: OutputState)

  datatype Error = Yamux | VarintTooLong | StreamNotFound | StreamNotWaitingForAccept | StreamNotOpen | NoProtocolsGiven

  /** What the session below reports (`YamuxView.Notice`). */
  datatype Input = RemoteOpened(id: StreamId) | RemoteData(id: StreamId, bytes: seq<Byte>) | RemoteClosed(id: StreamId)

  /** What is asked of the session below. */
  datatype Command = SendBytes(id: StreamId, bytes: seq<Byte>) | CloseStream(id: StreamId) | ResetStream(id: StreamId)

  // ---------------------------------------------------------------------------
  // Negotiation
  // ---------------------------------------------------------------------------

  /** The answer to one frame: the next state (None: the stream is reset), a message to send, an output. */
  datatype Reaction = Reaction(next: Option<State>, send: Option<seq<Byte>>, output: Option<OutputState>)

  const GIVE_UP := Reaction(None, None, None)

  function React(s: State, frame: seq<Byte>, isUtf8: Name -> bool): Reaction
  {
    match s
    case NewIncoming =>
      if frame == MULTISTREAM_HEADER then Reaction(Some(NewIncomingProtocol), Some(MULTISTREAM_HEADER), None)
        else GIVE_UP
    case NewIncomingProtocol =>
      if frame != [] && frame[|frame| - 1] == NEWLINE && isUtf8(frame[..|frame| - 1]) then
        var name := frame[..|frame| - 1];
        Reaction(Some(WaitingForAccept(name)), None, Some(IncomingProtocol(name)))
      else GIVE_UP
    case WaitingForAccept(_) => GIVE_UP
    case Outgoing(false, current, rest) =>
      if frame == MULTISTREAM_HEADER then Reaction(Some(s.(seenHeader := true)), None, None) else GIVE_UP
    case Outgoing(true, current, rest) =>
      if frame == current + [NEWLINE] then Reaction(Some(Open), None, Some(OutgoingAccepted(current)))
      else if rest != [] then Reaction(Some(Outgoing(true, rest[0], rest[1..])), Some(rest[0] + [NEWLINE]), None)
      else GIVE_UP.(output := Some(OutgoingRejected))
    case Open => Reaction(Some(s), None, Some(Data(frame)))
    case ClosedByUs => Reaction(Some(s), None, Some(Data(frame)))
  }

  /** Exactly which message makes the layer give up a stream, in every state. */
  lemma {:induction false} GivesUpExactly(s: State, frame: seq<Byte>, isUtf8: Name -> bool)
    ensures React(s, frame, isUtf8).next == None <==>
              match s
              case NewIncoming => frame != MULTISTREAM_HEADER
              case NewIncomingProtocol => forall name :: isUtf8(name) ==> frame != name + [NEWLINE]
              case WaitingForAccept(_) => true
              case Outgoing(seen, current, rest) =>
                if !seen then frame != MULTISTREAM_HEADER else frame != current + [NEWLINE] && rest == []
              case _ => false
  {
    if s.NewIncomingProtocol? {
      if frame != [] { assert frame == frame[..|frame| - 1] + [frame[|frame| - 1]]; }
      forall name | frame == name + [NEWLINE] ensures frame[..|frame| - 1] == name {
      }
    }
  }

  function CommandsFor(id: StreamId, r: Reaction, takes: bool): seq<Command>
  {
    if r.next.None? then [ResetStream(id)]
    else if r.send.Some? && takes then [SendBytes(id, Framed(r.send.value))]
    else []
  }

  function TurnFor(id: StreamId, r: Reaction, takes: bool): Turn
  {
    if r.send.Some? && !takes then Fail(Yamux)
    else if r.output.Some? then Emit(Output(id, r.output.value))
    else Again
  }

  datatype Turn = Again | Emit(output: Output) | Fail(error: Error)

  // ---------------------------------------------------------------------------
  // The layer
  // ---------------------------------------------------------------------------

  /** A stream: the bytes received and not yet handed back in a frame, and where it stands. Once a
      length was too long the stream has failed, and its bytes are never looked at again. */
  datatype Slot = Slot(pending: seq<Byte>, failed: bool, state: State, maxBufferSize: nat)

  datatype Layer = Layer(slots: map<StreamId, Slot>, readFrom: Option<StreamId>)

  datatype Outcome = Outcome(layer: Layer, commands: seq<Command>, turn: Turn)

  datatype Taken = Taken(next: NextFrame, slot: Slot)

  /** `MultistreamFrameBuffer.Next` on a slot. */
  function TakeNext(s: Slot): Taken
  {
    if s.failed then Taken(VarintOutOfRange, s)
    else
      match ParseOne(s.pending)
      case Wait => Taken(NotReady, s)
      case Bad => Taken(VarintOutOfRange, s.(pending := AfterBad(s.pending), failed := true))
      case Frame(payload, rest) => Taken(Ready(payload), s.(pending := rest))
  }

  /** One message from a stream's buffer, handled according to the stream's state. */
  function Pulled(l: Layer, id: StreamId, takes: bool, isUtf8: Name -> bool): Outcome
    requires id in l.slots
  {
    var taken := TakeNext(l.slots[id]);
    match taken.next
    case NotReady => Outcome(Layer(l.slots[id := taken.slot], None), [], Again)
    case VarintOutOfRange => Outcome(Layer(l.slots[id := taken.slot], None), [], Fail(VarintTooLong))
    case Ready(payload) =>
      var r := React(taken.slot.state, payload, isUtf8);
      var slots := if r.next.None? then l.slots - {id} else l.slots[id := taken.slot.(state := r.next.value)];
      Outcome(Layer(slots, Some(id)), CommandsFor(id, r, takes), TurnFor(id, r, takes))
  }

  /** The bytes that count against the stream's limit: a length already read does not. */
  function Buffered(s: Slot): seq<Byte> { if s.failed then s.pending else Unread(s.pending) }

  /** A report from the session below. */
  function Reported(l: Layer, input: Input, takes: bool, isUtf8: Name -> bool): Outcome
  {
    match input
    case RemoteOpened(id) =>
      var slots := if id in l.slots then l.slots else l.slots[id := Slot([], false, NewIncoming, PROTOCOL_MAX_LEN)];
      Pulled(l.(slots := slots), id, takes, isUtf8)
    case RemoteData(id, bytes) =>
      if id !in l.slots then Outcome(l, [], Again)
      else
        var s := l.slots[id];
        if |Buffered(s)| + |bytes| > s.maxBufferSize then
          Outcome(l.(slots := l.slots - {id}), [ResetStream(id)], Emit(Output(id, Closed(IncomingMessageTooLarge))))
        else Pulled(l.(slots := l.slots[id := s.(pending := s.pending + bytes)]), id, takes, isUtf8)
    case RemoteClosed(id) =>
      if id !in l.slots then Outcome(l, [], Again)
      else
        var early := l.slots[id].state.NewIncoming? || l.slots[id].state.NewIncomingProtocol?;
        Outcome(l.(slots := l.slots - {id}), [], if early then Again else Emit(Output(id, Closed(ClosedByRemote))))
  }

  /** The peer's close of a stream is reported unless it came before the first proposal, and the stream is gone. */
  lemma {:induction false} CloseReportedExactly(l: Layer, id: StreamId, takes: bool, isUtf8: Name -> bool)
    ensures var o := Reported(l, RemoteClosed(id), takes, isUtf8);
            && o.commands == [] && o.layer == l.(slots := l.slots - {id})
            && (o.turn == Emit(Output(id, Closed(ClosedByRemote))) <==>
                  id in l.slots && l.slots[id].state != NewIncoming && l.slots[id].state != NewIncomingProtocol)
  {
    if id !in l.slots { assert l.slots - {id} == l.slots; }
  }

  /** One round of `next_inner`: the buffer last read from, else the session below. */
  function Round(l: Layer, input: Input, takes: bool, isUtf8: Name -> bool): Outcome
  {
    match l.readFrom
    case Some(id) => if id in l.slots then Pulled(l, id, takes, isUtf8) else Outcome(l.(readFrom := None), [], Again)
    case None => Reported(l, input, takes, isUtf8)
  }

  /** `open_stream`. */
  function Opened(l: Layer, id: StreamId, protocols: seq<Name>, maxBufferSize: nat): Layer
    requires protocols != []
  {
    l.(slots := l.slots[id := Slot([], false, Outgoing(false, protocols[0], protocols[1..]), maxBufferSize)])
  }

  /** `send_data` works only on an open stream that the session below still takes data for. */
  function SendError(l: Layer, id: StreamId, takes: bool): Option<Error>
  {
    if id !in l.slots then Some(StreamNotFound)
    else if l.slots[id].state != Open then Some(StreamNotOpen)
    else if !takes then Some(Yamux)
    else None
  }

  /** `accept_protocol` and `reject_protocol` work only on a stream whose proposal awaits an answer. */
  function AnswerError(l: Layer, id: StreamId, takes: bool): Option<Error>
  {
    if id !in l.slots then Some(StreamNotFound)
    else if !l.slots[id].state.WaitingForAccept? then Some(StreamNotWaitingForAccept)
    else if !takes then Some(Yamux)
    else None
  }

  function Answered(l: Layer, id: StreamId, state: State, maxBufferSize: Option<nat>): Layer
  {
    if id !in l.slots || !l.slots[id].state.WaitingForAccept? then l
    else
      var s := l.slots[id].(state := state);
      l.(slots := l.slots[id := if maxBufferSize.Some? then s.(maxBufferSize := maxBufferSize.value) else s])
  }

  function ClosedHere(l: Layer, id: StreamId): Layer
  {
    if id in l.slots then l.(slots := l.slots[id := l.slots[id].(state := ClosedByUs)]) else l
  }

  /** What a call does to a stream: accepting it opens it with its limit, rejecting it leaves it for another proposal,
      closing it leaves it for the peer to end; its bytes stay, and no other stream is touched. */
  lemma {:induction false} CallsExactly(l: Layer, id: StreamId, max: nat)
    requires id in l.slots
    ensures var s, closed := l.slots[id], ClosedHere(l, id);
            var accepted, rejected := Answered(l, id, Open, Some(max)), Answered(l, id, NewIncomingProtocol, None);
            && (s.state.WaitingForAccept? ==>
                  && accepted == l.(slots := l.slots[id := Slot(s.pending, s.failed, Open, max)])
                  && rejected
                     == l.(slots := l.slots[id := Slot(s.pending, s.failed, NewIncomingProtocol, s.maxBufferSize)]))
            && (!s.state.WaitingForAccept? ==> accepted == l && rejected == l)
            && closed == l.(slots := l.slots[id := Slot(s.pending, s.failed, ClosedByUs, s.maxBufferSize)])
            && SendError(closed, id, true) == Some(StreamNotOpen)
  {
  }

  // ---------------------------------------------------------------------------
  // Drain before read
  // ---------------------------------------------------------------------------

  predicate Quiet(s: Slot) { s.failed || !ParseOne(s.pending).Frame? }

  /** Only the stream we are reading from may hold a complete frame. */
  ghost predicate Drained(l: Layer)
  {
    forall id :: id in l.slots && l.readFrom != Some(id) ==> Quiet(l.slots[id])
  }

  lemma {:induction false} PulledKeepsDrained(l: Layer, id: StreamId, takes: bool, isUtf8: Name -> bool)
    requires id in l.slots
    requires forall other :: other in l.slots && other != id ==> Quiet(l.slots[other])
    ensures Drained(Pulled(l, id, takes, isUtf8).layer)
  {
  }

  lemma {:induction false} ReportedKeepsDrained(l: Layer, input: Input, takes: bool, isUtf8: Name -> bool)
    requires Drained(l) && l.readFrom == None
    ensures Drained(Reported(l, input, takes, isUtf8).layer)
  {
    match input
    case RemoteOpened(id) =>
      var slots := if id in l.slots then l.slots else l.slots[id := Slot([], false, NewIncoming, PROTOCOL_MAX_LEN)];
      PulledKeepsDrained(l.(slots := slots), id, takes, isUtf8);
    case RemoteData(id, bytes) =>
      if id in l.slots {
        var s := l.slots[id];
        PulledKeepsDrained(l.(slots := l.slots[id := s.(pending := s.pending + bytes)]), id, takes, isUtf8);
      }
    case RemoteClosed(id) =>
  }

  /** Every round keeps it, so wherever `next` is cancelled no complete frame is forgotten; and input is
      taken only in a state where no stream holds a complete frame. */
  lemma {:induction false} RoundKeepsDrained(l: Layer, input: Input, takes: bool, isUtf8: Name -> bool)
    requires Drained(l)
    ensures Drained(Round(l, input, takes, isUtf8).layer)
    ensures l.readFrom == None ==> forall id :: id in l.slots ==> Quiet(l.slots[id])
  {
    if l.readFrom.Some? {
      if l.readFrom.value in l.slots { PulledKeepsDrained(l, l.readFrom.value, takes, isUtf8); }
    } else {
      ReportedKeepsDrained(l, input, takes, isUtf8);
    }
  }

  // ---------------------------------------------------------------------------
  // Messages arrive complete and in order
  // ---------------------------------------------------------------------------

  /** A round of `next`, or a call between rounds. */
  datatype Event =
    | Drive(input: Input, takes: bool)
    | CallOpen(id: StreamId, protocols: seq<Name>, maxBufferSize: nat)
    | CallAccept(id: StreamId, maxBufferSize: nat)
    | CallReject(id: StreamId)
    | CallClose(id: StreamId)
    | CallReset(id: StreamId)

  /** What a call does to the layer. */
  function Called(l: Layer, e: Event): Layer
    requires !e.Drive?
  {
    match e
    case CallOpen(id, protocols, max) => if protocols == [] then l else Opened(l, id, protocols, max)
    case CallAccept(id, max) => Answered(l, id, Open, Some(max))
    case CallReject(id) => Answered(l, id, NewIncomingProtocol, None)
    case CallClose(id) => ClosedHere(l, id)
    case CallReset(id) => l.(slots := l.slots - {id})
  }

  function Happens(l: Layer, e: Event, isUtf8: Name -> bool): Outcome
  {
    if e.Drive? then Round(l, e.input, e.takes, isUtf8) else Outcome(Called(l, e), [], Again)
  }

  /** The bytes the session below reported for a stream in the rounds that took input. */
  function BytesFor(l: Layer, e: Event, id: StreamId): seq<Byte>
  {
    if e.Drive? && l.readFrom == None && e.input.RemoteData? && e.input.id == id then e.input.bytes else []
  }

  lemma {:induction false} CallKeepsDrained(l: Layer, e: Event)
    requires Drained(l) && !e.Drive?
    ensures Drained(Called(l, e))
  {
  }

  function DataIn(t: Turn, id: StreamId): seq<seq<Byte>>
  {
    if t.Emit? && t.output.streamId == id && t.output.state.Data? then [t.output.state.bytes] else []
  }

  predicate Established(l: Layer, id: StreamId)
  {
    id in l.slots && !l.slots[id].failed && (l.slots[id].state.Open? || l.slots[id].state.ClosedByUs?)
  }

  /** `got` are the first messages of the byte stream `all`, and the stream still holds the rest. */
  ghost predicate Delivering(l: Layer, id: StreamId, all: seq<Byte>, got: seq<seq<Byte>>)
  {
    && Established(l, id)
    && |got| <= |Messages(all)| && got == Messages(all)[..|got|]
    && l.slots[id].pending == Remaining(all, |got|)
  }

  lemma {:induction false} PulledDelivers(l: Layer, own: StreamId, takes: bool, isUtf8: Name -> bool,
                                          id: StreamId, all: seq<Byte>, got: seq<seq<Byte>>)
    requires Delivering(l, id, all, got) && own in l.slots
    ensures var o := Pulled(l, own, takes, isUtf8);
            Established(o.layer, id) ==> Delivering(o.layer, id, all, got + DataIn(o.turn, id))
  {
    RemainingNext(all, |got|);
    var o := Pulled(l, own, takes, isUtf8);
    if own == id && ParseOne(l.slots[id].pending).Frame? {
      assert Messages(all)[..|got| + 1] == got + [Messages(all)[|got|]];
    } else {
      assert got + [] == got;
    }
  }

  lemma {:induction false} MoreBytes(l: Layer, l': Layer, id: StreamId, all: seq<Byte>, got: seq<seq<Byte>>,
                                     more: seq<Byte>)
    requires Delivering(l, id, all, got)
    requires Established(l', id) && l'.slots[id].pending == l.slots[id].pending + more
    ensures Delivering(l', id, all + more, got)
  {
    MessagesExtend(all, more, |got|);
  }

  /** One round: the messages handed over so far stay the first messages of all bytes received. */
  lemma {:induction false} RoundDelivers(l: Layer, f: Event, isUtf8: Name -> bool, id: StreamId, all: seq<Byte>,
                                         got: seq<seq<Byte>>)
    requires Delivering(l, id, all, got) && f.Drive?
    ensures var o := Round(l, f.input, f.takes, isUtf8);
            Established(o.layer, id) ==> Delivering(o.layer, id, all + BytesFor(l, f, id), got + DataIn(o.turn, id))
  {
    var more := BytesFor(l, f, id);
    var o := Round(l, f.input, f.takes, isUtf8);
    if l.readFrom.Some? {
      assert all + more == all;
      if l.readFrom.value in l.slots {
        PulledDelivers(l, l.readFrom.value, f.takes, isUtf8, id, all, got);
      } else {
        assert got + DataIn(o.turn, id) == got;
      }
    } else {
      ReportDelivers(l, f, isUtf8, id, all, got);
    }
  }

  lemma {:induction false} ReportDelivers(l: Layer, f: Event, isUtf8: Name -> bool, id: StreamId, all: seq<Byte>,
                                          got: seq<seq<Byte>>)
    requires Delivering(l, id, all, got) && f.Drive? && l.readFrom == None
    ensures var o := Reported(l, f.input, f.takes, isUtf8);
            Established(o.layer, id) ==> Delivering(o.layer, id, all + BytesFor(l, f, id), got + DataIn(o.turn, id))
  {
    var more := BytesFor(l, f, id);
    var o := Reported(l, f.input, f.takes, isUtf8);
    assert l.slots[id].pending + [] == l.slots[id].pending && all + [] == all && got + [] == got;
    match f.input {
      case RemoteOpened(own) =>
        var slots := if own in l.slots then l.slots else l.slots[own := Slot([], false, NewIncoming, PROTOCOL_MAX_LEN)];
        PulledDelivers(l.(slots := slots), own, f.takes, isUtf8, id, all, got);
      case RemoteData(own, bytes) =>
        if own in l.slots {
          var s := l.slots[own];
          var fed := l.(slots := l.slots[own := s.(pending := s.pending + bytes)]);
          MoreBytes(l, fed, id, all, got, more);
          PulledDelivers(fed, own, f.takes, isUtf8, id, all + more, got);
        }
      case RemoteClosed(own) =>
    }
  }

  /** A call leaves the stream's bytes alone, as long as the stream stays established. */
  lemma {:induction false} EventDelivers(l: Layer, e: Event, isUtf8: Name -> bool, id: StreamId, all: seq<Byte>,
                                         got: seq<seq<Byte>>)
    requires Delivering(l, id, all, got)
    ensures var o := Happens(l, e, isUtf8);
            Established(o.layer, id) ==> Delivering(o.layer, id, all + BytesFor(l, e, id), got + DataIn(o.turn, id))
  {
    if e.Drive? {
      RoundDelivers(l, e, isUtf8, id, all, got);
    } else {
      assert all + [] == all && got + [] == got;
    }
  }

  lemma {:induction false} EventKeepsDrained(l: Layer, e: Event, isUtf8: Name -> bool)
    requires Drained(l)
    ensures Drained(Happens(l, e, isUtf8).layer)
  {
    if e.Drive? {
      RoundKeepsDrained(l, e.input, e.takes, isUtf8);
    } else {
      CallKeepsDrained(l, e);
    }
  }

  /** The layer after a run. */
  function Final(l: Layer, events: seq<Event>, isUtf8: Name -> bool): Layer
    decreases |events|
  {
    if events == [] then l else Final(Happens(l, events[0], isUtf8).layer, events[1..], isUtf8)
  }

  /** What a run reported for a stream, and what it handed over of it. */
  function ReceivedOn(l: Layer, events: seq<Event>, isUtf8: Name -> bool, id: StreamId): seq<Byte>
    decreases |events|
  {
    if events == [] then []
    else BytesFor(l, events[0], id) + ReceivedOn(Happens(l, events[0], isUtf8).layer, events[1..], isUtf8, id)
  }

  function HandedOver(l: Layer, events: seq<Event>, isUtf8: Name -> bool, id: StreamId): seq<seq<Byte>>
    decreases |events|
  {
    if events == [] then []
    else
      var o := Happens(l, events[0], isUtf8);
      DataIn(o.turn, id) + HandedOver(o.layer, events[1..], isUtf8, id)
  }

  /** The stream stays established throughout. */
  ghost predicate StaysEstablished(l: Layer, events: seq<Event>, isUtf8: Name -> bool, id: StreamId)
    decreases |events|
  {
    Established(l, id)
    && (events != [] ==> StaysEstablished(Happens(l, events[0], isUtf8).layer, events[1..], isUtf8, id))
  }

  lemma {:induction false} RunDelivers(l: Layer, events: seq<Event>, isUtf8: Name -> bool, id: StreamId,
                                       all: seq<Byte>, before: seq<seq<Byte>>)
    requires Delivering(l, id, all, before) && Drained(l) && StaysEstablished(l, events, isUtf8, id)
    ensures Drained(Final(l, events, isUtf8))
    ensures Delivering(Final(l, events, isUtf8), id, all + ReceivedOn(l, events, isUtf8, id),
                       before + HandedOver(l, events, isUtf8, id))
    decreases |events|
  {
    if events == [] {
      assert all + [] == all && before + [] == before;
    } else {
      var next := Happens(l, events[0], isUtf8).layer;
      var more, out := BytesFor(l, events[0], id), DataIn(Happens(l, events[0], isUtf8).turn, id);
      EventDelivers(l, events[0], isUtf8, id, all, before);
      EventKeepsDrained(l, events[0], isUtf8);
      RunDelivers(next, events[1..], isUtf8, id, all + more, before + out);
      Assoc(all, more, ReceivedOn(next, events[1..], isUtf8, id));
      Assoc(before, out, HandedOver(next, events[1..], isUtf8, id));
    }
  }

  /** Drain before read, in full: from any moment on, as long as a stream stays established, the messages handed
      over are the first messages of what it had pending and what it received since; and whenever the layer
      turns to the session below, so in particular before a close is reported, they are all of them. */
  lemma {:induction false} EveryMessageHandedOver(l: Layer, events: seq<Event>, isUtf8: Name -> bool, id: StreamId)
    requires Drained(l) && StaysEstablished(l, events, isUtf8, id)
    ensures var all, got := l.slots[id].pending + ReceivedOn(l, events, isUtf8, id), HandedOver(l, events, isUtf8, id);
            && got <= Messages(all)
            && (Final(l, events, isUtf8).readFrom == None ==> got == Messages(all))
  {
    var pending, received, got := l.slots[id].pending, ReceivedOn(l, events, isUtf8, id),
      HandedOver(l, events, isUtf8, id);
    assert Messages(pending)[..0] == [];
    RunDelivers(l, events, isUtf8, id, pending, []);
    assert [] + got == got;
    RemainingNext(pending + received, |got|);
    AllOfThem(Messages(pending + received), got);
  }

  lemma {:induction false} AllOfThem(messages: seq<seq<Byte>>, got: seq<seq<Byte>>)
    requires |got| <= |messages| && got == messages[..|got|]
    ensures got <= messages && (|got| == |messages| ==> got == messages)
  {
  }

  // ---------------------------------------------------------------------------
  // What the layer promises the connection above
  // ---------------------------------------------------------------------------

  predicate Held(l: Layer, id: StreamId) { id in l.slots && (l.slots[id].state.Open? || l.slots[id].state.ClosedByUs?) }

  predicate Listening(s: State) { s.NewIncoming? || s.NewIncomingProtocol? || s.WaitingForAccept? }

  /** Odd streams are ours: below the next identifier, and never on the answering side of a negotiation. */
  ghost predicate OddAreOurs(l: Layer, next: StreamId)
  {
    forall id :: id in l.slots && id % 2 == 1 ==> id < next && !Listening(l.slots[id].state)
  }

  ghost predicate Promised(l: Layer, o: Outcome, next: StreamId)
  {
    && OddAreOurs(o.layer, next)
    && (forall id :: Held(l, id) ==> Held(o.layer, id) || CloseOf(o.turn, id))
    && (o.turn.Emit? && o.turn.output.state.IncomingProtocol? ==>
          o.turn.output.streamId in o.layer.slots && o.layer.slots[o.turn.output.streamId].state.WaitingForAccept?)
  }

  predicate CloseOf(t: Turn, id: StreamId) { t.Emit? && t.output.streamId == id && t.output.state.Closed? }

  lemma {:induction false} PulledPromises(l: Layer, id: StreamId, takes: bool, isUtf8: Name -> bool, next: StreamId)
    requires id in l.slots && OddAreOurs(l, next)
    ensures Promised(l, Pulled(l, id, takes, isUtf8), next)
  {
  }

  lemma {:induction false} ReportedPromises(l: Layer, input: Input, takes: bool, isUtf8: Name -> bool, next: StreamId)
    requires OddAreOurs(l, next) && (input.RemoteOpened? ==> input.id % 2 == 0)
    ensures Promised(l, Reported(l, input, takes, isUtf8), next)
  {
    match input
    case RemoteOpened(id) =>
      var slots := if id in l.slots then l.slots else l.slots[id := Slot([], false, NewIncoming, PROTOCOL_MAX_LEN)];
      PulledPromises(l.(slots := slots), id, takes, isUtf8, next);
    case RemoteData(id, bytes) =>
      if id in l.slots {
        var s := l.slots[id];
        PulledPromises(l.(slots := l.slots[id := s.(pending := s.pending + bytes)]), id, takes, isUtf8, next);
      }
    case RemoteClosed(id) =>
  }

  /** A stream past its negotiation is never lost without a close being reported, a proposal is reported
      only while it awaits its answer, and streams of ours are never taken for the peer's. */
  lemma {:induction false} RoundPromises(l: Layer, input: Input, takes: bool, isUtf8: Name -> bool, next: StreamId)
    requires OddAreOurs(l, next) && (input.RemoteOpened? ==> input.id % 2 == 0)
    ensures Promised(l, Round(l, input, takes, isUtf8), next)
  {
    if l.readFrom.Some? {
      if l.readFrom.value in l.slots { PulledPromises(l, l.readFrom.value, takes, isUtf8, next); }
    } else {
      ReportedPromises(l, input, takes, isUtf8, next);
    }
  }

  /** A stream the layer does not know stays unknown, and nothing is reported of it, until the peer opens it. */
  lemma {:induction false} RoundAbsent(l: Layer, input: Input, takes: bool, isUtf8: Name -> bool, id: StreamId)
    requires id !in l.slots && input != RemoteOpened(id)
    ensures var o := Round(l, input, takes, isUtf8);
            id !in o.layer.slots && (o.turn.Emit? ==> o.turn.output.streamId != id)
  {
  }

  /** Outgoing streams have no second proposal to make, as when each was opened for one protocol. */
  ghost predicate OneProposal(l: Layer)
  {
    forall id :: id in l.slots && l.slots[id].state.Outgoing? ==> l.slots[id].state.rest == []
  }

  predicate IsFor(t: Turn, id: StreamId) { t.Emit? && t.output.streamId == id }

  /** What a round may do to an odd stream: nothing is sent on it by the layer itself, it gets past its
      negotiation only with an acceptance, and data comes only after that. */
  ghost predicate LeavesOdd(l: Layer, o: Outcome, id: StreamId)
  {
    && (forall c :: c in o.commands && !c.ResetStream? ==> c.id % 2 == 0)
    && (Held(o.layer, id) && !Held(l, id) ==> IsFor(o.turn, id) && o.turn.output.state.OutgoingAccepted?)
    && (IsFor(o.turn, id) && o.turn.output.state.OutgoingAccepted? ==> !Held(l, id))
    && (IsFor(o.turn, id) && o.turn.output.state.Data? ==> Held(l, id))
  }

  lemma {:induction false} PulledLeavesOdd(l: Layer, own: StreamId, takes: bool, isUtf8: Name -> bool, next: StreamId,
                                           id: StreamId)
    requires own in l.slots && OddAreOurs(l, next) && OneProposal(l) && id % 2 == 1
    ensures OneProposal(Pulled(l, own, takes, isUtf8).layer) && LeavesOdd(l, Pulled(l, own, takes, isUtf8), id)
  {
  }

  lemma {:induction false} RoundLeavesOdd(l: Layer, input: Input, takes: bool, isUtf8: Name -> bool, next: StreamId,
                                          id: StreamId)
    requires OddAreOurs(l, next) && OneProposal(l) && id % 2 == 1 && (input.RemoteOpened? ==> input.id % 2 == 0)
    ensures OneProposal(Round(l, input, takes, isUtf8).layer) && LeavesOdd(l, Round(l, input, takes, isUtf8), id)
  {
    if l.readFrom.Some? {
      if l.readFrom.value in l.slots { PulledLeavesOdd(l, l.readFrom.value, takes, isUtf8, next, id); }
    } else {
      match input
      case RemoteOpened(own) =>
        var slots := if own in l.slots then l.slots else l.slots[own := Slot([], false, NewIncoming, PROTOCOL_MAX_LEN)];
        PulledLeavesOdd(l.(slots := slots), own, takes, isUtf8, next, id);
      case RemoteData(own, bytes) =>
        if own in l.slots {
          var s := l.slots[own];
          PulledLeavesOdd(l.(slots := l.slots[own := s.(pending := s.pending + bytes)]), own, takes, isUtf8, next, id);
        }
      case RemoteClosed(own) =>
    }
  }

  /** A round that neither reads from a stream nor takes a report of it says nothing of it. */
  lemma {:induction false} RoundElsewhere(l: Layer, input: Input, takes: bool, isUtf8: Name -> bool, id: StreamId)
    requires l.readFrom != Some(id) && (l.readFrom == None ==> input.id != id)
    ensures var o := Round(l, input, takes, isUtf8);
            (o.turn.Emit? ==> o.turn.output.streamId != id) && o.layer.readFrom != Some(id)
  {
  }

  /** Data within the stream's limit is added to its bytes, and then a message is looked for. */
  lemma {:induction false} FedIsPulled(l: Layer, id: StreamId, bytes: seq<Byte>, takes: bool, isUtf8: Name -> bool)
    requires l.readFrom == None && id in l.slots && |Buffered(l.slots[id])| + |bytes| <= l.slots[id].maxBufferSize
    ensures var s := l.slots[id];
            Round(l, RemoteData(id, bytes), takes, isUtf8)
            == Pulled(l.(slots := l.slots[id := s.(pending := s.pending + bytes)]), id, takes, isUtf8)
  {
  }

  lemma {:induction false} GivesUp(l: Layer, id: StreamId, frame: seq<Byte>, takes: bool, isUtf8: Name -> bool)
    requires id in l.slots && !l.slots[id].failed && ParseOne(l.slots[id].pending) == Frame(frame, [])
    requires React(l.slots[id].state, frame, isUtf8) == GIVE_UP
    ensures Pulled(l, id, takes, isUtf8) == Outcome(Layer(l.slots - {id}, Some(id)), [ResetStream(id)], Again)
  {
  }
}
