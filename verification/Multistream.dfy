/** `YamuxMultistream`: the multistream layer over the session's reports and commands
    (`src/layers/yamux_multistream.rs`); `MultistreamView` says what each step means. */
module Multistream {
  import opened Bytes
  import opened Varint
  import opened FrameBuffer
  import opened MultistreamView

  datatype Entry = Entry(buffer: Stored, state: State, maxBufferSize: nat)

  /** An entry as the model sees it. */
  function SlotOf(e: Entry, head: seq<Byte>): Slot
  {
    Slot(if e.buffer.failed then e.buffer.buf else head + e.buffer.buf, e.buffer.failed, e.state, e.maxBufferSize)
  }

  ghost predicate Tidy(e: Entry, head: seq<Byte>) { Consistent(e.buffer, head) && LengthRead(e.buffer) }

  function FedEntry(e: Entry, bytes: seq<Byte>): Entry { e.(buffer := e.buffer.(buf := e.buffer.buf + bytes)) }

  lemma {:induction false} FedSlot(e: Entry, head: seq<Byte>, bytes: seq<Byte>)
    ensures var s := SlotOf(e, head); SlotOf(FedEntry(e, bytes), head) == s.(pending := s.pending + bytes)
    ensures Consistent(e.buffer, head) ==> Consistent(FedEntry(e, bytes).buffer, head)
  {
    Assoc(head, e.buffer.buf, bytes);
  }

  function SlotsOf(bufs: map<StreamId, Entry>, heads: map<StreamId, seq<Byte>>): map<StreamId, Slot>
    requires bufs.Keys == heads.Keys
  {
    map id | id in bufs :: SlotOf(bufs[id], heads[id])
  }

  lemma {:induction false} WithoutSlot(bufs: map<StreamId, Entry>, heads: map<StreamId, seq<Byte>>, id: StreamId)
    requires bufs.Keys == heads.Keys
    ensures SlotsOf(bufs - {id}, heads - {id}) == SlotsOf(bufs, heads) - {id}
  {
  }

  lemma {:induction false} WithSlot(bufs: map<StreamId, Entry>, heads: map<StreamId, seq<Byte>>, id: StreamId, e: Entry)
    requires bufs.Keys == heads.Keys && id in bufs
    ensures bufs[id := e].Keys == heads.Keys
            && SlotsOf(bufs[id := e], heads) == SlotsOf(bufs, heads)[id := SlotOf(e, heads[id])]
  {
  }

  lemma {:induction false} Overwrite(m: map<StreamId, Slot>, id: StreamId, a: Slot, b: Slot)
    ensures m[id := a] - {id} == m - {id}
    ensures m[id := a][id := b] == m[id := b]
  {
  }

  class YamuxMultistream {
    var bufs: map<StreamId, Entry>
    var readFrom: Option<StreamId>
    /** What has been asked of the session below, in order. */
    var outbox: seq<Command>
    const isUtf8: Name -> bool
    ghost var heads: map<StreamId, seq<Byte>>

    /** Every buffer is tidy, except perhaps the one being read from. */
    ghost predicate Valid()
      reads this`bufs, this`heads, this`readFrom
    {
      && bufs.Keys == heads.Keys
      && forall id :: id in bufs ==>
           Consistent(bufs[id].buffer, heads[id]) && (readFrom != Some(id) ==> Tidy(bufs[id], heads[id]))
    }

    ghost function Slots(): map<StreamId, Slot>
      requires bufs.Keys == heads.Keys
      reads this`bufs, this`heads
    {
      SlotsOf(bufs, heads)
    }

    ghost function Model(): Layer
      requires bufs.Keys == heads.Keys
      reads this`bufs, this`heads, this`readFrom
    {
      Layer(Slots(), readFrom)
    }

    constructor (isUtf8: Name -> bool)
      ensures Valid() && Model() == Layer(map[], None) && outbox == [] && this.isUtf8 == isUtf8
    {
      bufs, heads := map[], map[];
      readFrom := None;
      outbox := [];
      this.isUtf8 := isUtf8;
    }

    // -------------------------------------------------------------------------
    // Calls
    // -------------------------------------------------------------------------

    method Put(id: StreamId, e: Entry, ghost head: seq<Byte>)
      requires bufs.Keys == heads.Keys
      modifies this`bufs, this`heads
      ensures bufs == old(bufs)[id := e] && heads == old(heads)[id := head]
      ensures Slots() == old(Slots())[id := SlotOf(e, head)]
    {
      bufs := bufs[id := e];
      heads := heads[id := head];
    }

    method Remove(id: StreamId)
      requires bufs.Keys == heads.Keys
      modifies this`bufs, this`heads
      ensures bufs == old(bufs) - {id} && heads == old(heads) - {id} && Slots() == old(Slots()) - {id}
    {
      bufs := bufs - {id};
      heads := heads - {id};
    }

    /** `send_multistream_data`: the length, then the data, appended to the stream's outgoing bytes;
        refused when the session below no longer takes data for the stream. */
    method SendMultistreamData(id: StreamId, data: seq<Byte>, takes: bool) returns (ok: bool)
      modifies this`outbox
      ensures ok == takes
      ensures outbox == if takes then old(outbox) + [SendBytes(id, Framed(data))] else old(outbox)
    {
      if takes {
        outbox := outbox + [SendBytes(id, Encoded(|data|) + data)];
      }
      return takes;
    }

    /** `open_stream` on the identifier the session below gave out. */
    method OpenStream(id: StreamId, protocols: seq<Name>, maxBufferSize: nat) returns (error: Option<Error>)
      requires Valid()
      modifies this`bufs, this`heads, this`outbox
      ensures Valid()
      ensures protocols == [] ==> error == Some(NoProtocolsGiven) && Model() == old(Model()) && outbox == old(outbox)
      ensures protocols != [] ==>
                && error == None
                && Model() == Opened(old(Model()), id, protocols, maxBufferSize)
                && outbox == old(outbox) + [SendBytes(id, Framed(MULTISTREAM_HEADER)),
                                            SendBytes(id, Framed(protocols[0] + [NEWLINE]))]
    {
      if protocols == [] {
        return Some(NoProtocolsGiven);
      }
      var ok := SendMultistreamData(id, MULTISTREAM_HEADER, true);
      ok := SendMultistreamData(id, protocols[0] + [NEWLINE], true);
      Put(id, Entry(EMPTY, Outgoing(false, protocols[0], protocols[1..]), maxBufferSize), []);
      return None;
    }

    /** `send_data`: only on an open stream, so never after we closed it. */
    method SendData(id: StreamId, data: seq<Byte>, takes: bool) returns (error: Option<Error>)
      requires Valid()
      modifies this`outbox
      ensures error == SendError(Model(), id, takes)
      ensures outbox == if error == None then old(outbox) + [SendBytes(id, Framed(data))] else old(outbox)
    {
      if id !in bufs {
        return Some(StreamNotFound);
      }
      if bufs[id].state != Open {
        return Some(StreamNotOpen);
      }
      var ok := SendMultistreamData(id, data, takes);
      return if ok then None else Some(Yamux);
    }

    /** `accept_protocol`. */
    method AcceptProtocol(id: StreamId, maxBufferSize: nat, takes: bool) returns (error: Option<Error>)
      requires Valid()
      modifies this`bufs, this`heads, this`outbox
      ensures Valid()
      ensures error == AnswerError(old(Model()), id, takes)
      ensures Model() == Answered(old(Model()), id, Open, Some(maxBufferSize))
      ensures outbox
              == if error == None then old(outbox) + [SendBytes(id, Framed(old(bufs)[id].state.name + [NEWLINE]))]
                else old(outbox)
    {
      if id !in bufs {
        return Some(StreamNotFound);
      }
      if !bufs[id].state.WaitingForAccept? {
        return Some(StreamNotWaitingForAccept);
      }
      var name := bufs[id].state.name;
      Put(id, bufs[id].(state := Open, maxBufferSize := maxBufferSize), heads[id]);
      var ok := SendMultistreamData(id, name + [NEWLINE], takes);
      return if ok then None else Some(Yamux);
    }

    /** `reject_protocol`: answers "na" and waits for another proposal. */
    method RejectProtocol(id: StreamId, takes: bool) returns (error: Option<Error>)
      requires Valid()
      modifies this`bufs, this`heads, this`outbox
      ensures Valid()
      ensures error == AnswerError(old(Model()), id, takes)
      ensures Model() == Answered(old(Model()), id, NewIncomingProtocol, None)
      ensures outbox == if error == None then old(outbox) + [SendBytes(id, Framed(NOT_AVAILABLE))] else old(outbox)
    {
      if id !in bufs {
        return Some(StreamNotFound);
      }
      if !bufs[id].state.WaitingForAccept? {
        return Some(StreamNotWaitingForAccept);
      }
      Put(id, bufs[id].(state := NewIncomingProtocol), heads[id]);
      var ok := SendMultistreamData(id, NOT_AVAILABLE, takes);
      return if ok then None else Some(Yamux);
    }

    /** `close_stream`. */
    method Close(id: StreamId)
      requires Valid()
      modifies this`bufs, this`heads, this`outbox
      ensures Valid() && Model() == ClosedHere(old(Model()), id)
      ensures outbox == if id in old(bufs) then old(outbox) + [CloseStream(id)] else old(outbox)
    {
      if id in bufs {
        Put(id, bufs[id].(state := ClosedByUs), heads[id]);
        outbox := outbox + [CloseStream(id)];
      }
    }

    /** `reset_stream_immediately`. */
    method ResetImmediately(id: StreamId)
      requires Valid()
      modifies this`bufs, this`heads, this`outbox
      ensures Valid() && Model() == old(Model()).(slots := old(Slots()) - {id})
      ensures outbox == old(outbox) + [ResetStream(id)]
    {
      Remove(id);
      outbox := outbox + [ResetStream(id)];
    }

    // -------------------------------------------------------------------------
    // Driving
    // -------------------------------------------------------------------------

    /** Handles one message according to the stream's state (lines 347-451). */
    method HandleMessage(id: StreamId, frame: seq<Byte>, takes: bool) returns (t: Turn)
      requires bufs.Keys == heads.Keys && id in bufs
      modifies this`bufs, this`heads, this`outbox
      ensures var e, r := old(bufs)[id], React(old(bufs)[id].state, frame, isUtf8);
              && bufs == (if r.next.None? then old(bufs) - {id} else old(bufs)[id := e.(state := r.next.value)])
              && heads == (if r.next.None? then old(heads) - {id} else old(heads))
              && outbox == old(outbox) + CommandsFor(id, r, takes)
              && t == TurnFor(id, r, takes)
    {
      var next := bufs[id].state;
      t := Again;
      match bufs[id].state {
        case NewIncoming =>
          if frame == MULTISTREAM_HEADER {
            next := NewIncomingProtocol;
            var ok := SendMultistreamData(id, MULTISTREAM_HEADER, takes);
            t := if ok then Again else Fail(Yamux);
          } else {
            t := GiveUp(id);
            return;
          }
        case NewIncomingProtocol =>
          if frame != [] && frame[|frame| - 1] == NEWLINE && isUtf8(frame[..|frame| - 1]) {
            next := WaitingForAccept(frame[..|frame| - 1]);
            t := Emit(Output(id, IncomingProtocol(frame[..|frame| - 1])));
          } else {
            t := GiveUp(id);
            return;
          }
        case WaitingForAccept(_) =>
          t := GiveUp(id);
          return;
        case Outgoing(seenHeader, current, rest) =>
          if !seenHeader {
            if frame == MULTISTREAM_HEADER {
              next := Outgoing(true, current, rest);
            } else {
              t := GiveUp(id);
              return;
            }
          } else if frame == current + [NEWLINE] {
            next := Open;
            t := Emit(Output(id, OutgoingAccepted(current)));
          } else if rest != [] {
            next := Outgoing(true, rest[0], rest[1..]);
            var ok := SendMultistreamData(id, rest[0] + [NEWLINE], takes);
            t := if ok then Again else Fail(Yamux);
          } else {
            t := GiveUp(id);
            t := Emit(Output(id, OutgoingRejected));
            return;
          }
        case Open => t := Emit(Output(id, Data(frame)));
        case ClosedByUs => t := Emit(Output(id, Data(frame)));
      }
      bufs := bufs[id := bufs[id].(state := next)];
    }

    method GiveUp(id: StreamId) returns (t: Turn)
      requires bufs.Keys == heads.Keys
      modifies this`bufs, this`heads, this`outbox
      ensures bufs == old(bufs) - {id} && heads == old(heads) - {id} && outbox == old(outbox) + [ResetStream(id)]
              && t == Again
    {
      Remove(id);
      outbox := outbox + [ResetStream(id)];
      return Again;
    }

    /** Runs `next` on the stream's buffer, where it lies. */
    method NextFrom(id: StreamId) returns (next: NextFrame)
      requires bufs.Keys == heads.Keys && id in bufs && Consistent(bufs[id].buffer, heads[id])
      modifies this`bufs, this`heads
      ensures id in bufs && id in heads && Consistent(bufs[id].buffer, heads[id])
      ensures bufs == old(bufs)[id := bufs[id]] && heads == old(heads)[id := heads[id]]
      ensures Taken(next, SlotOf(bufs[id], heads[id])) == TakeNext(SlotOf(old(bufs)[id], old(heads)[id]))
      ensures Slots() == old(Slots())[id := SlotOf(bufs[id], heads[id])]
      ensures !next.Ready? ==> Tidy(bufs[id], heads[id])
    {
      var buffer := new MultistreamFrameBuffer.Resume(bufs[id].buffer, heads[id]);
      next := buffer.Next();
      Put(id, bufs[id].(buffer := buffer.Value()), buffer.head);
    }

    /** The lower half of `next_inner`'s loop: one message from this stream's buffer. */
    method Pull(id: StreamId, takes: bool) returns (t: Turn)
      requires bufs.Keys == heads.Keys && id in bufs && readFrom == None && Consistent(bufs[id].buffer, heads[id])
      requires forall other :: other in bufs && other != id ==> Tidy(bufs[other], heads[other])
      modifies this`bufs, this`heads, this`outbox, this`readFrom
      ensures Valid()
      ensures var o := Pulled(old(Model()), id, takes, isUtf8);
              Model() == o.layer && t == o.turn && outbox == old(outbox) + o.commands
    {
      var next := NextFrom(id);
      match next {
        case NotReady => t := Again;
        case VarintOutOfRange => t := Fail(VarintTooLong);
        case Ready(frame) =>
          ghost var read := SlotOf(bufs[id], heads[id]);
          t := HandleReady(id, frame, takes);
          ghost var reply := React(read.state, frame, isUtf8).next;
          Overwrite(old(Slots()), id, read, if reply.Some? then read.(state := reply.value) else read);
      }
    }

    method HandleReady(id: StreamId, frame: seq<Byte>, takes: bool) returns (t: Turn)
      requires bufs.Keys == heads.Keys && id in bufs && Consistent(bufs[id].buffer, heads[id])
      requires forall other :: other in bufs && other != id ==> Tidy(bufs[other], heads[other])
      modifies this`bufs, this`heads, this`outbox, this`readFrom
      ensures Valid() && readFrom == Some(id)
      ensures var s, r := old(Slots())[id], React(old(bufs)[id].state, frame, isUtf8);
              && Slots() == (if r.next.None? then old(Slots()) - {id}
                             else old(Slots())[id := s.(state := r.next.value)])
              && outbox == old(outbox) + CommandsFor(id, r, takes) && t == TurnFor(id, r, takes)
    {
      readFrom := Some(id);
      t := HandleMessage(id, frame, takes);
      WithoutSlot(old(bufs), old(heads), id);
      ghost var r := React(old(bufs)[id].state, frame, isUtf8);
      if r.next.Some? { WithSlot(old(bufs), old(heads), id, old(bufs)[id].(state := r.next.value)); }
    }

    /** A report from the session below (lines 266-330). */
    method TakeInput(input: Input, takes: bool) returns (t: Turn)
      requires Valid() && readFrom == None
      modifies this`bufs, this`heads, this`outbox, this`readFrom
      ensures Valid()
      ensures var o := Reported(old(Model()), input, takes, isUtf8);
              Model() == o.layer && t == o.turn && outbox == old(outbox) + o.commands
    {
      match input {
        case RemoteOpened(id) =>
          if id !in bufs {
            Put(id, Entry(EMPTY, NewIncoming, PROTOCOL_MAX_LEN), []);
          }
          t := Pull(id, takes);
        case RemoteData(id, bytes) =>
          if id !in bufs {
            return Again;
          }
          t := TakeData(id, bytes, takes);
        case RemoteClosed(id) =>
          if id !in bufs {
            return Again;
          }
          var state := bufs[id].state;
          Remove(id);
          t := if state.NewIncoming? || state.NewIncomingProtocol? then Again
            else Emit(Output(id, Closed(ClosedByRemote)));
      }
    }

    method TakeData(id: StreamId, bytes: seq<Byte>, takes: bool) returns (t: Turn)
      requires Valid() && readFrom == None && id in bufs
      modifies this`bufs, this`heads, this`outbox, this`readFrom
      ensures Valid()
      ensures var o := Reported(old(Model()), RemoteData(id, bytes), takes, isUtf8);
              Model() == o.layer && t == o.turn && outbox == old(outbox) + o.commands
    {
      var entry := bufs[id];
      if !entry.buffer.failed { UnreadWhenLengthRead(entry.buffer, heads[id]); }
      if |entry.buffer.buf| + |bytes| > entry.maxBufferSize {
        ResetImmediately(id);
        return Emit(Output(id, Closed(IncomingMessageTooLarge)));
      }
      FeedEntry(id, bytes);
      t := Pull(id, takes);
    }

    /** `feed` on the stream's buffer, where it lies. */
    method FeedEntry(id: StreamId, bytes: seq<Byte>)
      requires Valid() && readFrom == None && id in bufs
      modifies this`bufs
      ensures bufs.Keys == heads.Keys == old(bufs).Keys && Consistent(bufs[id].buffer, heads[id])
      ensures forall other :: other in bufs && other != id ==> Tidy(bufs[other], heads[other])
      ensures var s := old(Slots())[id]; Slots() == old(Slots())[id := s.(pending := s.pending + bytes)]
    {
      var entry := FedEntry(bufs[id], bytes);
      FedSlot(bufs[id], heads[id], bytes);
      WithSlot(bufs, heads, id, entry);
      bufs := bufs[id := entry];
    }

    /** One round of `next_inner`: from the buffer last read from or, only when that is exhausted, from the
        session below. */
    method Step(input: Input, takes: bool) returns (t: Turn, used: bool)
      requires Valid()
      modifies this`bufs, this`heads, this`outbox, this`readFrom
      ensures Valid() && (used <==> old(readFrom) == None)
      ensures var o := Round(old(Model()), input, takes, isUtf8);
              Model() == o.layer && t == o.turn && outbox == old(outbox) + o.commands
    {
      if readFrom.None? {
        t := TakeInput(input, takes);
        return t, true;
      }
      var id := readFrom.value;
      readFrom := None;
      if id in bufs {
        t := Pull(id, takes);
      } else {
        t := Again;
      }
      used := false;
    }
  }
}
