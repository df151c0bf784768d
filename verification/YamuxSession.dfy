/** The Yamux session itself: `YamuxSession` and its shared state (`src/layers/yamux.rs`). Reads and
    writes are atomic steps; `YamuxView` says what each of them means. */
module YamuxSession {
  import opened Bytes
  import opened Header
  import opened YamuxStream
  import opened YamuxFlow
  import opened YamuxView
  import opened YamuxDrain

  datatype OutputState = OpenedByRemote | DataReady(len: nat) | ClosedByRemote

  datatype Output = Output(streamId: StreamId, state: OutputState)

  datatype Turn = Again | Emit(output: Output) | Finished | Fail(error: SessionError)

  datatype NextResult = Pending | Yield(output: Output) | NoMore | Broken(error: SessionError)

  /** What an output tells the user, given the read buffer it refers to. */
  function NoticeOf(o: Output, buffer: seq<Byte>): Notice
  {
    match o.state
    case OpenedByRemote => Opened(o.streamId)
    case DataReady(len) => Got(o.streamId, if len <= |buffer| then buffer[..len] else [])
    case ClosedByRemote => Closed(o.streamId)
  }

  predicate Agrees(t: Turn, v: Verdict)
  {
    match v
    case Proceed => t.Again? || t.Emit?
    case Ended => t.Finished?
    case Failed(e) => t == Fail(e)
  }

  lemma {:induction false} DataOnWire(id: StreamId, chunk: seq<Byte>, wrap: nat)
    requires |chunk| <= MAX_SEND_SIZE
    ensures var a := Min(|chunk|, wrap);
            Serialize(DataFrames(id, chunk, wrap)) ==
            if |chunk| > a
            then (Encode(SendData(id, a)) + chunk[..a]) + (Encode(SendData(id, |chunk| - a)) + chunk[a..])
            else Encode(SendData(id, a)) + chunk[..a]
  {
    var a := Min(|chunk|, wrap);
    var first, second := Frame(SendData(id, a), chunk[..a]), Frame(SendData(id, |chunk| - a), chunk[a..]);
    assert Serialize([first]) == OnWire(first) + Serialize([]);
    assert Serialize([second]) == OnWire(second) + Serialize([]);
    if |chunk| > a {
      SerializeAppend([first], [second]);
    }
  }

  /** The first `n` bytes of a buffer in two slices: from the first as far as it goes, the rest from the second. */
  lemma {:induction false} TwoSlices(data: seq<Byte>, wrap: nat, n: nat)
    requires n <= |data|
    ensures var a, b := data[..Min(wrap, |data|)], data[Min(wrap, |data|)..];
            var aLen := Min(n, |a|);
            && aLen == Min(n, wrap) && a[..aLen] == data[..n][..aLen]
            && (n > |a| ==> n - |a| <= |b| && b[..n - |a|] == data[..n][aLen..])
  {
  }

  /** The accounts after a frame was taken in. */
  ghost predicate Settled(before: map<StreamId, Account>, f: Frame, after: map<StreamId, Account>)
    requires f.header.streamId in before && |f.payload| <= MAX_FRAME_SIZE
  {
    var id := f.header.streamId;
    match ReceptionOf(f, before[id].stream)
    case Kept(s) => after == before[id := Account(s, LedgerAfter(f, before[id]))]
    case Removed => after == before - {id}
    case _ => false
  }

  lemma {:induction false} DeliverSettled(v: View, f: Frame, isNew: bool, after: map<StreamId, Account>)
    requires f.header.streamId in v.accounts && |f.payload| <= MAX_FRAME_SIZE && Settled(v.accounts, f, after)
    ensures Deliver(v, f, v.accounts[f.header.streamId], isNew) ==
            Received(v.(accounts := after, notices := v.notices + NoticesOf(f, isNew)), Proceed)
  {
  }

  /** Emitting one output and holding at most one more says what the frame had to say, in order. */
  lemma {:induction false} Announced(f: Frame, isNew: bool, before: seq<Notice>, t: Turn, held: Option<Output>,
                                     buffer: seq<Byte>)
    requires |f.payload| <= |buffer| && buffer[..|f.payload|] == f.payload
    requires isNew ==> !Closes(f)
    requires t == if isNew then Emit(Output(f.header.streamId, OpenedByRemote))
                  else if f.payload == [] then Again
                  else Emit(Output(f.header.streamId, DataReady(|f.payload|)))
    requires held == if Closes(f) then Some(Output(f.header.streamId, ClosedByRemote))
                     else if isNew && f.payload != [] then Some(Output(f.header.streamId, DataReady(|f.payload|)))
                     else None
    ensures before + (if t.Emit? then [NoticeOf(t.output, buffer)] else [])
            + (if held.None? then [] else [NoticeOf(held.value, buffer)])
            == before + NoticesOf(f, isNew)
  {
  }

  /** The last message queued is a close or a reset. */
  predicate EndsQueue(q: seq<Message>) { q != [] && (q[|q| - 1] == CloseMsg || q[|q| - 1] == ResetMsg) }

  /** The same queue, with a close at its end, of which there is one. */
  predicate ClosedBehind(q: seq<Message>, q': seq<Message>)
  {
    q' == if q != [] && q[|q| - 1] == CloseMsg then q else q + [CloseMsg]
  }

  /** The queue is a close alone, and our half is closed. */
  predicate ClosedOnly(s: Stream, s': Stream)
  {
    && s'.outbound == [CloseMsg]
    && s'.openState == if s.openState.Open? || s.openState.FinByUs? then FinByUs else Reset
  }

  function ReceiveAll(v: View, frames: seq<Frame>): View
    requires forall f :: f in frames ==> WellFormed(f)
  {
    if frames == [] then v
    else ReceiveFrame(ReceiveAll(v, frames[..|frames| - 1]), frames[|frames| - 1]).view
  }

  lemma {:induction false} ReceiveAllSnoc(v: View, frames: seq<Frame>, n: nat)
    requires n < |frames| && forall f :: f in frames ==> WellFormed(f)
    ensures ReceiveAll(v, frames[..n + 1]) == ReceiveFrame(ReceiveAll(v, frames[..n]), frames[n]).view
  {
    assert frames[..n + 1][..n] == frames[..n];
  }

  /** The frame before which `n` were taken in, with what came of it. */
  function LastRead(v: View, frames: seq<Frame>, n: nat): Received
    requires n < |frames| && forall f :: f in frames ==> WellFormed(f)
  {
    ReceiveFrame(ReceiveAll(v, frames[..n]), frames[n])
  }

  /** It neither ended the session nor left anything to tell the user. */
  predicate Uneventful(v: View, frames: seq<Frame>, n: nat)
    requires n < |frames| && forall f :: f in frames ==> WellFormed(f)
  {
    var last := LastRead(v, frames, n);
    last.verdict == Proceed && last.view.notices == ReceiveAll(v, frames[..n]).notices
  }

  /** Where reading stops: at the first frame that is not uneventful, and for the reason that frame gives. */
  ghost predicate StopsRightly(v: View, frames: seq<Frame>, used: nat, r: NextResult)
    requires forall f :: f in frames ==> WellFormed(f)
  {
    && used <= |frames|
    && (forall n :: 0 <= n < used - 1 ==> Uneventful(v, frames, n))
    && (r.Pending? ==> used == |frames| && (used > 0 ==> Uneventful(v, frames, used - 1)))
    && (!r.Pending? ==> used > 0 && StopsFor(v, frames, used - 1, r))
  }

  ghost predicate StopsFor(v: View, frames: seq<Frame>, n: nat, r: NextResult)
    requires n < |frames| && forall f :: f in frames ==> WellFormed(f)
  {
    var last := LastRead(v, frames, n);
    match r
    case Pending => false
    case NoMore => Goodbye(frames[n])
    case Broken(e) => last.verdict == Failed(e)
    case Yield(_) => last.verdict == Proceed && !Uneventful(v, frames, n)
  }

  /** The read loop between two frames. */
  ghost predicate ReadSoFar(v: View, frames: seq<Frame>, used: nat, r: NextResult)
    requires forall f :: f in frames ==> WellFormed(f)
  {
    && used <= |frames|
    && (forall n :: 0 <= n < used - 1 ==> Uneventful(v, frames, n))
    && (r.Pending? && used > 0 ==> Uneventful(v, frames, used - 1))
    && (!r.Pending? ==> used > 0 && StopsFor(v, frames, used - 1, r))
  }

  lemma {:induction false} ReadFurther(v: View, frames: seq<Frame>, used: nat, r: NextResult)
    requires (forall f :: f in frames ==> WellFormed(f)) && used < |frames| && ReadSoFar(v, frames, used, Pending)
    requires if r.Pending? then Uneventful(v, frames, used) else StopsFor(v, frames, used, r)
    ensures ReadSoFar(v, frames, used + 1, r)
  {
  }

  /** The result, from where the reading stopped: the end on the peer's goodbye alone, an error for exactly its reason,
      and something read whenever there is something to read. */
  ghost predicate EndsExactly(v: View, frames: seq<Frame>, used: nat, r: NextResult)
    requires used <= |frames| && forall f :: f in frames ==> WellFormed(f)
  {
    && (r == NoMore <==> used > 0 && Goodbye(frames[used - 1]))
    && (forall e :: r == Broken(e) <==> used > 0 && FailsWith(ReceiveAll(v, frames[..used - 1]), frames[used - 1], e))
    && (frames != [] ==> used > 0)
  }

  lemma {:induction false} StopsExactly(v: View, frames: seq<Frame>, used: nat, r: NextResult)
    requires (forall f :: f in frames ==> WellFormed(f)) && StopsRightly(v, frames, used, r)
    ensures EndsExactly(v, frames, used, r)
  {
    if used > 0 {
      var before, f := ReceiveAll(v, frames[..used - 1]), frames[used - 1];
      forall e ensures r == Broken(e) <==> FailsWith(before, f, e) {
        VerdictExactly(before, f, e);
      }
      VerdictExactly(before, f, ServerInternalError);
      if r.Broken? { VerdictExactly(before, f, r.error); }
    }
  }

  lemma {:induction false} ReceiveAllKeepsSound(v: View, frames: seq<Frame>)
    requires Sound(v) && forall f :: f in frames ==> WellFormed(f)
    ensures Sound(ReceiveAll(v, frames))
  {
    if frames != [] {
      var init := frames[..|frames| - 1];
      ReceiveAllKeepsSound(v, init);
      ReceiveKeepsSound(ReceiveAll(v, init), frames[|frames| - 1]);
    }
  }

  lemma {:induction false} StillSound(v: View, frames: seq<Frame>, after: View)
    requires Sound(v) && (forall f :: f in frames ==> WellFormed(f)) && after == ReceiveAll(v, frames)
    ensures Sound(after)
  {
    ReceiveAllKeepsSound(v, frames);
  }

  function AccountsOf(streams: map<StreamId, Stream>, ledgers: map<StreamId, Ledger>): map<StreamId, Account>
    requires streams.Keys == ledgers.Keys
  {
    map id | id in streams :: Account(streams[id], ledgers[id])
  }

  lemma {:induction false} DrainedSound(v: View, s0: map<StreamId, Stream>, ledgers0: map<StreamId, Ledger>,
                                        keys: seq<StreamId>, rounds: seq<seq<nat>>, r: Writing, after: View)
    requires Sound(v) && FullDrain(s0, keys, rounds, r)
    requires s0.Keys == ledgers0.Keys && v.accounts == AccountsOf(s0, ledgers0)
    requires after == v.(accounts := Settle(v.accounts, r), writeBuf := [])
    ensures Sound(after)
  {
    StreamsBack(s0, ledgers0);
    DrainKeepsSound(v, s0, keys, rounds, r);
  }

  lemma {:induction false} StreamsBack(streams: map<StreamId, Stream>, ledgers: map<StreamId, Ledger>)
    requires streams.Keys == ledgers.Keys
    ensures var accounts := AccountsOf(streams, ledgers);
            streams == map id | id in accounts :: accounts[id].stream
  {
  }

  /** The table a drain leaves, from the streams and ledgers it is made of. */
  lemma {:induction false} SettledTable(streams: map<StreamId, Stream>, ledgers: map<StreamId, Ledger>,
                                        ledgers0: map<StreamId, Ledger>, before: map<StreamId, Account>, r: Writing)
    requires streams == r.streams - r.removed && ledgers0.Keys == r.streams.Keys == before.Keys
    requires forall id :: id in before ==> before[id].ledger == ledgers0[id]
    requires ledgers == map id | id in streams :: Charge(ledgers0[id], ForStream(r.log, id))
    ensures streams.Keys == ledgers.Keys && AccountsOf(streams, ledgers) == Settle(before, r)
  {
  }

  class Session {
    var streams: map<StreamId, Stream>
    var nextStreamId: StreamId
    var writeBuf: seq<Byte>
    var outputBuf: Option<Output>
    const inbound: array<Byte>
    var dataLen: nat
    var finished: bool
    ghost var ledgers: map<StreamId, Ledger>
    /** The notices handed to the user so far. */
    ghost var delivered: seq<Notice>

    ghost predicate Shape()
      reads this`streams, this`ledgers
    {
      streams.Keys == ledgers.Keys && inbound.Length == MAX_FRAME_SIZE
    }

    ghost function Accounts(): (r: map<StreamId, Account>)
      requires Shape()
      reads this`streams, this`ledgers
      ensures r.Keys == streams.Keys && |r| == |streams|
    {
      var r := AccountsOf(streams, ledgers);
      assert r.Keys == streams.Keys;
      r
    }

    /** The one output not yet handed over. */
    ghost function Held(): seq<Notice>
      reads this`outputBuf, inbound
    {
      if outputBuf.None? then [] else [NoticeOf(outputBuf.value, inbound[..])]
    }

    ghost function Model(): View
      requires Shape()
      reads this, inbound
    {
      View(Accounts(), nextStreamId, delivered + Held(), writeBuf)
    }

    /** What every call of the user keeps: the session is sound, as `YamuxView.Sound` says of what it stands for. */
    ghost predicate Valid()
      reads this, inbound
    {
      Shape() && Sound(Model())
    }

    constructor ()
      ensures Valid() && fresh(inbound) && !finished && outputBuf.None?
      ensures Model() == INITIAL
    {
      streams, ledgers := map[], map[];
      nextStreamId := 1;
      writeBuf := [];
      outputBuf := None;
      inbound := new Byte[MAX_FRAME_SIZE](_ => 0);
      dataLen := 0;
      finished := false;
      delivered := [];
      new;
      assert delivered + Held() == [];
    }

    method Put(id: StreamId, s: Stream, ghost l: Ledger)
      requires Shape()
      modifies this`streams, this`ledgers
      ensures Shape() && Accounts() == old(Accounts())[id := Account(s, l)]
      ensures streams == old(streams)[id := s]
    {
      streams := streams[id := s];
      ledgers := ledgers[id := l];
      assert Accounts() == old(Accounts())[id := Account(s, l)];
    }

    method Drop(id: StreamId)
      requires Shape()
      modifies this`streams, this`ledgers
      ensures Shape() && Accounts() == old(Accounts()) - {id}
    {
      streams := streams - {id};
      ledgers := ledgers - {id};
      assert Accounts() == old(Accounts()) - {id};
    }

    /** The body of `open_stream`. */
    method AddStream() returns (id: StreamId)
      requires Shape() && nextStreamId + 2 < 0x1_0000_0000
      modifies this`streams, this`ledgers, this`nextStreamId
      ensures Shape() && Model() == OpenOne(old(Model()))
      ensures id == old(nextStreamId)
      ensures id !in old(streams) ==> streams == old(streams)[id := Stream(0x4_0000, 0x4_0000, Open, [OpenMsg])]
    {
      assert [] + [OpenMsg] == [OpenMsg];
      id := nextStreamId;
      nextStreamId := nextStreamId + 2;
      var stream := if id in streams then streams[id] else NEW_STREAM;
      ghost var ledger := if id in streams then ledgers[id] else NEW_LEDGER;
      Put(id, stream.(outbound := stream.outbound + [OpenMsg]), ledger);
    }

    /** The body of `send_data`: false when the stream is unknown or closing (`StreamNotFound`). */
    method PushData(id: StreamId, data: seq<Byte>) returns (ok: bool)
      requires Shape()
      modifies this`streams, this`ledgers
      ensures Shape() && Model() == OnStream(old(Model()), id, Send(data))
      ensures ok <==> id in old(streams) && !EndsQueue(old(streams[id]).outbound)
    {
      if id !in streams {
        return false;
      }
      var stream := streams[id];
      var q := stream.outbound;
      if q != [] && q[|q| - 1].Data? {
        q := q[..|q| - 1] + [Data(q[|q| - 1].bytes + data)];
      } else if q != [] && (q[|q| - 1].CloseMsg? || q[|q| - 1].ResetMsg?) {
        assert Accounts() == Accounts()[id := Accounts()[id]];
        return false;
      } else {
        assert [] + [Data(data)] == [Data(data)];
        q := q + [Data(data)];
      }
      assert QueueData(stream, data) == Some(stream.(outbound := q));
      Put(id, stream.(outbound := q), ledgers[id]);
      return true;
    }

    /** The body of `close_stream`. */
    method PushClose(id: StreamId)
      requires Shape()
      modifies this`streams, this`ledgers
      ensures Shape() && Model() == OnStream(old(Model()), id, AskClose)
      ensures id in old(streams) ==> id in streams && ClosedBehind(old(streams[id]).outbound, streams[id].outbound)
    {
      if id in streams {
        var stream := streams[id];
        if stream.outbound == [] || !stream.outbound[|stream.outbound| - 1].CloseMsg? {
          stream := stream.(outbound := stream.outbound + [CloseMsg]);
        }
        Put(id, stream, ledgers[id]);
      }
    }

    /** The body of `close_stream_immediately`. */
    method OnlyClose(id: StreamId)
      requires Shape()
      modifies this`streams, this`ledgers
      ensures Shape() && Model() == OnStream(old(Model()), id, AskCloseNow)
      ensures id in old(streams) ==> id in streams && ClosedOnly(old(streams[id]), streams[id])
    {
      if id in streams {
        var stream := streams[id];
        Put(id, stream.(openState := SetFinByUs(stream.openState), outbound := [CloseMsg]),
            Discard(ledgers[id], stream.outbound));
      }
    }

    /** The body of `reset_stream_immediately`, which the reader uses as well. */
    method OnlyReset(id: StreamId)
      requires Shape()
      modifies this`streams, this`ledgers
      ensures Shape() && Model() == OnStream(old(Model()), id, AskReset)
      ensures id in old(streams) ==>
                id in streams && streams[id].outbound == [ResetMsg] && streams[id].openState == Reset
    {
      if id in streams {
        var stream := streams[id];
        Put(id, stream.(outbound := [ResetMsg], openState := Reset), Discard(ledgers[id], stream.outbound));
      }
    }

    // -------------------------------------------------------------------------
    // The user's calls
    // -------------------------------------------------------------------------

    /** `open_stream`. */
    method OpenStream() returns (id: StreamId)
      requires Valid() && nextStreamId + 2 < 0x1_0000_0000
      modifies this`streams, this`ledgers, this`nextStreamId
      ensures Valid() && Model() == OpenOne(old(Model()))
      ensures id == old(nextStreamId) && !IsEven(id) && id !in old(streams)
      ensures streams == old(streams)[id := Stream(0x4_0000, 0x4_0000, Open, [OpenMsg])]
    {
      OpenKeepsSound(Model());
      id := AddStream();
    }

    /** `send_data`. */
    method SendData(id: StreamId, data: seq<Byte>) returns (ok: bool)
      requires Valid()
      modifies this`streams, this`ledgers
      ensures Valid() && Model() == OnStream(old(Model()), id, Send(data))
      ensures ok <==> id in old(streams) && !EndsQueue(old(streams[id]).outbound)
    {
      OnStreamKeepsSound(Model(), id, Send(data));
      ok := PushData(id, data);
    }

    /** `close_stream`. */
    method CloseStream(id: StreamId)
      requires Valid()
      modifies this`streams, this`ledgers
      ensures Valid() && Model() == OnStream(old(Model()), id, AskClose)
      ensures id in old(streams) ==> id in streams && ClosedBehind(old(streams[id]).outbound, streams[id].outbound)
    {
      OnStreamKeepsSound(Model(), id, AskClose);
      PushClose(id);
    }

    /** `close_stream_immediately`. */
    method CloseStreamImmediately(id: StreamId)
      requires Valid()
      modifies this`streams, this`ledgers
      ensures Valid() && Model() == OnStream(old(Model()), id, AskCloseNow)
      ensures id in old(streams) ==> id in streams && ClosedOnly(old(streams[id]), streams[id])
    {
      OnStreamKeepsSound(Model(), id, AskCloseNow);
      OnlyClose(id);
    }

    /** `reset_stream_immediately`. */
    method ResetStreamImmediately(id: StreamId)
      requires Valid()
      modifies this`streams, this`ledgers
      ensures Valid() && Model() == OnStream(old(Model()), id, AskReset)
      ensures id in old(streams) ==>
                id in streams && streams[id].outbound == [ResetMsg] && streams[id].openState == Reset
    {
      OnStreamKeepsSound(Model(), id, AskReset);
      OnlyReset(id);
    }

    // -------------------------------------------------------------------------
    // Reading
    // -------------------------------------------------------------------------

    /** `negotiate_new_stream_request`. */
    method NegotiateNewStream(id: StreamId) returns (n: Negotiation)
      requires Shape()
      modifies this`streams, this`ledgers, this`writeBuf
      ensures Shape() && n == Negotiate(old(Accounts()), id)
      ensures match n
              case Refused(_) => Model() == old(Model())
              case TooMany => Model() == old(Model()).(writeBuf := old(writeBuf) + Encode(ResetStream(id)))
              case Welcome => Model() == old(Model()).(accounts := old(Accounts())[id := OPENED_THERE])
    {
      if !IsEven(id) || id == 0 {
        return Refused(InvalidStreamId(id));
      }
      if |streams| >= MAX_STREAMS {
        writeBuf := writeBuf + Encode(ResetStream(id));
        return TooMany;
      }
      if id in streams {
        return Refused(DuplicateStreamId(id));
      }
      Put(id, NEW_STREAM.(outbound := [AcceptMsg]), NEW_LEDGER);
      return Welcome;
    }

    /** The receive window, and what RST, FIN or a low window do to the stream (lines 498-529). */
    method AbsorbData(f: Frame)
      requires Shape() && WellFormed(f) && f.header.frameType.DataFrame? && |f.payload| <= MAX_FRAME_SIZE
      requires f.header.streamId in streams && outputBuf.None?
      requires streams[f.header.streamId].openState.Open? || streams[f.header.streamId].openState.FinByUs?
      modifies this`streams, this`ledgers, this`outputBuf
      ensures Shape() && Settled(old(Accounts()), f, Accounts())
      ensures outputBuf == if Closes(f) then Some(Output(f.header.streamId, ClosedByRemote)) else None
    {
      var id, flags, len := f.header.streamId, f.header.flags, |f.payload|;
      var stream := streams[id];
      ghost var ledger := LedgerAfter(f, Accounts()[id]);
      stream := stream.(recvWindow := if len <= stream.recvWindow then stream.recvWindow - len else 0);
      if Contains(flags, RST) {
        Drop(id);
        outputBuf := Some(Output(id, ClosedByRemote));
        return;
      }
      if Contains(flags, FIN) {
        stream := stream.(openState := FinByThem);
        outputBuf := Some(Output(id, ClosedByRemote));
      } else if stream.recvWindow < MAX_FRAME_SIZE / 2 {
        var delta := MAX_FRAME_SIZE - stream.recvWindow;
        stream := stream.(recvWindow := stream.recvWindow + delta,
                          outbound := stream.outbound + [WindowUpdateMsg(delta)]);
      }
      Put(id, stream, ledger);
    }

    /** The data branch of `read_next` after the payload is in the buffer and the stream is found. */
    method DeliverData(f: Frame, isNew: bool) returns (t: Turn)
      requires Shape() && WellFormed(f) && f.header.frameType.DataFrame? && |f.payload| <= MAX_FRAME_SIZE
      requires f.header.streamId in streams && outputBuf.None? && inbound[..|f.payload|] == f.payload
      requires isNew ==> OpensNewStream(f.header.flags) && streams[f.header.streamId].openState.Open?
      modifies this`streams, this`ledgers, this`outputBuf, this`delivered
      ensures Shape()
      ensures var d := Deliver(old(Model()), f, old(Accounts())[f.header.streamId], isNew);
              Model() == d.view && Agrees(t, d.verdict)
      ensures delivered == old(delivered) + if t.Emit? then [NoticeOf(t.output, inbound[..])] else []
      ensures t.Emit? && t.output.state.DataReady? ==> t.output.state.len == |f.payload|
    {
      var id, len := f.header.streamId, |f.payload|;
      if streams[id].openState.FinByThem? {
        return Fail(DataSentAfterFin(id));
      } else if streams[id].openState.Reset? {
        return Again;
      }
      AbsorbData(f);
      DeliverSettled(old(Model()), f, isNew, Accounts());
      assert old(Model()).notices == old(delivered);
      t := ReportData(f, isNew);
    }

    /** What the data branch returns now and what it leaves for the next call (lines 531-556). */
    method ReportData(f: Frame, isNew: bool) returns (t: Turn)
      requires |f.payload| <= inbound.Length && inbound[..|f.payload|] == f.payload
      requires outputBuf == if Closes(f) then Some(Output(f.header.streamId, ClosedByRemote)) else None
      requires isNew ==> !Closes(f)
      modifies this`outputBuf, this`delivered
      ensures t.Again? || t.Emit?
      ensures delivered == old(delivered) + if t.Emit? then [NoticeOf(t.output, inbound[..])] else []
      ensures delivered + Held() == old(delivered) + NoticesOf(f, isNew)
      ensures t.Emit? && t.output.state.DataReady? ==> t.output.state.len == |f.payload|
    {
      var id, len := f.header.streamId, |f.payload|;
      if len == 0 && isNew {
        t := Emit(Output(id, OpenedByRemote));
      } else if len == 0 {
        t := Again;
      } else if isNew {
        outputBuf := Some(Output(id, DataReady(len)));
        t := Emit(Output(id, OpenedByRemote));
      } else {
        t := Emit(Output(id, DataReady(len)));
      }
      if t.Emit? { delivered := delivered + [NoticeOf(t.output, inbound[..])]; }
      assert inbound[..][..len] == f.payload;
      Announced(f, isNew, old(delivered), t, outputBuf, inbound[..]);
    }

    /** The send window, and what RST or FIN do to the stream (lines 586-600). */
    method AbsorbUpdate(f: Frame)
      requires Shape() && f.header.frameType.WindowUpdateFrame? && f.payload == []
      requires f.header.streamId in streams && !streams[f.header.streamId].openState.Reset?
      modifies this`streams, this`ledgers
      ensures Shape() && Settled(old(Accounts()), f, Accounts())
    {
      var id, flags := f.header.streamId, f.header.flags;
      var stream := streams[id];
      ghost var ledger := LedgerAfter(f, Accounts()[id]);
      stream := stream.(sendWindow := Min(stream.sendWindow + f.header.length, USIZE_MAX));
      if Contains(flags, RST) {
        Drop(id);
        return;
      }
      if Contains(flags, FIN) {
        stream := stream.(openState := SetFinByThem(stream.openState));
      }
      Put(id, stream, ledger);
    }

    /** The window-update branch of `read_next` after the stream is found. */
    method DeliverUpdate(f: Frame, isNew: bool) returns (t: Turn)
      requires Shape() && WellFormed(f) && f.header.frameType.WindowUpdateFrame?
      requires f.header.streamId in streams && outputBuf.None?
      requires isNew ==> OpensNewStream(f.header.flags)
      modifies this`streams, this`ledgers, this`delivered
      ensures Shape()
      ensures var d := Deliver(old(Model()), f, old(Accounts())[f.header.streamId], isNew);
              Model() == d.view && Agrees(t, d.verdict)
      ensures delivered == old(delivered) + if t.Emit? then [NoticeOf(t.output, inbound[..])] else []
      ensures t.Emit? ==> !t.output.state.DataReady?
    {
      var id := f.header.streamId;
      if streams[id].openState.Reset? {
        return Again;
      }
      AbsorbUpdate(f);
      DeliverSettled(old(Model()), f, isNew, Accounts());
      assert old(Model()).notices == old(delivered);
      t := ReportUpdate(f, isNew);
    }

    /** What the window-update branch returns (lines 588-612). */
    method ReportUpdate(f: Frame, isNew: bool) returns (t: Turn)
      requires WellFormed(f) && f.header.frameType.WindowUpdateFrame? && outputBuf.None?
      requires isNew ==> OpensNewStream(f.header.flags)
      modifies this`delivered
      ensures t.Again? || (t.Emit? && !t.output.state.DataReady?)
      ensures delivered == old(delivered) + if t.Emit? then [NoticeOf(t.output, inbound[..])] else []
      ensures delivered + Held() == old(delivered) + NoticesOf(f, isNew)
    {
      var id := f.header.streamId;
      if Contains(f.header.flags, RST) {
        t := Emit(Output(id, ClosedByRemote));
      } else if Contains(f.header.flags, FIN) {
        t := Emit(Output(id, ClosedByRemote));
      } else if isNew {
        t := Emit(Output(id, OpenedByRemote));
      } else {
        t := Again;
      }
      if t.Emit? { delivered := delivered + [NoticeOf(t.output, inbound[..])]; }
      assert delivered + Held() == old(delivered) + NoticesOf(f, isNew);
    }

    /** One iteration of `read_next` on a frame taken off the wire. At most one output is left held,
        and none was held before, so none is ever overwritten. */
    method HandleFrame(f: Frame) returns (t: Turn)
      requires Shape() && WellFormed(f) && outputBuf.None?
      modifies this`streams, this`ledgers, this`outputBuf, this`delivered, this`writeBuf, inbound
      ensures Shape()
      ensures Model() == ReceiveFrame(old(Model()), f).view
      ensures Agrees(t, ReceiveFrame(old(Model()), f).verdict)
      ensures delivered == old(delivered) + if t.Emit? then [NoticeOf(t.output, inbound[..])] else []
      ensures t.Emit? && t.output.state.DataReady? ==>
                t.output.state.len == |f.payload| <= MAX_FRAME_SIZE && inbound[..|f.payload|] == f.payload
    {
      var id := f.header.streamId;
      match f.header.frameType
      case PingFrame =>
        if id != 0 {
          OnlyReset(id);
        } else {
          writeBuf := writeBuf + Encode(Pong(id, f.header.length));
        }
        return Again;
      case GoAwayFrame =>
        if id != 0 {
          OnlyReset(id);
          return Again;
        }
        match f.header.length {
          case 0 => return Finished;
          case 1 => return Fail(ServerProtocolError);
          case 2 => return Fail(ServerInternalError);
          case code => return Fail(ServerUnknownError(code));
        }
      case DataFrame =>
        if |f.payload| > MAX_FRAME_SIZE {
          return Fail(FrameTooLarge(|f.payload|));
        }
        forall k | 0 <= k < |f.payload| { inbound[k] := f.payload[k]; }
        assert inbound[..|f.payload|] == f.payload;
        t := TakeIn(f);
      case WindowUpdateFrame =>
        t := TakeIn(f);
    }

    /** Finds the stream a frame is for, opening it when the frame asks for that, and hands it on. */
    method TakeIn(f: Frame) returns (t: Turn)
      requires Shape() && WellFormed(f) && outputBuf.None? && |f.payload| <= MAX_FRAME_SIZE
      requires f.header.frameType.DataFrame? || f.header.frameType.WindowUpdateFrame?
      requires inbound[..|f.payload|] == f.payload
      modifies this`streams, this`ledgers, this`outputBuf, this`delivered, this`writeBuf
      ensures Shape()
      ensures Model() == ReceiveFrame(old(Model()), f).view
      ensures Agrees(t, ReceiveFrame(old(Model()), f).verdict)
      ensures delivered == old(delivered) + if t.Emit? then [NoticeOf(t.output, inbound[..])] else []
      ensures t.Emit? && t.output.state.DataReady? ==> t.output.state.len == |f.payload|
    {
      var id := f.header.streamId;
      var isNew := false;
      if OpensNewStream(f.header.flags) {
        var n := NegotiateNewStream(id);
        match n {
          case Refused(e) => return Fail(e);
          case TooMany => return Again;
          case Welcome => isNew := true;
        }
      } else if id !in streams {
        return Again;
      }
      if f.header.frameType.DataFrame? {
        t := DeliverData(f, isNew);
      } else {
        t := DeliverUpdate(f, isNew);
      }
    }

    /** The output left by an earlier frame, if there is one. */
    method TakeHeld() returns (o: Option<Output>)
      requires Shape()
      modifies this`outputBuf, this`delivered
      ensures o == old(outputBuf) && outputBuf.None? && Model() == old(Model())
      ensures delivered == old(delivered) + old(Held())
    {
      o := outputBuf;
      delivered := delivered + Held();
      outputBuf := None;
    }

    /** The body of `next` with `read_next`: runs on the frames available until there is something to hand over.
        The frames used are taken in one by one, and data handed over is its own frame's payload. */
    method Advance(input: seq<Frame>) returns (r: NextResult, used: nat)
      requires Shape() && forall f :: f in input ==> WellFormed(f)
      modifies this`streams, this`ledgers, this`outputBuf, this`delivered, this`writeBuf, this`dataLen, this`finished,
        inbound
      ensures Shape() && used <= |input|
      ensures Model() == ReceiveAll(old(Model()), input[..used])
      ensures delivered == old(delivered) + if r.Yield? then [NoticeOf(r.output, inbound[..])] else []
      ensures dataLen == if r.Yield? && r.output.state.DataReady? then r.output.state.len else 0
      ensures r == Pending ==> used == |input| && outputBuf.None?
      ensures finished == (old(finished) || r.NoMore? || r.Broken?)
      ensures old(finished) ==> r == NoMore && used == 0
      ensures !old(finished) && old(outputBuf).Some? ==> used == 0 && r == Yield(old(outputBuf).value)
      ensures !old(finished) && old(outputBuf).None? ==> StopsRightly(old(Model()), input, used, r)
    {
      dataLen := 0;
      if finished {
        return NoMore, 0;
      }
      r, used := ReadUntil(input);
      if r.NoMore? || r.Broken? { finished := true; }
      if r.Yield? && r.output.state.DataReady? { dataLen := r.output.state.len; }
    }

    /** `next`, which keeps the session sound. */
    method Next(input: seq<Frame>) returns (r: NextResult, used: nat)
      requires Valid() && forall f :: f in input ==> WellFormed(f)
      modifies this`streams, this`ledgers, this`outputBuf, this`delivered, this`writeBuf, this`dataLen, this`finished,
        inbound
      ensures Valid() && used <= |input|
      ensures Model() == ReceiveAll(old(Model()), input[..used])
      ensures delivered == old(delivered) + if r.Yield? then [NoticeOf(r.output, inbound[..])] else []
      ensures dataLen == if r.Yield? && r.output.state.DataReady? then r.output.state.len else 0
      ensures r == Pending ==> used == |input| && outputBuf.None?
      ensures finished == (old(finished) || r.NoMore? || r.Broken?)
      ensures old(finished) ==> r == NoMore && used == 0
      ensures !old(finished) && old(outputBuf).Some? ==> used == 0 && r == Yield(old(outputBuf).value)
      ensures !old(finished) && old(outputBuf).None? ==> StopsRightly(old(Model()), input, used, r)
      ensures !old(finished) && old(outputBuf).None? ==> EndsExactly(old(Model()), input, used, r)
    {
      ghost var v0, told := Model(), !finished && outputBuf.None?;
      r, used := Advance(input);
      StillSound(v0, input[..used], Model());
      if told { StopsExactly(v0, input, used, r); }
    }

    /** `read_next`: the output held, else frame after frame until there is an output or an end. */
    method ReadUntil(input: seq<Frame>) returns (r: NextResult, used: nat)
      requires Shape() && forall f :: f in input ==> WellFormed(f)
      modifies this`streams, this`ledgers, this`outputBuf, this`delivered, this`writeBuf, inbound
      ensures Shape() && used <= |input|
      ensures Model() == ReceiveAll(old(Model()), input[..used])
      ensures delivered == old(delivered) + if r.Yield? then [NoticeOf(r.output, inbound[..])] else []
      ensures r == Pending ==> used == |input| && outputBuf.None?
      ensures old(outputBuf).Some? ==> used == 0 && r == Yield(old(outputBuf).value)
      ensures old(outputBuf).None? ==> StopsRightly(old(Model()), input, used, r)
    {
      if outputBuf.None? {
        r, used := ReadFrames(input);
      } else {
        var held := TakeHeld();
        r, used := Yield(held.value), 0;
      }
    }

    /** Frame after frame, while none is left with an output. */
    method ReadFrames(input: seq<Frame>) returns (r: NextResult, used: nat)
      requires Shape() && outputBuf.None? && forall f :: f in input ==> WellFormed(f)
      modifies this`streams, this`ledgers, this`outputBuf, this`delivered, this`writeBuf, inbound
      ensures Shape() && used <= |input|
      ensures Model() == ReceiveAll(old(Model()), input[..used])
      ensures delivered == old(delivered) + if r.Yield? then [NoticeOf(r.output, inbound[..])] else []
      ensures r == Pending ==> used == |input| && outputBuf.None?
      ensures StopsRightly(old(Model()), input, used, r)
    {
      r, used := Pending, 0;
      while r.Pending? && used < |input|
        invariant Shape() && used <= |input|
        invariant Model() == ReceiveAll(old(Model()), input[..used])
        invariant r.Pending? ==> outputBuf.None?
        invariant ReadSoFar(old(Model()), input, used, r)
        invariant delivered == old(delivered) + if r.Yield? then [NoticeOf(r.output, inbound[..])] else []
        decreases |input| - used
      {
        r := ReadOne(input, used, old(Model()));
        ReadFurther(old(Model()), input, used, r);
        used := used + 1;
      }
    }

    /** One turn of the read loop: the next frame, and the output it gives rise to. */
    method ReadOne(input: seq<Frame>, used: nat, ghost v0: View) returns (r: NextResult)
      requires Shape() && used < |input| && (forall f :: f in input ==> WellFormed(f)) && outputBuf.None?
      requires Model() == ReceiveAll(v0, input[..used])
      modifies this`streams, this`ledgers, this`outputBuf, this`delivered, this`writeBuf, inbound
      ensures Shape() && (r.Pending? ==> outputBuf.None?)
      ensures Model() == ReceiveAll(v0, input[..used + 1])
      ensures delivered == old(delivered) + if r.Yield? then [NoticeOf(r.output, inbound[..])] else []
      ensures if r.Pending? then Uneventful(v0, input, used) else StopsFor(v0, input, used, r)
    {
      ReceiveAllSnoc(v0, input, used);
      VerdictExactly(Model(), input[used], ServerInternalError);
      var t := HandleFrame(input[used]);
      match t {
        case Again =>
          var held := TakeHeld();
          r := if held.Some? then Yield(held.value) else Pending;
        case Emit(output) => r := Yield(output);
        case Finished => r := NoMore;
        case Fail(e) => r := Broken(e);
      }
    }

    // -------------------------------------------------------------------------
    // Writing
    // -------------------------------------------------------------------------

    /** The body of the drain loop for one stream: the bytes it appends and the stream it leaves. */
    static method WriteOne(id: StreamId, stream: Stream, wrap: nat)
        returns (left: Stream, bytes: seq<Byte>, remove: bool)
      ensures var v := Visit(id, stream, wrap);
              left == v.stream && bytes == Serialize(v.frames) && remove == v.remove
    {
      left, bytes, remove := stream, [], false;
      if stream.outbound == [] {
        return;
      }
      var msg := stream.outbound[0];
      left := stream.(outbound := stream.outbound[1..]);
      match msg {
        case AcceptMsg => bytes := Encode(AcceptStream(id));
        case OpenMsg => bytes := Encode(Header.OpenStream(id));
        case CloseMsg =>
          bytes := Encode(Header.CloseStream(id));
          left := left.(openState := SetFinByUs(left.openState));
        case ResetMsg =>
          bytes := Encode(ResetStream(id));
          remove := true;
        case WindowUpdateMsg(delta) => bytes := Encode(WindowUpdate(id, delta));
        case Data(data) => left, bytes := WriteData(id, left, data, wrap);
      }
      if !msg.Data? {
        ghost var f := Visit(id, stream, wrap).frames[0];
        assert Serialize([f]) == OnWire(f) + Serialize([]);
      }
    }

    /** A data message: capped by the send window and by the largest chunk, from two ring slices. */
    static method WriteData(id: StreamId, popped: Stream, data: seq<Byte>, wrap: nat)
        returns (left: Stream, bytes: seq<Byte>)
      ensures var v := Visit(id, popped.(outbound := [Data(data)] + popped.outbound), wrap);
              left == v.stream && bytes == Serialize(v.frames) && !v.remove
    {
      ghost var queued := [Data(data)] + popped.outbound;
      assert queued[0] == Data(data) && queued[1..] == popped.outbound;
      var n := Min(Min(|data|, popped.sendWindow), MAX_SEND_SIZE);
      if n == 0 {
        return popped.(outbound := popped.outbound + [Data(data)]), [];
      }
      bytes := WriteSlices(id, data, wrap, n);
      left := popped.(sendWindow := popped.sendWindow - n);
      if n != |data| {
        left := left.(outbound := [Data(data[n..])] + left.outbound);
      }
    }

    /** The first bytes of a ring buffer that wraps after `wrap` bytes, as one data frame for each slice. */
    static method WriteSlices(id: StreamId, data: seq<Byte>, wrap: nat, n: nat) returns (bytes: seq<Byte>)
      requires n <= |data| && n <= MAX_SEND_SIZE
      ensures bytes == Serialize(DataFrames(id, data[..n], wrap))
    {
      var cut := Min(wrap, |data|);
      var a, b := data[..cut], data[cut..];
      var aLen := Min(n, |a|);
      var bLen := if n > |a| then n - |a| else 0;
      bytes := Encode(Header.SendData(id, aLen)) + a[..aLen];
      if bLen > 0 {
        bytes := bytes + (Encode(Header.SendData(id, bLen)) + b[..bLen]);
      }
      TwoSlices(data, wrap, n);
      DataOnWire(id, data[..n], wrap);
    }

    /** One pass over the streams in identifier order, a message from each. The ring buffers may wrap
        anywhere. */
    method Pass(keys: seq<StreamId>, removed0: set<StreamId>, ghost log0: seq<Frame>)
      returns (bytes: seq<Byte>, removed: set<StreamId>, ghost log: seq<Frame>, ghost wraps: seq<nat>)
      requires forall i :: 0 <= i < |keys| ==> keys[i] in streams
      modifies this`streams
      ensures |wraps| == |keys|
      ensures Writing(streams, log, removed) == PassOver(Writing(old(streams), log0, removed0), keys, wraps)
      ensures Serialize(log) == Serialize(log0) + bytes
      ensures |log| == |log0| <==> bytes == []
    {
      bytes, removed, log, wraps := [], removed0, log0, [];
      ghost var w0 := Writing(streams, log0, removed0);
      for i := 0 to |keys|
        invariant |wraps| == i && streams.Keys == old(streams).Keys
        invariant Writing(streams, log, removed) == PassOver(w0, keys, wraps)
        invariant Serialize(log) == Serialize(log0) + bytes
        invariant |log| >= |log0| && (|log| == |log0| <==> bytes == [])
      {
        var wrap: nat := *;
        var left, out, remove := WriteOne(keys[i], streams[keys[i]], wrap);
        ghost var frames := Visit(keys[i], streams[keys[i]], wrap).frames;
        SerializeAppend(log, frames);
        SerializeNotEmpty(frames);
        Assoc(Serialize(log0), bytes, out);
        PassOverSnoc(w0, keys, wraps, wrap);
        streams := streams[keys[i] := left];
        bytes := bytes + out;
        if remove { removed := removed + {keys[i]}; }
        log, wraps := log + frames, wraps + [wrap];
      }
    }

    /** The drain loop: passes over all streams until a pass writes nothing. It terminates on every
        queue; what it did is a whole number of passes of which the last was idle. */
    method DrainStreams(keys: seq<StreamId>, ghost s0: map<StreamId, Stream>)
      returns (written: seq<Byte>, removed: set<StreamId>, ghost r: Writing, ghost rounds: seq<seq<nat>>)
      requires Enumerates(keys, s0) && s0 == streams
      modifies this`streams
      ensures FullDrain(s0, keys, rounds, r)
      ensures r.streams == streams && r.removed == removed && written == Serialize(r.log)
      ensures streams.Keys == s0.Keys
    {
      ghost var log: seq<Frame> := [];
      var before: int := -1;  // usize::MAX in the source: no length equals it
      written, removed, rounds := [], {}, [];
      ghost var w := Writing(s0, [], {});
      while |written| != before
        invariant forall i :: 0 <= i < |rounds| ==> |rounds[i]| == |keys|
        invariant streams.Keys == w.streams.Keys
        invariant Writing(streams, log, removed) == Passes(w, keys, rounds)
        invariant written == Serialize(log)
        invariant before <= |written|
        invariant before == |written| ==> rounds != [] && log == Passes(w, keys, rounds[..|rounds| - 1]).log
        decreases TotalWeight(keys, streams), |written| != before
      {
        before := |written|;
        var out;
        out, removed, log, rounds := OneRound(keys, removed, w, log, rounds);
        written := written + out;
      }
      r := Writing(streams, log, removed);
    }

    /** One more pass of a drain that began at `w`. */
    method OneRound(keys: seq<StreamId>, removed0: set<StreamId>, ghost w: Writing, ghost log0: seq<Frame>,
                    ghost rounds0: seq<seq<nat>>)
      returns (out: seq<Byte>, removed: set<StreamId>, ghost log: seq<Frame>, ghost rounds: seq<seq<nat>>)
      requires Enumerates(keys, w.streams) && streams.Keys == w.streams.Keys
      requires forall i :: 0 <= i < |rounds0| ==> |rounds0[i]| == |keys|
      requires Writing(streams, log0, removed0) == Passes(w, keys, rounds0)
      modifies this`streams
      ensures streams.Keys == w.streams.Keys
      ensures |rounds| == |rounds0| + 1 && rounds[..|rounds0|] == rounds0
      ensures forall i :: 0 <= i < |rounds| ==> |rounds[i]| == |keys|
      ensures Writing(streams, log, removed) == Passes(w, keys, rounds)
      ensures Serialize(log) == Serialize(log0) + out
      ensures if out == [] then log == log0 else TotalWeight(keys, streams) < TotalWeight(keys, old(streams))
      ensures out == [] ==> TotalWeight(keys, streams) == TotalWeight(keys, old(streams))
    {
      ghost var w0 := Writing(streams, log0, removed0);
      ghost var wraps;
      EnumeratesByIndex(keys, w.streams);
      out, removed, log, wraps := Pass(keys, removed0, log0);
      PassProgress(w0, keys, wraps);
      rounds := rounds0 + [wraps];
      assert rounds[..|rounds0|] == rounds0;
    }

    /** The drain and the removals that follow it (lines 694-802). */
    method DrainAll()
        returns (written: seq<Byte>, ghost keys: seq<StreamId>, ghost rounds: seq<seq<nat>>, ghost r: Writing)
      requires Shape()
      modifies this`streams, this`ledgers
      ensures Shape() && Accounts() == Settle(old(Accounts()), r)
      ensures FullDrain(old(streams), keys, rounds, r) && written == Serialize(r.log)
    {
      var order := SortedKeys(streams);
      keys := order;
      var removed;
      written, removed, r, rounds := DrainStreams(order, streams);
      Finish(removed, r, old(Accounts()));
    }

    /** The body of `write_next` up to its write: what the session itself has to say, then what the streams have;
        streams that sent a reset are gone afterwards. */
    method Flush() returns (bytes: seq<Byte>, ghost keys: seq<StreamId>, ghost rounds: seq<seq<nat>>, ghost r: Writing)
      requires Shape()
      modifies this`streams, this`ledgers, this`writeBuf
      ensures Shape()
      ensures FullDrain(old(streams), keys, rounds, r)
      ensures bytes == old(writeBuf) + Serialize(r.log)
      ensures Model() == old(Model()).(accounts := Settle(old(Accounts()), r), writeBuf := [])
    {
      var own := writeBuf;
      writeBuf := [];
      var written;
      written, keys, rounds, r := DrainAll();
      bytes := own + written;
    }

    /** `write_next`, which keeps the session sound. */
    method WriteNext()
        returns (bytes: seq<Byte>, ghost keys: seq<StreamId>, ghost rounds: seq<seq<nat>>, ghost r: Writing)
      requires Valid()
      modifies this`streams, this`ledgers, this`writeBuf
      ensures Valid()
      ensures FullDrain(old(streams), keys, rounds, r)
      ensures bytes == old(writeBuf) + Serialize(r.log)
      ensures Model() == old(Model()).(accounts := Settle(old(Accounts()), r), writeBuf := [])
    {
      ghost var v0, s0, ledgers0 := Model(), streams, ledgers;
      bytes, keys, rounds, r := Flush();
      DrainedSound(v0, s0, ledgers0, keys, rounds, r, Model());
    }

    /** Removes the streams that sent a reset (lines 799-801). */
    method Finish(removed: set<StreamId>, ghost r: Writing, ghost before: map<StreamId, Account>)
      requires Shape() && r.streams == streams && r.removed == removed
      requires before.Keys == streams.Keys && forall id :: id in before ==> before[id].ledger == ledgers[id]
      modifies this`streams, this`ledgers
      ensures Shape() && Accounts() == Settle(before, r)
    {
      streams := streams - removed;
      ledgers := map id | id in streams :: Charge(ledgers[id], ForStream(r.log, id));
      SettledTable(streams, ledgers, old(ledgers), before, r);
    }
  }
}
