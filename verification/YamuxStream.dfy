/** One Yamux stream: its queue, its windows and what the writer does with them
    (`src/layers/yamux.rs`; Yamux specification, "Flow Control" and "Closing a stream"). */
module YamuxStream {
  import opened Bytes
  import opened Header

  const DEFAULT_WINDOW: nat := 256 * 1024
  const MAX_FRAME_SIZE: nat := 512 * 1024
  const MAX_SEND_SIZE: nat := 64 * 1024
  const USIZE_MAX: nat := U64_LIMIT - 1

  datatype OpenState = Open | FinByUs | FinByThem | Reset

  function SetFinByThem(s: OpenState): OpenState
  {
    if s.Open? || s.FinByThem? then FinByThem else Reset
  }

  function SetFinByUs(s: OpenState): OpenState
  {
    if s.Open? || s.FinByUs? then FinByUs else Reset
  }

  datatype Message =
    | AcceptMsg
    | OpenMsg
    | Data(bytes: seq<Byte>)
    | WindowUpdateMsg(delta: U32)
    | CloseMsg
    | ResetMsg

  datatype Stream = Stream(sendWindow: nat, recvWindow: nat, openState: OpenState, outbound: seq<Message>)

  const NEW_STREAM := Stream(DEFAULT_WINDOW, DEFAULT_WINDOW, Open, [])

  // ---------------------------------------------------------------------------
  // One visit of the writer to a stream
  // ---------------------------------------------------------------------------

  datatype Visited = Visited(stream: Stream, frames: seq<Frame>, remove: bool)

  /** The chunk as one or two data frames, split where the ring buffer wraps (after `wrap` bytes). */
  function DataFrames(id: StreamId, chunk: seq<Byte>, wrap: nat): seq<Frame>
    requires |chunk| <= MAX_SEND_SIZE
  {
    var a := Min(|chunk|, wrap);
    [Frame(SendData(id, a), chunk[..a])]
    + if |chunk| > a then [Frame(SendData(id, |chunk| - a), chunk[a..])] else []
  }

  /** Pops one message and turns as much of it as the window allows into frames. A data message that
      cannot move at all goes to the back of the queue. */
  function Visit(id: StreamId, s: Stream, wrap: nat): Visited
  {
    if s.outbound == [] then Visited(s, [], false)
    else
      var popped := s.(outbound := s.outbound[1..]);
      match s.outbound[0]
      case AcceptMsg => Visited(popped, [Frame(AcceptStream(id), [])], false)
      case OpenMsg => Visited(popped, [Frame(OpenStream(id), [])], false)
      case CloseMsg => Visited(popped.(openState := SetFinByUs(s.openState)), [Frame(CloseStream(id), [])], false)
      case ResetMsg => Visited(popped, [Frame(ResetStream(id), [])], true)
      case WindowUpdateMsg(d) => Visited(popped, [Frame(WindowUpdate(id, d), [])], false)
      case Data(bytes) =>
        var n := Min(Min(|bytes|, s.sendWindow), MAX_SEND_SIZE);
        if n == 0 then Visited(popped.(outbound := popped.outbound + [Data(bytes)]), [], false)
        else
          var left := if n == |bytes| then popped.outbound else [Data(bytes[n..])] + popped.outbound;
          Visited(popped.(sendWindow := s.sendWindow - n, outbound := left), DataFrames(id, bytes[..n], wrap), false)
  }

  /** One visit per pass. */
  function Visits(id: StreamId, s: Stream, wraps: seq<nat>): Visited
  {
    if wraps == [] then Visited(s, [], false)
    else
      var v := Visits(id, s, wraps[..|wraps| - 1]);
      var w := Visit(id, v.stream, wraps[|wraps| - 1]);
      Visited(w.stream, v.frames + w.frames, v.remove || w.remove)
  }

  lemma {:induction false} VisitsSnoc(id: StreamId, s: Stream, wraps: seq<nat>, wrap: nat)
    ensures var v := Visits(id, s, wraps);
            var w := Visit(id, v.stream, wrap);
            Visits(id, s, wraps + [wrap]) == Visited(w.stream, v.frames + w.frames, v.remove || w.remove)
  {
  }

  /** What goes out for a message that is not data: a window update with its flag, or with the credit granted. */
  predicate Announces(m: Message, id: StreamId, f: Frame)
  {
    && f.payload == [] && f.header.version == 0 && f.header.frameType.WindowUpdateFrame? && f.header.streamId == id
    && match m
       case OpenMsg => f.header.flags == 1 && f.header.length == 0
       case AcceptMsg => f.header.flags == 2 && f.header.length == 0
       case CloseMsg => f.header.flags == 4 && f.header.length == 0
       case ResetMsg => f.header.flags == 8 && f.header.length == 0
       case WindowUpdateMsg(delta) => f.header.flags == 0 && f.header.length == delta
       case Data(_) => false
  }

  /** A visit to a stream whose next message is not data: it goes out, and a close ends our half. */
  lemma {:induction false} VisitAnnounces(id: StreamId, s: Stream, wrap: nat)
    requires s.outbound != [] && !s.outbound[0].Data?
    ensures var v, m := Visit(id, s, wrap), s.outbound[0];
            && |v.frames| == 1 && Announces(m, id, v.frames[0]) && v.remove == m.ResetMsg?
            && v.stream.outbound == s.outbound[1..]
            && v.stream.sendWindow == s.sendWindow && v.stream.recvWindow == s.recvWindow
            && v.stream.openState == (if !m.CloseMsg? then s.openState
                                      else if s.openState.Open? || s.openState.FinByUs? then FinByUs else Reset)
  {
  }

  /** A visit to one whose next message is data: as much of it goes out as the window and 64 KiB allow, and what is
      left stays first, or goes last when nothing went out. */
  lemma {:induction false} VisitSends(id: StreamId, s: Stream, wrap: nat)
    requires s.outbound != [] && s.outbound[0].Data?
    ensures var v, bytes, rest := Visit(id, s, wrap), s.outbound[0].bytes, s.outbound[1..];
            var n := Min(Min(|bytes|, s.sendWindow), 0x1_0000);
            && Payloads(v.frames) == bytes[..n] && v.stream.sendWindow == s.sendWindow - n && !v.remove
            && v.stream.openState == s.openState && v.stream.recvWindow == s.recvWindow
            && v.stream.outbound == (if n == 0 then rest + [Data(bytes)]
                                     else if n < |bytes| then [Data(bytes[n..])] + rest else rest)
            && forall f :: f in v.frames ==> f.header == YamuxHeader(0, DataFrame, 0, id, |f.payload|)
  {
    var bytes := s.outbound[0].bytes;
    var n := Min(Min(|bytes|, s.sendWindow), 0x1_0000);
    if n > 0 { PayloadsOfChunk(id, bytes[..n], wrap); }
  }

  function Payloads(frames: seq<Frame>): seq<Byte>
  {
    if frames == [] then [] else frames[0].payload + Payloads(frames[1..])
  }

  lemma {:induction false} PayloadsOfChunk(id: StreamId, chunk: seq<Byte>, wrap: nat)
    requires |chunk| <= MAX_SEND_SIZE
    ensures Payloads(DataFrames(id, chunk, wrap)) == chunk
  {
    var a := Min(|chunk|, wrap);
    var first, second := Frame(SendData(id, a), chunk[..a]), Frame(SendData(id, |chunk| - a), chunk[a..]);
    assert Payloads([second]) == second.payload + Payloads([second][1..]) && [second][1..] == [];
    assert [first, second][1..] == [second] && [first][1..] == [];
    assert chunk[..a] + chunk[a..] == chunk;
    assert chunk[..a] + [] == chunk[..a];
    assert Payloads([first]) == chunk[..a] + Payloads([]);
    assert Payloads([first, second]) == chunk[..a] + Payloads([second]);
  }

  /** The frames the writer makes: small data frames without flags, and window updates with at most one. */
  ghost predicate Made(f: Frame)
  {
    && WellFormed(f)
    && match f.header.frameType
       case DataFrame => f.header.flags == 0 && |f.payload| <= MAX_SEND_SIZE
       case WindowUpdateFrame => f.header.flags in {0, SYN, ACK, FIN, RST}
       case _ => false
  }

  /** Every frame the writer makes is well formed, so its bytes parse back (`ParseSerialize`). */
  lemma {:induction false} VisitWellFormed(id: StreamId, s: Stream, wrap: nat)
    ensures forall f :: f in Visit(id, s, wrap).frames ==> Made(f) && f.header.streamId == id
  {
  }

  lemma {:induction false} VisitsWellFormed(id: StreamId, s: Stream, wraps: seq<nat>)
    ensures forall f :: f in Visits(id, s, wraps).frames ==> Made(f) && f.header.streamId == id
  {
    if wraps != [] {
      VisitsWellFormed(id, s, wraps[..|wraps| - 1]);
      VisitWellFormed(id, Visits(id, s, wraps[..|wraps| - 1]).stream, wraps[|wraps| - 1]);
    }
  }

  // ---------------------------------------------------------------------------
  // Amounts
  // ---------------------------------------------------------------------------

  function PayloadBytes(frames: seq<Frame>): nat
  {
    if frames == [] then 0 else |frames[0].payload| + PayloadBytes(frames[1..])
  }

  predicate IsCredit(f: Frame) { f.header.frameType.WindowUpdateFrame? && f.header.flags == 0 }

  /** The window updates among the frames. */
  function CreditGranted(frames: seq<Frame>): nat
  {
    if frames == [] then 0
      else (if IsCredit(frames[0]) then frames[0].header.length else 0) + CreditGranted(frames[1..])
  }

  /** The window updates still waiting in a queue. */
  function CreditQueued(q: seq<Message>): nat
  {
    if q == [] then 0 else (if q[0].WindowUpdateMsg? then q[0].delta else 0) + CreditQueued(q[1..])
  }

  /** What is left to write: bytes of data, one for any other message. */
  function Weight(q: seq<Message>): nat
  {
    if q == [] then 0 else (if q[0].Data? then |q[0].bytes| else 1) + Weight(q[1..])
  }

  lemma {:induction false} FrameSums(a: seq<Frame>, b: seq<Frame>)
    ensures PayloadBytes(a + b) == PayloadBytes(a) + PayloadBytes(b)
    ensures CreditGranted(a + b) == CreditGranted(a) + CreditGranted(b)
  {
    if a == [] {
      assert a + b == b;
    } else {
      assert (a + b)[1..] == a[1..] + b;
      FrameSums(a[1..], b);
    }
  }

  lemma {:induction false} QueueSums(a: seq<Message>, b: seq<Message>)
    ensures CreditQueued(a + b) == CreditQueued(a) + CreditQueued(b)
    ensures Weight(a + b) == Weight(a) + Weight(b)
  {
    if a == [] {
      assert a + b == b;
    } else {
      assert (a + b)[1..] == a[1..] + b;
      QueueSums(a[1..], b);
    }
  }

  lemma {:induction false} DataFrameSums(id: StreamId, chunk: seq<Byte>, wrap: nat)
    requires |chunk| <= MAX_SEND_SIZE
    ensures PayloadBytes(DataFrames(id, chunk, wrap)) == |chunk|
    ensures CreditGranted(DataFrames(id, chunk, wrap)) == 0
  {
    var a := Min(|chunk|, wrap);
    var first, second := Frame(SendData(id, a), chunk[..a]), Frame(SendData(id, |chunk| - a), chunk[a..]);
    assert PayloadBytes([second]) == |chunk| - a && CreditGranted([second]) == 0;
    FrameSums([first], [second]);
    assert PayloadBytes([first]) == a && CreditGranted([first]) == 0;
  }

  /** A visit moves bytes from the window to the wire and credit from the queue to the wire; it either
      writes something, and then there is less left to write, or writes nothing and loses nothing. */
  lemma {:induction false} VisitAmounts(id: StreamId, s: Stream, wrap: nat)
    ensures var v := Visit(id, s, wrap);
            && PayloadBytes(v.frames) + v.stream.sendWindow == s.sendWindow
            && CreditGranted(v.frames) + CreditQueued(v.stream.outbound) == CreditQueued(s.outbound)
            && PayloadBytes(v.frames) <= MAX_SEND_SIZE
            && (v.frames == [] ==> Weight(v.stream.outbound) == Weight(s.outbound))
            && (v.frames != [] ==> Weight(v.stream.outbound) < Weight(s.outbound))
            && v.stream.recvWindow == s.recvWindow
  {
    if s.outbound != [] && s.outbound[0].Data? {
      var bytes, rest := s.outbound[0].bytes, s.outbound[1..];
      var n := Min(Min(|bytes|, s.sendWindow), MAX_SEND_SIZE);
      if n == 0 {
        QueueSums(rest, [Data(bytes)]);
        assert Weight([Data(bytes)]) == |bytes| && CreditQueued([Data(bytes)]) == 0;
      } else {
        DataFrameSums(id, bytes[..n], wrap);
        assert ([Data(bytes[n..])] + rest)[1..] == rest;
      }
    } else if s.outbound != [] {
      var v := Visit(id, s, wrap);
      assert v.frames == [v.frames[0]];
      assert PayloadBytes(v.frames) == |v.frames[0].payload| + PayloadBytes([]);
      assert CreditGranted(v.frames)
        == (if IsCredit(v.frames[0]) then v.frames[0].header.length else 0) + CreditGranted([]);
    }
  }

  // ---------------------------------------------------------------------------
  // Order on the wire
  // ---------------------------------------------------------------------------

  /** The order a stream's user asked for, byte by byte and message by message. */
  datatype Item = Octet(b: Byte) | Control(msg: Message)

  function Octets(bytes: seq<Byte>): (r: seq<Item>)
    ensures |r| == |bytes| && forall i :: 0 <= i < |r| ==> r[i] == Octet(bytes[i])
  {
    seq(|bytes|, i requires 0 <= i < |bytes| => Octet(bytes[i]))
  }

  function ItemsOf(m: Message): seq<Item> { if m.Data? then Octets(m.bytes) else [Control(m)] }

  function Queued(q: seq<Message>): seq<Item>
  {
    if q == [] then [] else ItemsOf(q[0]) + Queued(q[1..])
  }

  /** What a peer makes of a frame on this stream. */
  function ItemsIn(f: Frame): seq<Item>
  {
    if f.header.frameType.DataFrame? then Octets(f.payload)
    else if f.header.flags == SYN then [Control(OpenMsg)]
    else if f.header.flags == ACK then [Control(AcceptMsg)]
    else if f.header.flags == FIN then [Control(CloseMsg)]
    else if f.header.flags == RST then [Control(ResetMsg)]
    else [Control(WindowUpdateMsg(f.header.length))]
  }

  function Written(frames: seq<Frame>): seq<Item>
  {
    if frames == [] then [] else ItemsIn(frames[0]) + Written(frames[1..])
  }

  lemma {:induction false} WrittenAppend(a: seq<Frame>, b: seq<Frame>)
    ensures Written(a + b) == Written(a) + Written(b)
  {
    if a == [] {
      assert a + b == b;
    } else {
      assert (a + b)[1..] == a[1..] + b;
      WrittenAppend(a[1..], b);
      Assoc(ItemsIn(a[0]), Written(a[1..]), Written(b));
    }
  }

  lemma {:induction false} WrittenData(id: StreamId, chunk: seq<Byte>, wrap: nat)
    requires |chunk| <= MAX_SEND_SIZE
    ensures Written(DataFrames(id, chunk, wrap)) == Octets(chunk)
  {
    var a := Min(|chunk|, wrap);
    var first, second := Frame(SendData(id, a), chunk[..a]), Frame(SendData(id, |chunk| - a), chunk[a..]);
    WrittenOne(first);
    WrittenOne(second);
    WrittenAppend([first], [second]);
    OctetsHalves(chunk, a);
  }

  lemma {:induction false} OctetsHalves(bytes: seq<Byte>, k: nat)
    requires k <= |bytes|
    ensures Octets(bytes[..k]) + Octets(bytes[k..]) == Octets(bytes)
  {
  }

  /** No empty data message, and no two data messages side by side: what `send_data` builds, since it
      extends a data message at the back of the queue. */
  ghost predicate WellQueued(q: seq<Message>)
  {
    && (forall i :: 0 <= i < |q| && q[i].Data? ==> q[i].bytes != [])
    && (forall i :: 0 <= i < |q| - 1 && q[i].Data? ==> !q[i + 1].Data?)
  }

  /** Every data message that has something queued behind it fits in the window, after the data ahead. */
  predicate Fits(q: seq<Message>, window: nat)
  {
    if |q| <= 1 then true
    else if q[0].Data? then |q[0].bytes| <= window && Fits(q[1..], window - |q[0].bytes|)
    else Fits(q[1..], window)
  }

  /** Written so far, then still queued, is what was queued at first. */
  ghost predicate InOrder(id: StreamId, s: Stream, wraps: seq<nat>)
  {
    var v := Visits(id, s, wraps);
    Written(v.frames) + Queued(v.stream.outbound) == Queued(s.outbound)
  }

  /** The writer turns to a data message it cannot start while others wait behind it. */
  predicate Overtakes(s: Stream)
  {
    |s.outbound| > 1 && s.outbound[0].Data? && s.outbound[0].bytes != [] && s.sendWindow == 0
  }

  /** A visit keeps the order unless a blocked data message is sent to the back. */
  lemma {:induction false} VisitKeepsOrder(id: StreamId, s: Stream, wrap: nat)
    requires !Overtakes(s)
    ensures var v := Visit(id, s, wrap); Written(v.frames) + Queued(v.stream.outbound) == Queued(s.outbound)
  {
    if s.outbound != [] {
      if !s.outbound[0].Data? {
        ControlKeepsOrder(id, s, wrap);
      } else if Min(Min(|s.outbound[0].bytes|, s.sendWindow), MAX_SEND_SIZE) > 0 {
        DataKeepsOrder(id, s, wrap);
      } else {
        var bytes, rest := s.outbound[0].bytes, s.outbound[1..];
        QueuedSnoc(rest, Data(bytes));
        assert Octets(bytes) + Queued(rest) == Queued(rest) + Octets(bytes);
      }
    }
  }

  lemma {:induction false} ControlKeepsOrder(id: StreamId, s: Stream, wrap: nat)
    requires s.outbound != [] && !s.outbound[0].Data?
    ensures var v := Visit(id, s, wrap); Written(v.frames) + Queued(v.stream.outbound) == Queued(s.outbound)
  {
    var v := Visit(id, s, wrap);
    assert v.frames == [v.frames[0]];
    WrittenOne(v.frames[0]);
  }

  lemma {:induction false} WrittenOne(f: Frame)
    ensures Written([f]) == ItemsIn(f)
  {
    assert [f][1..] == [];
    assert Written([f]) == ItemsIn(f) + Written([]);
  }

  lemma {:induction false} DataKeepsOrder(id: StreamId, s: Stream, wrap: nat)
    requires s.outbound != [] && s.outbound[0].Data? && Min(Min(|s.outbound[0].bytes|, s.sendWindow), MAX_SEND_SIZE) > 0
    ensures var v := Visit(id, s, wrap); Written(v.frames) + Queued(v.stream.outbound) == Queued(s.outbound)
  {
    var bytes, rest := s.outbound[0].bytes, s.outbound[1..];
    var n := Min(Min(|bytes|, s.sendWindow), MAX_SEND_SIZE);
    WrittenData(id, bytes[..n], wrap);
    QueuedPart(bytes, n, rest);
    if n == |bytes| { assert bytes[..n] == bytes; }
  }

  /** A data message cut in two carries the same. */
  lemma {:induction false} QueuedPart(bytes: seq<Byte>, n: nat, rest: seq<Message>)
    requires n <= |bytes|
    ensures Octets(bytes[..n]) + Queued([Data(bytes[n..])] + rest) == Octets(bytes) + Queued(rest)
  {
    assert ([Data(bytes[n..])] + rest)[1..] == rest;
    assert Octets(bytes) == Octets(bytes[..n]) + Octets(bytes[n..]);
    Assoc(Octets(bytes[..n]), Octets(bytes[n..]), Queued(rest));
  }

  lemma {:induction false} QueuedSnoc(q: seq<Message>, m: Message)
    ensures Queued(q + [m]) == Queued(q) + ItemsOf(m)
  {
    if q == [] {
      assert q + [m] == [m];
      assert Queued([m]) == ItemsOf(m) + Queued([]);
    } else {
      assert (q + [m])[1..] == q[1..] + [m];
      QueuedSnoc(q[1..], m);
      Assoc(ItemsOf(q[0]), Queued(q[1..]), ItemsOf(m));
    }
  }

  /** A visit that does not overtake keeps the queue well formed and keeps `Fits` as it was. */
  lemma {:induction false} VisitKeepsFits(id: StreamId, s: Stream, wrap: nat)
    requires WellQueued(s.outbound) && !Overtakes(s)
    ensures var v := Visit(id, s, wrap).stream;
            WellQueued(v.outbound) && (Fits(v.outbound, v.sendWindow) <==> Fits(s.outbound, s.sendWindow))
  {
  }

  lemma {:induction false} FittingVisitsKeepOrder(id: StreamId, s: Stream, wraps: seq<nat>)
    requires WellQueued(s.outbound) && Fits(s.outbound, s.sendWindow)
    ensures InOrder(id, s, wraps)
    ensures var v := Visits(id, s, wraps).stream; WellQueued(v.outbound) && Fits(v.outbound, v.sendWindow)
  {
    if wraps != [] {
      var init, wrap := wraps[..|wraps| - 1], wraps[|wraps| - 1];
      FittingVisitsKeepOrder(id, s, init);
      var v := Visits(id, s, init);
      assert !Overtakes(v.stream);
      OrderStep(id, s, init, wrap);
      VisitKeepsFits(id, v.stream, wrap);
    }
  }

  lemma {:induction false} OrderStep(id: StreamId, s: Stream, init: seq<nat>, wrap: nat)
    requires InOrder(id, s, init) && !Overtakes(Visits(id, s, init).stream)
    ensures InOrder(id, s, init + [wrap])
  {
    var v := Visits(id, s, init);
    VisitsSnoc(id, s, init, wrap);
    var w := Visit(id, v.stream, wrap);
    VisitKeepsOrder(id, v.stream, wrap);
    WrittenAppend(v.frames, w.frames);
    Assoc(Written(v.frames), Written(w.frames), Queued(w.stream.outbound));
  }

  /** At item `k` the user asked for a byte, and a control message is there or about to be. */
  ghost predicate Scrambled(orig: seq<Item>, sent: seq<Item>, q: seq<Message>, k: nat)
  {
    && k < |orig| && orig[k].Octet?
    && k <= |sent|
    && (k < |sent| ==> sent[k].Control?)
    && (k == |sent| ==> q != [] && !q[0].Data?)
  }

  lemma {:induction false} ScrambledIsOutOfOrder(orig: seq<Item>, sent: seq<Item>, q: seq<Message>, k: nat)
    requires Scrambled(orig, sent, q, k)
    ensures sent + Queued(q) != orig
  {
  }

  lemma {:induction false} ScrambledStays(id: StreamId, s: Stream, wrap: nat, orig: seq<Item>, sent: seq<Item>, k: nat)
    requires Scrambled(orig, sent, s.outbound, k)
    ensures var v := Visit(id, s, wrap); Scrambled(orig, sent + Written(v.frames), v.stream.outbound, k)
  {
  }

  /** Sending a blocked data message to the back lets the control message behind it go first. */
  lemma {:induction false} OvertakingScrambles(id: StreamId, s: Stream, wrap: nat, sent: seq<Item>)
    requires WellQueued(s.outbound) && Overtakes(s)
    ensures var v := Visit(id, s, wrap);
            && v.frames == []
            && Scrambled(sent + Queued(s.outbound), sent, v.stream.outbound, |sent|)
  {
  }

  /** Once the queue does not fit, the order holds only until the writer reaches the message that
      overflows. */
  lemma {:induction false} OverflowScrambles(id: StreamId, s: Stream, wraps: seq<nat>) returns (k: nat)
    requires WellQueued(s.outbound) && !Fits(s.outbound, s.sendWindow)
    ensures var v := Visits(id, s, wraps);
            || Scrambled(Queued(s.outbound), Written(v.frames), v.stream.outbound, k)
            || (InOrder(id, s, wraps) && WellQueued(v.stream.outbound) && !Fits(v.stream.outbound, v.stream.sendWindow))
    ensures wraps != [] && Visit(id, Visits(id, s, wraps[..|wraps| - 1]).stream, wraps[|wraps| - 1]).frames == [] ==>
              var v := Visits(id, s, wraps);
              Scrambled(Queued(s.outbound), Written(v.frames), v.stream.outbound, k)
  {
    if wraps == [] {
      k := 0;
    } else {
      var init, wrap := wraps[..|wraps| - 1], wraps[|wraps| - 1];
      assert wraps == init + [wrap];
      k := OverflowScrambles(id, s, init);
      k := OverflowStep(id, s, init, wrap, k);
    }
  }

  lemma {:induction false} OverflowStep(id: StreamId, s: Stream, init: seq<nat>, wrap: nat, k0: nat) returns (k: nat)
    requires var v := Visits(id, s, init);
             || Scrambled(Queued(s.outbound), Written(v.frames), v.stream.outbound, k0)
             || (InOrder(id, s, init) && WellQueued(v.stream.outbound) && !Fits(v.stream.outbound, v.stream.sendWindow))
    ensures var v := Visits(id, s, init + [wrap]);
            || Scrambled(Queued(s.outbound), Written(v.frames), v.stream.outbound, k)
            || (InOrder(id, s, init + [wrap]) && WellQueued(v.stream.outbound)
                && !Fits(v.stream.outbound, v.stream.sendWindow)
                && Visit(id, Visits(id, s, init).stream, wrap).frames != [])
  {
    var v := Visits(id, s, init);
    var w := Visit(id, v.stream, wrap);
    VisitsSnoc(id, s, init, wrap);
    WrittenAppend(v.frames, w.frames);
    k := k0;
    if Scrambled(Queued(s.outbound), Written(v.frames), v.stream.outbound, k0) {
      ScrambledStays(id, v.stream, wrap, Queued(s.outbound), Written(v.frames), k0);
    } else if Overtakes(v.stream) {
      OvertakingScrambles(id, v.stream, wrap, Written(v.frames));
      k := |Written(v.frames)|;
      assert Written(v.frames) + Written([]) == Written(v.frames);
    } else {
      OrderStep(id, s, init, wrap);
      VisitKeepsFits(id, v.stream, wrap);
    }
  }

  /** The writer stopped because its last pass wrote nothing on this stream. */
  ghost predicate Stopped(id: StreamId, s: Stream, wraps: seq<nat>)
  {
    wraps != [] && Visit(id, Visits(id, s, wraps[..|wraps| - 1]).stream, wraps[|wraps| - 1]).frames == []
  }

  /** A drain keeps a stream's messages and bytes in order exactly when every data message with
      something queued behind it fits in the send window, however the ring buffers were split. */
  lemma {:induction false} OrderExactlyWhenFits(id: StreamId, s: Stream, wraps: seq<nat>)
    requires WellQueued(s.outbound) && Stopped(id, s, wraps)
    ensures InOrder(id, s, wraps) <==> Fits(s.outbound, s.sendWindow)
  {
    if Fits(s.outbound, s.sendWindow) {
      FittingVisitsKeepOrder(id, s, wraps);
    } else {
      var k := OverflowScrambles(id, s, wraps);
      var v := Visits(id, s, wraps);
      ScrambledIsOutOfOrder(Queued(s.outbound), Written(v.frames), v.stream.outbound, k);
    }
  }

  /** The failure in full: one byte is blocked, FIN is queued behind it, and FIN is written first. */
  lemma {:induction false} CloseOvertakesBlockedData(id: StreamId)
    ensures var s := Stream(0, DEFAULT_WINDOW, Open, [Data([7]), CloseMsg]);
            && WellQueued(s.outbound)
            && Visits(id, s, [0, 0]).frames == [Frame(CloseStream(id), [])]
            && Visits(id, s, [0, 0]).stream.outbound == [Data([7])]
  {
    var s := Stream(0, DEFAULT_WINDOW, Open, [Data([7]), CloseMsg]);
    VisitsSnoc(id, s, [], 0);
    assert [] + [0] == [0];
    VisitsSnoc(id, s, [0], 0);
    assert [0] + [0] == [0, 0];
    assert [CloseMsg] + [Data([7])] == [CloseMsg, Data([7])];
  }

  // ---------------------------------------------------------------------------
  // Work conservation
  // ---------------------------------------------------------------------------

  ghost predicate NoEmptyData(q: seq<Message>)
  {
    forall i :: 0 <= i < |q| && q[i].Data? ==> q[i].bytes != []
  }

  lemma {:induction false} VisitsKeepNoEmptyData(id: StreamId, s: Stream, wraps: seq<nat>)
    requires NoEmptyData(s.outbound)
    ensures NoEmptyData(Visits(id, s, wraps).stream.outbound)
  {
    if wraps != [] {
      VisitsKeepNoEmptyData(id, s, wraps[..|wraps| - 1]);
    }
  }

  /** When the writer stops, a stream with something still queued has no send window left. */
  lemma {:induction false} StopsOnlyWhenBlocked(id: StreamId, s: Stream, wraps: seq<nat>)
    requires NoEmptyData(s.outbound) && Stopped(id, s, wraps)
    ensures var t := Visits(id, s, wraps).stream; t.outbound == [] || t.sendWindow == 0
  {
    VisitsKeepNoEmptyData(id, s, wraps[..|wraps| - 1]);
  }
}
