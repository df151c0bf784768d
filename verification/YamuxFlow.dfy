/** What the session's calls and the peer's frames do to one stream, and the flow-control ledger that
    every such step keeps (`src/layers/yamux.rs`; Yamux specification, "Flow Control"). */
module YamuxFlow {
  import opened Bytes
  import opened Header
  import opened YamuxStream

  // ---------------------------------------------------------------------------
  // Calls
  // ---------------------------------------------------------------------------

  /** `send_data`: extends a data message at the back, or adds one; refused behind Close or Reset. */
  function QueueData(s: Stream, data: seq<Byte>): Option<Stream>
  {
    if s.outbound == [] then Some(s.(outbound := [Data(data)]))
    else
      var last := |s.outbound| - 1;
      match s.outbound[last]
      case Data(bytes) => Some(s.(outbound := s.outbound[..last] + [Data(bytes + data)]))
      case AcceptMsg => Some(s.(outbound := s.outbound + [Data(data)]))
      case OpenMsg => Some(s.(outbound := s.outbound + [Data(data)]))
      case WindowUpdateMsg(_) => Some(s.(outbound := s.outbound + [Data(data)]))
      case CloseMsg => None
      case ResetMsg => None
  }

  /** `close_stream`. */
  function QueueClose(s: Stream): Stream
  {
    if s.outbound != [] && s.outbound[|s.outbound| - 1].CloseMsg? then s
    else s.(outbound := s.outbound + [CloseMsg])
  }

  /** `close_stream_immediately`. */
  function CloseNow(s: Stream): Stream { s.(openState := SetFinByUs(s.openState), outbound := [CloseMsg]) }

  /** `reset_stream_immediately`. */
  function ResetNow(s: Stream): Stream { s.(openState := Reset, outbound := [ResetMsg]) }

  /** Queued data is appended to what the user asked for before, byte for byte. */
  lemma {:induction false} QueueDataAppends(s: Stream, data: seq<Byte>)
    requires QueueData(s, data).Some?
    ensures Queued(QueueData(s, data).value.outbound) == Queued(s.outbound) + Octets(data)
    ensures CreditQueued(QueueData(s, data).value.outbound) == CreditQueued(s.outbound)
  {
    var q := s.outbound;
    if q != [] && q[|q| - 1].Data? {
      assert q == q[..|q| - 1] + [q[|q| - 1]];
      ExtendLast(q[..|q| - 1], q[|q| - 1].bytes, data);
    } else {
      assert q + [Data(data)] == if q == [] then [Data(data)] else q + [Data(data)];
      QueuedSnoc(q, Data(data));
      PushedCredit(q, Data(data));
    }
  }

  /** ... and the queue keeps the shape that `send_data` builds. */
  lemma {:induction false} QueueDataKeepsShape(s: Stream, data: seq<Byte>)
    requires QueueData(s, data).Some? && WellQueued(s.outbound) && data != []
    ensures WellQueued(QueueData(s, data).value.outbound)
  {
  }

  lemma {:induction false} ExtendLast(init: seq<Message>, bytes: seq<Byte>, data: seq<Byte>)
    ensures Queued(init + [Data(bytes + data)]) == Queued(init + [Data(bytes)]) + Octets(data)
    ensures CreditQueued(init + [Data(bytes + data)]) == CreditQueued(init + [Data(bytes)])
  {
    QueuedSnoc(init, Data(bytes));
    QueuedSnoc(init, Data(bytes + data));
    assert Octets(bytes + data) == Octets(bytes) + Octets(data);
    Assoc(Queued(init), Octets(bytes), Octets(data));
    PushedCredit(init, Data(bytes));
    PushedCredit(init, Data(bytes + data));
  }

  // ---------------------------------------------------------------------------
  // Frames from the peer
  // ---------------------------------------------------------------------------

  datatype Reception = Rejected | Ignored | Kept(stream: Stream) | Removed

  /** A data frame of `len` bytes on a known stream. */
  function OnData(s: Stream, flags: U16, len: nat): Reception
    requires len <= MAX_FRAME_SIZE
  {
    match s.openState
    case FinByThem => Rejected
    case Reset => Ignored
    case _ =>
      var left := if len <= s.recvWindow then s.recvWindow - len else 0;
      if Contains(flags, RST) then Removed
      else if Contains(flags, FIN) then Kept(s.(recvWindow := left, openState := FinByThem))
      else if left < MAX_FRAME_SIZE / 2 then
        Kept(s.(recvWindow := MAX_FRAME_SIZE, outbound := s.outbound + [WindowUpdateMsg(MAX_FRAME_SIZE - left)]))
      else Kept(s.(recvWindow := left))
  }

  /** A window update on a known stream. */
  function OnWindowUpdate(s: Stream, flags: U16, len: U32): Reception
  {
    if s.openState.Reset? then Ignored
    else
      var s' := s.(sendWindow := Min(s.sendWindow + len, USIZE_MAX));
      if Contains(flags, RST) then Removed
      else if Contains(flags, FIN) then Kept(s'.(openState := SetFinByThem(s.openState)))
      else Kept(s')
  }

  // ---------------------------------------------------------------------------
  // The ledger
  // ---------------------------------------------------------------------------

  /** Totals over a stream's life: payload written and window updates received; payload received and
      window updates written; updates discarded with a cleared queue; payload beyond the window. */
  datatype Ledger = Ledger(sent: nat, credited: nat, received: nat, granted: nat, dropped: nat, excess: nat)

  const NEW_LEDGER := Ledger(0, 0, 0, 0, 0, 0)

  datatype Account = Account(stream: Stream, ledger: Ledger)

  datatype StreamEvent =
    | Send(data: seq<Byte>)
    | AskClose
    | AskCloseNow
    | AskReset
    | DataIn(flags: U16, len: nat)
    | UpdateIn(flags: U16, delta: U32)
    | WriterVisit(wrap: nat)

  /** Writing `frames` moves payload and credit to the wire. */
  function Charge(l: Ledger, frames: seq<Frame>): Ledger
  {
    l.(sent := l.sent + PayloadBytes(frames), granted := l.granted + CreditGranted(frames))
  }

  function Discard(l: Ledger, q: seq<Message>): Ledger { l.(dropped := l.dropped + CreditQueued(q)) }

  /** Payload delivered to the stream, and how much of it the window did not cover. */
  function Receive(l: Ledger, s: Stream, len: nat): Ledger
  {
    l.(received := l.received + len, excess := l.excess + if len <= s.recvWindow then 0 else len - s.recvWindow)
  }

  /** One event in the life of a stream; None once the stream is gone. */
  function Apply(id: StreamId, a: Account, e: StreamEvent): Option<Account>
  {
    var s, l := a.stream, a.ledger;
    match e
    case Send(data) => (match QueueData(s, data) case Some(s') => Some(Account(s', l)) case None => Some(a))
    case AskClose => Some(Account(QueueClose(s), l))
    case AskCloseNow => Some(Account(CloseNow(s), Discard(l, s.outbound)))
    case AskReset => Some(Account(ResetNow(s), Discard(l, s.outbound)))
    case DataIn(flags, len) =>
      if len > MAX_FRAME_SIZE then None
      else (match OnData(s, flags, len)
        case Rejected => None
        case Ignored => Some(a)
        case Kept(s') => Some(Account(s', Receive(l, s, len)))
        case Removed => None)
    case UpdateIn(flags, delta) =>
      (match OnWindowUpdate(s, flags, delta)
        case Kept(s') => Some(Account(s', l.(credited := l.credited + delta)))
        case Ignored => Some(a)
        case _ => None)
    case WriterVisit(wrap) =>
      var v := Visit(id, s, wrap);
      if v.remove then None else Some(Account(v.stream, Charge(l, v.frames)))
  }

  ghost predicate SendBalanced(a: Account)
  {
    var s, l := a.stream, a.ledger;
    && s.sendWindow <= USIZE_MAX
    && l.sent + s.sendWindow <= DEFAULT_WINDOW + l.credited
    && (DEFAULT_WINDOW + l.credited <= USIZE_MAX ==> l.sent + s.sendWindow == DEFAULT_WINDOW + l.credited)
  }

  ghost predicate ReceiveBalanced(a: Account)
  {
    var s, l := a.stream, a.ledger;
    && s.recvWindow + l.received == DEFAULT_WINDOW + l.granted + CreditQueued(s.outbound) + l.dropped + l.excess
    && s.recvWindow <= MAX_FRAME_SIZE
    && (s.openState.Open? || s.openState.FinByUs? ==> DEFAULT_WINDOW <= s.recvWindow)
  }

  ghost predicate Balanced(a: Account) { SendBalanced(a) && ReceiveBalanced(a) }

  lemma {:induction false} PushedCredit(q: seq<Message>, m: Message)
    ensures CreditQueued(q + [m]) == CreditQueued(q) + (if m.WindowUpdateMsg? then m.delta else 0)
  {
    QueueSums(q, [m]);
    assert CreditQueued([m]) == (if m.WindowUpdateMsg? then m.delta else 0) + CreditQueued([]);
  }

  lemma {:induction false} ReceivingKeepsBalance(id: StreamId, a: Account, flags: U16, len: nat)
    requires Balanced(a)
    ensures var r := Apply(id, a, DataIn(flags, len)); r.Some? ==> Balanced(r.value)
  {
    var left := if len <= a.stream.recvWindow then a.stream.recvWindow - len else 0;
    if left < MAX_FRAME_SIZE / 2 {
      PushedCredit(a.stream.outbound, WindowUpdateMsg(MAX_FRAME_SIZE - left));
    }
  }

  lemma {:induction false} VisitKeepsBalance(id: StreamId, a: Account, wrap: nat)
    requires Balanced(a)
    ensures var v := Visit(id, a.stream, wrap); Balanced(Account(v.stream, Charge(a.ledger, v.frames)))
  {
    VisitAmounts(id, a.stream, wrap);
  }

  /** Every step of a stream keeps both ledgers. */
  lemma {:induction false} ApplyKeepsBalance(id: StreamId, a: Account, e: StreamEvent)
    requires Balanced(a)
    ensures var r := Apply(id, a, e); r.Some? ==> Balanced(r.value)
  {
    match e
    case Send(data) =>
      if QueueData(a.stream, data).Some? { QueueDataAppends(a.stream, data); }
    case AskClose => PushedCredit(a.stream.outbound, CloseMsg);
    case AskCloseNow => PushedCredit([], CloseMsg); assert [] + [CloseMsg] == [CloseMsg];
    case AskReset => PushedCredit([], ResetMsg); assert [] + [ResetMsg] == [ResetMsg];
    case DataIn(flags, len) => ReceivingKeepsBalance(id, a, flags, len);
    case UpdateIn(_, _) =>
    case WriterVisit(wrap) => VisitKeepsBalance(id, a, wrap);
  }

  function Life(id: StreamId, a: Account, events: seq<StreamEvent>): Option<Account>
    decreases |events|
  {
    if events == [] then Some(a)
    else match Apply(id, a, events[0])
      case None => None
      case Some(a') => Life(id, a', events[1..])
  }

  /** Over every run of a stream: payload written plus the send window is the 256 KiB start plus the
      window updates received (never more, and equal unless the sum passes the word size), and the
      receive window of a stream the peer may still send on stays within [256 KiB, 512 KiB]. */
  lemma {:induction false} LedgersBalanceOverEveryLife(id: StreamId, a: Account, events: seq<StreamEvent>)
    requires Balanced(a)
    ensures Life(id, a, events).Some? ==> Balanced(Life(id, a, events).value)
    decreases |events|
  {
    if events != [] {
      ApplyKeepsBalance(id, a, events[0]);
      var next := Apply(id, a, events[0]);
      if next.Some? { LedgersBalanceOverEveryLife(id, next.value, events[1..]); }
    }
  }

  lemma {:induction false} NewStreamBalanced(first: Message)
    requires first.OpenMsg? || first.AcceptMsg?
    ensures Balanced(Account(NEW_STREAM.(outbound := [first]), NEW_LEDGER))
  {
  }

  /** What the peer may still send, from the updates that reached the wire. */
  function PeerCredit(l: Ledger): int { DEFAULT_WINDOW + l.granted - l.received }

  /** An event that loses no credit: a queue is discarded only when it holds no window update, and data
      is taken in only as far as the window covers it. */
  predicate Harmless(a: Account, e: StreamEvent)
  {
    match e
    case AskCloseNow => CreditQueued(a.stream.outbound) == 0
    case AskReset => CreditQueued(a.stream.outbound) == 0
    case DataIn(_, len) => a.stream.openState.Reset? || len <= a.stream.recvWindow
    case _ => true
  }

  predicate AllHarmless(id: StreamId, a: Account, events: seq<StreamEvent>)
    decreases |events|
  {
    events != [] ==>
      && Harmless(a, events[0])
      && (Apply(id, a, events[0]).Some? ==> AllHarmless(id, Apply(id, a, events[0]).value, events[1..]))
  }

  function Lost(l: Ledger): nat { l.dropped + l.excess }

  /** Credit once lost is not found again, and is lost by exactly the events that are not harmless. */
  lemma {:induction false} StepLoses(id: StreamId, a: Account, e: StreamEvent)
    requires Apply(id, a, e).Some?
    ensures Lost(Apply(id, a, e).value.ledger) >= Lost(a.ledger)
    ensures Lost(Apply(id, a, e).value.ledger) == Lost(a.ledger) <==> Harmless(a, e)
  {
  }

  lemma {:induction false} LifeLoses(id: StreamId, a: Account, events: seq<StreamEvent>)
    requires Life(id, a, events).Some?
    ensures Lost(Life(id, a, events).value.ledger) >= Lost(a.ledger)
    ensures Lost(Life(id, a, events).value.ledger) == Lost(a.ledger) <==> AllHarmless(id, a, events)
    decreases |events|
  {
    if events != [] {
      StepLoses(id, a, events[0]);
      LifeLoses(id, Apply(id, a, events[0]).value, events[1..]);
    }
  }

  predicate MaySend(a: Account) { a.stream.openState.Open? || a.stream.openState.FinByUs? }

  /** Over every life of a stream: the receive window is the peer's credit plus the updates still queued if and
      only if every event was harmless; and then, with the updates written, a stream the peer may send on has
      left it at least 256 KiB, so it never starves. */
  lemma {:induction false} WindowIsCreditPlusQueued(id: StreamId, a: Account, events: seq<StreamEvent>)
    requires Balanced(a) && Lost(a.ledger) == 0 && Life(id, a, events).Some?
    ensures var b := Life(id, a, events).value;
            && (b.stream.recvWindow == PeerCredit(b.ledger) + CreditQueued(b.stream.outbound) <==>
                  AllHarmless(id, a, events))
            && (AllHarmless(id, a, events) && MaySend(b) && CreditQueued(b.stream.outbound) == 0
                ==> PeerCredit(b.ledger) >= DEFAULT_WINDOW)
  {
    LedgersBalanceOverEveryLife(id, a, events);
    LifeLoses(id, a, events);
  }

  /** While nothing is lost, a peer that stays within its credit is harmless. */
  lemma {:induction false} WithinCreditIsHarmless(a: Account, flags: U16, len: nat)
    requires Balanced(a) && Lost(a.ledger) == 0 && len <= PeerCredit(a.ledger)
    ensures Harmless(a, DataIn(flags, len))
  {
  }

  /** A peer without credit, while we think it has at least half a window. */
  predicate Starved(a: Account)
  {
    PeerCredit(a.ledger) <= 0 && CreditQueued(a.stream.outbound) == 0 && a.stream.recvWindow >= MAX_FRAME_SIZE / 2
  }

  /** Every data frame is within the peer's credit, or empty. */
  predicate ObeysCredit(id: StreamId, a: Account, events: seq<StreamEvent>)
    decreases |events|
  {
    events != [] ==>
      && (events[0].DataIn? && events[0].len > 0 ==> events[0].len <= PeerCredit(a.ledger))
      && (Apply(id, a, events[0]).Some? ==> ObeysCredit(id, Apply(id, a, events[0]).value, events[1..]))
  }

  lemma {:induction false} StarvedStays(id: StreamId, a: Account, e: StreamEvent)
    requires Starved(a) && (e.DataIn? ==> e.len == 0)
    ensures Apply(id, a, e).Some? ==> Starved(Apply(id, a, e).value)
  {
    match e
    case Send(data) => if QueueData(a.stream, data).Some? { QueueDataAppends(a.stream, data); }
    case AskClose => PushedCredit(a.stream.outbound, CloseMsg);
    case AskCloseNow => PushedCredit([], CloseMsg); assert [] + [CloseMsg] == [CloseMsg];
    case AskReset => PushedCredit([], ResetMsg); assert [] + [ResetMsg] == [ResetMsg];
    case WriterVisit(wrap) => VisitAmounts(id, a.stream, wrap);
    case _ =>
  }

  /** Such a peer never gets credit again, whatever either side does, unless it overruns what it has. */
  lemma {:induction false} StarvedForGood(id: StreamId, a: Account, events: seq<StreamEvent>)
    requires Starved(a) && ObeysCredit(id, a, events)
    ensures Life(id, a, events).Some? ==> PeerCredit(Life(id, a, events).value.ledger) <= 0
    decreases |events|
  {
    if events != [] && Apply(id, a, events[0]).Some? {
      StarvedStays(id, a, events[0]);
      StarvedForGood(id, Apply(id, a, events[0]).value, events[1..]);
    }
  }

  /** `close_stream_immediately` gets there: the peer is left with nothing, for good (`StarvedForGood`), while
      the window says it has all of it. */
  lemma {:induction false} DiscardedCreditIsLost(id: StreamId)
    ensures var a := Account(NEW_STREAM, NEW_LEDGER);
            var b := Life(id, a, [DataIn(0, DEFAULT_WINDOW), AskCloseNow, WriterVisit(0)]);
            && b.Some? && b.value.stream.openState == FinByUs
            && b.value.stream.recvWindow == MAX_FRAME_SIZE
            && b.value.stream.outbound == [] && PeerCredit(b.value.ledger) == 0 && Starved(b.value)
  {
    var a := Account(NEW_STREAM, NEW_LEDGER);
    var e1, e2, e3 := DataIn(0, DEFAULT_WINDOW), AskCloseNow, WriterVisit(0);
    var a1 := Apply(id, a, e1).value;
    var a2 := Apply(id, a1, e2).value;
    var a3 := Apply(id, a2, e3).value;
    var fin := Frame(CloseStream(id), []);
    assert PayloadBytes([fin]) == 0 + PayloadBytes([]);
    assert CreditGranted([fin]) == 0 + CreditGranted([]);
    assert Life(id, a3, []) == Some(a3);
    assert [e1, e2, e3][1..] == [e2, e3] && [e2, e3][1..] == [e3] && [e3][1..] == [];
    assert Life(id, a2, [e3]) == Life(id, a3, []);
    assert Life(id, a1, [e2, e3]) == Life(id, a2, [e3]);
  }
}
