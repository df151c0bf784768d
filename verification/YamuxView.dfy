/** The Yamux session as a value: what each call and each incoming frame does to the table of streams
    and to the notices for the user, and what every run of them keeps (`src/layers/yamux.rs`). */
module YamuxView {
  import opened Bytes
  import opened Header
  import opened YamuxStream
  import opened YamuxFlow

  const MAX_STREAMS: nat := 256

  /** What the user of a session is told, in order. */
  datatype Notice = Opened(id: StreamId) | Got(id: StreamId, payload: seq<Byte>) | Closed(id: StreamId)

  datatype SessionError =
    | FrameTooLarge(len: nat)
    | InvalidStreamId(id: StreamId)
    | DuplicateStreamId(id: StreamId)
    | DataSentAfterFin(id: StreamId)
    | ServerInternalError
    | ServerProtocolError
    | ServerUnknownError(code: U32)

  datatype Verdict = Proceed | Ended | Failed(error: SessionError)

  datatype View = View(
    accounts: map<StreamId, Account>, nextId: StreamId, notices: seq<Notice>, writeBuf: seq<Byte>)

  datatype Received = Received(view: View, verdict: Verdict)

  predicate IsEven(id: StreamId) { id % 2 == 0 }

  // ---------------------------------------------------------------------------
  // Calls
  // ---------------------------------------------------------------------------

  const OPENED_THERE := Account(NEW_STREAM.(outbound := [AcceptMsg]), NEW_LEDGER)

  /** `open_stream`; the source panics when identifiers run out. */
  function OpenOne(v: View): View
    requires v.nextId + 2 < 0x1_0000_0000
  {
    var a := if v.nextId in v.accounts then v.accounts[v.nextId] else Account(NEW_STREAM, NEW_LEDGER);
    var opening := a.stream.(outbound := a.stream.outbound + [OpenMsg]);
    v.(accounts := v.accounts[v.nextId := a.(stream := opening)], nextId := v.nextId + 2)
  }

  const INITIAL := View(map[], 1, [], [])

  /** Any step of one known stream; an unknown stream is left alone. */
  function OnStream(v: View, id: StreamId, e: StreamEvent): View
  {
    if id !in v.accounts then v
    else match Apply(id, v.accounts[id], e)
      case Some(a) => v.(accounts := v.accounts[id := a])
      case None => v.(accounts := v.accounts - {id})
  }

  // ---------------------------------------------------------------------------
  // Frames
  // ---------------------------------------------------------------------------

  datatype Negotiation = Refused(error: SessionError) | TooMany | Welcome

  /** `negotiate_new_stream_request`. */
  function Negotiate(accounts: map<StreamId, Account>, id: StreamId): Negotiation
  {
    if !IsEven(id) || id == 0 then Refused(InvalidStreamId(id))
    else if |accounts| >= MAX_STREAMS then TooMany
    else if id in accounts then Refused(DuplicateStreamId(id))
    else Welcome
  }

  /** What the user is told about an accepted frame: the opening, then the payload, then the close. */
  function NoticesOf(f: Frame, isNew: bool): seq<Notice>
  {
    var id := f.header.streamId;
    (if isNew then [Opened(id)] else [])
    + (if f.payload != [] then [Got(id, f.payload)] else [])
    + if Closes(f) then [Closed(id)] else []
  }

  predicate Closes(f: Frame) { Contains(f.header.flags, RST) || Contains(f.header.flags, FIN) }

  function ReceptionOf(f: Frame, s: Stream): Reception
    requires |f.payload| <= MAX_FRAME_SIZE
  {
    if f.header.frameType.DataFrame? then OnData(s, f.header.flags, |f.payload|)
    else OnWindowUpdate(s, f.header.flags, f.header.length)
  }

  function LedgerAfter(f: Frame, a: Account): Ledger
  {
    if f.header.frameType.DataFrame? then Receive(a.ledger, a.stream, |f.payload|)
    else a.ledger.(credited := a.ledger.credited + f.header.length)
  }

  /** A data or window-update frame once its stream is known; `isNew` when this frame opened it. */
  function Deliver(v: View, f: Frame, a: Account, isNew: bool): Received
    requires |f.payload| <= MAX_FRAME_SIZE
  {
    var id := f.header.streamId;
    match ReceptionOf(f, a.stream)
    case Rejected => Received(v, Failed(DataSentAfterFin(id)))
    case Ignored => Received(v, Proceed)
    case Kept(s) =>
      Received(v.(accounts := v.accounts[id := Account(s, LedgerAfter(f, a))],
                  notices := v.notices + NoticesOf(f, isNew)), Proceed)
    case Removed =>
      Received(v.(accounts := v.accounts - {id}, notices := v.notices + NoticesOf(f, isNew)), Proceed)
  }

  /** One iteration of `read_next`. */
  function ReceiveFrame(v: View, f: Frame): Received
    requires WellFormed(f)
  {
    var id := f.header.streamId;
    match f.header.frameType
    case PingFrame =>
      if id != 0 then Received(OnStream(v, id, AskReset), Proceed)
      else Received(v.(writeBuf := v.writeBuf + Encode(Pong(id, f.header.length))), Proceed)
    case GoAwayFrame =>
      if id != 0 then Received(OnStream(v, id, AskReset), Proceed)
      else if f.header.length == 0 then Received(v, Ended)
      else if f.header.length == 1 then Received(v, Failed(ServerProtocolError))
      else if f.header.length == 2 then Received(v, Failed(ServerInternalError))
      else Received(v, Failed(ServerUnknownError(f.header.length)))
    case _ =>
      if |f.payload| > MAX_FRAME_SIZE then Received(v, Failed(FrameTooLarge(|f.payload|)))
      else if OpensNewStream(f.header.flags) then
        match Negotiate(v.accounts, id)
        case Refused(e) => Received(v, Failed(e))
        case TooMany => Received(v.(writeBuf := v.writeBuf + Encode(ResetStream(id))), Proceed)
        case Welcome => Deliver(v.(accounts := v.accounts[id := OPENED_THERE]), f, OPENED_THERE, true)
      else if id in v.accounts then Deliver(v, f, v.accounts[id], false)
      else Received(v, Proceed)
  }

  // ---------------------------------------------------------------------------
  // What a frame leads to, from the frame and the table alone
  // ---------------------------------------------------------------------------

  /** The peer's clean goodbye. */
  predicate Goodbye(f: Frame) { f.header.frameType.GoAwayFrame? && f.header.streamId == 0 && f.header.length == 0 }

  predicate ForStreams(f: Frame) { f.header.frameType.DataFrame? || f.header.frameType.WindowUpdateFrame? }

  /** A frame for the streams, of a size that is taken. */
  predicate Takeable(f: Frame) { ForStreams(f) && |f.payload| <= 0x8_0000 }

  /** Why a frame ends the session in error. */
  predicate FailsWith(v: View, f: Frame, e: SessionError)
  {
    var id, away := f.header.streamId, f.header.frameType.GoAwayFrame? && f.header.streamId == 0;
    match e
    case FrameTooLarge(len) => ForStreams(f) && len == |f.payload| > 0x8_0000
    case InvalidStreamId(i) => Takeable(f) && OpensNewStream(f.header.flags) && i == id && (id % 2 == 1 || id == 0)
    case DuplicateStreamId(i) =>
      && Takeable(f) && OpensNewStream(f.header.flags) && i == id && id % 2 == 0 && id != 0
      && |v.accounts| < 256 && id in v.accounts
    case DataSentAfterFin(i) =>
      && Takeable(f) && f.header.frameType.DataFrame? && !OpensNewStream(f.header.flags) && i == id
      && id in v.accounts && v.accounts[id].stream.openState.FinByThem?
    case ServerProtocolError => away && f.header.length == 1
    case ServerInternalError => away && f.header.length == 2
    case ServerUnknownError(code) => away && code == f.header.length > 2
  }

  /** The frame opens a stream of the peer's, for which there is room. */
  predicate OpensHere(v: View, f: Frame)
  {
    var id := f.header.streamId;
    Takeable(f) && OpensNewStream(f.header.flags) && id % 2 == 0 && id != 0 && |v.accounts| < 256 && id !in v.accounts
  }

  /** The frame reaches a stream that still listens: to data until the peer's end or a reset, to updates until
      a reset. */
  predicate ReachesStream(v: View, f: Frame)
  {
    var id := f.header.streamId;
    && Takeable(f) && !OpensNewStream(f.header.flags) && id in v.accounts && !v.accounts[id].stream.openState.Reset?
    && (f.header.frameType.DataFrame? ==> !v.accounts[id].stream.openState.FinByThem?)
  }

  /** The session ends on the peer's goodbye alone, and fails for exactly these reasons. */
  lemma {:induction false} VerdictExactly(v: View, f: Frame, e: SessionError)
    requires WellFormed(f)
    ensures ReceiveFrame(v, f).verdict == Ended <==> Goodbye(f)
    ensures ReceiveFrame(v, f).verdict == Failed(e) <==> FailsWith(v, f, e)
  {
  }

  /** What the user is told of a frame: that it opened the stream, its payload, that the peer closed it, in this order;
      and nothing of a frame that reaches no stream. */
  lemma {:induction false} NoticesExactly(v: View, f: Frame)
    requires WellFormed(f)
    ensures var id, told := f.header.streamId, ReceiveFrame(v, f).view.notices;
            if OpensHere(v, f) || ReachesStream(v, f) then
              told == v.notices + (if OpensHere(v, f) then [Opened(id)] else [])
                      + (if f.payload != [] then [Got(id, f.payload)] else [])
                      + (if Contains(f.header.flags, FIN) || Contains(f.header.flags, RST) then [Closed(id)] else [])
            else told == v.notices
  {
  }

  /** What the session itself answers: a ping with the same number, and a reset to a stream there is no room for. */
  lemma {:induction false} AnswersExactly(v: View, f: Frame)
    requires WellFormed(f)
    ensures var id, said := f.header.streamId, ReceiveFrame(v, f).view.writeBuf;
            if f.header.frameType.PingFrame? && id == 0
            then said == v.writeBuf + Encode(YamuxHeader(0, PingFrame, 2, 0, f.header.length))
            else if Takeable(f) && OpensNewStream(f.header.flags) && id % 2 == 0 && id != 0 && |v.accounts| >= 256
            then said == v.writeBuf + Encode(YamuxHeader(0, WindowUpdateFrame, 8, id, 0))
            else said == v.writeBuf
  {
  }

  /** A stream, by windows, state and queue, after data that it takes. */
  predicate AfterData(s: Stream, s': Stream, len: nat, fin: bool)
  {
    var left := if s.recvWindow > len then s.recvWindow - len else 0;
    && s'.sendWindow == s.sendWindow
    && (fin ==> s' == s.(openState := FinByThem, recvWindow := left))
    && (!fin && left >= 0x4_0000 ==> s' == s.(recvWindow := left))
    && (!fin && left < 0x4_0000 ==>
          s' == s.(recvWindow := 0x8_0000, outbound := s.outbound + [WindowUpdateMsg(0x8_0000 - left)]))
  }

  predicate AfterUpdate(s: Stream, s': Stream, len: nat, fin: bool)
  {
    && s'.sendWindow == Min(s.sendWindow + len, USIZE_MAX)
    && s'.recvWindow == s.recvWindow && s'.outbound == s.outbound
    && s'.openState == (if !fin then s.openState else if s.openState.FinByUs? then Reset else FinByThem)
  }

  /** The stream after a frame that it takes: gone with a reset. */
  predicate StreamAfter(f: Frame, s: Stream, after: map<StreamId, Account>)
  {
    var id, fin := f.header.streamId, Contains(f.header.flags, FIN);
    if Contains(f.header.flags, RST) then id !in after
    else id in after && if f.header.frameType.DataFrame? then AfterData(s, after[id].stream, |f.payload|, fin)
                        else AfterUpdate(s, after[id].stream, f.header.length, fin)
  }

  /** Only this stream's entry may differ. */
  ghost predicate OnlyEntry(before: map<StreamId, Account>, after: map<StreamId, Account>, id: StreamId)
  {
    && after.Keys - {id} == before.Keys - {id}
    && forall k :: k in before && k != id ==> k in after && after[k] == before[k]
  }

  lemma {:induction false} DeliveredExactly(v: View, f: Frame, a: Account, isNew: bool)
    requires WellFormed(f) && Takeable(f) && !a.stream.openState.Reset?
    requires f.header.frameType.DataFrame? ==> !a.stream.openState.FinByThem?
    ensures var after := Deliver(v, f, a, isNew).view.accounts;
            OnlyEntry(v.accounts, after, f.header.streamId) && StreamAfter(f, a.stream, after)
  {
  }

  /** What a frame does to the table: a stream that it reaches takes it; one that it opens is new, with our acceptance
      queued, and takes it; */
  lemma {:induction false} TakenExactly(v: View, f: Frame)
    requires WellFormed(f) && (OpensHere(v, f) || ReachesStream(v, f))
    ensures var id, after := f.header.streamId, ReceiveFrame(v, f).view.accounts;
            var s := if OpensHere(v, f) then Stream(0x4_0000, 0x4_0000, Open, [AcceptMsg]) else v.accounts[id].stream;
            OnlyEntry(v.accounts, after, id) && StreamAfter(f, s, after)
  {
    var id := f.header.streamId;
    if OpensHere(v, f) {
      DeliveredExactly(v.(accounts := v.accounts[id := OPENED_THERE]), f, OPENED_THERE, true);
    } else {
      DeliveredExactly(v, f, v.accounts[id], false);
    }
  }

  /** a PING or GO AWAY that names a stream resets it; and no other frame changes the table. */
  lemma {:induction false} OtherwiseExactly(v: View, f: Frame)
    requires WellFormed(f) && !OpensHere(v, f) && !ReachesStream(v, f)
    ensures var id, after := f.header.streamId, ReceiveFrame(v, f).view.accounts;
            if !ForStreams(f) && id != 0 && id in v.accounts then
              && OnlyEntry(v.accounts, after, id) && id in after
              && after[id].stream == v.accounts[id].stream.(outbound := [ResetMsg], openState := Reset)
            else after == v.accounts
  {
  }

  // ---------------------------------------------------------------------------
  // No data after close
  // ---------------------------------------------------------------------------

  /** The last thing said about the stream's life was that the peer closed it. */
  predicate ClosedIn(h: seq<Notice>, id: StreamId)
  {
    if h == [] then false
    else
      var n := h[|h| - 1];
      if n == Closed(id) then true else if n == Opened(id) then false else ClosedIn(h[..|h| - 1], id)
  }

  /** Data is never reported for a stream reported closed. */
  predicate NoDataAfterClose(h: seq<Notice>)
  {
    if h == [] then true
    else
      var init, n := h[..|h| - 1], h[|h| - 1];
      NoDataAfterClose(init) && (n.Got? ==> !ClosedIn(init, n.id))
  }

  lemma {:induction false} ClosedInSnoc(h: seq<Notice>, n: Notice, id: StreamId)
    ensures ClosedIn(h + [n], id)
            == (if n == Closed(id) then true else if n == Opened(id) then false else ClosedIn(h, id))
    ensures NoDataAfterClose(h + [n]) == (NoDataAfterClose(h) && (n.Got? ==> !ClosedIn(h, n.id)))
  {
  }

  /** In plain terms: between "closed" and a later "data" on one stream there is an "opened". */
  lemma {:induction false} ReopenedBetween(h: seq<Notice>, i: nat, j: nat, id: StreamId) returns (k: nat)
    requires NoDataAfterClose(h) && i < j < |h|
    requires h[i] == Closed(id) && h[j].Got? && h[j].id == id
    ensures i < k < j && h[k] == Opened(id)
  {
    var upTo := h[..j];
    PrefixQuiet(h, j + 1);
    assert h[..j + 1][..j] == upTo && h[..j + 1][j] == h[j];
    k := StillClosed(upTo, i, id);
  }

  lemma {:induction false} PrefixQuiet(h: seq<Notice>, n: nat)
    requires NoDataAfterClose(h) && n <= |h|
    ensures NoDataAfterClose(h[..n])
    decreases |h|
  {
    if n < |h| {
      PrefixQuiet(h[..|h| - 1], n);
      assert h[..|h| - 1][..n] == h[..n];
    } else {
      assert h[..n] == h;
    }
  }

  lemma {:induction false} StillClosed(h: seq<Notice>, i: nat, id: StreamId) returns (k: nat)
    requires i < |h| && h[i] == Closed(id) && !ClosedIn(h, id)
    ensures i < k < |h| && h[k] == Opened(id)
    decreases |h|
  {
    k := |h| - 1;
    if h[k] != Opened(id) {
      k := StillClosed(h[..k], i, id);
    }
  }

  lemma {:induction false} ClosedInWasNoted(h: seq<Notice>, id: StreamId)
    requires ClosedIn(h, id)
    ensures Closed(id) in h
    decreases |h|
  {
    if h[|h| - 1] != Closed(id) { ClosedInWasNoted(h[..|h| - 1], id); }
  }

  // ---------------------------------------------------------------------------
  // What every run keeps
  // ---------------------------------------------------------------------------

  predicate CannotReceive(a: Account) { a.stream.openState.FinByThem? || a.stream.openState.Reset? }

  ghost predicate ClosedStaysClosed(v: View)
  {
    && NoDataAfterClose(v.notices)
    && forall id :: id in v.accounts && ClosedIn(v.notices, id) ==> CannotReceive(v.accounts[id])
  }

  /** Our identifiers are odd and below the next one; the peer's are even and not zero. */
  ghost predicate Identified(v: View)
  {
    && v.nextId % 2 == 1
    && (forall id :: id in v.accounts ==> if IsEven(id) then id > 0 else id < v.nextId)
    && (forall n :: n in v.notices && !IsEven(n.id) ==> n.id < v.nextId)
  }

  ghost predicate AllBalanced(v: View)
  {
    forall id :: id in v.accounts ==> Balanced(v.accounts[id])
  }

  ghost predicate Sound(v: View) { ClosedStaysClosed(v) && Identified(v) && AllBalanced(v) }

  lemma {:induction false} OpenKeepsSound(v: View)
    requires Sound(v) && v.nextId + 2 < 0x1_0000_0000
    ensures Sound(OpenOne(v))
    ensures v.nextId !in v.accounts && !IsEven(v.nextId)
  {
    NewStreamBalanced(OpenMsg);
    assert [] + [OpenMsg] == [OpenMsg];
    if ClosedIn(v.notices, v.nextId) {
      ClosedInWasNoted(v.notices, v.nextId);
    }
  }

  /** A stream that may no longer receive stays that way, whatever is done to it. */
  lemma {:induction false} CannotReceiveStays(id: StreamId, a: Account, e: StreamEvent)
    requires CannotReceive(a)
    ensures var r := Apply(id, a, e); r.Some? ==> CannotReceive(r.value)
  {
  }

  lemma {:induction false} OnStreamKeepsSound(v: View, id: StreamId, e: StreamEvent)
    requires Sound(v)
    ensures Sound(OnStream(v, id, e))
  {
    if id in v.accounts {
      ApplyKeepsBalance(id, v.accounts[id], e);
      if CannotReceive(v.accounts[id]) { CannotReceiveStays(id, v.accounts[id], e); }
    }
  }

  /** How notices about one stream change the record. */
  ghost predicate Noted(h: seq<Notice>, h': seq<Notice>, id: StreamId, began: bool, ended: bool)
  {
    && NoDataAfterClose(h')
    && (forall other :: ClosedIn(h', other) ==
          if other != id then ClosedIn(h, other) else ended || (!began && ClosedIn(h, id)))
    && (forall n :: n in h' ==> n in h || n.id == id)
  }

  lemma {:induction false} NotedOne(h: seq<Notice>, part: seq<Notice>, id: StreamId)
    requires NoDataAfterClose(h)
    requires part == [] || (|part| == 1 && part[0].id == id && (part[0].Got? ==> !ClosedIn(h, id)))
    ensures Noted(h, h + part, id, part != [] && part[0].Opened?, part != [] && part[0].Closed?)
  {
    if part == [] {
      assert h + part == h;
    } else {
      assert part == [part[0]];
      forall other: StreamId { ClosedInSnoc(h, part[0], other); }
    }
  }

  lemma {:induction false} NotedOn(h: seq<Notice>, f: Frame, isNew: bool)
    requires NoDataAfterClose(h)
    requires !isNew && f.payload != [] ==> !ClosedIn(h, f.header.streamId)
    ensures Noted(h, h + NoticesOf(f, isNew), f.header.streamId, isNew, Closes(f))
  {
    var id := f.header.streamId;
    var first := if isNew then [Opened(id)] else [];
    var middle := if f.payload != [] then [Got(id, f.payload)] else [];
    var last := if Closes(f) then [Closed(id)] else [];
    NotedOne(h, first, id);
    NotedOne(h + first, middle, id);
    NotedThen(h, h + first, h + first + middle, id, isNew, false, false);
    NotedOne(h + first + middle, last, id);
    NotedThen(h, h + first + middle, h + first + middle + last, id, isNew, false, Closes(f));
    Assoc(h, first, middle);
    Assoc(h, first + middle, last);
  }

  lemma {:induction false} NotedThen(h: seq<Notice>, h1: seq<Notice>, h2: seq<Notice>, id: StreamId, began: bool,
                                     ended1: bool, ended2: bool)
    requires Noted(h, h1, id, began, ended1) && Noted(h1, h2, id, false, ended2)
    ensures Noted(h, h2, id, began, ended1 || ended2)
  {
  }

  /** A delivery that notes what it did keeps the session sound. */
  lemma {:induction false} SettledSound(v: View, id: StreamId, b: Option<Account>, notices: seq<Notice>, began: bool,
                                        ended: bool)
    requires Sound(v) && Noted(v.notices, notices, id, began, ended)
    requires if IsEven(id) then id > 0 else id < v.nextId
    requires b.Some? ==> Balanced(b.value)
    requires b.Some? && (ended || (!began && ClosedIn(v.notices, id))) ==> CannotReceive(b.value)
    ensures Sound(v.(notices := notices,
                     accounts := if b.Some? then v.accounts[id := b.value] else v.accounts - {id}))
  {
  }

  ghost predicate Deliverable(v: View, f: Frame, a: Account, isNew: bool)
  {
    var id := f.header.streamId;
    && WellFormed(f) && (f.header.frameType.DataFrame? || f.header.frameType.WindowUpdateFrame?)
    && |f.payload| <= MAX_FRAME_SIZE
    && (if isNew then OpensNewStream(f.header.flags) && Negotiate(v.accounts, id) == Welcome && a == OPENED_THERE
        else id in v.accounts && a == v.accounts[id])
  }

  /** What a delivery leaves of the stream: nothing, or an account that balances and, if the peer
      just closed or had closed, cannot receive. Data reaches only streams that may receive. */
  lemma {:induction false} DeliveredAccount(f: Frame, a: Account)
    requires Balanced(a) && |f.payload| <= MAX_FRAME_SIZE && WellFormed(f)
    ensures var r := ReceptionOf(f, a.stream);
            && (r.Kept? ==> Balanced(Account(r.stream, LedgerAfter(f, a))))
            && (r.Kept? && (Closes(f) || CannotReceive(a)) ==> CannotReceive(Account(r.stream, LedgerAfter(f, a))))
            && ((r.Kept? || r.Removed?) && f.payload != [] ==> !CannotReceive(a))
  {
    if f.header.frameType.DataFrame? {
      ApplyKeepsBalance(f.header.streamId, a, DataIn(f.header.flags, |f.payload|));
    } else {
      ApplyKeepsBalance(f.header.streamId, a, UpdateIn(f.header.flags, f.header.length));
    }
  }

  lemma {:induction false} DeliverKeepsSound(v: View, f: Frame, a: Account, isNew: bool)
    requires Sound(v) && Deliverable(v, f, a, isNew)
    ensures Sound(Deliver(v.(accounts := v.accounts[f.header.streamId := a]), f, a, isNew).view)
  {
    var id := f.header.streamId;
    var r := ReceptionOf(f, a.stream);
    if r.Rejected? || r.Ignored? {
      assert v.accounts[id := a] == v.accounts;
    } else {
      NewStreamBalanced(AcceptMsg);
      DeliveredAccount(f, a);
      NotedOn(v.notices, f, isNew);
      var b := if r.Kept? then Some(Account(r.stream, LedgerAfter(f, a))) else None;
      SettledSound(v, id, b, v.notices + NoticesOf(f, isNew), isNew, Closes(f));
      SameAccounts(v, id, a, b);
    }
  }

  lemma {:induction false} SameAccounts(v: View, id: StreamId, a: Account, b: Option<Account>)
    ensures b.Some? ==> v.accounts[id := a][id := b.value] == v.accounts[id := b.value]
    ensures v.accounts[id := a] - {id} == v.accounts - {id}
  {
  }

  lemma {:induction false} ReceiveKeepsSound(v: View, f: Frame)
    requires Sound(v) && WellFormed(f)
    ensures Sound(ReceiveFrame(v, f).view)
  {
    var id := f.header.streamId;
    if f.header.frameType.PingFrame? || f.header.frameType.GoAwayFrame? {
      OnStreamKeepsSound(v, id, AskReset);
    } else if |f.payload| <= MAX_FRAME_SIZE {
      if OpensNewStream(f.header.flags) {
        if Negotiate(v.accounts, id) == Welcome {
          DeliverKeepsSound(v, f, OPENED_THERE, true);
        }
      } else if id in v.accounts {
        assert v.accounts[id := v.accounts[id]] == v.accounts;
        DeliverKeepsSound(v, f, v.accounts[id], false);
      }
    }
  }
}
