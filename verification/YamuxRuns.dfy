/** Whole runs of a Yamux session, its drains included: what every run keeps, and what a run looks like from
    one stream and from the wire (`src/layers/yamux.rs`). */
module YamuxRuns {
  import opened Bytes
  import opened Header
  import opened YamuxStream
  import opened YamuxFlow
  import opened YamuxOrder
  import opened YamuxView
  import opened YamuxDrain

  /** A call of the user's, a frame of the peer's, or a drain of all queues by the writer. */
  datatype SessionEvent =
    | CallOpen
    | Call(id: StreamId, event: StreamEvent)
    | FrameIn(frame: Frame)
    | Drain(keys: seq<StreamId>, rounds: seq<seq<nat>>)

  function Streams(v: View): map<StreamId, Stream> { map id | id in v.accounts :: v.accounts[id].stream }

  function DrainOf(v: View, keys: seq<StreamId>, rounds: seq<seq<nat>>): Writing
  {
    Passes(Writing(Streams(v), [], {}), keys, rounds)
  }

  predicate IsCall(e: StreamEvent) { e.Send? || e.AskClose? || e.AskCloseNow? || e.AskReset? }

  ghost predicate Possible(v: View, e: SessionEvent)
  {
    match e
    case CallOpen => v.nextId + 2 < 0x1_0000_0000
    case Call(_, event) => IsCall(event)
    case FrameIn(f) => WellFormed(f)
    case Drain(keys, rounds) => FullDrain(Streams(v), keys, rounds, DrainOf(v, keys, rounds))
  }

  function Step(v: View, e: SessionEvent): View
    requires Possible(v, e)
  {
    match e
    case CallOpen => OpenOne(v)
    case Call(id, event) => OnStream(v, id, event)
    case FrameIn(f) => ReceiveFrame(v, f).view
    case Drain(keys, rounds) => v.(accounts := Settle(v.accounts, DrainOf(v, keys, rounds)), writeBuf := [])
  }

  ghost predicate Run(v: View, events: seq<SessionEvent>, v': View)
    decreases |events|
  {
    if events == [] then v' == v
    else Possible(v, events[0]) && Run(Step(v, events[0]), events[1..], v')
  }

  lemma {:induction false} StepKeepsSound(v: View, e: SessionEvent)
    requires Sound(v) && Possible(v, e)
    ensures Sound(Step(v, e))
  {
    match e
    case CallOpen => OpenKeepsSound(v);
    case Call(id, event) => OnStreamKeepsSound(v, id, event);
    case FrameIn(f) => ReceiveKeepsSound(v, f);
    case Drain(keys, rounds) => DrainKeepsSound(v, Streams(v), keys, rounds, DrainOf(v, keys, rounds));
  }

  /** Over every interleaving of calls, drains and frames: no data is reported after a close until the
      stream is opened again, identifiers keep their parity, and every stream's ledgers balance. */
  lemma {:induction false} EveryRunIsSound(v: View, events: seq<SessionEvent>, v': View)
    requires Sound(v) && Run(v, events, v')
    ensures Sound(v')
    decreases |events|
  {
    if events != [] {
      StepKeepsSound(v, events[0]);
      EveryRunIsSound(Step(v, events[0]), events[1..], v');
    }
  }

  /** A new session is sound, so every session that ran from one is. */
  lemma {:induction false} EverySessionIsSound(events: seq<SessionEvent>, v: View)
    requires Run(INITIAL, events, v)
    ensures Sound(v)
  {
    EveryRunIsSound(INITIAL, events, v);
  }

  // ---------------------------------------------------------------------------
  // A run seen from one stream
  // ---------------------------------------------------------------------------

  function VisitsBy(wraps: seq<nat>): seq<StreamEvent>
  {
    seq(|wraps|, i requires 0 <= i < |wraps| => WriterVisit(wraps[i]))
  }

  /** What a frame does to a stream it is for. */
  function FrameDoes(s: Stream, f: Frame): seq<StreamEvent>
  {
    if f.header.frameType.PingFrame?
      || f.header.frameType.GoAwayFrame? then (if f.header.streamId != 0 then [AskReset] else [])
    else if |f.payload| > MAX_FRAME_SIZE || OpensNewStream(f.header.flags) || !ReceptionOf(f, s).Kept? then []
    else if f.header.frameType.DataFrame? then [DataIn(f.header.flags, |f.payload|)]
    else [UpdateIn(f.header.flags, f.header.length)]
  }

  ghost function WrapsOf(keys: seq<StreamId>, rounds: seq<seq<nat>>, id: StreamId): seq<nat>
    requires id in keys && forall i :: 0 <= i < |rounds| ==> |rounds[i]| == |keys|
  {
    var j :| 0 <= j < |keys| && keys[j] == id;
    Column(rounds, j)
  }

  ghost function Does(v: View, e: SessionEvent, id: StreamId): seq<StreamEvent>
    requires Possible(v, e) && id in v.accounts
  {
    match e
    case CallOpen => []
    case Call(other, event) => if other == id then [event] else []
    case FrameIn(f) => if f.header.streamId == id then FrameDoes(v.accounts[id].stream, f) else []
    case Drain(keys, rounds) => InKeys(keys, Streams(v), id); VisitsBy(WrapsOf(keys, rounds, id))
  }

  lemma {:induction false} InKeys(keys: seq<StreamId>, m: map<StreamId, Stream>, id: StreamId)
    requires Enumerates(keys, m) && id in m
    ensures id in keys
  {
    var j := IndexOf(keys, m, id);
  }

  /** The frames an event makes the writer write for the streams. */
  function Log(v: View, e: SessionEvent): seq<Frame> { if e.Drain? then DrainOf(v, e.keys, e.rounds).log else [] }

  lemma {:induction false} LifeAppend(id: StreamId, a: Account, es: seq<StreamEvent>, fs: seq<StreamEvent>)
    requires Life(id, a, es).Some?
    ensures var b := Life(id, a, es).value;
            && Life(id, a, es + fs) == Life(id, b, fs)
            && WrittenIn(id, a, es + fs) == WrittenIn(id, a, es) + WrittenIn(id, b, fs)
            && AskedIn(id, a, es + fs) == AskedIn(id, a, es) + AskedIn(id, b, fs)
    decreases |es|
  {
    var b := Life(id, a, es).value;
    if es == [] {
      assert es + fs == fs;
    } else {
      assert (es + fs)[1..] == es[1..] + fs;
      var c := Apply(id, a, es[0]).value;
      LifeAppend(id, c, es[1..], fs);
      Assoc(WrittenBy(id, a, es[0]), WrittenIn(id, c, es[1..]), WrittenIn(id, b, fs));
      Assoc(AskedBy(a, es[0]), AskedIn(id, c, es[1..]), AskedIn(id, b, fs));
    }
  }

  lemma {:induction false} OneEvent(id: StreamId, a: Account, e: StreamEvent)
    ensures Life(id, a, [e]) == Apply(id, a, e) && WrittenIn(id, a, [e]) == WrittenBy(id, a, e)
  {
    var rest := [e][1..];
    assert rest == [];
    if Apply(id, a, e).Some? {
      var b := Apply(id, a, e).value;
      assert Life(id, b, rest) == Some(b) && WrittenIn(id, b, rest) == [];
    }
    assert WrittenBy(id, a, e) + [] == WrittenBy(id, a, e);
  }

  lemma {:induction false} VisitsBySnoc(wraps: seq<nat>, wrap: nat)
    ensures VisitsBy(wraps + [wrap]) == VisitsBy(wraps) + [WriterVisit(wrap)]
  {
  }

  lemma {:induction false} OneMoreVisit(id: StreamId, a: Account, es: seq<StreamEvent>, b: Account, wrap: nat)
    requires Life(id, a, es) == Some(b) && !Visit(id, b.stream, wrap).remove
    ensures var v := Visit(id, b.stream, wrap);
            && Life(id, a, es + [WriterVisit(wrap)]) == Some(Account(v.stream, Charge(b.ledger, v.frames)))
            && WrittenIn(id, a, es + [WriterVisit(wrap)]) == WrittenIn(id, a, es) + v.frames
  {
    LifeAppend(id, a, es, [WriterVisit(wrap)]);
    OneEvent(id, b, WriterVisit(wrap));
  }

  /** The visits are events of the stream's life that leave it so and write that. */
  ghost predicate AsLife(id: StreamId, a: Account, wraps: seq<nat>)
  {
    var v := Visits(id, a.stream, wraps);
    && Life(id, a, VisitsBy(wraps)) == Some(Account(v.stream, Charge(a.ledger, v.frames)))
    && WrittenIn(id, a, VisitsBy(wraps)) == v.frames
  }

  lemma {:induction false} AsLifeSnoc(id: StreamId, a: Account, wraps: seq<nat>, wrap: nat)
    requires AsLife(id, a, wraps) && !Visits(id, a.stream, wraps + [wrap]).remove
    ensures AsLife(id, a, wraps + [wrap])
  {
    var v := Visits(id, a.stream, wraps);
    VisitsSnoc(id, a.stream, wraps, wrap);
    VisitsBySnoc(wraps, wrap);
    OneMoreVisit(id, a, VisitsBy(wraps), Account(v.stream, Charge(a.ledger, v.frames)), wrap);
    ChargeTwice(a.ledger, v.frames, Visit(id, v.stream, wrap).frames);
  }

  /** Visits that do not remove the stream, as events of its life. */
  lemma {:induction false} VisitsAreLife(id: StreamId, a: Account, wraps: seq<nat>)
    requires !Visits(id, a.stream, wraps).remove
    ensures AsLife(id, a, wraps)
  {
    if wraps == [] {
      AsLifeEmpty(id, a);
    } else {
      var init, wrap := wraps[..|wraps| - 1], wraps[|wraps| - 1];
      assert wraps == init + [wrap];
      VisitsSnoc(id, a.stream, init, wrap);
      VisitsAreLife(id, a, init);
      AsLifeSnoc(id, a, init, wrap);
    }
  }

  lemma {:induction false} AsLifeEmpty(id: StreamId, a: Account)
    ensures AsLife(id, a, [])
  {
    assert VisitsBy([]) == [] && Charge(a.ledger, []) == a.ledger;
  }

  lemma {:induction false} DrainProjects(v: View, keys: seq<StreamId>, rounds: seq<seq<nat>>, id: StreamId)
    requires Possible(v, Drain(keys, rounds)) && id in v.accounts && id in Step(v, Drain(keys, rounds)).accounts
    ensures var es := Does(v, Drain(keys, rounds), id);
            && Life(id, v.accounts[id], es) == Some(Step(v, Drain(keys, rounds)).accounts[id])
            && WrittenIn(id, v.accounts[id], es) == ForStream(DrainOf(v, keys, rounds).log, id)
  {
    InKeys(keys, Streams(v), id);
    EnumeratesByIndex(keys, Streams(v));
    var j :| 0 <= j < |keys| && keys[j] == id && WrapsOf(keys, rounds, id) == Column(rounds, j);
    DrainFollowsEach(Streams(v), keys, rounds, j);
    VisitsAreLife(id, v.accounts[id], Column(rounds, j));
  }

  lemma {:induction false} FrameProjects(v: View, f: Frame, id: StreamId)
    requires WellFormed(f) && id in v.accounts && id in ReceiveFrame(v, f).view.accounts
    ensures var es := if f.header.streamId == id then FrameDoes(v.accounts[id].stream, f) else [];
            Life(id, v.accounts[id], es) == Some(ReceiveFrame(v, f).view.accounts[id])
              && WrittenIn(id, v.accounts[id], es) == []
  {
    if f.header.streamId == id && FrameDoes(v.accounts[id].stream, f) != [] {
      OneEvent(id, v.accounts[id], FrameDoes(v.accounts[id].stream, f)[0]);
    }
  }

  /** Each step of a session is, for a stream that stays in the table, some events of that stream's life, and
      what the writer wrote for it is what those events wrote. */
  lemma {:induction false} StepProjects(v: View, e: SessionEvent, id: StreamId)
    requires Possible(v, e) && id in v.accounts && id in Step(v, e).accounts && v.nextId !in v.accounts
    ensures Life(id, v.accounts[id], Does(v, e, id)) == Some(Step(v, e).accounts[id])
    ensures WrittenIn(id, v.accounts[id], Does(v, e, id)) == ForStream(Log(v, e), id)
  {
    match e
    case CallOpen =>
    case Call(other, event) => OneEvent(id, v.accounts[id], event);
    case FrameIn(f) => FrameProjects(v, f, id);
    case Drain(keys, rounds) => DrainProjects(v, keys, rounds, id);
  }

  /** The stream is in the table all along. */
  ghost predicate StaysIn(v: View, events: seq<SessionEvent>, id: StreamId)
    decreases |events|
  {
    id in v.accounts && (events != [] && Possible(v, events[0]) ==> StaysIn(Step(v, events[0]), events[1..], id))
  }

  /** The stream's own events in a run. */
  ghost function LifeOf(v: View, events: seq<SessionEvent>, id: StreamId): seq<StreamEvent>
    decreases |events|
  {
    if events == [] || !Possible(v, events[0]) || id !in v.accounts then []
    else Does(v, events[0], id) + LifeOf(Step(v, events[0]), events[1..], id)
  }

  /** The frames written for streams in a run. */
  ghost function Logs(v: View, events: seq<SessionEvent>): seq<Frame>
    decreases |events|
  {
    if events == [] || !Possible(v, events[0]) then [] else Log(v, events[0]) + Logs(Step(v, events[0]), events[1..])
  }

  lemma {:induction false} RunProjects(v: View, events: seq<SessionEvent>, v': View, id: StreamId)
    requires Sound(v) && Run(v, events, v') && StaysIn(v, events, id)
    ensures id in v'.accounts && Life(id, v.accounts[id], LifeOf(v, events, id)) == Some(v'.accounts[id])
    ensures WrittenIn(id, v.accounts[id], LifeOf(v, events, id)) == ForStream(Logs(v, events), id)
    decreases |events|
  {
    if events != [] {
      var e, w := events[0], Step(v, events[0]);
      assert id in w.accounts;
      StepProjects(v, e, id);
      StepKeepsSound(v, e);
      RunProjects(w, events[1..], v', id);
      LifeAppend(id, v.accounts[id], Does(v, e, id), LifeOf(w, events[1..], id));
      ForStreamAppend(Log(v, e), Logs(w, events[1..]), id);
    }
  }

  // ---------------------------------------------------------------------------
  // A run seen from the wire
  // ---------------------------------------------------------------------------

  /** What the session itself has to say, ahead of the streams' queues: whole frames, none of them data and none of
      them for a stream of ours. */
  ghost predicate OwnIsWhole(v: View)
  {
    && Serialize(ParseFrames(v.writeBuf)) == v.writeBuf
    && forall f :: f in ParseFrames(v.writeBuf) ==> !f.header.frameType.DataFrame? && IsEven(f.header.streamId)
  }

  /** Bytes and frames an event puts on the wire. */
  function BytesOut(v: View, e: SessionEvent): seq<Byte> { if e.Drain? then v.writeBuf + Serialize(Log(v, e)) else [] }

  function FramesOut(v: View, e: SessionEvent): seq<Frame>
  {
    if e.Drain? then ParseFrames(v.writeBuf) + Log(v, e) else []
  }

  ghost function WireBytes(v: View, events: seq<SessionEvent>): seq<Byte>
    decreases |events|
  {
    if events == [] || !Possible(v, events[0]) then []
      else BytesOut(v, events[0]) + WireBytes(Step(v, events[0]), events[1..])
  }

  ghost function WireFrames(v: View, events: seq<SessionEvent>): seq<Frame>
    decreases |events|
  {
    if events == [] || !Possible(v, events[0]) then []
      else FramesOut(v, events[0]) + WireFrames(Step(v, events[0]), events[1..])
  }

  lemma {:induction false} ParsedWellFormed(bytes: seq<Byte>)
    ensures forall f :: f in ParseFrames(bytes) ==> WellFormed(f)
    decreases |bytes|
  {
    if |bytes| >= HEADER_SIZE && Decode(bytes[..HEADER_SIZE]).Ok? {
      var h, rest := Decode(bytes[..HEADER_SIZE]).value, bytes[HEADER_SIZE..];
      var n: nat := if h.frameType.DataFrame? then h.length else 0;
      if n <= |rest| { ParsedWellFormed(rest[n..]); }
    }
  }

  lemma {:induction false} OwnGrows(v: View, h: YamuxHeader)
    requires OwnIsWhole(v) && h.version == VERSION && !h.frameType.DataFrame? && IsEven(h.streamId)
    ensures OwnIsWhole(v.(writeBuf := v.writeBuf + Encode(h)))
  {
    var own, f := ParseFrames(v.writeBuf), Frame(h, []);
    ParsedWellFormed(v.writeBuf);
    SerializeAppend(own, [f]);
    assert Serialize([f]) == OnWire(f) + Serialize([]) && Encode(h) + [] == Encode(h);
    ParseSerialize(own + [f]);
  }

  /** What the session answers to a frame itself: a ping, or a stream the table has no room for. */
  function Answer(v: View, f: Frame): (h: Option<YamuxHeader>)
    ensures h.Some? ==> h.value.version == VERSION && !h.value.frameType.DataFrame? && IsEven(h.value.streamId)
  {
    var id := f.header.streamId;
    match f.header.frameType
    case PingFrame => if id == 0 then Some(Pong(id, f.header.length)) else None
    case GoAwayFrame => None
    case _ =>
      if |f.payload| <= MAX_FRAME_SIZE && OpensNewStream(f.header.flags) && Negotiate(v.accounts, id) == TooMany
      then Some(ResetStream(id)) else None
  }

  lemma {:induction false} FrameAnswered(v: View, f: Frame)
    requires WellFormed(f)
    ensures ReceiveFrame(v, f).view.writeBuf
            == match Answer(v, f) case Some(h) => v.writeBuf + Encode(h) case None => v.writeBuf
  {
  }

  lemma {:induction false} SameOwn(v: View, w: View)
    requires OwnIsWhole(v) && w.writeBuf == v.writeBuf
    ensures OwnIsWhole(w)
  {
  }

  lemma {:induction false} StepKeepsOwn(v: View, e: SessionEvent)
    requires OwnIsWhole(v) && Possible(v, e)
    ensures OwnIsWhole(Step(v, e))
  {
    if e.FrameIn? {
      FrameAnswered(v, e.frame);
      var h := Answer(v, e.frame);
      if h.Some? { OwnGrows(v, h.value); }
      SameOwn(if h.Some? then v.(writeBuf := v.writeBuf + Encode(h.value)) else v, Step(v, e));
    } else if e.Drain? {
      assert Serialize(ParseFrames([])) == [];
    } else {
      SameOwn(v, Step(v, e));
    }
  }

  lemma {:induction false} DrainWellFormed(v: View, keys: seq<StreamId>, rounds: seq<seq<nat>>)
    requires Possible(v, Drain(keys, rounds))
    ensures forall f :: f in DrainOf(v, keys, rounds).log ==> Made(f)
  {
    EnumeratesByIndex(keys, Streams(v));
    PassesWellFormed(Writing(Streams(v), [], {}), keys, rounds);
  }

  /** What a run puts on the wire are whole frames. */
  lemma {:induction false} WireIsFrames(v: View, events: seq<SessionEvent>, v': View)
    requires OwnIsWhole(v) && Run(v, events, v')
    ensures WireBytes(v, events) == Serialize(WireFrames(v, events))
    ensures forall f :: f in WireFrames(v, events) ==> WellFormed(f)
    decreases |events|
  {
    if events != [] {
      var e, w := events[0], Step(v, events[0]);
      StepKeepsOwn(v, e);
      WireIsFrames(w, events[1..], v');
      SerializeAppend(FramesOut(v, e), WireFrames(w, events[1..]));
      if e.Drain? {
        DrainWellFormed(v, e.keys, e.rounds);
        ParsedWellFormed(v.writeBuf);
        SerializeAppend(ParseFrames(v.writeBuf), Log(v, e));
      }
    }
  }

  /** A reader of the wire recovers exactly the frames written. */
  lemma {:induction false} WireParses(v: View, events: seq<SessionEvent>, v': View)
    requires OwnIsWhole(v) && Run(v, events, v')
    ensures ParseFrames(WireBytes(v, events)) == WireFrames(v, events)
  {
    WireIsFrames(v, events, v');
    ParseSerialize(WireFrames(v, events));
  }

  /** The session itself says nothing about this stream. */
  ghost predicate OwnSilent(v: View, events: seq<SessionEvent>, id: StreamId)
    decreases |events|
  {
    events != [] && Possible(v, events[0]) ==>
      && (events[0].Drain? ==> ForStream(ParseFrames(v.writeBuf), id) == [])
      && OwnSilent(Step(v, events[0]), events[1..], id)
  }

  /** It does speak of a stream only to turn away one that the peer opens while the table is full, so never of an odd
      one. */
  ghost predicate Unspoken(v: View, events: seq<SessionEvent>, id: StreamId) { IsEven(id) ==> OwnSilent(v, events, id) }

  lemma {:induction false} OwnSilentOnOdd(v: View, events: seq<SessionEvent>, v': View, id: StreamId)
    requires OwnIsWhole(v) && Run(v, events, v') && !IsEven(id)
    ensures OwnSilent(v, events, id)
    decreases |events|
  {
    if events != [] {
      NoneOdd(ParseFrames(v.writeBuf), id);
      StepKeepsOwn(v, events[0]);
      OwnSilentOnOdd(Step(v, events[0]), events[1..], v', id);
    }
  }

  lemma {:induction false} NoneOdd(frames: seq<Frame>, id: StreamId)
    requires !IsEven(id) && forall f :: f in frames ==> IsEven(f.header.streamId)
    ensures ForStream(frames, id) == []
  {
    if frames != [] { NoneOdd(frames[1..], id); }
  }

  lemma {:induction false} WireOfStream(v: View, events: seq<SessionEvent>, v': View, id: StreamId)
    requires OwnIsWhole(v) && Run(v, events, v') && Unspoken(v, events, id)
    ensures ForStream(WireFrames(v, events), id) == ForStream(Logs(v, events), id)
  {
    if !IsEven(id) { OwnSilentOnOdd(v, events, v', id); }
    SilentWire(v, events, v', id);
  }

  lemma {:induction false} SilentWire(v: View, events: seq<SessionEvent>, v': View, id: StreamId)
    requires Run(v, events, v') && OwnSilent(v, events, id)
    ensures ForStream(WireFrames(v, events), id) == ForStream(Logs(v, events), id)
    decreases |events|
  {
    if events != [] {
      var e, w := events[0], Step(v, events[0]);
      SilentWire(w, events[1..], v', id);
      ForStreamAppend(FramesOut(v, e), WireFrames(w, events[1..]), id);
      ForStreamAppend(Log(v, e), Logs(w, events[1..]), id);
      if e.Drain? {
        ForStreamAppend(ParseFrames(v.writeBuf), Log(v, e), id);
        assert [] + ForStream(Log(v, e), id) == ForStream(Log(v, e), id);
      }
    }
  }

  /** Wire round trip, over every run of a session and any number of drains: from the bytes alone a reader
      recovers, for a stream that stays in the table and whose queue is not discarded, everything asked for in
      order, up to what is still queued, for every ring split and every interleaving with other streams, if and
      only if no visit of the writer overtook. */
  lemma {:induction false} WireRoundTrip(v: View, events: seq<SessionEvent>, v': View, id: StreamId)
    requires Sound(v) && OwnIsWhole(v) && Run(v, events, v') && StaysIn(v, events, id) && Unspoken(v, events, id)
    requires WellQueued(v.accounts[id].stream.outbound)
    requires AllKeepQueue(LifeOf(v, events, id)) && NoEmptySends(LifeOf(v, events, id))
    ensures id in v'.accounts
    ensures var a, life := v.accounts[id], LifeOf(v, events, id);
            Faithful(Written(ForStream(ParseFrames(WireBytes(v, events)), id)), v'.accounts[id],
                     Queued(a.stream.outbound) + AskedIn(id, a, life))
            <==> !MetOvertaking(id, a, life)
  {
    WireParses(v, events, v');
    WireOfStream(v, events, v', id);
    RunProjects(v, events, v', id);
    OrderOverEveryLife(id, v.accounts[id], LifeOf(v, events, id));
  }

  /** The streams' frames in a run are all made by the writer. */
  lemma {:induction false} LogsMade(v: View, events: seq<SessionEvent>, v': View)
    requires Run(v, events, v')
    ensures forall f :: f in Logs(v, events) ==> Made(f)
    decreases |events|
  {
    if events != [] {
      if events[0].Drain? { DrainWellFormed(v, events[0].keys, events[0].rounds); }
      LogsMade(Step(v, events[0]), events[1..], v');
    }
  }

  /** Notices are never taken back. */
  lemma {:induction false} NoticesGrow(v: View, events: seq<SessionEvent>, v': View)
    requires Run(v, events, v')
    ensures v.notices <= v'.notices
    decreases |events|
  {
    if events != [] {
      assert v.notices <= Step(v, events[0]).notices;
      NoticesGrow(Step(v, events[0]), events[1..], v');
    }
  }
}
