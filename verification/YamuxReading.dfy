/** What the reader of a Yamux session reports of the frames it is given (`src/layers/yamux.rs`, `read_next`). */
module YamuxReading {
  import opened Bytes
  import opened Header
  import opened YamuxStream
  import opened YamuxFlow
  import opened YamuxView
  import opened YamuxDrain
  import opened YamuxRuns

  /** The payload of data frames, in order. */
  function DataBytes(frames: seq<Frame>): seq<Byte>
  {
    if frames == [] then []
      else (if frames[0].header.frameType.DataFrame? then frames[0].payload else []) + DataBytes(frames[1..])
  }

  lemma {:induction false} DataBytesAppend(a: seq<Frame>, b: seq<Frame>)
    ensures DataBytes(a + b) == DataBytes(a) + DataBytes(b)
  {
    if a == [] {
      assert a + b == b;
    } else {
      assert (a + b)[1..] == a[1..] + b;
      DataBytesAppend(a[1..], b);
      Assoc(if a[0].header.frameType.DataFrame? then a[0].payload else [], DataBytes(a[1..]), DataBytes(b));
    }
  }

  /** The payload reported for a stream, in order. */
  function GotBytes(notices: seq<Notice>, id: StreamId): seq<Byte>
  {
    if notices == [] then []
    else (if notices[0].Got? && notices[0].id == id then notices[0].payload else []) + GotBytes(notices[1..], id)
  }

  lemma {:induction false} GotBytesAppend(a: seq<Notice>, b: seq<Notice>, id: StreamId)
    ensures GotBytes(a + b, id) == GotBytes(a, id) + GotBytes(b, id)
  {
    if a == [] {
      assert a + b == b;
    } else {
      assert (a + b)[1..] == a[1..] + b;
      GotBytesAppend(a[1..], b, id);
      Assoc(if a[0].Got? && a[0].id == id then a[0].payload else [], GotBytes(a[1..], id), GotBytes(b, id));
    }
  }

  /** The frames taken in by a run. */
  function FramesIn(events: seq<SessionEvent>): seq<Frame>
  {
    if events == [] then [] else (if events[0].FrameIn? then [events[0].frame] else []) + FramesIn(events[1..])
  }

  // ---------------------------------------------------------------------------
  // One frame
  // ---------------------------------------------------------------------------

  predicate Carries(f: Frame, id: StreamId)
  {
    f.header.frameType.DataFrame? && f.header.streamId == id && f.payload != []
  }

  /** The reader takes the payload in: the stream is there and the peer may send on it, or the frame opens it. */
  predicate Delivers(v: View, f: Frame)
  {
    var id := f.header.streamId;
    |f.payload| <= MAX_FRAME_SIZE
    && if OpensNewStream(f.header.flags) then Negotiate(v.accounts, id) == Welcome
       else id in v.accounts && MaySend(v.accounts[id])
  }

  lemma {:induction false} GotOne(n: Notice, id: StreamId)
    ensures GotBytes([n], id) == if n.Got? && n.id == id then n.payload else []
  {
    assert [n][1..] == [];
    assert GotBytes([n], id) == (if n.Got? && n.id == id then n.payload else []) + GotBytes([], id);
  }

  lemma {:induction false} NoticesCarry(f: Frame, isNew: bool, id: StreamId)
    requires WellFormed(f)
    ensures GotBytes(NoticesOf(f, isNew), id) == if Carries(f, id) then f.payload else []
  {
    var own := f.header.streamId;
    var first := if isNew then [Opened(own)] else [];
    var middle := if f.payload != [] then [Got(own, f.payload)] else [];
    var last := if Closes(f) then [Closed(own)] else [];
    GotOne(Opened(own), id);
    GotOne(Got(own, f.payload), id);
    GotOne(Closed(own), id);
    GotBytesAppend(first, middle, id);
    GotBytesAppend(first + middle, last, id);
  }

  /** What one frame adds to the notices, if it adds any. */
  lemma {:induction false} FrameNotices(v: View, f: Frame)
    requires WellFormed(f)
    ensures var w := ReceiveFrame(v, f).view;
            w.notices == v.notices || (exists isNew :: w.notices == v.notices + NoticesOf(f, isNew))
    ensures f.payload != [] && Delivers(v, f) ==>
              exists isNew :: ReceiveFrame(v, f).view.notices == v.notices + NoticesOf(f, isNew)
  {
    var id := f.header.streamId;
    if f.payload != [] && Delivers(v, f) {
      var isNew := OpensNewStream(f.header.flags);
      var a := if isNew then OPENED_THERE else v.accounts[id];
      assert ReceptionOf(f, a.stream).Kept? || ReceptionOf(f, a.stream).Removed?;
      assert ReceiveFrame(v, f).view.notices == v.notices + NoticesOf(f, isNew);
    }
  }

  lemma {:induction false} FrameReported(v: View, f: Frame, id: StreamId)
    requires WellFormed(f) && (Carries(f, id) ==> Delivers(v, f))
    ensures GotBytes(ReceiveFrame(v, f).view.notices, id) == GotBytes(v.notices, id) + if Carries(f, id) then f.payload
            else []
  {
    var w := ReceiveFrame(v, f).view;
    FrameNotices(v, f);
    if w.notices != v.notices || Carries(f, id) {
      var isNew :| w.notices == v.notices + NoticesOf(f, isNew);
      GotBytesAppend(v.notices, NoticesOf(f, isNew), id);
      NoticesCarry(f, isNew, id);
    } else {
      assert GotBytes(v.notices, id) + [] == GotBytes(v.notices, id);
    }
  }

  // ---------------------------------------------------------------------------
  // Whole runs
  // ---------------------------------------------------------------------------

  /** Whenever payload for the stream arrives, the reader takes it in. */
  ghost predicate Hears(v: View, events: seq<SessionEvent>, id: StreamId)
    decreases |events|
  {
    events != [] && Possible(v, events[0]) ==>
      && (events[0].FrameIn? && Carries(events[0].frame, id) ==> Delivers(v, events[0].frame))
      && Hears(Step(v, events[0]), events[1..], id)
  }

  function PayloadIn(e: SessionEvent, id: StreamId): seq<Byte>
  {
    if e.FrameIn? && Carries(e.frame, id) then e.frame.payload else []
  }

  lemma {:induction false} StepReports(v: View, e: SessionEvent, id: StreamId)
    requires Possible(v, e) && (e.FrameIn? && Carries(e.frame, id) ==> Delivers(v, e.frame))
    ensures GotBytes(Step(v, e).notices, id) == GotBytes(v.notices, id) + PayloadIn(e, id)
  {
    if e.FrameIn? {
      FrameReported(v, e.frame, id);
    } else {
      assert GotBytes(v.notices, id) + [] == GotBytes(v.notices, id);
    }
  }

  lemma {:induction false} FirstPayload(events: seq<SessionEvent>, id: StreamId)
    requires events != [] && (events[0].FrameIn? ==> WellFormed(events[0].frame))
    ensures DataBytes(ForStream(FramesIn(events), id))
            == PayloadIn(events[0], id) + DataBytes(ForStream(FramesIn(events[1..]), id))
  {
    var e, rest := events[0], FramesIn(events[1..]);
    if e.FrameIn? {
      var own := if e.frame.header.streamId == id then [e.frame] else [];
      assert ([e.frame] + rest)[1..] == rest && [e.frame][1..] == [];
      DataBytesAppend(own, ForStream(rest, id));
      assert DataBytes(own) == PayloadIn(e, id);
    } else {
      assert [] + rest == rest;
    }
  }

  /** Over every run that hears a stream, what is reported of it is the payload of the frames for it, in order. */
  lemma {:induction false} HeardIsReported(v: View, events: seq<SessionEvent>, v': View, id: StreamId)
    requires Run(v, events, v') && Hears(v, events, id)
    ensures GotBytes(v'.notices, id) == GotBytes(v.notices, id) + DataBytes(ForStream(FramesIn(events), id))
    decreases |events|
  {
    if events == [] {
      assert GotBytes(v.notices, id) + [] == GotBytes(v.notices, id);
    } else {
      StepReports(v, events[0], id);
      HeardIsReported(Step(v, events[0]), events[1..], v', id);
      FirstPayload(events, id);
      Assoc(GotBytes(v.notices, id), PayloadIn(events[0], id), DataBytes(ForStream(FramesIn(events[1..]), id)));
    }
  }

  // ---------------------------------------------------------------------------
  // When a run hears a stream
  // ---------------------------------------------------------------------------

  /** The peer may send on the stream, and we are not about to reset it. */
  ghost predicate Open(v: View, id: StreamId)
  {
    id in v.accounts && MaySend(v.accounts[id]) && ResetMsg !in v.accounts[id].stream.outbound
  }

  /** A data or window-update frame that neither opens nor closes. */
  predicate Plain(f: Frame)
  {
    && (f.header.frameType.DataFrame? || f.header.frameType.WindowUpdateFrame?)
    && |f.payload| <= MAX_FRAME_SIZE && !OpensNewStream(f.header.flags) && !Closes(f)
  }

  /** On this stream the frames are plain until its last payload. */
  predicate PlainTalk(frames: seq<Frame>, id: StreamId)
  {
    || DataBytes(ForStream(frames, id)) == []
    || (frames != [] && (frames[0].header.streamId == id ==> Plain(frames[0])) && PlainTalk(frames[1..], id))
  }

  lemma {:induction false} VisitKeepsOpen(id: StreamId, s: Stream, wrap: nat)
    requires (s.openState.Open? || s.openState.FinByUs?) && ResetMsg !in s.outbound
    ensures var v := Visit(id, s, wrap);
            !v.remove && (v.stream.openState.Open? || v.stream.openState.FinByUs?) && ResetMsg !in v.stream.outbound
  {
  }

  lemma {:induction false} VisitsKeepOpen(id: StreamId, s: Stream, wraps: seq<nat>)
    requires (s.openState.Open? || s.openState.FinByUs?) && ResetMsg !in s.outbound
    ensures var v := Visits(id, s, wraps);
            !v.remove && (v.stream.openState.Open? || v.stream.openState.FinByUs?) && ResetMsg !in v.stream.outbound
  {
    if wraps != [] {
      VisitsKeepOpen(id, s, wraps[..|wraps| - 1]);
      VisitKeepsOpen(id, Visits(id, s, wraps[..|wraps| - 1]).stream, wraps[|wraps| - 1]);
    }
  }

  lemma {:induction false} DrainKeepsOpen(v: View, keys: seq<StreamId>, rounds: seq<seq<nat>>, id: StreamId)
    requires Possible(v, Drain(keys, rounds)) && Open(v, id)
    ensures Open(Step(v, Drain(keys, rounds)), id)
  {
    EnumeratesByIndex(keys, Streams(v));
    var j := IndexOf(keys, Streams(v), id);
    DrainFollowsEach(Streams(v), keys, rounds, j);
    VisitsKeepOpen(id, v.accounts[id].stream, Column(rounds, j));
  }

  lemma {:induction false} FrameKeepsOpen(v: View, f: Frame, id: StreamId)
    requires WellFormed(f) && Open(v, id) && (f.header.streamId == id ==> Plain(f))
    ensures Open(ReceiveFrame(v, f).view, id)
  {
  }

  lemma {:induction false} CallKeepsOpen(v: View, own: StreamId, e: StreamEvent, id: StreamId)
    requires IsCall(e) && Open(v, id) && !(own == id && e.AskReset?)
    ensures Open(OnStream(v, own, e), id)
  {
  }

  /** The user does not reset the stream. */
  predicate NoResetOf(events: seq<SessionEvent>, id: StreamId)
  {
    events == [] || (events[0] != Call(id, AskReset) && NoResetOf(events[1..], id))
  }

  lemma {:induction false} StepKeepsOpen(v: View, e: SessionEvent, id: StreamId)
    requires Sound(v) && Possible(v, e) && Open(v, id) && e != Call(id, AskReset)
    requires e.FrameIn? && e.frame.header.streamId == id ==> Plain(e.frame)
    ensures Open(Step(v, e), id)
  {
    match e
    case CallOpen =>
    case Call(own, event) => CallKeepsOpen(v, own, event, id);
    case FrameIn(f) => FrameKeepsOpen(v, f, id);
    case Drain(keys, rounds) => DrainKeepsOpen(v, keys, rounds, id);
  }

  /** A stream that is open is heard, whatever happens to other streams and whatever we do short of resetting it,
      as long as the peer's frames on it are plain until its last payload. */
  lemma {:induction false} OpenIsHeard(v: View, events: seq<SessionEvent>, v': View, id: StreamId)
    requires Sound(v) && Run(v, events, v') && NoResetOf(events, id) && PlainTalk(FramesIn(events), id)
    requires DataBytes(ForStream(FramesIn(events), id)) != [] ==> Open(v, id)
    ensures Hears(v, events, id)
    decreases |events|
  {
    if events != [] {
      var e, rest := events[0], events[1..];
      FirstPayload(events, id);
      StepKeepsSound(v, e);
      if DataBytes(ForStream(FramesIn(events), id)) != [] {
        FirstIsPlain(events, id);
        StepKeepsOpen(v, e, id);
      }
      OpenIsHeard(Step(v, e), rest, v', id);
    }
  }

  lemma {:induction false} FirstIsPlain(events: seq<SessionEvent>, id: StreamId)
    requires events != [] && PlainTalk(FramesIn(events), id) && DataBytes(ForStream(FramesIn(events), id)) != []
    ensures events[0].FrameIn? && events[0].frame.header.streamId == id ==> Plain(events[0].frame)
    ensures PlainTalk(FramesIn(events[1..]), id)
  {
    var rest := FramesIn(events[1..]);
    if events[0].FrameIn? {
      assert ([events[0].frame] + rest)[1..] == rest;
    } else {
      assert [] + rest == rest;
    }
  }
}
