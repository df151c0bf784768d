/** The order in which a stream's bytes and messages reach the wire, over the stream's whole life
    (`src/layers/yamux.rs`). */
module YamuxOrder {
  import opened Bytes
  import opened Header
  import opened YamuxStream
  import opened YamuxFlow

  // ---------------------------------------------------------------------------
  // What was asked for and what was written
  // ---------------------------------------------------------------------------

  /** What an event asks to be written, behind everything asked for before: the user's bytes and close, and
      the reader's window updates. */
  function AskedBy(a: Account, e: StreamEvent): seq<Item>
  {
    var s := a.stream;
    match e
    case Send(data) => if QueueData(s, data).Some? then Octets(data) else []
    case AskClose => if QueueClose(s) == s then [] else [Control(CloseMsg)]
    case DataIn(flags, len) =>
      if len > MAX_FRAME_SIZE then []
      else
        var r := OnData(s, flags, len);
        if r.Kept? && |r.stream.outbound| > |s.outbound| then [Control(r.stream.outbound[|s.outbound|])] else []
    case _ => []
  }

  function WrittenBy(id: StreamId, a: Account, e: StreamEvent): seq<Frame>
  {
    if e.WriterVisit? then Visit(id, a.stream, e.wrap).frames else []
  }

  function AskedIn(id: StreamId, a: Account, events: seq<StreamEvent>): seq<Item>
    decreases |events|
  {
    if events == [] then []
    else
      var later := match Apply(id, a, events[0]) case None => [] case Some(b) => AskedIn(id, b, events[1..]);
      AskedBy(a, events[0]) + later
  }

  function WrittenIn(id: StreamId, a: Account, events: seq<StreamEvent>): seq<Frame>
    decreases |events|
  {
    if events == [] then []
    else
      var later := match Apply(id, a, events[0]) case None => [] case Some(b) => WrittenIn(id, b, events[1..]);
      WrittenBy(id, a, events[0]) + later
  }

  /** Neither `close_stream_immediately` nor `reset_stream_immediately`, which are there to discard the queue. */
  predicate KeepsQueue(e: StreamEvent) { !e.AskCloseNow? && !e.AskReset? }

  predicate AllKeepQueue(events: seq<StreamEvent>)
  {
    events == [] || (KeepsQueue(events[0]) && AllKeepQueue(events[1..]))
  }

  /** Every message of the multistream layer is at least its length byte. */
  predicate NoEmptySends(events: seq<StreamEvent>)
  {
    events == [] || ((events[0].Send? ==> events[0].data != []) && NoEmptySends(events[1..]))
  }

  /** Some visit of the writer met a data message it could not start, with others behind it. */
  predicate MetOvertaking(id: StreamId, a: Account, events: seq<StreamEvent>)
    decreases |events|
  {
    && events != []
    && (|| (events[0].WriterVisit? && Overtakes(a.stream))
        || (Apply(id, a, events[0]).Some? && MetOvertaking(id, Apply(id, a, events[0]).value, events[1..])))
  }

  /** Everything written and then everything queued is everything asked for. */
  ghost predicate Faithful(sent: seq<Item>, a: Account, asked: seq<Item>) { sent + Queued(a.stream.outbound) == asked }

  // ---------------------------------------------------------------------------
  // Events that keep the order
  // ---------------------------------------------------------------------------

  /** A call or a frame only adds at the back of the queue. */
  lemma {:induction false} AsksAtTheBack(id: StreamId, a: Account, e: StreamEvent)
    requires KeepsQueue(e) && !e.WriterVisit? && Apply(id, a, e).Some?
    ensures Queued(Apply(id, a, e).value.stream.outbound) == Queued(a.stream.outbound) + AskedBy(a, e)
  {
    var q := a.stream.outbound;
    assert Queued(q) + [] == Queued(q);
    match e
    case Send(data) => if QueueData(a.stream, data).Some? { QueueDataAppends(a.stream, data); }
    case AskClose => QueuedSnoc(q, CloseMsg);
    case DataIn(flags, len) => if OnData(a.stream, flags, len).Kept? { DataAsks(a.stream, flags, len); }
    case UpdateIn(_, _) =>
  }

  lemma {:induction false} DataAsks(s: Stream, flags: U16, len: nat)
    requires len <= MAX_FRAME_SIZE && OnData(s, flags, len).Kept?
    ensures var q := OnData(s, flags, len).stream.outbound;
            Queued(q) == Queued(s.outbound) + if |q| > |s.outbound| then [Control(q[|s.outbound|])] else []
  {
    var q := OnData(s, flags, len).stream.outbound;
    if |q| > |s.outbound| {
      QueuedSnoc(s.outbound, q[|s.outbound|]);
    } else {
      assert Queued(q) + [] == Queued(q);
    }
  }

  lemma {:induction false} StepKeepsOrder(id: StreamId, a: Account, e: StreamEvent, sent: seq<Item>, asked: seq<Item>)
    requires KeepsQueue(e) && Apply(id, a, e).Some? && !(e.WriterVisit? && Overtakes(a.stream))
             && Faithful(sent, a, asked)
    ensures Faithful(sent + Written(WrittenBy(id, a, e)), Apply(id, a, e).value, asked + AskedBy(a, e))
  {
    var b := Apply(id, a, e).value;
    if e.WriterVisit? {
      VisitKeepsOrder(id, a.stream, e.wrap);
      Assoc(sent, Written(WrittenBy(id, a, e)), Queued(b.stream.outbound));
      assert asked + [] == asked;
    } else {
      AsksAtTheBack(id, a, e);
      Assoc(sent, Queued(a.stream.outbound), AskedBy(a, e));
      assert sent + [] == sent;
    }
  }

  /** As long as no visit overtakes, the order holds, whatever was sent. */
  lemma {:induction false} LifeKeepsOrder(id: StreamId, a: Account, events: seq<StreamEvent>, sent: seq<Item>,
                                          asked: seq<Item>)
    requires AllKeepQueue(events) && Life(id, a, events).Some? && !MetOvertaking(id, a, events)
             && Faithful(sent, a, asked)
    ensures Faithful(sent + Written(WrittenIn(id, a, events)), Life(id, a, events).value,
                     asked + AskedIn(id, a, events))
    decreases |events|
  {
    if events == [] {
      assert sent + [] == sent && asked + [] == asked;
    } else {
      var e, b := events[0], Apply(id, a, events[0]).value;
      StepKeepsOrder(id, a, e, sent, asked);
      LifeKeepsOrder(id, b, events[1..], sent + Written(WrittenBy(id, a, e)), asked + AskedBy(a, e));
      LaterOn(sent, WrittenBy(id, a, e), WrittenIn(id, b, events[1..]));
      Assoc(asked, AskedBy(a, e), AskedIn(id, b, events[1..]));
    }
  }

  lemma {:induction false} LaterOn(sent: seq<Item>, first: seq<Frame>, rest: seq<Frame>)
    ensures (sent + Written(first)) + Written(rest) == sent + Written(first + rest)
  {
    WrittenAppend(first, rest);
    Assoc(sent, Written(first), Written(rest));
  }

  // ---------------------------------------------------------------------------
  // Overtaking is never made good
  // ---------------------------------------------------------------------------

  lemma {:induction false} StepStaysScrambled(id: StreamId, a: Account, e: StreamEvent, sent: seq<Item>,
                                              asked: seq<Item>, k: nat)
    requires KeepsQueue(e) && Apply(id, a, e).Some? && Scrambled(asked, sent, a.stream.outbound, k)
    ensures Scrambled(asked + AskedBy(a, e), sent + Written(WrittenBy(id, a, e)),
                      Apply(id, a, e).value.stream.outbound, k)
  {
    assert asked + [] == asked && sent + [] == sent;
    if e.WriterVisit? { ScrambledStays(id, a.stream, e.wrap, asked, sent, k); }
  }

  lemma {:induction false} LifeStaysScrambled(id: StreamId, a: Account, events: seq<StreamEvent>, sent: seq<Item>,
                                              asked: seq<Item>, k: nat)
    requires AllKeepQueue(events) && Life(id, a, events).Some? && Scrambled(asked, sent, a.stream.outbound, k)
    ensures !Faithful(sent + Written(WrittenIn(id, a, events)), Life(id, a, events).value,
                      asked + AskedIn(id, a, events))
    decreases |events|
  {
    if events == [] {
      assert sent + [] == sent && asked + [] == asked;
      ScrambledIsOutOfOrder(asked, sent, a.stream.outbound, k);
    } else {
      var e, b := events[0], Apply(id, a, events[0]).value;
      StepStaysScrambled(id, a, e, sent, asked, k);
      LifeStaysScrambled(id, b, events[1..], sent + Written(WrittenBy(id, a, e)), asked + AskedBy(a, e), k);
      LaterOn(sent, WrittenBy(id, a, e), WrittenIn(id, b, events[1..]));
      Assoc(asked, AskedBy(a, e), AskedIn(id, b, events[1..]));
    }
  }

  lemma {:induction false} StepKeepsShape(id: StreamId, a: Account, e: StreamEvent)
    requires KeepsQueue(e) && Apply(id, a, e).Some? && WellQueued(a.stream.outbound)
    requires !(e.WriterVisit? && Overtakes(a.stream)) && (e.Send? ==> e.data != [])
    ensures WellQueued(Apply(id, a, e).value.stream.outbound)
  {
    match e
    case Send(data) => if QueueData(a.stream, data).Some? { QueueDataKeepsShape(a.stream, data); }
    case WriterVisit(wrap) => VisitKeepsFits(id, a.stream, wrap);
    case _ =>
  }

  /** Once a visit has overtaken, the order is broken from then on. */
  lemma {:induction false} OvertakingBreaksOrder(id: StreamId, a: Account, events: seq<StreamEvent>, sent: seq<Item>,
                                                 asked: seq<Item>)
    requires AllKeepQueue(events) && NoEmptySends(events) && Life(id, a, events).Some? && MetOvertaking(id, a, events)
    requires WellQueued(a.stream.outbound) && Faithful(sent, a, asked)
    ensures !Faithful(sent + Written(WrittenIn(id, a, events)), Life(id, a, events).value,
                      asked + AskedIn(id, a, events))
    decreases |events|
  {
    var e, b := events[0], Apply(id, a, events[0]).value;
    if e.WriterVisit? && Overtakes(a.stream) {
      OvertakingScrambles(id, a.stream, e.wrap, sent);
      assert sent + Written([]) == sent && asked + [] == asked;
      LifeStaysScrambled(id, b, events[1..], sent, asked, |sent|);
    } else {
      StepKeepsOrder(id, a, e, sent, asked);
      StepKeepsShape(id, a, e);
      OvertakingBreaksOrder(id, b, events[1..], sent + Written(WrittenBy(id, a, e)), asked + AskedBy(a, e));
    }
    LaterOn(sent, WrittenBy(id, a, e), WrittenIn(id, b, events[1..]));
    Assoc(asked, AskedBy(a, e), AskedIn(id, b, events[1..]));
  }

  /** Over every life of a stream, however many drains it spans: everything written so far and then everything
      queued is everything asked for, in order, if and only if no visit of the writer overtook. */
  lemma {:induction false} OrderOverEveryLife(id: StreamId, a: Account, events: seq<StreamEvent>)
    requires WellQueued(a.stream.outbound) && AllKeepQueue(events) && NoEmptySends(events) && Life(id, a, events).Some?
    ensures Faithful(Written(WrittenIn(id, a, events)), Life(id, a, events).value,
                     Queued(a.stream.outbound) + AskedIn(id, a, events))
            <==> !MetOvertaking(id, a, events)
  {
    var asked := Queued(a.stream.outbound);
    assert [] + asked == asked;
    assert [] + Written(WrittenIn(id, a, events)) == Written(WrittenIn(id, a, events));
    if MetOvertaking(id, a, events) {
      OvertakingBreaksOrder(id, a, events, [], asked);
    } else {
      LifeKeepsOrder(id, a, events, [], asked);
    }
  }

  // ---------------------------------------------------------------------------
  // Every life, empty sends included
  // ---------------------------------------------------------------------------

  /** An overtaking that changes the order: the message moved is not the like of what it is moved behind. */
  predicate Displaces(s: Stream)
  {
    Overtakes(s) && Queued(s.outbound[1..]) + Octets(s.outbound[0].bytes) != Queued(s.outbound)
  }

  predicate MetDisplacing(id: StreamId, a: Account, events: seq<StreamEvent>)
    decreases |events|
  {
    && events != []
    && (|| (events[0].WriterVisit? && Displaces(a.stream))
        || (Apply(id, a, events[0]).Some? && MetDisplacing(id, Apply(id, a, events[0]).value, events[1..])))
  }

  /** In order at every moment of a life. */
  ghost predicate AlwaysFaithful(id: StreamId, a: Account, events: seq<StreamEvent>, sent: seq<Item>, asked: seq<Item>)
    decreases |events|
  {
    && Faithful(sent, a, asked)
    && (events != [] && Apply(id, a, events[0]).Some? ==>
          AlwaysFaithful(id, Apply(id, a, events[0]).value, events[1..],
                         sent + Written(WrittenBy(id, a, events[0])), asked + AskedBy(a, events[0])))
  }

  lemma {:induction false} DisplacingStep(id: StreamId, a: Account, wrap: nat, sent: seq<Item>, asked: seq<Item>)
    requires Faithful(sent, a, asked) && Overtakes(a.stream)
    ensures var b := Apply(id, a, WriterVisit(wrap));
            && b.Some? && Visit(id, a.stream, wrap).frames == []
            && (Faithful(sent, b.value, asked) <==> !Displaces(a.stream))
  {
    var q := a.stream.outbound;
    QueuedSnoc(q[1..], q[0]);
    var moved := Queued(q[1..]) + Octets(q[0].bytes);
    if sent + moved == sent + Queued(q) {
      assert (sent + moved)[|sent|..] == moved && (sent + Queued(q))[|sent|..] == Queued(q);
    }
  }

  /** On the bare stream, where even empty data may be sent: in order at every moment if and only if no visit
      moved a blocked message behind something unlike it. */
  lemma {:induction false} AlwaysInOrderExactly(id: StreamId, a: Account, events: seq<StreamEvent>, sent: seq<Item>,
                                                asked: seq<Item>)
    requires AllKeepQueue(events) && Faithful(sent, a, asked) && Life(id, a, events).Some?
    ensures AlwaysFaithful(id, a, events, sent, asked) <==> !MetDisplacing(id, a, events)
    decreases |events|
  {
    if events != [] {
      var e, b := events[0], Apply(id, a, events[0]).value;
      var sent', asked' := sent + Written(WrittenBy(id, a, e)), asked + AskedBy(a, e);
      if e.WriterVisit? && Overtakes(a.stream) {
        DisplacingStep(id, a, e.wrap, sent, asked);
        assert sent' == sent && asked' == asked;
      } else {
        StepKeepsOrder(id, a, e, sent, asked);
      }
      if Faithful(sent', b, asked') {
        AlwaysInOrderExactly(id, b, events[1..], sent', asked');
      }
    }
  }
}
