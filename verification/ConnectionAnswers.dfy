/** Which response a request gets, from what was heard of its stream alone (`src/connection.rs`). */
module ConnectionAnswers {
  import opened Bytes
  import opened ConnectionView
  import opened ConnectionRuns
  import opened ConnectionOwners
  import opened ConnectionSafety
  import opened ConnectionHeard
  import M = MultistreamView

  /** The answer to a request whose stream has this log: before the acceptance a rejection is one, after it the first
      message or the close; a timeout or a cancellation ends it at any time; anything else is out of turn. */
  function AnswerOf(log: seq<Item>): Option<Answer>
  {
    if log == [] then None
    else match log[0]
      case Heard(OutgoingAccepted(_)) => if |log| == 1 then None else Some(AnswerAfter(log[1]))
      case Heard(OutgoingRejected) => Some(Failed(ProtocolRejected))
      case Heard(_) => Some(Failed(MultistreamProtocolError))
      case Expired => Some(Failed(Timeout))
      case Dropped => Some(Cancelled)
  }

  function AnswerAfter(item: Item): Answer
  {
    match item
    case Heard(Data(bytes)) => Value(bytes)
    case Heard(Closed(IncomingMessageTooLarge)) => Failed(RemotePayloadTooLarge)
    case Heard(Closed(ClosedByRemote)) => Failed(RequestError.ClosedByRemote)
    case Heard(_) => Failed(MultistreamProtocolError)
    case Expired => Failed(Timeout)
    case Dropped => Cancelled
  }

  predicate JustAccepted(log: seq<Item>) { |log| == 1 && log[0].Heard? && log[0].state.OutgoingAccepted? }

  /** A request in flight: not accepted yet, or accepted and not more; a payload that could not be sent ends the
      connection. */
  predicate Awaits(c: Conn, id: StreamId, log: seq<Item>)
    requires id in c.inflight && id in c.issued
  {
    && c.inflight[id].protocol == c.issued[id].protocol
    && match c.inflight[id].state
       case AwaitingConfirmation(_) => log == [] || (c.finished && JustAccepted(log))
       case AwaitingResponse => JustAccepted(log)
  }

  /** Every response to it, returned or kept back, is the answer its log gives. */
  ghost predicate AnsweredBy(h: seq<Message>, id: StreamId, protocol: nat, answer: Option<Answer>)
  {
    forall m :: m in h && m.Response? && m.id == id ==> m.protocol == protocol && answer == Some(m.res)
  }

  /** A request and the log of its stream. */
  ghost predicate Follows(c: Conn, id: StreamId, log: seq<Item>)
    requires id in c.issued
  {
    && id % 2 == 1 && id < c.net.nextId
    && (id in c.inflight <==> AnswerOf(log) == None)
    && (if id in c.inflight then Awaits(c, id, log) else Gone(c.net, id))
    && AnsweredBy(History(c), id, c.issued[id].protocol, AnswerOf(log))
  }

  /** The same, for any stream of ours: nothing is heard of one that is yet to be opened. */
  ghost predicate Logged(c: Conn, id: StreamId, log: seq<Item>)
  {
    && (id in c.issued ==> Follows(c, id, log))
    && (id >= c.net.nextId ==> log == [])
  }

  lemma {:induction false} AnswerStays(log: seq<Item>, more: seq<Item>)
    requires AnswerOf(log).Some?
    ensures AnswerOf(log + more) == AnswerOf(log)
  {
  }

  lemma {:induction false} AnswerNow(log: seq<Item>, item: Item)
    requires log == [] || JustAccepted(log)
    ensures AnswerOf(log + [item]) == if log != [] then Some(AnswerAfter(item)) else AnswerOf([item])
  {
  }

  // ---------------------------------------------------------------------------
  // Events that are not about the request
  // ---------------------------------------------------------------------------

  /** What a step says of other requests leaves this one's answers as they are. */
  lemma {:induction false} SaidElsewhere(c: Conn, c': Conn, said: Option<Message>, id: StreamId, answer: Option<Answer>)
    requires id in c.issued && AnsweredBy(History(c), id, c.issued[id].protocol, answer)
    requires Agrees(c, c', said) && (id in c.inflight <==> id in c'.inflight)
    ensures AnsweredBy(History(c'), id, c'.issued[id].protocol, answer)
  {
    assert id in c'.inflight <==> id in c'.inflight.Keys;
    assert id in c.inflight <==> id in c.inflight.Keys;
  }

  lemma {:induction false} StepAgrees(g: Config, c: Conn, e: Event) returns (said: Option<Message>)
    requires Safe(c) && Possible(c, e) && !e.CallRequest?
    ensures Agrees(c, Step(g, c, e), said)
  {
    if e.Next? {
      said := DrivenAgrees(g, c, e.drive);
    } else {
      said := CallAgrees(g, c, e);
    }
  }

  lemma {:induction false} HandleElsewhere(g: Config, c: Conn, o: M.Output, takes: bool, id: StreamId)
    requires Room(c.net) && id in c.inflight && o.streamId != id
    ensures var c' := Handle(g, c, o, takes).conn; id in c'.inflight && c'.inflight[id] == c.inflight[id]
  {
  }

  /** A request in flight that the event is not about stays in flight as it is. */
  lemma {:induction false} StaysInFlight(g: Config, c: Conn, e: Event, id: StreamId)
    requires Safe(c) && Possible(c, e) && id in c.inflight && id in c.issued && ItemsOf(g, c, e, id) == []
    ensures var c' := Step(g, c, e); id in c'.inflight && c'.inflight[id] == c.inflight[id]
    ensures c.finished ==> Step(g, c, e).finished
  {
    if e.Next? {
      if Listens(c, e.drive) { ListenedElsewhere(g, c, e.drive, id); }
    }
  }

  lemma {:induction false} ListenedElsewhere(g: Config, c: Conn, d: Drive, id: StreamId)
    requires Possible(c, Next(d)) && id in c.inflight && !c.finished
    requires var t := M.Round(c.net.layer, d.input, d.takes, g.isUtf8).turn; t.Emit? ==> t.output.streamId != id
    ensures var c' := Listened(g, c, d); id in c'.inflight && c'.inflight[id] == c.inflight[id]
  {
    var o := M.Round(c.net.layer, d.input, d.takes, g.isUtf8);
    if o.turn.Emit? { HandleElsewhere(g, AfterRound(c, o), o.turn.output, d.takesReply, id); }
  }

  /** A request that was answered is not in flight again. */
  lemma {:induction false} StaysAnswered(g: Config, c: Conn, e: Event, said: Option<Message>, id: StreamId)
    requires Possible(c, e) && id !in c.inflight && Agrees(c, Step(g, c, e), said)
    ensures id !in Step(g, c, e).inflight
  {
    assert id in Step(g, c, e).inflight <==> id in Step(g, c, e).inflight.Keys;
    assert id !in c.inflight.Keys;
  }

  lemma {:induction false} FollowsElsewhere(g: Config, c: Conn, e: Event, id: StreamId, log: seq<Item>)
    requires Safe(c) && Possible(c, e) && !e.CallRequest? && id in c.issued && Follows(c, id, log)
    requires id in c.inflight && ItemsOf(g, c, e, id) == []
    ensures id in Step(g, c, e).issued && Follows(Step(g, c, e), id, log)
  {
    var said := StepAgrees(g, c, e);
    StaysInFlight(g, c, e, id);
    SaidElsewhere(c, Step(g, c, e), said, id, AnswerOf(log));
  }

  lemma {:induction false} FollowsAnswered(g: Config, c: Conn, e: Event, id: StreamId, log: seq<Item>)
    requires Safe(c) && Possible(c, e) && !e.CallRequest? && id in c.issued && Follows(c, id, log) && id !in c.inflight
    ensures id in Step(g, c, e).issued && Follows(Step(g, c, e), id, log + ItemsOf(g, c, e, id))
  {
    var said := StepAgrees(g, c, e);
    StepKeepsGone(g, c, e, id);
    StaysAnswered(g, c, e, said, id);
    SaidElsewhere(c, Step(g, c, e), said, id, AnswerOf(log));
    AnswerStays(log, ItemsOf(g, c, e, id));
  }

  // ---------------------------------------------------------------------------
  // Events that are
  // ---------------------------------------------------------------------------

  /** A stream that is rejected or closed is gone when that is reported. */
  predicate ReportsGone(o: M.Outcome)
  {
    o.turn.Emit? && (o.turn.output.state.OutgoingRejected? || o.turn.output.state.Closed?) ==>
        o.turn.output.streamId !in o.layer.slots
  }

  lemma {:induction false} PulledGone(l: M.Layer, id: StreamId, takes: bool, isUtf8: M.Name -> bool)
    requires id in l.slots
    ensures ReportsGone(M.Pulled(l, id, takes, isUtf8))
  {
  }

  lemma {:induction false} ReportedGone(l: M.Layer, input: M.Input, takes: bool, isUtf8: M.Name -> bool)
    ensures ReportsGone(M.Round(l, input, takes, isUtf8))
  {
    if l.readFrom.Some? {
      if l.readFrom.value in l.slots { PulledGone(l, l.readFrom.value, takes, isUtf8); }
    } else {
      match input
      case RemoteOpened(id) =>
        var slots := if id in l.slots then l.slots
          else l.slots[id := M.Slot([], false, M.NewIncoming, M.PROTOCOL_MAX_LEN)];
        PulledGone(l.(slots := slots), id, takes, isUtf8);
      case RemoteData(id, bytes) =>
        if id in l.slots {
          var s := l.slots[id];
          PulledGone(l.(slots := l.slots[id := s.(pending := s.pending + bytes)]), id, takes, isUtf8);
        }
      case RemoteClosed(id) =>
    }
  }

  /** The answer told is the only one. */
  lemma {:induction false} AnsweredNow(h: seq<Message>, id: StreamId, protocol: nat, log: seq<Item>, m: Message)
    requires AnswerOf(log) == None && AnsweredBy(h, id, protocol, None)
    requires m.Response? && m.id == id && m.protocol == protocol
    ensures AnsweredBy(h + [m], id, protocol, Some(m.res))
  {
  }

  /** Taken out of flight, gone, and answered. */
  lemma {:induction false} FollowsEnd(c: Conn, c': Conn, id: StreamId, log: seq<Item>, item: Item, answer: Answer)
    requires id in c.issued && Follows(c, id, log) && id in c.inflight && c'.issued == c.issued
    requires id !in c'.inflight && Gone(c'.net, id) && AnswerOf(log + [item]) == Some(answer)
    requires History(c') == History(c) + [Response(id, c.inflight[id].protocol, answer)]
    ensures Follows(c', id, log + [item])
  {
    AnsweredNow(History(c), id, c.issued[id].protocol, log, Response(id, c.inflight[id].protocol, answer));
  }

  lemma {:induction false} FollowsDropped(g: Config, c: Conn, id: StreamId, log: seq<Item>)
    requires id in c.issued && Follows(c, id, log) && id in c.inflight
    ensures Follows(RequestCancelled(c, id), id, log + [Dropped])
  {
    AnswerNow(log, Dropped);
    PushedHistory(c, RequestCancelled(c, id), Response(id, c.inflight[id].protocol, Cancelled));
    FollowsEnd(c, RequestCancelled(c, id), id, log, Dropped, Cancelled);
  }

  lemma {:induction false} FollowsExpired(c: Conn, id: StreamId, log: seq<Item>)
    requires id in c.issued && Follows(c, id, log) && id in c.inflight && c.nextBuf == []
    ensures Follows(TimedOut(c, id), id, log + [Expired])
  {
    AnswerNow(log, Expired);
    ToldHistory(c, TimedOut(c, id), Some(Response(id, c.inflight[id].protocol, Failed(Timeout))));
    FollowsEnd(c, TimedOut(c, id), id, log, Expired, Failed(Timeout));
  }

  /** The layer moves on without the request's being touched. */
  lemma {:induction false} OutputEnds(c: Conn, id: StreamId, log: seq<Item>, out: M.OutputState, takes: bool)
    requires id in c.issued && Follows(c, id, log) && id in c.inflight && c.nextBuf == [] && !c.finished
    requires out.OutgoingRejected? || out.Closed? ==> id !in c.net.layer.slots
    requires RequestEnding(c.inflight[id].state, out).Some?
    ensures Follows(Conclude(OnRequest(c, id, out, takes)), id, log + [Heard(out)])
  {
    var e := RequestEnding(c.inflight[id].state, out).value;
    AnswerNow(log, Heard(out));
    var c' := Conclude(OnRequest(c, id, out, takes));
    ToldHistory(c, c', Some(Response(id, c.inflight[id].protocol, e.answer)));
    FollowsEnd(c, c', id, log, Heard(out), e.answer);
  }

  lemma {:induction false} OutputAccepts(c: Conn, id: StreamId, log: seq<Item>, out: M.OutputState, takes: bool)
    requires id in c.issued && Follows(c, id, log) && id in c.inflight && c.nextBuf == [] && !c.finished
    requires RequestEnding(c.inflight[id].state, out).None?
    ensures Follows(Conclude(OnRequest(c, id, out, takes)), id, log + [Heard(out)])
  {
    AnswerNow(log, Heard(out));
    assert History(Conclude(OnRequest(c, id, out, takes))) == History(c);
  }

  lemma {:induction false} FollowsHeard(g: Config, c: Conn, d: Drive, id: StreamId, log: seq<Item>, out: M.OutputState)
    requires Possible(c, Next(d)) && id in c.issued && Follows(c, id, log) && id in c.inflight && c.nextBuf == []
    requires !c.finished && M.Round(c.net.layer, d.input, d.takes, g.isUtf8).turn == M.Emit(M.Output(id, out))
    ensures Follows(Listened(g, c, d), id, log + [Heard(out)])
  {
    var o := M.Round(c.net.layer, d.input, d.takes, g.isUtf8);
    var c1 := AfterRound(c, o);
    ReportedGone(c.net.layer, d.input, d.takes, g.isUtf8);
    assert Follows(c1, id, log);
    if RequestEnding(c.inflight[id].state, out).Some? {
      OutputEnds(c1, id, log, out, d.takesReply);
    } else {
      OutputAccepts(c1, id, log, out, d.takesReply);
    }
  }

  // ---------------------------------------------------------------------------
  // Every run
  // ---------------------------------------------------------------------------

  lemma {:induction false} StepFollows(g: Config, c: Conn, e: Event, id: StreamId, log: seq<Item>)
    requires Safe(c) && Possible(c, e) && !e.CallRequest? && id in c.issued && Follows(c, id, log)
    ensures id in Step(g, c, e).issued && Follows(Step(g, c, e), id, log + ItemsOf(g, c, e, id))
  {
    if id !in c.inflight {
      FollowsAnswered(g, c, e, id, log);
    } else if ItemsOf(g, c, e, id) == [] {
      assert log + [] == log;
      FollowsElsewhere(g, c, e, id, log);
    } else {
      FollowsItem(g, c, e, id, log);
    }
  }

  lemma {:induction false} FollowsItem(g: Config, c: Conn, e: Event, id: StreamId, log: seq<Item>)
    requires Safe(c) && Possible(c, e) && id in c.issued && Follows(c, id, log) && id in c.inflight
    requires ItemsOf(g, c, e, id) != []
    ensures id in Step(g, c, e).issued && Follows(Step(g, c, e), id, log + ItemsOf(g, c, e, id))
  {
    if e.CallCancelRequest? {
      FollowsDropped(g, c, id, log);
    } else if TimesOut(c, e).Some? {
      FollowsExpired(c, id, log);
    } else {
      FollowsHeard(g, c, e.drive, id, log, Emitted(g, c, e).value.state);
    }
  }

  /** Nothing is heard of a stream that is yet to be opened. */
  lemma {:induction false} FutureUnheard(g: Config, c: Conn, e: Event, id: StreamId)
    requires Safe(c) && Possible(c, e) && id % 2 == 1 && id >= c.net.nextId
    ensures ItemsOf(g, c, e, id) == []
  {
    assert id !in c.net.layer.slots;
    if e.Next? { M.RoundAbsent(c.net.layer, e.drive.input, e.drive.takes, g.isUtf8, id); }
  }

  lemma {:induction false} RequestLogged(g: Config, c: Conn, e: Event, id: StreamId, log: seq<Item>)
    requires Safe(c) && Possible(c, e) && e.CallRequest? && id % 2 == 1 && Logged(c, id, log)
    ensures Logged(Step(g, c, e), id, log)
  {
    var c' := Step(g, c, e);
    assert History(c') == History(c);
    if id == c.net.nextId && id in c'.issued {
      assert Places(c, id) == 0;
      NoResponse(History(c), id);
    }
  }

  lemma {:induction false} NoResponse(h: seq<Message>, id: StreamId)
    requires Responses(h, id) == 0
    ensures forall m :: m in h && m.Response? ==> m.id != id
  {
    forall m | m in h && m.Response? ensures m.id != id {
      if m.id == id {
        var i :| 0 <= i < |h| && h[i] == m;
        CountsOne(h, id, i);
      }
    }
  }

  lemma {:induction false} StepLogged(g: Config, c: Conn, e: Event, id: StreamId, log: seq<Item>)
    requires Safe(c) && Possible(c, e) && id % 2 == 1 && Logged(c, id, log)
    ensures Logged(Step(g, c, e), id, log + ItemsOf(g, c, e, id))
  {
    if id >= c.net.nextId { FutureUnheard(g, c, e, id); }
    if e.CallRequest? {
      assert ItemsOf(g, c, e, id) == [] && log + [] == log;
      RequestLogged(g, c, e, id, log);
    } else {
      var said := StepAgrees(g, c, e);
      if id in c.issued { StepFollows(g, c, e, id, log); }
    }
  }

  lemma {:induction false} RunLogged(g: Config, c: Conn, events: seq<Event>, c': Conn, id: StreamId, log: seq<Item>)
    requires Safe(c) && Run(g, c, events, c') && id % 2 == 1 && Logged(c, id, log)
    ensures Logged(c', id, log + LogOf(g, c, events, id))
    decreases |events|
  {
    if events == [] {
      assert log + [] == log;
    } else {
      var items := ItemsOf(g, c, events[0], id);
      StepLogged(g, c, events[0], id, log);
      StepIsSafe(g, c, events[0]);
      RunLogged(g, Step(g, c, events[0]), events[1..], c', id, log + items);
      Assoc(log, items, LogOf(g, Step(g, c, events[0]), events[1..], id));
    }
  }

  /** In every run, for every request: it is in flight while its log gives no answer; a response to it, returned or kept
      back, is for its protocol and is the answer that its log gives; and where its log gives one, that response is
      there. */
  lemma {:induction false} AnsweredExactly(g: Config, c0: Conn, events: seq<Event>, c: Conn, id: StreamId, a: Answer)
    requires Initial(c0) && Run(g, c0, events, c) && id in c.issued
    ensures var answer := AnswerOf(LogOf(g, c0, events, id));
            && (id in c.inflight <==> answer == None)
            && (Response(id, c.issued[id].protocol, a) in History(c) <==> answer == Some(a))
            && (forall m :: m in History(c) && m.Response? && m.id == id ==> m.protocol == c.issued[id].protocol)
  {
    InitiallySafe(c0);
    EveryConnectionIsSafe(g, c0, events, c);
    IssuedAreOdd(g, c0, events, c, id);
    var log := LogOf(g, c0, events, id);
    RunLogged(g, c0, events, c, id, []);
    assert [] + log == log;
    if AnswerOf(log) == Some(a) {
      assert Places(c, id) == 1;
      var m := SomeResponse(History(c), id);
    }
  }

  lemma {:induction false} SomeResponse(h: seq<Message>, id: StreamId) returns (m: Message)
    requires Responses(h, id) > 0
    ensures m in h && m.Response? && m.id == id
  {
    m := h[|h| - 1];
    if !(m.Response? && m.id == id) { m := SomeResponse(h[..|h| - 1], id); }
  }

  lemma {:induction false} IssuedAreOdd(g: Config, c: Conn, events: seq<Event>, c': Conn, id: StreamId)
    requires Safe(c) && Run(g, c, events, c') && id in c'.issued && (id in c.issued ==> id % 2 == 1)
    ensures id % 2 == 1
    decreases |events|
  {
    if events != [] {
      var e := events[0];
      StepIsSafe(g, c, e);
      if !e.CallRequest? { var said := StepAgrees(g, c, e); }
      IssuedAreOdd(g, Step(g, c, e), events[1..], c', id);
    }
  }
}
