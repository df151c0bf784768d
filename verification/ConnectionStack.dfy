/** A connection on its session: when a request can still be answered (`src/connection.rs`,
    `src/layers/yamux.rs`). */
module ConnectionStack {
  import opened Bytes
  import opened ConnectionView
  import opened ConnectionOwners
  import opened ConnectionSafety
  import E = EndToEnd
  import H = Header
  import Flow = YamuxFlow
  import Y = YamuxView
  import R = YamuxRuns
  import D = YamuxDrain
  import S = YamuxStream
  import M = MultistreamView

  /** The session, how many of its reports the connection has taken, whether it has ended or failed, and the
      connection above it. */
  datatype Stack = Stack(view: Y.View, taken: nat, over: bool, conn: Conn)

  predicate Unread(s: Stack) { s.taken < |s.view.notices| }

  // ---------------------------------------------------------------------------
  // What the connection asks of the session
  // ---------------------------------------------------------------------------

  function Obey(v: Y.View, c: M.Command): Y.View
  {
    match c
    case SendBytes(id, bytes) => Y.OnStream(v, id, Flow.Send(bytes))
    case CloseStream(id) => Y.OnStream(v, id, Flow.AskClose)
    case ResetStream(id) => Y.OnStream(v, id, Flow.AskReset)
  }

  function ObeyAll(v: Y.View, commands: seq<M.Command>): Y.View
    decreases |commands|
  {
    if commands == [] then v else ObeyAll(Obey(v, commands[0]), commands[1..])
  }

  /** What was asked of the session on the way from `c` to `c'`. */
  function Asked(c: Conn, c': Conn): seq<M.Command>
  {
    if |c.net.outbox| <= |c'.net.outbox| then c'.net.outbox[|c.net.outbox|..] else []
  }

  /** The session after the connection went from `c` to `c'`: a stream opened if one was, and the commands. */
  function After(v: Y.View, c: Conn, c': Conn): Y.View
  {
    var v1 := if c'.net.nextId > c.net.nextId && v.nextId + 2 < 0x1_0000_0000 then Y.OpenOne(v) else v;
    ObeyAll(v1, Asked(c, c'))
  }

  /** Whether the session takes data for a stream now. */
  predicate TakesData(v: Y.View, id: StreamId)
  {
    id in v.accounts && Flow.QueueData(v.accounts[id].stream, []).Some?
  }

  // ---------------------------------------------------------------------------
  // Steps
  // ---------------------------------------------------------------------------

  /** A call of the user's, a turn of `next`, a frame of the peer's, or a drain of the writer. */
  datatype StackEvent = User(call: Event) | Turn(drive: Drive) | Arrives(frame: H.Frame)
    | Writes(keys: seq<StreamId>, rounds: seq<seq<nat>>)

  /** This turn goes down to the multistream layer. */
  predicate Listens(c: Conn, d: Drive)
  {
    !c.finished && c.nextBuf == [] && FirstExpired(c, d.expired) == |d.expired|
  }

  predicate TakesReport(c: Conn, d: Drive) { Listens(c, d) && c.net.layer.readFrom == None && !d.ended }

  /** The session's answer to a command that sends data is what the connection was told. */
  predicate ToldRight(v: Y.View, commands: seq<M.Command>, next: StreamId, takes: bool)
  {
    commands != [] && commands[0].SendBytes? && commands[0].id != next ==> takes == TakesData(v, commands[0].id)
  }

  /** A turn that asks the session is given its next report, or its end when it has ended. */
  predicate HonestReport(s: Stack, d: Drive)
  {
    Listens(s.conn, d) && s.conn.net.layer.readFrom == None ==>
      if d.ended then s.over && !Unread(s) else Unread(s) && d.input == E.InputOf(s.view.notices[s.taken])
  }

  /** A turn that sends data is told whether the session takes it, first in the round and then for the reply. */
  ghost predicate HonestSends(g: Config, s: Stack, d: Drive)
  {
    var c := s.conn;
    Listens(c, d) && !(d.ended && c.net.layer.readFrom == None) && Room(c.net) ==>
      var o := M.Round(c.net.layer, d.input, d.takes, g.isUtf8);
      && ToldRight(s.view, M.Round(c.net.layer, d.input, true, g.isUtf8).commands, c.net.nextId, d.takes)
      && (o.turn.Emit? ==>
            var c1 := AfterRound(c, o);
            ToldRight(ObeyAll(s.view, o.commands), Asked(c1, Handle(g, c1, o.turn.output, true).conn), c.net.nextId,
                      d.takesReply))
  }

  predicate HonestCall(s: Stack, e: Event)
  {
    match e
    case CallRespond(id, _, takes) => M.SendError(s.conn.net.layer, id, true).None? ==> takes == TakesData(s.view, id)
    case CallNotify(p, _, takes) =>
      NotifyError(s.conn, p, true).None? ==> takes == TakesData(s.view, s.conn.subs[SubOf(s.conn.subs, p)].ours.id)
    case _ => true
  }

  ghost predicate Legal(s: Stack, e: StackEvent)
  {
    match e
    case User(call) => !call.Next? && Possible(s.conn, call)
    case Turn(d) => Possible(s.conn, Next(d))
    case Arrives(f) => H.WellFormed(f)
    case Writes(keys, rounds) => R.Possible(s.view, R.Drain(keys, rounds))
  }

  /** Calls and turns are told what the session has; the session reads a frame only when all it had to report was
      taken. */
  ghost predicate Honest(g: Config, s: Stack, e: StackEvent)
  {
    match e
    case User(call) => HonestCall(s, call)
    case Turn(d) => HonestReport(s, d) && HonestSends(g, s, d)
    case Arrives(f) => !s.over && !Unread(s)
    case Writes(_, _) => true
  }

  ghost predicate Happens(g: Config, s: Stack, e: StackEvent) { Legal(s, e) && Honest(g, s, e) }

  function Moved(g: Config, s: Stack, e: StackEvent): Stack
    requires Legal(s, e)
  {
    match e
    case User(call) =>
      var c' := Step(g, s.conn, call);
      s.(view := After(s.view, s.conn, c'), conn := c')
    case Turn(d) =>
      var c' := Step(g, s.conn, Next(d));
      s.(view := After(s.view, s.conn, c'), conn := c',
         taken := if TakesReport(s.conn, d) then s.taken + 1 else s.taken)
    case Arrives(f) =>
      var r := Y.ReceiveFrame(s.view, f);
      s.(view := r.view, over := !r.verdict.Proceed?)
    case Writes(keys, rounds) => s.(view := R.Step(s.view, R.Drain(keys, rounds)))
  }

  ghost predicate StackRun(g: Config, s: Stack, events: seq<StackEvent>, s': Stack)
    decreases |events|
  {
    if events == [] then s' == s
    else Happens(g, s, events[0]) && StackRun(g, Moved(g, s, events[0]), events[1..], s')
  }

  // ---------------------------------------------------------------------------
  // A session that will never report a stream again
  // ---------------------------------------------------------------------------

  predicate Deaf(v: Y.View, id: StreamId) { id !in v.accounts || v.accounts[id].stream.openState.Reset? }

  lemma {:induction false} ResetStays(id: StreamId, a: Flow.Account, e: Flow.StreamEvent)
    requires a.stream.openState.Reset?
    ensures Flow.Apply(id, a, e).Some? ==> Flow.Apply(id, a, e).value.stream.openState.Reset?
  {
  }

  lemma {:induction false} CallStaysDeaf(v: Y.View, own: StreamId, e: Flow.StreamEvent, id: StreamId)
    requires Deaf(v, id)
    ensures Deaf(Y.OnStream(v, own, e), id) && Y.OnStream(v, own, e).notices == v.notices
  {
    if own == id && id in v.accounts { ResetStays(id, v.accounts[id], e); }
  }

  lemma {:induction false} ObeyStaysDeaf(v: Y.View, commands: seq<M.Command>, id: StreamId)
    requires Deaf(v, id)
    ensures Deaf(ObeyAll(v, commands), id)
    decreases |commands|
  {
    if commands != [] {
      match commands[0] {
        case SendBytes(own, bytes) => CallStaysDeaf(v, own, Flow.Send(bytes), id);
        case CloseStream(own) => CallStaysDeaf(v, own, Flow.AskClose, id);
        case ResetStream(own) => CallStaysDeaf(v, own, Flow.AskReset, id);
      }
      ObeyStaysDeaf(Obey(v, commands[0]), commands[1..], id);
    }
  }

  /** Commands change neither the reports nor the next identifier. */
  lemma {:induction false} ObeyKeeps(v: Y.View, commands: seq<M.Command>)
    ensures ObeyAll(v, commands).notices == v.notices && ObeyAll(v, commands).nextId == v.nextId
    decreases |commands|
  {
    if commands != [] { ObeyKeeps(Obey(v, commands[0]), commands[1..]); }
  }

  /** No notice of the stream among those from `n` on. */
  predicate NoneOf(notices: seq<Y.Notice>, n: nat, id: StreamId)
  {
    forall k :: n <= k < |notices| ==> notices[k].id != id
  }

  lemma {:induction false} NoticesElsewhere(notices: seq<Y.Notice>, f: H.Frame, isNew: bool, id: StreamId)
    requires f.header.streamId != id
    ensures NoneOf(notices + Y.NoticesOf(f, isNew), |notices|, id)
  {
  }

  /** A frame for another stream leaves this one alone. */
  lemma {:induction false} FrameElsewhere(v: Y.View, f: H.Frame, id: StreamId)
    requires H.WellFormed(f) && f.header.streamId != id
    ensures var w := Y.ReceiveFrame(v, f).view;
            && (id in w.accounts <==> id in v.accounts) && (id in v.accounts ==> w.accounts[id] == v.accounts[id])
            && v.notices <= w.notices && NoneOf(w.notices, |v.notices|, id)
  {
    NoticesElsewhere(v.notices, f, true, id);
    NoticesElsewhere(v.notices, f, false, id);
  }

  /** A frame for a stream the session is deaf to is not reported. */
  lemma {:induction false} FrameUnheard(v: Y.View, f: H.Frame)
    requires H.WellFormed(f) && Deaf(v, f.header.streamId) && f.header.streamId % 2 == 1
    ensures var w := Y.ReceiveFrame(v, f).view; Deaf(w, f.header.streamId) && w.notices == v.notices
  {
  }

  lemma {:induction false} FrameStaysDeaf(v: Y.View, f: H.Frame, id: StreamId)
    requires H.WellFormed(f) && Deaf(v, id) && id % 2 == 1
    ensures var w := Y.ReceiveFrame(v, f).view;
            Deaf(w, id) && v.notices <= w.notices && NoneOf(w.notices, |v.notices|, id)
  {
    if f.header.streamId == id { FrameUnheard(v, f); } else { FrameElsewhere(v, f, id); }
  }

  lemma {:induction false} DrainStaysDeaf(v: Y.View, keys: seq<StreamId>, rounds: seq<seq<nat>>, id: StreamId)
    requires R.Possible(v, R.Drain(keys, rounds)) && Deaf(v, id)
    ensures Deaf(R.Step(v, R.Drain(keys, rounds)), id)
  {
    var w := R.Step(v, R.Drain(keys, rounds));
    if id in v.accounts && id in w.accounts {
      D.EnumeratesByIndex(keys, R.Streams(v));
      var j := D.IndexOf(keys, R.Streams(v), id);
      D.DrainFollowsEach(R.Streams(v), keys, rounds, j);
      VisitsStayReset(id, v.accounts[id].stream, D.Column(rounds, j));
    }
  }

  lemma {:induction false} VisitsStayReset(id: StreamId, s: S.Stream, wraps: seq<nat>)
    requires s.openState.Reset?
    ensures S.Visits(id, s, wraps).stream.openState.Reset?
  {
    if wraps != [] { VisitsStayReset(id, s, wraps[..|wraps| - 1]); }
  }

  // ---------------------------------------------------------------------------
  // A connection that will never hear of a stream again
  // ---------------------------------------------------------------------------

  /** In flight, and the layer below is not reading from its stream. */
  predicate Waits(c: Conn, id: StreamId) { id in c.inflight && IsOurs(c.net, id) && c.net.layer.readFrom != Some(id) }

  lemma {:induction false} SilencedWaits(c: Conn, i: nat, id: StreamId)
    requires i < |c.subs| && Waits(c, id)
    ensures Waits(Silenced(c, i), id)
  {
  }

  lemma {:induction false} RequestWaits(c: Conn, own: StreamId, out: M.OutputState, takes: bool, id: StreamId)
    requires own in c.inflight && own != id && Waits(c, id)
    ensures Waits(OnRequest(c, own, out, takes).conn, id)
  {
  }

  lemma {:induction false} ProposalWaits(c: Conn, i: nat, own: StreamId, takes: bool, id: StreamId)
    requires i < |c.subs| && Room(c.net) && Waits(c, id)
    ensures Waits(OnProposal(c, i, own, takes).conn, id)
  {
  }

  lemma {:induction false} StrangerWaits(g: Config, c: Conn, o: M.Output, takes: bool, id: StreamId)
    requires Waits(c, id)
    ensures Waits(OnStranger(g, c, o, takes).conn, id)
  {
  }

  lemma {:induction false} HandleWaits(g: Config, c: Conn, o: M.Output, takes: bool, id: StreamId)
    requires Room(c.net) && o.streamId != id && Waits(c, id)
    ensures Waits(Handle(g, c, o, takes).conn, id)
  {
    var own := o.streamId;
    if own in c.inflight {
      RequestWaits(c, own, o.state, takes, id);
    } else if own !in c.incoming {
      UnrequestedWaits(g, c, o, takes, id);
    }
  }

  lemma {:induction false} UnrequestedWaits(g: Config, c: Conn, o: M.Output, takes: bool, id: StreamId)
    requires Room(c.net) && o.streamId !in c.inflight && o.streamId !in c.incoming && Waits(c, id)
    ensures Waits(Handle(g, c, o, takes).conn, id)
  {
    var out, inb := OutboundOf(c.subs, o.streamId), InboundOf(c.subs, o);
    if out < |c.subs| {
      SilencedWaits(c, out, id);
    } else if inb < |c.subs| {
      if c.subs[inb].theirs.Closed? {
        ProposalWaits(c, inb, o.streamId, takes, id);
      } else {
        SilencedWaits(c, inb, id);
      }
    } else {
      StrangerWaits(g, c, o, takes, id);
    }
  }

  lemma {:induction false} ListenedWaits(g: Config, c: Conn, d: Drive, id: StreamId)
    requires Room(c.net) && Waits(c, id) && (c.net.layer.readFrom == None ==> d.input.id != id)
    ensures Waits(Listened(g, c, d), id)
  {
    M.RoundElsewhere(c.net.layer, d.input, d.takes, g.isUtf8, id);
    var o := M.Round(c.net.layer, d.input, d.takes, g.isUtf8);
    ReactedWaits(g, AfterRound(c, o), o.turn, d.takesReply, id);
  }

  lemma {:induction false} ReactedWaits(g: Config, c: Conn, t: M.Turn, takes: bool, id: StreamId)
    requires Room(c.net) && Waits(c, id) && (t.Emit? ==> t.output.streamId != id)
    ensures Waits(Reacted(g, c, t, takes), id)
  {
    if t.Emit? { HandleWaits(g, c, t.output, takes, id); }
  }

  lemma {:induction false} DrivenWaits(g: Config, c: Conn, d: Drive, id: StreamId)
    requires Room(c.net) && Waits(c, id) && id !in d.expired && (TakesReport(c, d) ==> d.input.id != id)
    ensures Waits(Driven(g, c, d), id)
  {
    if Listens(c, d) && !(d.ended && c.net.layer.readFrom == None) { ListenedWaits(g, c, d, id); }
  }

  lemma {:induction false} CallWaits(g: Config, c: Conn, e: Event, id: StreamId)
    requires Possible(c, e) && !e.Next? && LeavesAlone(e, id) && Waits(c, id)
    ensures Waits(Step(g, c, e), id)
  {
    if e.CallCancelSubscription? && SubOf(c.subs, e.protocol) < |c.subs| {
      SilencedWaits(c, SubOf(c.subs, e.protocol), id);
    }
  }

  // ---------------------------------------------------------------------------
  // Both together
  // ---------------------------------------------------------------------------

  predicate Synced(s: Stack) { s.view.nextId == s.conn.net.nextId && s.taken <= |s.view.notices| }

  predicate NoReportOf(s: Stack, id: StreamId) { NoneOf(s.view.notices, s.taken, id) }

  /** The session can report nothing of the stream any more, and has nothing to report of it. */
  predicate CutOff(s: Stack, id: StreamId) { (s.over || Deaf(s.view, id)) && NoReportOf(s, id) }

  /** A request in flight that will hear nothing: its stream is gone from the multistream layer, or cut off below. */
  predicate Mute(s: Stack, id: StreamId)
  {
    Stranded(s.conn, id) || (Waits(s.conn, id) && CutOff(s, id))
  }

  predicate StackLeavesAlone(e: StackEvent, id: StreamId)
  {
    match e
    case User(call) => LeavesAlone(call, id)
    case Turn(d) => LeavesAlone(Next(d), id)
    case _ => true
  }

  lemma {:induction false} AfterKeeps(s: Stack, c': Conn)
    requires Synced(s)
             && (c'.net.nextId == s.conn.net.nextId || (c'.net.nextId == s.conn.net.nextId + 2 && Room(s.conn.net)))
    ensures var w := After(s.view, s.conn, c'); w.notices == s.view.notices && w.nextId == c'.net.nextId
  {
    var v1 := if c'.net.nextId > s.conn.net.nextId then Y.OpenOne(s.view) else s.view;
    ObeyKeeps(v1, Asked(s.conn, c'));
  }

  lemma {:induction false} AfterStaysDeaf(s: Stack, c': Conn, id: StreamId)
    requires Synced(s) && Deaf(s.view, id) && id < s.conn.net.nextId
    ensures Deaf(After(s.view, s.conn, c'), id)
  {
    var v1 := if c'.net.nextId > s.conn.net.nextId && s.view.nextId + 2 < 0x1_0000_0000 then Y.OpenOne(s.view)
      else s.view;
    ObeyStaysDeaf(v1, Asked(s.conn, c'), id);
  }

  /** A connection opens at most one stream a step. */
  predicate OpensOne(c: Conn, c': Conn)
  {
    c'.net.nextId == c.net.nextId || (c'.net.nextId == c.net.nextId + 2 && Room(c.net))
  }

  lemma {:induction false} ReactedOpensOne(g: Config, c: Conn, t: M.Turn, takes: bool)
    requires Room(c.net)
    ensures OpensOne(c, Reacted(g, c, t, takes))
  {
  }

  lemma {:induction false} StepOpensOne(g: Config, c: Conn, e: Event)
    requires Possible(c, e)
    ensures OpensOne(c, Step(g, c, e))
  {
    if e.Next? && Listens(c, e.drive) {
      var o := M.Round(c.net.layer, e.drive.input, e.drive.takes, g.isUtf8);
      ReactedOpensOne(g, AfterRound(c, o), o.turn, e.drive.takesReply);
    }
  }

  lemma {:induction false} MovedSynced(g: Config, s: Stack, e: StackEvent)
    requires Synced(s) && Happens(g, s, e)
    ensures Synced(Moved(g, s, e))
  {
    match e
    case User(call) => ConnSynced(g, s, call);
    case Turn(d) => TurnSynced(g, s, d);
    case Arrives(f) => FrameGrows(s.view, f);
    case Writes(_, _) =>
  }

  lemma {:induction false} ConnSynced(g: Config, s: Stack, e: Event)
    requires Synced(s) && Possible(s.conn, e)
    ensures var c' := Step(g, s.conn, e); var w := After(s.view, s.conn, c');
            w.notices == s.view.notices && w.nextId == c'.net.nextId
  {
    StepOpensOne(g, s.conn, e);
    AfterKeeps(s, Step(g, s.conn, e));
  }

  lemma {:induction false} TurnSynced(g: Config, s: Stack, d: Drive)
    requires Synced(s) && Possible(s.conn, Next(d)) && HonestReport(s, d)
    ensures Synced(Moved(g, s, Turn(d)))
  {
    ConnSynced(g, s, Next(d));
  }

  lemma {:induction false} FrameGrows(v: Y.View, f: H.Frame)
    requires H.WellFormed(f)
    ensures var w := Y.ReceiveFrame(v, f).view; |v.notices| <= |w.notices| && w.nextId == v.nextId
  {
  }

  lemma {:induction false} CallStaysMute(g: Config, s: Stack, call: Event, id: StreamId)
    requires Synced(s) && Happens(g, s, User(call)) && LeavesAlone(call, id) && Waits(s.conn, id) && CutOff(s, id)
    ensures var s' := Moved(g, s, User(call)); Waits(s'.conn, id) && CutOff(s', id)
  {
    CallWaits(g, s.conn, call, id);
    ConnSynced(g, s, call);
    if Deaf(s.view, id) { AfterStaysDeaf(s, Step(g, s.conn, call), id); }
  }

  lemma {:induction false} TurnStaysMute(g: Config, s: Stack, d: Drive, id: StreamId)
    requires Synced(s) && Possible(s.conn, Next(d)) && HonestReport(s, d) && id !in d.expired && Waits(s.conn, id)
             && CutOff(s, id)
    ensures var s' := Moved(g, s, Turn(d)); Waits(s'.conn, id) && CutOff(s', id)
  {
    DrivenWaits(g, s.conn, d, id);
    ConnSynced(g, s, Next(d));
    if Deaf(s.view, id) { AfterStaysDeaf(s, Driven(g, s.conn, d), id); }
  }

  lemma {:induction false} FrameStaysMute(g: Config, s: Stack, f: H.Frame, id: StreamId)
    requires Synced(s) && Happens(g, s, Arrives(f)) && Waits(s.conn, id) && CutOff(s, id)
    ensures CutOff(Moved(g, s, Arrives(f)), id)
  {
    FrameStaysDeaf(s.view, f, id);
  }

  lemma {:induction false} StaysMute(g: Config, s: Stack, e: StackEvent, id: StreamId)
    requires Synced(s) && Happens(g, s, e) && StackLeavesAlone(e, id) && Mute(s, id)
    ensures Mute(Moved(g, s, e), id)
  {
    match e
    case User(call) =>
      if Stranded(s.conn, id) { StepKeepsStranded(g, s.conn, call, id); } else { CallStaysMute(g, s, call, id); }
    case Turn(d) =>
      if Stranded(s.conn, id) { StepKeepsStranded(g, s.conn, Next(d), id); } else { TurnStaysMute(g, s, d, id); }
    case Arrives(f) =>
      if !Stranded(s.conn, id) { FrameStaysMute(g, s, f, id); }
    case Writes(keys, rounds) =>
      if !Stranded(s.conn, id) && Deaf(s.view, id) { DrainStaysDeaf(s.view, keys, rounds, id); }
  }

  predicate StackLeftAlone(events: seq<StackEvent>, id: StreamId)
  {
    events == [] || (StackLeavesAlone(events[0], id) && StackLeftAlone(events[1..], id))
  }

  lemma {:induction false} MuteForever(g: Config, s: Stack, events: seq<StackEvent>, s': Stack, id: StreamId)
    requires Synced(s) && Mute(s, id) && StackRun(g, s, events, s') && StackLeftAlone(events, id)
    ensures Mute(s', id)
    decreases |events|
  {
    if events != [] {
      MovedSynced(g, s, events[0]);
      StaysMute(g, s, events[0], id);
      MuteForever(g, Moved(g, s, events[0]), events[1..], s', id);
    }
  }

  // ---------------------------------------------------------------------------
  // Every stack
  // ---------------------------------------------------------------------------

  /** Only the peer's identifiers are reported opened. */
  predicate OpenedAreEven(v: Y.View)
  {
    forall k :: 0 <= k < |v.notices| && v.notices[k].Opened? ==> v.notices[k].id % 2 == 0
  }

  ghost predicate StackSafe(s: Stack) { Synced(s) && Safe(s.conn) && OpenedAreEven(s.view) }

  lemma {:induction false} FrameOpensEven(v: Y.View, f: H.Frame)
    requires H.WellFormed(f) && OpenedAreEven(v)
    ensures OpenedAreEven(Y.ReceiveFrame(v, f).view)
  {
  }

  lemma {:induction false} MovedConnSafe(g: Config, s: Stack, e: StackEvent)
    requires Safe(s.conn) && Legal(s, e)
    ensures Safe(Moved(g, s, e).conn)
  {
    match e
    case User(call) => StepIsSafe(g, s.conn, call);
    case Turn(d) => StepIsSafe(g, s.conn, Next(d));
    case _ =>
  }

  lemma {:induction false} MovedEven(g: Config, s: Stack, e: StackEvent)
    requires Synced(s) && OpenedAreEven(s.view) && Legal(s, e)
    ensures OpenedAreEven(Moved(g, s, e).view)
  {
    match e
    case User(call) => ConnSynced(g, s, call);
    case Turn(d) => ConnSynced(g, s, Next(d));
    case Arrives(f) => FrameOpensEven(s.view, f);
    case Writes(_, _) =>
  }

  lemma {:induction false} MovedSafe(g: Config, s: Stack, e: StackEvent)
    requires StackSafe(s) && Happens(g, s, e)
    ensures StackSafe(Moved(g, s, e))
  {
    MovedSynced(g, s, e);
    MovedConnSafe(g, s, e);
    MovedEven(g, s, e);
  }

  /** A new connection on a new session. */
  ghost predicate NewStack(s: Stack) { s.view == Y.INITIAL && s.taken == 0 && !s.over && Initial(s.conn) }

  /** Connection and session stay in step in every run, and the connection safe; what it is told of streams opened is
      always about even ones, which is all it relies on. */
  lemma {:induction false} EveryStackIsSafe(g: Config, s: Stack, events: seq<StackEvent>, s': Stack)
    requires (StackSafe(s) || NewStack(s)) && StackRun(g, s, events, s')
    ensures StackSafe(s')
    ensures Unread(s') && E.InputOf(s'.view.notices[s'.taken]).RemoteOpened? ==> s'.view.notices[s'.taken].id % 2 == 0
    decreases |events|
  {
    if NewStack(s) { InitiallySafe(s.conn); }
    if events != [] {
      MovedSafe(g, s, events[0]);
      EveryStackIsSafe(g, Moved(g, s, events[0]), events[1..], s');
    }
  }

  // ---------------------------------------------------------------------------
  // When a request can still be answered
  // ---------------------------------------------------------------------------

  /** Some continuation, without cancelling it and without a timeout, answers the request. */
  ghost predicate CanBeAnswered(g: Config, s: Stack, id: StreamId)
  {
    exists events: seq<StackEvent>, s': Stack ::
      StackRun(g, s, events, s') && StackLeftAlone(events, id) && id !in s'.conn.inflight
  }

  /** Nothing is left to do until the peer sends something. */
  predicate AtRest(s: Stack) { Idle(s.conn) && !Unread(s) }

  /** The session is up, and its stream can still receive. */
  predicate CanReport(s: Stack, id: StreamId) { !s.over && !Deaf(s.view, id) }

  /** In any state: a request can be answered only if the multistream layer still has its stream, and is reading from
      it, or the session has a report of it, or can still have one. */
  lemma {:induction false} AnsweredOnlyIfHeard(g: Config, s: Stack, id: StreamId)
    requires Synced(s) && id in s.conn.inflight && IsOurs(s.conn.net, id) && CanBeAnswered(g, s, id)
    ensures id in s.conn.net.layer.slots
    ensures s.conn.net.layer.readFrom == Some(id) || !NoReportOf(s, id) || CanReport(s, id)
  {
    var events, s' :| StackRun(g, s, events, s') && StackLeftAlone(events, id) && id !in s'.conn.inflight;
    if Mute(s, id) { MuteForever(g, s, events, s', id); }
  }

  /** RST on the stream: the session reports it closed. */
  lemma {:induction false} ResetReported(v: Y.View, id: StreamId)
    requires !Deaf(v, id)
    ensures var f := H.Frame(H.ResetStream(id), []);
            && H.WellFormed(f)
            && Y.ReceiveFrame(v, f).verdict == Y.Proceed
               && Y.ReceiveFrame(v, f).view.notices == v.notices + [Y.Closed(id)]
            && Y.ReceiveFrame(v, f).view.nextId == v.nextId
  {
    var f := H.Frame(H.ResetStream(id), []);
    assert H.Contains(H.RST, H.RST) && !H.Contains(H.RST, H.SYN);
    assert Y.NoticesOf(f, false) == [Y.Closed(id)];
  }

  /** The close is the session's next report, and the layer has the stream. */
  ghost predicate CloseIsNext(s: Stack, id: StreamId)
  {
    && Safe(s.conn) && Idle(s.conn) && Room(s.conn.net) && id in s.conn.inflight && id in s.conn.net.layer.slots
    && Unread(s) && s.view.notices[s.taken] == Y.Closed(id)
  }

  lemma {:induction false} CloseIsHonest(g: Config, s: Stack, id: StreamId)
    requires CloseIsNext(s, id)
    ensures Happens(g, s, Turn(TakeClose(id)))
  {
    var c, d := s.conn, TakeClose(id);
    var o := M.Round(c.net.layer, d.input, true, g.isUtf8);
    assert o.commands == [];
    var c1 := AfterRound(c, o);
    var e := OnRequest(c1, id, M.Closed(M.ClosedByRemote), true);
    assert Asked(c1, e.conn) == [M.ResetStream(id)];
  }

  lemma {:induction false} CloseTakenUp(g: Config, s: Stack, id: StreamId)
    requires CloseIsNext(s, id)
    ensures id !in Moved(g, s, Turn(TakeClose(id))).conn.inflight
  {
    CloseAnswers(g, s.conn, id);
  }

  /** At rest, without a timeout and without a cancellation, a request can still be answered if and only if the
      multistream layer has its stream and the session can still report it. */
  lemma {:induction false} AnswerableExactlyWhileHeard(g: Config, s: Stack, id: StreamId)
    requires Synced(s) && Safe(s.conn) && AtRest(s) && Room(s.conn.net) && id in s.conn.inflight
    ensures CanBeAnswered(g, s, id) <==> id in s.conn.net.layer.slots && CanReport(s, id)
  {
    if id in s.conn.net.layer.slots && CanReport(s, id) {
      HeardCanBeAnswered(g, s, id);
    } else if CanBeAnswered(g, s, id) {
      AnsweredOnlyIfHeard(g, s, id);
    }
  }

  lemma {:induction false} HeardCanBeAnswered(g: Config, s: Stack, id: StreamId)
    requires Synced(s) && Safe(s.conn) && AtRest(s) && Room(s.conn.net) && id in s.conn.inflight
    requires id in s.conn.net.layer.slots && CanReport(s, id)
    ensures CanBeAnswered(g, s, id)
  {
    ResetReported(s.view, id);
    var first, second := Arrives(H.Frame(H.ResetStream(id), [])), Turn(TakeClose(id));
    CloseIsHonest(g, Moved(g, s, first), id);
    CloseTakenUp(g, Moved(g, s, first), id);
    TwoSteps(g, s, first, second);
    BothLeaveAlone(first, second, id);
  }

  lemma {:induction false} BothLeaveAlone(a: StackEvent, b: StackEvent, id: StreamId)
    requires StackLeavesAlone(a, id) && StackLeavesAlone(b, id)
    ensures StackLeftAlone([a, b], id)
  {
    assert [a, b][1..] == [b] && [b][1..] == [];
  }

  lemma {:induction false} TwoSteps(g: Config, s: Stack, a: StackEvent, b: StackEvent)
    requires Happens(g, s, a) && Happens(g, Moved(g, s, a), b)
    ensures StackRun(g, s, [a, b], Moved(g, Moved(g, s, a), b))
  {
    assert [a, b][1..] == [b] && [b][1..] == [];
    assert StackRun(g, Moved(g, s, a), [b], Moved(g, Moved(g, s, a), b));
  }

  /** A PING or GO AWAY that names the request's stream cuts it off: the session resets the stream without a word, the
      multistream layer keeps it, and the request is never answered. */
  lemma {:induction false} PingCutsOff(g: Config, s: Stack, id: StreamId, frameType: H.FrameType, flags: U16,
                                       length: U32)
    requires Synced(s) && Safe(s.conn) && AtRest(s) && Room(s.conn.net) && id in s.conn.inflight && CanReport(s, id)
    requires frameType.PingFrame? || frameType.GoAwayFrame?
    ensures var f := H.Frame(H.YamuxHeader(H.VERSION, frameType, flags, id, length), []);
            && Happens(g, s, Arrives(f))
            && Moved(g, s, Arrives(f)).view.notices == s.view.notices
            && Moved(g, s, Arrives(f)).conn == s.conn
            && !CanBeAnswered(g, Moved(g, s, Arrives(f)), id)
  {
    var f := H.Frame(H.YamuxHeader(H.VERSION, frameType, flags, id, length), []);
    var s' := Moved(g, s, Arrives(f));
    assert s'.view == Y.OnStream(s.view, id, Flow.AskReset);
    assert Deaf(s'.view, id);
    if CanBeAnswered(g, s', id) { AnsweredOnlyIfHeard(g, s', id); }
  }
}
