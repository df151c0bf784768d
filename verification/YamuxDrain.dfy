/** What one drain of all the streams' queues did, told stream by stream
    (`write_next`, lines 694-802 of `src/layers/yamux.rs`). */
module YamuxDrain {
  import opened Bytes
  import opened Header
  import opened YamuxStream
  import opened YamuxFlow
  import opened YamuxView

  /** The frames of one stream among all the frames written. */
  function ForStream(log: seq<Frame>, id: StreamId): seq<Frame>
  {
    if log == [] then []
    else (if log[0].header.streamId == id then [log[0]] else []) + ForStream(log[1..], id)
  }

  lemma {:induction false} ForStreamAppend(a: seq<Frame>, b: seq<Frame>, id: StreamId)
    ensures ForStream(a + b, id) == ForStream(a, id) + ForStream(b, id)
  {
    if a == [] {
      assert a + b == b;
    } else {
      assert (a + b)[1..] == a[1..] + b;
      ForStreamAppend(a[1..], b, id);
      Assoc(if a[0].header.streamId == id then [a[0]] else [], ForStream(a[1..], id), ForStream(b, id));
    }
  }

  lemma {:induction false} ForStreamOwner(frames: seq<Frame>, owner: StreamId, id: StreamId)
    requires forall f :: f in frames ==> f.header.streamId == owner
    ensures ForStream(frames, id) == if id == owner then frames else []
  {
    if frames != [] { ForStreamOwner(frames[1..], owner, id); }
  }

  /** The table of streams as the writer goes over it, the frames written and the streams to remove. */
  datatype Writing = Writing(streams: map<StreamId, Stream>, log: seq<Frame>, removed: set<StreamId>)

  function Turn(w: Writing, id: StreamId, wrap: nat): Writing
  {
    if id !in w.streams then w else
    var v := Visit(id, w.streams[id], wrap);
    Writing(w.streams[id := v.stream], w.log + v.frames, if v.remove then w.removed + {id} else w.removed)
  }

  /** One pass, as far as there are wrap points: the streams in the order of `keys`, one visit each. */
  function PassOver(w: Writing, keys: seq<StreamId>, wraps: seq<nat>): (r: Writing)
    ensures r.streams.Keys == w.streams.Keys
    decreases |wraps|
  {
    if wraps == [] || |wraps| > |keys| then w
    else
      var last := |wraps| - 1;
      Turn(PassOver(w, keys, wraps[..last]), keys[last], wraps[last])
  }

  lemma {:induction false} PassOverSnoc(w: Writing, keys: seq<StreamId>, wraps: seq<nat>, wrap: nat)
    requires |wraps| < |keys|
    ensures PassOver(w, keys, wraps + [wrap]) == Turn(PassOver(w, keys, wraps), keys[|wraps|], wrap)
  {
  }

  /** A whole drain: one full pass for each round. */
  function Passes(w: Writing, keys: seq<StreamId>, rounds: seq<seq<nat>>): (r: Writing)
    ensures r.streams.Keys == w.streams.Keys
  {
    if rounds == [] then w
    else PassOver(Passes(w, keys, rounds[..|rounds| - 1]), keys, rounds[|rounds| - 1])
  }

  ghost predicate Distinct(keys: seq<StreamId>)
  {
    forall i, j :: 0 <= i < j < |keys| ==> keys[i] != keys[j]
  }

  /** What `Turn` does to the stream it visits and to the others. */
  lemma {:induction false} TurnFor(w: Writing, id: StreamId, wrap: nat, other: StreamId)
    requires id in w.streams && other in w.streams
    ensures var v := Visit(id, w.streams[id], wrap);
            var r := Turn(w, id, wrap);
            && (other == id ==> r.streams[id] == v.stream && (id in r.removed <==> id in w.removed || v.remove))
            && (other != id ==> r.streams[other] == w.streams[other] && (other in r.removed <==> other in w.removed))
            && ForStream(r.log, other) == ForStream(w.log, other) + if other == id then v.frames else []
  {
    var v := Visit(id, w.streams[id], wrap);
    VisitWellFormed(id, w.streams[id], wrap);
    ForStreamAppend(w.log, v.frames, other);
    ForStreamOwner(v.frames, id, other);
  }

  /** A stream `s` became `t` in one visit that wrote `frames`. */
  ghost predicate VisitedOnce(w: Writing, r: Writing, id: StreamId, wrap: nat)
    requires id in w.streams && id in r.streams
  {
    var v := Visit(id, w.streams[id], wrap);
    && r.streams[id] == v.stream
    && ForStream(r.log, id) == ForStream(w.log, id) + v.frames
    && (id in r.removed <==> id in w.removed || v.remove)
  }

  ghost predicate Untouched(w: Writing, r: Writing, id: StreamId)
    requires id in w.streams && id in r.streams
  {
    && r.streams[id] == w.streams[id]
    && ForStream(r.log, id) == ForStream(w.log, id)
    && (id in r.removed <==> id in w.removed)
  }

  /** In a pass every stream is visited exactly once, whatever happens to the others. */
  lemma {:induction false} PassVisitsEach(w: Writing, keys: seq<StreamId>, wraps: seq<nat>, j: nat)
    requires |wraps| <= |keys| && j < |keys| && Distinct(keys)
    requires forall i :: 0 <= i < |keys| ==> keys[i] in w.streams
    ensures j < |wraps| ==> VisitedOnce(w, PassOver(w, keys, wraps), keys[j], wraps[j])
    ensures j >= |wraps| ==> Untouched(w, PassOver(w, keys, wraps), keys[j])
  {
    if wraps != [] {
      var last := |wraps| - 1;
      PassVisitsEach(w, keys, wraps[..last], j);
      assert wraps == wraps[..last] + [wraps[last]];
      PassOverSnoc(w, keys, wraps[..last], wraps[last]);
      TurnFor(PassOver(w, keys, wraps[..last]), keys[last], wraps[last], keys[j]);
    }
  }

  /** The wrap points one stream met, pass by pass. */
  function Column(rounds: seq<seq<nat>>, j: nat): seq<nat>
    requires forall i :: 0 <= i < |rounds| ==> j < |rounds[i]|
  {
    seq(|rounds|, i requires 0 <= i < |rounds| => rounds[i][j])
  }

  lemma {:induction false} ColumnSnoc(rounds: seq<seq<nat>>, j: nat)
    requires rounds != [] && forall i :: 0 <= i < |rounds| ==> j < |rounds[i]|
    ensures Column(rounds, j) == Column(rounds[..|rounds| - 1], j) + [rounds[|rounds| - 1][j]]
  {
  }

  /** Seen from one stream, a drain is that stream's visits and nothing else. */
  ghost predicate Follows(s: Stream, r: Writing, id: StreamId, wraps: seq<nat>)
    requires id in r.streams
  {
    Visits(id, s, wraps) == Visited(r.streams[id], ForStream(r.log, id), id in r.removed)
  }

  lemma {:induction false} DrainFollowsEach(s0: map<StreamId, Stream>, keys: seq<StreamId>, rounds: seq<seq<nat>>,
                                            j: nat)
    requires j < |keys| && Distinct(keys) && forall i :: 0 <= i < |keys| ==> keys[i] in s0
    requires forall i :: 0 <= i < |rounds| ==> |rounds[i]| == |keys|
    ensures Follows(s0[keys[j]], Passes(Writing(s0, [], {}), keys, rounds), keys[j], Column(rounds, j))
  {
    if rounds != [] {
      var init, round := rounds[..|rounds| - 1], rounds[|rounds| - 1];
      DrainFollowsEach(s0, keys, init, j);
      var w := Passes(Writing(s0, [], {}), keys, init);
      PassVisitsEach(w, keys, round, j);
      ColumnSnoc(rounds, j);
      VisitsSnoc(keys[j], s0[keys[j]], Column(init, j), round[j]);
    }
  }

  predicate Ascending(keys: seq<StreamId>)
  {
    |keys| <= 1 || (keys[0] < keys[1] && Ascending(keys[1..]))
  }

  function Members(keys: seq<StreamId>): set<StreamId>
  {
    if keys == [] then {} else {keys[0]} + Members(keys[1..])
  }

  /** The order in which a BTreeMap is walked. */
  ghost predicate Enumerates(keys: seq<StreamId>, m: map<StreamId, Stream>)
  {
    Ascending(keys) && Members(keys) == m.Keys
  }

  lemma {:induction false} MembersByIndex(keys: seq<StreamId>)
    ensures forall i :: 0 <= i < |keys| ==> keys[i] in Members(keys)
    ensures forall id :: id in Members(keys) ==> id in keys
  {
    if keys != [] {
      MembersByIndex(keys[1..]);
      assert forall i :: 0 < i < |keys| ==> keys[i] == keys[1..][i - 1];
    }
  }

  lemma {:induction false} AscendingByIndex(keys: seq<StreamId>)
    requires Ascending(keys)
    ensures forall i, j :: 0 <= i < j < |keys| ==> keys[i] < keys[j]
  {
    if |keys| > 1 {
      AscendingByIndex(keys[1..]);
      forall i, j | 0 <= i < j < |keys| ensures keys[i] < keys[j] {
        assert keys[j] == keys[1..][j - 1];
        if i > 0 { assert keys[i] == keys[1..][i - 1]; }
      }
    }
  }

  lemma {:induction false} EnumeratesByIndex(keys: seq<StreamId>, m: map<StreamId, Stream>)
    requires Enumerates(keys, m)
    ensures Distinct(keys)
    ensures forall i :: 0 <= i < |keys| ==> keys[i] in m
  {
    MembersByIndex(keys);
    AscendingByIndex(keys);
  }

  lemma {:induction false} IndexOf(keys: seq<StreamId>, m: map<StreamId, Stream>, id: StreamId) returns (j: nat)
    requires Enumerates(keys, m) && id in m
    ensures j < |keys| && keys[j] == id
  {
    MembersByIndex(keys);
    j :| 0 <= j < |keys| && keys[j] == id;
  }

  /** A drain of the table `s0`: a whole number of passes, of which the last wrote nothing. */
  ghost predicate FullDrain(s0: map<StreamId, Stream>, keys: seq<StreamId>, rounds: seq<seq<nat>>, r: Writing)
  {
    && Enumerates(keys, s0)
    && rounds != [] && (forall i :: 0 <= i < |rounds| ==> |rounds[i]| == |keys|)
    && r == Passes(Writing(s0, [], {}), keys, rounds)
    && r.log == Passes(Writing(s0, [], {}), keys, rounds[..|rounds| - 1]).log
  }

  function TotalWeight(keys: seq<StreamId>, m: map<StreamId, Stream>): nat
  {
    if keys == [] then 0
    else (if keys[0] in m then Weight(m[keys[0]].outbound) else 0) + TotalWeight(keys[1..], m)
  }

  lemma {:induction false} TotalWeightUpdate(keys: seq<StreamId>, m: map<StreamId, Stream>, i: nat, s: Stream)
    requires i < |keys| && Distinct(keys) && forall j :: 0 <= j < |keys| ==> keys[j] in m
    ensures TotalWeight(keys, m[keys[i] := s]) + Weight(m[keys[i]].outbound)
            == TotalWeight(keys, m) + Weight(s.outbound)
  {
    if i == 0 {
      TotalWeightOthers(keys[1..], m, keys[0], s);
    } else {
      TotalWeightUpdate(keys[1..], m, i - 1, s);
    }
  }

  lemma {:induction false} TotalWeightOthers(keys: seq<StreamId>, m: map<StreamId, Stream>, id: StreamId, s: Stream)
    requires id !in keys
    ensures TotalWeight(keys, m[id := s]) == TotalWeight(keys, m)
  {
    if keys != [] { TotalWeightOthers(keys[1..], m, id, s); }
  }

  /** A pass that writes leaves less to write; one that does not write leaves all of it. */
  lemma {:induction false} PassProgress(w: Writing, keys: seq<StreamId>, wraps: seq<nat>)
    requires |wraps| <= |keys| && Distinct(keys) && forall i :: 0 <= i < |keys| ==> keys[i] in w.streams
    ensures var r := PassOver(w, keys, wraps);
            && |r.log| >= |w.log| && r.log[..|w.log|] == w.log
            && (r.log == w.log ==> TotalWeight(keys, r.streams) == TotalWeight(keys, w.streams))
            && (r.log != w.log ==> TotalWeight(keys, r.streams) < TotalWeight(keys, w.streams))
  {
    if wraps != [] {
      var last := |wraps| - 1;
      var r := PassOver(w, keys, wraps[..last]);
      PassProgress(w, keys, wraps[..last]);
      TotalWeightUpdate(keys, r.streams, last, Visit(keys[last], r.streams[keys[last]], wraps[last]).stream);
      VisitAmounts(keys[last], r.streams[keys[last]], wraps[last]);
    }
  }

  /** A pass that wrote nothing wrote nothing for any stream. */
  lemma {:induction false} IdlePass(w: Writing, keys: seq<StreamId>, wraps: seq<nat>, j: nat)
    requires j < |wraps| <= |keys| && Distinct(keys) && forall i :: 0 <= i < |keys| ==> keys[i] in w.streams
    requires PassOver(w, keys, wraps).log == w.log
    ensures Visit(keys[j], w.streams[keys[j]], wraps[j]).frames == []
  {
    PassVisitsEach(w, keys, wraps, j);
    var frames := Visit(keys[j], w.streams[keys[j]], wraps[j]).frames;
    assert |ForStream(w.log, keys[j]) + frames| == |ForStream(w.log, keys[j])|;
  }

  /** The drain loop's exit, seen from each stream: its last visit wrote nothing. */
  lemma {:induction false} DrainStopsEach(s0: map<StreamId, Stream>, keys: seq<StreamId>, rounds: seq<seq<nat>>,
                                          r: Writing, j: nat)
    requires FullDrain(s0, keys, rounds, r) && j < |keys| && keys[j] in s0
    ensures Stopped(keys[j], s0[keys[j]], Column(rounds, j))
  {
    EnumeratesByIndex(keys, s0);
    LastPassIdle(s0, keys, rounds[..|rounds| - 1], rounds[|rounds| - 1], j);
    ColumnSnoc(rounds, j);
  }

  lemma {:induction false} LastPassIdle(s0: map<StreamId, Stream>, keys: seq<StreamId>, init: seq<seq<nat>>,
                                        round: seq<nat>, j: nat)
    requires j < |keys| && Distinct(keys) && (forall i :: 0 <= i < |keys| ==> keys[i] in s0)
    requires |round| == |keys| && forall i :: 0 <= i < |init| ==> |init[i]| == |keys|
    requires var w := Passes(Writing(s0, [], {}), keys, init); PassOver(w, keys, round).log == w.log
    ensures Stopped(keys[j], s0[keys[j]], Column(init, j) + [round[j]])
  {
    var w := Passes(Writing(s0, [], {}), keys, init);
    DrainFollowsEach(s0, keys, init, j);
    IdlePass(w, keys, round, j);
    StoppedAfter(keys[j], s0[keys[j]], Column(init, j), round[j], w);
  }

  lemma {:induction false} StoppedAfter(id: StreamId, s: Stream, wraps: seq<nat>, wrap: nat, w: Writing)
    requires id in w.streams && Follows(s, w, id, wraps) && Visit(id, w.streams[id], wrap).frames == []
    ensures Stopped(id, s, wraps + [wrap])
  {
  }

  /** The accounts a drain leaves: visited, charged for what was written, removed after a reset. */
  function Settle(accounts: map<StreamId, Account>, r: Writing): map<StreamId, Account>
  {
    map id | id in accounts && id in r.streams && id !in r.removed ::
      Account(r.streams[id], Charge(accounts[id].ledger, ForStream(r.log, id)))
  }

  lemma {:induction false} ChargeTwice(l: Ledger, a: seq<Frame>, b: seq<Frame>)
    ensures Charge(Charge(l, a), b) == Charge(l, a + b)
  {
    FrameSums(a, b);
  }

  lemma {:induction false} VisitsKeepBalance(id: StreamId, a: Account, wraps: seq<nat>)
    requires Balanced(a)
    ensures var v := Visits(id, a.stream, wraps); Balanced(Account(v.stream, Charge(a.ledger, v.frames)))
  {
    if wraps == [] {
      assert Charge(a.ledger, []) == a.ledger;
    } else {
      var init, wrap := wraps[..|wraps| - 1], wraps[|wraps| - 1];
      VisitsKeepBalance(id, a, init);
      var v := Visits(id, a.stream, init);
      VisitKeepsBalance(id, Account(v.stream, Charge(a.ledger, v.frames)), wrap);
      ChargeTwice(a.ledger, v.frames, Visit(id, v.stream, wrap).frames);
    }
  }

  lemma {:induction false} VisitsKeepClosed(id: StreamId, s: Stream, wraps: seq<nat>)
    requires s.openState.FinByThem? || s.openState.Reset?
    ensures var t := Visits(id, s, wraps).stream; t.openState.FinByThem? || t.openState.Reset?
  {
    if wraps != [] { VisitsKeepClosed(id, s, wraps[..|wraps| - 1]); }
  }

  lemma {:induction false} SettledStream(s0: map<StreamId, Stream>, a: Account, keys: seq<StreamId>,
                                         rounds: seq<seq<nat>>, r: Writing, j: nat)
    requires FullDrain(s0, keys, rounds, r) && j < |keys| && keys[j] in s0 && s0[keys[j]] == a.stream && Balanced(a)
    ensures var b := Account(r.streams[keys[j]], Charge(a.ledger, ForStream(r.log, keys[j])));
            Balanced(b) && (CannotReceive(a) ==> CannotReceive(b))
  {
    EnumeratesByIndex(keys, s0);
    DrainFollowsEach(s0, keys, rounds, j);
    VisitsKeepBalance(keys[j], a, Column(rounds, j));
    if CannotReceive(a) { VisitsKeepClosed(keys[j], a.stream, Column(rounds, j)); }
  }

  /** A drain, too, keeps the session sound. */
  lemma {:induction false} DrainKeepsSound(v: View, s0: map<StreamId, Stream>, keys: seq<StreamId>,
                                           rounds: seq<seq<nat>>, r: Writing)
    requires Sound(v) && FullDrain(s0, keys, rounds, r)
    requires s0 == map id | id in v.accounts :: v.accounts[id].stream
    ensures Sound(v.(accounts := Settle(v.accounts, r), writeBuf := []))
  {
    var after := Settle(v.accounts, r);
    forall id | id in after ensures Balanced(after[id])
      && (CannotReceive(v.accounts[id]) ==> CannotReceive(after[id])) {
      var j := IndexOf(keys, s0, id);
      SettledStream(s0, v.accounts[id], keys, rounds, r, j);
    }
    SettledTableSound(v, after);
  }

  lemma {:induction false} SettledTableSound(v: View, after: map<StreamId, Account>)
    requires Sound(v) && after.Keys <= v.accounts.Keys
    requires forall id :: id in after ==>
               Balanced(after[id]) && (CannotReceive(v.accounts[id]) ==> CannotReceive(after[id]))
    ensures Sound(v.(accounts := after, writeBuf := []))
  {
  }

  /** Within one drain: from its bytes alone a reader recovers, for each stream, the queue it started with, in
      order up to what the window still holds back, for every split of the ring buffers and every
      interleaving, exactly when the queue fits its window. Over many drains see `YamuxRuns.WireRoundTrip`. */
  lemma {:induction false} DrainRoundTrip(s0: map<StreamId, Stream>, keys: seq<StreamId>, rounds: seq<seq<nat>>,
                                          r: Writing, id: StreamId)
    requires FullDrain(s0, keys, rounds, r) && id in s0 && WellQueued(s0[id].outbound)
    ensures var seen := Written(ForStream(ParseFrames(Serialize(r.log)), id));
            seen + Queued(r.streams[id].outbound) == Queued(s0[id].outbound)
            <==> Fits(s0[id].outbound, s0[id].sendWindow)
  {
    var j := IndexOf(keys, s0, id);
    EnumeratesByIndex(keys, s0);
    PassesWellFormed(Writing(s0, [], {}), keys, rounds);
    ParseSerialize(r.log);
    DrainFollowsEach(s0, keys, rounds, j);
    DrainStopsEach(s0, keys, rounds, r, j);
    OrderExactlyWhenFits(id, s0[id], Column(rounds, j));
  }

  /** A drain is work-conserving: with no empty data queued, a stream left with something to send has
      no send window left; and it never writes past the window it had. */
  lemma {:induction false} DrainConservesWork(s0: map<StreamId, Stream>, keys: seq<StreamId>, rounds: seq<seq<nat>>,
                                              r: Writing, id: StreamId)
    requires FullDrain(s0, keys, rounds, r) && id in s0 && NoEmptyData(s0[id].outbound)
    ensures r.streams[id].outbound == [] || r.streams[id].sendWindow == 0
    ensures PayloadBytes(ForStream(r.log, id)) + r.streams[id].sendWindow == s0[id].sendWindow
  {
    var j := IndexOf(keys, s0, id);
    EnumeratesByIndex(keys, s0);
    DrainFollowsEach(s0, keys, rounds, j);
    DrainStopsEach(s0, keys, rounds, r, j);
    StopsOnlyWhenBlocked(id, s0[id], Column(rounds, j));
    VisitsAmounts(id, s0[id], Column(rounds, j));
  }

  /** The drain as it stands before its pass number `n`. */
  function Before(s0: map<StreamId, Stream>, keys: seq<StreamId>, rounds: seq<seq<nat>>, n: nat): (w: Writing)
    requires n <= |rounds|
    ensures w.streams.Keys == s0.Keys
  {
    Passes(Writing(s0, [], {}), keys, rounds[..n])
  }

  /** No pass of a drain writes more than one message or 64 KiB of payload for a stream. */
  lemma {:induction false} EachPassIsFair(s0: map<StreamId, Stream>, keys: seq<StreamId>, rounds: seq<seq<nat>>,
                                          r: Writing, id: StreamId, n: nat)
    requires FullDrain(s0, keys, rounds, r) && id in s0 && n < |rounds|
    ensures var a, b := Before(s0, keys, rounds, n), Before(s0, keys, rounds, n + 1);
            && PayloadBytes(ForStream(b.log, id)) <= PayloadBytes(ForStream(a.log, id)) + MAX_SEND_SIZE
            && |b.streams[id].outbound| >= |a.streams[id].outbound| - 1
  {
    var j := IndexOf(keys, s0, id);
    EnumeratesByIndex(keys, s0);
    assert rounds[..n + 1][..n] == rounds[..n] && rounds[..n + 1][n] == rounds[n];
    PassIsFair(Before(s0, keys, rounds, n), keys, rounds[n], j);
  }

  lemma {:induction false} PassIsFair(w: Writing, keys: seq<StreamId>, wraps: seq<nat>, j: nat)
    requires j < |keys| == |wraps| && Distinct(keys) && forall i :: 0 <= i < |keys| ==> keys[i] in w.streams
    ensures var r, id := PassOver(w, keys, wraps), keys[j];
            && PayloadBytes(ForStream(r.log, id)) <= PayloadBytes(ForStream(w.log, id)) + MAX_SEND_SIZE
            && |r.streams[id].outbound| >= |w.streams[id].outbound| - 1
  {
    var id := keys[j];
    PassVisitsEach(w, keys, wraps, j);
    VisitIsFair(id, w.streams[id], wraps[j]);
    FrameSums(ForStream(w.log, id), Visit(id, w.streams[id], wraps[j]).frames);
  }

  lemma {:induction false} VisitIsFair(id: StreamId, s: Stream, wrap: nat)
    ensures var v := Visit(id, s, wrap);
            PayloadBytes(v.frames) <= MAX_SEND_SIZE && |v.stream.outbound| >= |s.outbound| - 1
  {
    VisitAmounts(id, s, wrap);
  }

  lemma {:induction false} VisitsAmounts(id: StreamId, s: Stream, wraps: seq<nat>)
    ensures var v := Visits(id, s, wraps);
            PayloadBytes(v.frames) + v.stream.sendWindow == s.sendWindow
  {
    if wraps != [] {
      var init, wrap := wraps[..|wraps| - 1], wraps[|wraps| - 1];
      VisitsAmounts(id, s, init);
      var v := Visits(id, s, init);
      VisitAmounts(id, v.stream, wrap);
      FrameSums(v.frames, Visit(id, v.stream, wrap).frames);
    }
  }

  lemma {:induction false} PassWellFormed(w: Writing, keys: seq<StreamId>, wraps: seq<nat>)
    requires |wraps| <= |keys| && forall i :: 0 <= i < |keys| ==> keys[i] in w.streams
    requires forall f :: f in w.log ==> Made(f)
    ensures forall f :: f in PassOver(w, keys, wraps).log ==> Made(f)
  {
    if wraps != [] {
      var last := |wraps| - 1;
      PassWellFormed(w, keys, wraps[..last]);
      VisitWellFormed(keys[last], PassOver(w, keys, wraps[..last]).streams[keys[last]], wraps[last]);
    }
  }

  lemma {:induction false} PassesWellFormed(w: Writing, keys: seq<StreamId>, rounds: seq<seq<nat>>)
    requires forall i :: 0 <= i < |keys| ==> keys[i] in w.streams
    requires forall i :: 0 <= i < |rounds| ==> |rounds[i]| == |keys|
    requires forall f :: f in w.log ==> Made(f)
    ensures forall f :: f in Passes(w, keys, rounds).log ==> Made(f)
  {
    if rounds != [] {
      PassesWellFormed(w, keys, rounds[..|rounds| - 1]);
      PassWellFormed(Passes(w, keys, rounds[..|rounds| - 1]), keys, rounds[|rounds| - 1]);
    }
  }

  lemma {:induction false} LeastExists(s: set<StreamId>) returns (least: StreamId)
    requires s != {}
    ensures least in s && forall id :: id in s ==> least <= id
    decreases s
  {
    least :| least in s;
    if other :| other in s && other < least {
      var bound := least;
      assert other in s - {bound};
      least := LeastExists(s - {bound});
      assert least <= other < bound;
      assert forall id :: id in s ==> id == bound || id in s - {bound};
    }
  }

  method SortedKeys(m: map<StreamId, Stream>) returns (keys: seq<StreamId>)
    ensures Enumerates(keys, m)
  {
    keys := [];
    var left := m.Keys;
    while left != {}
      invariant Ascending(keys) && Members(keys) + left == m.Keys
      invariant keys == [] || forall id :: id in left ==> keys[|keys| - 1] < id
      decreases left
    {
      ghost var first := LeastExists(left);
      var least :| least in left && forall id :: id in left ==> least <= id;
      PushLast(keys, least);
      keys := keys + [least];
      left := left - {least};
    }
  }

  lemma {:induction false} PushLast(keys: seq<StreamId>, id: StreamId)
    requires Ascending(keys) && (keys == [] || keys[|keys| - 1] < id)
    ensures Ascending(keys + [id]) && Members(keys + [id]) == Members(keys) + {id}
  {
    if keys == [] {
      assert keys + [id] == [id];
      assert Members([id]) == {id} + Members([]);
    } else {
      PushLast(keys[1..], id);
      assert (keys + [id])[1..] == keys[1..] + [id];
    }
  }
}
