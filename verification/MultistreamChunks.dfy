/** Which chunkings of a stream's bytes the multistream layer's size limit lets through
    (`src/layers/yamux_multistream.rs`). */
module MultistreamChunks {
  import opened Bytes
  import opened FrameBuffer
  import opened MultistreamView
  import V = Varint

  type LayerEvent = MultistreamView.Event

  // ---------------------------------------------------------------------------
  // The limit, in terms of the bytes alone
  // ---------------------------------------------------------------------------

  /** What is left of some bytes once all their complete messages are handed back. */
  function Tail(bytes: seq<Byte>): seq<Byte>
    decreases |bytes|
  {
    match ParseOne(bytes)
    case Frame(_, rest) => ParseShrinks(bytes); Tail(rest)
    case _ => bytes
  }

  /** Every chunk fits beside what is buffered when it is reported: what is left of the bytes before it, less a
      length already read. */
  predicate ChunksFit(tail: seq<Byte>, limit: nat, chunks: seq<seq<Byte>>)
    decreases |chunks|
  {
    chunks == [] || (|Unread(tail)| + |chunks[0]| <= limit && ChunksFit(Tail(tail + chunks[0]), limit, chunks[1..]))
  }

  /** No length among the bytes is too long. */
  predicate NeverBad(tail: seq<Byte>, chunks: seq<seq<Byte>>)
    decreases |chunks|
  {
    ParseOne(tail) != Bad && (chunks != [] ==> NeverBad(Tail(tail + chunks[0]), chunks[1..]))
  }

  lemma {:induction false} TailIsTail(bytes: seq<Byte>)
    ensures !ParseOne(Tail(bytes)).Frame? && Tail(Tail(bytes)) == Tail(bytes) && |Tail(bytes)| <= |bytes|
    decreases |bytes|
  {
    if ParseOne(bytes).Frame? {
      ParseShrinks(bytes);
      TailIsTail(ParseOne(bytes).rest);
    }
  }

  lemma {:induction false} UnreadShrinks(bytes: seq<Byte>)
    ensures |Unread(bytes)| <= |bytes|
  {
    ScanLeaves([], bytes);
  }

  lemma {:induction false} ScanLeaves(pre: seq<Byte>, input: seq<Byte>)
    ensures V.Scan(pre, input).Done? ==> |V.Scan(pre, input).rest| <= |input|
  {
    V.ScanShrinks(pre, input);
  }

  /** Bytes that are no more than the limit in all are let through however they are chunked. */
  lemma {:induction false} FewBytesFit(tail: seq<Byte>, limit: nat, chunks: seq<seq<Byte>>)
    requires |tail| + |Concat(chunks)| <= limit
    ensures ChunksFit(tail, limit, chunks)
    decreases |chunks|
  {
    if chunks != [] {
      UnreadShrinks(tail);
      TailIsTail(tail + chunks[0]);
      FewBytesFit(Tail(tail + chunks[0]), limit, chunks[1..]);
    }
  }

  lemma {:induction false} MessagesSplit(bytes: seq<Byte>, more: seq<Byte>)
    ensures Messages(bytes + more) == Messages(bytes) + Messages(Tail(bytes) + more)
    ensures Tail(bytes + more) == Tail(Tail(bytes) + more)
    decreases |bytes|
  {
    if ParseOne(bytes).Frame? {
      ParseShrinks(bytes);
      ParseExtends(bytes, more);
      MessagesSplit(ParseOne(bytes).rest, more);
    } else {
      assert [] + Messages(bytes + more) == Messages(bytes + more);
    }
  }

  /** Every message that a chunk completes is no longer than what is buffered with it. */
  lemma {:induction false} CompletedFits(tail: seq<Byte>, chunk: seq<Byte>, i: nat)
    requires !ParseOne(tail).Frame? && i < |Messages(tail + chunk)|
    ensures |Messages(tail + chunk)[i]| <= |Unread(tail)| + |chunk|
  {
    var first := ParseOne(tail + chunk);
    CompletedLeaves(tail, chunk);
    if i > 0 { MessageFits(first.rest, i - 1); }
  }

  lemma {:induction false} MessageFits(bytes: seq<Byte>, i: nat)
    requires i < |Messages(bytes)|
    ensures |Messages(bytes)[i]| <= |bytes|
    decreases i
  {
    var first := ParseOne(bytes);
    V.ScanShrinks([], bytes);
    ParseShrinks(bytes);
    if i > 0 { MessageFits(first.rest, i - 1); }
  }

  /** A message longer than the limit is let through by no chunking. */
  lemma {:induction false} OversizedIsCut(tail: seq<Byte>, limit: nat, chunks: seq<seq<Byte>>, i: nat)
    requires !ParseOne(tail).Frame? && i < |Messages(tail + Concat(chunks))|
             && limit < |Messages(tail + Concat(chunks))[i]|
    ensures !ChunksFit(tail, limit, chunks)
    decreases |chunks|
  {
    assert tail + [] == tail;
    if chunks != [] {
      var all, later := tail + chunks[0], Concat(chunks[1..]);
      Assoc(tail, chunks[0], later);
      MessagesSplit(all, later);
      TailIsTail(all);
      if i < |Messages(all)| {
        CompletedFits(tail, chunks[0], i);
      } else {
        OversizedIsCut(Tail(all), limit, chunks[1..], i - |Messages(all)|);
      }
    }
  }

  /** Whether a message is too large depends on its chunks: at a limit of its own size it is cut when it comes in
      one report with its length, and let through when the length comes first. */
  lemma {:induction false} ChunkingDecides(p: seq<Byte>)
    requires 0 < |p| < 128
    ensures Concat([Framed(p)]) == Framed(p) && !ChunksFit([], |p|, [Framed(p)])
    ensures Concat([V.Encoded(|p|), p]) == Framed(p) && ChunksFit([], |p|, [V.Encoded(|p|), p])
  {
    var length, whole, rest := V.Encoded(|p|), [Framed(p)], [p];
    assert whole[1..] == [] && rest[1..] == [] && [length, p][1..] == rest;
    assert Concat(whole) == Framed(p) + [] && Concat(rest) == p + [] && p + [] == p;
    assert Unread([]) == [] && [] + length == length && length + [] == length;
    V.DecodeInvertsEncode(|p|, []);
    assert Tail(length) == length && Unread(length) == [];
    assert ChunksFit(length, |p|, rest);
  }

  /** The chunk that completes a message carries, with what was buffered, its payload and what follows it. */
  lemma {:induction false} CompletedLeaves(tail: seq<Byte>, chunk: seq<Byte>)
    requires !ParseOne(tail).Frame? && ParseOne(tail + chunk).Frame?
    ensures var f := ParseOne(tail + chunk); |f.payload| + |f.rest| <= |Unread(tail)| + |chunk|
  {
    V.ScanExtends([], tail, chunk);
    if V.Scan([], tail).Done? {
      assert V.Scan([], tail + chunk).rest == V.Scan([], tail).rest + chunk;
    } else {
      ScanInChunk([], tail, chunk);
    }
  }

  /** A length that is complete only with the chunk leaves no more than the chunk. */
  lemma {:induction false} ScanInChunk(pre: seq<Byte>, head: seq<Byte>, chunk: seq<Byte>)
    requires !V.Scan(pre, head).Done?
    ensures V.Scan(pre, head + chunk).Done? ==> |V.Scan(pre, head + chunk).rest| <= |chunk|
    decreases |head|
  {
    if head == [] {
      assert head + chunk == chunk;
      V.ScanShrinks(pre, chunk);
    } else {
      assert (head + chunk)[1..] == head[1..] + chunk;
      if V.Fed(V.Decoder(pre), head[0]).NeedsMoreBytes? { ScanInChunk(pre + [head[0]], head[1..], chunk); }
    }
  }

  // ---------------------------------------------------------------------------
  // Bytes of framed messages
  // ---------------------------------------------------------------------------

  predicate Waits(bytes: seq<Byte>) { ParseOne(bytes) == Wait }

  /** Where in the messages some first part of their bytes ends. */
  lemma {:induction false} EndsIn(bytes: seq<Byte>, later: seq<Byte>, messages: seq<seq<Byte>>) returns (j: nat)
    requires Sendable(messages) && bytes + later == FramedAll(messages)
    ensures j <= |messages| && bytes == FramedAll(messages[..j]) + Tail(bytes)
    ensures Tail(bytes) + later == FramedAll(messages[j..]) && Waits(Tail(bytes))
    ensures ParseOne(bytes).Frame? <==> j > 0
    decreases |messages|
  {
    ParsePrefix(bytes, later, messages);
    if ParseOne(bytes).Frame? {
      var rest := ParseOne(bytes).rest;
      var i := EndsIn(rest, later, messages[1..]);
      j := i + 1;
      FirstFramed(bytes, later, messages, rest);
      OneMore(bytes, rest, messages, i);
    } else {
      j := 0;
      assert messages[..0] == [] && messages[0..] == messages && [] + bytes == bytes;
    }
  }

  lemma {:induction false} OneMore(bytes: seq<Byte>, rest: seq<Byte>, messages: seq<seq<Byte>>, i: nat)
    requires messages != [] && i < |messages| && bytes == Framed(messages[0]) + rest
    requires rest == FramedAll(messages[1..][..i]) + Tail(rest)
    ensures bytes == FramedAll(messages[..i + 1]) + Tail(rest) && messages[i + 1..] == messages[1..][i..]
  {
    var m, some := messages[0], messages[1..][..i];
    assert messages[..i + 1] == [m] + some;
    FramedCons(m, some);
    Assoc(Framed(m), FramedAll(some), Tail(rest));
  }

  lemma {:induction false} FramedCons(m: seq<Byte>, rest: seq<seq<Byte>>)
    ensures FramedAll([m] + rest) == Framed(m) + FramedAll(rest)
  {
    assert ([m] + rest)[1..] == rest;
  }

  /** The bytes of the first message come first. */
  lemma {:induction false} FirstFramed(bytes: seq<Byte>, later: seq<Byte>, messages: seq<seq<Byte>>, rest: seq<Byte>)
    requires messages != [] && bytes + later == FramedAll(messages) && rest + later == FramedAll(messages[1..])
    ensures bytes == Framed(messages[0]) + rest
  {
    var all := Framed(messages[0]) + rest;
    assert all + later == bytes + later by { Assoc(Framed(messages[0]), rest, later); }
    assert |all| == |bytes|;
    assert (all + later)[..|all|] == all && (bytes + later)[..|bytes|] == bytes;
  }

  /** No length among the bytes of framed messages is too long. */
  lemma {:induction false} FramedNeverBad(tail: seq<Byte>, chunks: seq<seq<Byte>>, later: seq<Byte>,
                                          messages: seq<seq<Byte>>)
    requires Sendable(messages) && (tail + Concat(chunks)) + later == FramedAll(messages)
    ensures NeverBad(tail, chunks)
    decreases |chunks|
  {
    Assoc(tail, Concat(chunks), later);
    ParsePrefix(tail, Concat(chunks) + later, messages);
    if chunks != [] {
      var bytes, rest := tail + chunks[0], Concat(chunks[1..]);
      Assoc(tail, chunks[0], rest);
      Assoc(bytes, rest, later);
      var j := EndsIn(bytes, rest + later, messages);
      Assoc(Tail(bytes), rest, later);
      FramedNeverBad(Tail(bytes), chunks[1..], later, messages[j..]);
    }
  }

  // ---------------------------------------------------------------------------
  // Runs of the layer
  // ---------------------------------------------------------------------------

  /** The chunk of the stream that an event takes from the session below, if it takes one. */
  function ChunkIn(l: Layer, e: LayerEvent, id: StreamId): seq<seq<Byte>>
  {
    if e.Drive? && l.readFrom == None && e.input.RemoteData? && e.input.id == id then [e.input.bytes] else []
  }

  function ChunksIn(l: Layer, events: seq<LayerEvent>, isUtf8: Name -> bool, id: StreamId): seq<seq<Byte>>
    decreases |events|
  {
    if events == [] then []
      else ChunkIn(l, events[0], id) + ChunksIn(Happens(l, events[0], isUtf8).layer, events[1..], isUtf8, id)
  }

  lemma {:induction false} ChunksAreReceived(l: Layer, events: seq<LayerEvent>, isUtf8: Name -> bool, id: StreamId)
    ensures Concat(ChunksIn(l, events, isUtf8, id)) == ReceivedOn(l, events, isUtf8, id)
    decreases |events|
  {
    if events != [] {
      var next := Happens(l, events[0], isUtf8).layer;
      var chunks := ChunksIn(next, events[1..], isUtf8, id);
      ChunksAreReceived(next, events[1..], isUtf8, id);
      if ChunkIn(l, events[0], id) == [] {
        assert [] + chunks == chunks;
      } else {
        assert ([events[0].input.bytes] + chunks)[1..] == chunks;
      }
    }
  }

  /** The event neither closes the stream at the peer's end, nor resets it, nor opens it anew. */
  predicate LeavesOpen(l: Layer, e: LayerEvent, id: StreamId)
  {
    match e
    case Drive(input, _) => !(l.readFrom == None && input == RemoteClosed(id))
    case CallOpen(other, _, _) => other != id
    case CallReset(other) => other != id
    case _ => true
  }

  predicate Undisturbed(l: Layer, events: seq<LayerEvent>, isUtf8: Name -> bool, id: StreamId)
    decreases |events|
  {
    events == [] || (LeavesOpen(l, events[0], id)
                     && Undisturbed(Happens(l, events[0], isUtf8).layer, events[1..], isUtf8, id))
  }

  /** The stream is established, its limit as given and its incomplete bytes as given. */
  predicate Stands(l: Layer, id: StreamId, limit: nat, tail: seq<Byte>)
  {
    Established(l, id) && l.slots[id].maxBufferSize == limit && Tail(l.slots[id].pending) == tail
  }

  lemma {:induction false} PulledStands(l: Layer, own: StreamId, takes: bool, isUtf8: Name -> bool, id: StreamId,
                                        limit: nat, tail: seq<Byte>)
    requires own in l.slots && Stands(l, id, limit, tail) && ParseOne(tail) != Bad
    ensures Stands(Pulled(l, own, takes, isUtf8).layer, id, limit, tail)
  {
  }

  /** A chunk that fits is taken in. */
  lemma {:induction false} ChunkStands(l: Layer, bytes: seq<Byte>, takes: bool, isUtf8: Name -> bool, id: StreamId,
                                       limit: nat)
    requires l.readFrom == None && Established(l, id) && l.slots[id].maxBufferSize == limit
    requires |Unread(l.slots[id].pending)| + |bytes| <= limit && ParseOne(Tail(l.slots[id].pending + bytes)) != Bad
    ensures Stands(Round(l, RemoteData(id, bytes), takes, isUtf8).layer, id, limit, Tail(l.slots[id].pending + bytes))
  {
    var s := l.slots[id];
    FedIsPulled(l, id, bytes, takes, isUtf8);
    PulledStands(l.(slots := l.slots[id := s.(pending := s.pending + bytes)]), id, takes, isUtf8, id, limit,
                 Tail(s.pending + bytes));
  }

  /** An event that takes no chunk of the stream leaves it as it stands. */
  lemma {:induction false} OtherStands(l: Layer, e: LayerEvent, isUtf8: Name -> bool, id: StreamId, limit: nat,
                                       tail: seq<Byte>)
    requires Stands(l, id, limit, tail) && ParseOne(tail) != Bad && LeavesOpen(l, e, id) && ChunkIn(l, e, id) == []
    ensures Stands(Happens(l, e, isUtf8).layer, id, limit, tail)
  {
    if e.Drive? {
      if l.readFrom.Some? {
        if l.readFrom.value in l.slots { PulledStands(l, l.readFrom.value, e.takes, isUtf8, id, limit, tail); }
      } else {
        ReportStands(l, e.input, e.takes, isUtf8, id, limit, tail);
      }
    }
  }

  lemma {:induction false} ReportStands(l: Layer, input: Input, takes: bool, isUtf8: Name -> bool, id: StreamId,
                                        limit: nat, tail: seq<Byte>)
    requires Stands(l, id, limit, tail) && ParseOne(tail) != Bad && input != RemoteClosed(id)
             && !(input.RemoteData? && input.id == id)
    ensures Stands(Reported(l, input, takes, isUtf8).layer, id, limit, tail)
  {
    match input
    case RemoteOpened(own) =>
      var slots := if own in l.slots then l.slots else l.slots[own := Slot([], false, NewIncoming, PROTOCOL_MAX_LEN)];
      PulledStands(l.(slots := slots), own, takes, isUtf8, id, limit, tail);
    case RemoteData(own, bytes) =>
      if own in l.slots {
        var s := l.slots[own];
        PulledStands(l.(slots := l.slots[own := s.(pending := s.pending + bytes)]), own, takes, isUtf8, id, limit,
                     tail);
      }
    case RemoteClosed(_) =>
  }

  lemma {:induction false} ChunkEvent(l: Layer, e: LayerEvent, isUtf8: Name -> bool, id: StreamId)
    requires Established(l, id) && Quiet(l.slots[id]) && ChunkIn(l, e, id) != []
    requires ParseOne(Tail(Tail(l.slots[id].pending) + e.input.bytes)) != Bad
    ensures var s, l' := l.slots[id], Happens(l, e, isUtf8).layer;
            if |Unread(s.pending)| + |e.input.bytes| <= s.maxBufferSize
            then Stands(l', id, s.maxBufferSize, Tail(s.pending + e.input.bytes))
            else !Established(l', id)
  {
    var s := l.slots[id];
    if |Unread(s.pending)| + |e.input.bytes| <= s.maxBufferSize {
      ChunkStands(l, e.input.bytes, e.takes, isUtf8, id, s.maxBufferSize);
    }
  }

  /** Over every run in which the stream is neither closed nor reset nor opened anew, and none of its lengths is too
      long: it stays established if and only if each of its chunks fits when it is reported. */
  lemma {:induction false} SurvivesExactlyWhenChunksFit(l: Layer, events: seq<LayerEvent>, isUtf8: Name -> bool,
                                                        id: StreamId)
    requires Drained(l) && Established(l, id) && Undisturbed(l, events, isUtf8, id)
    requires NeverBad(Tail(l.slots[id].pending), ChunksIn(l, events, isUtf8, id))
    ensures StaysEstablished(l, events, isUtf8, id)
            <==> ChunksFit(Tail(l.slots[id].pending), l.slots[id].maxBufferSize, ChunksIn(l, events, isUtf8, id))
    decreases |events|
  {
    if events != [] {
      var e, s, next := events[0], l.slots[id], Happens(l, events[0], isUtf8).layer;
      var chunks := ChunksIn(next, events[1..], isUtf8, id);
      EventKeepsDrained(l, e, isUtf8);
      if ChunkIn(l, e, id) == [] {
        assert [] + chunks == chunks;
        OtherStands(l, e, isUtf8, id, s.maxBufferSize, Tail(s.pending));
        SurvivesExactlyWhenChunksFit(next, events[1..], isUtf8, id);
      } else {
        assert ([e.input.bytes] + chunks)[1..] == chunks;
        ChunkEvent(l, e, isUtf8, id);
        if Established(next, id) { SurvivesExactlyWhenChunksFit(next, events[1..], isUtf8, id); }
      }
    }
  }
}
