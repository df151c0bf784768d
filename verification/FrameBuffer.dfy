/** Reassembly of length-prefixed frames from arbitrary chunks:
    `src/layers/yamux_multistream/frame_buffer.rs`. */
module FrameBuffer {
  import opened Bytes
  import opened Varint

  // ---------------------------------------------------------------------------
  // What a byte stream means, independently of how it was chunked
  // ---------------------------------------------------------------------------

  datatype Parsed = Frame(payload: seq<Byte>, rest: seq<Byte>) | Wait | Bad

  /** Reads one frame off the front of all the bytes not yet handed back. */
  function ParseOne(bytes: seq<Byte>): Parsed
  {
    match Scan([], bytes)
    case Done(n, rest) => if n <= |rest| then Frame(rest[..n], rest[n..]) else Wait
    case Incomplete => Wait
    case TooLong => Bad
  }

  /** What stays in the buffer once a length, if complete, has been read off the front. */
  function Unread(bytes: seq<Byte>): seq<Byte>
  {
    match Scan([], bytes)
    case Done(_, rest) => rest
    case _ => []
  }

  /** What is left once a length has turned out too long: ten bytes and the one too many are gone. */
  function AfterBad(bytes: seq<Byte>): seq<Byte> { if |bytes| > MAX_BYTES then bytes[MAX_BYTES + 1..] else [] }

  /** All the complete frames of a byte stream, and what is left after the first `n` of them. */
  function Messages(bytes: seq<Byte>): seq<seq<Byte>>
    decreases |bytes|
  {
    match ParseOne(bytes)
    case Frame(payload, rest) => ParseShrinks(bytes); [payload] + Messages(rest)
    case _ => []
  }

  function Remaining(bytes: seq<Byte>, n: nat): seq<Byte>
    requires n <= |Messages(bytes)|
    decreases n
  {
    if n == 0 then bytes else Remaining(ParseOne(bytes).rest, n - 1)
  }

  lemma {:induction false} ParseShrinks(bytes: seq<Byte>)
    ensures ParseOne(bytes).Frame? ==> |ParseOne(bytes).rest| < |bytes|
  {
    ScanShrinks([], bytes);
  }

  /** More bytes only add frames at the end. */
  lemma {:induction false} MessagesExtend(bytes: seq<Byte>, more: seq<Byte>, n: nat)
    requires n <= |Messages(bytes)|
    ensures n <= |Messages(bytes + more)| && Messages(bytes + more)[..n] == Messages(bytes)[..n]
    ensures Remaining(bytes + more, n) == Remaining(bytes, n) + more
    decreases n
  {
    if n > 0 {
      ParseExtends(bytes, more);
      var p := ParseOne(bytes);
      ParseShrinks(bytes);
      MessagesExtend(p.rest, more, n - 1);
      assert Messages(bytes + more) == [p.payload] + Messages(p.rest + more);
      SamePrefix(p.payload, Messages(p.rest + more), Messages(p.rest), n);
    }
  }

  lemma {:induction false} SamePrefix(x: seq<Byte>, a: seq<seq<Byte>>, b: seq<seq<Byte>>, n: nat)
    requires 0 < n <= |a| + 1 && n <= |b| + 1 && a[..n - 1] == b[..n - 1]
    ensures ([x] + a)[..n] == ([x] + b)[..n]
  {
  }

  lemma {:induction false} RemainingNext(bytes: seq<Byte>, n: nat)
    requires n <= |Messages(bytes)|
    ensures match ParseOne(Remaining(bytes, n))
            case Frame(payload, rest) =>
              n < |Messages(bytes)| && payload == Messages(bytes)[n] && rest == Remaining(bytes, n + 1)
            case _ => n == |Messages(bytes)|
    decreases n
  {
    ParseShrinks(bytes);
    if n > 0 { RemainingNext(ParseOne(bytes).rest, n - 1); }
  }

  /** A payload as it is put on the wire; lengths are u64 in the source. */
  function Framed(payload: seq<Byte>): seq<Byte> { Encoded(|payload|) + payload }

  function FramedAll(payloads: seq<seq<Byte>>): seq<Byte>
  {
    if payloads == [] then [] else Framed(payloads[0]) + FramedAll(payloads[1..])
  }

  ghost predicate Sendable(payloads: seq<seq<Byte>>)
  {
    forall p :: p in payloads ==> |p| < U64_LIMIT
  }

  lemma {:induction false} ParseFramed(payload: seq<Byte>, rest: seq<Byte>)
    requires |payload| < U64_LIMIT
    ensures ParseOne(Framed(payload) + rest) == Frame(payload, rest)
  {
    assert Framed(payload) + rest == Encoded(|payload|) + (payload + rest);
    DecodeInvertsEncode(|payload|, payload + rest);
    assert (payload + rest)[..|payload|] == payload;
    assert (payload + rest)[|payload|..] == rest;
  }

  /** A verdict reached on a prefix stands when more bytes follow. */
  lemma {:induction false} ParseExtends(bytes: seq<Byte>, more: seq<Byte>)
    ensures ParseOne(bytes).Frame? ==>
              ParseOne(bytes + more) == Frame(ParseOne(bytes).payload, ParseOne(bytes).rest + more)
    ensures ParseOne(bytes) == Bad ==> ParseOne(bytes + more) == Bad
  {
    ScanExtends([], bytes, more);
    var s := Scan([], bytes);
    if s.Done? && s.value <= |s.rest| {
      assert (s.rest + more)[..s.value] == s.rest[..s.value];
      assert (s.rest + more)[s.value..] == s.rest[s.value..] + more;
    }
  }

  /** While some prefix of well-formed frames has arrived, a parse yields the first frame or waits;
      it cannot wait once everything has arrived. */
  lemma {:induction false} ParsePrefix(pending: seq<Byte>, later: seq<Byte>, payloads: seq<seq<Byte>>)
    requires Sendable(payloads)
    requires pending + later == FramedAll(payloads)
    ensures ParseOne(pending) != Bad
    ensures ParseOne(pending).Frame? ==>
              && payloads != []
              && ParseOne(pending).payload == payloads[0]
              && ParseOne(pending).rest + later == FramedAll(payloads[1..])
    ensures ParseOne(pending) == Wait && later == [] ==> payloads == []
  {
    if payloads == [] {
      assert pending == [];
    } else {
      ParseFramed(payloads[0], FramedAll(payloads[1..]));
      ParseExtends(pending, later);
      if later == [] { assert pending + later == pending; }
    }
  }

  // ---------------------------------------------------------------------------
  // The buffer
  // ---------------------------------------------------------------------------

  datatype Needs = DecodingLen(decoder: Decoder) | Len(len: U64)

  datatype NextFrame = NotReady | Ready(payload: seq<Byte>) | VarintOutOfRange

  ghost predicate AllContinue(s: seq<Byte>)
  {
    |s| <= MAX_BYTES && forall i :: 0 <= i < |s| ==> s[i] >= 128
  }

  lemma {:induction false} ScanResumes(pre: seq<Byte>, head: seq<Byte>, input: seq<Byte>)
    requires |pre| + |head| <= MAX_BYTES && AllContinue(head)
    ensures Scan(pre, head + input) == Scan(pre + head, input)
    decreases |head|
  {
    if head == [] {
      assert head + input == input && pre + head == pre;
    } else {
      assert (head + input)[1..] == head[1..] + input;
      assert pre + head == (pre + [head[0]]) + head[1..];
      ScanResumes(pre + [head[0]], head[1..], input);
    }
  }

  /** A buffer's fields as they are stored in a table of streams. */
  datatype Stored = Stored(needs: Needs, buf: seq<Byte>, failed: bool)

  const EMPTY := Stored(DecodingLen(Decoder([])), [], false)

  /** `head` are the bytes popped from the buffer for the length being read. */
  ghost predicate Consistent(v: Stored, head: seq<Byte>)
  {
    !v.failed ==>
      match v.needs
      case DecodingLen(d) => head == d.bytes && AllContinue(head)
      case Len(n) => Scan([], head) == Done(n, [])
  }

  /** As `next` leaves a buffer with nothing ready: no byte of a length is left in it. */
  predicate LengthRead(v: Stored) { v.failed || v.needs.Len? || v.buf == [] }

  lemma {:induction false} UnreadWhenLengthRead(v: Stored, head: seq<Byte>)
    requires Consistent(v, head) && LengthRead(v) && !v.failed
    ensures v.buf == Unread(head + v.buf)
  {
    if v.needs.Len? {
      ScanExtends([], head, v.buf);
      assert [] + v.buf == v.buf;
    } else {
      ScanResumes([], head, []);
    }
  }

  class MultistreamFrameBuffer {
    var needs: Needs
    var buf: seq<Byte>
    var failed: bool
    /** The bytes popped from `buf` for the length being read. */
    ghost var head: seq<Byte>

    function Value(): Stored
      reads this
    {
      Stored(needs, buf, failed)
    }

    ghost predicate Valid()
      reads this
    {
      Consistent(Value(), head)
    }

    /** Every byte fed and not yet handed back in a frame. */
    ghost function Pending(): seq<Byte>
      reads this
    {
      head + buf
    }

    constructor ()
      ensures Valid() && Value() == EMPTY && head == []
    {
      needs := DecodingLen(Decoder([]));
      buf := [];
      failed := false;
      head := [];
    }

    /** A buffer taken out of its table. */
    constructor Resume(v: Stored, ghost head: seq<Byte>)
      requires Consistent(v, head)
      ensures Valid() && Value() == v && this.head == head
    {
      needs, buf, failed := v.needs, v.buf, v.failed;
      this.head := head;
    }

    /** `feed`. */
    method Feed(bytes: seq<Byte>)
      requires Valid()
      modifies this`buf
      ensures Valid() && Pending() == old(Pending()) + bytes && buf == old(buf) + bytes
    {
      buf := buf + bytes;
    }

    /** `next`: the incremental state machine gives the verdict that parsing all pending bytes
        from scratch would give, and drops exactly the bytes of the frame it hands back. */
    method Next() returns (r: NextFrame)
      requires Valid()
      modifies this
      ensures Valid()
      ensures old(failed) ==> r == VarintOutOfRange && Value() == old(Value())
      ensures !old(failed) ==>
                match ParseOne(old(Pending()))
                case Frame(payload, rest) => r == Ready(payload) && !failed && Pending() == rest == buf
                case Wait => r == NotReady && !failed && Pending() == old(Pending())
                case Bad => r == VarintOutOfRange && failed && buf == AfterBad(old(Pending()))
      ensures r == NotReady ==> LengthRead(Value())
    {
      if failed {
        return VarintOutOfRange;
      }
      ghost var pending := Pending();
      while needs.DecodingLen?
        invariant Valid() && !failed && Pending() == pending
        decreases |buf|
      {
        if buf == [] {
          ScanResumes([], head, buf);
          return NotReady;
        }
        var ok := ReadLengthByte();
        if !ok {
          return VarintOutOfRange;
        }
      }
      ScanExtends([], head, buf);
      assert [] + buf == buf;
      if |buf| >= needs.len {
        r := Ready(buf[..needs.len]);
        buf, head := buf[needs.len..], [];
        needs := DecodingLen(Decoder([]));
      } else {
        r := NotReady;
      }
    }

    /** Pops one byte of the length; false when the length is too long. */
    method ReadLengthByte() returns (ok: bool)
      requires Valid() && !failed && needs.DecodingLen? && buf != []
      modifies this
      ensures Valid() && |buf| == |old(buf)| - 1
      ensures ok ==> !failed && Pending() == old(Pending())
      ensures !ok ==> failed && ParseOne(old(Pending())) == Bad && buf == AfterBad(old(Pending()))
    {
      var byte := buf[0];
      var decoder := needs.decoder;
      ghost var head0, buf0 := head, buf;
      assert Pending() == (head + [byte]) + buf[1..];
      buf, head := buf[1..], head + [byte];
      var fed := Varint.Feed(decoder, byte);
      match fed {
        case Value(len) =>
          needs := Len(len);
          LengthComplete(head0, byte);
          return true;
        case NeedsMoreBytes(d) =>
          needs := DecodingLen(d);
          assert AllContinue(head);
          return true;
        case OutOfRange =>
          failed := true;
          LengthTooLong(head0, buf0);
          assert (head0 + buf0)[MAX_BYTES + 1..] == buf;
          return false;
      }
    }
  }

  lemma {:induction false} LengthComplete(head: seq<Byte>, byte: Byte)
    requires AllContinue(head) && |head| < MAX_BYTES && byte < 128
    ensures Scan([], head + [byte]) == Done(ValueOf(head + [byte]) % U64_LIMIT, [])
  {
    ScanResumes([], head, [byte]);
    assert [] + head == head && [byte][1..] == [];
    assert Fed(Decoder(head), byte) == Value(ValueOf(head + [byte]) % U64_LIMIT);
  }

  lemma {:induction false} LengthTooLong(head: seq<Byte>, buf: seq<Byte>)
    requires AllContinue(head) && |head| == MAX_BYTES && buf != []
    ensures ParseOne(head + buf) == Bad
  {
    ScanResumes([], head, buf);
  }

  // ---------------------------------------------------------------------------
  // Chunking independence
  // ---------------------------------------------------------------------------

  datatype Event = Chunk(bytes: seq<Byte>) | Ask

  /** The bytes still to be fed, when `later` bytes come after all the events. */
  function FedThen(events: seq<Event>, later: seq<Byte>): seq<Byte>
  {
    if events == [] then later
    else if events[0].Chunk? then events[0].bytes + FedThen(events[1..], later)
    else FedThen(events[1..], later)
  }

  /** The answers to the `Ask` events, from a buffer with `pending` bytes (see `Next`). */
  function Answers(pending: seq<Byte>, events: seq<Event>): seq<NextFrame>
    decreases |events|
  {
    if events == [] then []
    else if events[0].Chunk? then Answers(pending + events[0].bytes, events[1..])
    else match ParseOne(pending)
      case Frame(payload, rest) => [Ready(payload)] + Answers(rest, events[1..])
      case Wait => [NotReady] + Answers(pending, events[1..])
      case Bad => [VarintOutOfRange] + seq(|Answers(pending, events[1..])|, _ => VarintOutOfRange)
  }

  function Payloads(answers: seq<NextFrame>): seq<seq<Byte>>
  {
    if answers == [] then []
    else (if answers[0].Ready? then [answers[0].payload] else []) + Payloads(answers[1..])
  }

  /** The run's last event was an ask that found nothing ready. */
  ghost predicate EndsWaiting(pending: seq<Byte>, events: seq<Event>)
  {
    var answers := Answers(pending, events);
    events != [] && events[|events| - 1] == Ask && answers != [] && answers[|answers| - 1] == NotReady
  }

  lemma {:induction false} AnswersCons(first: NextFrame, tail: seq<NextFrame>)
    ensures Payloads([first] + tail) == (if first.Ready? then [first.payload] else []) + Payloads(tail)
    ensures VarintOutOfRange in [first] + tail <==> first == VarintOutOfRange || VarintOutOfRange in tail
  {
  }

  /** For any list of payloads and any split of their encodings across feeds, interleaved with any
      asks, the frames returned are a prefix of the list and no ask fails; once every byte has been
      fed and the last ask had nothing ready, they are the whole list. */
  lemma {:induction false} ChunkingIndependence(
    pending: seq<Byte>, events: seq<Event>, later: seq<Byte>, payloads: seq<seq<Byte>>)
    requires Sendable(payloads)
    requires pending + FedThen(events, later) == FramedAll(payloads)
    ensures VarintOutOfRange !in Answers(pending, events)
    ensures Payloads(Answers(pending, events)) <= payloads
    ensures later == [] && EndsWaiting(pending, events) ==> Payloads(Answers(pending, events)) == payloads
    decreases |events|
  {
    if events == [] {
    } else if events[0].Chunk? {
      var bytes := events[0].bytes;
      assert pending + FedThen(events, later) == (pending + bytes) + FedThen(events[1..], later);
      ChunkingIndependence(pending + bytes, events[1..], later, payloads);
    } else {
      ParsePrefix(pending, FedThen(events, later), payloads);
      match ParseOne(pending) {
        case Frame(payload, rest) =>
          ChunkingIndependence(rest, events[1..], later, payloads[1..]);
          AskReady(pending, events, payload, rest);
          PrefixCons(payload, Payloads(Answers(rest, events[1..])), payloads);
        case Wait =>
          ChunkingIndependence(pending, events[1..], later, payloads);
          AskNotReady(pending, events);
      }
    }
  }

  lemma {:induction false} PrefixCons(payload: seq<Byte>, got: seq<seq<Byte>>, payloads: seq<seq<Byte>>)
    requires payloads != [] && payloads[0] == payload && got <= payloads[1..]
    ensures [payload] + got <= payloads
    ensures got == payloads[1..] ==> [payload] + got == payloads
  {
  }

  lemma {:induction false} AskReady(pending: seq<Byte>, events: seq<Event>, payload: seq<Byte>, rest: seq<Byte>)
    requires events != [] && events[0] == Ask && ParseOne(pending) == Frame(payload, rest)
    ensures Payloads(Answers(pending, events)) == [payload] + Payloads(Answers(rest, events[1..]))
    ensures VarintOutOfRange in Answers(pending, events) ==> VarintOutOfRange in Answers(rest, events[1..])
    ensures EndsWaiting(pending, events) ==> EndsWaiting(rest, events[1..])
  {
  }

  lemma {:induction false} AskNotReady(pending: seq<Byte>, events: seq<Event>)
    requires events != [] && events[0] == Ask && ParseOne(pending) == Wait
    ensures Payloads(Answers(pending, events)) == Payloads(Answers(pending, events[1..]))
    ensures VarintOutOfRange in Answers(pending, events) ==> VarintOutOfRange in Answers(pending, events[1..])
    ensures EndsWaiting(pending, events) ==> |events| == 1 || EndsWaiting(pending, events[1..])
  {
    AnswersCons(NotReady, Answers(pending, events[1..]));
    if |events| > 1 && events[|events| - 1] == Ask {
      AskAnswered(pending, events[1..]);
    }
  }

  lemma {:induction false} AskAnswered(pending: seq<Byte>, events: seq<Event>)
    requires events != [] && events[|events| - 1] == Ask
    ensures Answers(pending, events) != []
    decreases |events|
  {
    if events[0].Chunk? {
      AskAnswered(pending + events[0].bytes, events[1..]);
    }
  }
}
