/** The encrypted transport: plaintext chunks sealed one by one and framed with a two-byte length
    (`src/layers/noise.rs`; Noise Protocol Framework, section 3). */
module Noise {
  import opened Bytes

  const MAX_NOISE_MSG: nat := 65535
  const TAG: nat := 16
  const MAX_PLAINTEXT: nat := MAX_NOISE_MSG - TAG

  /** The transport cipher, one message per counter value. */
  datatype Cipher = Cipher(seal: (nat, seq<Byte>) -> seq<Byte>, unseal: (nat, seq<Byte>) -> Option<seq<Byte>>)

  /** All that is asked of it: unsealing inverts sealing at the same counter, and sealing adds a tag. */
  ghost predicate Lawful(c: Cipher) { forall n: nat, p: seq<Byte> :: Inverts(c, n, p) }

  ghost predicate Inverts(c: Cipher, n: nat, p: seq<Byte>)
  {
    |c.seal(n, p)| == |p| + TAG && c.unseal(n, c.seal(n, p)) == Some(p)
  }

  // ---------------------------------------------------------------------------
  // Frames
  // ---------------------------------------------------------------------------

  /** The length as the source puts it on the wire: cut to 16 bits, high byte first. */
  function Framed(data: seq<Byte>): seq<Byte>
  {
    [(|data| % 0x1_0000) / 256, |data| % 256] + data
  }

  /** Two bytes of length, the high one first, and the data. */
  lemma {:induction false} FramedLayout(data: seq<Byte>)
    requires |data| <= MAX_NOISE_MSG
    ensures |Framed(data)| == 2 + |data| && Framed(data)[2..] == data
    ensures Framed(data)[0] as int * 256 + Framed(data)[1] == |data|
  {
  }

  function Joined(high: nat, low: nat): nat { high * 256 + low }

  datatype Frame = Short | Whole(data: seq<Byte>, rest: seq<Byte>)

  /** `recv_frame` on the bytes that will ever arrive. */
  function Received(wire: seq<Byte>): Frame
  {
    if |wire| < 2 then Short
    else
      var len := Joined(wire[0], wire[1]);
      if |wire| < 2 + len then Short else Whole(wire[2..2 + len], wire[2 + len..])
  }

  lemma {:induction false} ReceivedFramed(data: seq<Byte>, rest: seq<Byte>)
    requires |data| <= MAX_NOISE_MSG
    ensures Received(Framed(data) + rest) == Whole(data, rest)
  {
  }

  lemma {:induction false} ReceivedExtends(wire: seq<Byte>, more: seq<Byte>)
    requires Received(wire).Whole?
    ensures Received(wire + more) == Whole(Received(wire).data, Received(wire).rest + more)
  {
  }

  /** All the complete frames of some wire bytes. */
  function Messages(wire: seq<Byte>): seq<seq<Byte>>
    decreases |wire|
  {
    match Received(wire)
    case Short => []
    case Whole(data, rest) => [data] + Messages(rest)
  }

  function FramedAll(messages: seq<seq<Byte>>): seq<Byte>
  {
    if messages == [] then [] else Framed(messages[0]) + FramedAll(messages[1..])
  }

  predicate Fit(messages: seq<seq<Byte>>)
  {
    messages == [] || (|messages[0]| <= MAX_NOISE_MSG && Fit(messages[1..]))
  }

  /** Messages whose lengths fit their prefixes come back as they were. */
  lemma {:induction false} MessagesOfFramed(messages: seq<seq<Byte>>)
    requires Fit(messages)
    ensures Messages(FramedAll(messages)) == messages
  {
    if messages != [] {
      ReceivedFramed(messages[0], FramedAll(messages[1..]));
      MessagesOfFramed(messages[1..]);
    }
  }

  lemma {:induction false} FramedAllSplit(a: seq<seq<Byte>>, b: seq<seq<Byte>>)
    ensures FramedAll(a + b) == FramedAll(a) + FramedAll(b)
  {
    if a == [] {
      assert a + b == b;
    } else {
      FramedAllSplit(a[1..], b);
      assert (a + b)[1..] == a[1..] + b;
      Assoc(Framed(a[0]), FramedAll(a[1..]), FramedAll(b));
    }
  }

  lemma {:induction false} FitSplit(a: seq<seq<Byte>>, b: seq<seq<Byte>>)
    requires Fit(a) && Fit(b)
    ensures Fit(a + b)
  {
    if a == [] {
      assert a + b == b;
    } else {
      FitSplit(a[1..], b);
      assert (a + b)[1..] == a[1..] + b;
    }
  }

  /** More bytes only add messages at the end. */
  lemma {:induction false} MessagesExtend(wire: seq<Byte>, more: seq<Byte>)
    ensures Messages(wire) <= Messages(wire + more)
    decreases |wire|
  {
    if Received(wire).Whole? {
      ReceivedExtends(wire, more);
      MessagesExtend(Received(wire).rest, more);
    }
  }

  // ---------------------------------------------------------------------------
  // Sealed messages
  // ---------------------------------------------------------------------------

  /** A write cut into pieces of at most the longest plaintext. */
  function Chunks(data: seq<Byte>): seq<seq<Byte>>
    decreases |data|
  {
    if data == [] then []
    else
      var m := Min(|data|, MAX_PLAINTEXT);
      [data[..m]] + Chunks(data[m..])
  }

  function AllChunks(writes: seq<seq<Byte>>): seq<seq<Byte>>
  {
    if writes == [] then [] else Chunks(writes[0]) + AllChunks(writes[1..])
  }

  predicate Small(chunks: seq<seq<Byte>>)
  {
    chunks == [] || (|chunks[0]| <= MAX_PLAINTEXT && Small(chunks[1..]))
  }

  lemma {:induction false} ChunksAreData(data: seq<Byte>)
    ensures Concat(Chunks(data)) == data && Small(Chunks(data))
    decreases |data|
  {
    if data != [] {
      var m := Min(|data|, MAX_PLAINTEXT);
      ChunksAreData(data[m..]);
      assert Chunks(data)[1..] == Chunks(data[m..]);
      assert data[..m] + data[m..] == data;
    }
  }

  lemma {:induction false} SmallSplit(a: seq<seq<Byte>>, b: seq<seq<Byte>>)
    requires Small(a) && Small(b)
    ensures Small(a + b)
  {
    if a == [] {
      assert a + b == b;
    } else {
      SmallSplit(a[1..], b);
      assert (a + b)[1..] == a[1..] + b;
    }
  }

  lemma {:induction false} AllChunksAreWrites(writes: seq<seq<Byte>>)
    ensures Concat(AllChunks(writes)) == Concat(writes) && Small(AllChunks(writes))
  {
    if writes != [] {
      ChunksAreData(writes[0]);
      AllChunksAreWrites(writes[1..]);
      ConcatSplit(Chunks(writes[0]), AllChunks(writes[1..]));
      SmallSplit(Chunks(writes[0]), AllChunks(writes[1..]));
    }
  }

  /** The chunks sealed one by one, from counter `n` on. */
  function Sealed(c: Cipher, n: nat, chunks: seq<seq<Byte>>): seq<seq<Byte>>
    decreases |chunks|
  {
    if chunks == [] then [] else [c.seal(n, chunks[0])] + Sealed(c, n + 1, chunks[1..])
  }

  lemma {:induction false} SealedSplit(c: Cipher, n: nat, a: seq<seq<Byte>>, b: seq<seq<Byte>>)
    ensures Sealed(c, n, a + b) == Sealed(c, n, a) + Sealed(c, n + |a|, b)
    decreases |a|
  {
    if a == [] {
      assert a + b == b;
    } else {
      SealedSplit(c, n + 1, a[1..], b);
      assert (a + b)[1..] == a[1..] + b;
    }
  }

  /** The plaintext of messages from counter `n` on, up to one that does not decrypt. */
  function Unsealed(c: Cipher, n: nat, messages: seq<seq<Byte>>): seq<Byte>
    decreases |messages|
  {
    if messages == [] then []
    else match c.unseal(n, messages[0])
      case None => []
      case Some(plain) => plain + Unsealed(c, n + 1, messages[1..])
  }

  /** Small chunks, sealed, fit their 16-bit lengths and unseal to what they were. */
  lemma {:induction false} UnsealedSealed(c: Cipher, n: nat, chunks: seq<seq<Byte>>)
    requires Lawful(c) && Small(chunks)
    ensures Unsealed(c, n, Sealed(c, n, chunks)) == Concat(chunks) && Fit(Sealed(c, n, chunks))
    decreases |chunks|
  {
    if chunks != [] {
      assert Inverts(c, n, chunks[0]);
      UnsealedSealed(c, n + 1, chunks[1..]);
      assert Sealed(c, n, chunks)[1..] == Sealed(c, n + 1, chunks[1..]);
    }
  }

  lemma {:induction false} UnsealedExtends(c: Cipher, n: nat, messages: seq<seq<Byte>>, all: seq<seq<Byte>>)
    requires messages <= all
    ensures Unsealed(c, n, messages) <= Unsealed(c, n, all)
    decreases |messages|
  {
    if messages != [] && c.unseal(n, messages[0]).Some? {
      UnsealedExtends(c, n + 1, messages[1..], all[1..]);
    }
  }

  /** The plaintext that some wire bytes give, up to the first incomplete or bad frame. */
  function Plaintext(c: Cipher, n: nat, wire: seq<Byte>): seq<Byte> { Unsealed(c, n, Messages(wire)) }

  /** The wire of any writes: every message within its 16-bit length, the whole carrying the concatenation
      of the writes whatever their sizes, and the part that has arrived a prefix of it. */
  lemma {:induction false} WritesCarryPlaintext(c: Cipher, writes: seq<seq<Byte>>, arrived: seq<Byte>, later: seq<Byte>)
    requires Lawful(c) && arrived + later == FramedAll(Sealed(c, 0, AllChunks(writes)))
    ensures Fit(Sealed(c, 0, AllChunks(writes)))
    ensures Plaintext(c, 0, arrived) <= Concat(writes)
    ensures later == [] ==> Plaintext(c, 0, arrived) == Concat(writes)
  {
    var messages := Sealed(c, 0, AllChunks(writes));
    AllChunksAreWrites(writes);
    UnsealedSealed(c, 0, AllChunks(writes));
    MessagesOfFramed(messages);
    MessagesExtend(arrived, later);
    UnsealedExtends(c, 0, Messages(arrived), messages);
    if later == [] { assert arrived + later == arrived; }
  }

  // ---------------------------------------------------------------------------
  // Writing
  // ---------------------------------------------------------------------------

  class NoiseWriteStream {
    const cipher: Cipher
    /** Everything written to the stream below. */
    var wire: seq<Byte>
    var counter: nat

    constructor (cipher: Cipher)
      ensures this.cipher == cipher && wire == [] && counter == 0
    {
      this.cipher := cipher;
      wire, counter := [], 0;
    }

    /** `send_frame`; its buffer has room for the longest message. */
    method SendFrame(data: seq<Byte>)
      requires |data| <= MAX_NOISE_MSG
      modifies this`wire
      ensures wire == old(wire) + Framed(data)
    {
      var len := |data| % 0x1_0000;
      wire := wire + ([len / 256, len % 256] + data);
    }

    /** `write_all`: chunk by chunk. */
    method WriteAll(data: seq<Byte>)
      requires Lawful(cipher)
      modifies this
      ensures wire == old(wire) + FramedAll(Sealed(cipher, old(counter), Chunks(data)))
      ensures counter == old(counter) + |Chunks(data)|
    {
      var left := data;
      while left != []
        invariant wire + FramedAll(Sealed(cipher, counter, Chunks(left)))
                  == old(wire) + FramedAll(Sealed(cipher, old(counter), Chunks(data)))
        invariant counter + |Chunks(left)| == old(counter) + |Chunks(data)|
        decreases |left|
      {
        var m := Min(|left|, MAX_PLAINTEXT);
        WriteChunk(left[..m], Chunks(left[m..]));
        left := left[m..];
      }
      assert wire + [] == wire;
    }

    /** Seals and sends one chunk, when `later` are still to come. */
    method WriteChunk(chunk: seq<Byte>, ghost later: seq<seq<Byte>>)
      requires Lawful(cipher) && |chunk| <= MAX_PLAINTEXT
      modifies this
      ensures counter == old(counter) + 1
      ensures wire + FramedAll(Sealed(cipher, counter, later))
              == old(wire) + FramedAll(Sealed(cipher, old(counter), [chunk] + later))
    {
      var sealed := cipher.seal(counter, chunk);
      assert Inverts(cipher, counter, chunk);
      ghost var rest := Sealed(cipher, counter + 1, later);
      assert ([chunk] + later)[1..] == later && ([sealed] + rest)[1..] == rest;
      Assoc(wire, Framed(sealed), FramedAll(rest));
      SendFrame(sealed);
      counter := counter + 1;
    }
  }

  // ---------------------------------------------------------------------------
  // Reading
  // ---------------------------------------------------------------------------

  datatype ReadError = EndOfStream | Decrypt

  class NoiseReadStream {
    const cipher: Cipher
    /** What the stream below has still to give. */
    var input: seq<Byte>
    var counter: nat
    /** Decrypted bytes not yet asked for. */
    var readBuf: seq<Byte>

    constructor (cipher: Cipher, input: seq<Byte>)
      ensures this.cipher == cipher && this.input == input && counter == 0 && readBuf == []
    {
      this.cipher := cipher;
      this.input := input;
      counter, readBuf := 0, [];
    }

    /** All the plaintext that can still be read. */
    ghost function Available(): seq<Byte>
      reads this
    {
      readBuf + Plaintext(cipher, counter, input)
    }

    /** The next frame, decrypted into the empty buffer. */
    method Refill() returns (error: Option<ReadError>)
      requires readBuf == []
      modifies this
      ensures error.None? ==> |input| < |old(input)| && Available() == old(Available())
      ensures error.Some? ==> old(Available()) == []
    {
      match Received(input) {
        case Short => return Some(EndOfStream);
        case Whole(data, rest) =>
          var plain := cipher.unseal(counter, data);
          if plain.None? {
            return Some(Decrypt);
          }
          assert Messages(input)[0] == data && Messages(input)[1..] == Messages(rest);
          assert [] + Plaintext(cipher, counter, input) == plain.value + Plaintext(cipher, counter + 1, rest);
          readBuf, input, counter := plain.value, rest, counter + 1;
          return None;
      }
    }

    /** `read_exact`: succeeds exactly when that many bytes can be had, and hands back the next of them. */
    method ReadExact(len: nat) returns (r: Result<seq<Byte>, ReadError>)
      modifies this
      ensures r.Ok? <==> len <= |old(Available())|
      ensures r.Ok? ==> r.value == old(Available())[..len] && Available() == old(Available())[len..]
    {
      var out := [];
      assert out + Available() == Available();
      while |out| < len
        invariant |out| <= len && out + Available() == old(Available())
        decreases |input|, len - |out|
      {
        if readBuf != [] {
          var n := Min(|readBuf|, len - |out|);
          Moved(out, readBuf, n, Plaintext(cipher, counter, input));
          out, readBuf := out + readBuf[..n], readBuf[n..];
        } else {
          var error := Refill();
          if error.Some? {
            assert out + [] == out;
            return Err(error.value);
          }
        }
      }
      assert (out + Available())[..len] == out && (out + Available())[len..] == Available();
      return Ok(out);
    }
  }

  lemma {:induction false} Moved(out: seq<Byte>, buf: seq<Byte>, n: nat, later: seq<Byte>)
    requires n <= |buf|
    ensures (out + buf[..n]) + (buf[n..] + later) == out + (buf + later)
  {
  }

  // ---------------------------------------------------------------------------
  // End to end
  // ---------------------------------------------------------------------------

  function Total(sizes: seq<nat>): nat
  {
    if sizes == [] then 0 else sizes[0] + Total(sizes[1..])
  }

  /** Consecutive slices. */
  function Slices(s: seq<Byte>, sizes: seq<nat>): seq<seq<Byte>>
    requires Total(sizes) <= |s|
  {
    if sizes == [] then [] else [s[..sizes[0]]] + Slices(s[sizes[0]..], sizes[1..])
  }

  lemma {:induction false} SlicesConcat(s: seq<Byte>, sizes: seq<nat>)
    requires Total(sizes) <= |s|
    ensures Concat(Slices(s, sizes)) == s[..Total(sizes)]
  {
    if sizes != [] {
      SlicesConcat(s[sizes[0]..], sizes[1..]);
      assert Slices(s, sizes)[1..] == Slices(s[sizes[0]..], sizes[1..]);
      assert s[..Total(sizes)] == s[..sizes[0]] + s[sizes[0]..][..Total(sizes[1..])];
    }
  }

  /** Any writes into one end, any reads from the other within their total: the reads are consecutive slices
      of the concatenated writes. */
  method Transfer(cipher: Cipher, writes: seq<seq<Byte>>, sizes: seq<nat>) returns (got: seq<seq<Byte>>)
    requires Lawful(cipher) && Total(sizes) <= |Concat(writes)|
    ensures got == Slices(Concat(writes), sizes)
    ensures Concat(got) == Concat(writes)[..Total(sizes)]
  {
    var writer := new NoiseWriteStream(cipher);
    WriteList(writer, writes);
    assert [] + writer.wire == writer.wire && writer.wire + [] == writer.wire;
    WritesCarryPlaintext(cipher, writes, writer.wire, []);
    var reader := new NoiseReadStream(cipher, writer.wire);
    assert reader.Available() == [] + Concat(writes) == Concat(writes);
    got := ReadList(reader, sizes);
    SlicesConcat(Concat(writes), sizes);
  }

  lemma {:induction false} FramedFirst(c: Cipher, n: nat, a: seq<seq<Byte>>, b: seq<seq<Byte>>, before: seq<Byte>)
    ensures before + FramedAll(Sealed(c, n, a + b))
            == (before + FramedAll(Sealed(c, n, a))) + FramedAll(Sealed(c, n + |a|, b))
  {
    SealedSplit(c, n, a, b);
    FramedAllSplit(Sealed(c, n, a), Sealed(c, n + |a|, b));
    Assoc(before, FramedAll(Sealed(c, n, a)), FramedAll(Sealed(c, n + |a|, b)));
  }

  /** The given writes, in turn. */
  method WriteList(writer: NoiseWriteStream, writes: seq<seq<Byte>>)
    requires Lawful(writer.cipher)
    modifies writer
    ensures writer.wire == old(writer.wire) + FramedAll(Sealed(writer.cipher, old(writer.counter), AllChunks(writes)))
    decreases |writes|
  {
    if writes == [] {
      assert writer.wire + [] == writer.wire;
    } else {
      FramedFirst(writer.cipher, writer.counter, Chunks(writes[0]), AllChunks(writes[1..]), writer.wire);
      writer.WriteAll(writes[0]);
      WriteList(writer, writes[1..]);
    }
  }

  /** Reads of the given sizes, in turn. */
  method ReadList(reader: NoiseReadStream, sizes: seq<nat>) returns (got: seq<seq<Byte>>)
    requires Total(sizes) <= |reader.Available()|
    modifies reader
    ensures got == Slices(old(reader.Available()), sizes)
  {
    ghost var all := reader.Available();
    got := [];
    var j := 0;
    assert sizes[0..] == sizes && [] + Slices(all, sizes) == Slices(all, sizes);
    while j < |sizes|
      invariant j <= |sizes|
      invariant Total(sizes[j..]) <= |reader.Available()|
      invariant got + Slices(reader.Available(), sizes[j..]) == Slices(all, sizes)
    {
      assert sizes[j..][0] == sizes[j] && sizes[j..][1..] == sizes[j + 1..];
      var r := reader.ReadExact(sizes[j]);
      Assoc(got, [r.value], Slices(reader.Available(), sizes[j + 1..]));
      got := got + [r.value];
      j := j + 1;
    }
    assert got + [] == got;
  }
}
