/** The identity payload of the Noise handshake: an ed25519 key, itself a protobuf message, and a
    signature (`src/layers/noise.rs`). */
module NoiseHandshake {
  import opened Bytes
  import V = Varint
  import opened Protobuf

  const KEY_LEN := 32
  const SIGNATURE_LEN := 64
  const ED25519 := 1

  datatype Payload = Payload(key: seq<Byte>, signature: seq<Byte>)

  datatype HandshakeError =
    | ProtobufError(error: Protobuf.Error)
    | InvalidNoisePayload
    | InvalidKey
    | InvalidKeyLength(len: nat)
    | InvalidSignatureLength(len: nat)

  predicate WellSized(p: Payload) { |p.key| == KEY_LEN && |p.signature| == SIGNATURE_LEN }

  // ---------------------------------------------------------------------------
  // To protobuf
  // ---------------------------------------------------------------------------

  function KeyFields(key: seq<Byte>): seq<Field> { [Field(1, Varint(ED25519)), Field(2, Data(key))] }

  function OuterFields(p: Payload): seq<Field>
  {
    [Field(1, Data(EncodedAll(KeyFields(p.key)))), Field(2, Data(p.signature))]
  }

  lemma {:induction false} EncodedTwo(a: Field, b: Field)
    ensures EncodedAll([a, b]) == EncodedField(a) + EncodedField(b)
  {
    assert [a, b][1..] == [b] && [b][1..] == [];
    assert EncodedAll([b]) == EncodedField(b) + [];
  }

  lemma {:induction false} OneByte(id: U64, v: Value)
    requires id <= 2
    ensures |V.Encoded(Tag(id, WireNumber(v)))| == 1
  {
    TagSplits(id, WireNumber(v));
  }

  /** The key message takes 36 bytes, and the payload 104 in all. */
  lemma {:induction false} Sizes(p: Payload)
    requires WellSized(p)
    ensures |EncodedAll(KeyFields(p.key))| == 36 && |EncodedAll(OuterFields(p))| == 104
    ensures |EncodedField(KeyFields(p.key)[0])| == 2
  {
    var k, o := KeyFields(p.key), OuterFields(p);
    EncodedTwo(k[0], k[1]);
    OneByte(1, k[0].value);
    OneByte(2, k[1].value);
    assert |V.Encoded(KEY_LEN)| == 1 && |V.Encoded(ED25519)| == 1;
    EncodedTwo(o[0], o[1]);
    OneByte(1, o[0].value);
    OneByte(2, o[1].value);
    assert |V.Encoded(36)| == 1 && |V.Encoded(SIGNATURE_LEN)| == 1;
  }

  method PutTwo(out: array<Byte>, a: Field, b: Field) returns (n: nat)
    requires WellFormed(a.value) && WellFormed(b.value) && |EncodedField(a)| + |EncodedField(b)| <= out.Length
    modifies out
    ensures n <= out.Length && out[..n] == EncodedAll([a, b])
  {
    var encoder := new Encoder(out);
    assert encoder.Written() == [];
    encoder.Put(a);
    assert [] + EncodedField(a) == EncodedField(a) && encoder.pos == |encoder.Written()|;
    encoder.Put(b);
    EncodedTwo(a, b);
    n := encoder.pos;
  }

  /** `to_protobuf`: the key in a buffer of its own, then key and signature into the slice. */
  method ToProtobuf(p: Payload, out: array<Byte>) returns (n: nat)
    requires WellSized(p) && out.Length >= |EncodedAll(OuterFields(p))|
    modifies out
    ensures n <= out.Length && out[..n] == EncodedAll(OuterFields(p))
  {
    Sizes(p);
    var k := KeyFields(p.key);
    EncodedTwo(k[0], k[1]);
    var buffer := new Byte[128](_ => 0);
    var len := PutTwo(buffer, k[0], k[1]);
    assert [k[0], k[1]] == k;
    var o := OuterFields(p);
    EncodedTwo(o[0], o[1]);
    n := PutTwo(out, Field(1, Data(buffer[..len])), Field(2, Data(p.signature)));
  }

  // ---------------------------------------------------------------------------
  // From protobuf
  // ---------------------------------------------------------------------------

  /** A visitor keeps the last value of a field it has seen. */
  function LastData(fields: seq<Field>, id: U64): Option<seq<Byte>>
  {
    if fields == [] then None
    else
      var f := fields[|fields| - 1];
      if f.id == id && f.value.Data? then Some(f.value.bytes) else LastData(fields[..|fields| - 1], id)
  }

  function LastVarint(fields: seq<Field>, id: U64): Option<U64>
  {
    if fields == [] then None
    else
      var f := fields[|fields| - 1];
      if f.id == id && f.value.Varint? then Some(f.value.n) else LastVarint(fields[..|fields| - 1], id)
  }

  function OuterOf(bytes: seq<Byte>): Result<(seq<Byte>, seq<Byte>), HandshakeError>
  {
    var v := Parse(bytes);
    if v.error.Some? then Err(ProtobufError(v.error.value))
    else
      match LastData(v.fields, 2)
      case None => Err(InvalidNoisePayload)
      case Some(signature) =>
        if |signature| != SIGNATURE_LEN then Err(InvalidSignatureLength(|signature|))
        else match LastData(v.fields, 1)
          case None => Err(InvalidNoisePayload)
          case Some(key) => Ok((key, signature))
  }

  function KeyOf(bytes: seq<Byte>): Result<seq<Byte>, HandshakeError>
  {
    var v := Parse(bytes);
    if v.error.Some? then Err(ProtobufError(v.error.value))
    else
      match LastData(v.fields, 2)
      case Some(key) =>
        if LastVarint(v.fields, 1) != Some(ED25519) then Err(InvalidKey)
        else if |key| != KEY_LEN then Err(InvalidKeyLength(|key|))
        else Ok(key)
      case None => Err(InvalidKey)
  }

  function PayloadOf(bytes: seq<Byte>): Result<Payload, HandshakeError>
  {
    match OuterOf(bytes)
    case Err(e) => Err(e)
    case Ok(outer) =>
      match KeyOf(outer.0)
      case Err(e) => Err(e)
      case Ok(key) => Ok(Payload(key, outer.1))
  }

  // ---------------------------------------------------------------------------
  // What is accepted, from the fields alone
  // ---------------------------------------------------------------------------

  predicate HoldsData(f: Field, id: U64) { f.id == id && f.value.Data? }

  predicate HoldsVarint(f: Field, id: U64) { f.id == id && f.value.Varint? }

  /** The last data field of this number holds these bytes. */
  ghost predicate EndsWithData(fields: seq<Field>, id: U64, bytes: seq<Byte>)
  {
    exists i :: 0 <= i < |fields| && fields[i] == Field(id, Data(bytes))
                && forall k :: i < k < |fields| ==> !HoldsData(fields[k], id)
  }

  ghost predicate EndsWithVarint(fields: seq<Field>, id: U64, n: U64)
  {
    exists i :: 0 <= i < |fields| && fields[i] == Field(id, Varint(n))
                && forall k :: i < k < |fields| ==> !HoldsVarint(fields[k], id)
  }

  lemma {:induction false} LastDataIs(fields: seq<Field>, id: U64)
    ensures forall bytes :: LastData(fields, id) == Some(bytes) <==> EndsWithData(fields, id, bytes)
    ensures LastData(fields, id) == None <==> forall f :: f in fields ==> !HoldsData(f, id)
  {
    if fields != [] {
      var n := |fields| - 1;
      var init, last := fields[..n], fields[n];
      LastDataIs(init, id);
      assert fields == init + [last];
      if HoldsData(last, id) {
        assert last == Field(id, Data(last.value.bytes));
      } else {
        forall bytes ensures EndsWithData(fields, id, bytes) <==> EndsWithData(init, id, bytes) {
          SameLastData(init, last, id, bytes);
        }
      }
    }
  }

  lemma {:induction false} SameLastData(init: seq<Field>, last: Field, id: U64, bytes: seq<Byte>)
    requires !HoldsData(last, id)
    ensures EndsWithData(init + [last], id, bytes) <==> EndsWithData(init, id, bytes)
  {
    var fields := init + [last];
    if EndsWithData(init, id, bytes) {
      var i :| 0 <= i < |init| && init[i] == Field(id, Data(bytes))
               && forall k :: i < k < |init| ==> !HoldsData(init[k], id);
      assert fields[i] == Field(id, Data(bytes));
    }
    if EndsWithData(fields, id, bytes) {
      var i :| 0 <= i < |fields| && fields[i] == Field(id, Data(bytes))
               && forall k :: i < k < |fields| ==> !HoldsData(fields[k], id);
      assert i < |init| && init[i] == fields[i];
      assert forall k :: i < k < |init| ==> init[k] == fields[k];
    }
  }

  lemma {:induction false} LastVarintIs(fields: seq<Field>, id: U64)
    ensures forall n: U64 :: LastVarint(fields, id) == Some(n) <==> EndsWithVarint(fields, id, n)
  {
    if fields != [] {
      var n := |fields| - 1;
      var init, last := fields[..n], fields[n];
      LastVarintIs(init, id);
      assert fields == init + [last];
      if HoldsVarint(last, id) {
        assert last == Field(id, Varint(last.value.n));
      } else {
        forall v: U64 ensures EndsWithVarint(fields, id, v) <==> EndsWithVarint(init, id, v) {
          SameLastVarint(init, last, id, v);
        }
      }
    }
  }

  lemma {:induction false} SameLastVarint(init: seq<Field>, last: Field, id: U64, n: U64)
    requires !HoldsVarint(last, id)
    ensures EndsWithVarint(init + [last], id, n) <==> EndsWithVarint(init, id, n)
  {
    var fields := init + [last];
    if EndsWithVarint(init, id, n) {
      var i :| 0 <= i < |init| && init[i] == Field(id, Varint(n))
               && forall k :: i < k < |init| ==> !HoldsVarint(init[k], id);
      assert fields[i] == Field(id, Varint(n));
    }
    if EndsWithVarint(fields, id, n) {
      var i :| 0 <= i < |fields| && fields[i] == Field(id, Varint(n))
               && forall k :: i < k < |fields| ==> !HoldsVarint(fields[k], id);
      assert i < |init| && init[i] == fields[i];
      assert forall k :: i < k < |init| ==> init[k] == fields[k];
    }
  }

  /** The outer message parses, and ends with this key message and a signature of 64 bytes. */
  ghost predicate OuterIs(bytes: seq<Byte>, key: seq<Byte>, signature: seq<Byte>)
  {
    var v := Parse(bytes);
    v.error == None && EndsWithData(v.fields, 1, key) && EndsWithData(v.fields, 2, signature) && |signature| == 64
  }

  /** The key message parses, its type is 1, and it ends with this key of 32 bytes. */
  ghost predicate KeyIs(message: seq<Byte>, key: seq<Byte>)
  {
    var v := Parse(message);
    v.error == None && EndsWithVarint(v.fields, 1, 1) && EndsWithData(v.fields, 2, key) && |key| == 32
  }

  /** Accepted, and as what: the two messages parse, the type is ed25519, and key and signature, the last of each, have
      their sizes. */
  lemma {:induction false} AcceptedExactly(bytes: seq<Byte>, p: Payload)
    ensures PayloadOf(bytes) == Ok(p) <==>
              exists message :: OuterIs(bytes, message, p.signature) && KeyIs(message, p.key)
  {
    OuterExactly(bytes);
    if PayloadOf(bytes).Ok? {
      var outer := OuterOf(bytes).value;
      KeyExactly(outer.0, p.key);
      assert OuterIs(bytes, outer.0, outer.1);
    }
    forall message | OuterIs(bytes, message, p.signature) && KeyIs(message, p.key) ensures PayloadOf(bytes) == Ok(p) {
      KeyExactly(message, p.key);
    }
  }

  lemma {:induction false} OuterExactly(bytes: seq<Byte>)
    ensures forall key, signature :: OuterOf(bytes) == Ok((key, signature)) <==> OuterIs(bytes, key, signature)
  {
    LastDataIs(Parse(bytes).fields, 1);
    LastDataIs(Parse(bytes).fields, 2);
  }

  lemma {:induction false} KeyExactly(message: seq<Byte>, key: seq<Byte>)
    ensures KeyOf(message) == Ok(key) <==> KeyIs(message, key)
  {
    LastDataIs(Parse(message).fields, 2);
    LastVarintIs(Parse(message).fields, 1);
  }

  /** Which failure of the outer message gives which error: its parse, then the signature, then the key. */
  lemma {:induction false} OuterFails(bytes: seq<Byte>, e: HandshakeError)
    ensures var v := Parse(bytes);
            OuterOf(bytes) == Err(e) <==>
              match e
              case ProtobufError(error) => v.error == Some(error)
              case InvalidSignatureLength(n) =>
                v.error == None && n != 64 && exists s :: EndsWithData(v.fields, 2, s) && |s| == n
              case InvalidNoisePayload =>
                && v.error == None
                && (|| (forall f :: f in v.fields ==> !HoldsData(f, 2))
                    || ((forall f :: f in v.fields ==> !HoldsData(f, 1))
                        && exists s :: EndsWithData(v.fields, 2, s) && |s| == 64))
              case _ => false
  {
    LastDataIs(Parse(bytes).fields, 1);
    LastDataIs(Parse(bytes).fields, 2);
    var v := Parse(bytes);
    if LastData(v.fields, 2).Some? { assert EndsWithData(v.fields, 2, LastData(v.fields, 2).value); }
  }

  /** And of the key message: its parse, then the type or a missing key, then the size. */
  lemma {:induction false} KeyFails(message: seq<Byte>, e: HandshakeError)
    ensures var v := Parse(message);
            KeyOf(message) == Err(e) <==>
              match e
              case ProtobufError(error) => v.error == Some(error)
              case InvalidKey =>
                v.error == None && (!EndsWithVarint(v.fields, 1, 1) || forall f :: f in v.fields ==> !HoldsData(f, 2))
              case InvalidKeyLength(n) =>
                && v.error == None && EndsWithVarint(v.fields, 1, 1)
                && n != 32 && exists k :: EndsWithData(v.fields, 2, k) && |k| == n
              case _ => false
  {
    LastDataIs(Parse(message).fields, 2);
    LastVarintIs(Parse(message).fields, 1);
    var v := Parse(message);
    if LastData(v.fields, 2).Some? { assert EndsWithData(v.fields, 2, LastData(v.fields, 2).value); }
  }

  /** The outer message's failure comes first; the key message's counts only behind a good one. */
  lemma {:induction false} FailsExactly(bytes: seq<Byte>, e: HandshakeError)
    ensures PayloadOf(bytes) == Err(e) <==>
            || OuterOf(bytes) == Err(e)
            || exists message, signature :: OuterIs(bytes, message, signature) && KeyOf(message) == Err(e)
  {
    OuterExactly(bytes);
    if OuterOf(bytes).Ok? { assert OuterIs(bytes, OuterOf(bytes).value.0, OuterOf(bytes).value.1); }
  }

  // ---------------------------------------------------------------------------
  // Reading it
  // ---------------------------------------------------------------------------

  /** The visitors: which fields were seen, the last of each counting. */
  method VisitFields(fields: seq<Field>) returns (data1: Option<seq<Byte>>, data2: Option<seq<Byte>>, kind: Option<U64>)
    ensures data1 == LastData(fields, 1) && data2 == LastData(fields, 2) && kind == LastVarint(fields, 1)
  {
    data1, data2, kind := None, None, None;
    for k := 0 to |fields|
      invariant data1 == LastData(fields[..k], 1) && data2 == LastData(fields[..k], 2)
                && kind == LastVarint(fields[..k], 1)
    {
      assert fields[..k + 1][..k] == fields[..k];
      match fields[k].value {
        case Data(bytes) =>
          if fields[k].id == 1 {
            data1 := Some(bytes);
          } else if fields[k].id == 2 {
            data2 := Some(bytes);
          }
        case Varint(n) => if fields[k].id == 1 { kind := Some(n); }
        case _ =>
      }
    }
    assert fields[..|fields|] == fields;
  }

  /** `from_protobuf`: total, and whatever it accepts has a key and a signature of the right sizes. */
  method FromProtobuf(bytes: seq<Byte>) returns (r: Result<Payload, HandshakeError>)
    ensures r == PayloadOf(bytes)
    ensures r.Ok? ==> WellSized(r.value)
    ensures forall p :: r == Ok(p) <==> exists message :: OuterIs(bytes, message, p.signature) && KeyIs(message, p.key)
  {
    forall p: Payload
      ensures PayloadOf(bytes) == Ok(p) <==>
                exists message :: OuterIs(bytes, message, p.signature) && KeyIs(message, p.key)
    {
      AcceptedExactly(bytes, p);
    }
    var outer := Decode(bytes);
    if outer.error.Some? {
      return Err(ProtobufError(outer.error.value));
    }
    var encodedKey, signature, unused := VisitFields(outer.fields);
    if signature.None? {
      return Err(InvalidNoisePayload);
    }
    if |signature.value| != SIGNATURE_LEN {
      return Err(InvalidSignatureLength(|signature.value|));
    }
    if encodedKey.None? {
      return Err(InvalidNoisePayload);
    }
    var inner := Decode(encodedKey.value);
    if inner.error.Some? {
      return Err(ProtobufError(inner.error.value));
    }
    var unused', key, kind := VisitFields(inner.fields);
    if kind != Some(ED25519) || key.None? {
      return Err(InvalidKey);
    }
    if |key.value| != KEY_LEN {
      return Err(InvalidKeyLength(|key.value|));
    }
    return Ok(Payload(key.value, signature.value));
  }

  // ---------------------------------------------------------------------------
  // Round trip
  // ---------------------------------------------------------------------------

  lemma {:induction false} ParseTwo(a: Field, b: Field)
    requires WellFormed(a.value) && WellFormed(b.value) && a.id < ID_LIMIT && b.id < ID_LIMIT
    ensures Parse(EncodedAll([a, b])) == Visited([a, b], None)
  {
    var fields := [a, b];
    assert fields[1..] == [b] && [b][1..] == [];
    assert AllWellFormed(fields) && AllNarrow(fields);
    ParseEncoded(fields);
    NarrowExactly(fields);
  }

  lemma {:induction false} LastOfTwo(a: Field, b: Field, id: U64)
    ensures LastData([a, b], id) == if b.id == id && b.value.Data? then Some(b.value.bytes)
                                    else if a.id == id && a.value.Data? then Some(a.value.bytes) else None
    ensures LastVarint([a, b], id) == if b.id == id && b.value.Varint? then Some(b.value.n)
                                      else if a.id == id && a.value.Varint? then Some(a.value.n) else None
  {
    var one, two := [a], [a, b];
    assert one[..|one| - 1] == [] && two[..|two| - 1] == one;
    assert LastData(one, id) == if a.id == id && a.value.Data? then Some(a.value.bytes) else None;
    assert LastVarint(one, id) == if a.id == id && a.value.Varint? then Some(a.value.n) else None;
  }

  /** `from_protobuf` inverts `to_protobuf`, for every key and every signature. */
  lemma {:induction false} PayloadRoundTrip(p: Payload)
    requires WellSized(p)
    ensures PayloadOf(EncodedAll(OuterFields(p))) == Ok(p)
  {
    Sizes(p);
    var k, o := KeyFields(p.key), OuterFields(p);
    ParseTwo(k[0], k[1]);
    ParseTwo(o[0], o[1]);
    LastOfTwo(k[0], k[1], 1);
    LastOfTwo(k[0], k[1], 2);
    LastOfTwo(o[0], o[1], 1);
    LastOfTwo(o[0], o[1], 2);
  }
}
