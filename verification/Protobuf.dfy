/** Protobuf fields, written into a slice and visited in order (`src/utils/protobuf.rs`). */
module Protobuf {
  import opened Bytes
  import V = Varint

  const I64_LEN := 8
  const I32_LEN := 4
  /** A tag keeps the lowest 61 bits of a field number. */
  const ID_LIMIT := 0x2000_0000_0000_0000

  datatype Value = Varint(n: U64) | I64(bytes: seq<Byte>) | Data(bytes: seq<Byte>) | I32(bytes: seq<Byte>)

  datatype Field = Field(id: U64, value: Value)

  datatype WireType = VarintType | I64Type | DataType | DeprecatedGroups | I32Type | Unknown(n: nat)

  datatype Error = BadVarint(tooLong: bool) | UnexpectedEnd(need: nat, got: nat) | InvalidWireType(got: nat)

  // ---------------------------------------------------------------------------
  // Tags
  // ---------------------------------------------------------------------------

  function WireTypeOf(n: nat): WireType
  {
    if n == 0 then VarintType
    else if n == 1 then I64Type
    else if n == 2 then DataType
    else if n == 3 || n == 4 then DeprecatedGroups
    else if n == 5 then I32Type
    else Unknown(n)
  }

  function WireNumber(v: Value): nat
  {
    match v
    case Varint(_) => 0
    case I64(_) => 1
    case Data(_) => 2
    case I32(_) => 5
  }

  /** The number shifted left by three, in 64 bits, with the wire type in the low bits. */
  function Tag(id: U64, wire: nat): nat { V.BitOr(wire, V.Shl64(id, 3)) }

  /** A tag gives back its wire type, and its field number exactly when that is below 2^61. */
  lemma {:induction false} TagSplits(id: U64, wire: nat)
    requires wire < 8
    ensures Tag(id, wire) < U64_LIMIT && Tag(id, wire) % 8 == wire
    ensures Tag(id, wire) / 8 == id % ID_LIMIT
    ensures Tag(id, wire) / 8 == id <==> id < ID_LIMIT
  {
    TagSum(id, wire);
    LowBits(id % ID_LIMIT, wire);
  }

  /** A field's tag, by kind of value: its number in the high bits, and 0, 1, 2 or 5 in the low three. */
  lemma {:induction false} TagIs(id: U64, v: Value)
    requires id < ID_LIMIT
    ensures Tag(id, WireNumber(v))
            == id * 8 + (match v case Varint(_) => 0 case I64(_) => 1 case Data(_) => 2 case I32(_) => 5)
  {
    TagSum(id, WireNumber(v));
  }

  lemma {:induction false} TagSum(id: U64, wire: nat)
    requires wire < 8
    ensures Tag(id, wire) == wire + (id % ID_LIMIT) * 8
  {
    Eight();
    ShiftDrops(id);
    V.BitOrDisjoint(wire, id % ID_LIMIT, 3);
  }

  lemma {:induction false} LowBits(high: nat, low: nat)
    requires low < 8
    ensures (low + high * 8) % 8 == low && (low + high * 8) / 8 == high
  {
  }

  lemma {:induction false} Eight()
    ensures Pow(2, 3) == 8
  {
  }

  lemma {:induction false} ShiftDrops(id: nat)
    ensures (id * 8) % U64_LIMIT == (id % ID_LIMIT) * 8
  {
  }

  // ---------------------------------------------------------------------------
  // Encoding
  // ---------------------------------------------------------------------------

  /** What Rust's types say of a value: fixed widths, and lengths that fit a word. */
  predicate WellFormed(v: Value)
  {
    match v
    case Varint(_) => true
    case I64(bytes) => |bytes| == I64_LEN
    case I32(bytes) => |bytes| == I32_LEN
    case Data(bytes) => |bytes| < U64_LIMIT
  }

  function EncodedValue(v: Value): seq<Byte>
  {
    match v
    case Varint(n) => V.Encoded(n)
    case I64(bytes) => bytes
    case I32(bytes) => bytes
    case Data(bytes) => V.Encoded(|bytes|) + bytes
  }

  function EncodedField(f: Field): seq<Byte> { V.Encoded(Tag(f.id, WireNumber(f.value))) + EncodedValue(f.value) }

  function EncodedAll(fields: seq<Field>): seq<Byte>
  {
    if fields == [] then [] else EncodedField(fields[0]) + EncodedAll(fields[1..])
  }

  /** The encoder writes where the last field ended; the source panics when the slice is too short. */
  class Encoder {
    const out: array<Byte>
    var pos: nat

    constructor (out: array<Byte>)
      ensures this.out == out && pos == 0
    {
      this.out := out;
      pos := 0;
    }

    ghost predicate Valid()
      reads this`pos
    {
      pos <= out.Length
    }

    /** Everything written so far. */
    ghost function Written(): seq<Byte>
      requires Valid()
      reads this`pos, out
    {
      out[..pos]
    }

    method VarintValue(value: U64)
      requires Valid() && pos + |V.Encoded(value)| <= out.Length
      modifies this`pos, out
      ensures Valid() && pos == old(pos) + |V.Encoded(value)| && Written() == old(Written()) + V.Encoded(value)
    {
      var n := V.Encode(value, out, pos);
      assert out[..pos + n] == out[..pos] + out[pos..pos + n];
      assert out[..pos] == old(out[..pos]);
      pos := pos + n;
    }

    method Bytes(data: seq<Byte>)
      requires Valid() && pos + |data| <= out.Length
      modifies this`pos, out
      ensures Valid() && pos == old(pos) + |data| && Written() == old(Written()) + data
    {
      forall k | 0 <= k < |data| { out[pos + k] := data[k]; }
      assert out[..pos] == old(out[..pos]) && out[pos..pos + |data|] == data;
      assert out[..pos + |data|] == out[..pos] + out[pos..pos + |data|];
      pos := pos + |data|;
    }

    method FieldIdAndWireType(id: U64, value: Value)
      requires Valid() && pos + |V.Encoded(Tag(id, WireNumber(value)))| <= out.Length
      modifies this`pos, out
      ensures Valid() && Written() == old(Written()) + V.Encoded(Tag(id, WireNumber(value)))
    {
      TagSplits(id, WireNumber(value));
      VarintValue(Tag(id, WireNumber(value)));
    }

    /** `encode_varint`, `encode_i64`, `encode_i32` and `encode_data`: the tag, then the value. */
    method Put(f: Field)
      requires Valid() && WellFormed(f.value) && pos + |EncodedField(f)| <= out.Length
      modifies this`pos, out
      ensures Valid() && Written() == old(Written()) + EncodedField(f)
    {
      ghost var before, tag := Written(), V.Encoded(Tag(f.id, WireNumber(f.value)));
      FieldIdAndWireType(f.id, f.value);
      Assoc(before, tag, EncodedValue(f.value));
      match f.value {
        case Varint(n) => VarintValue(n);
        case I64(bytes) => Bytes(bytes);
        case I32(bytes) => Bytes(bytes);
        case Data(bytes) =>
          VarintValue(|bytes|);
          Bytes(bytes);
          Assoc(before + tag, V.Encoded(|bytes|), bytes);
      }
    }
  }

  // ---------------------------------------------------------------------------
  // Decoding
  // ---------------------------------------------------------------------------

  datatype Step = Got(field: Field, rest: seq<Byte>) | Skipped(rest: seq<Byte>) | Bad(error: Error)

  function Take(id: U64, input: seq<Byte>, n: nat, wrap: seq<Byte> -> Value): Step
  {
    if n > |input| then Bad(UnexpectedEnd(n, |input|)) else Got(Field(id, wrap(input[..n])), input[n..])
  }

  function VarintError(s: V.Scanned): Error { BadVarint(s.TooLong?) }

  /** The value after a tag. */
  function ParseValue(id: U64, wire: WireType, input: seq<Byte>): Step
  {
    match wire
    case VarintType =>
      (match V.Scan([], input)
       case Done(n, rest) => Got(Field(id, Varint(n)), rest)
       case s => Bad(VarintError(s)))
    case I64Type => Take(id, input, I64_LEN, bytes => I64(bytes))
    case DataType =>
      (match V.Scan([], input)
       case Done(n, rest) => Take(id, rest, n, bytes => Data(bytes))
       case s => Bad(VarintError(s)))
    case DeprecatedGroups => Skipped(input)
    case I32Type => Take(id, input, I32_LEN, bytes => I32(bytes))
    case Unknown(n) => Bad(InvalidWireType(n))
  }

  function ParseField(input: seq<Byte>): Step
  {
    match V.Scan([], input)
    case Done(tag, rest) => ParseValue(tag / 8, WireTypeOf(tag % 8), rest)
    case s => Bad(VarintError(s))
  }

  /** What a tag leads to, from its low three bits: a varint, eight bytes, as many bytes as a length says, nothing for
      the two group tags, four bytes, and an error for the other two; and an error where the input ends too soon. */
  lemma {:induction false} FieldExactly(input: seq<Byte>, tag: U64, rest: seq<Byte>)
    requires V.Scan([], input) == V.Done(tag, rest)
    ensures var id, step, s := tag / 8, ParseField(input), V.Scan([], rest);
            match tag % 8
            case 0 => step == if s.Done? then Got(Field(id, Varint(s.value)), s.rest) else Bad(BadVarint(s.TooLong?))
            case 1 =>
              step == if |rest| < 8 then Bad(UnexpectedEnd(8, |rest|)) else Got(Field(id, I64(rest[..8])), rest[8..])
            case 2 =>
              step == if !s.Done? then Bad(BadVarint(s.TooLong?))
                      else if |s.rest| < s.value then Bad(UnexpectedEnd(s.value, |s.rest|))
                      else Got(Field(id, Data(s.rest[..s.value])), s.rest[s.value..])
            case 3 => step == Skipped(rest)
            case 4 => step == Skipped(rest)
            case 5 =>
              step == if |rest| < 4 then Bad(UnexpectedEnd(4, |rest|)) else Got(Field(id, I32(rest[..4])), rest[4..])
            case w => step == Bad(InvalidWireType(w))
  {
  }

  /** What the visitor has seen, and the error that stopped the decoder, if any. */
  datatype Visited = Visited(fields: seq<Field>, error: Option<Error>)

  function Parse(input: seq<Byte>): Visited
    decreases |input|
  {
    if input == [] then Visited([], None)
    else
      ParseFieldShrinks(input);
      match ParseField(input)
      case Bad(e) => Visited([], Some(e))
      case Skipped(rest) => Parse(rest)
      case Got(f, rest) => var v := Parse(rest); Visited([f] + v.fields, v.error)
  }

  lemma {:induction false} ParseFieldShrinks(input: seq<Byte>)
    ensures !ParseField(input).Bad? ==> |ParseField(input).rest| < |input|
  {
    V.ScanShrinks([], input);
    var s := V.Scan([], input);
    if s.Done? { V.ScanShrinks([], s.rest); }
  }

  /** `decode`: on any input it ends, having visited exactly the fields that parse before the first error. */
  method Decode(input: seq<Byte>) returns (v: Visited)
    ensures v == Parse(input)
  {
    var cursor, fields := input, [];
    while cursor != []
      invariant Parse(input) == Visited(fields + Parse(cursor).fields, Parse(cursor).error)
      decreases |cursor|
    {
      ParseFieldShrinks(cursor);
      var step := DecodeField(cursor);
      match step {
        case Bad(e) =>
          assert fields + [] == fields;
          return Visited(fields, Some(e));
        case Skipped(rest) => cursor := rest;
        case Got(f, rest) =>
          Assoc(fields, [f], Parse(rest).fields);
          cursor, fields := rest, fields + [f];
      }
    }
    assert fields + [] == fields;
    return Visited(fields, None);
  }

  /** One turn of the decoder's loop. */
  method DecodeField(input: seq<Byte>) returns (step: Step)
    ensures step == ParseField(input)
  {
    var tag, cursor := V.Decode(input);
    if !tag.Done? {
      return Bad(VarintError(tag));
    }
    var id := tag.value / 8;
    match WireTypeOf(tag.value % 8) {
      case VarintType =>
        var n, rest := V.Decode(cursor);
        return if n.Done? then Got(Field(id, Varint(n.value)), rest) else Bad(VarintError(n));
      case I64Type =>
        return if |cursor| < I64_LEN then Bad(UnexpectedEnd(I64_LEN, |cursor|))
          else Got(Field(id, I64(cursor[..I64_LEN])), cursor[I64_LEN..]);
      case DataType =>
        var n, rest := V.Decode(cursor);
        if !n.Done? {
          return Bad(VarintError(n));
        }
        return if |rest| < n.value then Bad(UnexpectedEnd(n.value, |rest|))
          else Got(Field(id, Data(rest[..n.value])), rest[n.value..]);
      case DeprecatedGroups => return Skipped(cursor);
      case I32Type =>
        return if |cursor| < I32_LEN then Bad(UnexpectedEnd(I32_LEN, |cursor|))
          else Got(Field(id, I32(cursor[..I32_LEN])), cursor[I32_LEN..]);
      case Unknown(n) => return Bad(InvalidWireType(n));
    }
  }

  // ---------------------------------------------------------------------------
  // Round trip
  // ---------------------------------------------------------------------------

  function Narrow(f: Field): Field { f.(id := f.id % ID_LIMIT) }

  function NarrowAll(fields: seq<Field>): seq<Field>
  {
    if fields == [] then [] else [Narrow(fields[0])] + NarrowAll(fields[1..])
  }

  lemma {:induction false} ParseEncodedValue(id: U64, v: Value, rest: seq<Byte>)
    requires WellFormed(v)
    ensures ParseValue(id, WireTypeOf(WireNumber(v)), EncodedValue(v) + rest) == Got(Field(id, v), rest)
  {
    match v
    case Varint(n) => V.DecodeInvertsEncode(n, rest);
    case I64(bytes) => assert (bytes + rest)[..I64_LEN] == bytes && (bytes + rest)[I64_LEN..] == rest;
    case I32(bytes) => assert (bytes + rest)[..I32_LEN] == bytes && (bytes + rest)[I32_LEN..] == rest;
    case Data(bytes) =>
      Assoc(V.Encoded(|bytes|), bytes, rest);
      V.DecodeInvertsEncode(|bytes|, bytes + rest);
      assert (bytes + rest)[..|bytes|] == bytes && (bytes + rest)[|bytes|..] == rest;
  }

  lemma {:induction false} ParseEncodedField(f: Field, rest: seq<Byte>)
    requires WellFormed(f.value)
    ensures ParseField(EncodedField(f) + rest) == Got(Narrow(f), rest)
  {
    var tag := Tag(f.id, WireNumber(f.value));
    TagSplits(f.id, WireNumber(f.value));
    Assoc(V.Encoded(tag), EncodedValue(f.value), rest);
    V.DecodeInvertsEncode(tag, EncodedValue(f.value) + rest);
    ParseEncodedValue(f.id % ID_LIMIT, f.value, rest);
  }

  predicate AllWellFormed(fields: seq<Field>)
  {
    fields == [] || (WellFormed(fields[0].value) && AllWellFormed(fields[1..]))
  }

  predicate AllNarrow(fields: seq<Field>)
  {
    fields == [] || (fields[0].id < ID_LIMIT && AllNarrow(fields[1..]))
  }

  lemma {:induction false} NarrowExactly(fields: seq<Field>)
    ensures NarrowAll(fields) == fields <==> AllNarrow(fields)
  {
    if fields != [] {
      NarrowExactly(fields[1..]);
      assert NarrowAll(fields)[1..] == NarrowAll(fields[1..]);
      assert NarrowAll(fields)[0] == Narrow(fields[0]);
      assert [fields[0]] + fields[1..] == fields;
    }
  }

  lemma {:induction false} ParseEncoded(fields: seq<Field>)
    requires AllWellFormed(fields)
    ensures Parse(EncodedAll(fields)) == Visited(NarrowAll(fields), None)
  {
    if fields != [] {
      ParseEncoded(fields[1..]);
      ParseEncodedField(fields[0], EncodedAll(fields[1..]));
    }
  }

  /** Whatever was encoded is visited in order, to the last byte and without error; the fields come back as
      they were exactly when every field number is below 2^61. */
  lemma {:induction false} RoundTrip(fields: seq<Field>)
    requires AllWellFormed(fields)
    ensures Parse(EncodedAll(fields)).error == None
    ensures Parse(EncodedAll(fields)).fields == fields <==> AllNarrow(fields)
  {
    ParseEncoded(fields);
    NarrowExactly(fields);
  }
}
