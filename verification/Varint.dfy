/** Unsigned LEB128 integers: `src/utils/varint.rs`. */
module Varint {
  import opened Bytes

  /** The decoder's buffer holds at most ten bytes. */
  const MAX_BYTES := 10

  // ---------------------------------------------------------------------------
  // Encoding
  // ---------------------------------------------------------------------------

  /** The encoding of `v`: seven bits a byte, low bits first, top bit set on all but the last. */
  function Encoded(v: nat): (r: seq<Byte>)
    ensures |r| >= 1
  {
    if v < 128 then [v] else [v % 128 + 128] + Encoded(v / 128)
  }

  /** `encode`: writes at `start` and reports the number of bytes written. The source panics
      when the slice is too short, so room is what it asks of its callers. */
  method Encode(value: U64, out: array<Byte>, start: nat) returns (n: nat)
    requires start + |Encoded(value)| <= out.Length
    modifies out
    ensures n == |Encoded(value)| <= MAX_BYTES
    ensures out[start..start + n] == Encoded(value)
    ensures forall k :: 0 <= k < start || start + n <= k < out.Length ==> out[k] == old(out[k])
  {
    EncodedFitsU64(value);
    var v: nat := value;
    n := 0;
    ghost var whole := Encoded(value);
    while v >= 128
      invariant n + |Encoded(v)| == |whole|
      invariant whole[n..] == Encoded(v)
      invariant forall k :: 0 <= k < n ==> out[start + k] == whole[k]
      invariant forall k :: 0 <= k < start || start + n <= k < out.Length ==> out[k] == old(out[k])
      decreases v
    {
      assert whole[n] == Encoded(v)[0] == v % 128 + 128;
      assert whole[n + 1..] == whole[n..][1..] == Encoded(v / 128);
      out[start + n] := v % 128 + 128;
      n := n + 1;
      v := v / 128;
    }
    assert whole[n] == Encoded(v)[0] == v;
    out[start + n] := v;
    n := n + 1;
  }

  lemma {:induction false} EncodedLength(v: nat, k: nat)
    requires k >= 1 && v < Pow(128, k)
    ensures |Encoded(v)| <= k
  {
    if v >= 128 {
      assert Pow(128, 1) == 128;
      assert v / 128 < Pow(128, k - 1);
      EncodedLength(v / 128, k - 1);
    }
  }

  lemma {:induction false} Powers()
    ensures Pow(128, 9) * 2 == U64_LIMIT && Pow(128, 10) == Pow(128, 9) * 128
  {
  }

  /** A u64 never needs more than the ten bytes the callers reserve. */
  lemma {:induction false} EncodedFitsU64(v: U64)
    ensures |Encoded(v)| <= MAX_BYTES
  {
    Powers();
    EncodedLength(v, 10);
  }

  // ---------------------------------------------------------------------------
  // Decoding
  // ---------------------------------------------------------------------------

  /** The number that seven-bit groups stand for, before any truncation. */
  function ValueOf(bytes: seq<Byte>): nat
  {
    if bytes == [] then 0 else bytes[0] % 128 + 128 * ValueOf(bytes[1..])
  }

  /** Bitwise or of two naturals. */
  function BitOr(a: nat, b: nat): nat
  {
    if a == 0 then b
    else if b == 0 then a
    else 2 * BitOr(a / 2, b / 2) + (if a % 2 == 1 || b % 2 == 1 then 1 else 0)
  }

  /** Shift left in 64 bits: bits shifted past the top are lost. */
  function Shl64(x: nat, s: nat): U64 { (x * Pow(2, s)) % U64_LIMIT }

  /** Bits below position `s` and a number shifted by `s` do not overlap, so "or" adds them. */
  lemma {:induction false} BitOrDisjoint(a: nat, c: nat, s: nat)
    requires a < Pow(2, s)
    ensures BitOr(a, c * Pow(2, s)) == a + c * Pow(2, s)
    decreases s
  {
    if s == 0 || a == 0 || c == 0 {
    } else {
      var p := Pow(2, s - 1);
      assert Pow(2, s) == 2 * p;
      assert c * Pow(2, s) == 2 * (c * p) by { MulSwap(c, p); }
      assert (c * Pow(2, s)) / 2 == c * p;
      PowPositive(2, s);
      BitOrDisjoint(a / 2, c, s - 1);
    }
  }

  lemma {:induction false} MulSwap(c: nat, p: nat)
    ensures c * (2 * p) == 2 * (c * p)
  {
  }

  lemma {:induction false} PowSquare(k: nat)
    ensures Pow(2, 7 * k) == Pow(128, k)
  {
    if k > 0 {
      PowSquare(k - 1);
      var e := 7 * (k - 1);
      assert Pow(2, e + 1) == 2 * Pow(2, e);
      assert Pow(2, e + 2) == 4 * Pow(2, e);
      assert Pow(2, e + 3) == 8 * Pow(2, e);
      assert Pow(2, e + 4) == 16 * Pow(2, e);
      assert Pow(2, e + 5) == 32 * Pow(2, e);
      assert Pow(2, e + 6) == 64 * Pow(2, e);
      assert Pow(2, e + 7) == 128 * Pow(2, e);
    }
  }

  lemma {:induction false} ValueOfSnoc(s: seq<Byte>, b: Byte)
    ensures ValueOf(s + [b]) == ValueOf(s) + (b % 128) * Pow(128, |s|)
    ensures ValueOf(s) < Pow(128, |s|)
  {
    if s == [] {
      assert s + [b] == [b];
      assert ValueOf([b]) == b % 128 + 128 * ValueOf([b][1..]);
    } else {
      assert (s + [b])[1..] == s[1..] + [b];
      ValueOfSnoc(s[1..], b);
      assert 128 * ((b % 128) * Pow(128, |s| - 1)) == (b % 128) * (128 * Pow(128, |s| - 1));
    }
  }

  /** The bytes pushed so far, all of which asked for more. */
  datatype Decoder = Decoder(bytes: seq<Byte>)

  datatype DecoderOutput = Value(value: U64) | NeedsMoreBytes(decoder: Decoder) | OutOfRange

  /** One step of the decoder, with the value read as a number modulo 2^64. */
  function Fed(d: Decoder, b: Byte): DecoderOutput
  {
    if |d.bytes| >= MAX_BYTES then OutOfRange
    else if b < 128 then Value(ValueOf(d.bytes + [b]) % U64_LIMIT)
    else NeedsMoreBytes(Decoder(d.bytes + [b]))
  }

  /** `Decoder::feed`. */
  method Feed(d: Decoder, b: Byte) returns (o: DecoderOutput)
    ensures o == Fed(d, b)
  {
    if |d.bytes| >= MAX_BYTES {
      return OutOfRange;
    }
    var pushed := Decoder(d.bytes + [b]);
    if b < 128 {
      var v := DecodeValidBytes(pushed);
      return Value(v);
    } else {
      return NeedsMoreBytes(pushed);
    }
  }

  /** `decode_valid_bytes`: shifts and ors in 64 bits compute the number modulo 2^64; a tenth byte
      contributes only its lowest bit. */
  method DecodeValidBytes(d: Decoder) returns (value: U64)
    requires |d.bytes| <= MAX_BYTES
    ensures value == ValueOf(d.bytes) % U64_LIMIT
  {
    value := 0;
    for idx := 0 to |d.bytes|
      invariant value == ValueOf(d.bytes[..idx]) % U64_LIMIT
    {
      var group := d.bytes[idx] % 128;
      assert d.bytes[..idx + 1] == d.bytes[..idx] + [d.bytes[idx]];
      OrStep(d.bytes[..idx], d.bytes[idx]);
      value := BitOr(value, Shl64(group, idx * 7));
    }
    assert d.bytes[..|d.bytes|] == d.bytes;
  }

  lemma {:induction false} OrStep(s: seq<Byte>, b: Byte)
    requires |s| < MAX_BYTES
    ensures BitOr(ValueOf(s) % U64_LIMIT, Shl64(b % 128, |s| * 7)) == ValueOf(s + [b]) % U64_LIMIT
  {
    ValueOfSnoc(s, b);
    OrGroup(ValueOf(s), b % 128, |s|, ValueOf(s + [b]));
  }

  lemma {:induction false} OrGroup(value: nat, g: nat, k: nat, total: nat)
    requires k <= 9 && g < 128 && value < Pow(128, k) && total == value + g * Pow(128, k)
    ensures BitOr(value % U64_LIMIT, Shl64(g, k * 7)) == total % U64_LIMIT
  {
    PowSquare(k);
    GroupBound(value, g, k);
    if k == 9 {
      OrTop(value, g, k * 7, Pow(128, k));
    } else {
      OrLow(value, g, k * 7, Pow(128, k));
    }
  }

  lemma {:induction false} GroupBound(value: nat, g: nat, k: nat)
    requires k <= 9 && g < 128 && value < Pow(128, k)
    ensures k == 9 ==> 2 * Pow(128, k) == U64_LIMIT
    ensures k < 9 ==> value + g * Pow(128, k) < U64_LIMIT
  {
    if k == 9 {
      Powers();
    } else {
      ShortValue(g, k);
      var p := Pow(128, k);
      assert (g + 1) * p == g * p + p;
    }
  }

  lemma {:induction false} OrLow(value: nat, g: nat, s: nat, p: nat)
    requires value < p == Pow(2, s) && value + g * p < U64_LIMIT
    ensures BitOr(value % U64_LIMIT, Shl64(g, s)) == (value + g * p) % U64_LIMIT
  {
    BitOrDisjoint(value, g, s);
    NoWrap(value);
    NoWrap(g * p);
    NoWrap(value + g * p);
  }

  lemma {:induction false} OrTop(value: nat, g: nat, s: nat, p: nat)
    requires value < p == Pow(2, s) && 2 * p == U64_LIMIT
    ensures BitOr(value % U64_LIMIT, Shl64(g, s)) == (value + g * p) % U64_LIMIT
  {
    TopBit(g, p);
    BitOrDisjoint(value, g % 2, s);
    NoWrap(value);
    assert (value + g * p) % U64_LIMIT == value + (g % 2) * p by {
      assert g * p == (g / 2) * U64_LIMIT + (g % 2) * p by { assert g == 2 * (g / 2) + g % 2; }
      ModShift(value + (g % 2) * p, g / 2);
    }
  }

  lemma {:induction false} NoWrap(x: nat)
    requires x < U64_LIMIT
    ensures x % U64_LIMIT == x
  {
  }

  lemma {:induction false} ModShift(x: nat, q: nat)
    requires x < U64_LIMIT
    ensures (x + q * U64_LIMIT) % U64_LIMIT == x
  {
  }

  lemma {:induction false} TopBit(g: nat, p: nat)
    requires 2 * p == U64_LIMIT
    ensures (g * p) % U64_LIMIT == (g % 2) * p
  {
  }

  lemma {:induction false} ShortValue(g: nat, k: nat)
    requires g < 128 && k < 9
    ensures (g + 1) * Pow(128, k) <= Pow(128, 9) < U64_LIMIT
  {
  }

  datatype Scanned = Done(value: U64, rest: seq<Byte>) | Incomplete | TooLong

  /** Feeding `input` to a decoder that already holds `pre`. */
  function Scan(pre: seq<Byte>, input: seq<Byte>): Scanned
    decreases |input|
  {
    if input == [] then Incomplete
    else match Fed(Decoder(pre), input[0])
      case Value(v) => Done(v, input[1..])
      case NeedsMoreBytes(d) => Scan(d.bytes, input[1..])
      case OutOfRange => TooLong
  }

  /** `decode`: reads one integer off the front of a cursor, or reports why it cannot. */
  method Decode(bytes: seq<Byte>) returns (o: Scanned, rest: seq<Byte>)
    ensures o == Scan([], bytes)
    ensures o.Done? ==> rest == o.rest
    ensures |rest| <= |bytes| && (bytes != [] ==> |rest| < |bytes|)
  {
    var d := Decoder([]);
    rest := bytes;
    while rest != []
      invariant |rest| <= |bytes|
      invariant Scan([], bytes) == Scan(d.bytes, rest)
      decreases |rest|
    {
      var byte := rest[0];
      rest := rest[1..];
      var fed := Feed(d, byte);
      match fed {
        case Value(v) => return Done(v, rest), rest;
        case NeedsMoreBytes(d') => d := d';
        case OutOfRange => return TooLong, rest;
      }
    }
    return Incomplete, rest;
  }

  lemma {:induction false} ScanEncoded(pre: seq<Byte>, v: nat, rest: seq<Byte>)
    requires |pre| + |Encoded(v)| <= MAX_BYTES
    ensures Scan(pre, Encoded(v) + rest) ==
            Done((ValueOf(pre) + Pow(128, |pre|) * v) % U64_LIMIT, rest)
    decreases v
  {
    var input := Encoded(v) + rest;
    if v < 128 {
      assert input[0] == v && input[1..] == rest;
      DigitSum(pre, v, v);
    } else {
      var b := v % 128 + 128;
      assert input[0] == b && input[1..] == Encoded(v / 128) + rest;
      DigitSum(pre, b, v);
      ScanEncoded(pre + [b], v / 128, rest);
      assert Scan(pre, input) == Scan(pre + [b], input[1..]);
    }
  }

  /** Taking one digit of `v` into the bytes read leaves the value they stand for together unchanged. */
  lemma {:induction false} DigitSum(pre: seq<Byte>, b: Byte, v: nat)
    requires b % 128 == v % 128
    ensures ValueOf(pre + [b]) + Pow(128, |pre| + 1) * (v / 128) == ValueOf(pre) + Pow(128, |pre|) * v
    ensures v < 128 ==> ValueOf(pre + [b]) == ValueOf(pre) + Pow(128, |pre|) * v
  {
    ValueOfSnoc(pre, b);
    SplitDigit(Pow(128, |pre|), v);
  }

  lemma {:induction false} SplitDigit(p: nat, v: nat)
    ensures p * v == (v % 128) * p + (128 * p) * (v / 128)
  {
  }

  /** Round trip, whatever follows the integer. */
  lemma {:induction false} DecodeInvertsEncode(v: U64, rest: seq<Byte>)
    ensures Scan([], Encoded(v) + rest) == Done(v, rest)
  {
    EncodedFitsU64(v);
    ScanEncoded([], v, rest);
  }

  /** Exactly which inputs decode, and to what: up to nine bytes with the top bit set and then one
      without it, read as a number modulo 2^64. */
  lemma {:induction false} ScanMeaning(pre: seq<Byte>, input: seq<Byte>, k: nat)
    requires k < |input|
    requires forall i :: 0 <= i < k ==> input[i] >= 128
    requires input[k] < 128
    ensures |pre| + k < MAX_BYTES ==>
              Scan(pre, input) == Done(ValueOf(pre + input[..k + 1]) % U64_LIMIT, input[k + 1..])
    ensures |pre| + k >= MAX_BYTES ==> Scan(pre, input) == TooLong
    decreases k
  {
    if k == 0 {
      assert input[..1] == [input[0]];
    } else if |pre| < MAX_BYTES {
      var pre' := pre + [input[0]];
      ScanMeaning(pre', input[1..], k - 1);
      assert pre' + input[1..][..k] == pre + input[..k + 1];
      assert input[1..][k..] == input[k + 1..];
    }
  }

  /** What decodes is read exactly, with no bit lost, if and only if it has at most nine bytes or a tenth below 2. */
  lemma {:induction false} ReadExactly(input: seq<Byte>, k: nat)
    requires k < |input| && k < MAX_BYTES
    requires forall i :: 0 <= i < k ==> input[i] >= 128
    requires input[k] < 128
    ensures Scan([], input).Done?
    ensures Scan([], input).value == ValueOf(input[..k + 1]) <==> k + 1 <= 9 || input[9] < 2
  {
    ScanMeaning([], input, k);
    assert [] + input[..k + 1] == input[..k + 1];
    assert input[..k + 1] == input[..k] + [input[k]];
    FitsU64Exactly(input[..k], input[k]);
  }

  lemma {:induction false} FitsU64Exactly(s: seq<Byte>, b: Byte)
    requires |s| <= 9 && b < 128
    ensures ValueOf(s + [b]) < U64_LIMIT <==> |s| < 9 || b < 2
    ensures ValueOf(s + [b]) % U64_LIMIT == ValueOf(s + [b]) <==> |s| < 9 || b < 2
  {
    ValueOfSnoc(s, b);
    Powers();
    if |s| < 9 {
      ValueOfSnoc(s + [b], 0);
      PowGrows(|s| + 1);
    }
  }

  lemma {:induction false} PowGrows(k: nat)
    requires k <= 9
    ensures Pow(128, k) <= Pow(128, 9)
    decreases 9 - k
  {
    if k < 9 {
      PowGrows(k + 1);
      PowPositive(128, k);
    }
  }

  /** Nine bytes of 128 and a tenth of 2 stand for 2^64, and are read as 0. */
  lemma {:induction false} TenthByteIsLost()
    ensures var bytes := seq(9, _ => 128) + [2];
            Scan([], bytes) == Done(0, []) && ValueOf(bytes) == U64_LIMIT
  {
    var nine := seq(9, _ => 128);
    TenthByteOfTwo(nine, nine + [2]);
  }

  lemma {:induction false} TenthByteOfTwo(nine: seq<Byte>, bytes: seq<Byte>)
    requires |nine| == 9 && (forall i :: 0 <= i < 9 ==> nine[i] == 128) && bytes == nine + [2]
    ensures Scan([], bytes) == Done(0, []) && ValueOf(bytes) == U64_LIMIT
  {
    ScanMeaning([], bytes, 9);
    assert [] + bytes[..10] == bytes && bytes[10..] == [];
    ZeroGroups(nine);
    ValueOfSnoc(nine, 2);
    Powers();
  }

  lemma {:induction false} ZeroGroups(s: seq<Byte>)
    requires forall i :: 0 <= i < |s| ==> s[i] == 128
    ensures ValueOf(s) == 0
  {
    if s != [] { ZeroGroups(s[1..]); }
  }

  lemma {:induction false} ScanShrinks(pre: seq<Byte>, input: seq<Byte>)
    ensures Scan(pre, input).Done? ==> |Scan(pre, input).rest| < |input|
    decreases |input|
  {
    if input != [] && Fed(Decoder(pre), input[0]).NeedsMoreBytes? {
      ScanShrinks(pre + [input[0]], input[1..]);
    }
  }

  /** More input never changes a verdict already reached. */
  lemma {:induction false} ScanExtends(pre: seq<Byte>, input: seq<Byte>, more: seq<Byte>)
    ensures Scan(pre, input).Done? ==>
              Scan(pre, input + more) == Done(Scan(pre, input).value, Scan(pre, input).rest + more)
    ensures Scan(pre, input) == TooLong ==> Scan(pre, input + more) == TooLong
    decreases |input|
  {
    if input != [] {
      assert (input + more)[1..] == input[1..] + more;
      match Fed(Decoder(pre), input[0])
      case Value(_) =>
      case NeedsMoreBytes(d) => ScanExtends(d.bytes, input[1..], more);
      case OutOfRange =>
    }
  }
}
