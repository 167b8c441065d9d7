/**
 The CBOR subset of src/cbor.cpp: values, their encoding, and what decoding and skipping do with
 arbitrary bytes (RFC 8949, sections 3 and 3.1).  Floating point payloads are opaque words.
 */
module Cbor {
  import opened Bytes

  datatype Value =
    | UInt(n: nat)
    | NInt(n: nat)             // stands for -1 - n
    | ByteString(b: bytes)
    | Text(b: bytes)
    | Array(items: seq<Value>)
    | Map(items: seq<Value>)   // keys and values in turn
    | Simple(k: nat)           // 20, 21 and 22 are false, true and null
    | Simple8(k: nat)
    | Half(n: nat)
    | Single(n: nat)
    | Double(n: nat)

  const FALSE := Simple(20)
  const TRUE := Simple(21)
  const NULL := Simple(22)

  predicate WellFormed(v: Value)
    decreases v
  {
    match v
    case UInt(n) => n < TWO_64
    case NInt(n) => n < TWO_64
    case ByteString(b) => |b| < TWO_64
    case Text(b) => |b| < TWO_64
    case Array(vs) => |vs| < TWO_64 && forall x :: x in vs ==> WellFormed(x)
    case Map(vs) => |vs| < TWO_64 && |vs| % 2 == 0 && forall x :: x in vs ==> WellFormed(x)
    case Simple(k) => k < 24
    case Simple8(k) => k < TWO_8
    case Half(n) => n < TWO_16
    case Single(n) => n < TWO_32
    case Double(n) => n < TWO_64
  }

  predicate AllWellFormed(vs: seq<Value>) {
    forall x :: x in vs ==> WellFormed(x)
  }

  // ---------------------------------------------------------------- encoding

  /** Initial byte of a data item. */
  function Initial(major: nat, minor: nat): byte
    requires major < 8 && minor < 32
  {
    32 * major + minor
  }

  /** The number of bytes after an initial byte with this minor code. */
  function Width(minor: nat): nat {
    if minor < 24 then 0 else if minor == 24 then 1 else if minor == 25 then 2 else if minor == 26 then 4 else 8
  }

  /** The minor code of the shortest head for v. */
  function Minor(v: nat): nat {
    if v < 24 then v else if v < TWO_8 then 24 else if v < TWO_16 then 25 else if v < TWO_32 then 26 else 27
  }

  /** push_typed_val. */
  function Head(major: nat, v: nat): bytes
    requires major < 8 && v < TWO_64
  {
    [Initial(major, Minor(v))] + Big(v, Width(Minor(v)))
  }

  function Encode(v: Value): bytes
    requires WellFormed(v)
    decreases v
  {
    match v
    case UInt(n) => Head(0, n)
    case NInt(n) => Head(1, n)
    case ByteString(b) => Head(2, |b|) + b
    case Text(b) => Head(3, |b|) + b
    case Array(vs) => Head(4, |vs|) + EncodeAll(vs)
    case Map(vs) => Head(5, |vs| / 2) + EncodeAll(vs)
    case Simple(k) => [Initial(7, k)]
    case Simple8(k) => [Initial(7, 24)] + Big(k, 1)
    case Half(n) => [Initial(7, 25)] + Big(n, 2)
    case Single(n) => [Initial(7, 26)] + Big(n, 4)
    case Double(n) => [Initial(7, 27)] + Big(n, 8)
  }

  function EncodeAll(vs: seq<Value>): bytes
    requires AllWellFormed(vs)
    decreases vs
  {
    if vs == [] then [] else Encode(vs[0]) + EncodeAll(vs[1..])
  }

  // ---------------------------------------------------------------- decoding

  /** A result and the bytes after it, or one of the two ways to fail. */
  datatype Parse<T> = Ok(value: T, rest: bytes) | TooShort | Invalid

  /** decode_int_length. */
  function Word(n: nat, s: bytes): Parse<nat> {
    if |s| < n then TooShort else Ok(FromBig(s[..n]), s[n..])
  }

  /** decode_pint. */
  function Argument(minor: nat, s: bytes): Parse<nat> {
    if minor < 24 then Ok(minor, s) else if minor < 28 then Word(Width(minor), s) else Invalid
  }

  /** The n bytes of a string. */
  function Chunk(n: nat, s: bytes): Parse<bytes> {
    if |s| < n then TooShort else Ok(s[..n], s[n..])
  }

  /** The number of items in an array or a map; for a map it is computed modulo 2^64. */
  function Count(major: nat, n: nat): nat {
    if major == 4 then n else n * 2 % TWO_64
  }

  /** What a well-formed head says, and for major type 7 all there is. */
  function Special(minor: nat, n: nat): Value {
    if minor < 24 then Simple(minor)
    else if minor == 24 then Simple8(n)
    else if minor == 25 then Half(n)
    else if minor == 26 then Single(n)
    else Double(n)
  }

  function Decode(s: bytes): (r: Parse<Value>)
    ensures r.Ok? ==> |r.rest| < |s|
    decreases |s|, 0, 0
  {
    if s == [] then TooShort else DecodeBody(s[0] / 32, s[0] % 32, s[1..])
  }

  /** What follows an initial byte. */
  function DecodeBody(major: nat, minor: nat, s: bytes): (r: Parse<Value>)
    ensures r.Ok? ==> |r.rest| <= |s|
    decreases |s|, 2, 0
  {
    if major == 6 then Invalid
    else
      match Argument(minor, s)
      case TooShort => TooShort
      case Invalid => Invalid
      case Ok(n, r) => DecodeRest(major, minor, n, r)
  }

  /** What follows a head with argument n. */
  function DecodeRest(major: nat, minor: nat, n: nat, s: bytes): (r: Parse<Value>)
    ensures r.Ok? ==> |r.rest| <= |s|
    decreases |s|, 1, 0
  {
    if major == 0 then Ok(UInt(n), s)
    else if major == 1 then Ok(NInt(n), s)
    else if major == 2 || major == 3 then
      match Chunk(n, s)
      case Ok(b, r) => Ok(if major == 2 then ByteString(b) else Text(b), r)
      case TooShort => TooShort
      case Invalid => Invalid
    else if major == 4 || major == 5 then
      match DecodeN(Count(major, n), s)
      case Ok(vs, r) => Ok(if major == 4 then Array(vs) else Map(vs), r)
      case TooShort => TooShort
      case Invalid => Invalid
    else Ok(Special(minor, n), s)
  }

  function DecodeN(n: nat, s: bytes): (r: Parse<seq<Value>>)
    ensures r.Ok? ==> |r.rest| <= |s|
    decreases |s|, 0, n + 1
  {
    if n == 0 then Ok([], s)
    else
      match Decode(s)
      case TooShort => TooShort
      case Invalid => Invalid
      case Ok(v, r) =>
        match DecodeN(n - 1, r)
        case Ok(vs, r2) => Ok([v] + vs, r2)
        case TooShort => TooShort
        case Invalid => Invalid
  }

  // ---------------------------------------------------------------- round trip

  lemma InitialParts(major: nat, minor: nat)
    requires major < 8 && minor < 32
    ensures Initial(major, minor) / 32 == major && Initial(major, minor) % 32 == minor
  {
  }

  lemma WordRoundTrip(v: nat, n: nat, rest: bytes)
    requires v < Span(n)
    ensures Word(n, Big(v, n) + rest) == Ok(v, rest)
  {
    BigRoundTrip(v, n);
    assert (Big(v, n) + rest)[..n] == Big(v, n) && (Big(v, n) + rest)[n..] == rest;
  }

  lemma MinorFits(v: nat)
    requires v < TWO_64
    ensures v < 24 || (24 <= Minor(v) < 28 && v < Span(Width(Minor(v))))
  {
    Spans();
  }

  lemma ArgumentRoundTrip(v: nat, rest: bytes)
    requires v < TWO_64
    ensures Argument(Minor(v), Big(v, Width(Minor(v))) + rest) == Ok(v, rest)
  {
    MinorFits(v);
    if v < 24 {
      assert Big(v, 0) + rest == rest;
    } else {
      WordRoundTrip(v, Width(Minor(v)), rest);
    }
  }

  /** Decoding what starts with a given initial byte. */
  lemma DecodeInitial(major: nat, minor: nat, t: bytes)
    requires major < 8 && minor < 32
    ensures Decode([Initial(major, minor)] + t) == DecodeBody(major, minor, t)
  {
    InitialParts(major, minor);
    assert ([Initial(major, minor)] + t)[1..] == t;
  }

  lemma BodyWith(major: nat, minor: nat, s: bytes, n: nat, t: bytes)
    requires major != 6 && Argument(minor, s) == Ok(n, t)
    ensures DecodeBody(major, minor, s) == DecodeRest(major, minor, n, t)
  {
  }

  lemma DecodeHead(major: nat, v: nat, t: bytes)
    requires major < 8 && major != 6 && v < TWO_64
    ensures Decode(Head(major, v) + t) == DecodeRest(major, Minor(v), v, t)
  {
    var minor, w := Minor(v), Big(v, Width(Minor(v)));
    assert Head(major, v) + t == [Initial(major, minor)] + (w + t);
    DecodeInitial(major, minor, w + t);
    BodyWith(major, minor, w + t, v, t) by { ArgumentRoundTrip(v, t); }
  }

  /** Decoding an encoded value gives back the value and exactly the bytes after it. */
  lemma {:induction false} RoundTrip(v: Value, rest: bytes)
    requires WellFormed(v)
    ensures Decode(Encode(v) + rest) == Ok(v, rest)
    decreases v
  {
    match v {
      case UInt(n) => DecodeHead(0, n, rest);
      case NInt(n) => DecodeHead(1, n, rest);
      case ByteString(b) => ChunkRoundTrip(2, b, rest);
      case Text(b) => ChunkRoundTrip(3, b, rest);
      case Array(vs) =>
        RoundTripAll(vs, rest);
        ContainerRoundTrip(4, |vs|, vs, EncodeAll(vs), rest);
      case Map(vs) =>
        RoundTripAll(vs, rest);
        ContainerRoundTrip(5, |vs| / 2, vs, EncodeAll(vs), rest);
      case Simple(k) => DecodeInitial(7, k, rest);
      case Simple8(k) => SpecialRoundTrip(24, k, rest);
      case Half(n) => SpecialRoundTrip(25, n, rest);
      case Single(n) => SpecialRoundTrip(26, n, rest);
      case Double(n) => SpecialRoundTrip(27, n, rest);
    }
  }

  lemma ChunkRoundTrip(major: nat, b: bytes, rest: bytes)
    requires (major == 2 || major == 3) && |b| < TWO_64
    ensures Decode(Head(major, |b|) + b + rest) == Ok(if major == 2 then ByteString(b) else Text(b), rest)
  {
    DecodeHead(major, |b|, b + rest);
    assert Head(major, |b|) + b + rest == Head(major, |b|) + (b + rest);
    assert (b + rest)[..|b|] == b && (b + rest)[|b|..] == rest;
  }

  lemma ContainerRoundTrip(major: nat, n: nat, vs: seq<Value>, inner: bytes, rest: bytes)
    requires (major == 4 || major == 5) && n < TWO_64 && Count(major, n) == |vs|
    requires DecodeN(|vs|, inner + rest) == Ok(vs, rest)
    ensures Decode(Head(major, n) + inner + rest) == Ok(if major == 4 then Array(vs) else Map(vs), rest)
  {
    DecodeHead(major, n, inner + rest);
    assert Head(major, n) + inner + rest == Head(major, n) + (inner + rest);
  }

  lemma SpecialRoundTrip(minor: nat, n: nat, rest: bytes)
    requires 24 <= minor < 28 && n < Span(Width(minor))
    ensures Decode([Initial(7, minor)] + Big(n, Width(minor)) + rest) == Ok(Special(minor, n), rest)
  {
    var t := Big(n, Width(minor)) + rest;
    WordRoundTrip(n, Width(minor), rest);
    DecodeInitial(7, minor, t);
    assert [Initial(7, minor)] + Big(n, Width(minor)) + rest == [Initial(7, minor)] + t;
  }

  lemma {:induction false} RoundTripAll(vs: seq<Value>, rest: bytes)
    requires AllWellFormed(vs)
    ensures DecodeN(|vs|, EncodeAll(vs) + rest) == Ok(vs, rest)
    decreases vs
  {
    if vs != [] {
      var more := EncodeAll(vs[1..]) + rest;
      assert EncodeAll(vs) + rest == Encode(vs[0]) + more;
      RoundTrip(vs[0], more);
      RoundTripAll(vs[1..], rest);
      DecodeOneMore(vs[0], vs[1..], EncodeAll(vs) + rest, more, rest);
      assert [vs[0]] + vs[1..] == vs;
    } else {
      assert EncodeAll(vs) + rest == rest;
    }
  }

  lemma DecodeOneMore(v: Value, vs: seq<Value>, s: bytes, more: bytes, rest: bytes)
    requires Decode(s) == Ok(v, more) && DecodeN(|vs|, more) == Ok(vs, rest)
    ensures DecodeN(|vs| + 1, s) == Ok([v] + vs, rest)
  {
  }

  /** Different values have different encodings, and none is a prefix of another. */
  lemma EncodingsDiffer(v: Value, w: Value, rest: bytes)
    requires WellFormed(v) && WellFormed(w) && Encode(v) == Encode(w) + rest
    ensures v == w && rest == []
  {
    RoundTrip(v, []);
    RoundTrip(w, rest);
    assert Encode(v) + [] == Encode(v);
  }

  // ---------------------------------------------------------------- examples

  /** Encodings listed in appendix A of RFC 8949. */
  lemma SmallIntegers()
    ensures Encode(UInt(0)) == [0x00] && Encode(UInt(23)) == [0x17] && Encode(NInt(0)) == [0x20]
    ensures Encode(UInt(24)) == [0x18, 0x18] && Encode(NInt(99)) == [0x38, 0x63]
  {
  }

  lemma LargerIntegers()
    ensures Encode(UInt(1000)) == [0x19, 0x03, 0xe8] && Encode(UInt(1000000)) == [0x1a, 0x00, 0x0f, 0x42, 0x40]
  {
    assert Big(3, 1) == [0x03] && Big(1000, 2) == Big(3, 1) + [0xe8];
    assert Big(0, 1) == [0x00] && Big(15, 2) == Big(0, 1) + [0x0f];
    assert Big(3906, 3) == Big(15, 2) + [0x42] && Big(1000000, 4) == Big(3906, 3) + [0x40];
  }

  lemma Strings()
    ensures Encode(Text([])) == [0x60] && Encode(Text(Ascii("IETF"))) == [0x64] + Ascii("IETF")
    ensures Encode(ByteString([1, 2, 3, 4])) == [0x44, 1, 2, 3, 4]
  {
  }

  lemma Simples()
    ensures Encode(FALSE) == [0xf4] && Encode(TRUE) == [0xf5] && Encode(NULL) == [0xf6] && Encode(Simple8(255)) == [0xf8, 0xff]
    ensures Encode(Half(0x3c00)) == [0xf9, 0x3c, 0x00]
  {
    assert Big(0x3c, 1) == [0x3c] && Big(0x3c00, 2) == Big(0x3c, 1) + [0x00];
  }

  lemma Prepended(v: Value, vs: seq<Value>, s: bytes)
    requires WellFormed(v) && AllWellFormed(vs) && EncodeAll(vs) == s
    ensures AllWellFormed([v] + vs) && EncodeAll([v] + vs) == Encode(v) + s
  {
    assert ([v] + vs)[1..] == vs;
  }

  lemma Containers()
    ensures Encode(Array([])) == [0x80] && Encode(Map([])) == [0xa0]
    ensures Encode(Array([UInt(1), UInt(2)])) == [0x82, 0x01, 0x02] && Encode(Map([UInt(1), UInt(2)])) == [0xa1, 0x01, 0x02]
  {
    Prepended(UInt(2), [], []);
    Prepended(UInt(1), [UInt(2)], [0x02]);
    assert [UInt(2)] + [] == [UInt(2)] && [UInt(1)] + [UInt(2)] == [UInt(1), UInt(2)];
  }
}
