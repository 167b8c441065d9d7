/**
 The buffer of include/cbor/cbor.hpp: values are encoded by pushing bytes, and read by a cursor
 that moves through them.  Every operation is proved against the codec's specification.
 */
module CborBuffer {
  import opened Bytes
  import opened Cbor

  // ---------------------------------------------------------------- 64-bit integers

  predicate Int64(i: int) {
    0 <= i + TWO_63 < TWO_64
  }

  /** An unsigned word read as a two's complement integer. */
  function Signed(n: nat): int {
    if n < TWO_63 then n else n - TWO_64
  }

  /** The value that push_int encodes. */
  function OfInt(i: int): Value
    requires Int64(i)
  {
    if i < 0 then NInt(-(i + 1)) else UInt(i)
  }

  /** decode_nint: -(n + 1) computed on unsigned words and read as signed. */
  function Negated(n: nat): int {
    Signed((TWO_64 - (n + 1) % TWO_64) % TWO_64)
  }

  /** The wrap-around of decode_nint is harmless exactly for integers that fit in 64 bits. */
  lemma NegatedExact(n: nat)
    requires n < TWO_64
    ensures Negated(n) == -1 - n <==> n < TWO_63
    ensures Int64(Negated(n))
  {
  }

  /** match_int on a value: `None` where it fails. */
  datatype Option<T> = None | Some(value: T)

  function ToInt(v: Value): Option<int> {
    match v
    case UInt(n) => if n < TWO_63 then Some(n) else None
    case NInt(n) => Some(Negated(n))
    case _ => None
  }

  /** Every 64-bit integer, the smallest included, survives encoding and decoding. */
  lemma Int64RoundTrip(i: int, rest: bytes)
    requires Int64(i)
    ensures var p := Decode(Encode(OfInt(i)) + rest);
            p == Ok(OfInt(i), rest) && ToInt(p.value) == Some(i)
  {
    RoundTrip(OfInt(i), rest);
    if i < 0 {
      NegatedExact(-(i + 1));
    }
  }

  // ---------------------------------------------------------------- writing

  /** v >> 8 * k. */
  function Shifted(v: nat, k: nat): nat {
    if k == 0 then v else Shifted(v, k - 1) / 256
  }

  lemma PushedMore(d: bytes, a: bytes, b: bytes)
    ensures d + a + b == d + (a + b)
  {
  }

  class Buffer {
    var data: bytes

    constructor ()
      ensures data == []
    {
      data := [];
    }

    /** The word in 8 * n bits, most significant byte first. */
    method PushWord(v: nat, n: nat)
      modifies this
      ensures data == old(data) + Big(v, n)
    {
      var k: nat := n;
      while k > 0
        invariant k <= n && data == old(data) + Big(Shifted(v, k), n - k)
      {
        k := k - 1;
        data := data + [Shifted(v, k) % 256];
      }
    }

    method PushTypedVal(major: nat, value: nat)
      requires major < 8 && value < TWO_64
      modifies this
      ensures data == old(data) + Head(major, value)
    {
      if value < 24 {
        data := data + [Initial(major, value)];
      } else if value < TWO_8 {
        data := data + [Initial(major, 24)];
        PushWord(value, 1);
      } else if value < TWO_16 {
        data := data + [Initial(major, 25)];
        PushWord(value, 2);
      } else if value < TWO_32 {
        data := data + [Initial(major, 26)];
        PushWord(value, 4);
      } else {
        data := data + [Initial(major, 27)];
        PushWord(value, 8);
      }
    }

    method PushInt(i: int)
      requires Int64(i)
      modifies this
      ensures data == old(data) + Encode(OfInt(i))
    {
      if i < 0 {
        PushTypedVal(1, -(i + 1));
      } else {
        PushTypedVal(0, i);
      }
    }

    method PushString(b: bytes)
      requires |b| < TWO_64
      modifies this
      ensures data == old(data) + Encode(Text(b))
    {
      PushTypedVal(3, |b|);
      data := data + b;
    }

    method PushBool(v: bool)
      modifies this
      ensures data == old(data) + Encode(if v then TRUE else FALSE)
    {
      data := data + [if v then 0xf5 else 0xf4];
    }

    method PushNull()
      modifies this
      ensures data == old(data) + Encode(NULL)
    {
      data := data + [0xf6];
    }

    method PushDouble(bits: nat)
      requires bits < TWO_64
      modifies this
      ensures data == old(data) + Encode(Double(bits))
    {
      data := data + [0xfb];
      PushWord(bits, 8);
    }

    method PushFloat(bits: nat)
      requires bits < TWO_32
      modifies this
      ensures data == old(data) + Encode(Single(bits))
    {
      data := data + [0xfa];
      PushWord(bits, 4);
    }

    /** array(...) with its parameters: no parameters make a null, not an empty array. */
    method PushArray(vs: seq<Value>)
      requires |vs| < TWO_64 && AllWellFormed(vs)
      modifies this
      ensures data == old(data) + Encode(if vs == [] then NULL else Array(vs))
    {
      if vs == [] {
        PushNull();
      } else {
        PushTypedVal(4, |vs|);
        PushAll(vs);
        PushedMore(old(data), Head(4, |vs|), EncodeAll(vs));
      }
    }

    /** push_parms. */
    method PushAll(vs: seq<Value>)
      requires AllWellFormed(vs)
      modifies this
      ensures data == old(data) + EncodeAll(vs)
      decreases vs
    {
      if vs != [] {
        Push(vs[0]);
        PushAll(vs[1..]);
        PushedMore(old(data), Encode(vs[0]), EncodeAll(vs[1..]));
      }
    }

    method Push(v: Value)
      requires WellFormed(v)
      modifies this
      ensures data == old(data) + Encode(v)
      decreases v
    {
      match v {
        case UInt(n) => PushTypedVal(0, n);
        case NInt(n) => PushTypedVal(1, n);
        case ByteString(b) => PushTypedVal(2, |b|); data := data + b;
        case Text(b) => PushString(b);
        case Array(vs) => PushTypedVal(4, |vs|); PushAll(vs);
        case Map(vs) => PushTypedVal(5, |vs| / 2); PushAll(vs);
        case Simple(k) => data := data + [Initial(7, k)];
        case Simple8(k) => data := data + [Initial(7, 24)]; PushWord(k, 1);
        case Half(n) => data := data + [Initial(7, 25)]; PushWord(n, 2);
        case Single(n) => PushFloat(n);
        case Double(n) => PushDouble(n);
      }
    }
  }
}
