/**
 Reading in the form of src/cbor.cpp: an iterator that moves through the bytes, with exceptions
 for what is too short or invalid.  The methods are mutually recursive, and loop over the items of
 arrays and maps; each ends exactly where the specification says.
 */
module CborCursor {
  import opened Bytes
  import opened Cbor
  import opened CborLaws
  import opened CborBuffer

  /** How a reading operation ended: normally, or with one of its two exceptions. */
  datatype Status = Fine | Short | Bad

  function StatusOf<T>(p: Parse<T>): Status {
    match p
    case Ok(_, _) => Fine
    case TooShort => Short
    case Invalid => Bad
  }

  class Cursor {
    const s: bytes
    var b: nat

    constructor (s: bytes)
      ensures this.s == s && b == 0
    {
      this.s := s;
      b := 0;
    }

    predicate Valid()
      reads this
    {
      b <= |s|
    }

    function Rest(): bytes
      requires Valid()
      reads this
    {
      s[b..]
    }

    /** The operation that led here from `was` did what p says. */
    ghost predicate Did<T>(was: nat, p: Parse<T>, st: Status)
      reads this
    {
      was <= b <= |s| && st == StatusOf(p) && (p.Ok? ==> s[b..] == p.rest)
    }

    /** decode_int_length_recurse: `before` are the bytes already read into the 64-bit accumulator,
        which has been shifted to make room for the next one. */
    method DecodeWord(length: nat, acc: nat, ghost before: bytes) returns (st: Status, n: nat)
      requires Valid() && 1 <= length && |before| + length <= 8 && acc == 256 * FromBig(before)
      modifies this
      ensures Did(old(b), Word(length, old(Rest())), st)
      ensures st.Fine? ==> n == FromBig(before + old(Rest())[..length])
      decreases length
    {
      if b == |s| {
        return Short, 0;
      }
      ghost var r := Rest();
      n := acc + s[b];
      ghost var d := before + [s[b]];
      AccumulatorFits(before, s[b]);
      b := b + 1;
      assert s[b..] == r[1..];
      if length == 1 {
        assert r[..1] == [r[0]];
        return Fine, n;
      }
      AccumulatorFits(d, 0);
      st, n := DecodeWord(length - 1, n * 256 % TWO_64, d);
      if st.Fine? {
        assert r[1..][length - 1..] == r[length..];
        assert d + r[1..][..length - 1] == before + r[..length];
      }
    }

    /** decode_pint. */
    method DecodePint(minor: nat) returns (st: Status, n: nat)
      requires Valid() && minor < 32
      modifies this
      ensures Did(old(b), Argument(minor, old(Rest())), st)
      ensures st.Fine? ==> n == Argument(minor, old(Rest())).value
    {
      n := 0;
      if minor < 24 {
        st, n := Fine, minor;
      } else if minor == 24 {
        st, n := DecodeWord(1, 0, []);
      } else if minor == 25 {
        st, n := DecodeWord(2, 0, []);
      } else if minor == 26 {
        st, n := DecodeWord(4, 0, []);
      } else if minor == 27 {
        st, n := DecodeWord(8, 0, []);
      } else {
        st := Bad;
      }
      assert forall k: nat :: k <= |old(Rest())| ==> [] + old(Rest())[..k] == old(Rest())[..k];
    }

    /** decode_type. */
    method DecodeType() returns (st: Status, major: nat, minor: nat)
      requires Valid()
      modifies this
      ensures old(b) <= b <= |s| && major < 8 && minor < 32
      ensures st == if old(Rest()) == [] then Short else Fine
      ensures st.Fine? ==> var r := old(Rest()); major == r[0] / 32 && minor == r[0] % 32 && Rest() == r[1..]
    {
      if b == |s| {
        return Short, 0, 0;
      }
      st, major, minor := Fine, s[b] / 32, s[b] % 32;
      b := b + 1;
    }

    /** skip_string and decode_string, once the length is known: one byte at a time. */
    method SkipBytes(n: nat) returns (st: Status)
      requires Valid()
      modifies this
      ensures Did(old(b), Chunk(n, old(Rest())), st)
      ensures st.Fine? ==> Chunk(n, old(Rest())).value == s[old(b)..b]
    {
      var len := n;
      ghost var r := Rest();
      while len > 0
        invariant 0 <= len <= n && old(b) <= b <= |s| && b - old(b) == n - len
      {
        if b == |s| {
          return Short;
        }
        b := b + 1;
        len := len - 1;
      }
      st := Fine;
    }

    /** skip_value. */
    method SkipValue() returns (st: Status)
      requires Valid()
      modifies this
      ensures Did(old(b), Skip(old(Rest())), st)
      decreases |s| - b, 0
    {
      var major, minor;
      st, major, minor := DecodeType();
      if st.Fine? {
        st := SkipValueType(major, minor);
      }
    }

    /** skip_value_type. */
    method SkipValueType(major: nat, minor: nat) returns (st: Status)
      requires Valid() && major < 8 && minor < 32
      modifies this
      ensures Did(old(b), SkipBody(major, minor, old(Rest())), st)
      decreases |s| - b, 2
    {
      var n;
      ghost var r := Rest();
      if major == 6 {
        return Bad;
      }
      if major == 7 && minor < 24 {
        return Fine;
      }
      st, n := DecodePint(minor);
      if st.Fine? {
        if major == 2 || major == 3 {
          st := SkipBytes(n);
        } else if major == 4 {
          st := SkipItems(n);
        } else if major == 5 {
          st := SkipItems(n * 2 % TWO_64);
        }
      }
    }

    /** The loops of skip_array and skip_map. */
    method SkipItems(n: nat) returns (st: Status)
      requires Valid()
      modifies this
      ensures Did(old(b), SkipN(n, old(Rest())), st)
      decreases |s| - b, 1
    {
      var len := n;
      st := Fine;
      while len > 0
        invariant st.Fine? && 0 <= len <= n && old(b) <= b <= |s| && SkipN(n, s[old(b)..]) == SkipN(len, s[b..])
      {
        st := SkipValue();
        if !st.Fine? {
          return;
        }
        len := len - 1;
      }
    }
  }

  /** The accumulator never loses a byte to the 64-bit word. */
  lemma AccumulatorFits(before: bytes, c: byte)
    requires |before| < 8
    ensures FromBig(before + [c]) == 256 * FromBig(before) + c < TWO_64
  {
    var d := before + [c];
    assert d[..|d| - 1] == before;
    FromBigBound(d);
    SpanGrows(|d|, 8);
    Spans();
  }

  lemma {:induction false} SpanGrows(m: nat, n: nat)
    requires m <= n
    ensures 0 < Span(m) <= Span(n)
    decreases n
  {
    if m < n {
      SpanGrows(m, n - 1);
    } else if n > 0 {
      SpanGrows(n - 1, n - 1);
    }
  }
}
