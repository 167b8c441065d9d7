/**
 The matcher in the form of include/cbor/cbor.hpp and src/cbor.cpp: an iterator moves forward as
 patterns are tried, with a loop for a trailing `more`.
 */
module CborMatcher {
  import opened Bytes
  import opened Cbor
  import opened CborLaws
  import opened CborBuffer
  import opened CborCursor
  import opened CborMatch

  datatype Answer = Hit | Miss | Thrown

  /** The operation that led the cursor here from `was` did what m says. */
  ghost predicate Answered(c: Cursor, was: nat, m: Matched, ans: Answer, caps: seq<Capture>)
    reads c
  {
    && was <= c.b <= |c.s|
    && match m
       case Yes(cs, r) => ans.Hit? && caps == cs && c.s[c.b..] == r
       case No => ans.Miss?
       case Throw => ans.Thrown?
  }

  /** match_int. */
  method MatchInt(c: Cursor, major: nat, minor: nat) returns (st: Status, x: Option<int>)
    requires c.Valid() && minor < 32
    modifies c
    ensures c.Did(old(c.b), ReadInt(major, minor, old(c.Rest())), st)
    ensures st.Fine? ==> x == ReadInt(major, minor, old(c.Rest())).value
  {
    x := None;
    if major != 0 && major != 1 {
      return Fine, None;
    }
    var n;
    st, n := c.DecodePint(minor);
    if st.Fine? {
      if major == 1 {
        x := Some(Negated(n));
      } else if Signed(n) >= 0 {
        x := Some(Signed(n));
      }
    }
  }

  /** decode_string. */
  method MatchString(c: Cursor, minor: nat) returns (st: Status, x: bytes)
    requires c.Valid() && minor < 32
    modifies c
    ensures c.Did(old(c.b), ReadChunk(minor, old(c.Rest())), st)
    ensures st.Fine? ==> x == ReadChunk(minor, old(c.Rest())).value
  {
    var n;
    x := [];
    st, n := c.DecodePint(minor);
    if st.Fine? {
      var start := c.b;
      st := c.SkipBytes(n);
      if st.Fine? {
        x := c.s[start..c.b];
      }
    }
  }

  /** match_value for a pattern that is not nested, after the initial byte. */
  method MatchSimple(c: Cursor, p: Pattern, major: nat, minor: nat) returns (ans: Answer, caps: seq<Capture>)
    requires c.Valid() && major < 8 && minor < 32
    modifies c
    ensures Answered(c, old(c.b), ReadLeaf(p, major, minor, old(c.Rest())), ans, caps)
  {
    ans, caps := Miss, [];
    match p {
      case IsType(t) =>
        var st := c.SkipValueType(major, minor);
        ans := if !st.Fine? then Thrown else if t == Any || t == ByteType(major, minor) then Hit else Miss;
      case IntLit(i) =>
        var st, x := MatchInt(c, major, minor);
        ans := if !st.Fine? then Thrown else if x == Some(i) then Hit else Miss;
      case UIntLit(n) =>
        if major == 0 {
          var st, x := c.DecodePint(minor);
          ans := if !st.Fine? then Thrown else if x == n then Hit else Miss;
        }
      case BoolLit(v) =>
        if major == 7 && minor == (if v then 21 else 20) {
          ans := Hit;
        }
      case StrLit(b) =>
        if major == 2 || major == 3 {
          var st, x := MatchString(c, minor);
          ans := if !st.Fine? then Thrown else if x == b then Hit else Miss;
        }
      case GetInt(lo, hi) =>
        var st, x := MatchInt(c, major, minor);
        if !st.Fine? {
          ans := Thrown;
        } else if x.Some? && lo <= x.value <= hi {
          ans, caps := Hit, [CInt(x.value)];
        }
      case GetUInt(max) =>
        if major == 0 {
          var st, x := c.DecodePint(minor);
          if !st.Fine? {
            ans := Thrown;
          } else if x <= max {
            ans, caps := Hit, [CUInt(x)];
          }
        }
      case GetBool =>
        if major == 7 && (minor == 20 || minor == 21) {
          ans, caps := Hit, [CBool(minor == 21)];
        }
      case GetFloat =>
        if major == 0 || major == 1 || (major == 7 && 25 <= minor <= 27) {
          var st, x := c.DecodePint(minor);
          if !st.Fine? {
            ans := Thrown;
          } else {
            ans, caps := Hit, [CFloat(if major == 0 then UInt(x) else if major == 1 then NInt(x) else Special(minor, x))];
          }
        }
      case GetString =>
        if major == 2 || major == 3 {
          var st, x := MatchString(c, minor);
          if st.Fine? {
            ans, caps := Hit, [CString(x)];
          } else {
            ans := Thrown;
          }
        }
      case GetType =>
        var st := c.SkipValueType(major, minor);
        if st.Fine? {
          ans, caps := Hit, [CType(ByteType(major, minor))];
        } else {
          ans := Thrown;
        }
      case _ =>
    }
  }

  /** decode_array_header (major 4) and decode_map_header (major 5), as a number of items. */
  method DecodeHeader(c: Cursor, major: nat) returns (st: Status, n: nat)
    requires c.Valid() && (major == 4 || major == 5)
    modifies c
    ensures c.Did(old(c.b), ReadHeader(major, old(c.Rest())), st)
    ensures st.Fine? ==> n == ReadHeader(major, old(c.Rest())).value
  {
    var found, minor;
    n := 0;
    st, found, minor := c.DecodeType();
    if st.Fine? && !(found == 7 && minor == 22) {
      if found != major {
        return Bad, 0;
      }
      st, n := c.DecodePint(minor);
      if st.Fine? && major == 5 {
        n := n * 2 % TWO_64;
      }
    }
  }

  /** The extractors of ranges: the item is skipped and its bytes remembered. */
  method MatchRange(c: Cursor, any: bool) returns (ans: Answer, caps: seq<Capture>)
    requires c.Valid()
    modifies c
    ensures Answered(c, old(c.b), MatchValue(if any then GetRaw else GetRange, old(c.Rest())), ans, caps)
  {
    ghost var r := c.Rest();
    var start := c.b;
    var st := c.SkipValue();
    if !st.Fine? {
      return Thrown, [];
    }
    ItemAlone(r);
    assert Item(r) == c.s[start..c.b];
    var t := ByteType(c.s[start] / 32, c.s[start] % 32);
    if any || t == NullType || t == ArrayType || t == MapType {
      return Hit, [CRaw(c.s[start..c.b])];
    }
    return Miss, [];
  }

  method Match(c: Cursor, p: Pattern) returns (ans: Answer, caps: seq<Capture>)
    requires c.Valid() && Proper(p)
    modifies c
    ensures Answered(c, old(c.b), MatchValue(p, old(c.Rest())), ans, caps)
    decreases p
  {
    if p.A? || p.M? {
      var st, n := DecodeHeader(c, if p.A? then 4 else 5);
      if !st.Fine? {
        return Thrown, [];
      }
      ans, caps := MatchParameters(c, n, p.ps);
    } else if p.GetRange? || p.GetRaw? {
      ans, caps := MatchRange(c, p.GetRaw?);
    } else {
      var st, major, minor := c.DecodeType();
      if !st.Fine? {
        return Thrown, [];
      }
      ans, caps := MatchSimple(c, p, major, minor);
    }
  }

  /** match_next. */
  method MatchParameters(c: Cursor, n: nat, ps: seq<Pattern>) returns (ans: Answer, caps: seq<Capture>)
    requires c.Valid() && ProperList(ps)
    modifies c
    ensures Answered(c, old(c.b), MatchNext(n, ps, old(c.Rest())), ans, caps)
    decreases ps
  {
    if |ps| == 1 && ps[0] == IsType(More) {
      ans, caps := MatchMore(c, n);
      return;
    }
    if n == 0 {
      return Miss, [];
    }
    ans, caps := Match(c, ps[0]);
    if ans.Hit? {
      if |ps| == 1 {
        ans := if n == 1 then Hit else Miss;
      } else {
        var more;
        ans, more := MatchParameters(c, n - 1, ps[1..]);
        caps := caps + more;
      }
    }
  }

  /** The loop for a trailing `more`. */
  method MatchMore(c: Cursor, n: nat) returns (ans: Answer, caps: seq<Capture>)
    requires c.Valid()
    modifies c
    ensures Answered(c, old(c.b), MatchNext(n, [IsType(More)], old(c.Rest())), ans, caps)
  {
    var left := n;
    ghost var r := c.Rest();
    while left > 0
      invariant 0 <= left <= n && old(c.b) <= c.b <= |c.s| && SkipN(n, r) == SkipN(left, c.Rest())
    {
      var st := c.SkipValue();
      if !st.Fine? {
        return Thrown, [];
      }
      left := left - 1;
    }
    return Hit, [];
  }
}
