/**
 Laws of the codec: skipping agrees with decoding, items are self-delimiting, and encodings are
 the shortest ones.
 */
module CborLaws {
  import opened Bytes
  import opened Cbor

  // ---------------------------------------------------------------- skipping

  function Drop<T>(p: Parse<T>): Parse<()> {
    match p
    case Ok(_, r) => Ok((), r)
    case TooShort => TooShort
    case Invalid => Invalid
  }

  /** skip_value: moves over one item without building it. */
  function Skip(s: bytes): (r: Parse<()>)
    ensures r.Ok? ==> |r.rest| < |s|
    decreases |s|, 0, 0
  {
    if s == [] then TooShort else SkipBody(s[0] / 32, s[0] % 32, s[1..])
  }

  /** skip_value_type. */
  function SkipBody(major: nat, minor: nat, s: bytes): (r: Parse<()>)
    ensures r.Ok? ==> |r.rest| <= |s|
    decreases |s|, 1, 0
  {
    if major == 6 then Invalid
    else if major == 7 && minor < 24 then Ok((), s)
    else
      match Argument(minor, s)
      case TooShort => TooShort
      case Invalid => Invalid
      case Ok(n, r) =>
        if major == 2 || major == 3 then Drop(Chunk(n, r))
        else if major == 4 || major == 5 then SkipN(Count(major, n), r)
        else Ok((), r)
  }

  function SkipN(n: nat, s: bytes): (r: Parse<()>)
    ensures r.Ok? ==> |r.rest| <= |s|
    decreases |s|, 0, n + 1
  {
    if n == 0 then Ok((), s)
    else
      var p := Skip(s);
      if p.Ok? then SkipN(n - 1, p.rest) else p
  }

  /** Skipping accepts exactly what decoding accepts, and stops at the same place. */
  lemma {:induction false} SkipIsDecode(s: bytes)
    ensures Skip(s) == Drop(Decode(s))
    decreases |s|, 0, 0
  {
    if s != [] {
      SkipBodyIsDecode(s[0] / 32, s[0] % 32, s[1..]);
    }
  }

  lemma {:induction false} SkipBodyIsDecode(major: nat, minor: nat, s: bytes)
    ensures SkipBody(major, minor, s) == Drop(DecodeBody(major, minor, s))
    decreases |s|, 1, 0
  {
    var a := Argument(minor, s);
    if a.Ok? && (major == 4 || major == 5) {
      SkipNIsDecode(Count(major, a.value), a.rest);
    }
  }

  lemma {:induction false} SkipNIsDecode(n: nat, s: bytes)
    ensures SkipN(n, s) == Drop(DecodeN(n, s))
    decreases |s|, 0, n + 1
  {
    if n != 0 {
      SkipIsDecode(s);
      var p := Decode(s);
      if p.Ok? {
        SkipNIsDecode(n - 1, p.rest);
      }
    }
  }

  // ---------------------------------------------------------------- self-delimiting items

  /** The same outcome, with t after whatever follows. */
  function Before<T>(p: Parse<T>, t: bytes): Parse<T> {
    match p
    case Ok(v, r) => Ok(v, r + t)
    case TooShort => TooShort
    case Invalid => Invalid
  }

  lemma WordStable(n: nat, s: bytes, t: bytes)
    requires n <= |s|
    ensures Word(n, s + t) == Before(Word(n, s), t) && Chunk(n, s + t) == Before(Chunk(n, s), t)
  {
    assert (s + t)[..n] == s[..n] && (s + t)[n..] == s[n..] + t;
  }

  lemma ArgumentStable(minor: nat, s: bytes, t: bytes)
    requires !Argument(minor, s).TooShort?
    ensures Argument(minor, s + t) == Before(Argument(minor, s), t)
  {
    if 24 <= minor < 28 {
      WordStable(Width(minor), s, t);
    }
  }

  /** What follows an item changes neither its value nor its end; nor does it repair a bad one. */
  lemma {:induction false} Stable(s: bytes, t: bytes)
    requires !Decode(s).TooShort?
    ensures Decode(s + t) == Before(Decode(s), t)
    decreases |s|, 0, 0
  {
    assert (s + t)[0] == s[0] && (s + t)[1..] == s[1..] + t;
    StableBody(s[0] / 32, s[0] % 32, s[1..], t);
  }

  lemma {:induction false} StableBody(major: nat, minor: nat, s: bytes, t: bytes)
    requires !DecodeBody(major, minor, s).TooShort?
    ensures DecodeBody(major, minor, s + t) == Before(DecodeBody(major, minor, s), t)
    decreases |s|, 2, 0
  {
    if major != 6 {
      ArgumentStable(minor, s, t);
      var a := Argument(minor, s);
      if a.Ok? {
        StableRest(major, minor, a.value, a.rest, t);
      }
    }
  }

  lemma {:induction false} StableRest(major: nat, minor: nat, n: nat, s: bytes, t: bytes)
    requires !DecodeRest(major, minor, n, s).TooShort?
    ensures DecodeRest(major, minor, n, s + t) == Before(DecodeRest(major, minor, n, s), t)
    decreases |s|, 1, 0
  {
    if major == 2 || major == 3 {
      WordStable(n, s, t);
    } else if major == 4 || major == 5 {
      StableN(Count(major, n), s, t);
    }
  }

  lemma {:induction false} StableN(n: nat, s: bytes, t: bytes)
    requires !DecodeN(n, s).TooShort?
    ensures DecodeN(n, s + t) == Before(DecodeN(n, s), t)
    decreases |s|, 0, n + 1
  {
    if n != 0 {
      Stable(s, t);
      var p := Decode(s);
      if p.Ok? {
        StableN(n - 1, p.rest, t);
      }
    }
  }

  /** Skipping consumes the same bytes whatever follows. */
  lemma SkipStable(s: bytes, t: bytes)
    requires !Skip(s).TooShort?
    ensures Skip(s + t) == Before(Skip(s), t)
  {
    SkipIsDecode(s);
    SkipIsDecode(s + t);
    Stable(s, t);
  }

  // ---------------------------------------------------------------- bytes that are still missing

  /** A zero byte is an item, and n of them are n items. */
  function Zeros(n: nat): (s: bytes)
    ensures |s| == n
  {
    if n == 0 then [] else [0] + Zeros(n - 1)
  }

  lemma {:induction false} ZerosSkipped(n: nat)
    ensures SkipN(n, Zeros(n)) == Ok((), [])
  {
    if n != 0 {
      assert Zeros(n)[1..] == Zeros(n - 1);
      assert Skip(Zeros(n)) == SkipBody(0, 0, Zeros(n - 1));
      ZerosSkipped(n - 1);
    }
  }

  /** Whatever is too short for an item can be completed to one. */
  lemma {:induction false} Completed(s: bytes) returns (t: bytes)
    requires Skip(s).TooShort?
    ensures Skip(s + t) == Ok((), [])
    decreases |s|, 0, 0
  {
    if s == [] {
      t := [0];
      assert s + t == [0] && [0][1..] == [];
      assert Skip([0]) == SkipBody(0, 0, []);
    } else {
      t := CompletedBody(s[0] / 32, s[0] % 32, s[1..]);
      assert (s + t)[0] == s[0] && (s + t)[1..] == s[1..] + t;
    }
  }

  /** What follows a head with argument n. */
  function SkipTail(major: nat, n: nat, s: bytes): Parse<()> {
    if major == 2 || major == 3 then Drop(Chunk(n, s))
    else if major == 4 || major == 5 then SkipN(Count(major, n), s)
    else Ok((), s)
  }

  lemma BodyIsTail(major: nat, minor: nat, s: bytes)
    requires major != 6 && Argument(minor, s).Ok?
    ensures SkipBody(major, minor, s) == SkipTail(major, Argument(minor, s).value, Argument(minor, s).rest)
  {
  }

  lemma ArgumentCompleted(minor: nat, s: bytes) returns (n: nat, t: bytes)
    requires Argument(minor, s).TooShort?
    ensures Argument(minor, s + t) == Ok(n, [])
  {
    t := Zeros(Width(minor) - |s|);
    n := FromBig(s + t);
    assert (s + t)[..Width(minor)] == s + t && (s + t)[Width(minor)..] == [];
  }

  /** All of what follows a head. */
  lemma WholeTail(major: nat, n: nat) returns (t: bytes)
    ensures SkipTail(major, n, t) == Ok((), [])
  {
    if major == 4 || major == 5 {
      t := Zeros(Count(major, n));
      ZerosSkipped(Count(major, n));
    } else if major == 2 || major == 3 {
      t := Zeros(n);
      assert t[n..] == [];
    } else {
      t := [];
    }
  }

  lemma {:induction false} CompletedTail(major: nat, n: nat, s: bytes) returns (t: bytes)
    requires SkipTail(major, n, s).TooShort?
    ensures SkipTail(major, n, s + t) == Ok((), [])
    decreases |s|, 1, 0
  {
    if major == 2 || major == 3 {
      t := Zeros(n - |s|);
      assert (s + t)[n..] == [];
    } else {
      t := CompletedN(Count(major, n), s);
    }
  }

  lemma {:induction false} CompletedBody(major: nat, minor: nat, s: bytes) returns (t: bytes)
    requires SkipBody(major, minor, s).TooShort?
    ensures SkipBody(major, minor, s + t) == Ok((), [])
    decreases |s|, 2, 0
  {
    var a := Argument(minor, s);
    if a.TooShort? {
      var n, pad := ArgumentCompleted(minor, s);
      var u := WholeTail(major, n);
      t := pad + u;
      assert s + t == (s + pad) + u && [] + u == u;
      ArgumentStable(minor, s + pad, u);
    } else {
      BodyIsTail(major, minor, s);
      t := CompletedTail(major, a.value, a.rest);
      ArgumentStable(minor, s, t);
    }
    BodyIsTail(major, minor, s + t);
  }

  lemma FirstThenZeros(n: nat, s: bytes)
    requires n > 0 && Skip(s) == Ok((), [])
    ensures SkipN(n, s + Zeros(n - 1)) == Ok((), [])
  {
    SkipStable(s, Zeros(n - 1));
    assert [] + Zeros(n - 1) == Zeros(n - 1);
    ZerosSkipped(n - 1);
  }

  lemma {:induction false} CompletedN(n: nat, s: bytes) returns (t: bytes)
    requires SkipN(n, s).TooShort?
    ensures SkipN(n, s + t) == Ok((), [])
    decreases |s|, 0, n + 1
  {
    var p := Skip(s);
    if p.TooShort? {
      var u := Completed(s);
      FirstThenZeros(n, s + u);
      t := u + Zeros(n - 1);
      assert s + t == (s + u) + Zeros(n - 1);
    } else {
      t := CompletedN(n - 1, p.rest);
      SkipStable(s, t);
    }
  }

  // ---------------------------------------------------------------- bytes that were not needed

  lemma WordTrims(n: nat, s: bytes, t: bytes)
    requires n <= |s + t| && |s + t| - n >= |t|
    ensures Word(n, s).Ok? && Word(n, s + t) == Before(Word(n, s), t)
    ensures Chunk(n, s).Ok? && Chunk(n, s + t) == Before(Chunk(n, s), t)
  {
    WordStable(n, s, t);
  }

  lemma ArgumentTrims(minor: nat, s: bytes, t: bytes)
    requires var a := Argument(minor, s + t); a.Ok? && |a.rest| >= |t|
    ensures Argument(minor, s).Ok? && Argument(minor, s + t) == Before(Argument(minor, s), t)
  {
    if minor >= 24 {
      WordTrims(Width(minor), s, t);
    }
  }

  /** Bytes that the decoder did not reach are not needed. */
  lemma {:induction false} Trims(s: bytes, t: bytes)
    requires Decode(s + t).Ok? && |Decode(s + t).rest| >= |t|
    ensures Decode(s).Ok? && Decode(s + t) == Before(Decode(s), t)
    decreases |s|, 0, 0
  {
    assert s != [];
    assert (s + t)[0] == s[0] && (s + t)[1..] == s[1..] + t;
    TrimsBody(s[0] / 32, s[0] % 32, s[1..], t);
  }

  lemma {:induction false} TrimsBody(major: nat, minor: nat, s: bytes, t: bytes)
    requires var p := DecodeBody(major, minor, s + t); p.Ok? && |p.rest| >= |t|
    ensures DecodeBody(major, minor, s).Ok? && DecodeBody(major, minor, s + t) == Before(DecodeBody(major, minor, s), t)
    decreases |s|, 2, 0
  {
    ArgumentTrims(minor, s, t);
    var a := Argument(minor, s);
    TrimsRest(major, minor, a.value, a.rest, t);
  }

  lemma {:induction false} TrimsRest(major: nat, minor: nat, n: nat, s: bytes, t: bytes)
    requires var p := DecodeRest(major, minor, n, s + t); p.Ok? && |p.rest| >= |t|
    ensures DecodeRest(major, minor, n, s).Ok? && DecodeRest(major, minor, n, s + t) == Before(DecodeRest(major, minor, n, s), t)
    decreases |s|, 1, 0
  {
    if major == 2 || major == 3 {
      WordTrims(n, s, t);
    } else if major == 4 || major == 5 {
      TrimsN(Count(major, n), s, t);
    }
  }

  lemma {:induction false} TrimsN(n: nat, s: bytes, t: bytes)
    requires DecodeN(n, s + t).Ok? && |DecodeN(n, s + t).rest| >= |t|
    ensures DecodeN(n, s).Ok? && DecodeN(n, s + t) == Before(DecodeN(n, s), t)
    decreases |s|, 0, n + 1
  {
    if n != 0 {
      Trims(s, t);
      TrimsN(n - 1, Decode(s).rest, t);
    }
  }

  predicate Suffix(r: bytes, s: bytes) {
    |r| <= |s| && r == s[|s| - |r|..]
  }

  lemma SuffixTransitive(r: bytes, s: bytes, t: bytes)
    requires Suffix(r, s) && Suffix(s, t)
    ensures Suffix(r, t)
  {
  }

  lemma WordSuffix(n: nat, s: bytes)
    ensures n <= |s| ==> Suffix(s[n..], s)
  {
  }

  /** Decoding leaves a suffix of its input. */
  lemma {:induction false} LeavesSuffix(s: bytes)
    requires Decode(s).Ok?
    ensures Suffix(Decode(s).rest, s)
    decreases |s|, 0, 0
  {
    SuffixBody(s[0] / 32, s[0] % 32, s[1..]);
    WordSuffix(1, s);
    SuffixTransitive(Decode(s).rest, s[1..], s);
  }

  lemma {:induction false} SuffixBody(major: nat, minor: nat, s: bytes)
    requires DecodeBody(major, minor, s).Ok?
    ensures Suffix(DecodeBody(major, minor, s).rest, s)
    decreases |s|, 2, 0
  {
    var a := Argument(minor, s);
    WordSuffix(Width(minor), s);
    SuffixRest(major, minor, a.value, a.rest);
    SuffixTransitive(DecodeBody(major, minor, s).rest, a.rest, s);
  }

  lemma {:induction false} SuffixRest(major: nat, minor: nat, n: nat, s: bytes)
    requires DecodeRest(major, minor, n, s).Ok?
    ensures Suffix(DecodeRest(major, minor, n, s).rest, s)
    decreases |s|, 1, 0
  {
    WordSuffix(n, s);
    WordSuffix(0, s);
    if major == 4 || major == 5 {
      SuffixN(Count(major, n), s);
    }
  }

  lemma {:induction false} SuffixN(n: nat, s: bytes)
    requires DecodeN(n, s).Ok?
    ensures Suffix(DecodeN(n, s).rest, s)
    decreases |s|, 0, n + 1
  {
    if n != 0 {
      LeavesSuffix(s);
      SuffixN(n - 1, Decode(s).rest);
      SuffixTransitive(DecodeN(n, s).rest, Decode(s).rest, s);
    }
  }

  /** The bytes of the first item. */
  function Item(s: bytes): bytes
    requires Skip(s).Ok?
  {
    s[..|s| - |Skip(s).rest|]
  }

  /** Every strict prefix of an item is too short. */
  lemma PrefixTooShort(s: bytes, k: nat)
    requires Skip(s).Ok? && k < |Item(s)|
    ensures Skip(s[..k]).TooShort?
  {
    assert s[..k] + s[k..] == s;
    if !Skip(s[..k]).TooShort? {
      SkipStable(s[..k], s[k..]);
    }
  }

  /** An item by itself is an item. */
  lemma ItemAlone(s: bytes)
    requires Skip(s).Ok?
    ensures s == Item(s) + Skip(s).rest && Skip(Item(s)) == Ok((), [])
  {
    SkipIsDecode(s);
    LeavesSuffix(s);
    assert s == Item(s) + Skip(s).rest;
    Trims(Item(s), Skip(s).rest);
    SkipIsDecode(Item(s));
  }

  // ---------------------------------------------------------------- shortest form

  lemma MinorShortest(v: nat, minor: nat)
    requires 24 <= minor < 28 && v < Span(Width(minor))
    ensures v < TWO_64 && Width(Minor(v)) <= Width(minor)
  {
    Spans();
  }

  /** No head with the same argument is shorter. */
  lemma HeadShortest(major: nat, minor: nat, s: bytes)
    requires major < 8 && Argument(minor, s).Ok?
    ensures var a := Argument(minor, s); a.value < TWO_64 && |Head(major, a.value)| <= 1 + |s| - |a.rest|
  {
    if minor >= 24 {
      FromBigBound(s[..Width(minor)]);
      MinorShortest(Argument(minor, s).value, minor);
    }
  }

  lemma HeadGrows(major: nat, m: nat, n: nat)
    requires major < 8 && m <= n < TWO_64
    ensures |Head(major, m)| <= |Head(major, n)|
  {
  }

  /** Whatever decodes to a value is at least as long as the value's encoding. */
  lemma {:induction false} EncodeShortest(s: bytes)
    requires Decode(s).Ok?
    ensures var p := Decode(s); WellFormed(p.value) && |Encode(p.value)| <= |s| - |p.rest|
    decreases |s|, 0, 0
  {
    var major, minor, u := s[0] / 32, s[0] % 32, s[1..];
    var a := Argument(minor, u);
    HeadShortest(major, minor, u);
    BodyWith(major, minor, u, a.value, a.rest);
    if major == 7 {
      SpecialShortest(minor, u);
      assert DecodeRest(7, minor, a.value, a.rest) == Ok(Special(minor, a.value), a.rest);
    } else {
      RestShortest(major, minor, a.value, a.rest);
    }
  }

  lemma {:induction false} RestShortest(major: nat, minor: nat, n: nat, s: bytes)
    requires major < 6 && n < TWO_64 && DecodeRest(major, minor, n, s).Ok?
    ensures var p := DecodeRest(major, minor, n, s);
            WellFormed(p.value) && |Encode(p.value)| <= |Head(major, n)| + |s| - |p.rest|
    decreases |s|, 1, 0
  {
    if major == 4 || major == 5 {
      AllShortest(Count(major, n), s);
      if major == 5 {
        HalfCount(n);
        HeadGrows(5, Count(5, n) / 2, n);
      }
    }
  }

  lemma HalfCount(n: nat)
    requires n < TWO_64
    ensures Count(5, n) < TWO_64 && Count(5, n) % 2 == 0 && Count(5, n) / 2 <= n
  {
  }

  lemma SpecialShortest(minor: nat, u: bytes)
    requires Argument(minor, u).Ok?
    ensures var a := Argument(minor, u); var v := Special(minor, a.value);
            WellFormed(v) && |Encode(v)| == 1 + |u| - |a.rest|
  {
    Spans();
    if minor >= 24 {
      FromBigBound(u[..Width(minor)]);
    }
  }

  lemma {:induction false} AllShortest(n: nat, s: bytes)
    requires DecodeN(n, s).Ok?
    ensures var p := DecodeN(n, s); |p.value| == n && AllWellFormed(p.value) && |EncodeAll(p.value)| <= |s| - |p.rest|
    decreases |s|, 0, n + 1
  {
    if n != 0 {
      EncodeShortest(s);
      AllShortest(n - 1, Decode(s).rest);
      var p := DecodeN(n, s);
      assert p.value[1..] == DecodeN(n - 1, Decode(s).rest).value;
    }
  }
}
