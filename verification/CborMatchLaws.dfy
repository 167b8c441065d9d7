/**
 The streaming matcher refines matching of decoded trees.
 */
module CborMatchLaws {
  import opened Bytes
  import opened Cbor
  import opened CborLaws
  import opened CborBuffer
  import opened CborMatch

  /** A captured range stands for the tree that its bytes decode to. */
  function Seen(c: Capture): Capture {
    if c.CRaw? && Decode(c.raw).Ok? then CTree(Decode(c.raw).value) else c
  }

  function SeenAll(cs: seq<Capture>): seq<Capture> {
    if cs == [] then [] else [Seen(cs[0])] + SeenAll(cs[1..])
  }

  lemma {:induction false} SeenConcat(a: seq<Capture>, b: seq<Capture>)
    ensures SeenAll(a + b) == SeenAll(a) + SeenAll(b)
    decreases |a|
  {
    if a == [] {
      assert a + b == b;
    } else {
      assert (a + b)[1..] == a[1..] + b;
      SeenConcat(a[1..], b);
    }
  }

  /** The matcher did what the tree says, and on success stands at `rest`. */
  predicate Agrees(m: Matched, t: Verdict, rest: bytes) {
    match t
    case Accepts(caps) => m.Yes? && m.rest == rest && SeenAll(m.caps) == caps
    case Rejects => m.No?
    case Throws => m.Throw?
  }

  // ---------------------------------------------------------------- one value

  lemma SkipAgrees(major: nat, minor: nat, s: bytes)
    requires DecodeBody(major, minor, s).Ok?
    ensures SkipBody(major, minor, s) == Ok((), DecodeBody(major, minor, s).rest)
  {
    SkipBodyIsDecode(major, minor, s);
  }

  lemma TypeAgrees(major: nat, minor: nat, s: bytes)
    requires major < 8 && minor < 32 && DecodeBody(major, minor, s).Ok?
    ensures TypeOf(DecodeBody(major, minor, s).value) == ByteType(major, minor)
  {
    var a := Argument(minor, s);
    BodyWith(major, minor, s, a.value, a.rest);
  }

  /** What the head of an item tells about its value. */
  lemma HeadTells(major: nat, minor: nat, s: bytes)
    requires major < 8 && minor < 32 && DecodeBody(major, minor, s).Ok?
    ensures var p, a := DecodeBody(major, minor, s), Argument(minor, s);
            && a.Ok? && a.value < TWO_64 && major != 6
            && (p.value.UInt? <==> major == 0) && (p.value.NInt? <==> major == 1)
            && (p.value.ByteString? <==> major == 2) && (p.value.Text? <==> major == 3)
            && (p.value.Array? <==> major == 4) && (p.value.Map? <==> major == 5)
            && (major == 0 || major == 1 ==> p.value.n == a.value && p.rest == a.rest)
            && (major == 2 || major == 3 ==> Chunk(a.value, a.rest) == Ok(p.value.b, p.rest))
            && (major == 7 ==> p.value == Special(minor, a.value) && p.rest == a.rest)
  {
    var a := Argument(minor, s);
    BodyWith(major, minor, s, a.value, a.rest);
    HeadShortest(0, minor, s);
  }

  lemma LeafAgrees(p: Pattern, major: nat, minor: nat, s: bytes)
    requires !p.A? && !p.M? && !p.GetRange? && !p.GetRaw? && major < 8 && minor < 32 && DecodeBody(major, minor, s).Ok?
    ensures Agrees(ReadLeaf(p, major, minor, s), MatchLeaf(p, DecodeBody(major, minor, s).value), DecodeBody(major, minor, s).rest)
  {
    HeadTells(major, minor, s);
    SkipAgrees(major, minor, s);
    TypeAgrees(major, minor, s);
  }

  // ---------------------------------------------------------------- nested patterns

  lemma NullByte(s: bytes)
    requires Decode(s).Ok?
    ensures Decode(s).value == NULL <==> s[0] == 0xf6
    ensures s[0] == 0xf6 ==> Decode(s).rest == s[1..]
  {
    HeadTells(s[0] / 32, s[0] % 32, s[1..]);
  }

  /** What the header of an item says when it is read as an array (4) or a map (5). */
  lemma HeaderTells(major: nat, s: bytes)
    requires Decode(s).Ok? && (major == 4 || major == 5)
    ensures var h, p := ReadHeader(major, s), Decode(s);
            && (h.Ok? <==> p.value == NULL || (if major == 4 then p.value.Array? else p.value.Map?))
            && (h.Ok? && p.value == NULL ==> h == Ok(0, p.rest))
            && (h.Ok? && p.value != NULL ==> DecodeN(h.value, h.rest) == Ok(p.value.items, p.rest))
  {
    var m, minor, t := s[0] / 32, s[0] % 32, s[1..];
    NullByte(s);
    HeadTells(m, minor, t);
    var a := Argument(minor, t);
    BodyWith(m, minor, t, a.value, a.rest);
  }

  lemma {:induction false} DecodeNLength(n: nat, s: bytes)
    requires DecodeN(n, s).Ok?
    ensures |DecodeN(n, s).value| == n
    decreases n
  {
    if n != 0 {
      DecodeNLength(n - 1, Decode(s).rest);
    }
  }

  lemma RawAgrees(s: bytes)
    requires Decode(s).Ok?
    ensures Skip(s) == Ok((), Decode(s).rest) && Seen(CRaw(Item(s))) == CTree(Decode(s).value)
    ensures SeenAll([CRaw(Item(s))]) == [CTree(Decode(s).value)]
  {
    SkipIsDecode(s);
    ItemAlone(s);
    Trims(Item(s), Skip(s).rest);
    assert [CRaw(Item(s))][1..] == [];
  }

  lemma RangeAgrees(s: bytes)
    requires Decode(s).Ok?
    ensures var v := Decode(s).value;
            ByteType(s[0] / 32, s[0] % 32) in {NullType, ArrayType, MapType} <==> v == NULL || v.Array? || v.Map?
  {
    TypeAgrees(s[0] / 32, s[0] % 32, s[1..]);
    HeadTells(s[0] / 32, s[0] % 32, s[1..]);
  }

  /** On any well-formed item the matcher does what matching the decoded tree does, and a
      successful match leaves it exactly after the item. */
  lemma {:induction false} MatchRefines(p: Pattern, s: bytes)
    requires Proper(p) && Decode(s).Ok?
    ensures Agrees(MatchValue(p, s), MatchTree(p, Decode(s).value), Decode(s).rest)
    decreases p
  {
    if p.A? {
      HeaderTells(4, s);
      NestedRefines(p.ps, 4, s);
    } else if p.M? {
      HeaderTells(5, s);
      NestedRefines(p.ps, 5, s);
    } else if p.GetRange? || p.GetRaw? {
      RawAgrees(s);
      RangeAgrees(s);
    } else {
      LeafAgrees(p, s[0] / 32, s[0] % 32, s[1..]);
    }
  }

  lemma {:induction false} NestedRefines(ps: seq<Pattern>, major: nat, s: bytes)
    requires ProperList(ps) && Decode(s).Ok? && (major == 4 || major == 5)
    ensures var h, p := ReadHeader(major, s), Decode(s);
            h.Ok? ==> && (p.value == NULL || p.value.Array? || p.value.Map?)
                      && Agrees(MatchNext(h.value, ps, h.rest), MatchTrees(ps, if p.value == NULL then [] else p.value.items), p.rest)
    decreases ps, 1
  {
    HeaderTells(major, s);
    var h := ReadHeader(major, s);
    if h.Ok? {
      NextRefines(h.value, ps, h.rest);
    }
  }

  lemma {:induction false} NextRefines(n: nat, ps: seq<Pattern>, s: bytes)
    requires ProperList(ps) && DecodeN(n, s).Ok?
    ensures Agrees(MatchNext(n, ps, s), MatchTrees(ps, DecodeN(n, s).value), DecodeN(n, s).rest)
    decreases ps, 0
  {
    DecodeNLength(n, s);
    if |ps| == 1 && ps[0] == IsType(More) {
      SkipNIsDecode(n, s);
    } else if n != 0 {
      var m, t, d := MatchValue(ps[0], s), MatchTree(ps[0], Decode(s).value), DecodeN(n - 1, Decode(s).rest);
      MatchRefines(ps[0], s);
      DecodeNLength(n - 1, Decode(s).rest);
      assert DecodeN(n, s).value == [Decode(s).value] + d.value;
      if m.Yes? && |ps| > 1 {
        NextRefines(n - 1, ps[1..], Decode(s).rest);
        var r := MatchNext(n - 1, ps[1..], m.rest);
        if r.Yes? {
          SeenConcat(m.caps, r.caps);
        }
      }
    }
  }

  /** buffer::operator(): on the encoding of an array, with anything after it, the match succeeds
      exactly when the decoded elements match the parameters. */
  lemma MatchArrayRefines(vs: seq<Value>, ps: seq<Pattern>, rest: bytes)
    requires WellFormed(Array(vs)) && ProperList(ps)
    ensures Agrees(MatchValue(A(ps), Encode(Array(vs)) + rest), MatchTrees(ps, vs), rest)
  {
    RoundTrip(Array(vs), rest);
    MatchRefines(A(ps), Encode(Array(vs)) + rest);
  }

  // ---------------------------------------------------------------- messages

  predicate IsName(v: Value, name: bytes) {
    v == Text(name) || v == ByteString(name)
  }

  /** Matching throws on anything that is neither an array nor null. */
  predicate IsList(v: Value) {
    v.Array? || v == NULL
  }

  lemma AloneTree(name: bytes, v: Value)
    ensures var t := MatchTree(A([StrLit(name)]), v);
            && (t.Throws? <==> !IsList(v))
            && (t.Accepts? <==> v.Array? && |v.items| == 1 && IsName(v.items[0], name))
  {
    var ps := [StrLit(name)];
    if v.Array? {
      assert MatchTree(A(ps), v) == MatchTrees(ps, v.items);
      if v.items != [] {
        assert MatchTree(ps[0], v.items[0]) == MatchLeaf(StrLit(name), v.items[0]);
      }
    } else if v == NULL {
      assert MatchTree(A(ps), v) == MatchTrees(ps, []);
    }
  }

  /** A name by itself matches exactly the arrays of only that name. */
  lemma NameAlone(name: bytes, m: bytes)
    requires Decode(m).Ok?
    ensures var v, r := Decode(m).value, MatchValue(A([StrLit(name)]), m);
            && (r.Throw? <==> !IsList(v))
            && (r.Yes? <==> v.Array? && |v.items| == 1 && IsName(v.items[0], name))
  {
    assert Proper(A([StrLit(name)]));
    MatchRefines(A([StrLit(name)]), m);
    AloneTree(name, Decode(m).value);
  }

  lemma PairTree(name: bytes, q: Pattern, v: Value)
    requires !q.A? && !q.M? && q != IsType(More)
    ensures var t := MatchTree(A([StrLit(name), q]), v);
            && (t.Throws? <==> !IsList(v))
            && (t.Accepts? <==> v.Array? && |v.items| == 2 && IsName(v.items[0], name) && MatchLeaf(q, v.items[1]).Accepts?)
  {
    var ps := [StrLit(name), q];
    assert ps[1..] == [q];
    if v.Array? {
      assert MatchTree(A(ps), v) == MatchTrees(ps, v.items);
      if v.items != [] {
        var rest := v.items[1..];
        assert MatchTree(ps[0], v.items[0]) == MatchLeaf(StrLit(name), v.items[0]);
        LastTree(q, rest);
      }
    } else if v == NULL {
      assert MatchTree(A(ps), v) == MatchTrees(ps, []);
    }
  }

  lemma LastTree(q: Pattern, vs: seq<Value>)
    requires !q.A? && !q.M? && q != IsType(More)
    ensures var t := MatchTrees([q], vs); !t.Throws? && (t.Accepts? <==> |vs| == 1 && MatchLeaf(q, vs[0]).Accepts?)
  {
    if vs != [] {
      assert MatchTree(q, vs[0]) == MatchLeaf(q, vs[0]);
    }
  }

  /** A name and one more parameter match exactly the pairs of that name and such an item. */
  lemma NameAnd(name: bytes, q: Pattern, m: bytes)
    requires Decode(m).Ok? && !q.A? && !q.M? && q != IsType(More)
    ensures var v, r := Decode(m).value, MatchValue(A([StrLit(name), q]), m);
            && (r.Throw? <==> !IsList(v))
            && (r.Yes? <==> v.Array? && |v.items| == 2 && IsName(v.items[0], name) && MatchLeaf(q, v.items[1]).Accepts?)
  {
    assert Proper(A([StrLit(name), q]));
    MatchRefines(A([StrLit(name), q]), m);
    PairTree(name, q, Decode(m).value);
  }

  /** The range captured after a name is exactly the bytes of the second item. */
  lemma RangeCaptured(name: bytes, m: bytes) returns (raw: bytes)
    requires Decode(m).Ok? && Decode(m).rest == [] && MatchValue(A([StrLit(name), GetRange]), m).Yes?
    ensures MatchValue(A([StrLit(name), GetRange]), m).caps == [CRaw(raw)] && Suffix(raw, m)
    ensures var v := Decode(m).value; v.Array? && |v.items| == 2 && Decode(raw) == Ok(v.items[1], [])
  {
    var h := ReadHeader(4, m);
    NameAnd(name, GetRange, m);
    HeaderTells(4, m);
    DecodeNLength(h.value, h.rest);
    PairDecoded(h.rest);
    raw := Decode(h.rest).rest;
    PairMatched(name, h.rest);
    LeavesSuffix(h.rest);
    HeaderSuffix(m);
    SuffixTransitive(raw, h.rest, m);
  }

  lemma PairMatched(name: bytes, s: bytes)
    requires Decode(s).Ok? && Decode(Decode(s).rest).Ok? && Decode(Decode(s).rest).rest == []
    requires MatchNext(2, [StrLit(name), GetRange], s).Yes?
    ensures MatchNext(2, [StrLit(name), GetRange], s).caps == [CRaw(Decode(s).rest)]
  {
    var raw := Decode(s).rest;
    assert [StrLit(name), GetRange][1..] == [GetRange];
    MatchRefines(StrLit(name), s);
    var m1 := MatchValue(StrLit(name), s);
    assert m1.Yes? && m1.rest == raw;
    assert m1.caps == [] by { assert m1 == ReadLeaf(StrLit(name), s[0] / 32, s[0] % 32, s[1..]); }
    WholeItem(raw);
    assert MatchNext(1, [GetRange], raw) == MatchValue(GetRange, raw);
    assert [] + [CRaw(raw)] == [CRaw(raw)];
  }

  lemma NextDecoded(n: nat, s: bytes)
    requires n > 0 && DecodeN(n, s).Ok?
    ensures Decode(s).Ok? && DecodeN(n - 1, Decode(s).rest).Ok?
    ensures DecodeN(n, s) == Ok([Decode(s).value] + DecodeN(n - 1, Decode(s).rest).value, DecodeN(n - 1, Decode(s).rest).rest)
  {
  }

  lemma PairDecoded(s: bytes)
    requires DecodeN(2, s).Ok?
    ensures Decode(s).Ok? && Decode(Decode(s).rest).Ok?
    ensures DecodeN(2, s) == Ok([Decode(s).value, Decode(Decode(s).rest).value], Decode(Decode(s).rest).rest)
  {
    var r := Decode(s).rest;
    NextDecoded(2, s);
    NextDecoded(1, r);
    assert [Decode(s).value] + ([Decode(r).value] + []) == [Decode(s).value, Decode(r).value];
  }

  lemma WholeItem(s: bytes)
    requires Decode(s).Ok? && Decode(s).rest == []
    ensures Skip(s) == Ok((), []) && Item(s) == s
  {
    SkipIsDecode(s);
    assert s[..|s|] == s;
  }

  lemma HeaderSuffix(s: bytes)
    requires ReadHeader(4, s).Ok?
    ensures Suffix(ReadHeader(4, s).rest, s)
  {
    if s[0] != 0xf6 && 24 <= s[0] % 32 < 28 {
      WordSuffix(Width(s[0] % 32), s[1..]);
    }
    WordSuffix(1, s);
    SuffixTransitive(ReadHeader(4, s).rest, s[1..], s);
  }

  /** An integer literal accepts the integer itself, and by wrap-around one more item: the negative
      integer that lies 2^64 below it. */
  lemma IntLiteralMeans(i: int, v: Value)
    requires Int64(i) && WellFormed(v)
    ensures MatchTree(IntLit(i), v).Accepts? <==> v == OfInt(i) || (i >= 0 && v == NInt(TWO_64 - 1 - i))
  {
    if v.NInt? {
      NegatedExact(v.n);
    }
  }
}
