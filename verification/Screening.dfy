/**
 What instance::run (src/instance.cpp) does with a message before the receiver sees it, for an
 actor that neither traps exits nor observes links.  The test for an exit message throws on
 anything that is no array and not null, and that ends the actor too.
 */
module Screening {
  import opened Bytes
  import opened Cbor
  import opened CborLaws
  import opened CborMatch
  import opened CborMatchLaws
  import opened Protocol

  const NORMAL: bytes := [110, 111, 114, 109, 97, 108]

  const LINK_MESSAGE: bytes := Head(4, 1) + Str(LINK)
  const EXIT_NORMAL: bytes := Head(4, 2) + (Str(EXIT) + Str(NORMAL))

  /** The message is dealt with and changes nothing for the receiver; or the actor ends; or the
      receiver is called. */
  datatype Fate = Kept | Ends | Passed

  /** is_exit_msg. */
  function ExitMatch(m: bytes): Matched {
    Attempt(m, EXIT, [IsType(Any), IsType(More)])
  }

  function Screen(m: bytes): Fate {
    if m == LINK_MESSAGE then Kept
    else
      match ExitMatch(m)
      case Throw => Ends
      case Yes(_, _) => if m == EXIT_NORMAL then Kept else Ends
      case No => Passed
  }

  /** The normal exit is an exit, and a link is none. */
  lemma NormalIsExit()
    ensures ExitMatch(EXIT_NORMAL).Yes?
  {
    var t := Str(NORMAL);
    RightName(2, EXIT, [IsType(Any), IsType(More)], t);
    StringParts(NORMAL, []);
    assert t + [] == t;
    assert [IsType(Any)] + [IsType(More)] == [IsType(Any), IsType(More)];
    assert SkipBody(t[0] / 32, t[0] % 32, t[1..]) == Ok((), []);
    assert MatchValue(IsType(Any), t) == Yes([], []);
    assert MatchNext(0, [IsType(More)], []) == Yes([], []);
    MoreMatch(1, IsType(Any), [IsType(More)], t, Yes([], []));
  }

  /** An array that starts with the name and has at least one more element. */
  predicate IsExit(v: Value) {
    v.Array? && |v.items| >= 2 && IsName(v.items[0], Ascii("exit"))
  }

  lemma ExitTree(v: Value)
    ensures var t := MatchTree(A([StrLit(EXIT), IsType(Any), IsType(More)]), v);
            && (t.Throws? <==> !IsList(v))
            && (t.Accepts? <==> IsExit(v))
  {
    Spelled();
    var ps := [StrLit(EXIT), IsType(Any), IsType(More)];
    assert ps[1..] == [IsType(Any), IsType(More)] && ps[1..][1..] == [IsType(More)];
    if v.Array? && v.items != [] {
      var rest := v.items[1..];
      assert MatchTree(ps[0], v.items[0]) == MatchLeaf(StrLit(EXIT), v.items[0]);
      if rest != [] {
        assert MatchTree(IsType(Any), rest[0]) == Accepts([]);
        assert MatchTrees([IsType(More)], rest[1..]) == Accepts([]);
      }
      assert MatchTrees(ps[1..], rest) == if rest == [] then Rejects else Accepts([]);
      assert MatchTree(A(ps), v) == MatchTrees(ps, v.items);
    }
  }

  lemma Spelled()
    ensures EXIT == Ascii("exit") && LINK == Ascii("link") && NORMAL == Ascii("normal")
    ensures LINK_MESSAGE == [0x81, 0x64] + Ascii("link")
    ensures EXIT_NORMAL == [0x82, 0x64] + Ascii("exit") + [0x66] + Ascii("normal")
  {
    assert Head(4, 1) == [0x81] && Head(4, 2) == [0x82] && Head(3, 4) == [0x64] && Head(3, 6) == [0x66];
  }

  /** What becomes of any message, in terms of the value it holds: only the link and the normal exit, in
      these very bytes, are without effect. */
  lemma ScreenExact(m: bytes)
    requires Decode(m).Ok? && Decode(m).rest == []
    ensures var v := Decode(m).value;
            Screen(m) == if m == [0x81, 0x64] + Ascii("link") || m == [0x82, 0x64] + Ascii("exit") + [0x66] + Ascii("normal") then Kept
                         else if IsExit(v) || !IsList(v) then Ends
                         else Passed
  {
    var p := A([StrLit(EXIT), IsType(Any), IsType(More)]);
    assert [StrLit(EXIT)] + [IsType(Any), IsType(More)] == p.ps;
    assert Proper(p);
    MatchRefines(p, m);
    ExitTree(Decode(m).value);
    NormalIsExit();
    Spelled();
  }

  /** Bytes that start neither an array nor null end the actor, complete or not. */
  lemma NoArrayEnds(m: bytes)
    requires m == [] || (m[0] / 32 != 4 && m[0] != 0xf6)
    ensures Screen(m) == Ends
  {
    assert [StrLit(EXIT)] + [IsType(Any), IsType(More)] == [StrLit(EXIT), IsType(Any), IsType(More)];
    assert LINK_MESSAGE[0] == 0x81;
  }

  /** What the receiver sees can be extracted as a range. */
  lemma PassedIsRange(m: bytes)
    requires Skip(m) == Ok((), []) && Screen(m) == Passed
    ensures MatchValue(GetRange, m) == Yes([CRaw(m)], [])
  {
    if m[0] / 32 != 4 && m[0] != 0xf6 {
      NoArrayEnds(m);
    }
    assert Item(m) == m;
  }

  /** A list of two or more elements with another name passes. */
  lemma OtherPasses(n: nat, name: bytes, t: bytes)
    requires 1 < n < TWO_64 && |name| < TWO_64 && name != EXIT
    ensures Screen(Head(4, n) + (Str(name) + t)) == Passed
  {
    var m := Head(4, n) + (Str(name) + t);
    WrongName(n, EXIT, name, [IsType(Any), IsType(More)], t);
    HeaderMatch(n, Str(name) + t);
    HeaderMatch(1, Str(LINK));
    assert m != LINK_MESSAGE;
  }

  lemma OneDecodes(name: bytes)
    requires |name| < TWO_64
    ensures Decode(Head(4, 1) + Str(name)) == Ok(Array([Text(name)]), [])
  {
    var v := Array([Text(name)]);
    assert [Text(name)][1..] == [] && EncodeAll([]) == [];
    assert EncodeAll(v.items) == Str(name) + [];
    assert Encode(v) + [] == Head(4, 1) + Str(name);
    RoundTrip(v, []);
  }

  lemma TwoDecode(name: bytes, w: Value)
    requires |name| < TWO_64 && WellFormed(w)
    ensures Decode(Head(4, 2) + (Str(name) + Encode(w))) == Ok(Array([Text(name), w]), [])
  {
    var v := Array([Text(name), w]);
    assert v.items[1..] == [w] && [w][1..] == [] && EncodeAll([]) == [];
    assert EncodeAll([w]) == Encode(w) + [];
    assert EncodeAll(v.items) == Str(name) + Encode(w);
    assert Encode(v) + [] == Head(4, 2) + (Str(name) + Encode(w));
    RoundTrip(v, []);
  }

  /** The two messages that are without effect are arrays of strings. */
  lemma KeptValue(m: bytes)
    requires Decode(m).Ok? && Decode(m).rest == [] && Screen(m).Kept?
    ensures var v := Decode(m).value; IsExit(v) || v == Array([Text(LINK)])
  {
    Spelled();
    OneDecodes(LINK);
    TwoDecode(EXIT, Text(NORMAL));
  }
}
