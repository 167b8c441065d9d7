/**
 Which texts denote which values: a grammar of documents over bytes, with the leniency of the
 parser of src/cbor.cpp in it, and the proof that the parser accepts exactly these texts, with
 exactly these values, and stops exactly where they end.
 */
module JsonGrammar {
  import opened Bytes
  import opened Cbor
  import opened CborBuffer
  import opened JsonText
  import opened Json
  import opened JsonTokens

  // ---------------------------------------------------------------- documents

  /** A value with the white space in front of it. */
  datatype Doc = Doc(space: bytes, tree: Tree)

  datatype Tree =
    | Num(number: Number)
    | Falsehood
    | Truth
    | Nothing
    | Quoted(chars: seq<Char>)
    | List(pairs: bool, body: Body)

  /** What follows an opening bracket: any values and separators up to the closing bracket. */
  datatype Body =
    | End(space: bytes)
    | Separator(space: bytes, c: byte, more: Body)
    | Item(doc: Doc, more: Body)

  // ---------------------------------------------------------------- how they are written

  function DocText(d: Doc): bytes
    decreases d
  {
    d.space + TreeText(d.tree)
  }

  function TreeText(t: Tree): bytes
    decreases t
  {
    match t
    case Num(n) => NumberText(n)
    case Falsehood => [0x66, 0x61, 0x6c, 0x73, 0x65]
    case Truth => [0x74, 0x72, 0x75, 0x65]
    case Nothing => [0x6e, 0x75, 0x6c, 0x6c]
    case Quoted(cs) => [0x22] + (CharsText(cs) + [0x22])
    case List(pairs, body) => [if pairs then 0x7b else 0x5b] + BodyText(body, pairs)
  }

  function BodyText(b: Body, pairs: bool): bytes
    decreases b
  {
    match b
    case End(w) => w + [if pairs then 0x7d else 0x5d]
    case Separator(w, c, more) => w + ([c] + BodyText(more, pairs))
    case Item(d, more) => DocText(d) + BodyText(more, pairs)
  }

  /** A number must not run on into what follows; everything else marks its own end. */
  predicate DocEnds(d: Doc, rest: bytes) {
    d.tree.Num? ==> NumberEnds(d.tree.number, rest)
  }

  predicate DocSpelled(d: Doc)
    decreases d
  {
    Spaces(d.space) && TreeSpelled(d.tree)
  }

  predicate TreeSpelled(t: Tree)
    decreases t
  {
    match t
    case Num(n) => NumberSpelled(n)
    case Quoted(cs) => CharsSpelled(cs)
    case List(pairs, body) => BodySpelled(body, pairs) && !body.Separator?
    case _ => true
  }

  /** Commas may stand anywhere after the first value, once, often or not at all; in a map so may colons. */
  predicate BodySpelled(b: Body, pairs: bool)
    decreases b
  {
    match b
    case End(w) => Spaces(w)
    case Separator(w, c, more) => Spaces(w) && (c == 0x2c || (pairs && c == 0x3a)) && BodySpelled(more, pairs)
    case Item(d, more) => DocSpelled(d) && BodySpelled(more, pairs) && DocEnds(d, BodyText(more, pairs))
  }

  // ---------------------------------------------------------------- what they mean

  function TreeMeans(fr: FloatReader, t: Tree): Option<Value>
    decreases t
  {
    match t
    case Num(n) => NumberMeans(fr, n)
    case Falsehood => Some(Simple(20))
    case Truth => Some(Simple(21))
    case Nothing => Some(Simple(22))
    case Quoted(cs) => Some(Text(CharsMean(cs)))
    case List(pairs, body) =>
      var vs := BodyMeans(fr, body);
      if vs.None? then None
      else if !pairs then Some(Array(vs.value))
      else if |vs.value| % 2 == 0 then Some(Map(vs.value))
      else None
  }

  /** Separators mean nothing. */
  function BodyMeans(fr: FloatReader, b: Body): Option<seq<Value>>
    decreases b
  {
    match b
    case End(_) => Some([])
    case Separator(_, _, more) => BodyMeans(fr, more)
    case Item(d, more) =>
      var v, vs := TreeMeans(fr, d.tree), BodyMeans(fr, more);
      if v.Some? && vs.Some? then Some([v.value] + vs.value) else None
  }

  // ---------------------------------------------------------------- completeness

  function Result<T>(v: Option<T>, rest: bytes): Scan<T> {
    if v.Some? then Got(v.value, rest) else Fail
  }

  /** How a value starts. */
  predicate Opens(c: byte) {
    Digit(c) || c == 0x2d || 0x61 <= c <= 0x7a || c == 0x22 || c == 0x5b || c == 0x7b
  }

  lemma TreeOpens(t: Tree)
    requires TreeSpelled(t)
    ensures TreeText(t) != [] && Opens(TreeText(t)[0])
  {
    if t.Num? {
      assert Digit(t.number.whole[0]);
    }
  }

  lemma Trimmed(fr: FloatReader, w: bytes, t: bytes)
    requires Spaces(w) && Solid(t)
    ensures ParseValue(fr, w + t) == ParseValue(fr, t)
  {
    SpacesSkipped(w, t);
    SpacesSkipped([], t);
    assert [] + t == t;
  }

  lemma NumParses(fr: FloatReader, n: Number, rest: bytes)
    requires NumberSpelled(n) && NumberEnds(n, rest)
    ensures ParseValue(fr, NumberText(n) + rest) == Result(NumberMeans(fr, n), rest)
  {
    var s := NumberText(n) + rest;
    NumberScanned(n, rest);
    NumberValued(fr, n);
    assert Digit(n.whole[0]);
    assert s[0] == 0x2d || Digit(s[0]);
    SpacesSkipped([], s);
    assert [] + s == s;
  }

  lemma WordParses(fr: FloatReader, t: Tree, rest: bytes)
    requires t.Falsehood? || t.Truth? || t.Nothing?
    ensures ParseValue(fr, TreeText(t) + rest) == Result(TreeMeans(fr, t), rest)
  {
    var s, n := TreeText(t) + rest, |TreeText(t)|;
    assert s[..n] == TreeText(t) && s[n..] == rest;
    assert s[..4] == TreeText(t)[..4];
    SpacesSkipped([], s);
    assert [] + s == s;
    assert ParseValue(fr, s) == ParseKeyword(s);
  }

  lemma QuotedParses(fr: FloatReader, cs: seq<Char>, rest: bytes)
    requires CharsSpelled(cs)
    ensures ParseValue(fr, TreeText(Quoted(cs)) + rest) == Got(Text(CharsMean(cs)), rest)
  {
    var s := TreeText(Quoted(cs)) + rest;
    StringScanned(cs, rest);
    assert s[1..] == CharsText(cs) + ([0x22] + rest);
    SpacesSkipped([], s);
    assert [] + s == s;
  }

  /** Brackets: what is inside decides. */
  lemma BracketParses(fr: FloatReader, pairs: bool, s: bytes, vs: Option<seq<Value>>, rest: bytes)
    requires ParseList(fr, s, pairs) == Result(vs, rest)
    ensures ParseValue(fr, [if pairs then 0x7b else 0x5b] + s)
         == if vs.None? then Fail else if !pairs then Got(Array(vs.value), rest)
            else if |vs.value| % 2 == 0 then Got(Map(vs.value), rest) else Fail
  {
    var t := [if pairs then 0x7b else 0x5b] + s;
    assert t[1..] == s;
    SpacesSkipped([], t);
    assert [] + t == t;
  }

  lemma {:induction false} TreeParses(fr: FloatReader, t: Tree, rest: bytes)
    requires TreeSpelled(t) && (t.Num? ==> NumberEnds(t.number, rest))
    ensures ParseValue(fr, TreeText(t) + rest) == Result(TreeMeans(fr, t), rest)
    decreases t
  {
    match t {
      case Num(n) => NumParses(fr, n, rest);
      case Quoted(cs) => QuotedParses(fr, cs, rest);
      case List(pairs, body) =>
        BodyParses(fr, body, pairs, rest);
        BracketParses(fr, pairs, BodyText(body, pairs) + rest, BodyMeans(fr, body), rest);
        Join([if pairs then 0x7b else 0x5b], BodyText(body, pairs), rest);
      case _ => WordParses(fr, t, rest);
    }
  }

  lemma {:induction false} DocParses(fr: FloatReader, d: Doc, rest: bytes)
    requires DocSpelled(d) && DocEnds(d, rest)
    ensures ParseValue(fr, DocText(d) + rest) == Result(TreeMeans(fr, d.tree), rest)
    ensures Trim(DocText(d) + rest) == TreeText(d.tree) + rest
    ensures ParseValue(fr, TreeText(d.tree) + rest) == Result(TreeMeans(fr, d.tree), rest)
    decreases d
  {
    TreeParses(fr, d.tree, rest);
    TreeOpens(d.tree);
    assert DocText(d) + rest == d.space + (TreeText(d.tree) + rest);
    Trimmed(fr, d.space, TreeText(d.tree) + rest);
    SpacesSkipped(d.space, TreeText(d.tree) + rest);
  }

  lemma EndParses(fr: FloatReader, w: bytes, pairs: bool, rest: bytes)
    requires Spaces(w)
    ensures var s := BodyText(End(w), pairs) + rest;
            ParseItems(fr, s, pairs) == Got([], rest) && ParseList(fr, s, pairs) == Got([], rest)
  {
    var t := [if pairs then 0x7d else 0x5d] + rest;
    assert BodyText(End(w), pairs) + rest == w + t;
    SpacesSkipped(w, t);
    assert t[1..] == rest;
  }

  lemma SeparatorParses(fr: FloatReader, w: bytes, c: byte, s: bytes, pairs: bool)
    requires Spaces(w) && (c == 0x2c || (pairs && c == 0x3a))
    ensures ParseItems(fr, w + ([c] + s), pairs) == ParseItems(fr, s, pairs)
  {
    SpacesSkipped(w, [c] + s);
    assert ([c] + s)[1..] == s;
  }

  /** A value that starts here is parsed, whether it is the first or not. */
  lemma ItemParses(fr: FloatReader, s: bytes, t: bytes, v: Option<Value>, r: bytes, vs: Option<seq<Value>>, rest: bytes, pairs: bool)
    requires t == Trim(s) && t != [] && Opens(t[0]) && ParseValue(fr, t) == Result(v, r) && ParseItems(fr, r, pairs) == Result(vs, rest)
    ensures var all := if v.Some? && vs.Some? then Some([v.value] + vs.value) else None;
            ParseItems(fr, s, pairs) == Result(all, rest) && ParseList(fr, s, pairs) == Result(all, rest)
  {
  }

  lemma {:induction false} BodyParses(fr: FloatReader, b: Body, pairs: bool, rest: bytes)
    requires BodySpelled(b, pairs)
    ensures ParseItems(fr, BodyText(b, pairs) + rest, pairs) == Result(BodyMeans(fr, b), rest)
    ensures !b.Separator? ==> ParseList(fr, BodyText(b, pairs) + rest, pairs) == Result(BodyMeans(fr, b), rest)
    decreases b
  {
    match b {
      case End(w) => EndParses(fr, w, pairs, rest);
      case Separator(w, c, more) =>
        BodyParses(fr, more, pairs, rest);
        SeparatorParses(fr, w, c, BodyText(more, pairs) + rest, pairs);
        Join([c], BodyText(more, pairs), rest);
        Join(w, [c] + BodyText(more, pairs), rest);
      case Item(d, more) =>
        var r := BodyText(more, pairs) + rest;
        BodyParses(fr, more, pairs, rest);
        BodyCloses(more, pairs);
        EndsBefore(d, BodyText(more, pairs), rest);
        DocParses(fr, d, r);
        Join(DocText(d), BodyText(more, pairs), rest);
        FirstOfItem(d.tree, r);
        ItemParses(fr, DocText(d) + r, TreeText(d.tree) + r, TreeMeans(fr, d.tree), r, BodyMeans(fr, more), rest, pairs);
    }
  }

  lemma FirstOfItem(t: Tree, r: bytes)
    requires TreeSpelled(t)
    ensures TreeText(t) + r != [] && Opens((TreeText(t) + r)[0])
  {
    TreeOpens(t);
  }

  lemma {:induction false} BodyCloses(b: Body, pairs: bool)
    ensures BodyText(b, pairs) != []
    decreases b
  {
    if b.Item? {
      BodyCloses(b.more, pairs);
    }
  }

  /** Only the first byte matters for the end of a number. */
  lemma EndsBefore(d: Doc, s: bytes, rest: bytes)
    requires DocEnds(d, s) && s != []
    ensures DocEnds(d, s + rest)
  {
    assert (s + rest)[0] == s[0];
  }

  // ---------------------------------------------------------------- soundness

  lemma NumFound(fr: FloatReader, t: bytes) returns (n: Number)
    requires ParseNumber(fr, t).Got?
    ensures var r := ParseNumber(fr, t);
            NumberSpelled(n) && NumberEnds(n, r.rest) && t == NumberText(n) + r.rest && NumberMeans(fr, n) == Some(r.value)
  {
    n := NumberFound(t);
    NumberValued(fr, n);
  }

  lemma WordFound(fr: FloatReader, t: bytes) returns (w: Tree)
    requires ParseKeyword(t).Got?
    ensures var r := ParseKeyword(t);
            !w.Num? && TreeSpelled(w) && t == TreeText(w) + r.rest && TreeMeans(fr, w) == Some(r.value)
  {
    if StartsWith(t, FALSE_TEXT) {
      w := Falsehood;
      assert t == t[..5] + t[5..];
    } else if StartsWith(t, TRUE_TEXT) {
      w := Truth;
      assert t == t[..4] + t[4..];
    } else {
      w := Nothing;
      assert t == t[..4] + t[4..];
    }
  }

  lemma QuotedFound(fr: FloatReader, t: bytes) returns (q: Tree)
    requires t != [] && t[0] == QUOTE && ScanString(t[1..]).Got?
    ensures var r := ScanString(t[1..]);
            !q.Num? && TreeSpelled(q) && t == TreeText(q) + r.rest && TreeMeans(fr, q) == Some(Text(r.value))
  {
    var cs := StringFound(t[1..]);
    q := Quoted(cs);
    assert t == [t[0]] + t[1..];
    var rest := ScanString(t[1..]).rest;
    assert TreeText(q) + rest == [0x22] + (CharsText(cs) + ([0x22] + rest));
  }

  /** What is parsed without white space in front is a tree spelled out. */
  lemma {:induction false} TreeFound(fr: FloatReader, t: bytes) returns (tree: Tree)
    requires t == Trim(t) && ParseValue(fr, t).Got?
    ensures var r := ParseValue(fr, t);
            && TreeSpelled(tree) && t == TreeText(tree) + r.rest && TreeMeans(fr, tree) == Some(r.value)
            && (tree.Num? ==> NumberEnds(tree.number, r.rest))
    decreases |t|, 1
  {
    if IsDigit(t[0]) || t[0] == MINUS {
      var n := NumFound(fr, t);
      tree := Num(n);
    } else if 97 <= t[0] <= 122 {
      tree := WordFound(fr, t);
    } else if t[0] == QUOTE {
      tree := QuotedFound(fr, t);
    } else {
      var pairs := t[0] == OPEN_MAP;
      var body := ListFound(fr, t[1..], pairs);
      tree := List(pairs, body);
      assert t == [t[0]] + t[1..];
      Join([if pairs then 0x7b else 0x5b], BodyText(body, pairs), ParseValue(fr, t).rest);
    }
  }

  lemma {:induction false} DocFound(fr: FloatReader, s: bytes) returns (d: Doc)
    requires ParseValue(fr, s).Got?
    ensures var r := ParseValue(fr, s);
            && DocSpelled(d) && DocEnds(d, r.rest) && s == DocText(d) + r.rest && TreeMeans(fr, d.tree) == Some(r.value)
    decreases |s|, 2
  {
    var w := SpacesFound(s);
    var t := Trim(s);
    Trimmed(fr, w, t);
    SpacesSkipped([], t);
    assert [] + t == t;
    var tree := TreeFound(fr, t);
    d := Doc(w, tree);
    Join(w, TreeText(tree), ParseValue(fr, s).rest);
  }

  lemma {:induction false} ListFound(fr: FloatReader, s: bytes, pairs: bool) returns (b: Body)
    requires ParseList(fr, s, pairs).Got?
    ensures var r := ParseList(fr, s, pairs);
            && BodySpelled(b, pairs) && !b.Separator? && s == BodyText(b, pairs) + r.rest && BodyMeans(fr, b) == Some(r.value)
    decreases |s|, 4
  {
    var w := SpacesFound(s);
    var t := Trim(s);
    if t != [] && t[0] == Close(pairs) {
      b := EndFound(w, t, pairs);
      assert BodyMeans(fr, b) == Some([]);
    } else {
      b := ItemFound(fr, s, w, t, pairs);
    }
  }

  lemma EndFound(w: bytes, t: bytes, pairs: bool) returns (b: Body)
    requires Spaces(w) && t != [] && t[0] == Close(pairs)
    ensures b == End(w) && w + t == BodyText(b, pairs) + t[1..]
  {
    b := End(w);
    assert t == [t[0]] + t[1..];
    Join(w, [t[0]], t[1..]);
  }

  lemma {:induction false} ItemFound(fr: FloatReader, s: bytes, w: bytes, t: bytes, pairs: bool) returns (b: Body)
    requires s == w + t && t == Trim(s) && Spaces(w) && Solid(t)
    requires ParseValue(fr, t).Got? && ParseItems(fr, ParseValue(fr, t).rest, pairs).Got?
    ensures var v := ParseValue(fr, t);
            var vs := ParseItems(fr, v.rest, pairs);
            b.Item? && BodySpelled(b, pairs) && s == BodyText(b, pairs) + vs.rest && BodyMeans(fr, b) == Some([v.value] + vs.value)
    decreases |t|, 2
  {
    SpacesSkipped([], t);
    assert [] + t == t;
    var tree := TreeFound(fr, t);
    var v := ParseValue(fr, t);
    var more := BodyFound(fr, v.rest, pairs);
    var d, rest := Doc(w, tree), ParseItems(fr, v.rest, pairs).rest;
    b := Item(d, more);
    BodyCloses(more, pairs);
    EndsWithin(d, BodyText(more, pairs), rest);
    Join(w, TreeText(tree), v.rest);
    Join(DocText(d), BodyText(more, pairs), rest);
  }

  lemma EndsWithin(d: Doc, s: bytes, rest: bytes)
    requires DocEnds(d, s + rest) && s != []
    ensures DocEnds(d, s)
  {
    assert (s + rest)[0] == s[0];
  }

  lemma {:induction false} BodyFound(fr: FloatReader, s: bytes, pairs: bool) returns (b: Body)
    requires ParseItems(fr, s, pairs).Got?
    ensures var r := ParseItems(fr, s, pairs);
            && BodySpelled(b, pairs) && s == BodyText(b, pairs) + r.rest && BodyMeans(fr, b) == Some(r.value)
    decreases |s|, 3
  {
    var w := SpacesFound(s);
    var t := Trim(s);
    if IsSeparator(pairs, t[0]) {
      var more := BodyFound(fr, t[1..], pairs);
      b := Separator(w, t[0], more);
      assert t == [t[0]] + t[1..];
      var rest := ParseItems(fr, s, pairs).rest;
      Join([t[0]], BodyText(more, pairs), rest);
      Join(w, [t[0]] + BodyText(more, pairs), rest);
    } else if t[0] == Close(pairs) {
      b := EndFound(w, t, pairs);
      assert BodyMeans(fr, b) == Some([]);
    } else {
      b := ItemFound(fr, s, w, t, pairs);
    }
  }

  // ---------------------------------------------------------------- both

  /** s starts with a text that denotes v, and `rest` follows it. */
  ghost predicate Denotes(fr: FloatReader, s: bytes, v: Value, rest: bytes) {
    exists d: Doc :: DocSpelled(d) && s == DocText(d) + rest && DocEnds(d, rest) && TreeMeans(fr, d.tree) == Some(v)
  }

  /** The parser accepts exactly the texts that denote a value, with that value, and stops where they end. */
  lemma ParsesIff(fr: FloatReader, s: bytes, v: Value, rest: bytes)
    ensures ParseValue(fr, s) == Got(v, rest) <==> Denotes(fr, s, v, rest)
  {
    if ParseValue(fr, s) == Got(v, rest) {
      var d := DocFound(fr, s);
    }
    if Denotes(fr, s, v, rest) {
      var d :| DocSpelled(d) && s == DocText(d) + rest && DocEnds(d, rest) && TreeMeans(fr, d.tree) == Some(v);
      DocParses(fr, d, rest);
    }
  }

  /** White space in front of a value changes nothing. */
  lemma SpaceIsFree(fr: FloatReader, w: bytes, s: bytes)
    requires forall c :: c in w ==> c == 0x20 || c == 0x09 || c == 0x0d || c == 0x0a
    ensures ParseValue(fr, w + s) == ParseValue(fr, s)
  {
    var u := SpacesFound(s);
    var t := Trim(s);
    Trimmed(fr, u, t);
    Trimmed(fr, w + u, t);
    Join(w, u, t);
  }
}
