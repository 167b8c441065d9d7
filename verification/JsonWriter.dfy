/**
 The JSON printer in the form of src/cbor.cpp: it moves through the bytes of an item and writes
 text as it goes.  On the encoding of a value it writes exactly the text of that value.

 How a floating point word is written is a parameter.
 */
module JsonWriter {
  import opened Bytes
  import opened Cbor
  import opened CborBuffer
  import opened CborCursor
  import opened CborMatch
  import opened CborMatcher
  import opened JsonText
  import opened Json
  import opened JsonLaws
  import opened JsonReader

  type FloatPrinter = Value -> bytes

  function Put(p: bytes, r: Parse<bytes>): Parse<bytes> {
    if r.Ok? then Ok(p + r.value, r.rest) else r
  }

  function Quoted(b: bytes): bytes {
    [QUOTE] + EscapedAll(b) + [QUOTE]
  }

  /** to_json_stream: what is written for the first item of s, and what is left. */
  function JsonOf(fp: FloatPrinter, s: bytes): (r: Parse<bytes>)
    ensures r.Ok? ==> |r.rest| < |s|
    decreases |s|, 0, 0
  {
    if s == [] then TooShort else JsonBody(fp, s[0] / 32, s[0] % 32, s[1..])
  }

  function JsonBody(fp: FloatPrinter, major: nat, minor: nat, s: bytes): (r: Parse<bytes>)
    ensures r.Ok? ==> |r.rest| <= |s|
    decreases |s|, 2, 0
  {
    if major == 2 || major == 3 then
      match ReadChunk(minor, s)
      case Ok(b, r) => Ok(Quoted(b), r)
      case TooShort => TooShort
      case Invalid => Invalid
    else if major == 7 && (minor == 20 || minor == 21 || minor == 22) then Ok(Print(Simple(minor)), s)
    else if major == 6 || (major == 7 && !(25 <= minor <= 27)) then Invalid
    else
      match Argument(minor, s)
      case TooShort => TooShort
      case Invalid => Invalid
      case Ok(n, r) =>
        if major == 0 then Ok(Decimal(n), r)
        else if major == 1 then Ok(DecimalInt(Negated(n)), r)
        else if major == 4 then Bracketed(false, JsonAll(fp, n, r, false))
        else if major == 5 then Bracketed(true, JsonAll(fp, 2 * n, r, true))
        else Ok(fp(Special(minor, n)), r)
  }

  function Open(pairs: bool): byte {
    if pairs then OPEN_MAP else OPEN_ARRAY
  }

  function Bracketed(pairs: bool, r: Parse<bytes>): Parse<bytes> {
    if r.Ok? then Ok([Open(pairs)] + r.value + [Close(pairs)], r.rest) else r
  }

  function JsonAll(fp: FloatPrinter, k: nat, s: bytes, pairs: bool): (r: Parse<bytes>)
    ensures r.Ok? ==> |r.rest| <= |s|
    decreases |s|, 1, 0
  {
    if k == 0 then Ok([], s)
    else
      var x := JsonOf(fp, s);
      if x.Ok? then Put(x.value, JsonRest(fp, k - 1, x.rest, pairs, pairs)) else x
  }

  function JsonRest(fp: FloatPrinter, k: nat, s: bytes, pairs: bool, value: bool): (r: Parse<bytes>)
    ensures r.Ok? ==> |r.rest| <= |s|
    decreases |s|, 0, k + 1
  {
    if k == 0 then Ok([], s)
    else
      var x := JsonOf(fp, s);
      if x.Ok? then Put([Separator(value)] + x.value, JsonRest(fp, k - 1, x.rest, pairs, pairs && !value)) else x
  }

  function Separator(value: bool): byte {
    if value then COLON else COMMA
  }

  // ---------------------------------------------------------------- what is written for a value

  lemma JsonInitial(fp: FloatPrinter, major: nat, minor: nat, t: bytes)
    requires major < 8 && minor < 32
    ensures JsonOf(fp, [Initial(major, minor)] + t) == JsonBody(fp, major, minor, t)
  {
    InitialParts(major, minor);
    assert ([Initial(major, minor)] + t)[1..] == t;
  }

  lemma JsonHead(fp: FloatPrinter, major: nat, v: nat, t: bytes)
    requires major < 6 && v < TWO_64
    ensures JsonOf(fp, Head(major, v) + t) == JsonBody(fp, major, Minor(v), Big(v, Width(Minor(v))) + t)
    ensures Argument(Minor(v), Big(v, Width(Minor(v))) + t) == Ok(v, t)
  {
    var minor, w := Minor(v), Big(v, Width(Minor(v)));
    assert Head(major, v) + t == [Initial(major, minor)] + (w + t);
    JsonInitial(fp, major, minor, w + t);
    ArgumentRoundTrip(v, t);
  }

  lemma TextPrints(fp: FloatPrinter, major: nat, b: bytes, rest: bytes)
    requires (major == 2 || major == 3) && |b| < TWO_64
    ensures JsonOf(fp, Head(major, |b|) + b + rest) == Ok(Quoted(b), rest)
  {
    JsonHead(fp, major, |b|, b + rest);
    assert Head(major, |b|) + b + rest == Head(major, |b|) + (b + rest);
    assert (b + rest)[..|b|] == b && (b + rest)[|b|..] == rest;
  }

  lemma ListPrints(fp: FloatPrinter, pairs: bool, n: nat, inner: bytes, text: bytes, rest: bytes)
    requires n < TWO_64 && JsonAll(fp, if pairs then 2 * n else n, inner + rest, pairs) == Ok(text, rest)
    ensures JsonOf(fp, Head(if pairs then 5 else 4, n) + inner + rest) == Ok([Open(pairs)] + text + [Close(pairs)], rest)
  {
    var major := if pairs then 5 else 4;
    JsonHead(fp, major, n, inner + rest);
    assert Head(major, n) + inner + rest == Head(major, n) + (inner + rest);
  }

  /** On the encoding of a value, followed by anything, exactly the text of the value is written. */
  lemma {:induction false} EncodedPrints(fp: FloatPrinter, v: Value, rest: bytes)
    requires Printable(v) && WellFormed(v)
    ensures JsonOf(fp, Encode(v) + rest) == Ok(Print(v), rest)
    decreases v
  {
    match v {
      case UInt(n) => JsonHead(fp, 0, n, rest);
      case NInt(n) => JsonHead(fp, 1, n, rest);
      case ByteString(b) => TextPrints(fp, 2, b, rest);
      case Text(b) => TextPrints(fp, 3, b, rest);
      case Array(vs) =>
        EncodedAllPrints(fp, vs, false, rest);
        ListPrints(fp, false, |vs|, EncodeAll(vs), PrintAll(vs, false), rest);
      case Map(vs) =>
        EncodedAllPrints(fp, vs, true, rest);
        ListPrints(fp, true, |vs| / 2, EncodeAll(vs), PrintAll(vs, true), rest);
      case Simple(k) => JsonInitial(fp, 7, k, rest);
    }
  }

  lemma {:induction false} EncodedAllPrints(fp: FloatPrinter, vs: seq<Value>, pairs: bool, rest: bytes)
    requires AllPrintable(vs) && AllWellFormed(vs)
    ensures JsonAll(fp, |vs|, EncodeAll(vs) + rest, pairs) == Ok(PrintAll(vs, pairs), rest)
    decreases vs, 1
  {
    if vs == [] {
      assert EncodeAll(vs) + rest == rest;
    } else {
      var more := EncodeAll(vs[1..]) + rest;
      assert EncodeAll(vs) + rest == Encode(vs[0]) + more;
      EncodedPrints(fp, vs[0], more);
      EncodedRestPrints(fp, vs[1..], pairs, pairs, rest);
    }
  }

  lemma {:induction false} EncodedRestPrints(fp: FloatPrinter, vs: seq<Value>, pairs: bool, value: bool, rest: bytes)
    requires AllPrintable(vs) && AllWellFormed(vs)
    ensures JsonRest(fp, |vs|, EncodeAll(vs) + rest, pairs, value) == Ok(PrintRest(vs, pairs, value), rest)
    decreases vs, 0
  {
    if vs == [] {
      assert EncodeAll(vs) + rest == rest;
    } else {
      var more := EncodeAll(vs[1..]) + rest;
      assert EncodeAll(vs) + rest == Encode(vs[0]) + more;
      EncodedPrints(fp, vs[0], more);
      EncodedRestPrints(fp, vs[1..], pairs, pairs && !value, rest);
    }
  }

  // ---------------------------------------------------------------- writing

  lemma PutTwice(p: bytes, q: bytes, r: Parse<bytes>)
    ensures Put(p, Put(q, r)) == Put(p + q, r)
  {
    if r.Ok? {
      assert p + (q + r.value) == p + q + r.value;
    }
  }

  lemma PutNone(r: Parse<bytes>)
    ensures Put([], r) == r
  {
    if r.Ok? {
      assert [] + r.value == r.value;
    }
  }

  lemma {:induction false} EscapedAppend(b: bytes, c: byte)
    ensures EscapedAll(b + [c]) == EscapedAll(b) + Escaped(c)
  {
    if b == [] {
      assert (b + [c])[1..] == [];
      assert EscapedAll([]) == [];
    } else {
      assert (b + [c])[1..] == b[1..] + [c];
      EscapedAppend(b[1..], c);
    }
  }

  /** to_json on a string. */
  method WriteString(b: bytes) returns (out: bytes)
    ensures out == Quoted(b)
  {
    out := [QUOTE];
    var i := 0;
    while i < |b|
      invariant 0 <= i <= |b| && out == [QUOTE] + EscapedAll(b[..i])
    {
      assert b[..i + 1] == b[..i] + [b[i]];
      EscapedAppend(b[..i], b[i]);
      out := out + Escaped(b[i]);
      i := i + 1;
    }
    assert b[..i] == b;
    out := out + [QUOTE];
  }

  /** What was written and where the cursor stands are as r says. */
  ghost predicate Wrote(c: Cursor, was: nat, r: Parse<bytes>, st: Status, out: bytes)
    reads c
  {
    c.Did(was, r, st) && (r.Ok? ==> out == r.value)
  }

  /** to_json_stream. */
  method Write(c: Cursor, fp: FloatPrinter) returns (st: Status, out: bytes)
    requires c.Valid()
    modifies c
    ensures Wrote(c, old(c.b), JsonOf(fp, old(c.Rest())), st, out)
    decreases |c.s| - c.b, 0
  {
    var major, minor;
    out := [];
    st, major, minor := c.DecodeType();
    if st.Fine? {
      st, out := WriteBody(c, fp, major, minor);
    }
  }

  method WriteBody(c: Cursor, fp: FloatPrinter, major: nat, minor: nat) returns (st: Status, out: bytes)
    requires c.Valid() && major < 8 && minor < 32
    modifies c
    ensures Wrote(c, old(c.b), JsonBody(fp, major, minor, old(c.Rest())), st, out)
    decreases |c.s| - c.b, 3
  {
    out := [];
    if major == 2 || major == 3 {
      var b;
      st, b := MatchString(c, minor);
      if st.Fine? {
        out := WriteString(b);
      }
      return;
    }
    if major == 7 && (minor == 20 || minor == 21 || minor == 22) {
      return Fine, if minor == 20 then FALSE_TEXT else if minor == 21 then TRUE_TEXT else NULL_TEXT;
    }
    if major == 6 || (major == 7 && !(25 <= minor <= 27)) {
      return Bad, [];
    }
    var n;
    st, n := c.DecodePint(minor);
    if !st.Fine? {
      return;
    }
    match major {
      case 0 => out := Decimal(n);
      case 1 => out := DecimalInt(Negated(n));
      case 4 => st, out := WriteArray(c, fp, n);
      case 5 => st, out := WriteMap(c, fp, n);
      case _ => out := fp(Special(minor, n));
    }
  }

  function Comma(left: nat): bytes {
    if left > 0 then [COMMA] else []
  }

  /** After a separator has been written, the remaining items are written like a list of their own. */
  lemma RestIsAll(fp: FloatPrinter, k: nat, s: bytes, pairs: bool)
    ensures JsonRest(fp, k, s, pairs, false) == Put(Comma(k), JsonAll(fp, k, s, pairs))
  {
    var x := JsonOf(fp, s);
    if k == 0 {
      PutNone(Ok([], s));
    } else if x.Ok? {
      PutTwice([COMMA], x.value, JsonRest(fp, k - 1, x.rest, pairs, pairs));
    }
  }

  lemma ItemLeft(fp: FloatPrinter, i: nat, s: bytes, x: Parse<bytes>)
    requires i > 0 && x == JsonOf(fp, s)
    ensures JsonAll(fp, i, s, false) == if x.Ok? then Put(x.value + Comma(i - 1), JsonAll(fp, i - 1, x.rest, false)) else x
  {
    if x.Ok? {
      RestIsAll(fp, i - 1, x.rest, false);
      PutTwice(x.value, Comma(i - 1), JsonAll(fp, i - 1, x.rest, false));
    }
  }

  /** The loop over the items of an array. */
  method WriteArray(c: Cursor, fp: FloatPrinter, n: nat) returns (st: Status, out: bytes)
    requires c.Valid()
    modifies c
    ensures Wrote(c, old(c.b), Bracketed(false, JsonAll(fp, n, old(c.Rest()), false)), st, out)
    decreases |c.s| - c.b, 2
  {
    ghost var r := JsonAll(fp, n, c.Rest(), false);
    var i: nat, text := n, [];
    st := Fine;
    PutNone(r);
    while i > 0
      invariant st.Fine? && i <= n && old(c.b) <= c.b <= |c.s|
      invariant r == Put(text, JsonAll(fp, i, c.Rest(), false))
      decreases i
    {
      ghost var x := JsonOf(fp, c.Rest());
      ItemLeft(fp, i, c.Rest(), x);
      var one;
      st, one := Write(c, fp);
      if !st.Fine? {
        return st, [];
      }
      i := i - 1;
      PutTwice(text, one + Comma(i), JsonAll(fp, i, c.Rest(), false));
      text := text + (one + Comma(i));
    }
    out := [OPEN_ARRAY] + text + [CLOSE_ARRAY];
    assert text + [] == text;
  }

  /** One pair of a map. */
  function PairOf(fp: FloatPrinter, s: bytes): (r: Parse<bytes>)
    ensures r.Ok? ==> |r.rest| < |s|
  {
    var x := JsonOf(fp, s);
    if !x.Ok? then x
    else
      var y := JsonOf(fp, x.rest);
      if y.Ok? then Ok(x.value + [COLON] + y.value, y.rest) else y
  }

  lemma PairLeft(fp: FloatPrinter, k: nat, s: bytes)
    ensures var p := PairOf(fp, s);
            JsonAll(fp, k + 2, s, true) == if p.Ok? then Put(p.value + Comma(k), JsonAll(fp, k, p.rest, true)) else p
  {
    var x := JsonOf(fp, s);
    if x.Ok? {
      var y := JsonOf(fp, x.rest);
      assert JsonAll(fp, k + 2, s, true) == Put(x.value, JsonRest(fp, k + 1, x.rest, true, true));
      if y.Ok? {
        assert JsonRest(fp, k + 1, x.rest, true, true) == Put([COLON] + y.value, JsonRest(fp, k, y.rest, true, false));
        RestIsAll(fp, k, y.rest, true);
        PairText(x.value, y.value, Comma(k), JsonAll(fp, k, y.rest, true));
      }
    }
  }

  lemma PairText(x: bytes, y: bytes, z: bytes, r: Parse<bytes>)
    ensures Put(x, Put([COLON] + y, Put(z, r))) == Put(x + [COLON] + y + z, r)
  {
    PutTwice([COLON] + y, z, r);
    PutTwice(x, [COLON] + y + z, r);
    assert x + ([COLON] + y + z) == x + [COLON] + y + z;
  }

  method WritePair(c: Cursor, fp: FloatPrinter) returns (st: Status, out: bytes)
    requires c.Valid()
    modifies c
    ensures Wrote(c, old(c.b), PairOf(fp, old(c.Rest())), st, out)
    decreases |c.s| - c.b, 1
  {
    var key, value;
    out := [];
    st, key := Write(c, fp);
    if st.Fine? {
      st, value := Write(c, fp);
      if st.Fine? {
        out := key + [COLON] + value;
      }
    }
  }

  /** The loop over the pairs of a map. */
  method WriteMap(c: Cursor, fp: FloatPrinter, n: nat) returns (st: Status, out: bytes)
    requires c.Valid()
    modifies c
    ensures Wrote(c, old(c.b), Bracketed(true, JsonAll(fp, 2 * n, old(c.Rest()), true)), st, out)
    decreases |c.s| - c.b, 2
  {
    ghost var r := JsonAll(fp, 2 * n, c.Rest(), true);
    var i: nat, text := n, [];
    st := Fine;
    PutNone(r);
    while i > 0
      invariant st.Fine? && i <= n && old(c.b) <= c.b <= |c.s|
      invariant r == Put(text, JsonAll(fp, 2 * i, c.Rest(), true))
      decreases i
    {
      ghost var k := 2 * (i - 1);
      PairLeft(fp, k, c.Rest());
      var one;
      st, one := WritePair(c, fp);
      if !st.Fine? {
        return st, [];
      }
      i := i - 1;
      assert Comma(i) == Comma(k);
      PutTwice(text, one + Comma(i), JsonAll(fp, k, c.Rest(), true));
      text := text + (one + Comma(i));
    }
    out := [OPEN_MAP] + text + [CLOSE_MAP];
    assert text + [] == text;
  }

  // ---------------------------------------------------------------- there and back

  /** A value is encoded, printed and parsed again: exactly its encoding is appended. */
  method PrintAndParse(v: Value, buf: Buffer, fr: FloatReader, fp: FloatPrinter) returns (ok: bool)
    requires InDomain(v) && WellFormed(v) && ReadsWords(fr) && Printable(v) && |Print(v)| < TWO_64
    modifies buf
    ensures ok && buf.data == old(buf.data) + Encode(v)
  {
    var enc := new Buffer();
    enc.Push(v);
    assert enc.data == Encode(v) + [];
    var c := new Cursor(enc.data);
    EncodedPrints(fp, v, []);
    assert c.Rest() == enc.data;
    var st, text := Write(c, fp);
    var reader := new Reader(text);
    RoundTripsThroughText(fr, v, []);
    assert reader.Rest() == text == Print(v) + [];
    ok := reader.PushValue(buf, fr);
  }
}
