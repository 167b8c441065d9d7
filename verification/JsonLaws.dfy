/**
 Printing and then parsing: exactly what comes back, for every value, and the values for which it
 is the identity.
 */
module JsonLaws {
  import opened Bytes
  import opened Cbor
  import opened CborBuffer
  import opened JsonText
  import opened Json

  /** What may stand after a printed value inside a printed text. */
  predicate Delimits(rest: bytes) {
    rest == [] || rest[0] == COMMA || rest[0] == COLON || rest[0] == CLOSE_ARRAY || rest[0] == CLOSE_MAP
  }

  // ---------------------------------------------------------------- numbers

  lemma {:induction false} DigitRun(ds: bytes, rest: bytes)
    requires AllDigits(ds) && Delimits(rest)
    ensures DigitCount(ds + rest) == |ds|
  {
    if ds == [] {
      assert ds + rest == rest;
    } else {
      assert IsDigit(ds[0]);
      assert (ds + rest)[1..] == ds[1..] + rest;
      DigitRun(ds[1..], rest);
    }
  }

  lemma DigitsRead(ds: bytes, rest: bytes)
    requires AllDigits(ds) && ds != [] && Delimits(rest)
    ensures Digits(ds + rest) == Got(ds, rest)
  {
    DigitRun(ds, rest);
    assert (ds + rest)[..|ds|] == ds && (ds + rest)[|ds|..] == rest;
  }

  lemma NatToken(ds: bytes, rest: bytes)
    requires AllDigits(ds) && ds != [] && Delimits(rest)
    ensures ScanNumber(ds + rest) == Got(Numeral(ds, false), rest)
  {
    assert Sign(ds + rest) == Got([], ds + rest) by { assert IsDigit(ds[0]); }
    DigitsRead(ds, rest);
    assert Fraction(rest) == Got([], rest) && Exponent(rest) == Got([], rest);
    assert [] + ds + [] + [] == ds;
  }

  lemma NegativeToken(ds: bytes, rest: bytes)
    requires AllDigits(ds) && ds != [] && Delimits(rest)
    ensures ScanNumber([MINUS] + (ds + rest)) == Got(Numeral([MINUS] + ds, false), rest)
  {
    assert ([MINUS] + (ds + rest))[1..] == ds + rest;
    DigitsRead(ds, rest);
    assert Fraction(rest) == Got([], rest) && Exponent(rest) == Got([], rest);
    assert [MINUS] + ds + [] + [] == [MINUS] + ds;
  }

  lemma NatValue(n: nat)
    ensures IntOf(Decimal(n)) == if n < TWO_63 then Some(n) else None
  {
    DecimalRoundTrip(n);
    assert IsDigit(Decimal(n)[0]);
  }

  lemma NegativeValue(n: nat)
    ensures IntOf([MINUS] + Decimal(n)) == if n <= TWO_63 then Some(0 - n) else None
  {
    DecimalRoundTrip(n);
    assert ([MINUS] + Decimal(n))[1..] == Decimal(n);
  }

  /** What push_json_number makes of an integer token. */
  lemma IntegerMeans(fr: FloatReader, s: bytes, text: bytes, rest: bytes, i: Option<int>)
    requires ScanNumber(s) == Got(Numeral(text, false), rest) && |text| <= NUMBER_MAX && IntOf(text) == i
    ensures ParseNumber(fr, s) == if i.Some? then Got(OfInt(i.value), rest) else Fail
  {
  }

  lemma NatParses(fr: FloatReader, n: nat, rest: bytes)
    requires n < TWO_64 && Delimits(rest)
    ensures ParseNumber(fr, Decimal(n) + rest) == if n < TWO_63 then Got(UInt(n), rest) else Fail
  {
    DecimalShort(n);
    NatToken(Decimal(n), rest);
    NatValue(n);
    IntegerMeans(fr, Decimal(n) + rest, Decimal(n), rest, IntOf(Decimal(n)));
  }

  lemma NegativeParses(fr: FloatReader, n: nat, rest: bytes)
    requires 0 < n < TWO_64 && Delimits(rest)
    ensures ParseNumber(fr, [MINUS] + Decimal(n) + rest) == if n <= TWO_63 then Got(NInt(n - 1), rest) else Fail
  {
    var text := [MINUS] + Decimal(n);
    assert ScanNumber(text + rest) == Got(Numeral(text, false), rest) by {
      NegativeToken(Decimal(n), rest);
      assert text + rest == [MINUS] + (Decimal(n) + rest);
    }
    assert |text| <= NUMBER_MAX by { DecimalShort(n); }
    assert IntOf(text) == (if n <= TWO_63 then Some(0 - n) else None) by { NegativeValue(n); }
    IntegerMeans(fr, text + rest, text, rest, IntOf(text));
  }

  lemma NumberParses(fr: FloatReader, i: int, rest: bytes)
    requires 0 - TWO_64 < i < TWO_64 && Delimits(rest)
    ensures ParseNumber(fr, DecimalInt(i) + rest) == if Int64(i) then Got(OfInt(i), rest) else Fail
  {
    if i < 0 {
      NegativeParses(fr, -i, rest);
    } else {
      NatParses(fr, i, rest);
    }
  }

  // ---------------------------------------------------------------- every value

  /** The first character of a printed value is one that the parser dispatches on. */
  lemma Starts(v: Value)
    requires Printable(v)
    ensures Print(v) != []
    ensures var c := Print(v)[0];
            !IsSpace(c) && c != COMMA && c != COLON && c != CLOSE_ARRAY && c != CLOSE_MAP
  {
    match v {
      case UInt(n) => assert IsDigit(Decimal(n)[0]);
      case NInt(n) => if Negated(n) >= 0 { assert IsDigit(Decimal(Negated(n))[0]); }
      case _ =>
    }
  }

  function Expected(image: Option<Value>, rest: bytes): Scan<Value> {
    if image.Some? then Got(image.value, rest) else Fail
  }

  function ExpectedAll(image: Option<seq<Value>>, rest: bytes): Scan<seq<Value>> {
    if image.Some? then Got(image.value, rest) else Fail
  }

  lemma IntParses(fr: FloatReader, i: int, rest: bytes)
    requires 0 - TWO_64 < i < TWO_64 && Delimits(rest)
    ensures ParseValue(fr, DecimalInt(i) + rest) == if Int64(i) then Got(OfInt(i), rest) else Fail
  {
    var s := DecimalInt(i) + rest;
    assert IsDigit(s[0]) || s[0] == MINUS by {
      if i >= 0 {
        assert IsDigit(Decimal(i)[0]);
      }
    }
    assert Trim(s) == s;
    NumberParses(fr, i, rest);
  }

  lemma TextParses(fr: FloatReader, b: bytes, rest: bytes)
    ensures ParseValue(fr, [QUOTE] + EscapedAll(b) + [QUOTE] + rest) == Got(Text(RereadAll(b)), rest)
  {
    RereadString(b, rest);
    var s := [QUOTE] + EscapedAll(b) + [QUOTE] + rest;
    assert Trim(s) == s;
    assert s[1..] == EscapedAll(b) + [QUOTE] + rest;
  }

  lemma KeywordParses(fr: FloatReader, k: nat, rest: bytes)
    requires k == 20 || k == 21 || k == 22
    ensures ParseValue(fr, Print(Simple(k)) + rest) == Got(Simple(k), rest)
  {
    var w := Print(Simple(k));
    var s := w + rest;
    assert Trim(s) == s;
    assert s[..|w|] == w && s[|w|..] == rest;
    assert s[0] == w[0];
    if k != 20 {
      assert !StartsWith(s, FALSE_TEXT) by { assert FALSE_TEXT[0] != s[0]; }
    }
    if k == 22 {
      assert !StartsWith(s, TRUE_TEXT) by { assert TRUE_TEXT[0] != s[0]; }
    }
  }

  /** The printed text of any value, followed by a delimiter or nothing, parses as its image. */
  lemma {:induction false} PrintedParses(fr: FloatReader, v: Value, rest: bytes)
    requires Printable(v) && WellFormed(v) && Delimits(rest)
    ensures ParseValue(fr, Print(v) + rest) == Expected(Image(v), rest)
    decreases v
  {
    match v {
      case UInt(n) =>
        assert DecimalInt(n) == Print(v);
        IntParses(fr, n, rest);
      case NInt(n) =>
        NegatedExact(n);
        IntParses(fr, Negated(n), rest);
      case ByteString(b) => TextParses(fr, b, rest);
      case Text(b) => TextParses(fr, b, rest);
      case Array(vs) =>
        PrintedListParses(fr, vs, false, rest);
        ArrayParses(fr, vs, PrintAll(vs, false) + [CLOSE_ARRAY] + rest, rest);
      case Map(vs) =>
        PrintedListParses(fr, vs, true, rest);
        MapParses(fr, vs, PrintAll(vs, true) + [CLOSE_MAP] + rest, rest);
      case Simple(k) => KeywordParses(fr, k, rest);
    }
  }

  lemma Bracket(open: byte, inner: bytes, close: byte, rest: bytes)
    ensures [open] + inner + [close] + rest == [open] + (inner + [close] + rest)
  {
  }

  lemma ListImage(vs: seq<Value>, q: Scan<seq<Value>>, rest: bytes)
    requires AllPrintable(vs) && q == ExpectedAll(ImageAll(vs), rest)
    ensures q.Fail? <==> ImageAll(vs).None?
    ensures q.Got? ==> |q.value| == |vs| && q == Got(ImageAll(vs).value, rest)
  {
  }

  lemma ArrayParses(fr: FloatReader, vs: seq<Value>, t: bytes, rest: bytes)
    requires AllPrintable(vs) && t == PrintAll(vs, false) + [CLOSE_ARRAY] + rest
    requires ParseList(fr, t, false) == ExpectedAll(ImageAll(vs), rest)
    ensures ParseValue(fr, Print(Array(vs)) + rest) == Expected(Image(Array(vs)), rest)
  {
    Bracket(OPEN_ARRAY, PrintAll(vs, false), CLOSE_ARRAY, rest);
    ArrayDispatch(fr, t);
    ListImage(vs, ParseList(fr, t, false), rest);
  }

  lemma ArrayDispatch(fr: FloatReader, t: bytes)
    ensures var q := ParseList(fr, t, false);
            ParseValue(fr, [OPEN_ARRAY] + t) == if q.Fail? then Fail else Got(Array(q.value), q.rest)
  {
    var s := [OPEN_ARRAY] + t;
    assert Trim(s) == s && s[1..] == t;
  }

  lemma MapParses(fr: FloatReader, vs: seq<Value>, t: bytes, rest: bytes)
    requires AllPrintable(vs) && |vs| % 2 == 0 && t == PrintAll(vs, true) + [CLOSE_MAP] + rest
    requires ParseList(fr, t, true) == ExpectedAll(ImageAll(vs), rest)
    ensures ParseValue(fr, Print(Map(vs)) + rest) == Expected(Image(Map(vs)), rest)
  {
    Bracket(OPEN_MAP, PrintAll(vs, true), CLOSE_MAP, rest);
    MapDispatch(fr, t);
    ListImage(vs, ParseList(fr, t, true), rest);
  }

  lemma MapDispatch(fr: FloatReader, t: bytes)
    ensures var q := ParseList(fr, t, true);
            ParseValue(fr, [OPEN_MAP] + t) == if q.Fail? || |q.value| % 2 != 0 then Fail else Got(Map(q.value), q.rest)
  {
    var s := [OPEN_MAP] + t;
    assert Trim(s) == s && s[1..] == t;
  }

  /** What follows a printed value in a list. */
  function Remainder(vs: seq<Value>, pairs: bool, value: bool, rest: bytes): bytes
    requires AllPrintable(vs)
  {
    PrintRest(vs, pairs, value) + [Close(pairs)] + rest
  }

  lemma {:induction false} PrintedListParses(fr: FloatReader, vs: seq<Value>, pairs: bool, rest: bytes)
    requires AllPrintable(vs) && AllWellFormed(vs)
    ensures ParseList(fr, PrintAll(vs, pairs) + [Close(pairs)] + rest, pairs) == ExpectedAll(ImageAll(vs), rest)
    decreases vs, 1
  {
    var s := PrintAll(vs, pairs) + [Close(pairs)] + rest;
    if vs == [] {
      assert s == [Close(pairs)] + rest;
      assert Trim(s) == s && s[1..] == rest;
    } else {
      var r := Remainder(vs[1..], pairs, pairs, rest);
      assert s == Print(vs[0]) + r;
      assert Trim(s) == s && s[0] != Close(pairs) by { Starts(vs[0]); }
      PrintedParses(fr, vs[0], r);
      PrintedItemsParse(fr, vs[1..], pairs, pairs, rest);
      FirstItem(fr, s, pairs, Image(vs[0]), r, ImageAll(vs[1..]), rest);
      ImageCons(vs, rest);
    }
  }

  lemma FirstItem(fr: FloatReader, s: bytes, pairs: bool, x: Option<Value>, r: bytes, xs: Option<seq<Value>>, rest: bytes)
    requires s != [] && Trim(s) == s && s[0] != Close(pairs)
    requires ParseValue(fr, s) == Expected(x, r) && ParseItems(fr, r, pairs) == ExpectedAll(xs, rest)
    ensures ParseList(fr, s, pairs) == Joined(x, xs, rest)
  {
  }

  /** The parse of a first value and of the rest, together. */
  function Joined(x: Option<Value>, xs: Option<seq<Value>>, rest: bytes): Scan<seq<Value>> {
    if x.Some? then ConsValue(x.value, ExpectedAll(xs, rest)) else Fail
  }

  lemma ImageCons(vs: seq<Value>, rest: bytes)
    requires vs != [] && AllPrintable(vs)
    ensures ExpectedAll(ImageAll(vs), rest) == Joined(Image(vs[0]), ImageAll(vs[1..]), rest)
  {
  }

  lemma {:induction false} PrintedItemsParse(fr: FloatReader, vs: seq<Value>, pairs: bool, value: bool, rest: bytes)
    requires AllPrintable(vs) && AllWellFormed(vs) && (value ==> pairs)
    ensures ParseItems(fr, Remainder(vs, pairs, value, rest), pairs) == ExpectedAll(ImageAll(vs), rest)
    decreases vs, 0
  {
    var s := Remainder(vs, pairs, value, rest);
    if vs == [] {
      assert s == [Close(pairs)] + rest;
      assert Trim(s) == s && s[1..] == rest;
    } else {
      var r := Remainder(vs[1..], pairs, pairs && !value, rest);
      var t := Print(vs[0]) + r;
      var sep := if value then COLON else COMMA;
      RemainderSplits(vs, pairs, value, rest);
      assert t != [] && Trim(t) == t && !IsSeparator(pairs, t[0]) && t[0] != Close(pairs) by { Starts(vs[0]); }
      PrintedParses(fr, vs[0], r);
      PrintedItemsParse(fr, vs[1..], pairs, pairs && !value, rest);
      NextItem(fr, sep, t, pairs, Image(vs[0]), r, ImageAll(vs[1..]), rest);
      ImageCons(vs, rest);
    }
  }

  lemma RemainderSplits(vs: seq<Value>, pairs: bool, value: bool, rest: bytes)
    requires vs != [] && AllPrintable(vs)
    ensures Remainder(vs, pairs, value, rest) ==
              [if value then COLON else COMMA] + (Print(vs[0]) + Remainder(vs[1..], pairs, pairs && !value, rest))
  {
  }

  lemma NextItem(fr: FloatReader, sep: byte, t: bytes, pairs: bool, x: Option<Value>, r: bytes, xs: Option<seq<Value>>, rest: bytes)
    requires IsSeparator(pairs, sep) && t != [] && Trim(t) == t && !IsSeparator(pairs, t[0]) && t[0] != Close(pairs)
    requires ParseValue(fr, t) == Expected(x, r) && ParseItems(fr, r, pairs) == ExpectedAll(xs, rest)
    ensures ParseItems(fr, [sep] + t, pairs) == Joined(x, xs, rest)
  {
    var s := [sep] + t;
    assert Trim(s) == s && s[1..] == t;
    assert ParseItems(fr, t, pairs) == Joined(x, xs, rest);
  }

  // ---------------------------------------------------------------- the identity

  /** Printing and parsing gives a value back exactly when it is in the domain. */
  lemma {:induction false} ImageExact(v: Value)
    requires Printable(v) && WellFormed(v)
    ensures Image(v) == Some(v) <==> InDomain(v)
    decreases v
  {
    match v {
      case NInt(n) => NegatedExact(n);
      case Text(b) => RereadExact(b);
      case Array(vs) => ImageAllExact(vs);
      case Map(vs) => ImageAllExact(vs);
      case _ =>
    }
  }

  lemma {:induction false} ImageAllExact(vs: seq<Value>)
    requires AllPrintable(vs) && AllWellFormed(vs)
    ensures ImageAll(vs) == Some(vs) <==> forall x :: x in vs ==> InDomain(x)
    decreases vs
  {
    if vs != [] {
      ImageExact(vs[0]);
      ImageAllExact(vs[1..]);
      assert vs == [vs[0]] + vs[1..];
    }
  }

  lemma {:induction false} DomainPrintable(v: Value)
    requires InDomain(v)
    ensures Printable(v)
    decreases v
  {
    match v {
      case Array(vs) => forall x | x in vs ensures Printable(x) { DomainPrintable(x); }
      case Map(vs) => forall x | x in vs ensures Printable(x) { DomainPrintable(x); }
      case _ =>
    }
  }

  /** The round trip: a value in the domain is printed as a text that parses as that value, whatever
      delimiter follows. */
  lemma RoundTripsThroughText(fr: FloatReader, v: Value, rest: bytes)
    requires InDomain(v) && WellFormed(v) && Delimits(rest)
    ensures Printable(v) && ParseValue(fr, Print(v) + rest) == Got(v, rest)
  {
    DomainPrintable(v);
    PrintedParses(fr, v, rest);
    ImageExact(v);
  }
}
