/**
 The tokens of JSON as the parser of src/cbor.cpp takes them, spelled out in bytes: white space,
 numbers and strings.  The scanners read exactly these spellings, with exactly these meanings.
 */
module JsonTokens {
  import opened Bytes
  import opened Cbor
  import opened CborBuffer
  import opened JsonText
  import opened Json

  // ---------------------------------------------------------------- white space

  predicate Space(c: byte) {
    c == 0x20 || c == 0x09 || c == 0x0d || c == 0x0a
  }

  predicate Spaces(w: bytes) {
    forall c :: c in w ==> Space(c)
  }

  /** The text does not go on with more white space. */
  predicate Solid(t: bytes) {
    t == [] || !Space(t[0])
  }

  lemma {:induction false} SpacesSkipped(w: bytes, t: bytes)
    requires Spaces(w) && Solid(t)
    ensures Trim(w + t) == t
  {
    if w == [] {
      assert w + t == t;
    } else {
      assert Space(w[0]) && (w + t)[0] == w[0] && (w + t)[1..] == w[1..] + t;
      SpacesSkipped(w[1..], t);
    }
  }

  lemma {:induction false} SpacesFound(s: bytes) returns (w: bytes)
    ensures s == w + Trim(s) && Spaces(w) && Solid(Trim(s))
  {
    if s != [] && IsSpace(s[0]) {
      var v := SpacesFound(s[1..]);
      w := [s[0]] + v;
      Join([s[0]], v, Trim(s));
      assert s == [s[0]] + s[1..];
    } else {
      w := [];
    }
  }

  // ---------------------------------------------------------------- digits

  predicate Digit(c: byte) {
    0x30 <= c <= 0x39
  }

  predicate Numerals(ds: bytes) {
    ds != [] && forall c :: c in ds ==> Digit(c)
  }

  predicate EndsDigits(rest: bytes) {
    rest == [] || !Digit(rest[0])
  }

  lemma {:induction false} DigitsCounted(ds: bytes, rest: bytes)
    requires (forall c :: c in ds ==> Digit(c)) && EndsDigits(rest)
    ensures DigitCount(ds + rest) == |ds|
  {
    if ds == [] {
      assert ds + rest == rest;
    } else {
      assert Digit(ds[0]) && (ds + rest)[0] == ds[0] && (ds + rest)[1..] == ds[1..] + rest;
      DigitsCounted(ds[1..], rest);
    }
  }

  lemma DigitsRead(ds: bytes, rest: bytes)
    requires Numerals(ds) && EndsDigits(rest)
    ensures Digits(ds + rest) == Got(ds, rest)
  {
    DigitsCounted(ds, rest);
    assert (ds + rest)[..|ds|] == ds && (ds + rest)[|ds|..] == rest;
  }

  lemma {:induction false} CountedDigits(s: bytes)
    ensures var n := DigitCount(s); (forall c :: c in s[..n] ==> Digit(c)) && EndsDigits(s[n..])
  {
    if s != [] && IsDigit(s[0]) {
      CountedDigits(s[1..]);
      var n := DigitCount(s[1..]);
      assert s[..n + 1] == [s[0]] + s[1..][..n] && s[n + 1..] == s[1..][n..];
    }
  }

  lemma DigitsFound(s: bytes)
    requires Digits(s).Got?
    ensures var d := Digits(s); s == d.value + d.rest && Numerals(d.value) && EndsDigits(d.rest)
  {
    CountedDigits(s);
  }

  /** The number that decimal digits stand for. */
  function ValueOf(ds: bytes): int {
    if ds == [] then 0 else (ds[0] - 0x30) * Ten(|ds| - 1) + ValueOf(ds[1..])
  }

  lemma {:induction false} ValueLast(ds: bytes, c: byte)
    ensures ValueOf(ds + [c]) == 10 * ValueOf(ds) + (c - 0x30)
  {
    if ds == [] {
      assert ds + [c] == [c] && [c][1..] == [];
      assert Ten(0) == 1 && ValueOf([]) == 0;
    } else {
      assert (ds + [c])[0] == ds[0] && (ds + [c])[1..] == ds[1..] + [c];
      ValueLast(ds[1..], c);
      TenTimes(ds[0] as int - 0x30, |ds| - 1);
    }
  }

  lemma TenTimes(d: int, k: nat)
    ensures d * Ten(k + 1) == 10 * (d * Ten(k))
  {
  }

  lemma {:induction false} ValueIsNat(ds: bytes)
    requires AllDigits(ds)
    ensures ValueOf(ds) == NatOf(ds)
  {
    if ds != [] {
      var init, c := ds[..|ds| - 1], ds[|ds| - 1];
      ValueIsNat(init);
      ValueLast(init, c);
      assert ds == init + [c];
    }
  }

  // ---------------------------------------------------------------- numbers

  datatype Exponential = Exponential(letter: byte, sign: bytes, digits: bytes)

  /** A number as it is written. */
  datatype Number = Number(minus: bool, whole: bytes, fraction: Option<bytes>, power: Option<Exponential>)

  predicate PowerSpelled(p: Exponential) {
    (p.letter == 0x65 || p.letter == 0x45) && (p.sign == [] || p.sign == [0x2b] || p.sign == [0x2d]) && Numerals(p.digits)
  }

  predicate NumberSpelled(t: Number) {
    Numerals(t.whole) && (t.fraction.Some? ==> Numerals(t.fraction.value)) && (t.power.Some? ==> PowerSpelled(t.power.value))
  }

  function MinusText(t: Number): bytes {
    if t.minus then [0x2d] else []
  }

  function FractionText(t: Number): bytes {
    if t.fraction.Some? then [0x2e] + t.fraction.value else []
  }

  function PowerText(t: Number): bytes {
    if t.power.Some? then [t.power.value.letter] + (t.power.value.sign + t.power.value.digits) else []
  }

  /** The letter of an exponent is taken as a small one. */
  function PowerTaken(t: Number): bytes {
    if t.power.Some? then [0x65] + (t.power.value.sign + t.power.value.digits) else []
  }

  function NumberText(t: Number): bytes {
    MinusText(t) + (t.whole + (FractionText(t) + PowerText(t)))
  }

  /** What is handed to the conversion. */
  function NumberTaken(t: Number): bytes {
    MinusText(t) + t.whole + FractionText(t) + PowerTaken(t)
  }

  /** The number ends here: it could not be read on. */
  predicate NumberEnds(t: Number, rest: bytes) {
    && EndsDigits(rest)
    && (rest != [] && t.power.None? ==> rest[0] != 0x65 && rest[0] != 0x45)
    && (rest != [] && t.power.None? && t.fraction.None? ==> rest[0] != 0x2e)
  }

  /** At most 64 characters; with a fraction or an exponent a double, as the reader of doubles says, and
      otherwise an integer of 64 bits. */
  function NumberMeans(fr: FloatReader, t: Number): Option<Value> {
    if |NumberTaken(t)| > 64 then None
    else if t.fraction.Some? || t.power.Some? then
      (if fr(NumberTaken(t)).Some? then Some(Double(fr(NumberTaken(t)).value)) else None)
    else
      var i := if t.minus then -ValueOf(t.whole) else ValueOf(t.whole);
      if i < 0 && i >= -0x8000_0000_0000_0000 then Some(NInt(-1 - i))
      else if 0 <= i < 0x8000_0000_0000_0000 then Some(UInt(i))
      else None
  }

  lemma SignRead(minus: bool, s: bytes)
    requires s != [] && Digit(s[0])
    ensures var sign := if minus then [0x2d] else []; Sign(sign + s) == Got(sign, s)
  {
    assert ([0x2d] + s)[1..] == s;
    assert [] + s == s;
  }

  lemma FractionRead(t: Number, rest: bytes)
    requires NumberSpelled(t) && EndsDigits(rest) && (t.fraction.None? && rest != [] ==> rest[0] != 0x2e)
    ensures Fraction(FractionText(t) + rest) == Got(FractionText(t), rest)
  {
    if t.fraction.Some? {
      var ds := t.fraction.value;
      DigitsRead(ds, rest);
      assert ([0x2e] + ds + rest)[1..] == ds + rest;
    } else {
      assert [] + rest == rest;
    }
  }

  lemma Join(a: bytes, b: bytes, c: bytes)
    ensures a + (b + c) == (a + b) + c
  {
  }

  lemma PowerDigits(sign: bytes, ds: bytes, rest: bytes)
    requires (sign == [] || sign == [0x2b] || sign == [0x2d]) && Numerals(ds) && EndsDigits(rest)
    ensures Power(sign + (ds + rest)) == Got(sign + ds, rest)
  {
    var u := sign + (ds + rest);
    assert Digit(ds[0]) && (ds + rest)[0] == ds[0];
    assert u[|sign|..] == ds + rest;
    DigitsRead(ds, rest);
  }

  lemma ExponentRead(letter: byte, u: bytes, v: bytes, rest: bytes)
    requires (letter == 0x65 || letter == 0x45) && Power(u) == Got(v, rest)
    ensures Exponent([letter] + u) == Got([0x65] + v, rest)
  {
    assert ([letter] + u)[1..] == u;
  }

  lemma PowerRead(t: Number, rest: bytes)
    requires NumberSpelled(t) && EndsDigits(rest) && (t.power.None? && rest != [] ==> rest[0] != 0x65 && rest[0] != 0x45)
    ensures Exponent(PowerText(t) + rest) == Got(PowerTaken(t), rest)
  {
    if t.power.Some? {
      var p := t.power.value;
      PowerDigits(p.sign, p.digits, rest);
      ExponentRead(p.letter, p.sign + (p.digits + rest), p.sign + p.digits, rest);
      Join(p.sign, p.digits, rest);
      Join([p.letter], p.sign + p.digits, rest);
    } else {
      assert [] + rest == rest;
    }
  }

  /** The parts of a number, one after the other. */
  lemma PartsScanned(s: bytes, x: bytes, a: bytes, w: bytes, b: bytes, f: bytes, c: bytes, e: bytes, rest: bytes)
    requires Sign(s) == Got(x, a) && Digits(a) == Got(w, b) && Fraction(b) == Got(f, c) && Exponent(c) == Got(e, rest)
    ensures ScanNumber(s) == Got(Numeral(x + w + f + e, f != [] || e != []), rest)
  {
  }

  lemma TextSplits(t: Number, rest: bytes)
    ensures NumberText(t) + rest == MinusText(t) + (t.whole + (FractionText(t) + (PowerText(t) + rest)))
  {
    Join(FractionText(t), PowerText(t), rest);
    Join(t.whole, FractionText(t) + PowerText(t), rest);
    Join(MinusText(t), t.whole + (FractionText(t) + PowerText(t)), rest);
  }

  /** The scanner reads a number that is spelled out and ends. */
  lemma NumberScanned(t: Number, rest: bytes)
    requires NumberSpelled(t) && NumberEnds(t, rest)
    ensures ScanNumber(NumberText(t) + rest) == Got(Numeral(NumberTaken(t), t.fraction.Some? || t.power.Some?), rest)
  {
    var c := PowerText(t) + rest;
    var b := FractionText(t) + c;
    var a := t.whole + b;
    TextSplits(t, rest);
    assert Sign(MinusText(t) + a) == Got(MinusText(t), a) by {
      assert Digit(t.whole[0]) && a[0] == t.whole[0];
      SignRead(t.minus, a);
    }
    PowerRead(t, rest);
    AfterFraction(t, rest);
    FractionRead(t, c);
    DigitsRead(t.whole, b);
    PartsScanned(MinusText(t) + a, MinusText(t), a, t.whole, b, FractionText(t), c, PowerTaken(t), rest);
  }

  lemma AfterFraction(t: Number, rest: bytes)
    requires NumberSpelled(t) && NumberEnds(t, rest)
    ensures var c := PowerText(t) + rest;
            EndsDigits(c) && EndsDigits(FractionText(t) + c) && (t.fraction.None? && c != [] ==> c[0] != 0x2e)
  {
    if t.power.None? {
      assert [] + rest == rest;
    }
    if t.fraction.None? {
      assert [] + (PowerText(t) + rest) == PowerText(t) + rest;
    }
  }

  lemma SignFound(s: bytes) returns (minus: bool)
    ensures var sign := if minus then [0x2d] else []; Sign(s) == Got(sign, Sign(s).rest) && s == sign + Sign(s).rest
  {
    minus := s != [] && s[0] == MINUS;
    if minus {
      assert s == [s[0]] + s[1..];
    } else {
      assert s == [] + s;
    }
  }

  lemma FractionFound(s: bytes) returns (f: Option<bytes>)
    requires Fraction(s).Got? && EndsDigits(s)
    ensures var r := Fraction(s).rest;
            && s == (if f.Some? then [0x2e] + f.value else []) + r && Fraction(s).value == (if f.Some? then [0x2e] + f.value else [])
            && (f.Some? ==> Numerals(f.value)) && EndsDigits(r) && (f.None? && r != [] ==> r[0] != 0x2e)
  {
    if s != [] && s[0] == DOT {
      DigitsFound(s[1..]);
      f := Some(Digits(s[1..]).value);
      assert s == [s[0]] + s[1..];
      assert [0x2e] + (f.value + Fraction(s).rest) == [0x2e] + f.value + Fraction(s).rest;
    } else {
      f := None;
      assert s == [] + s;
    }
  }

  lemma PowerFound(s: bytes) returns (p: Option<Exponential>)
    requires Exponent(s).Got? && EndsDigits(s)
    ensures var r := Exponent(s).rest;
            && (p.Some? ==> PowerSpelled(p.value)) && EndsDigits(r) && (p.None? && r != [] ==> r[0] != 0x65 && r[0] != 0x45)
            && s == (if p.Some? then [p.value.letter] + (p.value.sign + p.value.digits) else []) + r
            && Exponent(s).value == if p.Some? then [0x65] + (p.value.sign + p.value.digits) else []
  {
    if s != [] && (s[0] == LETTER_E || s[0] == 69) {
      var sign, ds := PowerParts(s[1..]);
      p := Some(Exponential(s[0], sign, ds));
      assert s == [s[0]] + s[1..];
      Join([s[0]], sign + ds, Exponent(s).rest);
    } else {
      p := None;
      assert s == [] + s;
    }
  }

  lemma PowerParts(t: bytes) returns (sign: bytes, ds: bytes)
    requires Power(t).Got?
    ensures (sign == [] || sign == [0x2b] || sign == [0x2d]) && Numerals(ds) && EndsDigits(Power(t).rest)
    ensures t == (sign + ds) + Power(t).rest && Power(t).value == sign + ds
  {
    sign := if t != [] && (t[0] == PLUS || t[0] == MINUS) then [t[0]] else [];
    DigitsFound(t[|sign|..]);
    ds := Digits(t[|sign|..]).value;
    assert t == sign + t[|sign|..];
    Join(sign, ds, Power(t).rest);
  }

  /** What the scanner reads is a number spelled out, and it reads on as far as it can. */
  lemma NumberFound(s: bytes) returns (t: Number)
    requires ScanNumber(s).Got?
    ensures NumberSpelled(t) && NumberEnds(t, ScanNumber(s).rest) && s == NumberText(t) + ScanNumber(s).rest
    ensures ScanNumber(s).value == Numeral(NumberTaken(t), t.fraction.Some? || t.power.Some?)
  {
    var minus := SignFound(s);
    var a := Sign(s).rest;
    DigitsFound(a);
    var w, b := Digits(a).value, Digits(a).rest;
    var f := FractionFound(b);
    var c := Fraction(b).rest;
    var p := PowerFound(c);
    var rest := Exponent(c).rest;
    t := Number(minus, w, f, p);
    PartsScanned(s, MinusText(t), a, w, b, FractionText(t), c, PowerTaken(t), rest);
    TextSplits(t, rest);
    EndsAfter(t, b, c, rest);
  }

  lemma EndsAfter(t: Number, b: bytes, c: bytes, rest: bytes)
    requires b == FractionText(t) + c && c == PowerText(t) + rest && EndsDigits(rest)
    requires t.fraction.None? && c != [] ==> c[0] != 0x2e
    requires t.power.None? && rest != [] ==> rest[0] != 0x65 && rest[0] != 0x45
    ensures NumberEnds(t, rest)
  {
    if t.power.None? {
      assert c == rest;
    }
  }

  /** And its value is the one that it is taken for. */
  lemma NumberValued(fr: FloatReader, t: Number)
    requires NumberSpelled(t)
    ensures NumberValue(fr, Numeral(NumberTaken(t), t.fraction.Some? || t.power.Some?)) == NumberMeans(fr, t)
  {
    if t.fraction.None? && t.power.None? {
      assert NumberTaken(t) == MinusText(t) + t.whole;
      IntegerValued(t.minus, t.whole);
    }
  }

  lemma IntegerValued(minus: bool, ds: bytes)
    requires Numerals(ds)
    ensures var i := if minus then -ValueOf(ds) else ValueOf(ds);
            IntOf((if minus then [0x2d] else []) + ds) == if Int64(i) then Some(i) else None
  {
    assert Digit(ds[0]);
    assert AllDigits(ds);
    ValueIsNat(ds);
    if minus {
      assert ([0x2d] + ds)[1..] == ds;
    } else {
      assert [] + ds == ds;
    }
  }

  // ---------------------------------------------------------------- strings

  datatype Char = Plain(c: byte) | Escape(c: byte)

  predicate CharSpelled(ch: Char) {
    ch.Plain? ==> ch.c != 0x22 && ch.c != 0x5c
  }

  function CharText(ch: Char): bytes {
    if ch.Plain? then [ch.c] else [0x5c, ch.c]
  }

  /** The letters b, f, n, r and t stand for control characters after a backslash, and everything else for
      itself. */
  function CharMeans(ch: Char): byte {
    if ch.Plain? then ch.c
    else if ch.c == 0x62 then 0x08
    else if ch.c == 0x66 then 0x0c
    else if ch.c == 0x6e then 0x0a
    else if ch.c == 0x72 then 0x0d
    else if ch.c == 0x74 then 0x09
    else ch.c
  }

  predicate CharsSpelled(cs: seq<Char>) {
    forall ch :: ch in cs ==> CharSpelled(ch)
  }

  function CharsText(cs: seq<Char>): bytes {
    if cs == [] then [] else CharText(cs[0]) + CharsText(cs[1..])
  }

  function CharsMean(cs: seq<Char>): bytes {
    if cs == [] then [] else [CharMeans(cs[0])] + CharsMean(cs[1..])
  }

  lemma {:induction false} StringScanned(cs: seq<Char>, rest: bytes)
    requires CharsSpelled(cs)
    ensures ScanString(CharsText(cs) + ([0x22] + rest)) == Got(CharsMean(cs), rest)
  {
    if cs == [] {
      assert CharsText(cs) + ([0x22] + rest) == [0x22] + rest;
      assert ([0x22] + rest)[1..] == rest;
    } else {
      var s := CharsText(cs[1..]) + ([0x22] + rest);
      StringScanned(cs[1..], rest);
      assert CharSpelled(cs[0]);
      assert CharsText(cs) + ([0x22] + rest) == CharText(cs[0]) + s;
      if cs[0].Plain? {
        PlainChar(cs[0].c, s);
      } else {
        EscapedChar(cs[0].c, s);
      }
    }
  }

  lemma {:induction false} StringFound(s: bytes) returns (cs: seq<Char>)
    requires ScanString(s).Got?
    ensures CharsSpelled(cs) && s == CharsText(cs) + ([0x22] + ScanString(s).rest) && ScanString(s).value == CharsMean(cs)
  {
    if s[0] == QUOTE {
      cs := [];
      assert s == [s[0]] + s[1..];
    } else if s[0] == BACKSLASH {
      cs := StringFound(s[2..]);
      CharAdded(Escape(s[1]), cs, ScanString(s).rest);
      cs := [Escape(s[1])] + cs;
      assert s == [s[0], s[1]] + s[2..];
    } else {
      cs := StringFound(s[1..]);
      CharAdded(Plain(s[0]), cs, ScanString(s).rest);
      cs := [Plain(s[0])] + cs;
      assert s == [s[0]] + s[1..];
    }
  }

  lemma CharAdded(ch: Char, cs: seq<Char>, rest: bytes)
    ensures CharsText([ch] + cs) + ([0x22] + rest) == CharText(ch) + (CharsText(cs) + ([0x22] + rest))
    ensures CharsMean([ch] + cs) == [CharMeans(ch)] + CharsMean(cs)
  {
    assert ([ch] + cs)[1..] == cs;
  }
}
