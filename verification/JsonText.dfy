/**
 The lexical level of JSON: white space, numbers, strings and keywords, on bytes.
 */
module JsonText {
  import opened Bytes
  import opened CborBuffer

  const QUOTE: byte := 34
  const PLUS: byte := 43
  const COMMA: byte := 44
  const MINUS: byte := 45
  const DOT: byte := 46
  const COLON: byte := 58
  const LETTER_E: byte := 101
  const LETTER_U: byte := 117
  const OPEN_ARRAY: byte := 91
  const BACKSLASH: byte := 92
  const CLOSE_ARRAY: byte := 93
  const OPEN_MAP: byte := 123
  const CLOSE_MAP: byte := 125

  const FALSE_TEXT: bytes := [102, 97, 108, 115, 101]
  const TRUE_TEXT: bytes := [116, 114, 117, 101]
  const NULL_TEXT: bytes := [110, 117, 108, 108]

  const NUMBER_MAX: nat := 64

  /** A result and the text after it. */
  datatype Scan<T> = Got(value: T, rest: bytes) | Fail

  predicate IsSpace(c: byte) {
    c == 32 || c == 9 || c == 13 || c == 10
  }

  predicate IsDigit(c: byte) {
    48 <= c <= 57
  }

  /** skip_wsp. */
  function Trim(s: bytes): (r: bytes)
    ensures |r| <= |s|
    ensures r == [] || !IsSpace(r[0])
  {
    if s != [] && IsSpace(s[0]) then Trim(s[1..]) else s
  }

  /** match_literal. */
  predicate StartsWith(s: bytes, lit: bytes) {
    |lit| <= |s| && s[..|lit|] == lit
  }

  // ---------------------------------------------------------------- numbers

  /** How many digits the text starts with. */
  function DigitCount(s: bytes): (n: nat)
    ensures n <= |s|
  {
    if s != [] && IsDigit(s[0]) then 1 + DigitCount(s[1..]) else 0
  }

  /** match_digits: at least one digit. */
  function Digits(s: bytes): (r: Scan<bytes>)
    ensures r.Got? ==> |r.rest| < |s|
  {
    var n := DigitCount(s);
    if n == 0 then Fail else Got(s[..n], s[n..])
  }

  /** A number as collected from the text, and whether it has a fraction or an exponent. */
  datatype Numeral = Numeral(text: bytes, float: bool)

  function Sign(s: bytes): (r: Scan<bytes>)
    ensures r.Got? && |r.rest| <= |s|
  {
    if s != [] && s[0] == MINUS then Got([MINUS], s[1..]) else Got([], s)
  }

  function Fraction(s: bytes): (r: Scan<bytes>)
    ensures r.Got? ==> |r.rest| <= |s|
  {
    if s != [] && s[0] == DOT then
      var d := Digits(s[1..]);
      if d.Fail? then Fail else Got([DOT] + d.value, d.rest)
    else Got([], s)
  }

  /** The digits of an exponent with their sign, if there is one. */
  function Power(s: bytes): (r: Scan<bytes>)
    ensures r.Got? ==> |r.rest| <= |s|
  {
    var sign := if s != [] && (s[0] == PLUS || s[0] == MINUS) then [s[0]] else [];
    var d := Digits(s[|sign|..]);
    if d.Fail? then Fail else Got(sign + d.value, d.rest)
  }

  /** The exponent letter is always collected in lower case. */
  function Exponent(s: bytes): (r: Scan<bytes>)
    ensures r.Got? ==> |r.rest| <= |s|
  {
    if s != [] && (s[0] == LETTER_E || s[0] == 69) then
      var d := Power(s[1..]);
      if d.Fail? then Fail else Got([LETTER_E] + d.value, d.rest)
    else Got([], s)
  }

  /** The token part of push_json_number. */
  function ScanNumber(s: bytes): (r: Scan<Numeral>)
    ensures r.Got? ==> |r.rest| < |s|
  {
    var a := Sign(s);
    var b := Digits(a.rest);
    if b.Fail? then Fail
    else
      var c := Fraction(b.rest);
      if c.Fail? then Fail
      else
        var d := Exponent(c.rest);
        if d.Fail? then Fail
        else Got(Numeral(a.value + b.value + c.value + d.value, c.value != [] || d.value != []), d.rest)
  }

  predicate AllDigits(ds: bytes) {
    forall c :: c in ds ==> IsDigit(c)
  }

  function DigitValue(c: byte): nat
    requires IsDigit(c)
  {
    c - 48
  }

  function NatOf(ds: bytes): nat
    requires AllDigits(ds)
  {
    if ds == [] then 0 else 10 * NatOf(ds[..|ds| - 1]) + DigitValue(ds[|ds| - 1])
  }

  /** from_chars into a 64-bit integer: nothing if it is out of range. */
  function IntOf(text: bytes): Option<int> {
    var neg := text != [] && text[0] == MINUS;
    var ds := if neg then text[1..] else text;
    if ds == [] || !AllDigits(ds) then None
    else
      var i := if neg then -(NatOf(ds) as int) else NatOf(ds);
      if Int64(i) then Some(i) else None
  }

  // ---------------------------------------------------------------- decimal notation

  function Decimal(n: nat): (s: bytes)
    ensures s != [] && AllDigits(s)
  {
    if n < 10 then [48 + n] else Decimal(n / 10) + [48 + n % 10]
  }

  lemma {:induction false} DecimalRoundTrip(n: nat)
    ensures NatOf(Decimal(n)) == n
  {
    var s := Decimal(n);
    if n < 10 {
      assert s[..0] == [];
    } else {
      DecimalRoundTrip(n / 10);
      assert s[..|s| - 1] == Decimal(n / 10);
    }
  }

  function Ten(k: nat): nat {
    if k == 0 then 1 else 10 * Ten(k - 1)
  }

  lemma {:induction false} DecimalLength(n: nat, k: nat)
    requires n < Ten(k) && k > 0
    ensures |Decimal(n)| <= k
  {
    if n >= 10 {
      assert k > 1;
      DecimalLength(n / 10, k - 1);
    }
  }

  /** Any 64-bit integer takes at most twenty digits. */
  lemma DecimalShort(n: nat)
    requires n < TWO_64
    ensures |Decimal(n)| <= 20
  {
    assert Ten(5) == 100000;
    assert Ten(10) == 100000 * Ten(5);
    assert Ten(15) == 100000 * Ten(10);
    assert Ten(20) == 100000 * Ten(15);
    DecimalLength(n, 20);
  }

  function DecimalInt(i: int): bytes {
    if i < 0 then [MINUS] + Decimal(-i) else Decimal(i)
  }

  // ---------------------------------------------------------------- strings

  /** The character that an escape stands for; an unknown one stands for itself. */
  function Unescaped(c: byte): byte {
    if c == 98 then 8 else if c == 102 then 12 else if c == 110 then 10 else if c == 114 then 13
    else if c == 116 then 9 else c
  }

  /** A string after its opening quote. */
  function ScanString(s: bytes): (r: Scan<bytes>)
    ensures r.Got? ==> |r.rest| < |s| && |r.value| < |s|
  {
    if s == [] then Fail
    else if s[0] == QUOTE then Got([], s[1..])
    else if s[0] == BACKSLASH then
      if |s| < 2 then Fail else Cons(Unescaped(s[1]), ScanString(s[2..]))
    else Cons(s[0], ScanString(s[1..]))
  }

  function Cons(c: byte, r: Scan<bytes>): Scan<bytes> {
    if r.Got? then Got([c] + r.value, r.rest) else Fail
  }

  function Hex(d: nat): byte
    requires d < 16
  {
    if d < 10 then 48 + d else 87 + d
  }

  /** How one character of a string is printed. */
  function Escaped(c: byte): bytes {
    if c == 8 then [BACKSLASH, 98]
    else if c == 12 then [BACKSLASH, 102]
    else if c == 10 then [BACKSLASH, 110]
    else if c == 13 then [BACKSLASH, 114]
    else if c == 9 then [BACKSLASH, 116]
    else if c == BACKSLASH || c == QUOTE then [BACKSLASH, c]
    else if c < 32 then [BACKSLASH, LETTER_U, 48, 48, Hex(c / 16), Hex(c % 16)]
    else [c]
  }

  function EscapedAll(b: bytes): bytes {
    if b == [] then [] else Escaped(b[0]) + EscapedAll(b[1..])
  }

  /** Characters that have a short escape or need none. */
  predicate Kept(c: byte) {
    c >= 32 || c == 8 || c == 12 || c == 10 || c == 13 || c == 9
  }

  /** What the printed form of a character reads back as: the letters of \uXXXX are kept as they are. */
  function Reread(c: byte): bytes {
    if Kept(c) then [c] else [LETTER_U, 48, 48, Hex(c / 16), Hex(c % 16)]
  }

  function RereadAll(b: bytes): bytes {
    if b == [] then [] else Reread(b[0]) + RereadAll(b[1..])
  }

  lemma PlainChar(c: byte, s: bytes)
    requires c != QUOTE && c != BACKSLASH
    ensures ScanString([c] + s) == Cons(c, ScanString(s))
  {
    assert ([c] + s)[1..] == s;
  }

  lemma EscapedChar(c: byte, s: bytes)
    ensures ScanString([BACKSLASH, c] + s) == Cons(Unescaped(c), ScanString(s))
  {
    assert ([BACKSLASH, c] + s)[2..] == s;
  }

  predicate IsPlain(c: byte) {
    c != QUOTE && c != BACKSLASH
  }

  predicate AllPlain(p: bytes) {
    forall c :: c in p ==> IsPlain(c)
  }

  lemma {:induction false} PlainRun(p: bytes, s: bytes, v: bytes, rest: bytes)
    requires AllPlain(p) && ScanString(s) == Got(v, rest)
    ensures ScanString(p + s) == Got(p + v, rest)
  {
    if p == [] {
      assert p + s == s && p + v == v;
    } else {
      assert IsPlain(p[0]);
      PlainRun(p[1..], s, v, rest);
      PlainChar(p[0], p[1..] + s);
      assert [p[0]] + (p[1..] + s) == p + s;
      assert [p[0]] + (p[1..] + v) == p + v;
    }
  }

  /** Reading a printed character. */
  lemma RereadChar(c: byte, s: bytes, b: bytes, rest: bytes)
    requires ScanString(s) == Got(b, rest)
    ensures ScanString(Escaped(c) + s) == Got(Reread(c) + b, rest)
  {
    if !Kept(c) {
      RereadControl([48, 48, Hex(c / 16), Hex(c % 16)], s, b, rest);
      assert Escaped(c) == [BACKSLASH, LETTER_U] + [48, 48, Hex(c / 16), Hex(c % 16)];
      assert Reread(c) == [LETTER_U] + [48, 48, Hex(c / 16), Hex(c % 16)];
    } else {
      RereadKept(c, s, b, rest);
    }
  }

  lemma RereadKept(c: byte, s: bytes, b: bytes, rest: bytes)
    requires Kept(c) && ScanString(s) == Got(b, rest)
    ensures ScanString(Escaped(c) + s) == Got([c] + b, rest)
  {
    if |Escaped(c)| == 2 {
      var d := Escaped(c)[1];
      assert Escaped(c) == [BACKSLASH, d] && Unescaped(d) == c;
      EscapedChar(d, s);
    } else {
      PlainChar(c, s);
    }
  }

  lemma RereadControl(code: bytes, s: bytes, b: bytes, rest: bytes)
    requires AllPlain(code) && ScanString(s) == Got(b, rest)
    ensures ScanString([BACKSLASH, LETTER_U] + code + s) == Got([LETTER_U] + code + b, rest)
  {
    PlainRun(code, s, b, rest);
    EscapedChar(LETTER_U, code + s);
    assert [BACKSLASH, LETTER_U] + code + s == [BACKSLASH, LETTER_U] + (code + s);
    assert [LETTER_U] + code + b == [LETTER_U] + (code + b);
  }

  lemma {:induction false} RereadString(b: bytes, rest: bytes)
    ensures ScanString(EscapedAll(b) + [QUOTE] + rest) == Got(RereadAll(b), rest)
  {
    if b == [] {
      assert EscapedAll(b) + [QUOTE] + rest == [QUOTE] + rest;
      assert ([QUOTE] + rest)[1..] == rest;
    } else {
      RereadString(b[1..], rest);
      var s := EscapedAll(b[1..]) + [QUOTE] + rest;
      assert EscapedAll(b) + [QUOTE] + rest == Escaped(b[0]) + s;
      RereadChar(b[0], s, RereadAll(b[1..]), rest);
    }
  }

  predicate Faithful(b: bytes) {
    forall c :: c in b ==> Kept(c)
  }

  /** Strings read back as they were exactly when they hold no control character without a short escape. */
  lemma {:induction false} RereadExact(b: bytes)
    ensures RereadAll(b) == b <==> Faithful(b)
    ensures |RereadAll(b)| >= |b|
    ensures !Faithful(b) ==> |RereadAll(b)| > |b|
  {
    if b != [] {
      RereadExact(b[1..]);
      assert b == [b[0]] + b[1..];
      assert Faithful(b) <==> Kept(b[0]) && Faithful(b[1..]);
    }
  }
}
