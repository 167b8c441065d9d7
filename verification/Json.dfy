/**
 The JSON converter of src/cbor.cpp: a lenient parser from text to values, and a printer.

 How the text of a floating point number becomes a 64-bit word is a parameter of parsing.
 */
module Json {
  import opened Bytes
  import opened Cbor
  import opened CborBuffer
  import opened JsonText

  /** from_chars into a double: the word, or nothing. */
  type FloatReader = bytes -> Option<nat>

  ghost predicate ReadsWords(fr: FloatReader) {
    forall t :: fr(t).Some? ==> fr(t).value < TWO_64
  }

  // ---------------------------------------------------------------- parsing

  function NumberValue(fr: FloatReader, num: Numeral): Option<Value> {
    if |num.text| > NUMBER_MAX then None
    else if num.float then (if fr(num.text).Some? then Some(Double(fr(num.text).value)) else None)
    else if IntOf(num.text).Some? then Some(OfInt(IntOf(num.text).value)) else None
  }

  /** push_json_number. */
  function ParseNumber(fr: FloatReader, s: bytes): (r: Scan<Value>)
    ensures r.Got? ==> |r.rest| < |s|
  {
    var n := ScanNumber(s);
    if n.Fail? then Fail
    else
      var v := NumberValue(fr, n.value);
      if v.None? then Fail else Got(v.value, n.rest)
  }

  /** push_json_keyword. */
  function ParseKeyword(s: bytes): (r: Scan<Value>)
    ensures r.Got? ==> |r.rest| < |s|
  {
    if StartsWith(s, FALSE_TEXT) then Got(FALSE, s[5..])
    else if StartsWith(s, TRUE_TEXT) then Got(TRUE, s[4..])
    else if StartsWith(s, NULL_TEXT) then Got(NULL, s[4..])
    else Fail
  }

  /** push_json_value. */
  function ParseValue(fr: FloatReader, s: bytes): (r: Scan<Value>)
    ensures r.Got? ==> |r.rest| < |s|
    decreases |s|, 1
  {
    var t := Trim(s);
    if t == [] then Fail
    else if IsDigit(t[0]) || t[0] == MINUS then ParseNumber(fr, t)
    else if 97 <= t[0] <= 122 then ParseKeyword(t)
    else if t[0] == QUOTE then
      var q := ScanString(t[1..]);
      if q.Got? then Got(Text(q.value), q.rest) else Fail
    else if t[0] == OPEN_ARRAY then
      var q := ParseList(fr, t[1..], false);
      if q.Got? then Got(Array(q.value), q.rest) else Fail
    else if t[0] == OPEN_MAP then
      var q := ParseList(fr, t[1..], true);
      if q.Got? && |q.value| % 2 == 0 then Got(Map(q.value), q.rest) else Fail
    else Fail
  }

  function Close(pairs: bool): byte {
    if pairs then CLOSE_MAP else CLOSE_ARRAY
  }

  /** Separators are skipped wherever they stand after the first value; in a map colons are too. */
  predicate IsSeparator(pairs: bool, c: byte) {
    c == COMMA || (pairs && c == COLON)
  }

  /** The values of an array or a map, after the opening bracket. */
  function ParseList(fr: FloatReader, s: bytes, pairs: bool): (r: Scan<seq<Value>>)
    ensures r.Got? ==> |r.rest| < |s| && |r.value| <= |s|
    decreases |s|, 3
  {
    var t := Trim(s);
    if t != [] && t[0] == Close(pairs) then Got([], t[1..])
    else
      var v := ParseValue(fr, t);
      if v.Fail? then Fail else ConsValue(v.value, ParseItems(fr, v.rest, pairs))
  }

  function ConsValue(v: Value, r: Scan<seq<Value>>): Scan<seq<Value>> {
    if r.Got? then Got([v] + r.value, r.rest) else Fail
  }

  /** The rest of the values, after the first. */
  function ParseItems(fr: FloatReader, s: bytes, pairs: bool): (r: Scan<seq<Value>>)
    ensures r.Got? ==> |r.rest| < |s| && |r.value| < |s|
    decreases |s|, 2
  {
    var t := Trim(s);
    if t == [] then Fail
    else if IsSeparator(pairs, t[0]) then ParseItems(fr, t[1..], pairs)
    else if t[0] == Close(pairs) then Got([], t[1..])
    else
      var v := ParseValue(fr, t);
      if v.Fail? then Fail else ConsValue(v.value, ParseItems(fr, v.rest, pairs))
  }

  /** Whatever text is accepted yields a well-formed value. */
  lemma {:induction false} ParsedWellFormed(fr: FloatReader, s: bytes)
    requires ReadsWords(fr) && |s| < TWO_64 && ParseValue(fr, s).Got?
    ensures WellFormed(ParseValue(fr, s).value)
    decreases |s|, 1
  {
    var t := Trim(s);
    if t[0] == OPEN_ARRAY {
      ParsedListWellFormed(fr, t[1..], false);
    } else if t[0] == OPEN_MAP {
      ParsedListWellFormed(fr, t[1..], true);
    }
  }

  lemma {:induction false} ParsedListWellFormed(fr: FloatReader, s: bytes, pairs: bool)
    requires ReadsWords(fr) && |s| < TWO_64 && ParseList(fr, s, pairs).Got?
    ensures AllWellFormed(ParseList(fr, s, pairs).value)
    decreases |s|, 3
  {
    var t := Trim(s);
    if t[0] != Close(pairs) {
      ParsedWellFormed(fr, t);
      ParsedItemsWellFormed(fr, ParseValue(fr, t).rest, pairs);
    }
  }

  lemma {:induction false} ParsedItemsWellFormed(fr: FloatReader, s: bytes, pairs: bool)
    requires ReadsWords(fr) && |s| < TWO_64 && ParseItems(fr, s, pairs).Got?
    ensures AllWellFormed(ParseItems(fr, s, pairs).value)
    decreases |s|, 2
  {
    var t := Trim(s);
    if IsSeparator(pairs, t[0]) {
      ParsedItemsWellFormed(fr, t[1..], pairs);
    } else if t[0] != Close(pairs) {
      ParsedWellFormed(fr, t);
      ParsedItemsWellFormed(fr, ParseValue(fr, t).rest, pairs);
    }
  }

  // ---------------------------------------------------------------- printing

  /** Values without floating point numbers and without simple values other than the three named ones. */
  predicate Printable(v: Value)
    decreases v
  {
    match v
    case Array(vs) => forall x :: x in vs ==> Printable(x)
    case Map(vs) => |vs| % 2 == 0 && forall x :: x in vs ==> Printable(x)
    case Simple(k) => k == 20 || k == 21 || k == 22
    case Simple8(_) => false
    case Half(_) => false
    case Single(_) => false
    case Double(_) => false
    case _ => true
  }

  predicate AllPrintable(vs: seq<Value>) {
    forall x :: x in vs ==> Printable(x)
  }

  /** to_json_stream on a value. */
  function Print(v: Value): bytes
    requires Printable(v)
    decreases v
  {
    match v
    case UInt(n) => Decimal(n)
    case NInt(n) => DecimalInt(Negated(n))
    case ByteString(b) => [QUOTE] + EscapedAll(b) + [QUOTE]
    case Text(b) => [QUOTE] + EscapedAll(b) + [QUOTE]
    case Array(vs) => [OPEN_ARRAY] + PrintAll(vs, false) + [CLOSE_ARRAY]
    case Map(vs) => [OPEN_MAP] + PrintAll(vs, true) + [CLOSE_MAP]
    case Simple(k) => if k == 20 then FALSE_TEXT else if k == 21 then TRUE_TEXT else NULL_TEXT
  }

  /** Items with commas between them; in a map every other separator is a colon. */
  function PrintAll(vs: seq<Value>, pairs: bool): bytes
    requires AllPrintable(vs)
    decreases vs
  {
    if vs == [] then [] else Print(vs[0]) + PrintRest(vs[1..], pairs, pairs)
  }

  function PrintRest(vs: seq<Value>, pairs: bool, value: bool): bytes
    requires AllPrintable(vs)
    decreases vs
  {
    if vs == [] then []
    else [if value then COLON else COMMA] + Print(vs[0]) + PrintRest(vs[1..], pairs, pairs && !value)
  }

  /** Texts with one comma between each two. */
  function Commas(ts: seq<bytes>): bytes {
    if ts == [] then [] else if |ts| == 1 then ts[0] else ts[0] + ([0x2c] + Commas(ts[1..]))
  }

  function Texts(vs: seq<Value>): seq<bytes>
    requires AllPrintable(vs)
  {
    if vs == [] then [] else [Print(vs[0])] + Texts(vs[1..])
  }

  /** The n pairs of a map, with a colon between key and value. */
  function PairTexts(vs: seq<Value>, n: nat): seq<bytes>
    requires AllPrintable(vs) && |vs| == 2 * n
    decreases n
  {
    if n == 0 then [] else [PairText(vs[0], vs[1])] + PairTexts(vs[2..], n - 1)
  }

  function PairText(k: Value, v: Value): bytes
    requires Printable(k) && Printable(v)
  {
    Print(k) + ([0x3a] + Print(v))
  }

  lemma CommasMore(t: bytes, ts: seq<bytes>)
    ensures Commas([t] + ts) == t + if ts == [] then [] else [0x2c] + Commas(ts)
  {
    assert ([t] + ts)[1..] == ts;
    if ts == [] {
      assert t + [] == t;
    }
  }

  lemma Regroup(a: bytes, b: bytes, c: bytes)
    ensures (a + b) + c == a + (b + c)
  {
  }

  lemma {:induction false} RestIsCommas(vs: seq<Value>)
    requires AllPrintable(vs)
    ensures PrintRest(vs, false, false) == if vs == [] then [] else [0x2c] + Commas(Texts(vs))
  {
    if vs != [] {
      RestIsCommas(vs[1..]);
      CommasMore(Print(vs[0]), Texts(vs[1..]));
      Regroup([0x2c], Print(vs[0]), PrintRest(vs[1..], false, false));
    }
  }

  /** A key, and then its value and the pairs after it. */
  lemma PairFirst(vs: seq<Value>)
    requires AllPrintable(vs) && |vs| >= 2
    ensures Print(vs[0]) + PrintRest(vs[1..], true, true) == PairText(vs[0], vs[1]) + PrintRest(vs[2..], true, false)
  {
    assert vs[1..][0] == vs[1] && vs[1..][1..] == vs[2..];
    var a, b, r := Print(vs[0]), Print(vs[1]), PrintRest(vs[2..], true, false);
    assert PrintRest(vs[1..], true, true) == ([0x3a] + b) + r;
    Regroup(a, [0x3a] + b, r);
  }

  lemma PairsMore(vs: seq<Value>, n: nat, r: bytes)
    requires AllPrintable(vs) && |vs| == 2 * n && n > 0
    requires r == if n == 1 then [] else [0x2c] + Commas(PairTexts(vs[2..], n - 1))
    ensures PairText(vs[0], vs[1]) + r == Commas(PairTexts(vs, n))
  {
    CommasMore(PairText(vs[0], vs[1]), PairTexts(vs[2..], n - 1));
    assert n > 1 ==> PairTexts(vs[2..], n - 1) != [];
  }

  lemma {:induction false} RestIsPairs(vs: seq<Value>, n: nat)
    requires AllPrintable(vs) && |vs| == 2 * n
    ensures PrintRest(vs, true, false) == if n == 0 then [] else [0x2c] + Commas(PairTexts(vs, n))
    decreases n
  {
    if n > 0 {
      RestIsPairs(vs[2..], n - 1);
      PairFirst(vs);
      PairsMore(vs, n, PrintRest(vs[2..], true, false));
      Regroup([0x2c], Print(vs[0]), PrintRest(vs[1..], true, true));
    }
  }

  /** An array is printed in brackets with commas, and nothing else is written. */
  lemma PrintedArray(vs: seq<Value>)
    requires AllPrintable(vs)
    ensures Print(Array(vs)) == [0x5b] + Commas(Texts(vs)) + [0x5d]
  {
    if vs != [] {
      RestIsCommas(vs[1..]);
      CommasMore(Print(vs[0]), Texts(vs[1..]));
    }
  }

  lemma AllIsPairs(vs: seq<Value>, n: nat)
    requires AllPrintable(vs) && |vs| == 2 * n
    ensures PrintAll(vs, true) == Commas(PairTexts(vs, n))
  {
    if n > 0 {
      RestIsPairs(vs[2..], n - 1);
      PairFirst(vs);
      PairsMore(vs, n, PrintRest(vs[2..], true, false));
    }
  }

  /** A map is printed in braces with a colon in each pair and commas between pairs. */
  lemma PrintedMap(vs: seq<Value>, n: nat)
    requires AllPrintable(vs) && |vs| == 2 * n
    ensures Printable(Map(vs)) && Print(Map(vs)) == [0x7b] + Commas(PairTexts(vs, n)) + [0x7d]
  {
    AllIsPairs(vs, n);
  }

  lemma PrintedWords()
    ensures Print(FALSE) == Ascii("false") && Print(TRUE) == Ascii("true") && Print(NULL) == Ascii("null")
    ensures Escaped(0x1f) == Ascii("\\u001f") && Escaped(0x0a) == Ascii("\\n") && Escaped(0x22) == Ascii("\\\"")
  {
  }

  // ---------------------------------------------------------------- what printing and parsing keep

  /** What the printed text of v parses as: nothing if it is rejected. */
  function Image(v: Value): Option<Value>
    requires Printable(v)
    decreases v
  {
    match v
    case UInt(n) => if n < TWO_63 then Some(UInt(n)) else None
    case NInt(n) => Some(OfInt(Negated(n)))
    case ByteString(b) => Some(Text(RereadAll(b)))
    case Text(b) => Some(Text(RereadAll(b)))
    case Array(vs) => if ImageAll(vs).Some? then Some(Array(ImageAll(vs).value)) else None
    case Map(vs) => if ImageAll(vs).Some? then Some(Map(ImageAll(vs).value)) else None
    case Simple(k) => Some(Simple(k))
  }

  function ImageAll(vs: seq<Value>): (r: Option<seq<Value>>)
    requires AllPrintable(vs)
    ensures r.Some? ==> |r.value| == |vs|
    decreases vs
  {
    if vs == [] then Some([])
    else
      var x, xs := Image(vs[0]), ImageAll(vs[1..]);
      if x.Some? && xs.Some? then Some([x.value] + xs.value) else None
  }

  /** null, booleans, 64-bit integers, text without unprintable controls, and arrays and maps of these. */
  predicate InDomain(v: Value)
    decreases v
  {
    match v
    case UInt(n) => n < TWO_63
    case NInt(n) => n < TWO_63
    case Text(b) => Faithful(b)
    case Array(vs) => forall x :: x in vs ==> InDomain(x)
    case Map(vs) => |vs| % 2 == 0 && forall x :: x in vs ==> InDomain(x)
    case Simple(k) => k == 20 || k == 21 || k == 22
    case _ => false
  }
}
