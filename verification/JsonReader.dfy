/**
 The JSON parser in the form of src/cbor.cpp: an iterator moves through the text, and values are
 pushed onto a buffer, with a buffer of their own for the items of arrays and maps.

 Whatever text is accepted, exactly the encoding of one value is appended; when it is rejected the
 buffer is as it was.
 */
module JsonReader {
  import opened Bytes
  import opened Cbor
  import opened CborLaws
  import opened CborBuffer
  import opened JsonText
  import opened Json
  import Grammar = JsonGrammar

  lemma {:induction false} EncodeConcat(vs: seq<Value>, ws: seq<Value>)
    requires AllWellFormed(vs) && AllWellFormed(ws)
    ensures AllWellFormed(vs + ws) && EncodeAll(vs + ws) == EncodeAll(vs) + EncodeAll(ws)
  {
    var us := vs + ws;
    assert AllWellFormed(us);
    if vs == [] {
      assert us == ws;
    } else {
      assert us[1..] == vs[1..] + ws;
      EncodeConcat(vs[1..], ws);
      PushedMore(Encode(vs[0]), EncodeAll(vs[1..]), EncodeAll(ws));
    }
  }

  lemma EncodeOne(v: Value)
    requires WellFormed(v)
    ensures AllWellFormed([v]) && EncodeAll([v]) == Encode(v)
  {
    assert [v][1..] == [];
    assert EncodeAll([]) == [];
  }

  function Prepend(vs: seq<Value>, r: Scan<seq<Value>>): Scan<seq<Value>> {
    if r.Got? then Got(vs + r.value, r.rest) else Fail
  }

  lemma PrependTwice(got: seq<Value>, v: seq<Value>, r: Scan<seq<Value>>)
    ensures Prepend(got, Prepend(v, r)) == Prepend(got + v, r)
  {
    if r.Got? {
      assert got + (v + r.value) == got + v + r.value;
    }
  }

  lemma PrependNone(r: Scan<seq<Value>>)
    ensures Prepend([], r) == r
  {
    if r.Got? {
      assert [] + r.value == r.value;
    }
  }

  /** The string scanner, with what it has collected so far in front. */
  function Collected(p: bytes, r: Scan<bytes>): Scan<bytes> {
    if r.Got? then Got(p + r.value, r.rest) else Fail
  }

  lemma CollectedNone(r: Scan<bytes>)
    ensures Collected([], r) == r
  {
    if r.Got? {
      assert [] + r.value == r.value;
    }
  }

  lemma CollectedMore(p: bytes, c: byte, r: Scan<bytes>)
    ensures Collected(p, Cons(c, r)) == Collected(p + [c], r)
  {
    if r.Got? {
      assert p + ([c] + r.value) == p + [c] + r.value;
    }
  }

  class Reader {
    const s: bytes
    var b: nat

    constructor (s: bytes)
      ensures this.s == s && b == 0
    {
      this.s := s;
      b := 0;
    }

    predicate Valid()
      reads this
    {
      b <= |s|
    }

    function Rest(): bytes
      requires Valid()
      reads this
    {
      s[b..]
    }

    method SkipWsp()
      requires Valid()
      modifies this
      ensures Valid() && old(b) <= b && Rest() == Trim(old(Rest()))
    {
      while b < |s| && IsSpace(s[b])
        invariant old(b) <= b <= |s| && Trim(s[b..]) == Trim(old(Rest()))
      {
        assert s[b..][1..] == s[b + 1..];
        b := b + 1;
      }
    }

    method MatchChar(c: byte) returns (ok: bool)
      requires Valid()
      modifies this
      ensures Valid() && ok == (old(Rest()) != [] && old(Rest())[0] == c)
      ensures b == old(b) + if ok then 1 else 0
    {
      ok := b < |s| && s[b] == c;
      if ok {
        b := b + 1;
      }
    }

    method MatchLiteral(lit: bytes) returns (ok: bool)
      requires Valid()
      modifies this
      ensures Valid() && ok == StartsWith(old(Rest()), lit)
      ensures b == old(b) + if ok then |lit| else 0
    {
      var i := 0;
      while i < |lit| && b + i < |s| && s[b + i] == lit[i]
        invariant 0 <= i <= |lit| && b + i <= |s| && s[b..b + i] == lit[..i]
      {
        assert s[b..b + i + 1] == s[b..b + i] + [s[b + i]] && lit[..i + 1] == lit[..i] + [lit[i]];
        i := i + 1;
      }
      ok := i == |lit|;
      if ok {
        assert Rest()[..i] == s[b..b + i];
        b := b + i;
      }
    }

    /** match_digits: appends the digits to the text of the number. */
    method MatchDigits(text: bytes) returns (ok: bool, more: bytes)
      requires Valid()
      modifies this
      ensures Valid() && old(b) <= b
      ensures var d := Digits(old(Rest())); ok == d.Got? && (ok ==> more == text + d.value && Rest() == d.rest)
    {
      more := text;
      while b < |s| && IsDigit(s[b])
        invariant old(b) <= b <= |s| && DigitCount(old(Rest())) == b - old(b) + DigitCount(s[b..])
        invariant more == text + s[old(b)..b]
      {
        assert s[b..][1..] == s[b + 1..];
        more := more + [s[b]];
        b := b + 1;
      }
      ok := |more| > |text|;
    }

    method MatchFraction(text: bytes) returns (ok: bool, more: bytes)
      requires Valid()
      modifies this
      ensures Valid() && old(b) <= b
      ensures var d := Fraction(old(Rest())); ok == d.Got? && (ok ==> more == text + d.value && Rest() == d.rest)
    {
      ok, more := true, text;
      ghost var r := Rest();
      if b < |s| && s[b] == DOT {
        b := b + 1;
        assert Rest() == r[1..];
        ok, more := MatchDigits(text + [DOT]);
      }
    }

    method MatchPower(text: bytes) returns (ok: bool, more: bytes)
      requires Valid()
      modifies this
      ensures Valid() && old(b) <= b
      ensures var d := Power(old(Rest())); ok == d.Got? && (ok ==> more == text + d.value && Rest() == d.rest)
    {
      more := text;
      ghost var r := Rest();
      if b < |s| && (s[b] == PLUS || s[b] == MINUS) {
        more := more + [s[b]];
        b := b + 1;
        assert Rest() == r[1..];
      }
      ok, more := MatchDigits(more);
    }

    method MatchExponent(text: bytes) returns (ok: bool, more: bytes)
      requires Valid()
      modifies this
      ensures Valid() && old(b) <= b
      ensures var d := Exponent(old(Rest())); ok == d.Got? && (ok ==> more == text + d.value && Rest() == d.rest)
    {
      ok, more := true, text;
      ghost var r := Rest();
      if b < |s| && (s[b] == LETTER_E || s[b] == 69) {
        b := b + 1;
        assert Rest() == r[1..];
        ok, more := MatchPower(text + [LETTER_E]);
        if ok {
          PushedMore(text, [LETTER_E], Power(r[1..]).value);
        }
      }
    }

    /** The token of push_json_number. */
    method MatchNumber() returns (ok: bool, text: bytes, float: bool)
      requires Valid()
      modifies this
      ensures Valid() && old(b) <= b
      ensures var n := ScanNumber(old(Rest())); ok == n.Got? && (ok ==> n == Got(Numeral(text, float), Rest()))
    {
      ghost var r := Rest();
      text, float := [], false;
      var neg := MatchChar(MINUS);
      if neg {
        text := [MINUS];
      }
      assert Sign(r) == Got(text, Rest());
      ok, text := MatchDigits(text);
      if !ok {
        return;
      }
      var whole := |text|;
      ok, text := MatchFraction(text);
      if !ok {
        return;
      }
      ok, text := MatchExponent(text);
      float := |text| > whole;
    }

    /** push_json_number. */
    method PushNumber(buf: Buffer, fr: FloatReader) returns (ok: bool)
      requires Valid() && ReadsWords(fr)
      modifies this, buf
      ensures Parsed(buf, old(b), old(buf.data), ParseNumber(fr, old(Rest())), ok)
    {
      var text, float;
      ok, text, float := MatchNumber();
      if !ok {
        return;
      }
      if |text| > NUMBER_MAX {
        return false;
      }
      if float {
        var w := fr(text);
        if w.None? {
          return false;
        }
        buf.PushDouble(w.value);
      } else {
        var i := IntOf(text);
        if i.None? {
          return false;
        }
        buf.PushInt(i.value);
      }
    }

    /** The text from `was` on was accepted as r says, and exactly the encoding of its value was
        appended; or it was rejected, and the buffer is as it was. */
    ghost predicate Parsed(buf: Buffer, was: nat, data: bytes, r: Scan<Value>, ok: bool)
      reads this, buf
    {
      && was <= b <= |s| && ok == r.Got?
      && (if ok then Rest() == r.rest && WellFormed(r.value) && buf.data == data + Encode(r.value) else buf.data == data)
    }

    method PushKeyword(buf: Buffer) returns (ok: bool)
      requires Valid()
      modifies this, buf
      ensures Parsed(buf, old(b), old(buf.data), ParseKeyword(old(Rest())), ok)
    {
      ok := MatchLiteral(FALSE_TEXT);
      if ok {
        buf.PushBool(false);
        return;
      }
      ok := MatchLiteral(TRUE_TEXT);
      if ok {
        buf.PushBool(true);
        return;
      }
      ok := MatchLiteral(NULL_TEXT);
      if ok {
        buf.PushNull();
      }
    }

    /** The next character of a string, or its end. */
    method ReadChar() returns (ok: bool, end: bool, c: byte)
      requires Valid()
      modifies this
      ensures old(b) <= b <= |s| && (ok ==> old(b) < b)
      ensures ScanString(old(Rest())) == if !ok then Fail else if end then Got([], Rest()) else Cons(c, ScanString(Rest()))
    {
      ok, end, c := false, false, 0;
      if b == |s| {
        return;
      }
      ghost var t := Rest();
      c := s[b];
      b := b + 1;
      assert t[1..] == Rest();
      if c == BACKSLASH {
        if b == |s| {
          return;
        }
        c := Unescaped(s[b]);
        b := b + 1;
        assert t[2..] == Rest();
      } else if c == QUOTE {
        end := true;
      }
      ok := true;
    }

    /** The slow path of push_json_qstring, after the opening quote: character by character. */
    method PushStringSlow(buf: Buffer) returns (ok: bool)
      requires Valid() && |s| < TWO_64
      modifies this, buf
      ensures Parsed(buf, old(b), old(buf.data), AsText(ScanString(old(Rest()))), ok)
    {
      var text: bytes := [];
      ghost var r := Rest();
      CollectedNone(ScanString(r));
      while true
        invariant old(b) <= b <= |s| && |text| <= b && buf.data == old(buf.data)
        invariant ScanString(r) == Collected(text, ScanString(Rest()))
        decreases |s| - b
      {
        var end, c;
        ok, end, c := ReadChar();
        if !ok {
          return;
        }
        if end {
          assert text + [] == text;
          buf.PushString(text);
          return;
        }
        CollectedMore(text, c, ScanString(Rest()));
        text := text + [c];
      }
    }

    /** scan_json_qstring, after the opening quote: where the string ends if it has no escape. */
    method ScanPlain() returns (found: bool, escaped: bool, end: nat)
      requires Valid()
      ensures found ==> b <= end < |s| && AllPlain(s[b..end]) && s[end] == (if escaped then BACKSLASH else QUOTE)
      ensures !found ==> AllPlain(Rest())
    {
      end := b;
      while end < |s|
        invariant b <= end <= |s| && AllPlain(s[b..end])
      {
        if s[end] == BACKSLASH {
          return true, true, end;
        }
        if s[end] == QUOTE {
          return true, false, end;
        }
        assert s[b..end + 1] == s[b..end] + [s[end]];
        end := end + 1;
      }
      assert s[b..end] == Rest();
      return false, false, end;
    }

    /** push_json_qstring: the fast path copies a string without escapes. */
    method PushQString(buf: Buffer) returns (ok: bool)
      requires Valid() && |s| < TWO_64
      modifies this, buf
      ensures Parsed(buf, old(b), old(buf.data), ParseQuoted(old(Rest())), ok)
    {
      ghost var r := Rest();
      ok := MatchChar(QUOTE);
      if !ok {
        return;
      }
      assert Rest() == r[1..];
      var found, escaped, end := ScanPlain();
      if !found {
        Unterminated(Rest());
        return false;
      }
      if escaped {
        ok := PushStringSlow(buf);
        return;
      }
      var text := s[b..end];
      PlainString(text, s[end + 1..]);
      assert Rest() == text + [QUOTE] + s[end + 1..];
      buf.PushString(text);
      b := end + 1;
    }

    /** One round of the loops of push_json_array and push_json_map: a separator, the end, or a value. */
    method PushItem(inner: Buffer, fr: FloatReader, pairs: bool) returns (ok: bool, end: bool, pushed: bool, ghost v: seq<Value>)
      requires Valid() && |s| < TWO_64 && ReadsWords(fr)
      modifies this, inner
      ensures old(b) <= b <= |s| && |v| == (if pushed then 1 else 0) && AllWellFormed(v) && (ok ==> old(b) < b) && (end ==> !pushed)
      ensures ParseItems(fr, old(Rest()), pairs) ==
                if !ok then Fail else if end then Got([], Rest()) else Prepend(v, ParseItems(fr, Rest(), pairs))
      ensures inner.data == old(inner.data) + EncodeAll(v)
      decreases |s| - b, 1
    {
      ok, end, pushed, v := false, false, false, [];
      SkipWsp();
      if b == |s| {
        return;
      }
      ghost var t := Rest();
      if IsSeparator(pairs, s[b]) || s[b] == Close(pairs) {
        end := !IsSeparator(pairs, s[b]);
        b := b + 1;
        assert t[1..] == Rest();
        ok := true;
        PrependNone(ParseItems(fr, Rest(), pairs));
      } else {
        ok := PushValue(inner, fr);
        if ok {
          pushed, v := true, [ParseValue(fr, t).value];
          EncodeOne(v[0]);
        }
      }
    }

    /** The loops of push_json_array and push_json_map, after the first value: the values go into
        the inner buffer, and are counted. */
    method PushItems(inner: Buffer, fr: FloatReader, pairs: bool) returns (ok: bool, count: nat)
      requires Valid() && |s| < TWO_64 && ReadsWords(fr)
      modifies this, inner
      ensures old(b) <= b <= |s|
      ensures var r := ParseItems(fr, old(Rest()), pairs);
              && ok == r.Got?
              && (ok ==> && count == |r.value| && AllWellFormed(r.value) && Rest() == r.rest
                         && inner.data == old(inner.data) + EncodeAll(r.value))
      decreases |s| - b, 2
    {
      ghost var r := ParseItems(fr, Rest(), pairs);
      ghost var got: seq<Value> := [];
      count := 0;
      PrependNone(r);
      while true
        invariant old(b) <= b <= |s| && count == |got| && AllWellFormed(got)
        invariant inner.data == old(inner.data) + EncodeAll(got)
        invariant r == Prepend(got, ParseItems(fr, Rest(), pairs))
        decreases |s| - b
      {
        var end, pushed;
        ghost var v;
        ok, end, pushed, v := PushItem(inner, fr, pairs);
        if !ok {
          return;
        }
        if end {
          assert got + [] == got && EncodeAll([]) == [];
          return;
        }
        PrependTwice(got, v, ParseItems(fr, Rest(), pairs));
        EncodeConcat(got, v);
        PushedMore(old(inner.data), EncodeAll(got), EncodeAll(v));
        got := got + v;
        if pushed {
          count := count + 1;
        }
      }
    }

    /** The values of an array or a map that is not empty. */
    method ReadSome(inner: Buffer, fr: FloatReader, pairs: bool) returns (ok: bool, count: nat)
      requires Valid() && |s| < TWO_64 && ReadsWords(fr) && inner.data == []
      modifies this, inner
      ensures old(b) <= b <= |s|
      ensures var r := ParseSome(fr, old(Rest()), pairs);
              && ok == r.Got?
              && (ok ==> count == |r.value| && AllWellFormed(r.value) && Rest() == r.rest && inner.data == EncodeAll(r.value))
      decreases |s| - b, 3
    {
      ghost var v := ParseValue(fr, Rest());
      count := 0;
      ok := PushValue(inner, fr);
      if !ok {
        return;
      }
      assert inner.data == Encode(v.value);
      ghost var vs := ParseItems(fr, Rest(), pairs);
      ok, count := PushItems(inner, fr, pairs);
      if ok {
        SomeEncode(v.value, vs.value);
        count := count + 1;
      }
    }

    /** The values of an array or a map, after the opening bracket, in a buffer of their own. */
    method ReadList(inner: Buffer, fr: FloatReader, pairs: bool) returns (ok: bool, count: nat)
      requires Valid() && |s| < TWO_64 && ReadsWords(fr) && inner.data == []
      modifies this, inner
      ensures old(b) <= b <= |s|
      ensures var r := ParseList(fr, old(Rest()), pairs);
              && ok == r.Got?
              && (ok ==> count == |r.value| && AllWellFormed(r.value) && Rest() == r.rest && inner.data == EncodeAll(r.value))
      decreases |s| - b, 4
    {
      ghost var r := Rest();
      SkipWsp();
      ListIsSome(fr, r, pairs);
      ok := MatchChar(Close(pairs));
      if ok {
        assert Trim(r)[1..] == Rest() && EncodeAll([]) == [];
        count := 0;
      } else {
        ok, count := ReadSome(inner, fr, pairs);
      }
    }

    /** push_json_array and push_json_map, after the opening bracket. */
    method PushList(buf: Buffer, fr: FloatReader, pairs: bool) returns (ok: bool)
      requires Valid() && |s| < TWO_64 && ReadsWords(fr)
      modifies this, buf
      ensures Parsed(buf, old(b), old(buf.data), AsList(ParseList(fr, old(Rest()), pairs), pairs), ok)
      decreases |s| - b, 5
    {
      ghost var r := ParseList(fr, Rest(), pairs);
      var count;
      var inner := new Buffer();
      ok, count := ReadList(inner, fr, pairs);
      if !ok || (pairs && count % 2 != 0) {
        return false;
      }
      ListEncodes(r.value, pairs);
      PushHeader(buf, pairs, count);
      PushedMore(old(buf.data), ListHead(pairs, count), EncodeAll(r.value));
      buf.data := buf.data + inner.data;
    }

    method PushHeader(buf: Buffer, pairs: bool, count: nat)
      requires count < TWO_64
      modifies buf
      ensures buf.data == old(buf.data) + ListHead(pairs, count)
    {
      if pairs {
        buf.PushTypedVal(5, count / 2);
      } else {
        buf.PushTypedVal(4, count);
      }
    }

    /** push_json_value. */
    method PushValue(buf: Buffer, fr: FloatReader) returns (ok: bool)
      requires Valid() && |s| < TWO_64 && ReadsWords(fr)
      modifies this, buf
      ensures Parsed(buf, old(b), old(buf.data), ParseValue(fr, old(Rest())), ok)
      decreases |s| - b, 0
    {
      ghost var r := Rest();
      SkipWsp();
      if b == |s| {
        return false;
      }
      var c := s[b];
      if IsDigit(c) || c == MINUS {
        ok := PushNumber(buf, fr);
      } else if 97 <= c <= 122 {
        ok := PushKeyword(buf);
      } else if c == QUOTE {
        ok := PushQString(buf);
      } else if c == OPEN_ARRAY || c == OPEN_MAP {
        assert Rest()[1..] == s[b + 1..];
        b := b + 1;
        ok := PushList(buf, fr, c == OPEN_MAP);
      } else {
        ok := false;
      }
    }
  }

  function AsText(r: Scan<bytes>): Scan<Value> {
    if r.Got? then Got(Text(r.value), r.rest) else Fail
  }

  function ParseQuoted(s: bytes): Scan<Value> {
    if s != [] && s[0] == QUOTE then AsText(ScanString(s[1..])) else Fail
  }

  function AsList(r: Scan<seq<Value>>, pairs: bool): Scan<Value> {
    if r.Fail? then Fail
    else if !pairs then Got(Array(r.value), r.rest)
    else if |r.value| % 2 == 0 then Got(Map(r.value), r.rest)
    else Fail
  }

  function ParseSome(fr: FloatReader, t: bytes, pairs: bool): Scan<seq<Value>> {
    var v := ParseValue(fr, t);
    if v.Fail? then Fail else Prepend([v.value], ParseItems(fr, v.rest, pairs))
  }

  lemma ListIsSome(fr: FloatReader, s: bytes, pairs: bool)
    ensures var t := Trim(s);
            ParseList(fr, s, pairs) == if t != [] && t[0] == Close(pairs) then Got([], t[1..]) else ParseSome(fr, t, pairs)
  {
  }

  lemma SomeEncode(v: Value, vs: seq<Value>)
    requires WellFormed(v) && AllWellFormed(vs)
    ensures AllWellFormed([v] + vs) && EncodeAll([v] + vs) == Encode(v) + EncodeAll(vs)
  {
    assert ([v] + vs)[1..] == vs;
  }

  function ListHead(pairs: bool, count: nat): bytes
    requires count < TWO_64
  {
    if pairs then Head(5, count / 2) else Head(4, count)
  }

  lemma ListEncodes(vs: seq<Value>, pairs: bool)
    requires AllWellFormed(vs) && |vs| < TWO_64 && (pairs ==> |vs| % 2 == 0)
    ensures var w := if pairs then Map(vs) else Array(vs);
            WellFormed(w) && Encode(w) == ListHead(pairs, |vs|) + EncodeAll(vs)
  {
  }

  /** The fast path agrees with the slow one. */
  lemma PlainString(text: bytes, rest: bytes)
    requires AllPlain(text)
    ensures ScanString(text + [QUOTE] + rest) == Got(text, rest)
  {
    assert ([QUOTE] + rest)[1..] == rest;
    PlainRun(text, [QUOTE] + rest, [], rest);
    assert text + [QUOTE] + rest == text + ([QUOTE] + rest) && text + [] == text;
  }

  lemma {:induction false} Unterminated(text: bytes)
    requires AllPlain(text)
    ensures ScanString(text).Fail?
  {
    if text != [] {
      assert IsPlain(text[0]);
      Unterminated(text[1..]);
    }
  }

  /** push_json: text after the first value is ignored.  A text is accepted exactly if it starts with one
      that denotes a value; what is appended then is exactly one well-formed item of that value, which
      skipping consumes completely; a rejected text leaves the buffer as it was. */
  method PushJson(buf: Buffer, text: bytes, fr: FloatReader) returns (ok: bool)
    requires |text| < TWO_64 && ReadsWords(fr)
    modifies buf
    ensures ok <==> ParseValue(fr, text).Got?
    ensures ok <==> exists v, rest :: Grammar.Denotes(fr, text, v, rest)
    ensures !ok ==> buf.data == old(buf.data)
    ensures ok ==> |old(buf.data)| <= |buf.data| && buf.data[..|old(buf.data)|] == old(buf.data)
    ensures ok ==> var item := buf.data[|old(buf.data)|..];
                   Skip(item) == Ok((), []) && Decode(item) == Ok(ParseValue(fr, text).value, [])
    ensures forall v, rest :: Grammar.Denotes(fr, text, v, rest) ==>
              |old(buf.data)| <= |buf.data| && Decode(buf.data[|old(buf.data)|..]) == Ok(v, [])
  {
    var reader := new Reader(text);
    assert reader.Rest() == text;
    ok := reader.PushValue(buf, fr);
    if ok {
      ghost var v := ParseValue(fr, text).value;
      assert buf.data[|old(buf.data)|..] == Encode(v) == Encode(v) + [];
      RoundTrip(v, []);
      SkipIsDecode(Encode(v));
    }
    DenotesParsed(fr, text);
  }

  lemma DenotesParsed(fr: FloatReader, text: bytes)
    ensures ParseValue(fr, text).Got? <==> exists v, rest :: Grammar.Denotes(fr, text, v, rest)
    ensures forall v, rest :: Grammar.Denotes(fr, text, v, rest) ==> ParseValue(fr, text) == Got(v, rest)
  {
    forall v, rest ensures Grammar.Denotes(fr, text, v, rest) <==> ParseValue(fr, text) == Got(v, rest) {
      Grammar.ParsesIff(fr, text, v, rest);
    }
    if ParseValue(fr, text).Got? {
      assert Grammar.Denotes(fr, text, ParseValue(fr, text).value, ParseValue(fr, text).rest);
    }
  }
}
