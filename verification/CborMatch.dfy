/**
 The streaming matcher of include/cbor/cbor.hpp, and matching of decoded trees.

 The matcher never builds a tree: it moves through the bytes as it tries the patterns.  It may
 succeed, fail, or throw.  On any well-formed item it does exactly what matching the decoded tree
 does, and when it succeeds it stands exactly after the item.
 */
module CborMatch {
  import opened Bytes
  import opened Cbor
  import opened CborLaws
  import opened CborBuffer

  datatype Type =
    | Number | Floating | BytesType | StringType | ArrayType | MapType | Boolean | NullType | Any | More | Unknown

  /** A parameter of a match: a type, a literal, a nested A(...) or M(...), or an extractor. */
  datatype Pattern =
    | IsType(t: Type)
    | IntLit(i: int)
    | UIntLit(n: nat)
    | BoolLit(v: bool)
    | StrLit(b: bytes)
    | A(ps: seq<Pattern>)
    | M(ps: seq<Pattern>)
    | GetInt(lo: int, hi: int)     // a signed integer of some width
    | GetUInt(max: nat)
    | GetBool
    | GetFloat
    | GetString
    | GetType
    | GetRange                     // null, array or map
    | GetRaw                       // any item

  datatype Capture =
    | CInt(i: int)
    | CUInt(n: nat)
    | CBool(on: bool)
    | CFloat(v: Value)
    | CString(b: bytes)
    | CType(t: Type)
    | CRaw(raw: bytes)             // the bytes of the item, not copied
    | CTree(v: Value)

  /** Parameter lists are not empty: there is no match_next without a pattern. */
  predicate Proper(p: Pattern)
    decreases p
  {
    (p.A? || p.M?) ==> p.ps != [] && forall q :: q in p.ps ==> Proper(q)
  }

  predicate ProperList(ps: seq<Pattern>) {
    ps != [] && forall q :: q in ps ==> Proper(q)
  }

  // ---------------------------------------------------------------- matching trees

  datatype Verdict = Accepts(caps: seq<Capture>) | Rejects | Throws

  /** match_type. */
  function TypeOf(v: Value): Type {
    match v
    case UInt(_) => Number
    case NInt(_) => Number
    case ByteString(_) => BytesType
    case Text(_) => StringType
    case Array(_) => ArrayType
    case Map(_) => MapType
    case Simple(k) => if k == 22 then NullType else if k == 20 || k == 21 then Boolean else Unknown
    case Simple8(_) => Unknown
    case Half(_) => Floating
    case Single(_) => Floating
    case Double(_) => Floating
  }

  function If(ok: bool, caps: seq<Capture>): Verdict {
    if ok then Accepts(caps) else Rejects
  }

  /** Patterns that are not nested. */
  function MatchLeaf(p: Pattern, v: Value): Verdict {
    match p
    case IsType(t) => If(t == Any || t == TypeOf(v), [])
    case IntLit(i) => If(ToInt(v) == Some(i), [])
    case UIntLit(n) => If(v == UInt(n), [])
    case BoolLit(x) => If(v == (if x then TRUE else FALSE), [])
    case StrLit(b) => If(v == Text(b) || v == ByteString(b), [])
    case GetInt(lo, hi) =>
      if ToInt(v).Some? then If(lo <= ToInt(v).value <= hi, [CInt(ToInt(v).value)]) else Rejects
    case GetUInt(hi) => if v.UInt? then If(v.n <= hi, [CUInt(v.n)]) else Rejects
    case GetBool => If(v == TRUE || v == FALSE, [CBool(v == TRUE)])
    case GetFloat => If(v.UInt? || v.NInt? || TypeOf(v).Floating?, [CFloat(v)])
    case GetString => if v.Text? || v.ByteString? then Accepts([CString(v.b)]) else Rejects
    case GetType => Accepts([CType(TypeOf(v))])
    case GetRange => If(v == NULL || v.Array? || v.Map?, [CTree(v)])
    case GetRaw => Accepts([CTree(v)])
    case _ => Rejects
  }

  function MatchTree(p: Pattern, v: Value): Verdict
    requires Proper(p)
    decreases p
  {
    if p.A? then
      if v.Array? then MatchTrees(p.ps, v.items) else if v == NULL then MatchTrees(p.ps, []) else Throws
    else if p.M? then
      if v.Map? then MatchTrees(p.ps, v.items) else if v == NULL then MatchTrees(p.ps, []) else Throws
    else MatchLeaf(p, v)
  }

  function Then(m: Verdict, caps: seq<Capture>): Verdict {
    if m.Accepts? then Accepts(caps + m.caps) else m
  }

  function MatchTrees(ps: seq<Pattern>, vs: seq<Value>): Verdict
    requires ProperList(ps)
    decreases ps
  {
    if |ps| == 1 && ps[0] == IsType(More) then Accepts([])
    else if vs == [] then Rejects
    else
      var m := MatchTree(ps[0], vs[0]);
      if !m.Accepts? then m
      else if |ps| == 1 then If(|vs| == 1, m.caps)
      else Then(MatchTrees(ps[1..], vs[1..]), m.caps)
  }

  // ---------------------------------------------------------------- matching bytes

  datatype Matched = Yes(caps: seq<Capture>, rest: bytes) | No | Throw

  function Test<T>(p: Parse<T>, ok: T -> bool, caps: T -> seq<Capture>): Matched {
    match p
    case Ok(x, r) => if ok(x) then Yes(caps(x), r) else No
    case TooShort => Throw
    case Invalid => Throw
  }

  /** What the patterns for one value do with the bytes after its initial byte. */
  function ReadLeaf(p: Pattern, major: nat, minor: nat, s: bytes): Matched {
    match p
    case IsType(t) => Test(SkipBody(major, minor, s), _ => t == Any || t == ByteType(major, minor), _ => [])
    case IntLit(i) => Test(ReadInt(major, minor, s), x => x == Some(i), _ => [])
    case UIntLit(n) =>
      if major != 0 then No else Test(Argument(minor, s), x => x == n, _ => [])
    case BoolLit(x) =>
      if major == 7 && minor == (if x then 21 else 20) then Yes([], s) else No
    case StrLit(b) =>
      if major != 2 && major != 3 then No else Test(ReadChunk(minor, s), x => x == b, _ => [])
    case GetInt(lo, hi) =>
      Test(ReadInt(major, minor, s), (x: Option<int>) => x.Some? && lo <= x.value <= hi,
           (x: Option<int>) => if x.Some? then [CInt(x.value)] else [])
    case GetUInt(hi) =>
      if major != 0 then No else Test(Argument(minor, s), (x: nat) => x <= hi, (x: nat) => [CUInt(x)])
    case GetBool =>
      if major == 7 && (minor == 20 || minor == 21) then Yes([CBool(minor == 21)], s) else No
    case GetFloat =>
      if major == 0 then Test(Argument(minor, s), (x: nat) => true, (x: nat) => [CFloat(UInt(x))])
      else if major == 1 then Test(Argument(minor, s), (x: nat) => true, (x: nat) => [CFloat(NInt(x))])
      else if major == 7 && 25 <= minor <= 27 then
        Test(Argument(minor, s), (x: nat) => true, (x: nat) => [CFloat(Special(minor, x))])
      else No
    case GetString =>
      if major != 2 && major != 3 then No else Test(ReadChunk(minor, s), (x: bytes) => true, (x: bytes) => [CString(x)])
    case GetType => Test(SkipBody(major, minor, s), _ => true, _ => [CType(ByteType(major, minor))])
    case _ => No
  }

  /** The type that match_type reads off an initial byte. */
  function ByteType(major: nat, minor: nat): Type {
    if major == 0 || major == 1 then Number
    else if major == 2 then BytesType
    else if major == 3 then StringType
    else if major == 4 then ArrayType
    else if major == 5 then MapType
    else if minor == 22 then NullType
    else if minor == 20 || minor == 21 then Boolean
    else if 25 <= minor <= 27 then Floating
    else Unknown
  }

  /** match_int: nothing where it returns false. */
  function ReadInt(major: nat, minor: nat, s: bytes): Parse<Option<int>> {
    if major != 0 && major != 1 then Ok(None, s)
    else
      match Argument(minor, s)
      case TooShort => TooShort
      case Invalid => Invalid
      case Ok(n, r) =>
        if major == 1 then Ok(Some(Negated(n)), r)
        else if Signed(n) < 0 then Ok(None, r)
        else Ok(Some(Signed(n)), r)
  }

  /** decode_string. */
  function ReadChunk(minor: nat, s: bytes): Parse<bytes> {
    match Argument(minor, s)
    case TooShort => TooShort
    case Invalid => Invalid
    case Ok(n, r) => Chunk(n, r)
  }

  /** The header of decode_array_header (major 4) or decode_map_header (major 5), as a number of items. */
  function ReadHeader(major: nat, s: bytes): Parse<nat> {
    if s == [] then TooShort
    else if s[0] == 0xf6 then Ok(0, s[1..])
    else if s[0] / 32 != major then Invalid
    else
      match Argument(s[0] % 32, s[1..])
      case TooShort => TooShort
      case Invalid => Invalid
      case Ok(n, r) => Ok(Count(major, n), r)
  }

  function MatchValue(p: Pattern, s: bytes): Matched
    requires Proper(p)
    decreases p
  {
    match p
    case A(ps) =>
      var h := ReadHeader(4, s);
      if h.Ok? then MatchNext(h.value, ps, h.rest) else Throw
    case M(ps) =>
      var h := ReadHeader(5, s);
      if h.Ok? then MatchNext(h.value, ps, h.rest) else Throw
    case GetRange =>
      var q := Skip(s);
      if !q.Ok? then Throw
      else if ByteType(s[0] / 32, s[0] % 32) in {NullType, ArrayType, MapType} then Yes([CRaw(Item(s))], q.rest)
      else No
    case GetRaw =>
      var q := Skip(s);
      if q.Ok? then Yes([CRaw(Item(s))], q.rest) else Throw
    case _ =>
      if s == [] then Throw else ReadLeaf(p, s[0] / 32, s[0] % 32, s[1..])
  }

  function MatchNext(n: nat, ps: seq<Pattern>, s: bytes): Matched
    requires ProperList(ps)
    decreases ps
  {
    if |ps| == 1 && ps[0] == IsType(More) then
      var q := SkipN(n, s);
      if q.Ok? then Yes([], q.rest) else Throw
    else if n == 0 then No
    else
      var m := MatchValue(ps[0], s);
      if !m.Yes? then m
      else if |ps| == 1 then (if n == 1 then m else No)
      else
        var r := MatchNext(n - 1, ps[1..], m.rest);
        if r.Yes? then Yes(m.caps + r.caps, r.rest) else r
  }
}
