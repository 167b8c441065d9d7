/**
 The wire messages of src/remote/protocol.zig: arrays that start with a name, inside a frame.
 A payload is carried verbatim, as the bytes of one item.
 */
module Protocol {
  import opened Bytes
  import opened Cbor
  import opened CborLaws
  import opened CborBuffer
  import opened CborMatch
  import opened Stream
  import opened Framing

  datatype ProtocolMessage =
    | Send(from: nat, to: nat, payload: bytes)
    | SendNamed(from: nat, name: bytes, payload: bytes)
    | Link(local: nat, remote: nat)
    | Exit(local: nat, reason: bytes)
    | TransportError(reason: bytes)

  const SEND: bytes := [115, 101, 110, 100]
  const SEND_NAMED: bytes := [115, 101, 110, 100, 95, 110, 97, 109, 101, 100]
  const LINK: bytes := [108, 105, 110, 107]
  const EXIT: bytes := [101, 120, 105, 116]
  const TRANSPORT_ERROR: bytes := [116, 114, 97, 110, 115, 112, 111, 114, 116, 95, 101, 114, 114, 111, 114]

  const MAX_FRAME_SIZE := 8 * 4096

  /** Ids are machine words, and a payload is exactly one item. */
  predicate Sendable(m: ProtocolMessage) {
    match m
    case Send(f, t, p) => f < TWO_64 && t < TWO_64 && Skip(p) == Ok((), [])
    case SendNamed(f, n, p) => f < TWO_64 && |n| < TWO_64 && Skip(p) == Ok((), [])
    case Link(l, r) => l < TWO_64 && r < TWO_64
    case Exit(l, r) => l < TWO_64 && |r| < TWO_64
    case TransportError(r) => |r| < TWO_64
  }

  // ---------------------------------------------------------------- encode

  function Str(b: bytes): bytes
    requires |b| < TWO_64
  {
    Encode(Text(b))
  }

  function Num(n: nat): bytes
    requires n < TWO_64
  {
    Encode(UInt(n))
  }

  /** The body of a frame. */
  function Body(m: ProtocolMessage): bytes
    requires Sendable(m)
  {
    match m
    case Send(f, t, p) => Head(4, 4) + (Str(SEND) + (Num(f) + (Num(t) + p)))
    case SendNamed(f, n, p) => Head(4, 4) + (Str(SEND_NAMED) + (Num(f) + (Str(n) + p)))
    case Link(l, r) => Head(4, 3) + (Str(LINK) + (Num(l) + Num(r)))
    case Exit(l, r) => Head(4, 3) + (Str(EXIT) + (Num(l) + Str(r)))
    case TransportError(r) => Head(4, 2) + (Str(TRANSPORT_ERROR) + Str(r))
  }

  /** encode: fails when the frame does not fit. */
  method EncodeMessage(m: ProtocolMessage, buf: array<byte>) returns (end: Option<nat>)
    requires Sendable(m) && buf.Length <= MAX_FRAME_SIZE
    modifies buf
    ensures end.Some? <==> |Frame(Body(m))| <= buf.Length
    ensures end.Some? ==> end.value <= buf.Length && buf[..end.value] == Frame(Body(m))
  {
    end := WriteFrame(buf, Body(m));
  }

  // ---------------------------------------------------------------- decode

  const ID := GetUInt(TWO_64 - 1)

  datatype Outcome = Message(m: ProtocolMessage) | UnknownType | Malformed

  function NumAt(caps: seq<Capture>, i: nat): nat {
    if i < |caps| && caps[i].CUInt? then caps[i].n else 0
  }

  function StrAt(caps: seq<Capture>, i: nat): bytes {
    if i < |caps| && caps[i].CString? then caps[i].b else []
  }

  function RawAt(caps: seq<Capture>, i: nat): bytes {
    if i < |caps| && caps[i].CRaw? then caps[i].raw else []
  }

  /** One attempt to match the body: a name and fields. */
  function Attempt(body: bytes, name: bytes, ps: seq<Pattern>): Matched
    requires forall p :: p in ps ==> Proper(p)
  {
    MatchValue(A([StrLit(name)] + ps), body)
  }

  /** The shape that matched first decides; a match that throws ends the search. */
  function FirstOf(a: Matched, b: Matched, c: Matched, d: Matched, e: Matched): Outcome {
    if a.Yes? then Message(Send(NumAt(a.caps, 0), NumAt(a.caps, 1), RawAt(a.caps, 2)))
    else if a.Throw? then Malformed
    else if b.Yes? then Message(SendNamed(NumAt(b.caps, 0), StrAt(b.caps, 1), RawAt(b.caps, 2)))
    else if b.Throw? then Malformed
    else if c.Yes? then Message(Link(NumAt(c.caps, 0), NumAt(c.caps, 1)))
    else if c.Throw? then Malformed
    else if d.Yes? then Message(Exit(NumAt(d.caps, 0), StrAt(d.caps, 1)))
    else if d.Throw? then Malformed
    else if e.Yes? then Message(TransportError(StrAt(e.caps, 0)))
    else if e.Throw? then Malformed
    else UnknownType
  }

  const SEND_SHAPE := [ID, ID, GetRaw]
  const NAMED_SHAPE := [ID, GetString, GetRaw]
  const LINK_SHAPE := [ID, ID]
  const EXIT_SHAPE := [ID, GetString]
  const ERROR_SHAPE := [GetString]

  /** decode: the five shapes are tried in turn. */
  function DecodeMessage(body: bytes): Outcome {
    FirstOf(Attempt(body, SEND, SEND_SHAPE), Attempt(body, SEND_NAMED, NAMED_SHAPE), Attempt(body, LINK, LINK_SHAPE),
            Attempt(body, EXIT, EXIT_SHAPE), Attempt(body, TRANSPORT_ERROR, ERROR_SHAPE))
  }

  // ---------------------------------------------------------------- matching encoded fields

  lemma HeadParts(major: nat, v: nat, t: bytes)
    requires major < 8 && v < TWO_64
    ensures var s := Head(major, v) + t;
            s[0] / 32 == major && s[0] % 32 == Minor(v) && Argument(s[0] % 32, s[1..]) == Ok(v, t)
  {
    var w := Big(v, Width(Minor(v)));
    var s := Head(major, v) + t;
    InitialParts(major, Minor(v));
    ArgumentRoundTrip(v, t);
    assert s[1..] == w + t;
  }

  lemma HeaderMatch(n: nat, t: bytes)
    requires n < TWO_64
    ensures ReadHeader(4, Head(4, n) + t) == Ok(n, t)
  {
    HeadParts(4, n, t);
  }

  lemma StringParts(b: bytes, t: bytes)
    requires |b| < TWO_64
    ensures var s := Str(b) + t; s != [] && s[0] / 32 == 3 && ReadChunk(s[0] % 32, s[1..]) == Ok(b, t)
  {
    HeadParts(3, |b|, b + t);
    assert Str(b) + t == Head(3, |b|) + (b + t);
    assert (b + t)[..|b|] == b && (b + t)[|b|..] == t;
  }

  lemma NameMatch(name: bytes, b: bytes, t: bytes)
    requires |b| < TWO_64
    ensures MatchValue(StrLit(name), Str(b) + t) == if name == b then Yes([], t) else No
  {
    StringParts(b, t);
  }

  lemma StringMatch(b: bytes, t: bytes)
    requires |b| < TWO_64
    ensures MatchValue(GetString, Str(b) + t) == Yes([CString(b)], t)
  {
    StringParts(b, t);
  }

  lemma IdMatch(n: nat, t: bytes)
    requires n < TWO_64
    ensures MatchValue(ID, Num(n) + t) == Yes([CUInt(n)], t)
  {
    HeadParts(0, n, t);
  }

  lemma RawMatch(p: bytes)
    requires Skip(p) == Ok((), [])
    ensures MatchValue(GetRaw, p) == Yes([CRaw(p)], [])
  {
    assert Item(p) == p;
  }

  lemma LastMatch(p: Pattern, s: bytes)
    requires Proper(p) && p != IsType(More) && MatchValue(p, s).Yes?
    ensures MatchNext(1, [p], s) == MatchValue(p, s)
  {
  }

  lemma MoreMatch(n: nat, p: Pattern, ps: seq<Pattern>, s: bytes, r: Matched)
    requires n > 0 && ProperList(ps) && Proper(p) && MatchValue(p, s).Yes? && r == MatchNext(n - 1, ps, MatchValue(p, s).rest)
    ensures MatchNext(n, [p] + ps, s) == if r.Yes? then Yes(MatchValue(p, s).caps + r.caps, r.rest) else r
  {
    assert ([p] + ps)[1..] == ps;
  }

  /** A body with the right name matches as its fields do. */
  lemma RightName(n: nat, name: bytes, ps: seq<Pattern>, t: bytes)
    requires 1 < n < TWO_64 && |name| < TWO_64 && ProperList(ps)
    ensures Attempt(Head(4, n) + (Str(name) + t), name, ps) == MatchNext(n - 1, ps, t)
  {
    HeaderMatch(n, Str(name) + t);
    NameMatch(name, name, t);
    var r := MatchNext(n - 1, ps, t);
    MoreMatch(n, StrLit(name), ps, Str(name) + t, r);
    if r.Yes? {
      assert [] + r.caps == r.caps;
    }
  }

  lemma WrongName(n: nat, name: bytes, other: bytes, ps: seq<Pattern>, t: bytes)
    requires 1 < n < TWO_64 && |other| < TWO_64 && ProperList(ps) && name != other
    ensures Attempt(Head(4, n) + (Str(other) + t), name, ps) == No
  {
    HeaderMatch(n, Str(other) + t);
    NameMatch(name, other, t);
    NoMatch(n, StrLit(name), ps, Str(other) + t);
  }

  lemma NoMatch(n: nat, p: Pattern, ps: seq<Pattern>, s: bytes)
    requires n > 0 && ProperList(ps) && Proper(p) && MatchValue(p, s).No?
    ensures MatchNext(n, [p] + ps, s) == No
  {
    assert ([p] + ps)[0] == p && |[p] + ps| > 1;
  }

  /** The fields of the five shapes. */
  lemma SendFields(f: nat, t: nat, p: bytes)
    requires f < TWO_64 && t < TWO_64 && Skip(p) == Ok((), [])
    ensures MatchNext(3, [ID, ID, GetRaw], Num(f) + (Num(t) + p)) == Yes([CUInt(f), CUInt(t), CRaw(p)], [])
  {
    IdMatch(f, Num(t) + p);
    IdMatch(t, p);
    RawMatch(p);
    LastMatch(GetRaw, p);
    MoreMatch(2, ID, [GetRaw], Num(t) + p, Yes([CRaw(p)], []));
    assert [ID] + [GetRaw] == [ID, GetRaw];
    MoreMatch(3, ID, [ID, GetRaw], Num(f) + (Num(t) + p), Yes([CUInt(t)] + [CRaw(p)], []));
    assert [ID] + [ID, GetRaw] == [ID, ID, GetRaw];
  }

  lemma NamedFields(f: nat, n: bytes, p: bytes)
    requires f < TWO_64 && |n| < TWO_64 && Skip(p) == Ok((), [])
    ensures MatchNext(3, [ID, GetString, GetRaw], Num(f) + (Str(n) + p)) == Yes([CUInt(f), CString(n), CRaw(p)], [])
  {
    NameAndPayload(n, p);
    IdMatch(f, Str(n) + p);
    MoreMatch(3, ID, [GetString, GetRaw], Num(f) + (Str(n) + p), Yes([CString(n), CRaw(p)], []));
    assert [ID] + [GetString, GetRaw] == [ID, GetString, GetRaw];
    assert [CUInt(f)] + [CString(n), CRaw(p)] == [CUInt(f), CString(n), CRaw(p)];
  }

  lemma NameAndPayload(n: bytes, p: bytes)
    requires |n| < TWO_64 && Skip(p) == Ok((), [])
    ensures MatchNext(2, [GetString, GetRaw], Str(n) + p) == Yes([CString(n), CRaw(p)], [])
  {
    StringMatch(n, p);
    RawMatch(p);
    LastMatch(GetRaw, p);
    MoreMatch(2, GetString, [GetRaw], Str(n) + p, Yes([CRaw(p)], []));
    assert [GetString] + [GetRaw] == [GetString, GetRaw];
    assert [CString(n)] + [CRaw(p)] == [CString(n), CRaw(p)];
  }

  lemma LinkFields(l: nat, r: nat)
    requires l < TWO_64 && r < TWO_64
    ensures MatchNext(2, [ID, ID], Num(l) + Num(r)) == Yes([CUInt(l), CUInt(r)], [])
  {
    assert Num(r) + [] == Num(r);
    IdMatch(l, Num(r));
    IdMatch(r, []);
    LastMatch(ID, Num(r));
    MoreMatch(2, ID, [ID], Num(l) + Num(r), Yes([CUInt(r)], []));
    assert [ID] + [ID] == [ID, ID];
  }

  lemma ExitFields(l: nat, r: bytes)
    requires l < TWO_64 && |r| < TWO_64
    ensures MatchNext(2, [ID, GetString], Num(l) + Str(r)) == Yes([CUInt(l), CString(r)], [])
  {
    assert Str(r) + [] == Str(r);
    IdMatch(l, Str(r));
    StringMatch(r, []);
    LastMatch(GetString, Str(r));
    MoreMatch(2, ID, [GetString], Num(l) + Str(r), Yes([CString(r)], []));
    assert [ID] + [GetString] == [ID, GetString];
  }

  lemma ErrorFields(r: bytes)
    requires |r| < TWO_64
    ensures MatchNext(1, [GetString], Str(r)) == Yes([CString(r)], [])
  {
    assert Str(r) + [] == Str(r);
    StringMatch(r, []);
    LastMatch(GetString, Str(r));
  }

  // ---------------------------------------------------------------- round trip

  /** The name and the fields of a message. */
  function NameOf(m: ProtocolMessage): bytes {
    match m
    case Send(_, _, _) => SEND
    case SendNamed(_, _, _) => SEND_NAMED
    case Link(_, _) => LINK
    case Exit(_, _) => EXIT
    case TransportError(_) => TRANSPORT_ERROR
  }

  function ArityOf(m: ProtocolMessage): nat {
    match m
    case Send(_, _, _) => 4
    case SendNamed(_, _, _) => 4
    case Link(_, _) => 3
    case Exit(_, _) => 3
    case TransportError(_) => 2
  }

  function FieldsOf(m: ProtocolMessage): bytes
    requires Sendable(m)
  {
    match m
    case Send(f, t, p) => Num(f) + (Num(t) + p)
    case SendNamed(f, n, p) => Num(f) + (Str(n) + p)
    case Link(l, r) => Num(l) + Num(r)
    case Exit(l, r) => Num(l) + Str(r)
    case TransportError(r) => Str(r)
  }

  lemma BodyParts(m: ProtocolMessage)
    requires Sendable(m)
    ensures Body(m) == Head(4, ArityOf(m)) + (Str(NameOf(m)) + FieldsOf(m))
  {
  }

  /** Shapes with another name do not match. */
  lemma OtherShape(m: ProtocolMessage, name: bytes, ps: seq<Pattern>)
    requires Sendable(m) && ProperList(ps) && name != NameOf(m)
    ensures Attempt(Body(m), name, ps) == No
  {
    BodyParts(m);
    WrongName(ArityOf(m), name, NameOf(m), ps, FieldsOf(m));
  }

  lemma OwnShape(m: ProtocolMessage, ps: seq<Pattern>)
    requires Sendable(m) && ProperList(ps)
    ensures Attempt(Body(m), NameOf(m), ps) == MatchNext(ArityOf(m) - 1, ps, FieldsOf(m))
  {
    BodyParts(m);
    RightName(ArityOf(m), NameOf(m), ps, FieldsOf(m));
  }

  lemma NamesDiffer()
    ensures SEND != SEND_NAMED && SEND != LINK && SEND != EXIT && SEND != TRANSPORT_ERROR
    ensures SEND_NAMED != LINK && SEND_NAMED != EXIT && SEND_NAMED != TRANSPORT_ERROR
    ensures LINK != EXIT && LINK != TRANSPORT_ERROR && EXIT != TRANSPORT_ERROR
  {
    assert |SEND| == |LINK| == |EXIT| == 4 && |SEND_NAMED| == 10 && |TRANSPORT_ERROR| == 15;
    assert SEND[0] != LINK[0] && SEND[0] != EXIT[0] && LINK[0] != EXIT[0];
  }

  /** What the shape with the message's own name captures. */
  lemma OwnCaptures(m: ProtocolMessage, ps: seq<Pattern>, caps: seq<Capture>)
    requires Sendable(m)
    requires match m
             case Send(f, t, p) => ps == SEND_SHAPE && caps == [CUInt(f), CUInt(t), CRaw(p)]
             case SendNamed(f, n, p) => ps == NAMED_SHAPE && caps == [CUInt(f), CString(n), CRaw(p)]
             case Link(l, r) => ps == LINK_SHAPE && caps == [CUInt(l), CUInt(r)]
             case Exit(l, r) => ps == EXIT_SHAPE && caps == [CUInt(l), CString(r)]
             case TransportError(r) => ps == ERROR_SHAPE && caps == [CString(r)]
    ensures ProperList(ps) && MatchNext(ArityOf(m) - 1, ps, FieldsOf(m)) == Yes(caps, [])
  {
    match m {
      case Send(f, t, p) => SendFields(f, t, p);
      case SendNamed(f, n, p) => NamedFields(f, n, p);
      case Link(l, r) => LinkFields(l, r);
      case Exit(l, r) => ExitFields(l, r);
      case TransportError(r) => ErrorFields(r);
    }
  }

  /** The attempt with one name: a match if it is the message's own, and none otherwise. */
  lemma Tried(m: ProtocolMessage, name: bytes, ps: seq<Pattern>, own: seq<Pattern>, caps: seq<Capture>)
    requires Sendable(m) && ProperList(ps) && ProperList(own)
    requires MatchNext(ArityOf(m) - 1, own, FieldsOf(m)) == Yes(caps, []) && (name == NameOf(m) ==> ps == own)
    ensures Attempt(Body(m), name, ps) == if name == NameOf(m) then Yes(caps, []) else No
  {
    if name == NameOf(m) {
      OwnShape(m, ps);
    } else {
      OtherShape(m, name, ps);
    }
  }

  /** decode gives back the message given to encode. */
  lemma MessageRoundTrip(m: ProtocolMessage)
    requires Sendable(m)
    ensures DecodeMessage(Body(m)) == Message(m)
  {
    var own, caps := ShapeOf(m), CapturesOf(m);
    OwnCaptures(m, own, caps);
    NamesDiffer();
    Tried(m, SEND, SEND_SHAPE, own, caps);
    Tried(m, SEND_NAMED, NAMED_SHAPE, own, caps);
    Tried(m, LINK, LINK_SHAPE, own, caps);
    Tried(m, EXIT, EXIT_SHAPE, own, caps);
    Tried(m, TRANSPORT_ERROR, ERROR_SHAPE, own, caps);
    Chosen(m, Attempt(Body(m), SEND, SEND_SHAPE), Attempt(Body(m), SEND_NAMED, NAMED_SHAPE),
           Attempt(Body(m), LINK, LINK_SHAPE), Attempt(Body(m), EXIT, EXIT_SHAPE),
           Attempt(Body(m), TRANSPORT_ERROR, ERROR_SHAPE));
  }

  function ShapeOf(m: ProtocolMessage): seq<Pattern> {
    match m
    case Send(_, _, _) => SEND_SHAPE
    case SendNamed(_, _, _) => NAMED_SHAPE
    case Link(_, _) => LINK_SHAPE
    case Exit(_, _) => EXIT_SHAPE
    case TransportError(_) => ERROR_SHAPE
  }

  function CapturesOf(m: ProtocolMessage): seq<Capture> {
    match m
    case Send(f, t, p) => [CUInt(f), CUInt(t), CRaw(p)]
    case SendNamed(f, n, p) => [CUInt(f), CString(n), CRaw(p)]
    case Link(l, r) => [CUInt(l), CUInt(r)]
    case Exit(l, r) => [CUInt(l), CString(r)]
    case TransportError(r) => [CString(r)]
  }

  lemma Chosen(m: ProtocolMessage, a: Matched, b: Matched, c: Matched, d: Matched, e: Matched)
    requires var y := Yes(CapturesOf(m), []);
             && a == (if m.Send? then y else No) && b == (if m.SendNamed? then y else No)
             && c == (if m.Link? then y else No) && d == (if m.Exit? then y else No)
             && e == (if m.TransportError? then y else No)
    ensures FirstOf(a, b, c, d, e) == Message(m)
  {
  }

  // ---------------------------------------------------------------- what is on the wire

  /** The value of a message: an array of its name and its fields, with the payload as it is. */
  function WireValue(m: ProtocolMessage): Value {
    match m
    case Send(f, t, p) => Array([Text(Ascii("send")), UInt(f), UInt(t)] + Payload(p))
    case SendNamed(f, n, p) => Array([Text(Ascii("send_named")), UInt(f), Text(n)] + Payload(p))
    case Link(l, r) => Array([Text(Ascii("link")), UInt(l), UInt(r)])
    case Exit(l, r) => Array([Text(Ascii("exit")), UInt(l), Text(r)])
    case TransportError(r) => Array([Text(Ascii("transport_error")), Text(r)])
  }

  function Payload(p: bytes): seq<Value> {
    if Decode(p).Ok? then [Decode(p).value] else []
  }

  lemma Spelled()
    ensures SEND == Ascii("send") && SEND_NAMED == Ascii("send_named") && LINK == Ascii("link")
    ensures EXIT == Ascii("exit") && TRANSPORT_ERROR == Ascii("transport_error")
  {
  }

  lemma FieldFirst(v: Value, s: bytes, vs: seq<Value>)
    requires WellFormed(v) && DecodeN(|vs|, s) == Ok(vs, [])
    ensures DecodeN(|vs| + 1, Encode(v) + s) == Ok([v] + vs, [])
  {
    RoundTrip(v, s);
    DecodeOneMore(v, vs, Encode(v) + s, s, []);
  }

  lemma NoFields()
    ensures DecodeN(0, []) == Ok([], [])
  {
  }

  lemma PayloadField(p: bytes)
    requires Skip(p) == Ok((), [])
    ensures |Payload(p)| == 1 && DecodeN(1, p) == Ok(Payload(p), [])
  {
    SkipIsDecode(p);
    NoFields();
    DecodeOneMore(Decode(p).value, [], p, [], []);
    assert [Decode(p).value] + [] == [Decode(p).value];
  }

  lemma LastField(v: Value)
    requires WellFormed(v)
    ensures DecodeN(1, Encode(v)) == Ok([v], [])
  {
    NoFields();
    FieldFirst(v, [], []);
    assert Encode(v) + [] == Encode(v) && [v] + [] == [v];
  }

  lemma ArrayDecodes(s: bytes, vs: seq<Value>)
    requires DecodeN(|vs|, s) == Ok(vs, []) && |vs| < TWO_64
    ensures Decode(Head(4, |vs|) + s) == Ok(Array(vs), [])
  {
    DecodeHead(4, |vs|, s);
  }

  /** The body of every frame holds exactly that value. */
  lemma WireFormat(m: ProtocolMessage)
    requires Sendable(m)
    ensures Decode(Body(m)) == Ok(WireValue(m), [])
  {
    Spelled();
    match m {
      case Send(f, t, p) => FourFields(SEND, UInt(f), UInt(t), p);
      case SendNamed(f, n, p) => FourFields(SEND_NAMED, UInt(f), Text(n), p);
      case Link(l, r) => ThreeFields(LINK, UInt(l), UInt(r));
      case Exit(l, r) => ThreeFields(EXIT, UInt(l), Text(r));
      case TransportError(r) =>
        LastField(Text(r));
        FieldFirst(Text(TRANSPORT_ERROR), Encode(Text(r)), [Text(r)]);
        ArrayDecodes(Str(TRANSPORT_ERROR) + Encode(Text(r)), [Text(TRANSPORT_ERROR)] + [Text(r)]);
        assert [Text(TRANSPORT_ERROR)] + [Text(r)] == [Text(TRANSPORT_ERROR), Text(r)];
    }
  }

  lemma FourFields(name: bytes, v: Value, w: Value, p: bytes)
    requires |name| < TWO_64 && WellFormed(v) && WellFormed(w) && Skip(p) == Ok((), [])
    ensures Decode(Head(4, 4) + (Str(name) + (Encode(v) + (Encode(w) + p)))) == Ok(Array([Text(name), v, w] + Payload(p)), [])
  {
    PayloadField(p);
    var a, b := [w] + Payload(p), [v] + ([w] + Payload(p));
    FieldFirst(w, p, Payload(p));
    FieldFirst(v, Encode(w) + p, a);
    FieldFirst(Text(name), Encode(v) + (Encode(w) + p), b);
    ArrayDecodes(Str(name) + (Encode(v) + (Encode(w) + p)), [Text(name)] + b);
    assert [Text(name)] + b == [Text(name), v, w] + Payload(p);
  }

  lemma ThreeFields(name: bytes, v: Value, w: Value)
    requires |name| < TWO_64 && WellFormed(v) && WellFormed(w)
    ensures Decode(Head(4, 3) + (Str(name) + (Encode(v) + Encode(w)))) == Ok(Array([Text(name), v, w]), [])
  {
    LastField(w);
    var b := [v] + [w];
    FieldFirst(v, Encode(w), [w]);
    FieldFirst(Text(name), Encode(v) + Encode(w), b);
    ArrayDecodes(Str(name) + (Encode(v) + Encode(w)), [Text(name)] + b);
    assert [Text(name)] + b == [Text(name), v, w];
  }

  // ---------------------------------------------------------------- a stream of messages

  predicate Fits(m: ProtocolMessage) {
    Sendable(m) && |Frame(Body(m))| <= MAX_FRAME_SIZE
  }

  predicate AllFit(ms: seq<ProtocolMessage>) {
    forall m :: m in ms ==> Fits(m)
  }

  function Bodies(ms: seq<ProtocolMessage>): (bs: seq<bytes>)
    requires AllFit(ms)
    ensures |bs| == |ms|
  {
    if ms == [] then [] else assert ms[0] in ms; [Body(ms[0])] + Bodies(ms[1..])
  }

  lemma {:induction false} BodyAt(ms: seq<ProtocolMessage>, i: nat)
    requires AllFit(ms) && i < |ms|
    ensures Fits(ms[i]) && Bodies(ms)[i] == Body(ms[i])
  {
    if i > 0 {
      BodyAt(ms[1..], i - 1);
    }
  }

  function Frames(bs: seq<bytes>): (fs: seq<bytes>)
    ensures |fs| == |bs| && forall i :: 0 <= i < |bs| ==> fs[i] == Frame(bs[i])
  {
    if bs == [] then [] else [Frame(bs[0])] + Frames(bs[1..])
  }

  lemma FramesWhole(bs: seq<bytes>)
    requires forall i :: 0 <= i < |bs| ==> |bs[i]| < TWO_32
    ensures AllWhole(ScanFrame, Frames(bs), bs)
  {
    forall i | 0 <= i < |bs| ensures Whole(ScanFrame, Frames(bs)[i], bs[i]) {
      FrameWhole(bs[i]);
    }
  }

  /** However the frames of a list of messages are cut into chunks, each frame is dispatched exactly
      once and in order, and decodes to the message it was made from; nothing is left over. */
  lemma EveryMessageDispatched(ms: seq<ProtocolMessage>, chunks: seq<bytes>)
    requires AllFit(ms) && Concat(chunks) == Concat(Frames(Bodies(ms)))
    ensures var d := DrainAll(ScanFrame, [], chunks);
            && d.rest == [] && |d.items| == |ms|
            && forall i :: 0 <= i < |ms| ==> DecodeMessage(d.items[i]) == Message(ms[i])
  {
    var bs := Bodies(ms);
    forall i | 0 <= i < |bs| ensures |bs[i]| < TWO_32 && DecodeMessage(bs[i]) == Message(ms[i]) {
      BodyAt(ms, i);
      MessageRoundTrip(ms[i]);
    }
    FramesSteady();
    FramesWhole(bs);
    AllArrive(ScanFrame, Frames(bs), bs, chunks);
  }
}
