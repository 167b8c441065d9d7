/**
 The hub of src/hub.cpp: actors subscribe, with or without a filter, and broadcasts are passed on.

 A filter cannot travel in a message, so it is put into a queue beside the mailbox, under a lock
 that also covers the sending of the message that announces it.
 */
module Hub {
  import opened Bytes
  import opened Cbor
  import opened CborLaws
  import opened CborBuffer
  import opened CborMatch
  import opened CborMatchLaws
  import opened Protocol
  import Screening

  // ---------------------------------------------------------------- broadcasts as bytes

  const BROADCAST: bytes := [98, 114, 111, 97, 100, 99, 97, 115, 116]

  /** The bytes that are erased in front of the inner array. */
  const ERASED: nat := 11

  predicate IsBroadcast(msg: bytes) {
    MatchValue(A([StrLit(BROADCAST), IsType(ArrayType)]), msg).Yes?
  }

  function Erased(msg: bytes): bytes {
    if |msg| < ERASED then [] else msg[ERASED..]
  }

  /** What follows the name in a message that starts with an array header and the name. */
  function AfterName(msg: bytes): Matched {
    var h := ReadHeader(4, msg);
    if h.Ok? then MatchValue(StrLit(BROADCAST), h.rest) else Throw
  }

  lemma BroadcastParts(msg: bytes)
    requires IsBroadcast(msg)
    ensures AfterName(msg).Yes? && ReadHeader(4, msg) == Ok(2, ReadHeader(4, msg).rest)
  {
    var ps := [StrLit(BROADCAST), IsType(ArrayType)];
    var h := ReadHeader(4, msg);
    assert h.Ok? && MatchNext(h.value, ps, h.rest).Yes?;
    assert ps[1..] == [IsType(ArrayType)];
    TwoMatched(h.value, ps[0], ps[1], h.rest);
  }

  lemma TwoMatched(n: nat, p: Pattern, q: Pattern, s: bytes)
    requires Proper(p) && Proper(q) && q != IsType(More) && MatchNext(n, [p, q], s).Yes?
    ensures n == 2 && MatchValue(p, s).Yes?
  {
    assert [p, q][1..] == [q];
    assert n > 0 && MatchValue(p, s).Yes?;
    assert MatchNext(n - 1, [q], MatchValue(p, s).rest).Yes?;
  }

  /** How many bytes the head of an item takes. */
  function HeadLength(c: byte): nat {
    1 + Width(c % 32)
  }

  lemma ArgumentOffset(minor: nat, s: bytes)
    requires Argument(minor, s).Ok?
    ensures var r := Argument(minor, s).rest; |s| - |r| == Width(minor) && Suffix(r, s)
  {
    WordSuffix(Width(minor), s);
  }

  lemma HeaderOffset(msg: bytes)
    requires ReadHeader(4, msg).Ok? && ReadHeader(4, msg).value == 2
    ensures var r := ReadHeader(4, msg).rest; msg != [] && |msg| - |r| == HeadLength(msg[0]) && Suffix(r, msg)
  {
    ArgumentOffset(msg[0] % 32, msg[1..]);
    WordSuffix(1, msg);
    SuffixTransitive(ReadHeader(4, msg).rest, msg[1..], msg);
  }

  lemma StringOffset(b: bytes, s: bytes)
    requires MatchValue(StrLit(b), s).Yes?
    ensures var r := MatchValue(StrLit(b), s).rest; s != [] && |s| - |r| == HeadLength(s[0]) + |b| && Suffix(r, s)
  {
    var a := Argument(s[0] % 32, s[1..]);
    ArgumentOffset(s[0] % 32, s[1..]);
    WordSuffix(1, s);
    SuffixTransitive(a.rest, s[1..], s);
    WordSuffix(a.value, a.rest);
    SuffixTransitive(MatchValue(StrLit(b), s).rest, a.rest, s);
  }

  /** Erasing eleven bytes leaves exactly the inner array if and only if both heads in front of it
      are one byte long, as they are in everything the library itself encodes. */
  lemma ErasedExact(msg: bytes)
    requires IsBroadcast(msg)
    ensures var r := ReadHeader(4, msg).rest;
            && msg != [] && r != [] && AfterName(msg).Yes?
            && (Erased(msg) == AfterName(msg).rest <==> msg[0] % 32 < 24 && r[0] % 32 < 24)
  {
    BroadcastParts(msg);
    HeaderOffset(msg);
    var r := ReadHeader(4, msg).rest;
    StringOffset(BROADCAST, r);
    var rest := AfterName(msg).rest;
    SuffixTransitive(rest, r, msg);
    assert rest == msg[|msg| - |rest|..];
    assert |msg| - |rest| == HeadLength(msg[0]) + HeadLength(r[0]) + 9;
  }

  /** A broadcast as the library encodes it, around the bytes of one array. */
  function Broadcast(inner: bytes): bytes {
    Head(4, 2) + (Str(BROADCAST) + inner)
  }

  predicate IsArray(inner: bytes) {
    inner != [] && inner[0] / 32 == 4 && Skip(inner) == Ok((), [])
  }

  /** Such a broadcast is recognised, and the eleven bytes are exactly what surrounds the array. */
  lemma BroadcastErased(inner: bytes)
    requires IsArray(inner)
    ensures Classify(Broadcast(inner)) == Broadcasts && Erased(Broadcast(inner)) == inner
  {
    var ps := [StrLit(BROADCAST)] + [IsType(ArrayType)];
    assert ps == [StrLit(BROADCAST), IsType(ArrayType)];
    ArrayMatches(inner);
    RightName(2, BROADCAST, [IsType(ArrayType)], inner);
    Screening.OtherPasses(2, BROADCAST, inner);
    assert |Head(4, 2)| == 1 && |Str(BROADCAST)| == 10;
  }

  lemma ArrayMatches(inner: bytes)
    requires IsArray(inner)
    ensures MatchNext(1, [IsType(ArrayType)], inner) == Yes([], [])
  {
    LastMatch(IsType(ArrayType), inner);
  }

  // ---------------------------------------------------------------- which message it is

  const SUBSCRIBE: bytes := [115, 117, 98, 115, 99, 114, 105, 98, 101]
  const SUBSCRIBE_FILTERED: bytes := SUBSCRIBE + [95, 102, 105, 108, 116, 101, 114, 101, 100]
  const SUBSCRIBE_MESSAGES: bytes := SUBSCRIBE + [95, 109, 101, 115, 115, 97, 103, 101, 115]
  const LISTEN: bytes := [108, 105, 115, 116, 101, 110]
  const SHUTDOWN: bytes := [115, 104, 117, 116, 100, 111, 119, 110]

  /** What becomes of a message: instance::run may keep it from the receiver, and then there are the
      ways through hub_impl::receive.  An exit, and a match that throws, end the hub as well. */
  datatype Branch =
    | Kept
    | Broadcasts
    | Subscribes
    | SubscribesFiltered
    | SubscribesMessages(names: bytes)
    | ShutsDown
    | Unexpected(listened: bool)
    | Fails

  predicate Ends(b: Branch) {
    b.ShutsDown? || b.Unexpected? || b.Fails?
  }

  function Classify(msg: bytes): Branch {
    match Screening.Screen(msg)
    case Kept => Kept
    case Ends => Fails
    case Passed => Dispatch(msg)
  }

  /** hub_impl::receive. */
  function Dispatch(msg: bytes): Branch {
    FirstOf(MatchValue(A([StrLit(BROADCAST), IsType(ArrayType)]), msg),
            MatchValue(A([StrLit(SUBSCRIBE)]), msg),
            MatchValue(A([StrLit(SUBSCRIBE_FILTERED)]), msg),
            MatchValue(A([StrLit(SUBSCRIBE_MESSAGES), GetRange]), msg),
            MatchValue(A([StrLit(LISTEN), GetString]), msg),
            MatchValue(A([StrLit(SHUTDOWN)]), msg))
  }

  /** The match that succeeds first decides, except that a request to listen falls through. */
  function FirstOf(broadcast: Matched, subscribe: Matched, filtered: Matched, messages: Matched, listen: Matched, shutdown: Matched): Branch {
    if broadcast.Yes? then Broadcasts
    else if broadcast.Throw? || subscribe.Throw? then Fails
    else if subscribe.Yes? then Subscribes
    else if filtered.Throw? then Fails
    else if filtered.Yes? then SubscribesFiltered
    else if messages.Throw? then Fails
    else if messages.Yes? then SubscribesMessages(RawAt(messages.caps, 0))
    else if listen.Throw? || shutdown.Throw? then Fails
    else if shutdown.Yes? then ShutsDown
    else Unexpected(listen.Yes?)
  }

  /** A link, as every subscriber makes one first, and the normal exit never reach the receiver. */
  lemma LinksAreKept()
    ensures Classify(Screening.LINK_MESSAGE) == Kept && Classify(Screening.EXIT_NORMAL) == Kept
  {
    Screening.NormalIsExit();
  }

  lemma Spelled()
    ensures BROADCAST == Ascii("broadcast") && SUBSCRIBE == Ascii("subscribe") && SHUTDOWN == Ascii("shutdown")
    ensures SUBSCRIBE_FILTERED == Ascii("subscribe_filtered") && SUBSCRIBE_MESSAGES == Ascii("subscribe_messages")
    ensures LISTEN == Ascii("listen")
  {
  }

  /** An array of only the name, or of the name and one item. */
  predicate Just(v: Value, name: bytes) {
    v.Array? && |v.items| == 1 && IsName(v.items[0], name)
  }

  predicate Pair(v: Value, name: bytes) {
    v.Array? && |v.items| == 2 && IsName(v.items[0], name)
  }

  lemma DispatchExact(m: bytes)
    requires Decode(m).Ok? && Decode(m).rest == [] && IsList(Decode(m).value)
    ensures var v, b := Decode(m).value, Dispatch(m);
            b == if Pair(v, BROADCAST) && v.items[1].Array? then Broadcasts
                 else if Just(v, SUBSCRIBE) then Subscribes
                 else if Just(v, SUBSCRIBE_FILTERED) then SubscribesFiltered
                 else if Pair(v, SUBSCRIBE_MESSAGES) && (IsList(v.items[1]) || v.items[1].Map?) && b.SubscribesMessages? then b
                 else if Just(v, SHUTDOWN) then ShutsDown
                 else Unexpected(Pair(v, LISTEN) && (v.items[1].Text? || v.items[1].ByteString?))
    ensures var v, b := Decode(m).value, Dispatch(m);
            b.SubscribesMessages? <==> Pair(v, SUBSCRIBE_MESSAGES) && (IsList(v.items[1]) || v.items[1].Map?)
  {
    NameAnd(BROADCAST, IsType(ArrayType), m);
    NameAlone(SUBSCRIBE, m);
    NameAlone(SUBSCRIBE_FILTERED, m);
    NameAnd(SUBSCRIBE_MESSAGES, GetRange, m);
    NameAnd(LISTEN, GetString, m);
    NameAlone(SHUTDOWN, m);
    Differ();
  }

  lemma Differ()
    ensures BROADCAST != SUBSCRIBE_MESSAGES && SUBSCRIBE != SUBSCRIBE_FILTERED && SHUTDOWN != SUBSCRIBE && SHUTDOWN != SUBSCRIBE_FILTERED
    ensures LISTEN != BROADCAST && LISTEN != SUBSCRIBE_MESSAGES
    ensures EXIT != BROADCAST && EXIT != SUBSCRIBE_MESSAGES && EXIT != LISTEN
    ensures LINK != SUBSCRIBE && LINK != SUBSCRIBE_FILTERED && LINK != SHUTDOWN
  {
    assert |BROADCAST| == 9 && |SUBSCRIBE| == 9 && |SUBSCRIBE_FILTERED| == 18 && |SUBSCRIBE_MESSAGES| == 18;
    assert |SHUTDOWN| == 8 && |LISTEN| == 6 && |EXIT| == 4 && |LINK| == 4;
  }

  /** What becomes of any whole message, in terms of the value it holds. */
  lemma ClassifyExact(m: bytes)
    requires Decode(m).Ok? && Decode(m).rest == []
    ensures var v, b := Decode(m).value, Classify(m);
            && (b.Kept? <==> m == [0x81, 0x64] + Ascii("link") || m == [0x82, 0x64] + Ascii("exit") + [0x66] + Ascii("normal"))
            && (b.Broadcasts? <==> Pair(v, Ascii("broadcast")) && v.items[1].Array?)
            && (b.Subscribes? <==> Just(v, Ascii("subscribe")))
            && (b.SubscribesFiltered? <==> Just(v, Ascii("subscribe_filtered")))
            && (b.SubscribesMessages? <==>
                  Pair(v, Ascii("subscribe_messages")) && (v.items[1] == NULL || v.items[1].Array? || v.items[1].Map?))
            && (b.ShutsDown? <==> Just(v, Ascii("shutdown")))
            && (b.Fails? <==> !IsList(v) || (Screening.IsExit(v) && !b.Kept?))
            && (b == Unexpected(true) <==> Pair(v, Ascii("listen")) && (v.items[1].Text? || v.items[1].ByteString?))
  {
    var v := Decode(m).value;
    Spelled();
    Screening.Spelled();
    Screening.ScreenExact(m);
    Differ();
    if Screening.Screen(m).Kept? {
      Screening.KeptValue(m);
    } else if IsList(v) {
      DispatchExact(m);
    }
  }

  /** The names of a subscription are exactly the bytes of its second item. */
  lemma NamesExact(m: bytes)
    requires Decode(m).Ok? && Decode(m).rest == [] && Classify(m).SubscribesMessages?
    ensures var names, v := Classify(m).names, Decode(m).value;
            Suffix(names, m) && v.Array? && |v.items| == 2 && Decode(names) == Ok(v.items[1], [])
  {
    var raw := RangeCaptured(SUBSCRIBE_MESSAGES, m);
  }

  const ANNOUNCEMENT: bytes := Head(4, 1) + Str(SUBSCRIBE_FILTERED)

  /** The message that subscribe_queue::push sends is read as what it announces. */
  lemma AnnouncementRead()
    ensures Classify(ANNOUNCEMENT) == SubscribesFiltered
  {
    Screening.OneDecodes(SUBSCRIBE_FILTERED);
    Spelled();
    ClassifyExact(ANNOUNCEMENT);
  }

  /** hub::listen. */
  function Listen(desc: bytes): bytes
    requires |desc| < TWO_64
  {
    Head(4, 2) + (Str(LISTEN) + Str(desc))
  }

  /** A request to listen is carried out, and then falls through: it ends the hub, whatever it asks
      to listen to. */
  lemma ListenEnds(desc: bytes)
    requires |desc| < TWO_64
    ensures Classify(Listen(desc)) == Unexpected(true)
  {
    Screening.TwoDecode(LISTEN, Text(desc));
    Spelled();
    ClassifyExact(Listen(desc));
  }

  /** An array without elements is encoded as null, and a broadcast of it is not recognised: it ends the
      hub. */
  lemma EmptyBroadcast()
    ensures Classify(Broadcast(Encode(NULL))) == Unexpected(false)
  {
    Screening.TwoDecode(BROADCAST, NULL);
    Spelled();
    Differ();
    ClassifyExact(Broadcast(Encode(NULL)));
    assert Broadcast(Encode(NULL))[..2] == [0x82, 0x69];
  }

  // ---------------------------------------------------------------- the hub as a state machine

  type Who = nat

  /** A filter passed by a subscriber, or one made by the hub of the names in a message.  A name that is no
      string reads as the empty one. */
  datatype Filter = Passed(f: nat) | Tags(names: bytes)

  /** Only subscribe_queue::push sends the announcement of a filter. */
  type Plain = msg: bytes | !Classify(msg).SubscribesFiltered? witness []

  /** What is in the mailbox.  `wants` is history: the filter that was put into the queue. */
  datatype Mail = Sent(who: Who, msg: Plain) | Announced(who: Who, wants: nat)

  function Raw(m: Mail): bytes {
    if m.Sent? then m.msg else ANNOUNCEMENT
  }

  datatype Subscriber = Subscriber(who: Who, filter: Option<Filter>)

  datatype Delivery = Delivery(index: nat, msg: bytes)

  /** Whether a filter accepts a message. */
  type Acceptance = (Filter, bytes) -> bool

  predicate Passes(accepts: Acceptance, s: Subscriber, msg: bytes) {
    s.filter.Some? ==> accepts(s.filter.value, msg)
  }

  datatype View = View(
    mailbox: seq<Mail>,
    queue: seq<nat>,
    subscribers: seq<Subscriber>,
    sent: seq<Delivery>,
    running: bool)

  const START := View([], [], [], [], true)

  datatype Event = Post(who: Who, msg: Plain) | Push(who: Who, f: nat) | Handle

  /** The hub runs and has mail.  A filter can only be popped if one is there. */
  predicate Ready(v: View) {
    && v.running && v.mailbox != []
    && (Classify(Raw(v.mailbox[0])).SubscribesFiltered? ==> v.queue != [])
  }

  function SendOne(accepts: Acceptance, s: Subscriber, i: nat, msg: bytes): seq<Delivery> {
    if Passes(accepts, s, msg) then [Delivery(i, msg)] else []
  }

  /** The loop over the subscribers from the i-th. */
  function Sends(accepts: Acceptance, subscribers: seq<Subscriber>, i: nat, msg: bytes): seq<Delivery>
    requires i <= |subscribers|
    decreases |subscribers| - i
  {
    if i == |subscribers| then []
    else SendOne(accepts, subscribers[i], i, msg) + Sends(accepts, subscribers, i + 1, msg)
  }

  function Joined(v: View, who: Who, f: Option<Filter>): View {
    v.(subscribers := v.subscribers + [Subscriber(who, f)])
  }

  /** The first message of the mailbox is handled. */
  function Received(accepts: Acceptance, v: View): View
    requires Ready(v)
  {
    Branched(accepts, v, Classify(Raw(v.mailbox[0])))
  }

  function Branched(accepts: Acceptance, v: View, b: Branch): View
    requires v.mailbox != [] && (b.SubscribesFiltered? ==> v.queue != [])
  {
    var m := v.mailbox[0];
    var v1 := v.(mailbox := v.mailbox[1..]);
    match b
    case Kept => v1
    case Broadcasts => v1.(sent := v.sent + Sends(accepts, v.subscribers, 0, Erased(Raw(m))))
    case Subscribes => Joined(v1, m.who, None)
    case SubscribesFiltered => Joined(v1, m.who, Some(Passed(v.queue[0]))).(queue := v.queue[1..])
    case SubscribesMessages(names) => Joined(v1, m.who, Some(Tags(names)))
    case ShutsDown => v1.(running := false)
    case Unexpected(_) => v1.(running := false)
    case Fails => v1.(running := false)
  }

  /** A message to a hub that has ended is refused. */
  function Posted(v: View, m: Mail): View {
    if v.running then v.(mailbox := v.mailbox + [m]) else v
  }

  function Next(accepts: Acceptance, v: View, ev: Event): View {
    match ev
    case Post(who, msg) => Posted(v, Sent(who, msg))
    case Push(who, f) => Posted(v.(queue := v.queue + [f]), Announced(who, f))
    case Handle => if Ready(v) then Received(accepts, v) else v
  }

  function Exec(accepts: Acceptance, v: View, evs: seq<Event>): View
    decreases |evs|
  {
    if evs == [] then v else Exec(accepts, Next(accepts, v, evs[0]), evs[1..])
  }

  // ---------------------------------------------------------------- what mail amounts to

  /** The filters announced. */
  function WantOf(m: Mail): seq<nat> {
    if m.Announced? then [m.wants] else []
  }

  function Wants(mails: seq<Mail>): seq<nat> {
    if mails == [] then [] else WantOf(mails[0]) + Wants(mails[1..])
  }

  lemma {:induction false} WantsMore(mails: seq<Mail>, m: Mail)
    ensures Wants(mails + [m]) == Wants(mails) + WantOf(m)
  {
    if mails == [] {
      assert mails + [m] == [m] && [m][1..] == [];
      assert Wants([]) == [];
    } else {
      assert (mails + [m])[1..] == mails[1..] + [m];
      WantsMore(mails[1..], m);
    }
  }

  /** A subscription, with the filter that its own sender passed. */
  function SubscriberOf(m: Mail): seq<Subscriber> {
    if m.Announced? then [Subscriber(m.who, Some(Passed(m.wants)))]
    else
      match Classify(m.msg)
      case Subscribes => [Subscriber(m.who, None)]
      case SubscribesMessages(names) => [Subscriber(m.who, Some(Tags(names)))]
      case _ => []
  }

  function Subscribers(mails: seq<Mail>): seq<Subscriber> {
    if mails == [] then [] else SubscriberOf(mails[0]) + Subscribers(mails[1..])
  }

  lemma {:induction false} SubscribersMore(mails: seq<Mail>, m: Mail)
    ensures Subscribers(mails + [m]) == Subscribers(mails) + SubscriberOf(m)
  {
    if mails == [] {
      assert mails + [m] == [m] && [m][1..] == [];
      assert Subscribers([]) == [];
    } else {
      assert (mails + [m])[1..] == mails[1..] + [m];
      SubscribersMore(mails[1..], m);
    }
  }

  /** The mail after the k-th subscription. */
  function After(mails: seq<Mail>, k: nat): seq<Mail>
    decreases |mails|
  {
    if mails == [] then []
    else if SubscriberOf(mails[0]) == [] then After(mails[1..], k)
    else if k == 0 then mails[1..]
    else After(mails[1..], k - 1)
  }

  lemma {:induction false} AfterMore(mails: seq<Mail>, m: Mail, k: nat)
    requires k <= |Subscribers(mails)|
    ensures After(mails + [m], k) == if k < |Subscribers(mails)| then After(mails, k) + [m] else []
    decreases |mails|
  {
    if mails == [] {
      assert mails + [m] == [m] && [m][1..] == [];
    } else {
      assert (mails + [m])[1..] == mails[1..] + [m];
      if SubscriberOf(mails[0]) == [] {
        AfterMore(mails[1..], m, k);
      } else if k > 0 {
        AfterMore(mails[1..], m, k - 1);
      }
    }
  }

  /** What a subscriber should get of one message: of a broadcast its inner array, if it passes. */
  function ShareOf(accepts: Acceptance, s: Subscriber, m: Mail): seq<bytes> {
    ShareIn(accepts, s, Classify(Raw(m)), Erased(Raw(m)))
  }

  function ShareIn(accepts: Acceptance, s: Subscriber, b: Branch, inner: bytes): seq<bytes> {
    if b.Broadcasts? && Passes(accepts, s, inner) then [inner] else []
  }

  function Due(accepts: Acceptance, s: Subscriber, mails: seq<Mail>): seq<bytes> {
    if mails == [] then [] else ShareOf(accepts, s, mails[0]) + Due(accepts, s, mails[1..])
  }

  lemma {:induction false} DueMore(accepts: Acceptance, s: Subscriber, mails: seq<Mail>, m: Mail)
    ensures Due(accepts, s, mails + [m]) == Due(accepts, s, mails) + ShareOf(accepts, s, m)
  {
    if mails == [] {
      assert mails + [m] == [m] && [m][1..] == [];
      assert Due(accepts, s, []) == [];
    } else {
      var a, b, c := ShareOf(accepts, s, mails[0]), Due(accepts, s, mails[1..]), ShareOf(accepts, s, m);
      assert (mails + [m])[0] == mails[0] && (mails + [m])[1..] == mails[1..] + [m];
      DueMore(accepts, s, mails[1..], m);
      assert a + (b + c) == (a + b) + c;
    }
  }

  /** The inner arrays of the broadcasts among the mail. */
  function Inners(mails: seq<Mail>): seq<bytes> {
    if mails == [] then []
    else (if Classify(Raw(mails[0])).Broadcasts? then [Erased(Raw(mails[0]))] else []) + Inners(mails[1..])
  }

  /** Without a filter everything, and with one what it accepts, in order. */
  function Wanted(accepts: Acceptance, filter: Option<Filter>, msgs: seq<bytes>): seq<bytes> {
    if filter.None? || msgs == [] then msgs
    else (if accepts(filter.value, msgs[0]) then [msgs[0]] else []) + Wanted(accepts, filter, msgs[1..])
  }

  lemma WantedMore(accepts: Acceptance, filter: Option<Filter>, m: bytes, msgs: seq<bytes>)
    ensures Wanted(accepts, filter, [m] + msgs)
         == (if filter.None? || accepts(filter.value, m) then [m] else []) + Wanted(accepts, filter, msgs)
  {
    assert ([m] + msgs)[1..] == msgs;
  }

  lemma {:induction false} DueIsWanted(accepts: Acceptance, s: Subscriber, mails: seq<Mail>)
    ensures Due(accepts, s, mails) == Wanted(accepts, s.filter, Inners(mails))
  {
    if mails != [] {
      DueIsWanted(accepts, s, mails[1..]);
      var inner, rest := Erased(Raw(mails[0])), Inners(mails[1..]);
      if Classify(Raw(mails[0])).Broadcasts? {
        WantedMore(accepts, s.filter, inner, rest);
      } else {
        assert [] + rest == rest;
        assert [] + Wanted(accepts, s.filter, rest) == Wanted(accepts, s.filter, rest);
      }
    }
  }

  /** Which mail subscribes whom, with which filter, in terms of the value it holds. */
  lemma SubscriberExact(m: Mail)
    requires m.Sent? ==> Decode(m.msg).Ok? && Decode(m.msg).rest == []
    ensures m.Announced? ==> SubscriberOf(m) == [Subscriber(m.who, Some(Passed(m.wants)))]
    ensures m.Sent? ==>
              var v, subs := Decode(m.msg).value, SubscriberOf(m);
              if Just(v, Ascii("subscribe")) then subs == [Subscriber(m.who, None)]
              else if Pair(v, Ascii("subscribe_messages")) && (v.items[1] == NULL || v.items[1].Array? || v.items[1].Map?)
              then |subs| == 1 && subs[0].who == m.who && subs[0].filter.Some? && subs[0].filter.value.Tags?
                   && Decode(subs[0].filter.value.names) == Ok(v.items[1], [])
              else subs == []
  {
    if m.Sent? {
      ClassifyExact(m.msg);
      if Classify(m.msg).SubscribesMessages? {
        NamesExact(m.msg);
      }
      Spelled();
      Differ();
    }
  }

  /** What one subscriber was sent. */
  function SentTo(sent: seq<Delivery>, k: nat): seq<bytes> {
    if sent == [] then []
    else (if sent[0].index == k then [sent[0].msg] else []) + SentTo(sent[1..], k)
  }

  lemma {:induction false} SentToBoth(s: seq<Delivery>, t: seq<Delivery>, k: nat)
    ensures SentTo(s + t, k) == SentTo(s, k) + SentTo(t, k)
  {
    if s == [] {
      assert s + t == t;
    } else {
      assert (s + t)[1..] == s[1..] + t;
      SentToBoth(s[1..], t, k);
    }
  }

  lemma {:induction false} NotYetSent(sent: seq<Delivery>, k: nat)
    requires forall d :: d in sent ==> d.index < k
    ensures SentTo(sent, k) == []
  {
    if sent != [] {
      NotYetSent(sent[1..], k);
    }
  }

  lemma OneSent(accepts: Acceptance, s: Subscriber, i: nat, msg: bytes, k: nat)
    ensures SentTo(SendOne(accepts, s, i, msg), k) == if i == k && Passes(accepts, s, msg) then [msg] else []
  {
    var now := SendOne(accepts, s, i, msg);
    assert now != [] ==> now[1..] == [] && SentTo(now[1..], k) == [];
  }

  /** The loop sends each subscriber its share, and nothing to anyone else. */
  lemma {:induction false} SendsExact(accepts: Acceptance, subscribers: seq<Subscriber>, i: nat, msg: bytes, k: nat)
    requires i <= |subscribers| && k < |subscribers|
    ensures var ds := Sends(accepts, subscribers, i, msg);
            && SentTo(ds, k) == (if i <= k && Passes(accepts, subscribers[k], msg) then [msg] else [])
            && forall d :: d in ds ==> d.index < |subscribers|
    decreases |subscribers| - i
  {
    if i < |subscribers| {
      SendsExact(accepts, subscribers, i + 1, msg, k);
      OneSent(accepts, subscribers[i], i, msg, k);
      SentToBoth(SendOne(accepts, subscribers[i], i, msg), Sends(accepts, subscribers, i + 1, msg), k);
    }
  }

  lemma NobodyServed(accepts: Acceptance, msg: bytes)
    ensures Sends(accepts, [], 0, msg) == []
  {
  }

  // ---------------------------------------------------------------- what every event keeps

  /** The mail is `handled` and is what the subscribers come from; each has been sent exactly its share
      of what was handled since. */
  predicate Served(accepts: Acceptance, v: View, handled: seq<Mail>) {
    && v.subscribers == Subscribers(handled)
    && (forall k :: 0 <= k < |v.subscribers| ==> SentTo(v.sent, k) == Due(accepts, v.subscribers[k], After(handled, k)))
    && (forall d :: d in v.sent ==> d.index < |v.subscribers|)
  }

  predicate Valid(accepts: Acceptance, v: View, handled: seq<Mail>) {
    && (v.running ==> v.queue == Wants(v.mailbox))
    && Served(accepts, v, handled)
    && (v.running <==> forall m :: m in handled ==> !Ends(Classify(Raw(m))))
  }

  /** A filter is there whenever one is popped. */
  lemma FilterIsThere(accepts: Acceptance, v: View, handled: seq<Mail>)
    requires Valid(accepts, v, handled)
    ensures Ready(v) <==> v.running && v.mailbox != []
  {
  }

  /** The filter that is popped is the one that the subscriber passed. */
  lemma OwnFilter(accepts: Acceptance, v: View, handled: seq<Mail>)
    requires Valid(accepts, v, handled) && v.running && v.mailbox != []
    ensures Ready(v)
    ensures var v' := Received(accepts, v);
            v'.queue == Wants(v'.mailbox) && v'.subscribers == v.subscribers + SubscriberOf(v.mailbox[0])
  {
    AnnouncementRead();
    var m := v.mailbox[0];
    assert Wants(v.mailbox) == WantOf(m) + Wants(v.mailbox[1..]);
    if m.Announced? {
      assert v.queue[0] == m.wants;
    } else {
      assert [] + Wants(v.mailbox[1..]) == Wants(v.mailbox[1..]);
    }
  }

  /** What is sent to one subscriber when a message is handled. */
  lemma ShareSent(accepts: Acceptance, v: View, b: Branch, k: nat)
    requires v.mailbox != [] && (b.SubscribesFiltered? ==> v.queue != []) && k < |v.subscribers|
    ensures SentTo(Branched(accepts, v, b).sent, k)
         == SentTo(v.sent, k) + ShareIn(accepts, v.subscribers[k], b, Erased(Raw(v.mailbox[0])))
  {
    var inner := Erased(Raw(v.mailbox[0]));
    if b.Broadcasts? {
      SendsExact(accepts, v.subscribers, 0, inner, k);
      SentToBoth(v.sent, Sends(accepts, v.subscribers, 0, inner), k);
    } else {
      assert SentTo(v.sent, k) + [] == SentTo(v.sent, k);
    }
  }

  lemma SentToSubscribers(accepts: Acceptance, v: View, b: Branch)
    requires v.mailbox != [] && (b.SubscribesFiltered? ==> v.queue != [])
    requires forall d :: d in v.sent ==> d.index < |v.subscribers|
    ensures forall d :: d in Branched(accepts, v, b).sent ==> d.index < |v.subscribers|
  {
    var msg := Erased(Raw(v.mailbox[0]));
    if v.subscribers == [] {
      NobodyServed(accepts, msg);
    } else {
      SendsExact(accepts, v.subscribers, 0, msg, 0);
    }
  }

  lemma ReceiveServes(accepts: Acceptance, v: View, handled: seq<Mail>)
    requires Valid(accepts, v, handled) && v.running && v.mailbox != []
    ensures Ready(v) && Served(accepts, Received(accepts, v), handled + [v.mailbox[0]])
  {
    var m := v.mailbox[0];
    OwnFilter(accepts, v, handled);
    SubscribersMore(handled, m);
    SentToSubscribers(accepts, v, Classify(Raw(m)));
    var v' := Received(accepts, v);
    forall k | 0 <= k < |v'.subscribers|
      ensures SentTo(v'.sent, k) == Due(accepts, v'.subscribers[k], After(handled + [m], k))
    {
      AfterMore(handled, m, k);
      if k < |v.subscribers| {
        ShareSent(accepts, v, Classify(Raw(m)), k);
        DueMore(accepts, v.subscribers[k], After(handled, k), m);
      } else {
        NotYetSent(v'.sent, k);
      }
    }
  }

  lemma ReceiveKeeps(accepts: Acceptance, v: View, handled: seq<Mail>)
    requires Valid(accepts, v, handled) && v.running && v.mailbox != []
    ensures Ready(v) && Valid(accepts, Received(accepts, v), handled + [v.mailbox[0]])
  {
    OwnFilter(accepts, v, handled);
    ReceiveServes(accepts, v, handled);
  }

  /** What one event handles, and what it adds to the mailbox. */
  function HandledBy(v: View, ev: Event): seq<Mail> {
    if ev.Handle? && Ready(v) then [v.mailbox[0]] else []
  }

  function MailOf(ev: Event): seq<Mail> {
    match ev
    case Post(who, msg) => [Sent(who, msg)]
    case Push(who, f) => [Announced(who, f)]
    case Handle => []
  }

  lemma PostKeeps(accepts: Acceptance, v: View, handled: seq<Mail>, m: Mail)
    requires Valid(accepts, v, handled)
    ensures Valid(accepts, Posted(v.(queue := v.queue + WantOf(m)), m), handled)
  {
    WantsMore(v.mailbox, m);
  }

  lemma NextValid(accepts: Acceptance, v: View, handled: seq<Mail>, ev: Event)
    requires Valid(accepts, v, handled)
    ensures Valid(accepts, Next(accepts, v, ev), handled + HandledBy(v, ev))
  {
    if ev.Handle? && Ready(v) {
      ReceiveKeeps(accepts, v, handled);
    } else {
      assert handled + [] == handled;
      if !ev.Handle? {
        var m := MailOf(ev)[0];
        assert v.queue + [] == v.queue;
        assert Next(accepts, v, ev) == Posted(v.(queue := v.queue + WantOf(m)), m);
        PostKeeps(accepts, v, handled, m);
      }
    }
  }

  lemma MailTaken(accepts: Acceptance, v: View, b: Branch)
    requires v.mailbox != [] && (b.SubscribesFiltered? ==> v.queue != [])
    ensures [v.mailbox[0]] + Branched(accepts, v, b).mailbox == v.mailbox
  {
  }

  lemma NextMail(accepts: Acceptance, v: View, ev: Event)
    ensures HandledBy(v, ev) + Next(accepts, v, ev).mailbox == v.mailbox + if v.running then MailOf(ev) else []
  {
    if ev.Handle? && Ready(v) {
      MailTaken(accepts, v, Classify(Raw(v.mailbox[0])));
    }
  }

  lemma NextKeeps(accepts: Acceptance, v: View, handled: seq<Mail>, ev: Event)
    requires Valid(accepts, v, handled)
    ensures var v' := Next(accepts, v, ev);
            && Valid(accepts, v', handled + HandledBy(v, ev))
            && HandledBy(v, ev) + v'.mailbox == v.mailbox + if v.running then MailOf(ev) else []
  {
    NextValid(accepts, v, handled, ev);
    NextMail(accepts, v, ev);
  }

  /** The mail handled in a run, and the mail that the events of a run send. */
  function Handled(accepts: Acceptance, v: View, evs: seq<Event>): seq<Mail>
    decreases |evs|
  {
    if evs == [] then [] else HandledBy(v, evs[0]) + Handled(accepts, Next(accepts, v, evs[0]), evs[1..])
  }

  function Mails(evs: seq<Event>): seq<Mail> {
    if evs == [] then [] else MailOf(evs[0]) + Mails(evs[1..])
  }

  lemma {:induction false} EndedForGood(accepts: Acceptance, v: View, evs: seq<Event>)
    requires !v.running
    ensures var v' := Exec(accepts, v, evs); v' == v.(queue := v'.queue) && Handled(accepts, v, evs) == []
    decreases |evs|
  {
    if evs != [] {
      EndedForGood(accepts, Next(accepts, v, evs[0]), evs[1..]);
    }
  }

  lemma Associative(s: seq<Mail>, t: seq<Mail>, u: seq<Mail>)
    ensures s + (t + u) == (s + t) + u
  {
  }

  lemma {:induction false} ExecKeeps(accepts: Acceptance, v: View, handled: seq<Mail>, evs: seq<Event>)
    requires Valid(accepts, v, handled)
    ensures Valid(accepts, Exec(accepts, v, evs), handled + Handled(accepts, v, evs))
    decreases |evs|
  {
    if evs == [] {
      assert handled + [] == handled;
    } else {
      var v1 := Next(accepts, v, evs[0]);
      NextKeeps(accepts, v, handled, evs[0]);
      var before, later := handled + HandledBy(v, evs[0]), Handled(accepts, v1, evs[1..]);
      ExecKeeps(accepts, v1, before, evs[1..]);
      Associative(handled, HandledBy(v, evs[0]), later);
    }
  }

  /** No mail is lost or overtaken while the hub runs. */
  lemma {:induction false} MailConserved(accepts: Acceptance, v: View, handled: seq<Mail>, evs: seq<Event>)
    requires Valid(accepts, v, handled)
    ensures var v', now := Exec(accepts, v, evs), Handled(accepts, v, evs);
            && now + v'.mailbox <= v.mailbox + Mails(evs)
            && (v'.running ==> now + v'.mailbox == v.mailbox + Mails(evs))
    decreases |evs|
  {
    if !v.running {
      EndedForGood(accepts, v, evs);
    } else if evs != [] {
      var v1 := Next(accepts, v, evs[0]);
      NextKeeps(accepts, v, handled, evs[0]);
      MailConserved(accepts, v1, handled + HandledBy(v, evs[0]), evs[1..]);
      Spliced(HandledBy(v, evs[0]), v1.mailbox, v.mailbox, MailOf(evs[0]),
              Handled(accepts, v1, evs[1..]), Exec(accepts, v, evs).mailbox, Mails(evs[1..]));
    }
  }

  lemma Spliced(now: seq<Mail>, box1: seq<Mail>, box: seq<Mail>, more: seq<Mail>, later: seq<Mail>, left: seq<Mail>, rest: seq<Mail>)
    requires now + box1 == box + more && later + left <= box1 + rest
    ensures (now + later) + left <= box + (more + rest)
    ensures later + left == box1 + rest ==> (now + later) + left == box + (more + rest)
  {
    assert box + (more + rest) == (now + box1) + rest == now + (box1 + rest);
    assert (now + later) + left == now + (later + left);
  }

  /** In every run: mail is handled in the order in which it was sent, and all of it is handled or waiting
      unless the hub has ended; the subscribers are the subscriptions handled, each with the filter
      that its own sender passed; each has been sent, in order and once, exactly the broadcasts
      handled after its subscription that its filter accepts; and the hub has ended exactly if it
      handled a message that ends it. */
  lemma EveryoneServed(accepts: Acceptance, evs: seq<Event>)
    ensures var v, handled := Exec(accepts, START, evs), Handled(accepts, START, evs);
            && handled + v.mailbox <= Mails(evs)
            && (v.running ==> handled + v.mailbox == Mails(evs))
            && v.subscribers == Subscribers(handled)
            && (forall k :: 0 <= k < |v.subscribers| ==>
                  SentTo(v.sent, k) == Wanted(accepts, v.subscribers[k].filter, Inners(After(handled, k))))
            && (forall d :: d in v.sent ==> d.index < |v.subscribers|)
            && (v.running <==> forall m :: m in handled ==> !Ends(Classify(Raw(m))))
            && (Ready(v) <==> v.running && v.mailbox != [])
  {
    ExecKeeps(accepts, START, [], evs);
    MailConserved(accepts, START, [], evs);
    var v, handled := Exec(accepts, START, evs), Handled(accepts, START, evs);
    assert [] + handled == handled && [] + Mails(evs) == Mails(evs);
    forall k | 0 <= k < |v.subscribers|
      ensures SentTo(v.sent, k) == Wanted(accepts, v.subscribers[k].filter, Inners(After(handled, k)))
    {
      DueIsWanted(accepts, v.subscribers[k], After(handled, k));
    }
    FilterIsThere(accepts, v, handled);
  }

  // ---------------------------------------------------------------- the hub in place

  class HubImpl {
    const accepts: Acceptance
    var mailbox: seq<Mail>
    var queue: seq<nat>
    var subscribers: seq<Subscriber>
    var sent: seq<Delivery>
    var running: bool

    ghost function Now(): View
      reads this
    {
      View(mailbox, queue, subscribers, sent, running)
    }

    constructor (accepts: Acceptance)
      ensures Now() == START && this.accepts == accepts
    {
      this.accepts := accepts;
      mailbox, queue, subscribers, sent, running := [], [], [], [], true;
    }

    /** Any message without a filter. */
    method Send(who: Who, msg: Plain)
      modifies this`mailbox
      ensures Now() == Next(accepts, old(Now()), Post(who, msg))
    {
      if running {
        mailbox := mailbox + [Sent(who, msg)];
      }
    }

    /** subscribe_queue::push: the filter and the message that announces it, under one lock. */
    method PushFilter(who: Who, f: nat)
      modifies this`mailbox, this`queue
      ensures Now() == Next(accepts, old(Now()), Push(who, f))
    {
      queue := queue + [f];
      if running {
        mailbox := mailbox + [Announced(who, f)];
      }
    }

    /** The loop over the subscribers. */
    method SendAll(msg: bytes)
      modifies this`sent
      ensures sent == old(sent) + Sends(accepts, subscribers, 0, msg)
    {
      var i := 0;
      while i < |subscribers|
        invariant 0 <= i <= |subscribers|
        invariant sent + Sends(accepts, subscribers, i, msg) == old(sent) + Sends(accepts, subscribers, 0, msg)
      {
        ghost var before := sent;
        if Passes(accepts, subscribers[i], msg) {
          sent := sent + [Delivery(i, msg)];
        }
        assert sent == before + SendOne(accepts, subscribers[i], i, msg);
        i := i + 1;
      }
    }

    /** hub_impl::receive on the first message of the mailbox. */
    method Receive()
      requires Ready(Now())
      modifies this
      ensures Now() == Received(accepts, old(Now()))
    {
      var m := mailbox[0];
      mailbox := mailbox[1..];
      match Classify(Raw(m)) {
        case Kept =>
        case Broadcasts =>
          SendAll(Erased(Raw(m)));
        case Subscribes =>
          subscribers := subscribers + [Subscriber(m.who, None)];
        case SubscribesFiltered =>
          var f := queue[0];
          queue := queue[1..];
          subscribers := subscribers + [Subscriber(m.who, Some(Passed(f)))];
        case SubscribesMessages(names) =>
          subscribers := subscribers + [Subscriber(m.who, Some(Tags(names)))];
        case _ =>
          running := false;
      }
    }
  }

  method Apply(h: HubImpl, ev: Event)
    requires h.running && h.mailbox != [] ==> Ready(h.Now())
    modifies h
    ensures h.Now() == Next(h.accepts, old(h.Now()), ev)
  {
    match ev {
      case Post(who, msg) => h.Send(who, msg);
      case Push(who, f) => h.PushFilter(who, f);
      case Handle =>
        if h.running && h.mailbox != [] {
          h.Receive();
        }
    }
  }

  /** The hub in place goes through exactly the states of the state machine. */
  method Run(accepts: Acceptance, evs: seq<Event>) returns (h: HubImpl)
    ensures h.Now() == Exec(accepts, START, evs)
  {
    h := new HubImpl(accepts);
    ghost var handled := [];
    var i := 0;
    while i < |evs|
      invariant 0 <= i <= |evs| && fresh(h) && h.accepts == accepts && Valid(accepts, h.Now(), handled)
      invariant Exec(accepts, h.Now(), evs[i..]) == Exec(accepts, START, evs)
    {
      assert evs[i..][1..] == evs[i + 1..];
      NextValid(accepts, h.Now(), handled, evs[i]);
      FilterIsThere(accepts, h.Now(), handled);
      handled := handled + HandledBy(h.Now(), evs[i]);
      Apply(h, evs[i]);
      i := i + 1;
    }
  }
}
