/**
 Reassembly of messages in endpoint::connection::receive (src/instance.cpp): bytes read from the
 socket are appended to read_buf, and every complete item at its front is sent to the owner.
 */
module Reassembly {
  import opened Bytes
  import opened Cbor
  import opened CborLaws
  import opened CborMatch
  import opened CborMatchLaws
  import opened CborCursor
  import opened Stream

  /** The first item of the bytes, as a piece of them. */
  function ScanItem(s: bytes): Parse<bytes> {
    match Skip(s)
    case Ok(_, r) => Ok(Item(s), r)
    case TooShort => TooShort
    case Invalid => Invalid
  }

  lemma ItemsSteadyAt(s: bytes, t: bytes)
    ensures Shrinks(ScanItem, s) && SteadyAt(ScanItem, s, t)
  {
    if !Skip(s).TooShort? {
      SkipStable(s, t);
      if Skip(s).Ok? {
        assert Item(s + t) == Item(s);
      }
    }
  }

  lemma ItemsSteady()
    ensures Steady(ScanItem)
  {
    forall s, t ensures SteadyAt(ScanItem, s, t) {
      ItemsSteadyAt(s, t);
    }
    forall s ensures Shrinks(ScanItem, s) {
      ItemsSteadyAt(s, []);
    }
  }

  /** What the owner is sent. */
  datatype Notice = Message(m: bytes) | FramingError

  /** Messages are arrays, maps or null. */
  predicate IsMessage(m: bytes) {
    m != [] && ByteType(m[0] / 32, m[0] % 32) in {NullType, ArrayType, MapType}
  }

  /** An item that is no message makes a framing error, and is sent all the same. */
  function NoticesOf(items: seq<bytes>): seq<Notice> {
    if items == [] then []
    else (if IsMessage(items[0]) then [] else [FramingError]) + [Message(items[0])] + NoticesOf(items[1..])
  }

  function Messages(ms: seq<bytes>): (ns: seq<Notice>)
    ensures |ns| == |ms| && forall i :: 0 <= i < |ms| ==> ns[i] == Message(ms[i])
  {
    if ms == [] then [] else [Message(ms[0])] + Messages(ms[1..])
  }

  lemma {:induction false} NoticesConcat(a: seq<bytes>, b: seq<bytes>)
    ensures NoticesOf(a + b) == NoticesOf(a) + NoticesOf(b)
    decreases |a|
  {
    if a == [] {
      assert a + b == b;
    } else {
      assert (a + b)[1..] == a[1..] + b;
      NoticesConcat(a[1..], b);
    }
  }

  /** Messages are exactly the items whose value is null, an array or a map. */
  lemma IsMessageExact(m: bytes)
    requires Decode(m).Ok?
    ensures IsMessage(m) <==> Decode(m).value == NULL || Decode(m).value.Array? || Decode(m).value.Map?
  {
    RangeAgrees(m);
  }

  /** The items that were sent on. */
  function SentOn(ns: seq<Notice>): seq<bytes> {
    if ns == [] then [] else (if ns[0].Message? then [ns[0].m] else []) + SentOn(ns[1..])
  }

  /** A framing error stands exactly before each item that is no message. */
  predicate PlacedAt(ns: seq<Notice>, j: nat)
    requires j < |ns|
  {
    && (ns[j].FramingError? ==> j + 1 < |ns| && ns[j + 1].Message? && !IsMessage(ns[j + 1].m))
    && (ns[j].Message? && !IsMessage(ns[j].m) ==> j > 0 && ns[j - 1].FramingError?)
  }

  predicate ErrorsPlaced(ns: seq<Notice>) {
    forall j :: 0 <= j < |ns| ==> PlacedAt(ns, j)
  }

  lemma PlacedMore(first: seq<Notice>, rest: seq<Notice>)
    requires ErrorsPlaced(first) && ErrorsPlaced(rest)
    ensures ErrorsPlaced(first + rest)
  {
    var ns, k := first + rest, |first|;
    forall j | 0 <= j < |ns| ensures PlacedAt(ns, j) {
      if j < k {
        assert PlacedAt(first, j);
      } else {
        assert PlacedAt(rest, j - k);
      }
    }
  }

  /** Every item is sent, in order, with framing errors where they belong. */
  lemma {:induction false} NoticesExact(items: seq<bytes>)
    ensures SentOn(NoticesOf(items)) == items && ErrorsPlaced(NoticesOf(items))
  {
    if items != [] {
      var rest := NoticesOf(items[1..]);
      var first := if IsMessage(items[0]) then [Message(items[0])] else [FramingError, Message(items[0])];
      NoticesExact(items[1..]);
      assert NoticesOf(items) == first + rest;
      assert ErrorsPlaced(first);
      PlacedMore(first, rest);
      SentFirst(items[0], rest);
    }
  }

  lemma SentFirst(m: bytes, rest: seq<Notice>)
    ensures SentOn([Message(m)] + rest) == [m] + SentOn(rest)
    ensures SentOn([FramingError, Message(m)] + rest) == [m] + SentOn(rest)
  {
    assert ([Message(m)] + rest)[1..] == rest;
    assert ([FramingError, Message(m)] + rest)[1..] == [Message(m)] + rest;
    assert [] + SentOn([Message(m)] + rest) == SentOn([Message(m)] + rest);
  }

  class Connection {
    var readBuf: bytes
    var owner: seq<Notice>
    var closing: bool

    constructor ()
      ensures readBuf == [] && owner == [] && !closing
    {
      readBuf, owner, closing := [], [], false;
    }

    /** One round of the loop: the item at the front of the buffer, if it is complete, is sent. */
    method TakeOne() returns (ok: bool)
      modifies this
      ensures ok == Skip(old(readBuf)).Ok?
      ensures !ok ==> readBuf == old(readBuf) && owner == old(owner)
      ensures ok ==> readBuf == Skip(old(readBuf)).rest && owner == old(owner) + NoticesOf([Item(old(readBuf))])
      ensures closing == (old(closing) || (ok && !IsMessage(Item(old(readBuf)))))
    {
      var c := new Cursor(readBuf);
      assert c.Rest() == readBuf;
      var st := c.SkipValue();
      ok := st.Fine?;
      if ok {
        var m := readBuf[..c.b];
        assert m == Item(readBuf) by { ItemAlone(readBuf); }
        OneNotice(m);
        if !IsMessage(m) {
          owner := owner + [FramingError];
          closing := true;
        }
        owner := owner + [Message(m)];
        readBuf := readBuf[c.b..];
      }
    }

    /** The read_complete branch: an empty read is the end of the stream. */
    method ReadComplete(data: bytes)
      modifies this
      ensures data == [] ==> closing && readBuf == old(readBuf) && owner == old(owner)
      ensures data != [] ==> var d := Drain(ScanItem, old(readBuf) + data);
                             && readBuf == d.rest && owner == old(owner) + NoticesOf(d.items)
                             && (closing <==> old(closing) || exists m :: m in d.items && !IsMessage(m))
    {
      if data == [] {
        closing := true;
        return;
      }
      readBuf := readBuf + data;
      ghost var all := readBuf;
      ghost var taken: seq<bytes> := [];
      var more := true;
      JoinedNone(Drain(ScanItem, all));
      while readBuf != [] && more
        invariant Drain(ScanItem, all) == Joined(taken, Drain(ScanItem, readBuf))
        invariant owner == old(owner) + NoticesOf(taken)
        invariant closing <==> old(closing) || exists m :: m in taken && !IsMessage(m)
        invariant !more ==> Drain(ScanItem, readBuf) == Drained([], readBuf)
        decreases |readBuf|, more
      {
        ghost var was := readBuf;
        more := TakeOne();
        if more {
          NoticesMore(old(owner), taken, Item(was));
          TakenMore(taken, was);
          taken := taken + [Item(was)];
        }
      }
      assert Drain(ScanItem, readBuf) == Drained([], readBuf);
      assert taken + [] == taken;
    }
  }

  /** A connection that is fed the reads one by one takes the stream apart as specified. */
  method Run(chunks: seq<bytes>) returns (c: Connection)
    ensures var d := DrainAll(ScanItem, [], chunks); c.readBuf == d.rest && c.owner == NoticesOf(d.items)
  {
    c := new Connection();
    ghost var taken: seq<bytes> := [];
    JoinedNone(DrainAll(ScanItem, [], chunks));
    var i := 0;
    while i < |chunks|
      invariant 0 <= i <= |chunks| && fresh(c) && Idle(ScanItem, c.readBuf)
      invariant c.owner == NoticesOf(taken)
      invariant DrainAll(ScanItem, [], chunks) == Joined(taken, DrainAll(ScanItem, c.readBuf, chunks[i..]))
    {
      ghost var d := Drain(ScanItem, c.readBuf + chunks[i]);
      ReadDrains(taken, c.readBuf, chunks[i..]);
      assert chunks[i..][1..] == chunks[i + 1..];
      c.ReadComplete(chunks[i]);
      NoticesConcat(taken, d.items);
      taken := taken + d.items;
      i := i + 1;
    }
    assert taken + [] == taken;
  }

  /** One read of the stream. */
  lemma ReadDrains(taken: seq<bytes>, buf: bytes, chunks: seq<bytes>)
    requires Idle(ScanItem, buf) && chunks != []
    ensures var d := Drain(ScanItem, buf + chunks[0]);
            && Joined(taken, DrainAll(ScanItem, buf, chunks)) == Joined(taken + d.items, DrainAll(ScanItem, d.rest, chunks[1..]))
            && Idle(ScanItem, d.rest) && (chunks[0] == [] ==> d == Drained([], buf))
  {
    ItemsSteady();
    DrainLeavesIdle(ScanItem, buf + chunks[0]);
    var d := Drain(ScanItem, buf + chunks[0]);
    var e := DrainAll(ScanItem, d.rest, chunks[1..]);
    assert taken + (d.items + e.items) == taken + d.items + e.items;
    assert chunks[0] == [] ==> buf + chunks[0] == buf;
  }

  lemma JoinedNone(d: Drained)
    ensures Joined([], d) == d
  {
    assert [] + d.items == d.items;
  }

  lemma OneNotice(m: bytes)
    ensures NoticesOf([m]) == (if IsMessage(m) then [] else [FramingError]) + [Message(m)]
  {
    assert [m][1..] == [];
    assert NoticesOf([]) == [];
  }

  lemma NoticesMore(ns: seq<Notice>, taken: seq<bytes>, m: bytes)
    ensures ns + NoticesOf(taken) + NoticesOf([m]) == ns + NoticesOf(taken + [m])
  {
    NoticesConcat(taken, [m]);
  }

  lemma TakenMore(taken: seq<bytes>, s: bytes)
    requires Skip(s).Ok?
    ensures Joined(taken, Drain(ScanItem, s)) == Joined(taken + [Item(s)], Drain(ScanItem, Skip(s).rest))
  {
    var d := Drain(ScanItem, Skip(s).rest);
    assert Drain(ScanItem, s) == Joined([Item(s)], d);
    assert taken + ([Item(s)] + d.items) == taken + [Item(s)] + d.items;
  }

  // ---------------------------------------------------------------- over a whole stream

  predicate AllMessages(ms: seq<bytes>) {
    forall i :: 0 <= i < |ms| ==> Skip(ms[i]) == Ok((), []) && IsMessage(ms[i])
  }

  lemma MessagesWhole(ms: seq<bytes>)
    requires AllMessages(ms)
    ensures AllWhole(ScanItem, ms, ms)
  {
    forall i | 0 <= i < |ms| ensures Whole(ScanItem, ms[i], ms[i]) {
      assert ms[i][..|ms[i]|] == ms[i];
    }
  }

  lemma {:induction false} OnlyMessages(ms: seq<bytes>)
    requires AllMessages(ms)
    ensures NoticesOf(ms) == Messages(ms)
  {
    if ms != [] {
      assert IsMessage(ms[0]);
      OnlyMessages(ms[1..]);
    }
  }

  /** The owner is sent exactly the messages written to the stream, in order, however the bytes are
      cut into reads; and nothing is left over. */
  lemma EveryMessageArrives(ms: seq<bytes>, chunks: seq<bytes>)
    requires AllMessages(ms) && Concat(chunks) == Concat(ms)
    ensures var d := DrainAll(ScanItem, [], chunks); d.rest == [] && NoticesOf(d.items) == Messages(ms)
  {
    ItemsSteady();
    MessagesWhole(ms);
    AllArrive(ScanItem, ms, ms, chunks);
    OnlyMessages(ms);
  }

  /** In between, the owner has been sent the first k messages, and read_buf holds a strict prefix of
      the next one. */
  lemma PartOfStream(ms: seq<bytes>, chunks: seq<bytes>, n: nat) returns (k: nat)
    requires AllMessages(ms) && n <= |Concat(ms)| && Concat(chunks) == Concat(ms)[..n]
    ensures var d := DrainAll(ScanItem, [], chunks);
            k <= |ms| && NoticesOf(d.items) == Messages(ms[..k]) && Reached(ScanItem, ms, ms, k, d)
  {
    ItemsSteady();
    MessagesWhole(ms);
    ChunksDoNotMatter(ScanItem, [], chunks);
    assert [] + Concat(chunks) == Concat(chunks);
    k := DrainPrefix(ScanItem, ms, ms, n);
    OnlyMessages(ms[..k]);
  }

  // ---------------------------------------------------------------- bytes that no item starts with

  /** Whether anything is sent to the owner in some later read. */
  ghost predicate CanDeliver(buf: bytes) {
    exists chunks :: DrainAll(ScanItem, buf, chunks).items != []
  }

  /** Bytes that cannot start an item are kept for good, and so is all that comes after them. */
  lemma NothingMore(buf: bytes, chunks: seq<bytes>)
    requires ScanItem(buf).Invalid?
    ensures DrainAll(ScanItem, buf, chunks) == Drained([], buf + Concat(chunks))
  {
    ItemsSteady();
    ChunksDoNotMatter(ScanItem, buf, chunks);
    ItemsSteadyAt(buf, Concat(chunks));
  }

  /** Bytes that only lack the rest of an item are delivered once it comes. */
  lemma RestDelivers(buf: bytes) returns (t: bytes)
    requires ScanItem(buf).TooShort?
    ensures DrainAll(ScanItem, buf, [t]) == Drained([buf + t], [])
  {
    t := Completed(buf);
    ItemsSteady();
    ChunksDoNotMatter(ScanItem, buf, [t]);
    assert [t][1..] == [] && Concat([]) == [] && t + [] == t;
    assert Concat([t]) == t;
    assert ScanItem(buf + t) == Ok(buf + t, []) by {
      assert (buf + t)[..|buf + t|] == buf + t;
    }
    assert Drain(ScanItem, []) == Drained([], []);
    assert [buf + t] + [] == [buf + t];
  }

  /** What read_buf holds between reads stops delivery for good if and only if no item starts with it. */
  lemma StoppedIff(buf: bytes)
    requires Idle(ScanItem, buf)
    ensures !CanDeliver(buf) <==> ScanItem(buf).Invalid?
  {
    if ScanItem(buf).Invalid? {
      forall chunks ensures DrainAll(ScanItem, buf, chunks).items == [] {
        NothingMore(buf, chunks);
      }
    } else {
      var t := RestDelivers(buf);
    }
  }
}
