/**
 Frames of src/remote/framing.zig: a payload is written as a byte string with a fixed 32-bit
 length, and the accumulator takes frames off the stream one call at a time.  The frame that a
 call returns stays in the buffer until the next call.
 */
module Framing {
  import opened Bytes
  import opened Cbor
  import opened CborLaws
  import opened CborBuffer
  import opened CborMatch
  import opened Stream

  // ---------------------------------------------------------------- reading

  /** matchString: a byte or text string at the front, however its length is written. */
  function ScanFrame(s: bytes): Parse<bytes> {
    if s == [] then TooShort
    else if s[0] / 32 != 2 && s[0] / 32 != 3 then Invalid
    else ReadChunk(s[0] % 32, s[1..])
  }

  lemma ChunkStable(minor: nat, s: bytes, t: bytes)
    requires !ReadChunk(minor, s).TooShort?
    ensures ReadChunk(minor, s + t) == Before(ReadChunk(minor, s), t)
  {
    ArgumentStable(minor, s, t);
    var a := Argument(minor, s);
    if a.Ok? {
      WordStable(a.value, a.rest, t);
    }
  }

  lemma FramesSteadyAt(s: bytes, t: bytes)
    ensures Shrinks(ScanFrame, s) && SteadyAt(ScanFrame, s, t)
  {
    if s != [] {
      assert (s + t)[0] == s[0] && (s + t)[1..] == s[1..] + t;
      if !ReadChunk(s[0] % 32, s[1..]).TooShort? {
        ChunkStable(s[0] % 32, s[1..], t);
      }
    }
  }

  lemma FramesSteady()
    ensures Steady(ScanFrame)
  {
    forall s, t ensures SteadyAt(ScanFrame, s, t) {
      FramesSteadyAt(s, t);
    }
    forall s ensures Shrinks(ScanFrame, s) {
      FramesSteadyAt(s, []);
    }
  }

  class Accumulator {
    var buf: bytes

    constructor ()
      ensures buf == []
    {
      buf := [];
    }

    /** Drops the frame that the last call returned, appends the new bytes, and returns the frame
        that is then at the front, without taking it off. */
    method Feed(data: bytes) returns (frame: Option<bytes>)
      modifies this
      ensures buf == (if ScanFrame(old(buf)).Ok? then ScanFrame(old(buf)).rest else old(buf)) + data
      ensures frame == if ScanFrame(buf).Ok? then Some(ScanFrame(buf).value) else None
    {
      var first := ScanFrame(buf);
      if first.Ok? {
        buf := first.rest;
      }
      buf := buf + data;
      var next := ScanFrame(buf);
      frame := if next.Ok? then Some(next.value) else None;
    }
  }

  lemma DrainedMore(taken: seq<bytes>, s: bytes)
    requires ScanFrame(s).Ok?
    ensures Joined(taken, Drain(ScanFrame, s)) == Joined(taken + [ScanFrame(s).value], Drain(ScanFrame, ScanFrame(s).rest))
  {
    FramesSteadyAt(s, []);
    var p := ScanFrame(s);
    var d := Drain(ScanFrame, p.rest);
    assert Drain(ScanFrame, s) == Joined([p.value], d);
    assert taken + ([p.value] + d.items) == taken + [p.value] + d.items;
  }

  /** feed of src/remote/endpoint_common.zig: every frame that is complete is dispatched exactly
      once and in order, although the accumulator still holds it while it is; the loop ends with
      nothing complete in the buffer. */
  method FeedAll(acc: Accumulator, data: bytes) returns (dispatched: seq<bytes>)
    requires Idle(ScanFrame, acc.buf)
    modifies acc
    ensures Drained(dispatched, acc.buf) == Drain(ScanFrame, old(acc.buf) + data)
    ensures Idle(ScanFrame, acc.buf)
  {
    dispatched := [];
    ghost var all := acc.buf + data;
    var frame := acc.Feed(data);
    assert [] + Drain(ScanFrame, all).items == Drain(ScanFrame, all).items;
    while frame.Some?
      invariant frame == if ScanFrame(acc.buf).Ok? then Some(ScanFrame(acc.buf).value) else None
      invariant Drain(ScanFrame, all) == Joined(dispatched, Drain(ScanFrame, acc.buf))
      decreases |acc.buf|, frame.Some?
    {
      DrainedMore(dispatched, acc.buf);
      FramesSteadyAt(acc.buf, []);
      dispatched := dispatched + [frame.value];
      ghost var rest := ScanFrame(acc.buf).rest;
      frame := acc.Feed([]);
      assert acc.buf == rest;
    }
    assert dispatched + [] == dispatched;
  }

  /** An accumulator that is fed a list of chunks dispatches exactly the frames of the whole stream. */
  method Run(chunks: seq<bytes>) returns (acc: Accumulator, dispatched: seq<bytes>)
    ensures Drained(dispatched, acc.buf) == DrainAll(ScanFrame, [], chunks)
  {
    acc := new Accumulator();
    dispatched := [];
    var i := 0;
    assert [] + DrainAll(ScanFrame, [], chunks).items == DrainAll(ScanFrame, [], chunks).items;
    while i < |chunks|
      invariant 0 <= i <= |chunks| && fresh(acc) && Idle(ScanFrame, acc.buf)
      invariant DrainAll(ScanFrame, [], chunks) == Joined(dispatched, DrainAll(ScanFrame, acc.buf, chunks[i..]))
    {
      ghost var d := Drain(ScanFrame, acc.buf + chunks[i]);
      ghost var later := DrainAll(ScanFrame, d.rest, chunks[i + 1..]);
      assert chunks[i..][1..] == chunks[i + 1..];
      assert dispatched + (d.items + later.items) == dispatched + d.items + later.items;
      var more := FeedAll(acc, chunks[i]);
      dispatched := dispatched + more;
      i := i + 1;
    }
    assert dispatched + [] == dispatched;
  }

  // ---------------------------------------------------------------- writing

  const FRAME_BYTE: byte := 0x5a

  function Frame(payload: bytes): bytes {
    [FRAME_BYTE] + Big(|payload|, 4) + payload
  }

  /** It is a byte string with a length of four bytes. */
  lemma FrameValue(payload: bytes)
    requires |payload| < TWO_32
    ensures Decode(Frame(payload)) == Ok(ByteString(payload), []) && Frame(payload)[0] == 0x5a
  {
    var f := Frame(payload);
    Spans();
    WordRoundTrip(|payload|, 4, payload);
    assert f[1..] == Big(|payload|, 4) + payload;
    BodyWith(2, 26, f[1..], |payload|, payload);
    assert payload[..|payload|] == payload && payload[|payload|..] == [];
    assert Chunk(|payload|, payload) == Ok(payload, []);
  }

  /** A frame is one item, and carries its payload. */
  lemma FrameWhole(payload: bytes)
    requires |payload| < TWO_32
    ensures Whole(ScanFrame, Frame(payload), payload)
  {
    var f := Frame(payload);
    Spans();
    WordRoundTrip(|payload|, 4, payload);
    assert f[1..] == Big(|payload|, 4) + payload;
    assert FRAME_BYTE / 32 == 2 && FRAME_BYTE % 32 == 26;
    assert payload[..|payload|] == payload && payload[|payload|..] == [];
  }

  /** write_frame: the payload goes behind the space for the header, then the header is filled in.
      It fails when the buffer is too small. */
  method WriteFrame(buf: array<byte>, payload: bytes) returns (end: Option<nat>)
    requires buf.Length < TWO_32
    modifies buf
    ensures end.Some? <==> 5 + |payload| <= buf.Length
    ensures end.Some? ==> end.value == 5 + |payload| && buf[..end.value] == Frame(payload)
  {
    if buf.Length < 5 {
      return None;
    }
    var written := 0;
    while written < |payload|
      invariant 0 <= written <= |payload| && 5 + written <= buf.Length
      invariant buf[5..5 + written] == payload[..written]
    {
      if 5 + written == buf.Length {
        return None;
      }
      buf[5 + written] := payload[written];
      assert buf[5..5 + written + 1] == buf[5..5 + written] + [payload[written]];
      written := written + 1;
    }
    buf[0] := FRAME_BYTE;
    var word := Big(written, 4);
    buf[1], buf[2], buf[3], buf[4] := word[0], word[1], word[2], word[3];
    assert buf[1..5] == word;
    assert buf[..5 + written] == [buf[0]] + buf[1..5] + buf[5..5 + written];
    return Some(5 + written);
  }
}
