/**
 The double-buffered writer of socket_impl in src/instance.cpp.

 While a write is in flight the operating system reads from write_buf; what is written meanwhile
 goes to write_q.  A completion may cover only part of write_buf, and the owner may write again
 from inside the completion's callback.
 */
module SocketWriter {
  import opened Bytes
  import opened Stream

  // ---------------------------------------------------------------- the writer as a state machine

  /** `inFlight` is what the operating system was handed; `transmitted` and `accepted` are all that has
      left and all that was passed to `write`, in order. */
  datatype View = View(
    writeBuf: bytes,
    writeQ: bytes,
    writePending: bool,
    inFlight: bytes,
    transmitted: bytes,
    accepted: bytes)

  const START := View([], [], false, [], [], [])

  /** The steps of a writer's life: a write, and the report that some bytes of what was in flight have
      left, or that the write failed, with what the owner writes in reply. */
  datatype Step = Write(buf: bytes) | Complete(length: nat, writes: seq<bytes>) | Fail(writes: seq<bytes>)

  /** Reports come only for a write in flight, and cover only its bytes. */
  predicate Enabled(v: View, step: Step) {
    step.Write? || (v.writePending && (step.Complete? ==> step.length <= |v.inFlight|))
  }

  function Started(v: View): View {
    v.(writePending := true, inFlight := v.writeBuf)
  }

  function Written(v: View, buf: bytes): View {
    var w := v.(accepted := v.accepted + buf);
    if v.writePending then w.(writeQ := v.writeQ + buf) else Started(w.(writeBuf := buf + v.writeBuf))
  }

  function AllWritten(v: View, writes: seq<bytes>): View
    decreases |writes|
  {
    if writes == [] then v else AllWritten(Written(v, writes[0]), writes[1..])
  }

  /** The owner's writes come first, while the write is still pending. */
  function Completed(v: View, length: nat, writes: seq<bytes>): View {
    var w := AllWritten(v, writes);
    if length < |w.writeBuf| then
      Started(w.(transmitted := w.transmitted + w.writeBuf[..length], writeBuf := w.writeBuf[length..]))
    else
      var u := w.(transmitted := w.transmitted + w.writeBuf, writeBuf := [], writePending := false);
      if w.writeQ == [] then u else Started(u.(writeBuf := w.writeQ, writeQ := []))
  }

  function Next(v: View, step: Step): View {
    if !Enabled(v, step) then v
    else
      match step
      case Write(buf) => Written(v, buf)
      case Complete(length, writes) => Completed(v, length, writes)
      case Fail(writes) => AllWritten(v, writes)
  }

  function Exec(v: View, steps: seq<Step>): View
    decreases |steps|
  {
    if steps == [] then v else Exec(Next(v, steps[0]), steps[1..])
  }

  // ---------------------------------------------------------------- conservation

  /** Nothing is lost, repeated or reordered; what is in flight has not been touched; and when no write
      is in flight nothing is waiting. */
  predicate Valid(v: View) {
    && v.transmitted + v.writeBuf + v.writeQ == v.accepted
    && (v.writePending ==> v.inFlight == v.writeBuf)
    && (!v.writePending ==> v.writeBuf == [] && v.writeQ == [])
  }

  /** Bytes not yet transmitted. */
  function Held(v: View): nat {
    |v.writeBuf| + |v.writeQ|
  }

  lemma WriteKeeps(v: View, buf: bytes)
    requires Valid(v)
    ensures var w := Written(v, buf);
            && Valid(w) && w.writePending && w.accepted == v.accepted + buf && w.transmitted == v.transmitted
            && Held(w) == Held(v) + |buf| && (v.writePending ==> w.inFlight == v.inFlight && w.writeBuf == v.writeBuf)
  {
  }

  lemma {:induction false} WritesKeep(v: View, writes: seq<bytes>)
    requires Valid(v) && v.writePending
    ensures var w := AllWritten(v, writes);
            && Valid(w) && w.writePending && w.accepted == v.accepted + Concat(writes) && w.transmitted == v.transmitted
            && Held(w) == Held(v) + |Concat(writes)| && w.inFlight == v.inFlight && w.writeBuf == v.writeBuf
    decreases |writes|
  {
    if writes != [] {
      WriteKeeps(v, writes[0]);
      WritesKeep(Written(v, writes[0]), writes[1..]);
    }
  }

  /** A completion: exactly the bytes reported have left, and the rest and the queue go on. */
  lemma CompleteKeeps(v: View, length: nat, writes: seq<bytes>)
    requires Valid(v) && v.writePending && length <= |v.inFlight|
    ensures var w := Completed(v, length, writes);
            && Valid(w) && w.accepted == v.accepted + Concat(writes) && w.transmitted == v.transmitted + v.inFlight[..length]
            && Held(w) == Held(v) + |Concat(writes)| - length && (w.writePending <==> w.transmitted != w.accepted)
  {
    WritesKeep(v, writes);
    var u := AllWritten(v, writes);
    assert u.writeBuf[..length] + u.writeBuf[length..] == u.writeBuf;
  }

  /** What a step passes to `write`. */
  function Argument(step: Step): bytes {
    if step.Write? then step.buf else Concat(step.writes)
  }

  lemma NextKeeps(v: View, step: Step)
    requires Valid(v)
    ensures var w := Next(v, step);
            && Valid(w) && v.transmitted <= w.transmitted
            && w.accepted == v.accepted + if Enabled(v, step) then Argument(step) else []
  {
    if Enabled(v, step) {
      match step {
        case Write(buf) => WriteKeeps(v, buf);
        case Complete(length, writes) => CompleteKeeps(v, length, writes);
        case Fail(writes) => WritesKeep(v, writes);
      }
    }
  }

  /** All arguments of `write` in the steps that occur, in call order. */
  function Arguments(v: View, steps: seq<Step>): bytes
    decreases |steps|
  {
    if steps == [] then []
    else (if Enabled(v, steps[0]) then Argument(steps[0]) else []) + Arguments(Next(v, steps[0]), steps[1..])
  }

  lemma {:induction false} ExecKeeps(v: View, steps: seq<Step>)
    requires Valid(v)
    ensures var w := Exec(v, steps); Valid(w) && w.accepted == v.accepted + Arguments(v, steps)
    decreases |steps|
  {
    if steps != [] {
      NextKeeps(v, steps[0]);
      ExecKeeps(Next(v, steps[0]), steps[1..]);
    }
  }

  /** In every state that any run reaches, what was transmitted, what is left of write_buf and write_q
      make up all that was written, in call order. */
  lemma BytesConserved(steps: seq<Step>)
    ensures var v := Exec(START, steps); v.transmitted + v.writeBuf + v.writeQ == Arguments(START, steps)
  {
    ExecKeeps(START, steps);
    assert [] + Arguments(START, steps) == Arguments(START, steps);
  }

  // ---------------------------------------------------------------- the writer in place

  class Writer {
    var writeBuf: bytes
    var writeQ: bytes
    var writePending: bool
    ghost var inFlight: bytes
    ghost var transmitted: bytes
    ghost var accepted: bytes

    ghost function State(): View
      reads this
    {
      View(writeBuf, writeQ, writePending, inFlight, transmitted, accepted)
    }

    constructor ()
      ensures State() == START
    {
      writeBuf, writeQ, writePending := [], [], false;
      inFlight, transmitted, accepted := [], [], [];
    }

    method WriteInternal()
      modifies this
      ensures State() == Started(old(State()))
    {
      writePending := true;
      inFlight := writeBuf;
    }

    method Write(buf: bytes)
      modifies this
      ensures State() == Written(old(State()), buf)
    {
      accepted := accepted + buf;
      if writePending {
        writeQ := writeQ + buf;
        return;
      }
      writeBuf := buf + writeBuf;
      WriteInternal();
    }

    /** What the owner writes from inside a callback. */
    method WriteEach(writes: seq<bytes>)
      modifies this
      ensures State() == AllWritten(old(State()), writes)
    {
      var i := 0;
      while i < |writes|
        invariant 0 <= i <= |writes| && AllWritten(State(), writes[i..]) == AllWritten(old(State()), writes)
      {
        assert writes[i..][1..] == writes[i + 1..];
        Write(writes[i]);
        i := i + 1;
      }
    }

    /** write_complete: `length` bytes of what was in flight have left; `writes` is what the owner
        writes in reply, before write_pending is cleared. */
    method WriteComplete(length: nat, writes: seq<bytes>)
      modifies this
      ensures State() == Completed(old(State()), length, writes)
    {
      WriteEach(writes);
      writePending := false;
      if length < |writeBuf| {
        transmitted := transmitted + writeBuf[..length];
        writeBuf := writeBuf[length..];
        WriteInternal();
        return;
      }
      transmitted := transmitted + writeBuf;
      writeBuf := [];
      if writeQ != [] {
        writeBuf, writeQ := writeQ, writeBuf;
        WriteInternal();
      }
    }
  }

  /** The writer in place goes through exactly the states of the state machine. */
  method Run(steps: seq<Step>) returns (w: Writer)
    ensures fresh(w) && w.State() == Exec(START, steps)
  {
    w := new Writer();
    var i := 0;
    while i < |steps|
      invariant 0 <= i <= |steps| && fresh(w) && Valid(w.State())
      invariant Exec(w.State(), steps[i..]) == Exec(START, steps)
    {
      assert steps[i..][1..] == steps[i + 1..];
      NextKeeps(w.State(), steps[i]);
      match steps[i] {
        case Write(buf) => w.Write(buf);
        case Complete(length, writes) =>
          if w.writePending && length <= |w.writeBuf| {
            w.WriteComplete(length, writes);
          }
        case Fail(writes) =>
          if w.writePending {
            w.WriteEach(writes);
          }
      }
      i := i + 1;
    }
  }
}
