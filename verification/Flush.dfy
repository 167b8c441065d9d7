/**
 Flush before close in src/remote/endpoint_connection.zig: an exit request that arrives while
 frames are still to be written is put off until they have been, or until a timeout.
 */
module Flush {
  import opened Bytes
  import opened CborBuffer
  import opened Stream
  import S = SocketWriter

  type Reason = bytes

  /** Why a connection ended. */
  datatype Cause = Flushed | TimedOut | Transport

  datatype End = End(reason: Reason, cause: Cause)

  // ---------------------------------------------------------------- the connection as a state machine

  /** `asked` is history: the exit requests so far, oldest first. */
  datatype State = State(
    sock: S.View,
    unwritten: nat,
    exitReason: Option<Reason>,
    timerArmed: bool,
    end: Option<End>,
    asked: seq<Reason>)

  const START := State(S.START, 0, None, false, None, [])

  datatype Event =
    | Frame(frame: bytes)
    | Complete(written: nat)                     // write_complete
    | Ask(reason: Reason)                        // an exit message
    | Timeout
    | Broken(reason: Reason, notice: bytes)      // a transport error, of which the peer may be told

  /** Completions cover bytes in flight, and the timer fires once it is armed; nothing happens to a
      connection that has ended. */
  predicate Enabled(st: State, ev: Event) {
    && st.end.None?
    && (ev.Complete? ==> S.Enabled(st.sock, S.Complete(ev.written, [])))
    && (ev.Timeout? ==> st.timerArmed)
  }

  /** The operator -|= of Zig. */
  function Saturating(a: nat, b: nat): nat {
    if b <= a then a - b else 0
  }

  /** send_frame. */
  function Framed(st: State, frame: bytes): State {
    st.(sock := S.Written(st.sock, frame), unwritten := st.unwritten + |frame|)
  }

  function Completed(st: State, written: nat): State {
    var left := Saturating(st.unwritten, written);
    st.(sock := S.Completed(st.sock, written, []), unwritten := left,
        end := if left == 0 && st.exitReason.Some? then Some(End(st.exitReason.value, Flushed)) else st.end)
  }

  function Asked(st: State, reason: Reason): State {
    var st1 := st.(asked := st.asked + [reason]);
    if st.unwritten == 0 then st1.(end := Some(End(reason, Flushed)))
    else if st.exitReason.Some? then st1
    else st1.(exitReason := Some(reason), timerArmed := true)
  }

  function Fired(st: State): State {
    if st.exitReason.Some? then st.(end := Some(End(st.exitReason.value, TimedOut))) else st
  }

  function Failed(st: State, reason: Reason, notice: bytes): State {
    (if notice == [] then st else Framed(st, notice)).(end := Some(End(reason, Transport)))
  }

  function Next(st: State, ev: Event): State {
    if !Enabled(st, ev) then st
    else
      match ev
      case Frame(f) => Framed(st, f)
      case Complete(n) => Completed(st, n)
      case Ask(r) => Asked(st, r)
      case Timeout => Fired(st)
      case Broken(r, notice) => Failed(st, r, notice)
  }

  function Exec(st: State, evs: seq<Event>): State
    decreases |evs|
  {
    if evs == [] then st else Exec(Next(st, evs[0]), evs[1..])
  }

  // ---------------------------------------------------------------- what every event keeps

  /** The byte count is exact.  A deferred exit is the first one asked for, and waits only while bytes
      are left; a flushed connection has transmitted every frame. */
  predicate Valid(st: State) {
    && S.Valid(st.sock)
    && st.unwritten == S.Held(st.sock)
    && (st.end.None? ==> (st.exitReason.Some? <==> st.asked != []))
    && (st.timerArmed <==> st.exitReason.Some?)
    && (st.exitReason.Some? ==> st.asked != [] && st.exitReason.value == st.asked[0])
    && (st.end.None? && st.exitReason.Some? ==> st.unwritten > 0)
    && (st.end.Some? && st.end.value.cause.Flushed? ==> st.sock.transmitted == st.sock.accepted)
    && (st.end.Some? && !st.end.value.cause.Transport? ==> st.asked != [] && st.end.value.reason == st.asked[0])
  }

  /** What an event asks for, and what it sends. */
  function AskOf(ev: Event): seq<Reason> {
    if ev.Ask? then [ev.reason] else []
  }

  function FrameOf(ev: Event): bytes {
    if ev.Frame? then ev.frame else if ev.Broken? then ev.notice else []
  }

  lemma FrameKeeps(st: State, f: bytes)
    requires Valid(st) && st.end.None?
    ensures var st' := Framed(st, f); Valid(st') && st'.sock.accepted == st.sock.accepted + f
  {
    S.WriteKeeps(st.sock, f);
  }

  /** The saturating subtraction never saturates, and a deferred exit closes exactly when every byte
      has been transmitted. */
  lemma CompleteKeeps(st: State, n: nat)
    requires Valid(st) && Enabled(st, Complete(n))
    ensures var st' := Completed(st, n);
            && Valid(st') && st'.sock.accepted == st.sock.accepted && n <= st.unwritten
            && st'.sock.transmitted == st.sock.transmitted + st.sock.inFlight[..n]
            && (st'.end.Some? <==> st.exitReason.Some? && st'.sock.transmitted == st'.sock.accepted)
  {
    S.CompleteKeeps(st.sock, n, []);
    assert Concat([]) == [];
    var v := Completed(st, n).sock;
    assert S.Held(v) == 0 <==> v.transmitted == v.accepted;
  }

  lemma NextKeeps(st: State, ev: Event)
    requires Valid(st)
    ensures var st' := Next(st, ev);
            && Valid(st')
            && st'.asked == st.asked + (if Enabled(st, ev) then AskOf(ev) else [])
            && st'.sock.accepted == st.sock.accepted + if Enabled(st, ev) then FrameOf(ev) else []
  {
    if Enabled(st, ev) {
      match ev {
        case Frame(f) => FrameKeeps(st, f);
        case Complete(n) => CompleteKeeps(st, n);
        case Broken(r, notice) => FrameKeeps(st, notice);
        case _ =>
      }
    }
  }

  /** The events of a run that occur: all of them up to the end, but for completions and timeouts that
      cannot. */
  function Occurring(st: State, evs: seq<Event>): seq<Event>
    decreases |evs|
  {
    if evs == [] then [] else (if Enabled(st, evs[0]) then [evs[0]] else []) + Occurring(Next(st, evs[0]), evs[1..])
  }

  /** The exit requests among the events. */
  function Asks(evs: seq<Event>): seq<Reason> {
    if evs == [] then [] else AskOf(evs[0]) + Asks(evs[1..])
  }

  /** The bytes of all frames among the events. */
  function Sent(evs: seq<Event>): bytes {
    if evs == [] then [] else FrameOf(evs[0]) + Sent(evs[1..])
  }

  lemma {:induction false} ExecKeeps(st: State, evs: seq<Event>)
    requires Valid(st)
    ensures var st', taken := Exec(st, evs), Occurring(st, evs);
            Valid(st') && st'.asked == st.asked + Asks(taken) && st'.sock.accepted == st.sock.accepted + Sent(taken)
    decreases |evs|
  {
    if evs != [] {
      NextKeeps(st, evs[0]);
      ExecKeeps(Next(st, evs[0]), evs[1..]);
      OneTaken(evs[0], Enabled(st, evs[0]), Occurring(Next(st, evs[0]), evs[1..]), st.asked, st.sock.accepted);
    }
  }

  lemma OneTaken(ev: Event, on: bool, rest: seq<Event>, asked: seq<Reason>, sent: bytes)
    ensures var taken := (if on then [ev] else []) + rest;
            && asked + Asks(taken) == asked + (if on then AskOf(ev) else []) + Asks(rest)
            && sent + Sent(taken) == sent + (if on then FrameOf(ev) else []) + Sent(rest)
  {
    if on {
      assert ([ev] + rest)[1..] == rest;
    } else {
      assert [] + rest == rest;
    }
  }

  /** In every run: when a connection closes after a flush, every frame of the run was transmitted, and
      its reason is the first one asked for; a timeout has that reason too; a connection that was asked
      to exit and has transmitted everything is closed; and one that has not waits for a timeout. */
  lemma FlushedBeforeClose(evs: seq<Event>)
    ensures var st, taken := Exec(START, evs), Occurring(START, evs);
            && st.unwritten == S.Held(st.sock)
            && (st.end.Some? && st.end.value.cause.Flushed? ==> st.sock.transmitted == Sent(taken))
            && (st.end.Some? && !st.end.value.cause.Transport? ==> Asks(taken) != [] && st.end.value.reason == Asks(taken)[0])
            && (Asks(taken) != [] && st.sock.transmitted == Sent(taken) ==> st.end.Some?)
            && (Asks(taken) != [] && st.end.None? ==> Enabled(st, Timeout))
  {
    ExecKeeps(START, evs);
    var taken := Occurring(START, evs);
    assert [] + Asks(taken) == Asks(taken) && [] + Sent(taken) == Sent(taken);
  }

  /** How a connection ends with an event, if it does: `asked` are the reasons asked for so far, and `left`
      the bytes not yet transmitted. */
  function EndWith(ev: Event, asked: seq<Reason>, left: bytes): Option<End> {
    match ev
    case Frame(_) => None
    case Complete(n) => if asked != [] && n >= |left| then Some(End(asked[0], Flushed)) else None
    case Ask(r) => if left == [] then Some(End(r, Flushed)) else None
    case Timeout => if asked != [] then Some(End(asked[0], TimedOut)) else None
    case Broken(r, _) => Some(End(r, Transport))
  }

  lemma EndsWith(st: State, ev: Event)
    requires Valid(st) && Enabled(st, ev)
    ensures st.sock.transmitted <= st.sock.accepted
    ensures Next(st, ev).end == EndWith(ev, st.asked, st.sock.accepted[|st.sock.transmitted|..])
    ensures ev.Timeout? ==> st.asked != []
  {
    var left := st.sock.accepted[|st.sock.transmitted|..];
    assert st.sock.accepted == st.sock.transmitted + (st.sock.writeBuf + st.sock.writeQ);
    assert left == st.sock.writeBuf + st.sock.writeQ;
    assert |left| == st.unwritten;
    if ev.Complete? {
      CompleteKeeps(st, ev.written);
    }
  }

  lemma {:induction false} ExecMore(st: State, evs: seq<Event>, ev: Event)
    ensures Exec(st, evs + [ev]) == Next(Exec(st, evs), ev)
    decreases |evs|
  {
    if evs == [] {
      assert evs + [ev] == [ev] && [ev][1..] == [];
    } else {
      assert (evs + [ev])[0] == evs[0] && (evs + [ev])[1..] == evs[1..] + [ev];
      ExecMore(Next(st, evs[0]), evs[1..], ev);
    }
  }

  /** After any run, each event that can occur ends the connection exactly when it should and with the
      right reason: a timeout always, with the first reason asked for; a transport error always, with
      its own; a completion when it covers all bytes left and an exit was asked for; an exit request
      when none are left; and a frame never. */
  lemma EndsExactly(evs: seq<Event>, ev: Event)
    requires Enabled(Exec(START, evs), ev)
    ensures var st, taken := Exec(START, evs), Occurring(START, evs);
            && st.sock.transmitted <= Sent(taken)
            && Exec(START, evs + [ev]).end == EndWith(ev, Asks(taken), Sent(taken)[|st.sock.transmitted|..])
            && (ev.Timeout? ==> Asks(taken) != [])
  {
    var st, taken := Exec(START, evs), Occurring(START, evs);
    ExecKeeps(START, evs);
    assert [] + Asks(taken) == Asks(taken) && [] + Sent(taken) == Sent(taken);
    EndsWith(st, ev);
    ExecMore(START, evs, ev);
  }

  /** A connection that has ended stays as it is. */
  lemma {:induction false} EndIsFinal(st: State, evs: seq<Event>)
    requires st.end.Some?
    ensures Exec(st, evs) == st
    decreases |evs|
  {
    if evs != [] {
      EndIsFinal(st, evs[1..]);
    }
  }

  // ---------------------------------------------------------------- the connection in place

  class Connection {
    const sock: S.Writer
    var unwritten: nat
    var exitReason: Option<Reason>
    var timerArmed: bool
    var end: Option<End>
    ghost var asked: seq<Reason>

    ghost function Now(): State
      reads this, sock
    {
      State(sock.State(), unwritten, exitReason, timerArmed, end, asked)
    }

    constructor ()
      ensures Now() == START && fresh(sock)
    {
      sock := new S.Writer();
      unwritten, exitReason, timerArmed, end := 0, None, false, None;
      asked := [];
    }

    /** send_frame. */
    method SendFrame(frame: bytes)
      modifies this, sock
      ensures Now() == Framed(old(Now()), frame)
    {
      sock.Write(frame);
      unwritten := unwritten + |frame|;
    }

    /** The write_complete message, which the socket delivers before it goes on. */
    method WriteComplete(written: nat)
      modifies this, sock
      ensures Now() == Completed(old(Now()), written)
    {
      unwritten := Saturating(unwritten, written);
      if unwritten == 0 && exitReason.Some? {
        end := Some(End(exitReason.value, Flushed));
      }
      sock.WriteComplete(written, []);
    }

    /** The exit message. */
    method Exit(reason: Reason)
      modifies this
      ensures Now() == Asked(old(Now()), reason)
    {
      asked := asked + [reason];
      if unwritten == 0 {
        end := Some(End(reason, Flushed));
        return;
      }
      if exitReason.Some? {
        return;
      }
      exitReason := Some(reason);
      timerArmed := true;
    }

    method FlushTimeout()
      modifies this
      ensures Now() == Fired(old(Now()))
    {
      if exitReason.Some? {
        end := Some(End(exitReason.value, TimedOut));
      }
    }

    /** read_error, write_error, the end of the stream and a closed socket: no flush.  All but the last
        try to tell the peer. */
    method TransportError(reason: Reason, notice: bytes)
      modifies this, sock
      ensures Now() == Failed(old(Now()), reason, notice)
    {
      if notice != [] {
        SendFrame(notice);
      }
      end := Some(End(reason, Transport));
    }
  }

  /** The connection in place goes through exactly the states of the state machine. */
  method Run(evs: seq<Event>) returns (c: Connection)
    ensures c.Now() == Exec(START, evs)
  {
    c := new Connection();
    var i := 0;
    while i < |evs|
      invariant 0 <= i <= |evs| && fresh(c) && fresh(c.sock) && Valid(c.Now())
      invariant Exec(c.Now(), evs[i..]) == Exec(START, evs)
    {
      assert evs[i..][1..] == evs[i + 1..];
      NextKeeps(c.Now(), evs[i]);
      if c.end.None? {
        match evs[i] {
          case Frame(f) => c.SendFrame(f);
          case Complete(n) => if c.sock.writePending && n <= |c.sock.writeBuf| { c.WriteComplete(n); }
          case Ask(r) => c.Exit(r);
          case Timeout => if c.timerArmed { c.FlushTimeout(); }
          case Broken(r, notice) => c.TransportError(r, notice);
        }
      }
      i := i + 1;
    }
  }
}
