/**
 Calls through the debug console (call_proxy and connection in the debug part of
 src/instance.cpp): a command that calls an actor is answered later, by a reply, a timeout or an
 error, each of which comes from a proxy actor of its own.
 */
module DebugCalls {
  import opened Bytes
  import opened Cbor
  import opened CborLaws
  import opened CborBuffer
  import opened CborMatch
  import opened CborMatchLaws
  import Screening

  type Id = nat
  type Seq = nat

  /** The proxy of a call: spawned, waiting for a reply, discarding late replies, or gone. */
  datatype Proxy = Spawned | Waiting | TimedOut | Done

  /** What a proxy sends to the connection.  The last is its exit message, when it was ended. */
  datatype Note = Reply(call: Seq, msg: bytes) | Timeout(call: Seq) | Error(call: Seq) | Ended(call: Seq)

  /** How a command is answered: at once, with the reply to its call, with "timeout", or with the error
      of a request that could not be sent. */
  datatype Outcome = AtOnce | Result(msg: bytes) | NoReply | Failed

  /** A line written for a command: which call it answers, if any, and the id it carries. */
  datatype Response = Response(call: Option<Seq>, id: Option<Id>, outcome: Outcome)

  /** What a JSON command amounts to. */
  datatype Command = Immediate(id: Id) | Call(id: Id, started: bool)

  // ---------------------------------------------------------------- messages

  const TIMEOUT: bytes :=
    [100, 101, 98, 117, 103, 95, 99, 97, 108, 108, 95, 116, 105, 109, 101, 111, 117, 116]

  /** What a message does to a proxy that waits: instance::run may keep it from the receiver, or end the
      proxy; then it is the timeout or a reply. */
  datatype Effect = Nothing | Ends | TimesOut | Replies

  function EffectOf(m: bytes): Effect {
    match Screening.Screen(m)
    case Kept => Nothing
    case Ends => Ends
    case Passed =>
      match MatchValue(A([StrLit(TIMEOUT)]), m)
      case Yes(_, _) => TimesOut
      case No => Replies
      case Throw => Ends
  }

  /** What the connection makes of a note: its message must be a range to be written out; otherwise it is
      shown as an ordinary message, or makes the match throw. */
  datatype Reading = Answers | Shown | Stops

  function Read(n: Note): Reading {
    match n
    case Ended(_) => Stops
    case Reply(_, m) =>
      (match MatchValue(GetRange, m)
       case Yes(_, _) => Answers
       case No => Shown
       case Throw => Stops)
    case _ => Answers
  }

  /** What any whole message does, in terms of the value it holds. */
  lemma EffectExact(m: bytes)
    requires Decode(m).Ok? && Decode(m).rest == []
    ensures var v, e := Decode(m).value, EffectOf(m);
            && (e.Nothing? <==> m == [0x81, 0x64] + Ascii("link") || m == [0x82, 0x64] + Ascii("exit") + [0x66] + Ascii("normal"))
            && (e.TimesOut? <==> v.Array? && |v.items| == 1 && IsName(v.items[0], Ascii("debug_call_timeout")))
            && (e.Ends? <==> !IsList(v) || (Screening.IsExit(v) && !e.Nothing?))
  {
    Spelled();
    Screening.ScreenExact(m);
    NameAlone(TIMEOUT, m);
    if Screening.Screen(m).Kept? {
      Screening.KeptValue(m);
    }
  }

  lemma Spelled()
    ensures TIMEOUT == Ascii("debug_call_timeout") && TIMEOUT != Ascii("link")
  {
  }

  /** What a note says about its call. */
  function Told(n: Note): Outcome {
    match n
    case Reply(_, m) => Result(m)
    case Timeout(_) => NoReply
    case _ => Failed
  }

  /** Every reply that a proxy passes on can be written out. */
  lemma RepliesAreRead(s: Seq, m: bytes)
    requires Skip(m) == Ok((), []) && EffectOf(m) == Replies
    ensures Read(Reply(s, m)) == Answers
  {
    Screening.PassedIsRange(m);
  }

  /** Anything but an array or null ends the proxy. */
  lemma NoArrayEnds(m: bytes)
    requires m == [] || (m[0] / 32 != 4 && m[0] != 0xf6)
    ensures Screening.Screen(m).Ends? && EffectOf(m) == Ends
  {
    Screening.NoArrayEnds(m);
  }

  // ---------------------------------------------------------------- the connection as a state machine

  datatype State = State(
    nextCall: Seq,
    pending: map<Seq, Id>,
    proxies: map<Seq, Proxy>,
    mailbox: seq<Note>,
    responses: seq<Response>,
    open: bool)

  const START := State(0, map[], map[], [], [], true)

  datatype Event =
    | Line(c: Command)
    | Starts(s: Seq, sent: bool)         // the first run of a proxy
    | Arrives(s: Seq, m: bytes)          // a message for a proxy, its timeout among them
    | Handle                             // the connection takes a note
    | Closes                             // the connection ends for a reason of its own

  predicate Is(st: State, s: Seq, p: Proxy) {
    s in st.proxies && st.proxies[s] == p
  }

  /** Messages are whole items. */
  predicate Enabled(st: State, ev: Event) {
    && st.open
    && match ev
       case Line(_) => true
       case Starts(s, _) => Is(st, s, Spawned)
       case Arrives(s, m) => (Is(st, s, Waiting) || Is(st, s, TimedOut)) && Skip(m) == Ok((), [])
       case Handle => st.mailbox != []
       case Closes => true
  }

  /** A proxy goes on, and may send a note. */
  function Moved(st: State, s: Seq, p: Proxy, ns: seq<Note>): State {
    st.(proxies := st.proxies[s := p], mailbox := st.mailbox + ns)
  }

  function Answered(st: State, id: Id): State {
    st.(responses := st.responses + [Response(None, Some(id), AtOnce)])
  }

  /** dispatch_json: every command but a call that was started is answered at once. */
  function Dispatched(st: State, c: Command): State {
    match c
    case Immediate(id) => Answered(st, id)
    case Call(id, started) =>
      var s := st.nextCall;
      if started then st.(nextCall := s + 1, pending := st.pending[s := id], proxies := st.proxies[s := Spawned])
      else Answered(st, id).(nextCall := s + 1, pending := st.pending - {s})
  }

  /** The id of a pending call goes into the response, and the call is no longer pending. */
  function Responded(st: State, s: Seq, o: Outcome): State {
    var id := if s in st.pending then Some(st.pending[s]) else None;
    st.(pending := st.pending - {s}, responses := st.responses + [Response(Some(s), id, o)])
  }

  /** The connection takes the first note.  The exit of a proxy ends the connection, which does not trap
      it either. */
  function Taken(st: State): State
    requires st.mailbox != []
  {
    TakenAs(st, Read(st.mailbox[0]))
  }

  function TakenAs(st: State, r: Reading): State
    requires st.mailbox != []
  {
    var st1 := st.(mailbox := st.mailbox[1..]);
    match r
    case Answers => Responded(st1, st.mailbox[0].call, Told(st.mailbox[0]))
    case Shown => st1
    case Stops => st1.(open := false)
  }

  /** A message to a proxy that waits. */
  function Heard(st: State, s: Seq, m: bytes, e: Effect): State {
    match e
    case Nothing => st
    case Ends => Moved(st, s, Done, [Ended(s)])
    case TimesOut => Moved(st, s, TimedOut, [Timeout(s)])
    case Replies => Moved(st, s, Done, [Reply(s, m)])
  }

  /** A proxy that has timed out discards what it receives, but can still be ended. */
  predicate EndsProxy(st: State, s: Seq, m: bytes) {
    if Is(st, s, Waiting) then EffectOf(m).Ends? else Screening.Screen(m).Ends?
  }

  function Arrived(st: State, s: Seq, m: bytes): State {
    if Is(st, s, Waiting) then Heard(st, s, m, EffectOf(m))
    else if EndsProxy(st, s, m) then Moved(st, s, Done, [Ended(s)])
    else st
  }

  function Next(st: State, ev: Event): State {
    if !Enabled(st, ev) then st
    else
      match ev
      case Line(c) => Dispatched(st, c)
      case Starts(s, sent) => if sent then Moved(st, s, Waiting, []) else Moved(st, s, Done, [Error(s)])
      case Arrives(s, m) => Arrived(st, s, m)
      case Handle => Taken(st)
      case Closes => st.(open := false)
  }

  function Exec(st: State, evs: seq<Event>): State
    decreases |evs|
  {
    if evs == [] then st else Exec(Next(st, evs[0]), evs[1..])
  }

  // ---------------------------------------------------------------- what happened so far

  /** Commands processed, the id of each call started, the calls whose proxy was ended, and those of them
      whose proxy still waited. */
  datatype Past = Past(commands: nat, ids: map<Seq, Id>, ended: set<Seq>, killed: set<Seq>)

  const NOTHING := Past(0, map[], {}, {})

  /** The history when a proxy has been ended. */
  function Buried(st: State, past: Past, s: Seq): Past {
    past.(ended := past.ended + {s}, killed := if Is(st, s, Waiting) then past.killed + {s} else past.killed)
  }

  function Recall(st: State, past: Past, ev: Event): Past {
    if !Enabled(st, ev) then past
    else
      match ev
      case Line(c) =>
        past.(commands := past.commands + 1,
              ids := if c.Call? && c.started then past.ids[st.nextCall := c.id] else past.ids)
      case Arrives(s, m) => if EndsProxy(st, s, m) then Buried(st, past, s) else past
      case _ => past
  }

  function History(st: State, past: Past, evs: seq<Event>): Past
    decreases |evs|
  {
    if evs == [] then past else History(Next(st, evs[0]), Recall(st, past, evs[0]), evs[1..])
  }

  // ---------------------------------------------------------------- what every event keeps

  /** A note that a call is waiting for. */
  predicate Tells(n: Note, s: Seq) {
    !n.Ended? && n.call == s
  }

  predicate Noted(mailbox: seq<Note>, s: Seq) {
    exists n :: n in mailbox && Tells(n, s)
  }

  /** A call that may still be answered. */
  predicate InProgress(st: State, s: Seq) {
    Is(st, s, Spawned) || Is(st, s, Waiting) || Noted(st.mailbox, s)
  }

  predicate CallsValid(st: State, past: Past) {
    && past.ids.Keys == st.proxies.Keys
    && (forall s :: s in st.proxies ==> s < st.nextCall)
    && (forall s :: s in st.pending ==> s in past.ids && st.pending[s] == past.ids[s])
  }

  /** A call is pending exactly while it may be answered, or when its proxy was ended before it reported. */
  predicate PendingValid(st: State, past: Past) {
    && (forall s :: s in past.ids ==> (s in st.pending <==> InProgress(st, s) || s in past.killed))
    && past.killed <= past.ended
    && (forall s :: s in past.ended ==> Is(st, s, Done))
    && (forall s :: s in past.ended && st.open ==> Ended(s) in st.mailbox)
  }

  predicate OnceEach(ns: seq<Note>) {
    forall i, j :: 0 <= i < j < |ns| && !ns[i].Ended? && !ns[j].Ended? ==> ns[i].call != ns[j].call
  }

  /** A note comes from a proxy that will send no other, and can be written out. */
  predicate MailValid(st: State, past: Past) {
    && OnceEach(st.mailbox)
    && forall n :: n in st.mailbox && !n.Ended? ==>
         (Is(st, n.call, TimedOut) || Is(st, n.call, Done)) && n.call !in past.killed && Read(n) == Answers
  }

  /** A call is answered at most once, with its own id, and is then no longer pending. */
  predicate ResponsesValid(st: State, past: Past) {
    && (forall r :: r in st.responses && r.call.Some? ==>
          r.call.value in past.ids && r.call.value !in st.pending && r.id == Some(past.ids[r.call.value]))
    && (forall i, j :: 0 <= i < j < |st.responses| && st.responses[i].call.Some? ==> st.responses[j].call != st.responses[i].call)
    && (forall r :: r in st.responses ==> r.id.Some?)
  }

  predicate HasAnswer(rs: seq<Response>, s: Seq) {
    exists r :: r in rs && r.call == Some(s)
  }

  /** A call that is no longer pending has been answered. */
  predicate AnswersValid(st: State, past: Past) {
    forall s :: s in past.ids ==> s in st.pending || HasAnswer(st.responses, s)
  }

  predicate Valid(st: State, past: Past) {
    && CallsValid(st, past) && PendingValid(st, past) && MailValid(st, past) && ResponsesValid(st, past) && AnswersValid(st, past)
    && past.commands == |st.responses| + |st.pending|
  }

  // ---------------------------------------------------------------- commands

  lemma CountMore(m: map<Seq, Id>, s: Seq, id: Id)
    requires s !in m
    ensures |m[s := id]| == |m| + 1
  {
    assert m[s := id].Keys == m.Keys + {s};
  }

  lemma CountLess(m: map<Seq, Id>, s: Seq)
    ensures |m - {s}| == if s in m then |m| - 1 else |m|
  {
    assert (m - {s}).Keys == m.Keys - {s};
    if s !in m {
      assert m - {s} == m;
    }
  }

  lemma MoreAnswers(rs: seq<Response>, r: Response, s: Seq)
    ensures HasAnswer(rs, s) || r.call == Some(s) ==> HasAnswer(rs + [r], s)
  {
    assert r in rs + [r];
    assert forall q :: q in rs ==> q in rs + [r];
  }

  lemma AnswerAnswers(st: State, past: Past, id: Id)
    requires AnswersValid(st, past)
    ensures AnswersValid(Answered(st, id), past)
  {
    forall s | s in past.ids ensures s in st.pending || HasAnswer(Answered(st, id).responses, s) {
      MoreAnswers(st.responses, Response(None, Some(id), AtOnce), s);
    }
  }

  lemma AnswerResponses(st: State, past: Past, id: Id)
    requires ResponsesValid(st, past)
    ensures ResponsesValid(Answered(st, id), past)
  {
  }

  lemma AnswerKeeps(st: State, past: Past, id: Id)
    requires Valid(st, past)
    ensures Valid(Answered(st, id), past.(commands := past.commands + 1))
  {
    AnswerResponses(st, past, id);
    AnswerAnswers(st, past, id);
    AnswerPending(st, past, id);
    AnswerMail(st, past, id);
  }

  lemma AnswerPending(st: State, past: Past, id: Id)
    requires PendingValid(st, past)
    ensures PendingValid(Answered(st, id), past.(commands := past.commands + 1))
  {
    var st' := Answered(st, id);
    forall q | q in past.ids ensures q in st'.pending <==> InProgress(st', q) || q in past.killed {
      assert InProgress(st', q) <==> InProgress(st, q);
    }
  }

  lemma AnswerMail(st: State, past: Past, id: Id)
    requires MailValid(st, past)
    ensures MailValid(Answered(st, id), past.(commands := past.commands + 1))
  {
  }

  /** The state and the history when a call has been entered. */
  function Entered(st: State, id: Id): State {
    st.(nextCall := st.nextCall + 1, pending := st.pending[st.nextCall := id], proxies := st.proxies[st.nextCall := Spawned])
  }

  function Counted(st: State, past: Past, id: Id): Past {
    past.(commands := past.commands + 1, ids := past.ids[st.nextCall := id])
  }

  lemma EnterPending(st: State, past: Past, id: Id)
    requires CallsValid(st, past) && PendingValid(st, past) && MailValid(st, past)
    ensures PendingValid(Entered(st, id), Counted(st, past, id))
  {
    var st', past' := Entered(st, id), Counted(st, past, id);
    forall q | q in past'.ids
      ensures q in st'.pending <==> InProgress(st', q) || q in past'.killed
    {
      if q == st.nextCall {
        assert Is(st', q, Spawned);
      } else {
        assert Is(st', q, Spawned) == Is(st, q, Spawned) && Is(st', q, Waiting) == Is(st, q, Waiting);
      }
    }
  }

  lemma EnterOthers(st: State, past: Past, id: Id)
    requires CallsValid(st, past) && MailValid(st, past) && AnswersValid(st, past)
    ensures var st', past' := Entered(st, id), Counted(st, past, id);
            CallsValid(st', past') && MailValid(st', past') && AnswersValid(st', past')
  {
  }

  lemma EnterResponses(st: State, past: Past, id: Id)
    requires CallsValid(st, past) && ResponsesValid(st, past)
    ensures ResponsesValid(Entered(st, id), Counted(st, past, id))
  {
    assert st.nextCall !in past.ids;
  }

  lemma EnterKeeps(st: State, past: Past, id: Id)
    requires Valid(st, past)
    ensures Valid(Entered(st, id), Counted(st, past, id))
  {
    assert st.nextCall !in st.pending;
    EnterPending(st, past, id);
    EnterOthers(st, past, id);
    EnterResponses(st, past, id);
    CountMore(st.pending, st.nextCall, id);
  }

  lemma LineKeeps(st: State, past: Past, c: Command)
    requires Valid(st, past) && st.open
    ensures Valid(Next(st, Line(c)), Recall(st, past, Line(c)))
  {
    match c {
      case Immediate(id) => AnswerKeeps(st, past, id);
      case Call(id, started) =>
        if started {
          EnterKeeps(st, past, id);
        } else {
          RefuseKeeps(st, past, id);
        }
    }
  }

  lemma NumberSkipped(st: State, past: Past)
    requires Valid(st, past)
    ensures Valid(st.(nextCall := st.nextCall + 1), past)
  {
  }

  lemma RefusedIsAnswered(st: State, past: Past, id: Id)
    requires CallsValid(st, past)
    ensures Dispatched(st, Call(id, false)) == Answered(st.(nextCall := st.nextCall + 1), id)
  {
    assert st.nextCall !in st.pending;
  }

  /** The proxy of a call could not be started. */
  lemma RefuseKeeps(st: State, past: Past, id: Id)
    requires Valid(st, past)
    ensures Valid(Dispatched(st, Call(id, false)), past.(commands := past.commands + 1))
  {
    RefusedIsAnswered(st, past, id);
    NumberSkipped(st, past);
    AnswerKeeps(st.(nextCall := st.nextCall + 1), past, id);
  }

  // ---------------------------------------------------------------- proxies

  lemma NotNoted(st: State, past: Past, s: Seq)
    requires MailValid(st, past) && (Is(st, s, Spawned) || Is(st, s, Waiting))
    ensures !Noted(st.mailbox, s) && forall n :: n in st.mailbox && !n.Ended? ==> n.call != s
  {
  }

  lemma SendPending(st: State, past: Past, s: Seq)
    requires PendingValid(st, past) && Is(st, s, Spawned)
    ensures PendingValid(st.(proxies := st.proxies[s := Waiting]), past)
  {
    var st' := st.(proxies := st.proxies[s := Waiting]);
    forall q | q in past.ids ensures q in st'.pending <==> InProgress(st', q) || q in past.killed {
      assert InProgress(st', q) <==> InProgress(st, q);
    }
  }

  lemma SendOthers(st: State, past: Past, s: Seq)
    requires CallsValid(st, past) && MailValid(st, past) && Is(st, s, Spawned)
    ensures var st' := st.(proxies := st.proxies[s := Waiting]); CallsValid(st', past) && MailValid(st', past)
  {
    assert st.proxies[s := Waiting].Keys == st.proxies.Keys;
    NotNoted(st, past, s);
  }

  /** The request has been sent. */
  lemma SendKeeps(st: State, past: Past, s: Seq)
    requires Valid(st, past) && Is(st, s, Spawned)
    ensures Valid(Moved(st, s, Waiting, []), past)
  {
    assert Moved(st, s, Waiting, []) == st.(proxies := st.proxies[s := Waiting]);
    SendPending(st, past, s);
    SendOthers(st, past, s);
  }

  lemma NoteMail(st: State, past: Past, s: Seq, p: Proxy, n: Note)
    requires PendingValid(st, past) && MailValid(st, past) && (Is(st, s, Spawned) || Is(st, s, Waiting))
    requires (p.TimedOut? || p.Done?) && Tells(n, s) && Read(n) == Answers
    ensures MailValid(Moved(st, s, p, [n]), past)
  {
    NotNoted(st, past, s);
    assert s !in past.ended;
  }

  lemma NotePending(st: State, past: Past, s: Seq, p: Proxy, n: Note)
    requires PendingValid(st, past) && MailValid(st, past) && (Is(st, s, Spawned) || Is(st, s, Waiting))
    requires (p.TimedOut? || p.Done?) && Tells(n, s)
    ensures PendingValid(Moved(st, s, p, [n]), past)
  {
    var st' := Moved(st, s, p, [n]);
    forall q | q in past.ids
      ensures q in st'.pending <==> InProgress(st', q) || q in past.killed
    {
      NotedMore(st.mailbox, n, q);
      if q == s {
        assert InProgress(st, s) && InProgress(st', s);
      } else {
        assert InProgress(st', q) == InProgress(st, q);
      }
    }
    assert s !in past.ended;
  }

  /** The one note of a call. */
  lemma NoteKeeps(st: State, past: Past, s: Seq, p: Proxy, n: Note)
    requires Valid(st, past) && (Is(st, s, Spawned) || Is(st, s, Waiting))
    requires (p.TimedOut? || p.Done?) && Tells(n, s) && Read(n) == Answers
    ensures Valid(Moved(st, s, p, [n]), past)
  {
    NoteMail(st, past, s, p, n);
    NotePending(st, past, s, p, n);
  }

  lemma NotedMore(mailbox: seq<Note>, n: Note, s: Seq)
    ensures Noted(mailbox + [n], s) <==> Noted(mailbox, s) || Tells(n, s)
  {
    assert n in mailbox + [n];
  }

  lemma ExitMail(st: State, past: Past, s: Seq)
    requires MailValid(st, past) && (Is(st, s, Waiting) || Is(st, s, TimedOut))
    ensures MailValid(Moved(st, s, Done, [Ended(s)]), Buried(st, past, s))
  {
    if Is(st, s, Waiting) {
      NotNoted(st, past, s);
    }
  }

  lemma ExitPending(st: State, past: Past, s: Seq)
    requires PendingValid(st, past) && MailValid(st, past) && (Is(st, s, Waiting) || Is(st, s, TimedOut))
    ensures PendingValid(Moved(st, s, Done, [Ended(s)]), Buried(st, past, s))
  {
    var st', past' := Moved(st, s, Done, [Ended(s)]), Buried(st, past, s);
    forall q | q in past.ids
      ensures q in st'.pending <==> InProgress(st', q) || q in past'.killed
    {
      NotedMore(st.mailbox, Ended(s), q);
      if q == s {
        assert Is(st, s, Waiting) ==> InProgress(st, s);
      } else {
        assert InProgress(st', q) == InProgress(st, q);
      }
    }
  }

  /** The end of a proxy. */
  lemma ExitKeeps(st: State, past: Past, s: Seq)
    requires Valid(st, past) && (Is(st, s, Waiting) || Is(st, s, TimedOut))
    ensures Valid(Moved(st, s, Done, [Ended(s)]), Buried(st, past, s))
  {
    ExitMail(st, past, s);
    ExitPending(st, past, s);
  }

  lemma ArriveKeeps(st: State, past: Past, s: Seq, m: bytes)
    requires Valid(st, past) && Enabled(st, Arrives(s, m))
    ensures Valid(Next(st, Arrives(s, m)), Recall(st, past, Arrives(s, m)))
  {
    if EndsProxy(st, s, m) {
      ExitKeeps(st, past, s);
    } else if Is(st, s, Waiting) {
      match EffectOf(m) {
        case TimesOut => NoteKeeps(st, past, s, TimedOut, Timeout(s));
        case Replies =>
          RepliesAreRead(s, m);
          NoteKeeps(st, past, s, Done, Reply(s, m));
        case _ =>
      }
    }
  }

  // ---------------------------------------------------------------- the connection takes a note

  lemma NotedLess(mailbox: seq<Note>, s: Seq)
    requires mailbox != []
    ensures Noted(mailbox, s) <==> Tells(mailbox[0], s) || Noted(mailbox[1..], s)
  {
    assert mailbox == [mailbox[0]] + mailbox[1..];
  }

  /** The rest of the mailbox has no second note of a call. */
  lemma OnlyNote(st: State, past: Past)
    requires MailValid(st, past) && st.mailbox != []
    ensures MailValid(st.(mailbox := st.mailbox[1..]), past)
    ensures !st.mailbox[0].Ended? ==> !Noted(st.mailbox[1..], st.mailbox[0].call)
  {
    assert forall n :: n in st.mailbox[1..] ==> n in st.mailbox;
  }

  lemma RespondPending(st: State, past: Past)
    requires PendingValid(st, past) && MailValid(st, past) && st.mailbox != [] && !st.mailbox[0].Ended?
    ensures PendingValid(TakenAs(st, Answers), past)
  {
    var n, st' := st.mailbox[0], TakenAs(st, Answers);
    assert n in st.mailbox;
    OnlyNote(st, past);
    forall q | q in past.ids
      ensures q in st'.pending <==> InProgress(st', q) || q in past.killed
    {
      NotedLess(st.mailbox, q);
      if q != n.call {
        assert InProgress(st', q) == InProgress(st, q);
      }
    }
    forall q | q in past.ended && st.open ensures Ended(q) in st'.mailbox {
      assert Ended(q) in st.mailbox && Ended(q) != n;
    }
  }

  lemma RespondResponses(st: State, past: Past)
    requires CallsValid(st, past) && ResponsesValid(st, past) && st.mailbox != [] && st.mailbox[0].call in st.pending
    ensures ResponsesValid(TakenAs(st, Answers), past)
  {
  }

  lemma RespondAnswers(st: State, past: Past)
    requires AnswersValid(st, past) && st.mailbox != [] && st.mailbox[0].call in st.pending
    ensures AnswersValid(TakenAs(st, Answers), past)
  {
    var s, st' := st.mailbox[0].call, TakenAs(st, Answers);
    forall q | q in past.ids ensures q in st'.pending || HasAnswer(st'.responses, q) {
      MoreAnswers(st.responses, Response(Some(s), Some(st.pending[s]), Told(st.mailbox[0])), q);
    }
  }

  lemma RespondKeeps(st: State, past: Past)
    requires Valid(st, past) && st.mailbox != [] && !st.mailbox[0].Ended?
    ensures Valid(TakenAs(st, Answers), past)
  {
    var n := st.mailbox[0];
    assert n in st.mailbox;
    assert n.call in st.pending by {
      assert Tells(n, n.call);
      assert Noted(st.mailbox, n.call);
    }
    CountLess(st.pending, n.call);
    RespondPending(st, past);
    RespondResponses(st, past);
    RespondAnswers(st, past);
    OnlyNote(st, past);
  }

  /** The exit of a proxy ends the connection. */
  lemma StopKeeps(st: State, past: Past)
    requires Valid(st, past) && st.mailbox != [] && st.mailbox[0].Ended?
    ensures Valid(TakenAs(st, Stops), past)
  {
    var st' := TakenAs(st, Stops);
    OnlyNote(st, past);
    forall q | q in past.ids
      ensures q in st'.pending <==> InProgress(st', q) || q in past.killed
    {
      NotedLess(st.mailbox, q);
    }
  }

  lemma TakeKeeps(st: State, past: Past)
    requires Valid(st, past) && st.mailbox != []
    ensures Valid(Taken(st), past)
  {
    assert st.mailbox[0] in st.mailbox;
    if st.mailbox[0].Ended? {
      StopKeeps(st, past);
    } else {
      RespondKeeps(st, past);
    }
  }

  // ---------------------------------------------------------------- whole runs

  lemma NextKeeps(st: State, past: Past, ev: Event)
    requires Valid(st, past)
    ensures Valid(Next(st, ev), Recall(st, past, ev))
  {
    if Enabled(st, ev) {
      match ev {
        case Line(c) => LineKeeps(st, past, c);
        case Starts(s, sent) =>
          if sent {
            SendKeeps(st, past, s);
          } else {
            NoteKeeps(st, past, s, Done, Error(s));
          }
        case Arrives(s, m) => ArriveKeeps(st, past, s, m);
        case Handle => TakeKeeps(st, past);
        case Closes =>
      }
    }
  }

  lemma {:induction false} ExecKeeps(st: State, past: Past, evs: seq<Event>)
    requires Valid(st, past)
    ensures Valid(Exec(st, evs), History(st, past, evs))
    ensures past.ended <= History(st, past, evs).ended
    decreases |evs|
  {
    if evs != [] {
      NextKeeps(st, past, evs[0]);
      ExecKeeps(Next(st, evs[0]), Recall(st, past, evs[0]), evs[1..]);
    }
  }

  lemma Begins()
    ensures Valid(START, NOTHING)
  {
  }

  /** In every run: the commands processed are the responses written and the calls pending; a call is
      answered at most once and with the id of its own command; and it is pending exactly if it may
      still be answered or its proxy was ended while it waited. */
  lemma CommandsConserved(evs: seq<Event>)
    ensures var st, past := Exec(START, evs), History(START, NOTHING, evs);
            && past.commands == |st.responses| + |st.pending|
            && (forall r :: r in st.responses && r.call.Some? ==> r.call.value in past.ids && r.id == Some(past.ids[r.call.value]))
            && (forall i, j :: 0 <= i < j < |st.responses| && st.responses[i].call.Some? ==>
                  st.responses[j].call != st.responses[i].call)
            && (forall s :: s in past.ids ==> (s in st.pending <==> InProgress(st, s) || s in past.killed))
  {
    Begins();
    ExecKeeps(START, NOTHING, evs);
  }

  // ---------------------------------------------------------------- how calls are answered

  /** What an event reports of a call: that its request could not be sent, or what reached the receiver of
      its proxy. */
  function Report(st: State, ev: Event, s: Seq): Option<Outcome> {
    if !Enabled(st, ev) then None
    else if ev == Starts(s, false) then Some(Failed)
    else if ev.Arrives? && ev.s == s && EffectOf(ev.m).TimesOut? then Some(NoReply)
    else if ev.Arrives? && ev.s == s && EffectOf(ev.m).Replies? then Some(Result(ev.m))
    else None
  }

  /** What was reported first. */
  function FirstReport(st: State, evs: seq<Event>, s: Seq): Option<Outcome>
    decreases |evs|
  {
    if evs == [] then None
    else if Report(st, evs[0], s).Some? then Report(st, evs[0], s)
    else FirstReport(Next(st, evs[0]), evs[1..], s)
  }

  /** The notes and the answers of a call say what was reported first, and nothing is reported before the
      proxy has run. */
  predicate SaysFirst(st: State, s: Seq, o: Option<Outcome>) {
    && (o.Some? ==> s in st.proxies && !Is(st, s, Spawned) && !Is(st, s, Waiting))
    && (Is(st, s, TimedOut) ==> o.Some?)
    && (forall n :: n in st.mailbox && Tells(n, s) ==> o == Some(Told(n)))
    && (forall r :: r in st.responses && r.call == Some(s) ==> o == Some(r.outcome))
  }

  function OrElse(o: Option<Outcome>, p: Option<Outcome>): Option<Outcome> {
    if o.Some? then o else p
  }

  lemma ArriveSays(st: State, s: Seq, o: Option<Outcome>, q: Seq, m: bytes)
    requires SaysFirst(st, s, o) && Enabled(st, Arrives(q, m))
    ensures SaysFirst(Arrived(st, q, m), s, OrElse(o, Report(st, Arrives(q, m), s)))
  {
    if q == s && Is(st, s, Waiting) {
      assert o.None?;
    }
  }

  lemma TakeSays(st: State, s: Seq, o: Option<Outcome>)
    requires SaysFirst(st, s, o) && st.mailbox != []
    ensures SaysFirst(Taken(st), s, o)
  {
    var n := st.mailbox[0];
    assert n in st.mailbox;
    if Read(n).Answers? {
      assert !n.Ended?;
      assert n.call == s ==> Tells(n, s);
    }
  }

  lemma LineSays(st: State, s: Seq, o: Option<Outcome>, c: Command)
    requires SaysFirst(st, s, o) && (st.nextCall !in st.proxies)
    ensures SaysFirst(Dispatched(st, c), s, o)
  {
  }

  lemma NextSays(st: State, past: Past, s: Seq, o: Option<Outcome>, ev: Event)
    requires CallsValid(st, past) && SaysFirst(st, s, o)
    ensures SaysFirst(Next(st, ev), s, OrElse(o, Report(st, ev, s)))
  {
    if Enabled(st, ev) {
      match ev {
        case Line(c) => LineSays(st, s, o, c);
        case Arrives(q, m) => ArriveSays(st, s, o, q, m);
        case Handle => TakeSays(st, s, o);
        case _ =>
      }
    }
  }

  lemma {:induction false} ExecSays(st: State, past: Past, s: Seq, o: Option<Outcome>, evs: seq<Event>)
    requires Valid(st, past) && SaysFirst(st, s, o)
    ensures SaysFirst(Exec(st, evs), s, OrElse(o, FirstReport(st, evs, s)))
    decreases |evs|
  {
    if evs != [] {
      NextKeeps(st, past, evs[0]);
      NextSays(st, past, s, o, evs[0]);
      ExecSays(Next(st, evs[0]), Recall(st, past, evs[0]), s, OrElse(o, Report(st, evs[0], s)), evs[1..]);
    }
  }

  /** Nothing of the call is under way: its proxy is gone and no message from it is waiting. */
  predicate Over(st: State, s: Seq) {
    Is(st, s, Done) && forall n :: n in st.mailbox ==> n.call != s
  }

  /** A call that is over on an open connection has been answered exactly once, with the id of its own
      command, and with what was reported first: the reply is the first message that reached the
      receiver of its proxy, unless that was the timeout. */
  lemma AnsweredWhenOver(evs: seq<Event>, s: Seq) returns (i: nat)
    requires var st := Exec(START, evs); st.open && Over(st, s)
    ensures var st, past, first := Exec(START, evs), History(START, NOTHING, evs), FirstReport(START, evs, s);
            && s !in st.pending && s in past.ids && first.Some?
            && i < |st.responses| && st.responses[i] == Response(Some(s), Some(past.ids[s]), first.value)
            && forall j :: 0 <= j < |st.responses| && j != i ==> st.responses[j].call != Some(s)
  {
    Begins();
    ExecKeeps(START, NOTHING, evs);
    i := TheAnswer(Exec(START, evs), History(START, NOTHING, evs), s);
    ExecSays(START, NOTHING, s, None, evs);
    assert Exec(START, evs).responses[i] in Exec(START, evs).responses;
  }

  lemma TheAnswer(st: State, past: Past, s: Seq) returns (i: nat)
    requires Valid(st, past) && st.open && Over(st, s)
    ensures s !in st.pending && s in past.ids
    ensures i < |st.responses| && st.responses[i].call == Some(s) && st.responses[i].id == Some(past.ids[s])
    ensures forall j :: 0 <= j < |st.responses| && j != i ==> st.responses[j].call != Some(s)
  {
    assert s in past.ids;
    assert s !in st.pending by {
      assert !InProgress(st, s);
    }
    assert HasAnswer(st.responses, s);
    var r :| r in st.responses && r.call == Some(s);
    i :| 0 <= i < |st.responses| && st.responses[i] == r;
  }

  // ---------------------------------------------------------------- calls come to an end

  function Handles(k: nat): seq<Event> {
    if k == 0 then [] else [Handle] + Handles(k - 1)
  }

  /** Notes are taken one after the other, and other calls are not touched. */
  lemma {:induction false} HandlesTake(st: State, k: nat, s: Seq)
    requires st.open && k <= |st.mailbox| && s in st.pending
    requires forall i :: 0 <= i < k ==> Read(st.mailbox[i]) == Answers && st.mailbox[i].call != s
    ensures var st' := Exec(st, Handles(k));
            st'.open && st'.mailbox == st.mailbox[k..] && s in st'.pending && st'.pending[s] == st.pending[s]
    decreases k
  {
    if k > 0 {
      var st1 := Next(st, Handle);
      assert Handles(k)[1..] == Handles(k - 1);
      assert forall i :: 0 <= i < k - 1 ==> st1.mailbox[i] == st.mailbox[i + 1];
      HandlesTake(st1, k - 1, s);
    }
  }

  lemma {:induction false} HandlesSplit(st: State, k: nat)
    ensures Exec(st, Handles(k + 1)) == Next(Exec(st, Handles(k)), Handle)
    decreases k
  {
    assert Handles(k + 1)[1..] == Handles(k);
    if k > 0 {
      assert Handles(k)[1..] == Handles(k - 1);
      HandlesSplit(Next(st, Handle), k - 1);
    } else {
      assert Handles(0) == [];
    }
  }

  /** The last note answers its own call. */
  lemma LastTaken(st: State, n: Note, id: Id)
    requires st.open && st.mailbox != [] && st.mailbox[|st.mailbox| - 1] == n && Read(n) == Answers
    requires n.call in st.pending && st.pending[n.call] == id
    requires forall i :: 0 <= i < |st.mailbox| - 1 ==> Read(st.mailbox[i]) == Answers && st.mailbox[i].call != n.call
    ensures var st' := Exec(st, Handles(|st.mailbox|));
            st'.open && st'.mailbox == [] && Response(Some(n.call), Some(id), Told(n)) in st'.responses
  {
    var k := |st.mailbox| - 1;
    HandlesTake(st, k, n.call);
    HandlesSplit(st, k);
    assert Exec(st, Handles(k)).mailbox == [n];
  }

  /** After any run without the exit of a proxy waiting: a call that is made, whose request is sent and
      whose proxy then gets a reply or a timeout, is answered with just that once the notes have been
      taken. */
  lemma CallCompletes(evs: seq<Event>, id: Id, m: bytes)
    requires var st := Exec(START, evs); st.open && forall n :: n in st.mailbox ==> !n.Ended?
    requires Skip(m) == Ok((), []) && (EffectOf(m).Replies? || EffectOf(m).TimesOut?)
    ensures var st := Exec(START, evs);
            var st' := Next(Next(Next(st, Line(Call(id, true))), Starts(st.nextCall, true)), Arrives(st.nextCall, m));
            var end := Exec(st', Handles(|st.mailbox| + 1));
            end.open && end.mailbox == []
            && Response(Some(st.nextCall), Some(id), if EffectOf(m).Replies? then Result(m) else NoReply) in end.responses
  {
    var st, past := Exec(START, evs), History(START, NOTHING, evs);
    Begins();
    ExecKeeps(START, NOTHING, evs);
    CallReported(st, past, id, m);
  }

  lemma CallReported(st: State, past: Past, id: Id, m: bytes)
    requires CallsValid(st, past) && MailValid(st, past) && st.open && forall n :: n in st.mailbox ==> !n.Ended?
    requires Skip(m) == Ok((), []) && (EffectOf(m).Replies? || EffectOf(m).TimesOut?)
    ensures var st' := Next(Next(Next(st, Line(Call(id, true))), Starts(st.nextCall, true)), Arrives(st.nextCall, m));
            var end := Exec(st', Handles(|st.mailbox| + 1));
            end.open && end.mailbox == []
            && Response(Some(st.nextCall), Some(id), if EffectOf(m).Replies? then Result(m) else NoReply) in end.responses
  {
    var s := st.nextCall;
    var n := if EffectOf(m).Replies? then Reply(s, m) else Timeout(s);
    var st3 := Next(Next(Next(st, Line(Call(id, true))), Starts(s, true)), Arrives(s, m));
    CallMade(st, id, m);
    assert Read(n) == Answers by {
      if EffectOf(m).Replies? {
        RepliesAreRead(s, m);
      }
    }
    forall i | 0 <= i < |st.mailbox| ensures Read(st3.mailbox[i]) == Answers && st3.mailbox[i].call != s {
      assert st3.mailbox[i] == st.mailbox[i] && st.mailbox[i] in st.mailbox;
    }
    LastTaken(st3, n, id);
  }

  lemma CallMade(st: State, id: Id, m: bytes)
    requires st.open && Skip(m) == Ok((), []) && (EffectOf(m).Replies? || EffectOf(m).TimesOut?)
    ensures var s := st.nextCall;
            var st3 := Next(Next(Next(st, Line(Call(id, true))), Starts(s, true)), Arrives(s, m));
            && st3.open && s in st3.pending && st3.pending[s] == id
            && st3.mailbox == st.mailbox + [if EffectOf(m).Replies? then Reply(s, m) else Timeout(s)]
  {
    var s := st.nextCall;
    var st1 := Next(st, Line(Call(id, true)));
    var st2 := Next(st1, Starts(s, true));
    assert Is(st1, s, Spawned);
    assert Is(st2, s, Waiting) && st2.mailbox == st.mailbox && st2.pending[s] == id;
    assert Enabled(st2, Arrives(s, m));
  }

  /** A proxy that is ended takes the connection with it: the connection is closed, or the exit message
      that will close it is waiting. */
  lemma EndedWithProxy(evs: seq<Event>, s: Seq)
    requires s in History(START, NOTHING, evs).ended
    ensures var st := Exec(START, evs); !st.open || Ended(s) in st.mailbox
  {
    Begins();
    ExecKeeps(START, NOTHING, evs);
  }

  /** So does any message but an array or null, even a late one, however the run goes on. */
  lemma NoArrayEndsConnection(evs: seq<Event>, s: Seq, m: bytes, more: seq<Event>)
    requires Enabled(Exec(START, evs), Arrives(s, m)) && m[0] / 32 != 4 && m[0] != 0xf6
    ensures var st := Exec(Next(Exec(START, evs), Arrives(s, m)), more); !st.open || Ended(s) in st.mailbox
  {
    var st, past := Exec(START, evs), History(START, NOTHING, evs);
    Begins();
    ExecKeeps(START, NOTHING, evs);
    NoArrayEnds(m);
    NextKeeps(st, past, Arrives(s, m));
    ExecKeeps(Next(st, Arrives(s, m)), Recall(st, past, Arrives(s, m)), more);
  }

  // ---------------------------------------------------------------- the connection in place

  class Connection {
    var nextCall: Seq
    var pendingCalls: map<Seq, Id>
    var proxies: map<Seq, Proxy>
    var mailbox: seq<Note>
    var responses: seq<Response>
    var open: bool

    ghost function Now(): State
      reads this
    {
      State(nextCall, pendingCalls, proxies, mailbox, responses, open)
    }

    constructor ()
      ensures Now() == START
    {
      nextCall, pendingCalls, proxies, mailbox, responses, open := 0, map[], map[], [], [], true;
    }

    /** dispatch_json: a call is entered before its proxy is started, and taken out again if that
        fails. */
    method Dispatch(c: Command)
      modifies this
      ensures Now() == Dispatched(old(Now()), c)
    {
      match c {
        case Immediate(id) =>
          responses := responses + [Response(None, Some(id), AtOnce)];
        case Call(id, started) =>
          var s := nextCall;
          nextCall := nextCall + 1;
          pendingCalls := pendingCalls[s := id];
          if started {
            proxies := proxies[s := Spawned];
          } else {
            pendingCalls := pendingCalls - {s};
            assert pendingCalls == old(pendingCalls) - {s};
            responses := responses + [Response(None, Some(id), AtOnce)];
          }
      }
    }

    /** The first run of a proxy: the request is sent, or the error reported. */
    method ProxyStarts(s: Seq, sent: bool)
      requires Enabled(Now(), Starts(s, sent))
      modifies this`proxies, this`mailbox
      ensures Now() == Next(old(Now()), Starts(s, sent))
    {
      if sent {
        proxies := proxies[s := Waiting];
      } else {
        proxies := proxies[s := Done];
        mailbox := mailbox + [Error(s)];
      }
    }

    /** instance::run: the receiver is not called for a link or an exit, nor when the test for an exit
        throws. */
    method ProxyRuns(s: Seq, m: bytes)
      requires Enabled(Now(), Arrives(s, m))
      modifies this`proxies, this`mailbox
      ensures Now() == Next(old(Now()), Arrives(s, m))
    {
      match Screening.Screen(m) {
        case Kept =>
        case Ends => ProxyEnds(s);
        case Passed => ProxyReceives(s, m);
      }
    }

    /** call_proxy::receive. */
    method ProxyReceives(s: Seq, m: bytes)
      requires Enabled(Now(), Arrives(s, m)) && Screening.Screen(m).Passed?
      modifies this`proxies, this`mailbox
      ensures Now() == Next(old(Now()), Arrives(s, m))
    {
      if proxies[s].TimedOut? {
        return;
      }
      match MatchValue(A([StrLit(TIMEOUT)]), m) {
        case Yes(_, _) =>
          mailbox := mailbox + [Timeout(s)];
          proxies := proxies[s := TimedOut];
        case No =>
          mailbox := mailbox + [Reply(s, m)];
          proxies := proxies[s := Done];
        case Throw =>
          ProxyEnds(s);
      }
    }

    /** handle_exit: the linked connection is told. */
    method ProxyEnds(s: Seq)
      modifies this`proxies, this`mailbox
      ensures Now() == Moved(old(Now()), s, Done, [Ended(s)])
    {
      mailbox := mailbox + [Ended(s)];
      proxies := proxies[s := Done];
    }

    /** take_call: the id of a pending call, which is then no longer pending. */
    method TakeCall(s: Seq) returns (id: Option<Id>)
      modifies this`pendingCalls
      ensures id == if s in old(pendingCalls) then Some(old(pendingCalls)[s]) else None
      ensures pendingCalls == old(pendingCalls) - {s}
    {
      if s in pendingCalls {
        id := Some(pendingCalls[s]);
        pendingCalls := pendingCalls - {s};
      } else {
        id := None;
      }
    }

    /** The connection takes the first note. */
    method Receive()
      requires mailbox != []
      modifies this
      ensures Now() == Taken(old(Now()))
    {
      var n := mailbox[0];
      mailbox := mailbox[1..];
      match Read(n) {
        case Answers =>
          var id := TakeCall(n.call);
          responses := responses + [Response(Some(n.call), id, Told(n))];
        case Shown =>
        case Stops =>
          open := false;
      }
    }

    method Close()
      modifies this`open
      ensures Now() == old(Now()).(open := false)
    {
      open := false;
    }
  }

  /** Events that cannot occur in a state change nothing. */
  method Apply(c: Connection, ev: Event)
    modifies c
    ensures c.Now() == Next(old(c.Now()), ev)
  {
    if !c.open {
      return;
    }
    match ev {
      case Line(cmd) => c.Dispatch(cmd);
      case Starts(s, sent) => if s in c.proxies && c.proxies[s].Spawned? { c.ProxyStarts(s, sent); }
      case Arrives(s, m) =>
        if s in c.proxies && (c.proxies[s].Waiting? || c.proxies[s].TimedOut?) && Skip(m) == Ok((), []) {
          c.ProxyRuns(s, m);
        }
      case Handle => if c.mailbox != [] { c.Receive(); }
      case Closes => c.Close();
    }
  }

  /** The connection in place goes through exactly the states of the state machine. */
  method Run(evs: seq<Event>) returns (c: Connection)
    ensures c.Now() == Exec(START, evs)
  {
    c := new Connection();
    var i := 0;
    while i < |evs|
      invariant 0 <= i <= |evs| && fresh(c) && Exec(c.Now(), evs[i..]) == Exec(START, evs)
    {
      assert evs[i..][1..] == evs[i + 1..];
      Apply(c, evs[i]);
      i := i + 1;
    }
  }
}
