/**
 A frame read from the wire keeps every open lane, on the reader's side and on the writer's.
 */
module RemoteArrivals {
  import opened Actors
  import opened Lifecycle
  import opened Mail
  import opened Remote
  import opened RemoteInv
  import opened RemoteEndpoint
  import opened RemoteMoves
  import opened RemoteLanes
  import opened RemoteTransparency

  /** The side as it is when the endpoint starts on a frame. */
  function Awake(sd: Side): Side
    requires sd.ep in sd.node.actors
  {
    sd.(node := Put(sd.node, sd.ep, Entered(sd.node.actors[sd.ep])))
  }

  lemma AwakeSame(sd: Side, k: Id)
    requires sd.ep in sd.node.actors
    ensures var sd1 := Awake(sd);
            && Box(sd1, k) == Box(sd, k) && Log(sd1, k) == Log(sd, k) && EndpointBox(sd1) == EndpointBox(sd)
            && (EntryOk(sd, k) ==> EntryOk(sd1, k))
            && (forall y :: Delivered(sd1, k, y) == Delivered(sd, k, y))
  {
  }

  /** A frame that the endpoint survives. */
  lemma Survives(sd: Side, fr: Frame)
    requires sd.ep in sd.node.actors && Alive(ReadFrame(sd, fr).node, sd.ep)
    ensures var (sd1, cb) := Dispatch(Awake(sd), fr);
            ReadFrame(sd, fr) == sd1.(node := Invoke(Awake(sd).node, sd.ep, cb))
  {
    DispatchIgnoresCalls(sd, Awake(sd), fr);
    var (sd1, cb) := Dispatch(sd, fr);
    var sd3 := sd1.(node := Invoke(Awake(sd).node, sd.ep, cb));
    if !Alive(sd3.node, sd.ep) {
      BurySparesNode(sd3);
    }
  }

  // ---------------------------------------------------------------- frames that carry no message

  function Quiet(y: Id): Kind {
    (e: Env) => !e.msg.Send? && !e.via.ByPid? && !(e.msg.DeliverPid? && e.msg.target == y)
  }

  lemma DispatchEffects(sd: Side, fr: Frame, y: Id)
    ensures forall e :: e in Dispatch(sd, fr).1.effects ==> EffectOf(sd.ep, e, NotSend())
    ensures !(fr.SendFrame? && fr.to == y) ==> forall e :: e in Dispatch(sd, fr).1.effects ==> EffectOf(sd.ep, e, Quiet(y))
  {
    forall e | e in Dispatch(sd, fr).1.effects
      ensures EffectOf(sd.ep, e, NotSend()) && (!(fr.SendFrame? && fr.to == y) ==> EffectOf(sd.ep, e, Quiet(y)))
    {
    }
  }

  lemma FrameAdds(sd: Side, fr: Frame, kind: Kind)
    requires Running(sd.node, sd.ep) && Alive(ReadFrame(sd, fr).node, sd.ep)
    requires forall e :: e in Dispatch(Awake(sd), fr).1.effects ==> EffectOf(sd.ep, e, kind)
    requires forall r :: kind(ExitEnv(sd.ep, r))
    ensures Adds(Awake(sd).node, ReadFrame(sd, fr).node, sd.ep, kind)
  {
    EnterRunning(sd.node, sd.ep);
    Survives(sd, fr);
    InvokeAdds(Awake(sd).node, sd.ep, Dispatch(Awake(sd), fr).1, kind);
  }

  ghost predicate TableGrew(sd: Side, sd': Side) {
    forall k :: if k in sd.table then k in sd'.table && sd'.table[k] == sd.table[k]
                else k in sd'.table ==> sd'.table[k] == sd.node.next
  }

  lemma DispatchTable(sd: Side, fr: Frame)
    ensures TableGrew(sd, Dispatch(sd, fr).0)
  {
  }

  lemma EntryKept(sd: Side, sd': Side, k: Id)
    requires Ids(sd.node) && EntryOk(sd, k) && EntryOk(sd', k) && sd.ep in sd.node.actors && TableGrew(sd, sd')
    ensures SameEntry(sd, sd', Awake(sd).node, k)
    ensures k !in sd.table && k in sd'.table ==> sd.node.next <= sd'.table[k]
  {
  }

  lemma FrameEntry(sd: Side, peer: Side, fr: Frame, k: Id)
    requires SideOk(sd, peer) && Alive(ReadFrame(sd, fr).node, sd.ep) && SideOk(ReadFrame(sd, fr), peer)
    ensures SameEntry(sd, ReadFrame(sd, fr), Awake(sd).node, k)
    ensures k !in sd.table && k in ReadFrame(sd, fr).table ==> sd.node.next <= ReadFrame(sd, fr).table[k]
  {
    EntryIsProxy(sd, peer, k);
    EntryIsProxy(ReadFrame(sd, fr), peer, k);
    Survives(sd, fr);
    DispatchTable(Awake(sd), fr);
    EntryKept(sd, ReadFrame(sd, fr), k);
  }

  /** What reading a frame leaves in place. */
  ghost predicate Read(sd: Side, sd': Side, nd1: Node, kind: Kind, k: Id) {
    && sd.ep in sd.node.actors && nd1 == Awake(sd).node
    && sd'.ep == sd.ep && sd'.out == sd.out
    && Adds(nd1, sd'.node, sd.ep, kind) && SameEntry(sd, sd', nd1, k)
    && (k !in sd.table && k in sd'.table ==> sd.node.next <= sd'.table[k])
  }

  lemma FrameSpares(sd: Side, fr: Frame)
    requires sd.ep in sd.node.actors && Alive(ReadFrame(sd, fr).node, sd.ep)
    ensures ReadFrame(sd, fr).ep == sd.ep && ReadFrame(sd, fr).out == sd.out
  {
    Survives(sd, fr);
  }

  lemma FrameRead(sd: Side, peer: Side, fr: Frame, sd': Side, kind: Kind, k: Id)
    requires SideOk(sd, peer) && Alive(sd.node, sd.ep) && sd' == ReadFrame(sd, fr)
    requires Alive(sd'.node, sd.ep) && SideOk(sd', peer)
    requires forall e :: e in Dispatch(Awake(sd), fr).1.effects ==> EffectOf(sd.ep, e, kind)
    requires forall r :: kind(ExitEnv(sd.ep, r))
    ensures Read(sd, sd', Awake(sd).node, kind, k)
  {
    assert SameEntry(sd, sd', Awake(sd).node, k) && (k !in sd.table && k in sd'.table ==> sd.node.next <= sd'.table[k]) by {
      FrameEntry(sd, peer, fr, k);
    }
    assert Adds(Awake(sd).node, sd'.node, sd.ep, kind) by { FrameAdds(sd, fr, kind); }
    assert sd'.ep == sd.ep && sd'.out == sd.out by { FrameSpares(sd, fr); }
  }

  lemma ReadSource(src: Side, src': Side, dst: Side, nd1: Node, x: Id, y: Id)
    requires Read(src, src', nd1, NotSend(), y) && Lane(src, dst, x, y)
    ensures Lane(src', dst, x, y)
  {
    SourceQuiet(src, src', dst, nd1, src.ep, NotSend(), x, y);
  }

  /** The sender's own endpoint reads a frame. */
  lemma ArrivalSource(src: Side, dst: Side, fr: Frame, x: Id, y: Id)
    requires SideOk(src, dst) && Alive(src.node, src.ep) && Alive(ReadFrame(src, fr).node, src.ep)
    requires SideOk(ReadFrame(src, fr), dst) && Lane(src, dst, x, y)
    ensures Lane(ReadFrame(src, fr), dst, x, y)
  {
    DispatchEffects(Awake(src), fr, y);
    FrameRead(src, dst, fr, ReadFrame(src, fr), NotSend(), y);
    ReadSource(src, ReadFrame(src, fr), dst, Awake(src).node, x, y);
  }

  lemma ReadTarget(src: Side, dst: Side, dst': Side, nd1: Node, x: Id, y: Id)
    requires Read(dst, dst', nd1, Quiet(y), x) && Lane(src, dst, x, y) && Core(dst.node) && y in dst.node.actors
    ensures Lane(src, dst', x, y)
  {
    TargetQuiet(src, dst, dst', nd1, dst.ep, Quiet(y), x, y) by {
      assert Known(dst.node.next, dst.node.actors[y]);
    }
  }

  lemma QuietRead(sd: Side, peer: Side, fr: Frame, x: Id, y: Id)
    requires SideOk(sd, peer) && Alive(sd.node, sd.ep) && Alive(ReadFrame(sd, fr).node, sd.ep) && SideOk(ReadFrame(sd, fr), peer)
    requires !(fr.SendFrame? && fr.to == y)
    ensures Read(sd, ReadFrame(sd, fr), Awake(sd).node, Quiet(y), x)
  {
    DispatchEffects(Awake(sd), fr, y);
    FrameRead(sd, peer, fr, ReadFrame(sd, fr), Quiet(y), x);
  }

  /** The receiver's endpoint reads a frame that is not a message for y. */
  lemma ArrivalElsewhere(src: Side, dst: Side, fr: Frame, x: Id, y: Id)
    requires SideOk(dst, src) && Alive(dst.node, dst.ep) && Alive(ReadFrame(dst, fr).node, dst.ep)
    requires SideOk(ReadFrame(dst, fr), src) && Lane(src, dst, x, y) && y in dst.node.actors
    requires !(fr.SendFrame? && fr.to == y)
    ensures Lane(src, ReadFrame(dst, fr), x, y)
  {
    QuietRead(dst, src, fr, x, y);
    ReadTarget(src, dst, ReadFrame(dst, fr), Awake(dst).node, x, y);
  }

  // ---------------------------------------------------------------- messages

  /** The side once the proxy for f exists. */
  function Ready(sd: Side, f: Id): Side {
    if f in sd.table then sd else WithProxy(sd, f)
  }

  /** A message that an endpoint passes to a proxy and survives. */
  lemma ProxyReached(sd: Side, peer: Side, f: Id, m: Msg)
    requires SideOk(sd, peer) && Running(sd.node, sd.ep) && sd.node.actors[sd.ep].receiver && !m.Exit?
    requires Alive(Invoke(sd.node, sd.ep, ToProxy(sd, f, m).1), sd.ep)
    ensures var sd2 := Ready(sd, f);
            && Alive(sd2.node, sd2.table[f])
            && ToProxy(sd, f, m).0.(node := Invoke(sd.node, sd.ep, ToProxy(sd, f, m).1))
               == sd2.(node := Queue(sd2.node, sd2.table[f], Env(sd.ep, m, Direct)))
  {
    if f in sd.table {
      MustReach(sd.node, sd.ep, sd.table[f], m);
    } else {
      SpawnKeeps(sd.node, NOBODY);
      assert sd.ep != sd.node.next;
      SpawnFirst(sd.node, sd.ep, SendTo(sd.node.next, m, Direct, true));
      MustReach(SpawnOne(sd.node, NOBODY), sd.ep, sd.node.next, m);
    }
  }

  /** A frame that is passed to a proxy, if the endpoint survives it, ends up in the mailbox of the
      proxy for its sender. */
  lemma PassedOn(sd: Side, peer: Side, fr: Frame, f: Id, m: Msg)
    requires SideOk(sd, peer) && Alive(sd.node, sd.ep) && Alive(ReadFrame(sd, fr).node, sd.ep)
    requires Dispatch(Awake(sd), fr) == ToProxy(Awake(sd), f, m) && !m.Exit?
    ensures var sd2 := Ready(Awake(sd), f);
            && Alive(sd2.node, sd2.table[f])
            && ReadFrame(sd, fr) == sd2.(node := Queue(sd2.node, sd2.table[f], Env(sd.ep, m, Direct)))
  {
    Survives(sd, fr);
    EnterKeeps(sd, peer);
    ProxyReached(Awake(sd), peer, f, m);
  }

  lemma MustReach(nd: Node, a: Id, to: Id, m: Msg)
    requires Running(nd, a) && nd.actors[a].receiver && !m.Exit?
    requires Alive(Invoke(nd, a, Callback([SendTo(to, m, Direct, true)], Ok)), a)
    ensures Alive(nd, to) && Invoke(nd, a, Callback([SendTo(to, m, Direct, true)], Ok)) == Queue(nd, to, Env(a, m, Direct))
  {
    if Alive(nd, to) {
      OneSend(nd, a, to, m, Direct, true);
    } else {
      OneFailure(nd, a, to, m, Direct);
      assert false;
    }
  }

  lemma ReadyBoxes(sd: Side, f: Id, k: Id)
    requires Ids(sd.node) && EntryOk(sd, k)
    ensures Box(Ready(sd, f), k) == Box(sd, k) + if k == f && f !in sd.table then Fresh(NOBODY).mailbox else []
  {
  }

  lemma QueuedBoxes(sd: Side, f: Id, m: Env, k: Id)
    requires f in sd.table && EntryOk(sd, f) && EntryOk(sd, k) && Alive(sd.node, sd.table[f])
    ensures Box(sd.(node := Queue(sd.node, sd.table[f], m)), k) == Box(sd, k) + if k == f then [m] else []
  {
  }

  lemma ReadyDelivered(sd: Side, f: Id, x: Id, y: Id)
    requires Core(sd.node) && EntryOk(sd, x) && y in sd.node.actors
    ensures Delivered(Ready(sd, f), x, y) == Delivered(sd, x, y)
  {
    if f !in sd.table && x == f {
      assert Known(sd.node.next, sd.node.actors[y]);
      PickNone(sd.node.actors[y].accepted, Relayed(sd.node.next));
    }
  }

  lemma QueuedDelivered(sd: Side, to: Id, m: Env, x: Id, y: Id)
    requires m.via.Direct? && y in sd.node.actors
    ensures Delivered(sd.(node := Queue(sd.node, to, m)), x, y) == Delivered(sd, x, y)
  {
    if x in sd.table {
      PickOne(sd.node.actors[y].accepted, m, Relayed(sd.table[x]));
    }
  }

  lemma MessageArrives(sd: Side, peer: Side, f: Id, t: Id, pl: Payload, sd': Side, x: Id, y: Id)
    requires SideOk(sd, peer) && Alive(sd.node, sd.ep) && sd' == ReadFrame(sd, SendFrame(f, t, pl)) && Alive(sd'.node, sd.ep)
    requires SideOk(sd', peer) && y in sd.node.actors
    ensures var pre := if f == x && f !in sd.table then Fresh(NOBODY).mailbox else [];
            Box(sd', x) == Box(sd, x) + pre + if f == x then [Env(sd.ep, DeliverPid(t, pl), Direct)] else []
    ensures Delivered(sd', x, y) == Delivered(sd, x, y)
  {
    var m, sd1 := Env(sd.ep, DeliverPid(t, pl), Direct), Awake(sd);
    var sd2 := Ready(sd1, f);
    PassedOn(sd, peer, SendFrame(f, t, pl), f, DeliverPid(t, pl));
    EntryIsProxy(sd, peer, x);
    AwakeSame(sd, x);
    assert EntryOk(sd2, x) && EntryOk(sd2, f) by {
      EntryIsProxy(sd', peer, x);
      EntryIsProxy(sd', peer, f);
    }
    assert Core(sd1.node) by { EnterRunning(sd.node, sd.ep); }
    MessageBoxes(sd1, sd2, f, m, x, y);
  }

  lemma MessageBoxes(sd1: Side, sd2: Side, f: Id, m: Env, x: Id, y: Id)
    requires Core(sd1.node) && sd2 == Ready(sd1, f) && EntryOk(sd1, x) && EntryOk(sd2, x) && EntryOk(sd2, f)
    requires Alive(sd2.node, sd2.table[f]) && m.via.Direct? && y in sd1.node.actors
    ensures var sd' := sd2.(node := Queue(sd2.node, sd2.table[f], m));
            && Box(sd', x) == Box(sd1, x) + (if x == f && f !in sd1.table then Fresh(NOBODY).mailbox else []) + (if x == f then [m] else [])
            && Delivered(sd', x, y) == Delivered(sd1, x, y)
  {
    ReadyBoxes(sd1, f, x);
    QueuedBoxes(sd2, f, m, x);
    ReadyDelivered(sd1, f, x, y);
    QueuedDelivered(sd2, sd2.table[f], m, x, y);
  }

  /** The receiver's endpoint reads a message for y, from x or from another actor. */
  lemma ArrivalMessage(src: Side, src': Side, dst: Side, f: Id, pl: Payload, dst': Side, x: Id, y: Id)
    requires SideOk(dst, src) && Alive(dst.node, dst.ep) && dst' == ReadFrame(dst, SendFrame(f, y, pl)) && Alive(dst'.node, dst.ep)
    requires SideOk(dst', src) && y in dst.node.actors && Lane(src, dst, x, y)
    requires src.out != [] && src.out[0] == SendFrame(f, y, pl) && src' == src.(out := src.out[1..])
    ensures Lane(src', dst', x, y)
  {
    MessageArrives(dst, src, f, y, pl, dst', x, y);
    MessageLane(src, src', dst, f, pl, dst', x, y);
  }

  lemma MessageLane(src: Side, src': Side, dst: Side, f: Id, pl: Payload, dst': Side, x: Id, y: Id)
    requires Lane(src, dst, x, y) && Delivered(dst', x, y) == Delivered(dst, x, y)
    requires src.out != [] && src.out[0] == SendFrame(f, y, pl) && src' == src.(out := src.out[1..])
    requires var pre := if f == x && f !in dst.table then Fresh(NOBODY).mailbox else [];
             Box(dst', x) == Box(dst, x) + pre + if f == x then [Env(dst.ep, DeliverPid(y, pl), Direct)] else []
    ensures Lane(src', dst', x, y)
  {
    if f == x {
      var pre := if f !in dst.table then Fresh(NOBODY).mailbox else [];
      PickNone(pre, ForPid(y));
      WireLane(src, src', dst, dst', pre, Env(dst.ep, DeliverPid(y, pl), Direct), pl, x, y);
    } else {
      assert Box(dst', x) == Box(dst, x);
      OtherFrame(src, src', dst', x, y);
    }
  }

  /** A frame read from the sender's wire. */
  lemma ArrivalTarget(src: Side, src': Side, dst: Side, dst': Side, x: Id, y: Id)
    requires SideOk(dst, src) && Alive(dst.node, dst.ep) && src.out != [] && src' == src.(out := src.out[1..])
    requires dst' == ReadFrame(dst, src.out[0]) && Alive(dst'.node, dst.ep) && SideOk(dst', src)
    requires y in dst.node.actors && Lane(src, dst, x, y)
    ensures Lane(src', dst', x, y)
  {
    var fr := src.out[0];
    if fr.SendFrame? && fr.to == y {
      ArrivalMessage(src, src', dst, fr.from, fr.payload, dst', x, y);
    } else {
      ArrivalElsewhere(src, dst, fr, x, y);
      OtherFrame(src, src', dst', x, y);
    }
  }
}
