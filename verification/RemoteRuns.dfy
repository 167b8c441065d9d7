/**
 Remote transparency over all runs.
 */
module RemoteRuns {
  import opened Actors
  import opened Lifecycle
  import opened Mail
  import opened Remote
  import opened RemoteInv
  import opened RemoteSteps
  import opened RemoteEndpoint
  import opened RemoteMoves
  import opened RemoteLanes
  import opened RemoteTransparency
  import opened RemoteArrivals
  import opened RemoteIds

  // ---------------------------------------------------------------- open lanes were open before

  predicate SameProxies(sd: Side, sd': Side) {
    forall p :: p in sd.remoteOf ==> p in sd'.remoteOf && sd'.remoteOf[p] == sd.remoteOf[p]
  }

  lemma UpBefore(sd: Side, sd': Side, peer: Side, peer': Side, k: Id)
    requires SideOk(sd, peer) && SideOk(sd', peer') && SameProxies(sd, sd') && Later(sd.node, sd'.node)
    requires !Exited(peer'.node, k) && ProxyUp(sd', k)
    ensures ProxyUp(sd, k)
  {
    if k in sd.table {
      assert ProxyOk(sd, peer, sd.table[k]);
      assert ProxyOk(sd', peer', sd.table[k]);
    }
  }

  lemma NotExitedBefore(nd: Node, nd': Node, a: Id)
    requires Later(nd, nd') && Core(nd')
    ensures !Exited(nd', a) ==> !Exited(nd, a)
    ensures Alive(nd', a) ==> !Exited(nd', a)
    ensures Alive(nd', a) && a in nd.actors ==> Alive(nd, a)
  {
    if a in nd'.actors {
      assert Sound(nd'.actors[a]);
    }
  }

  lemma OpenBefore(src: Side, src': Side, dst: Side, dst': Side, x: Id, y: Id)
    requires SideOk(src, dst) && SideOk(dst, src) && SideOk(src', dst') && SideOk(dst', src')
    requires SameProxies(src, src') && SameProxies(dst, dst') && src'.ep == src.ep && dst'.ep == dst.ep
    requires Later(src.node, src'.node) && Later(dst.node, dst'.node)
    requires Open(src', dst', x, y) && y in dst.node.actors
    ensures Open(src, dst, x, y)
  {
    NotExitedBefore(src.node, src'.node, x);
    NotExitedBefore(dst.node, dst'.node, y);
    NotExitedBefore(src.node, src'.node, src.ep);
    NotExitedBefore(dst.node, dst'.node, dst.ep);
    UpBefore(src, src', dst, dst', y);
    UpBefore(dst, dst', src, src', x);
  }

  // ---------------------------------------------------------------- events on the sender's side

  lemma FailedIsDown(sd: Side, t: Text, tell: bool)
    requires Running(sd.node, sd.ep)
    ensures !Alive(FailEndpoint(sd, t, tell).node, sd.ep)
  {
    ExitModes(sd.node, sd.ep, Short(t));
  }

  lemma ReapSame(sd: Side, a: Id, x: Id, y: Id)
    requires a in sd.node.actors
    ensures var sd' := sd.(node := Put(sd.node, a, sd.node.actors[a].(status := Gone)));
            && Sent(sd', x, y) == Sent(sd, x, y) && Outbound(sd', x, y) == Outbound(sd, x, y)
            && Inbound(sd', x, y) == Inbound(sd, x, y)
  {
    var sd' := sd.(node := Put(sd.node, a, sd.node.actors[a].(status := Gone)));
    assert Box(sd', y) == Box(sd, y) && Log(sd', y) == Log(sd, y) && EndpointBox(sd') == EndpointBox(sd);
    assert Box(sd', x) == Box(sd, x) && Delivered(sd', x, y) == Delivered(sd, x, y);
  }

  lemma SourceEvent(src: Side, dst: Side, ev: NetEvent, src': Side, x: Id, y: Id)
    requires SideOk(src, dst) && EnabledOn(src, dst, ev) && src' == Local(src, dst, ev) && SideOk(src', dst)
    requires Open(src, dst, x, y) && Alive(src'.node, src.ep) && Lane(src, dst, x, y) && !Exited(dst.node, y)
    ensures Lane(src', dst, x, y)
  {
    match ev {
      case Register(_, _, _) =>
      case ProxyRun(_, p) => ProxySource(src, dst, p, x, y);
      case EndpointRun(_) => EndpointSource(src, dst, x, y);
      case WireIn(_) => ArrivalSource(src, dst, dst.out[0], x, y);
      case EndpointFail(_, t, tell) => FailedIsDown(src, t, tell); assert false;
      case Reap(_, a) => ReapSame(src, a, x, y);
      case _ =>
        EntryIsProxy(src, dst, y);
        var nd1, a := OutsideEvent(src, dst, ev);
        UserMoves(src, dst, nd1, src'.node, a, x, y);
    }
  }

  lemma TargetEvent(src: Side, dst: Side, ev: NetEvent, dst': Side, x: Id, y: Id)
    requires SideOk(dst, src) && EnabledOn(dst, src, ev) && dst' == Local(dst, src, ev) && SideOk(dst', src) && !ev.WireIn?
    requires Open(src, dst, x, y) && Alive(dst'.node, dst.ep) && ProxyUp(dst', x) && Lane(src, dst, x, y)
    ensures Lane(src, dst', x, y)
  {
    match ev {
      case Register(_, _, _) =>
      case ProxyRun(_, p) => ProxyTarget(src, dst, p, x, y);
      case EndpointRun(_) => EndpointTarget(src, dst, x, y);
      case EndpointFail(_, t, tell) => FailedIsDown(dst, t, tell); assert false;
      case Reap(_, a) => ReapSame(dst, a, x, y);
      case _ =>
        EntryIsProxy(dst, src, x);
        var nd1, a := OutsideEvent(dst, src, ev);
        UserMovesTarget(src, dst, nd1, dst'.node, a, x, y);
    }
  }

  // ---------------------------------------------------------------- actors that are born

  predicate Spawns(e: Effect) {
    e.Spawn? || e.SpawnLink?
  }

  lemma {:induction false} NotifyAllNext(nd: Node, hs: seq<Id>, env: Env)
    ensures NotifyAll(nd, hs, env).next == nd.next
    decreases |hs|
  {
    if hs != [] {
      NotifyAllNext(Queue(nd, hs[0], env), hs[1..], env);
    }
  }

  lemma HandleExitNext(nd: Node, a: Id, r: Reason)
    ensures HandleExit(nd, a, r).next == nd.next
  {
    if a in nd.actors {
      NotifyAllNext(MarkExit(nd, a, r), nd.actors[a].links, ExitEnv(a, r));
    }
  }

  lemma {:induction false} EffectsNext(nd: Node, a: Id, es: seq<Effect>)
    requires a in nd.actors && forall e :: e in es ==> !Spawns(e)
    ensures ApplyEffects(nd, a, es).0.next == nd.next
    decreases |es|
  {
    if es != [] {
      var (nd1, failed) := ApplyEffect(nd, a, es[0]);
      assert !Spawns(es[0]);
      if !failed {
        EffectsNext(nd1, a, es[1..]);
      }
    }
  }

  /** Callbacks without a spawn make no instance. */
  lemma RunNext(nd: Node, a: Id, cb: Callback)
    requires CanRun(nd, a) && forall e :: e in cb.effects ==> !Spawns(e)
    ensures Run(nd, a, cb).next == nd.next
  {
    var nd1 := Take(nd, a);
    EffectsNext(nd1, a, cb.effects);
    var nd2 := ApplyEffects(nd1, a, cb.effects).0;
    if cb.result.Err? {
      HandleExitNext(nd2, a, cb.result.reason);
    }
    HandleExitNext(nd2, a, DEAD_SEND);
    HandleExitNext(nd2, a, Short(NoReceive));
    var m := nd.actors[a].mailbox[0].msg;
    if m.Exit? {
      HandleExitNext(nd1, a, m.reason);
    }
  }

  lemma ProxyNext(sd: Side, p: Id)
    requires p in sd.remoteOf && CanRun(sd.node, p)
    ensures AfterProxy(sd, p).next == sd.node.next
  {
    var cb := ProxyCallback(sd, p, HeadOf(sd, p));
    assert forall e :: e in cb.effects ==> !Spawns(e);
    RunNext(sd.node, p, cb);
  }

  /** Only these events make instances. */
  lemma BirthEvents(sd: Side, peer: Side, ev: NetEvent)
    requires EnabledOn(sd, peer, ev) && sd.ep in sd.node.actors && sd.node.next < Local(sd, peer, ev).node.next
    ensures ev.UserRun? || ev.UserSpawn? || ev.WireIn?
  {
    match ev {
      case ProxyRun(_, p) => ProxyNext(sd, p);
      case EndpointRun(_) => RunNext(sd.node, sd.ep, EndpointCallback(HeadOf(sd, sd.ep).msg));
      case EndpointFail(_, t, tell) => HandleExitNext(sd.node, sd.ep, Short(t));
      case _ =>
    }
  }

  /** Nothing is on its way to an actor that does not exist yet. */
  lemma NothingYet(src: Side, dst: Side, x: Id, y: Id)
    requires TableOk(src) && src.ep in src.node.actors && IdsOk(src, dst.node.next) && dst.node.next <= y
    ensures y !in src.table && Sent(src, x, y) == [] && Outbound(src, x, y) == []
  {
    forall e | e in EndpointBox(src) ensures ToWire(x, y)(e) == [] {
      assert Named(e.msg, src.node.next, dst.node.next);
    }
    PickNone(EndpointBox(src), ToWire(x, y));
    forall fr | fr in src.out ensures InFrame(x, y)(fr) == [] {
      assert FrameNamed(fr, src.node.next, dst.node.next);
    }
    PickNone(src.out, InFrame(x, y));
  }

  lemma NothingForIt(dst: Side, there: Id, x: Id, y: Id)
    requires IdsOk(dst, there) && dst.node.next <= y
    ensures forall e :: e in Box(dst, x) ==> ForPid(y)(e) == []
  {
    forall e | e in Box(dst, x) ensures ForPid(y)(e) == [] {
      assert Named(e.msg, dst.node.next, there);
    }
  }

  lemma BornLane(dst: Side, dst': Side, nd1: Node, a: Id, kind: Kind, x: Id, y: Id)
    requires Adds(nd1, dst'.node, a, kind) && SameEntry(dst, dst', nd1, x) && y !in nd1.actors && y in dst'.node.actors
    requires forall e :: kind(e) ==> Quiet(y)(e)
    requires forall e :: e in Box(dst, x) ==> ForPid(y)(e) == []
    ensures Inbound(dst', x, y) == []
  {
    ProxyGrows(dst, dst', nd1, a, kind, x);
    PickNone(Box(dst', x), ForPid(y));
    if x in dst'.table {
      PickNone(dst'.node.actors[y].accepted, Relayed(dst'.table[x]));
    }
  }

  lemma BornByUser(dst: Side, src: Side, ev: NetEvent, dst': Side, x: Id, y: Id)
    requires SideOk(dst, src) && EnabledOn(dst, src, ev) && (ev.UserRun? || ev.UserSpawn?) && dst' == Local(dst, src, ev)
    requires IdsOk(dst, src.node.next) && dst.node.next <= y && y in dst'.node.actors
    ensures Inbound(dst', x, y) == []
  {
    NothingForIt(dst, src.node.next, x, y);
    EntryIsProxy(dst, src, x);
    var nd1, a := OutsideEvent(dst, src, ev);
    UserBorn(dst, nd1, dst'.node, a, x, y);
  }

  lemma UserBorn(dst: Side, nd1: Node, nd': Node, a: Id, x: Id, y: Id)
    requires EntryOk(dst, x) && Ids(dst.node) && dst.node.next <= y && y in nd'.actors
    requires Between(dst.node, nd1, a) && Adds(nd1, nd', a, UserKind(a, nd')) && a != dst.ep && a !in dst.remoteOf
    requires forall e :: e in Box(dst, x) ==> ForPid(y)(e) == []
    ensures Inbound(dst.(node := nd'), x, y) == []
  {
    assert SameEntry(dst, dst.(node := nd'), nd1, x);
    BornLane(dst, dst.(node := nd'), nd1, a, UserKind(a, nd'), x, y);
  }

  lemma BornByFrame(dst: Side, src: Side, fr: Frame, dst': Side, x: Id, y: Id)
    requires SideOk(dst, src) && Alive(dst.node, dst.ep) && dst' == ReadFrame(dst, fr) && Alive(dst'.node, dst.ep) && SideOk(dst', src)
    requires IdsOk(dst, src.node.next) && FrameNamed(fr, src.node.next, dst.node.next) && dst.node.next <= y && y in dst'.node.actors
    ensures Inbound(dst', x, y) == []
  {
    QuietRead(dst, src, fr, x, y);
    BornRead(dst, dst', Awake(dst).node, src.node.next, x, y);
  }

  lemma BornRead(dst: Side, dst': Side, nd1: Node, there: Id, x: Id, y: Id)
    requires Read(dst, dst', nd1, Quiet(y), x) && Ids(dst.node) && IdsOk(dst, there) && dst.node.next <= y && y in dst'.node.actors
    ensures Inbound(dst', x, y) == []
  {
    NothingForIt(dst, there, x, y);
    BornLane(dst, dst', nd1, dst.ep, Quiet(y), x, y);
  }

  /** A newborn actor's lanes are empty. */
  lemma Born(src: Side, dst: Side, ev: NetEvent, dst': Side, x: Id, y: Id)
    requires SideOk(dst, src) && SideOk(dst', src) && EnabledOn(dst, src, ev) && dst' == Local(dst, src, ev) && Alive(dst'.node, dst.ep)
    requires IdsOk(dst, src.node.next) && IdsOk(src, dst.node.next) && dst.node.next <= y && y in dst'.node.actors
    ensures Inbound(dst', x, y) == []
  {
    assert dst.node.next < dst'.node.next by { assert Ids(dst'.node); }
    BirthEvents(dst, src, ev);
    if ev.WireIn? {
      assert FrameNamed(src.out[0], src.node.next, dst.node.next);
      BornByFrame(dst, src, src.out[0], dst', x, y);
    } else {
      BornByUser(dst, src, ev, dst', x, y);
    }
  }

  // ---------------------------------------------------------------- every event, every run

  /** The step of one side, and of its peer, which may lose the first frame of its wire. */
  predicate Moves(sd: Side, sd': Side, peer: Side, peer': Side, ev: NetEvent) {
    && EnabledOn(sd, peer, ev) && sd.ep in sd.node.actors
    && sd' == Local(sd, peer, ev)
    && peer' == if ev.WireIn? then peer.(out := peer.out[1..]) else peer
  }

  lemma StepMoves(w: World, ev: NetEvent)
    requires RInv(w) && Enabled(w, ev)
    ensures Moves(Get(w, ev.s), Get(NetStep(w, ev), ev.s), Get(w, !ev.s), Get(NetStep(w, ev), !ev.s), ev)
  {
  }

  lemma PoppedTarget(src: Side, dst: Side, dst': Side, x: Id, y: Id)
    requires Lane(src, dst, x, y) && dst'.node == dst.node && dst'.table == dst.table && dst'.ep == dst.ep
    ensures Lane(src, dst', x, y)
  {
  }

  lemma SourceMoves(src: Side, src': Side, dst: Side, dst': Side, ev: NetEvent, x: Id, y: Id)
    requires Moves(src, src', dst, dst', ev) && SideOk(src, dst) && SideOk(src', dst)
    requires Open(src, dst, x, y) && Alive(src'.node, src.ep) && Lane(src, dst, x, y) && !Exited(dst.node, y)
    ensures Lane(src', dst', x, y)
  {
    SourceEvent(src, dst, ev, src', x, y);
    PoppedTarget(src', dst, dst', x, y);
  }

  lemma TargetMoves(src: Side, src': Side, dst: Side, dst': Side, ev: NetEvent, x: Id, y: Id)
    requires Moves(dst, dst', src, src', ev) && SideOk(dst, src) && SideOk(dst', src)
    requires Open(src, dst, x, y) && Alive(dst'.node, dst.ep) && ProxyUp(dst', x) && Lane(src, dst, x, y)
    ensures Lane(src', dst', x, y)
  {
    if ev.WireIn? {
      ArrivalTarget(src, src', dst, dst', x, y);
    } else {
      TargetEvent(src, dst, ev, dst', x, y);
    }
  }

  lemma BirthMoves(src: Side, src': Side, dst: Side, dst': Side, ev: NetEvent, x: Id, y: Id)
    requires Moves(dst, dst', src, src', ev) && SideOk(src, dst) && SideOk(dst, src) && SideOk(dst', src)
    requires IdsOk(dst, src.node.next) && IdsOk(src, dst.node.next)
    requires Alive(dst'.node, dst.ep) && y !in dst.node.actors && y in dst'.node.actors
    ensures Lane(src', dst', x, y)
  {
    assert dst.node.next <= y by { assert Ids(dst.node) && Ids(dst'.node); }
    Born(src, dst, ev, dst', x, y);
    if ev.WireIn? {
      PoppedIds(src, dst.node.next);
    }
    NothingYet(src', dst, x, y);
  }

  lemma PoppedIds(sd: Side, there: Id)
    requires IdsOk(sd, there) && sd.out != []
    ensures IdsOk(sd.(out := sd.out[1..]), there)
  {
    forall fr | fr in sd.out[1..] ensures FrameNamed(fr, sd.node.next, there) {
      assert fr in sd.out;
    }
  }

  lemma MovesOk(sd: Side, sd': Side, peer: Side, peer': Side, ev: NetEvent)
    requires Moves(sd, sd', peer, peer', ev) && SideOk(sd, peer) && SideOk(peer, sd)
    ensures SideOk(sd', peer) && SideOk(sd', peer') && SideOk(peer', sd')
    ensures Later(sd.node, sd'.node) && Later(peer.node, peer'.node)
    ensures SameProxies(sd, sd') && SameProxies(peer, peer') && sd'.ep == sd.ep && peer'.ep == peer.ep
  {
    SidesKeep(sd, sd', peer, peer', ev);
    LocalExtends(sd, peer, ev);
  }

  /** A lane that is open after an event holds after it, if it held before whenever it was open. */
  lemma SourceStep(src: Side, src': Side, dst: Side, dst': Side, ev: NetEvent, x: Id, y: Id)
    requires Moves(src, src', dst, dst', ev) && SideOk(src, dst) && SideOk(dst, src)
    requires Open(src', dst', x, y) && (Open(src, dst, x, y) ==> Lane(src, dst, x, y))
    ensures Lane(src', dst', x, y)
  {
    MovesOk(src, src', dst, dst', ev);
    OpenBefore(src, src', dst, dst', x, y);
    NotExitedBefore(dst.node, dst.node, y);
    SourceMoves(src, src', dst, dst', ev, x, y);
  }

  lemma TargetStep(src: Side, src': Side, dst: Side, dst': Side, ev: NetEvent, x: Id, y: Id)
    requires Moves(dst, dst', src, src', ev) && SideOk(src, dst) && SideOk(dst, src)
    requires IdsOk(dst, src.node.next) && IdsOk(src, dst.node.next)
    requires Open(src', dst', x, y) && (Open(src, dst, x, y) ==> Lane(src, dst, x, y))
    ensures Lane(src', dst', x, y)
  {
    MovesOk(dst, dst', src, src', ev);
    if y in dst.node.actors {
      OpenBefore(src, src', dst, dst', x, y);
      TargetMoves(src, src', dst, dst', ev, x, y);
    } else {
      BirthMoves(src, src', dst, dst', ev, x, y);
    }
  }

  predicate LaneIfOpen(w: World, s: bool, x: Id, y: Id) {
    Open(Get(w, s), Get(w, !s), x, y) ==> Lane(Get(w, s), Get(w, !s), x, y)
  }

  lemma LaneStep(w: World, ev: NetEvent, s: bool, x: Id, y: Id)
    requires RInv(w) && AllNamed(w) && LaneIfOpen(w, s, x, y)
    ensures LaneIfOpen(NetStep(w, ev), s, x, y)
  {
    var w' := NetStep(w, ev);
    if Enabled(w, ev) && Open(Get(w', s), Get(w', !s), x, y) {
      StepMoves(w, ev);
      if ev.s == s {
        SourceStep(Get(w, s), Get(w', s), Get(w, !s), Get(w', !s), ev, x, y);
      } else {
        TargetStep(Get(w, s), Get(w', s), Get(w, !s), Get(w', !s), ev, x, y);
      }
    }
  }

  lemma {:induction false} LaneRun(w: World, evs: seq<NetEvent>, s: bool, x: Id, y: Id)
    requires RInv(w) && AllNamed(w) && LaneIfOpen(w, s, x, y)
    ensures LaneIfOpen(NetRun(w, evs), s, x, y)
    decreases |evs|
  {
    if evs != [] {
      NetStepKeeps(w, evs[0]);
      NetStepNamed(w, evs[0]);
      LaneStep(w, evs[0], s, x, y);
      LaneRun(NetStep(w, evs[0]), evs[1..], s, x, y);
    }
  }

  /** The proxy for an actor that has not exited is unique. */
  lemma UniqueProxy(sd: Side, peer: Side, p: Id, q: Id)
    requires SideOk(sd, peer) && p in sd.remoteOf && q in sd.remoteOf && sd.remoteOf[p] == sd.remoteOf[q]
    requires !Exited(peer.node, sd.remoteOf[p])
    ensures p == q && sd.remoteOf[p] in sd.table && sd.table[sd.remoteOf[p]] == p
  {
    assert ProxyOk(sd, peer, p) && ProxyOk(sd, peer, q);
  }

  /** The proxy for k was ended by a send of its own that failed. */
  predicate Broken(sd: Side, k: Id) {
    k in sd.table && ExitedWith(sd.node, sd.table[k], DEAD_SEND)
  }

  lemma DownIsBroken(sd: Side, peer: Side, k: Id)
    requires SideOk(sd, peer) && Alive(sd.node, sd.ep) && !Exited(peer.node, k)
    ensures ProxyUp(sd, k) <==> !Broken(sd, k)
  {
    if k in sd.table {
      var p := sd.table[k];
      assert ProxyOk(sd, peer, p);
      assert Sound(sd.node.actors[p]);
    }
  }

  lemma NothingAtFirst(s: bool, x: Id, y: Id)
    ensures AllNamed(INIT) && LaneIfOpen(INIT, s, x, y)
  {
    assert Lane(InitSide(), InitSide(), x, y);
  }

  predicate Connected(w: World, s: bool, x: Id, y: Id) {
    && !Exited(Get(w, s).node, x) && Alive(Get(w, !s).node, y)
    && Alive(w.near.node, w.near.ep) && Alive(w.far.node, w.far.ep)
  }

  /** Remote transparency.  In every run, while x has not exited and y and the endpoints are alive:
      what x has sent to its proxy for y is what y has been sent by the one proxy for x, followed
      by what is in flight, in order; unless one of the two proxies was ended by a send of its own
      to an actor that was dying. */
  lemma Transparent(evs: seq<NetEvent>, s: bool, x: Id, y: Id)
    ensures var w := NetRun(INIT, evs);
            Connected(w, s, x, y) ==>
              || Lane(Get(w, s), Get(w, !s), x, y)
              || Broken(Get(w, s), y)
              || Broken(Get(w, !s), x)
  {
    InitOk();
    NothingAtFirst(s, x, y);
    LaneRun(INIT, evs, s, x, y);
    NetRunKeeps(INIT, evs);
    var w := NetRun(INIT, evs);
    if Connected(w, s, x, y) {
      NotExitedBefore(Get(w, !s).node, Get(w, !s).node, y) by { LaterReflexive(Get(w, !s).node); }
      DownIsBroken(Get(w, s), Get(w, !s), y);
      DownIsBroken(Get(w, !s), Get(w, s), x);
    }
  }

  lemma LaterReflexive(nd: Node)
    ensures Later(nd, nd)
  {
  }
}
