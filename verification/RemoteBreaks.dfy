/**
 When a proxy fails, exactly; and the two main results without exceptions, for the runs in which
 no proxy does.
 */
module RemoteBreaks {
  import opened Actors
  import opened Lifecycle
  import opened Remote
  import opened RemoteInv
  import opened RemoteSteps
  import opened RemoteEndpoint
  import opened RemoteMoves
  import opened RemoteArrivals
  import opened RemoteRuns
  import Exits = RemoteExit
  import L = RemoteLanes
  import Links = RemoteLinks

  /** A delivery that the proxy cannot make: its target is in shutdown, or the name is unknown or
      stands for a dead actor.  An exit message can be sent to the dead. */
  predicate Undeliverable(sd: Side, env: Env) {
    match env.msg
    case DeliverPid(t, pl) => Exists(sd.node, t) && !Alive(sd.node, t) && !AsMsg(pl).Exit?
    case DeliverNamed(n, pl) => !Alive(sd.node, NameOf(sd, n)) && !AsMsg(pl).Exit?
    case SetNotify(t) => Exists(sd.node, t) && !Alive(sd.node, t)
    case _ => false
  }

  predicate EffectFails(nd: Node, e: Effect) {
    match e
    case SendTo(to, msg, _, must) => must && SendFails(nd, to, msg)
    case LinkTo(to, must) => must && SendFails(nd, to, Link)
    case _ => false
  }

  lemma OneEffectFails(nd: Node, a: Id, e: Effect)
    requires a in nd.actors && Sends(e)
    ensures ApplyEffects(nd, a, [e]).1 == EffectFails(nd, e)
  {
    var nd1 := ApplyEffect(nd, a, e).0;
    assert [e][1..] == [];
    assert ApplyEffects(nd1, a, []) == (nd1, false);
  }

  lemma InvokeBreaksIff(nd: Node, a: Id, cb: Callback)
    requires Running(nd, a) && nd.actors[a].receiver && |cb.effects| <= 1 && forall e :: e in cb.effects ==> Sends(e)
    requires cb.result.Err? ==> cb.result.reason != DEAD_SEND
    ensures ExitedWith(Invoke(nd, a, cb), a, DEAD_SEND) <==> cb.effects != [] && EffectFails(nd, cb.effects[0])
  {
    var (nd1, failed) := ApplyEffects(nd, a, cb.effects);
    if cb.effects != [] {
      assert Sends(cb.effects[0]) && cb.effects == [cb.effects[0]];
      OneEffectFails(nd, a, cb.effects[0]);
    }
    SendsKeepModes(nd, a, cb.effects);
    ApplyEffectsKeeps(nd, a, cb.effects);
    assert Sound(nd.actors[a]);
    if failed {
      ExitModes(nd1, a, DEAD_SEND);
    } else if cb.result.Err? {
      ExitModes(nd1, a, cb.result.reason);
    }
  }

  /** The one effect of a started proxy's callback fails exactly on an undeliverable message. */
  lemma CallbackFailsIff(sd: Side, nd1: Node, p: Id, env: Env)
    requires p in sd.remoteOf && p in sd.node.actors && sd.node.actors[p].started && Alive(nd1, sd.ep)
    requires forall a :: Alive(nd1, a) <==> Alive(sd.node, a)
    ensures var cb := ProxyCallback(sd, p, env);
            && |cb.effects| <= 1 && (cb.result.Err? ==> cb.result.reason != DEAD_SEND)
            && (cb.effects != [] && EffectFails(nd1, cb.effects[0]) <==> Undeliverable(sd, env))
  {
  }

  lemma TakeKeepsAlive(nd: Node, a: Id)
    requires CanRun(nd, a)
    ensures forall b :: Alive(Take(nd, a), b) <==> Alive(nd, b)
  {
  }

  lemma StartedBreaksIff(sd: Side, nd1: Node, p: Id, env: Env)
    requires p in sd.remoteOf && p in sd.node.actors && sd.node.actors[p].started && Alive(nd1, sd.ep)
    requires (forall a :: Alive(nd1, a) <==> Alive(sd.node, a)) && Running(nd1, p) && nd1.actors[p].receiver
    ensures ExitedWith(Invoke(nd1, p, ProxyCallback(sd, p, env)), p, DEAD_SEND) <==> Undeliverable(sd, env)
  {
    CallbackFailsIff(sd, nd1, p, env);
    ProxySends(sd, p, env);
    InvokeBreaksIff(nd1, p, ProxyCallback(sd, p, env));
  }

  /** While its endpoint is alive, a proxy is ended by a failed send if and only if the message it
      handles is undeliverable. */
  lemma ProxyBreaksIff(sd: Side, peer: Side, p: Id)
    requires SideOk(sd, peer) && p in sd.remoteOf && CanRun(sd.node, p) && Alive(sd.node, p) && Alive(sd.node, sd.ep)
    ensures ExitedWith(AfterProxy(sd, p), p, DEAD_SEND) <==> Undeliverable(sd, HeadOf(sd, p))
  {
    var x, env, nd1 := sd.node.actors[p], HeadOf(sd, p), Take(sd.node, p);
    assert Sound(x) && ProxyModes(x) by { assert ProxyOk(sd, peer, p); }
    if x.started {
      assert Running(nd1, p) && nd1.actors[p].receiver by { ProxyTaken(sd, peer, p); }
      assert AfterProxy(sd, p) == Invoke(nd1, p, ProxyCallback(sd, p, env));
      TakeKeepsAlive(sd.node, p);
      StartedBreaksIff(sd, nd1, p, env);
    } else {
      NewcomerStays(sd, p);
    }
  }

  lemma NewcomerStays(sd: Side, p: Id)
    requires p in sd.remoteOf && CanRun(sd.node, p) && Sound(sd.node.actors[p]) && !sd.node.actors[p].started
    ensures !Exited(AfterProxy(sd, p), p) && !Undeliverable(sd, HeadOf(sd, p))
  {
    FirstRun(Take(sd.node, p), p);
  }

  // ---------------------------------------------------------------- runs in which none breaks

  /** The event makes one of the two proxies between x, on side s, and y handle an undeliverable
      message: the proxy for y on side s, or the proxy for x on the other side. */
  predicate Breaks(w: World, ev: NetEvent, s: bool, x: Id, y: Id) {
    && Enabled(w, ev) && ev.ProxyRun?
    && var sd := Get(w, ev.s);
       sd.remoteOf[ev.who] == (if ev.s == s then y else x) && Alive(sd.node, ev.who) && Undeliverable(sd, HeadOf(sd, ev.who))
  }

  /** Every message that one of these proxies handles in the run can be delivered at that moment. */
  predicate Deliverable(w: World, evs: seq<NetEvent>, s: bool, x: Id, y: Id)
    decreases |evs|
  {
    evs == [] || (!Breaks(w, evs[0], s, x, y) && Deliverable(NetStep(w, evs[0]), evs[1..], s, x, y))
  }

  predicate Whole(sd: Side, p: Id) {
    Alive(sd.node, sd.ep) ==> !ExitedWith(sd.node, p, DEAD_SEND)
  }

  /** No proxy for k was ended by a failed send. */
  ghost predicate AllWhole(sd: Side, k: Id) {
    forall p :: p in sd.remoteOf && sd.remoteOf[p] == k ==> Whole(sd, p)
  }

  ghost predicate NewLive(sd: Side, sd': Side) {
    forall p :: p in sd'.remoteOf && p !in sd.remoteOf ==> Alive(sd'.node, p)
  }

  lemma ReadyLive(sd: Side, sd1: Side, f: Id, m: Env)
    requires sd1.remoteOf == sd.remoteOf && (f !in sd1.table ==> Ready(sd1, f).table[f] == sd1.node.next)
    requires Alive(Ready(sd1, f).node, Ready(sd1, f).table[f])
    ensures var sd2 := Ready(sd1, f); NewLive(sd, sd2.(node := Queue(sd2.node, sd2.table[f], m)))
  {
  }

  lemma PassedOnLive(sd: Side, peer: Side, fr: Frame, f: Id, m: Msg)
    requires SideOk(sd, peer) && Alive(sd.node, sd.ep) && Alive(ReadFrame(sd, fr).node, sd.ep)
    requires Dispatch(Awake(sd), fr) == ToProxy(Awake(sd), f, m) && !m.Exit?
    ensures NewLive(sd, ReadFrame(sd, fr))
  {
    PassedOn(sd, peer, fr, f, m);
    ReadyLive(sd, Awake(sd), f, Env(sd.ep, m, Direct));
  }

  lemma NewProxiesLive(sd: Side, peer: Side, fr: Frame)
    requires SideOk(sd, peer) && Alive(sd.node, sd.ep) && Alive(ReadFrame(sd, fr).node, sd.ep)
    ensures NewLive(sd, ReadFrame(sd, fr))
  {
    if fr.SendFrame? {
      PassedOnLive(sd, peer, fr, fr.from, DeliverPid(fr.to, fr.payload));
    } else if fr.NamedFrame? && fr.from != NOBODY {
      PassedOnLive(sd, peer, fr, fr.from, DeliverNamed(fr.name, fr.payload));
    } else if fr.LinkFrame? {
      PassedOnLive(sd, peer, fr, fr.local, SetNotify(fr.remote));
    } else {
      Survives(sd, fr);
    }
  }

  lemma SameRemoteOf(sd: Side, peer: Side, ev: NetEvent)
    requires EnabledOn(sd, peer, ev) && sd.ep in sd.node.actors && !ev.WireIn?
    ensures Local(sd, peer, ev).remoteOf == sd.remoteOf
  {
  }

  lemma RunnerWhole(sd: Side, peer: Side, ev: NetEvent, p: Id)
    requires SideOk(sd, peer) && EnabledOn(sd, peer, ev) && p in sd.remoteOf && Whole(sd, p) && p == Runner(sd, ev)
    requires Alive(sd.node, sd.ep)
    requires ev.ProxyRun? && Alive(sd.node, p) ==> !Undeliverable(sd, HeadOf(sd, p))
    ensures !ExitedWith(Local(sd, peer, ev).node, p, DEAD_SEND)
  {
    assert ProxyOk(sd, peer, p);
    if ev.ProxyRun? {
      if Alive(sd.node, p) {
        ProxyBreaksIff(sd, peer, p);
      } else {
        RunAges(sd.node, p, ProxyCallback(sd, p, HeadOf(sd, p)));
        assert Sound(sd.node.actors[p]);
      }
    } else {
      assert ev.Reap?;
    }
  }

  lemma OldWhole(sd: Side, peer: Side, ev: NetEvent, sd': Side, p: Id)
    requires SideOk(sd, peer) && EnabledOn(sd, peer, ev) && sd' == Local(sd, peer, ev) && p in sd.remoteOf && Whole(sd, p)
    requires ev.ProxyRun? && ev.who == p && Alive(sd.node, p) ==> !Undeliverable(sd, HeadOf(sd, p))
    requires Later(sd.node, sd'.node) && sd'.ep == sd.ep
    ensures Whole(sd', p)
  {
    if Alive(sd'.node, sd.ep) {
      assert Alive(sd.node, sd.ep);
      if p == Runner(sd, ev) {
        RunnerWhole(sd, peer, ev, p);
      } else {
        assert ProxyOk(sd, peer, p);
        OthersKeep(sd, peer, ev, p);
      }
    }
  }

  lemma LocalWhole(sd: Side, peer: Side, ev: NetEvent, sd': Side, k: Id)
    requires SideOk(sd, peer) && EnabledOn(sd, peer, ev) && sd' == Local(sd, peer, ev) && AllWhole(sd, k)
    requires ev.ProxyRun? && sd.remoteOf[ev.who] == k && Alive(sd.node, ev.who) ==> !Undeliverable(sd, HeadOf(sd, ev.who))
    requires SideOk(sd', peer) && Later(sd.node, sd'.node) && sd'.ep == sd.ep && SameProxies(sd, sd')
    ensures AllWhole(sd', k)
  {
    forall p | p in sd'.remoteOf && sd'.remoteOf[p] == k ensures Whole(sd', p) {
      if p in sd.remoteOf {
        OldWhole(sd, peer, ev, sd', p);
      } else if Alive(sd'.node, sd.ep) {
        if !ev.WireIn? {
          SameRemoteOf(sd, peer, ev);
        }
        NewWhole(sd, peer, sd', p);
      }
    }
  }

  lemma NewWhole(sd: Side, peer: Side, sd': Side, p: Id)
    requires SideOk(sd, peer) && SideOk(sd', peer) && Alive(sd.node, sd.ep) && peer.out != [] && sd' == ReadFrame(sd, peer.out[0])
    requires Alive(sd'.node, sd.ep) && p in sd'.remoteOf && p !in sd.remoteOf
    ensures Whole(sd', p)
  {
    NewProxiesLive(sd, peer, peer.out[0]);
    assert ProxyOk(sd', peer, p);
    assert Sound(sd'.node.actors[p]);
  }

  /** Both proxies between x, on side s, and y are whole. */
  ghost predicate LaneWhole(w: World, s: bool, x: Id, y: Id) {
    AllWhole(Get(w, s), y) && AllWhole(Get(w, !s), x)
  }

  lemma PeerWhole(sd: Side, sd': Side, k: Id)
    requires AllWhole(sd, k) && sd'.node == sd.node && sd'.remoteOf == sd.remoteOf && sd'.ep == sd.ep
    ensures AllWhole(sd', k)
  {
    forall p | p in sd'.remoteOf && sd'.remoteOf[p] == k ensures Whole(sd', p) {
      assert Whole(sd, p);
    }
  }

  lemma StepWhole(w: World, ev: NetEvent, s: bool, x: Id, y: Id)
    requires RInv(w) && LaneWhole(w, s, x, y) && !Breaks(w, ev, s, x, y)
    ensures LaneWhole(NetStep(w, ev), s, x, y)
  {
    if Enabled(w, ev) {
      StepMoves(w, ev);
      var w' := NetStep(w, ev);
      var sd, sd', peer, peer' := Get(w, ev.s), Get(w', ev.s), Get(w, !ev.s), Get(w', !ev.s);
      MovesOk(sd, sd', peer, peer', ev);
      var k, l := if ev.s == s then y else x, if ev.s == s then x else y;
      LocalWhole(sd, peer, ev, sd', k);
      PeerWhole(peer, peer', l);
    }
  }

  lemma {:induction false} RunWhole(w: World, evs: seq<NetEvent>, s: bool, x: Id, y: Id)
    requires RInv(w) && LaneWhole(w, s, x, y) && Deliverable(w, evs, s, x, y)
    ensures LaneWhole(NetRun(w, evs), s, x, y)
    decreases |evs|
  {
    if evs != [] {
      NetStepKeeps(w, evs[0]);
      StepWhole(w, evs[0], s, x, y);
      RunWhole(NetStep(w, evs[0]), evs[1..], s, x, y);
    }
  }

  lemma WholeIsUp(src: Side, dst: Side, k: Id)
    requires SideOk(src, dst) && AllWhole(src, k) && Alive(src.node, src.ep)
    ensures !Broken(src, k)
  {
    assert k in src.table ==> Whole(src, src.table[k]);
  }

  /** Remote transparency without exceptions, for the runs in which every message that the two proxies
      on the way handle can be delivered. */
  lemma TransparentWhenDeliverable(evs: seq<NetEvent>, s: bool, x: Id, y: Id)
    requires Deliverable(INIT, evs, s, x, y)
    ensures var w := NetRun(INIT, evs); Connected(w, s, x, y) ==> L.Lane(Get(w, s), Get(w, !s), x, y)
  {
    InitOk();
    NetRunKeeps(INIT, evs);
    RunWhole(INIT, evs, s, x, y);
    Transparent(evs, s, x, y);
    var w := NetRun(INIT, evs);
    if Connected(w, s, x, y) {
      WholeIsUp(Get(w, s), Get(w, !s), y);
      WholeIsUp(Get(w, !s), Get(w, s), x);
    }
  }

  /** In such a run a link request is on its way or has arrived, without exceptions. */
  lemma LinkArrivesWhenDeliverable(before: seq<NetEvent>, after: seq<NetEvent>, s: bool, x: Id, y: Id)
    requires var w := NetRun(INIT, before);
             Links.AtOwnProxy(Get(w, s), x, y) && y in Get(w, !s).node.actors && y != Get(w, !s).ep
    requires Deliverable(INIT, before, s, x, y) && Deliverable(NetRun(INIT, before), after, s, x, y)
    ensures var w := NetRun(NetRun(INIT, before), after);
            Connected(w, s, x, y) ==> Links.OnWay(Get(w, s), Get(w, !s), x, y)
  {
    var w0 := NetRun(INIT, before);
    var w := NetRun(w0, after);
    InitOk();
    NetRunKeeps(INIT, before);
    NetRunKeeps(w0, after);
    RunWhole(INIT, before, s, x, y);
    RunWhole(w0, after, s, x, y);
    Links.LinkIsNeverLost(before, after, s, x, y);
    if Connected(w, s, x, y) {
      ConnectedIsOpen(Get(w, s), Get(w, !s), x, y);
    }
  }

  lemma ConnectedIsOpen(src: Side, dst: Side, x: Id, y: Id)
    requires SideOk(src, dst) && SideOk(dst, src) && AllWhole(src, y) && AllWhole(dst, x)
    requires !Exited(src.node, x) && Alive(dst.node, y) && Alive(src.node, src.ep) && Alive(dst.node, dst.ep)
    ensures L.Open(src, dst, x, y)
  {
    assert Sound(dst.node.actors[y]);
    WholeIsUp(src, dst, y);
    WholeIsUp(dst, src, x);
    DownIsBroken(src, dst, y);
    DownIsBroken(dst, src, x);
  }

  /** Nothing escapes by a proxy's failure in such a run: the exit notice of Y is in some stage of
      its way, or X has been sent exactly that reason, or X or an endpoint has itself exited. */
  lemma ExitArrivesWhenDeliverable(before: seq<NetEvent>, cb: Callback, after: seq<NetEvent>, s: bool, c: Exits.Parties)
    requires var w := NetRun(INIT, before);
             && Enabled(w, UserRun(s, c.y, cb)) && Exits.LinkedAcross(Get(w, s), Get(w, !s), c)
             && ExitedWith(Run(Get(w, s).node, c.y, cb), c.y, c.reason)
    requires Deliverable(INIT, before, s, c.y, c.x)
    requires Deliverable(NetStep(NetRun(INIT, before), UserRun(s, c.y, cb)), after, s, c.y, c.x)
    ensures var w := NetRun(NetStep(NetRun(INIT, before), UserRun(s, c.y, cb)), after);
            Followed(Get(w, s), Get(w, !s), c)
  {
    var w0 := NetRun(INIT, before);
    InitOk();
    NetRunKeeps(INIT, before);
    RunWhole(INIT, before, s, c.y, c.x);
    ExitFollowed(w0, cb, after, s, c);
  }

  lemma ExitFollowed(w0: World, cb: Callback, after: seq<NetEvent>, s: bool, c: Exits.Parties)
    requires RInv(w0) && LaneWhole(w0, s, c.y, c.x)
    requires Enabled(w0, UserRun(s, c.y, cb)) && Exits.LinkedAcross(Get(w0, s), Get(w0, !s), c)
    requires ExitedWith(Run(Get(w0, s).node, c.y, cb), c.y, c.reason)
    requires Deliverable(NetStep(w0, UserRun(s, c.y, cb)), after, s, c.y, c.x)
    ensures var w := NetRun(NetStep(w0, UserRun(s, c.y, cb)), after); Followed(Get(w, s), Get(w, !s), c)
  {
    var w1 := NetStep(w0, UserRun(s, c.y, cb));
    NetStepKeeps(w0, UserRun(s, c.y, cb));
    StepWhole(w0, UserRun(s, c.y, cb), s, c.y, c.x);
    RunWhole(w1, after, s, c.y, c.x);
    Exits.ExitIsTracked(w0, cb, s, c);
    Exits.TrackedRun(w1, after, s, c);
    var w := NetRun(w1, after);
    assert Whole(Get(w, s), c.q) && Whole(Get(w, !s), c.p);
  }

  /** The notice is in some stage of its way, or X has been sent exactly that reason, or X or an
      endpoint has itself exited. */
  predicate Followed(home: Side, away: Side, c: Exits.Parties) {
    || Exits.AtPeerProxy(home, c) || Exits.AtFarEndpoint(home, c) || Exits.OnWire(home, c)
    || Exits.AtLocalProxy(away, c) || Exits.Told(away, c)
    || !Alive(away.node, c.x) || !Alive(home.node, home.ep) || !Alive(away.node, away.ep)
  }

  /** The exception is real: a notice that reaches a side whose proxy has failed tells nobody. */
  lemma NoticeDiesWithProxy(sd: Side, k: Id, t: Text)
    requires Alive(sd.node, sd.ep) && EndpointOk(sd.node.actors[sd.ep]) && k in sd.table && !Alive(sd.node, sd.table[k])
    ensures ReadFrame(sd, ExitFrame(k, t)) == Awake(sd)
  {
    TellsExactly(Awake(sd).node, sd.ep, sd.table[k], Exit(Short(t)));
  }
}
