/**
 How endpoints end, and what becomes of their proxies: every proxy in the table is told that the
 transport closed, and exits with that reason, which tells whoever is linked to it.
 */
module RemoteEnds {
  import opened Actors
  import opened Lifecycle
  import opened Remote
  import opened RemoteInv
  import opened RemoteSteps
  import opened RemoteEndpoint
  import opened RemoteMoves
  import Exits = RemoteExit

  const CLOSED := Short(TransportClosed)

  // ---------------------------------------------------------------- the farewell

  /** A started, live proxy that handles the farewell exits with exactly that reason. */
  lemma FarewellHeeded(sd: Side, peer: Side, p: Id)
    requires SideOk(sd, peer) && p in sd.remoteOf && CanRun(sd.node, p) && Alive(sd.node, p) && HeadOf(sd, p) == FAREWELL
    ensures AfterProxy(sd, p) == HandleExit(Take(sd.node, p), p, CLOSED)
  {
    var x := sd.node.actors[p];
    assert ProxyOk(sd, peer, p) && Sound(x);
    assert x.started && OutcomeOf(x, FAREWELL).Received?;
    var nd1, cb := Take(sd.node, p), ProxyCallback(sd, p, FAREWELL);
    assert cb == Callback([], Err(CLOSED));
    assert ApplyEffects(nd1, p, []) == (nd1, false);
  }

  lemma FarewellEnds(sd: Side, peer: Side, p: Id)
    requires SideOk(sd, peer) && p in sd.remoteOf && CanRun(sd.node, p) && Alive(sd.node, p) && HeadOf(sd, p) == FAREWELL
    ensures ExitedWith(AfterProxy(sd, p), p, CLOSED) && !Alive(AfterProxy(sd, p), p)
    ensures AfterProxy(sd, p).actors[p].exits[0].links == sd.node.actors[p].links
  {
    FarewellHeeded(sd, peer, p);
    assert ProxyOk(sd, peer, p) && Sound(sd.node.actors[p]);
    ProxyTaken(sd, peer, p);
    assert OutcomeOf(sd.node.actors[p], FAREWELL).Received?;
    assert SettledBut(Take(sd.node, p), p);
    HandleExitKeeps(Take(sd.node, p), p, CLOSED);
  }

  // ---------------------------------------------------------------- history of handled mail

  lemma {:induction false} NotifyHandles(nd: Node, hs: seq<Id>, env: Env, a: Id)
    requires a in nd.actors
    ensures a in NotifyAll(nd, hs, env).actors && NotifyAll(nd, hs, env).actors[a].handled == nd.actors[a].handled
    decreases |hs|
  {
    if hs != [] {
      NotifyHandles(Queue(nd, hs[0], env), hs[1..], env, a);
    }
  }

  lemma {:induction false} EffectsHandle(nd: Node, a: Id, es: seq<Effect>)
    requires a in nd.actors && a < nd.next
    ensures ApplyEffects(nd, a, es).0.actors[a].handled == nd.actors[a].handled
    decreases |es|
  {
    if es != [] {
      var (nd1, failed) := ApplyEffect(nd, a, es[0]);
      assert nd1.actors[a].handled == nd.actors[a].handled;
      if !failed {
        EffectsHandle(nd1, a, es[1..]);
      }
    }
  }

  lemma ExitHandles(nd: Node, a: Id, r: Reason)
    requires a in nd.actors
    ensures a in HandleExit(nd, a, r).actors && HandleExit(nd, a, r).actors[a].handled == nd.actors[a].handled
  {
    NotifyHandles(MarkExit(nd, a, r), nd.actors[a].links, ExitEnv(a, r), a);
  }

  /** A run adds exactly its own envelope to the history of its instance. */
  lemma RunHandles(nd: Node, a: Id, cb: Callback)
    requires CanRun(nd, a) && a < nd.next
    ensures var e := nd.actors[a].mailbox[0];
            a in Run(nd, a, cb).actors
            && Run(nd, a, cb).actors[a].handled == nd.actors[a].handled + [Handled(e, OutcomeOf(nd.actors[a], e))]
  {
    var nd1, e := Take(nd, a), nd.actors[a].mailbox[0];
    match OutcomeOf(nd.actors[a], e) {
      case Received(_) =>
        EffectsHandle(nd1, a, cb.effects);
        var (nd2, failed) := ApplyEffects(nd1, a, cb.effects);
        ExitHandles(nd2, a, if failed then DEAD_SEND else if cb.result.Err? then cb.result.reason else Short(NoReceive));
      case Obeyed => ExitHandles(nd1, a, e.msg.reason);
      case _ =>
    }
  }

  // ---------------------------------------------------------------- what every event keeps

  /** A live proxy still has the farewell before it. */
  predicate Parted(sd: Side, p: Id) {
    p in sd.node.actors && (Alive(sd.node, p) ==> FAREWELL in sd.node.actors[p].mailbox)
  }

  ghost predicate AllParted(sd: Side) {
    !Alive(sd.node, sd.ep) ==> forall k :: k in sd.table ==> Parted(sd, sd.table[k])
  }

  /** Whoever was live when it handled the farewell has exited with that reason. */
  predicate Heeded(x: Actor) {
    forall h :: h in x.handled && h.env == FAREWELL && h.outcome.Received? ==> x.exits != [] && x.exits[0].reason == CLOSED
  }

  ghost predicate AllHeeded(sd: Side) {
    forall p :: p in sd.remoteOf && p in sd.node.actors ==> Heeded(sd.node.actors[p])
  }

  lemma BuryParts(sd: Side)
    requires forall k :: k in sd.table ==> sd.table[k] in sd.node.actors
    ensures AllParted(Bury(sd))
  {
    forall k | k in sd.table ensures !Alive(sd.node, sd.ep) ==> Parted(Bury(sd), sd.table[k]) {
      assert sd.table[k] in sd.table.Values;
    }
  }

  lemma EntriesExist(sd: Side, peer: Side)
    requires SideOk(sd, peer)
    ensures forall k :: k in sd.table ==> sd.table[k] in sd.node.actors
  {
    forall k | k in sd.table ensures sd.table[k] in sd.node.actors {
      assert ProxyOk(sd, peer, sd.table[k]);
    }
  }

  /** What an endpoint event ends with is a burial. */
  function Unburied(sd: Side, peer: Side, ev: NetEvent): Side
    requires EnabledOn(sd, peer, ev) && sd.ep in sd.node.actors && (ev.EndpointRun? || ev.WireIn? || ev.EndpointFail?)
  {
    match ev
    case EndpointRun(_) =>
      var m := sd.node.actors[sd.ep].mailbox[0].msg;
      sd.(node := Run(sd.node, sd.ep, EndpointCallback(m)), out := sd.out + FramesFor(m),
          table := if m.ProxyExit? then sd.table - {m.remote} else sd.table)
    case WireIn(_) =>
      var (sd1, cb) := Dispatch(sd, peer.out[0]);
      sd1.(node := Invoke(Put(sd.node, sd.ep, Entered(sd.node.actors[sd.ep])), sd.ep, cb))
    case EndpointFail(_, t, tell) =>
      sd.(node := HandleExit(sd.node, sd.ep, Short(t)), out := if tell then sd.out + [ErrorFrame(t)] else sd.out)
  }

  lemma EndpointParts(sd: Side, peer: Side, ev: NetEvent)
    requires EnabledOn(sd, peer, ev) && sd.ep in sd.node.actors && (ev.EndpointRun? || ev.WireIn? || ev.EndpointFail?)
    requires SideOk(Local(sd, peer, ev), peer)
    ensures AllParted(Local(sd, peer, ev))
  {
    var sd1, sd' := Unburied(sd, peer, ev), Local(sd, peer, ev);
    assert sd' == Bury(sd1) && sd'.table == sd1.table && sd'.node.actors.Keys == sd1.node.actors.Keys;
    EntriesExist(sd', peer);
    BuryParts(sd1);
  }

  lemma StaysParted(sd: Side, peer: Side, ev: NetEvent, p: Id)
    requires SideOk(sd, peer) && EnabledOn(sd, peer, ev) && p in sd.remoteOf && Parted(sd, p)
    requires Later(sd.node, Local(sd, peer, ev).node)
    ensures Parted(Local(sd, peer, ev), p)
  {
    var sd' := Local(sd, peer, ev);
    assert p in sd'.node.actors && Aged(sd.node.actors[p], sd'.node.actors[p]);
    if Alive(sd'.node, p) {
      var mb := sd.node.actors[p].mailbox;
      assert FAREWELL in mb;
      assert ProxyOk(sd, peer, p);
      if p == Runner(sd, ev) && TakesMail(ev) && FAREWELL !in mb[1..] {
        assert ev == ProxyRun(ev.s, p) && mb[0] == FAREWELL;
        FarewellEnds(sd, peer, p);
      } else {
        MailRemains(sd, peer, ev, p, FAREWELL);
      }
    }
  }

  lemma LocalParted(sd: Side, peer: Side, ev: NetEvent)
    requires SideOk(sd, peer) && SideOk(peer, sd) && EnabledOn(sd, peer, ev) && AllParted(sd)
    ensures AllParted(Local(sd, peer, ev))
  {
    LocalKeeps(sd, peer, ev);
    var sd' := Local(sd, peer, ev);
    if ev.EndpointRun? || ev.WireIn? || ev.EndpointFail? {
      EndpointParts(sd, peer, ev);
    } else {
      assert sd'.table == sd.table && sd'.ep == sd.ep;
      EndpointSame(sd, peer, ev);
      forall k | k in sd.table && !Alive(sd.node, sd.ep) ensures Parted(sd', sd.table[k]) {
        assert Parted(sd, sd.table[k]);
        StaysParted(sd, peer, ev, sd.table[k]);
      }
    }
  }

  /** Nobody else ends an endpoint. */
  lemma EndpointSame(sd: Side, peer: Side, ev: NetEvent)
    requires SideOk(sd, peer) && EnabledOn(sd, peer, ev) && !(ev.EndpointRun? || ev.WireIn? || ev.EndpointFail?)
    ensures Alive(Local(sd, peer, ev).node, sd.ep) == Alive(sd.node, sd.ep)
  {
    if Runner(sd, ev) != sd.ep {
      OthersKeep(sd, peer, ev, sd.ep);
    }
  }

  lemma StaysHeeded(sd: Side, peer: Side, ev: NetEvent, p: Id)
    requires SideOk(sd, peer) && SideOk(peer, sd) && EnabledOn(sd, peer, ev) && p in sd.remoteOf && Heeded(sd.node.actors[p])
    ensures p in Local(sd, peer, ev).node.actors && Heeded(Local(sd, peer, ev).node.actors[p])
  {
    var sd' := Local(sd, peer, ev);
    assert ProxyOk(sd, peer, p);
    if p != Runner(sd, ev) {
      OthersKeep(sd, peer, ev, p);
    } else if ev.ProxyRun? {
      LocalKeeps(sd, peer, ev);
      RunHeeds(sd, peer, p);
    } else {
      assert ev.Reap?;
    }
  }

  lemma RunHeeds(sd: Side, peer: Side, p: Id)
    requires SideOk(sd, peer) && p in sd.remoteOf && CanRun(sd.node, p) && Heeded(sd.node.actors[p])
    requires Later(sd.node, AfterProxy(sd, p))
    ensures p in AfterProxy(sd, p).actors && Heeded(AfterProxy(sd, p).actors[p])
  {
    var x, e := sd.node.actors[p], HeadOf(sd, p);
    RunHandles(sd.node, p, ProxyCallback(sd, p, e));
    assert Aged(x, AfterProxy(sd, p).actors[p]);
    if e == FAREWELL && OutcomeOf(x, e).Received? {
      FarewellEnds(sd, peer, p);
    }
  }

  /** Proxies are only made when a frame is read, under the next id. */
  lemma DispatchMakes(sd: Side, fr: Frame, p: Id)
    requires p in Dispatch(sd, fr).0.remoteOf && p !in sd.remoteOf
    ensures p == sd.node.next
  {
  }

  lemma NewProxy(sd: Side, peer: Side, ev: NetEvent, p: Id)
    requires Ids(sd.node) && sd.ep in sd.node.actors && EnabledOn(sd, peer, ev) && p in Local(sd, peer, ev).remoteOf && p !in sd.remoteOf
    ensures p !in sd.node.actors
  {
    if ev.WireIn? {
      DispatchMakes(sd, peer.out[0], p);
    }
  }

  lemma LocalHeeded(sd: Side, peer: Side, ev: NetEvent)
    requires SideOk(sd, peer) && SideOk(peer, sd) && EnabledOn(sd, peer, ev) && AllHeeded(sd)
    ensures AllHeeded(Local(sd, peer, ev))
  {
    var sd' := Local(sd, peer, ev);
    LocalKeeps(sd, peer, ev);
    forall p | p in sd'.remoteOf && p in sd'.node.actors ensures Heeded(sd'.node.actors[p]) {
      if p in sd.remoteOf {
        assert ProxyOk(sd, peer, p);
        StaysHeeded(sd, peer, ev, p);
      } else {
        NewProxy(sd, peer, ev, p);
        LocalAdds(sd, peer, ev);
        assert InOrder(sd'.node.actors[p]) by { assert Sound(sd'.node.actors[p]); }
        assert |sd'.node.actors[p].handled| == 0;
      }
    }
  }

  ghost predicate Ends(w: World) {
    AllParted(w.near) && AllParted(w.far) && AllHeeded(w.near) && AllHeeded(w.far)
  }

  lemma StepEnds(w: World, ev: NetEvent)
    requires RInv(w) && Ends(w)
    ensures Ends(NetStep(w, ev))
  {
    if Enabled(w, ev) {
      var sd, peer := Get(w, ev.s), Get(w, !ev.s);
      StepSides(w, ev);
      LocalParted(sd, peer, ev);
      LocalHeeded(sd, peer, ev);
      WireAside(peer);
    }
  }

  /** The wire does not matter here. */
  lemma WireAside(sd: Side)
    requires AllParted(sd) && AllHeeded(sd)
    ensures forall out :: AllParted(sd.(out := out)) && AllHeeded(sd.(out := out))
  {
    forall out ensures AllParted(sd.(out := out)) && AllHeeded(sd.(out := out)) {
      assert forall k :: k in sd.table ==> Parted(sd.(out := out), sd.table[k]) == Parted(sd, sd.table[k]);
    }
  }

  lemma {:induction false} RunEnds(w: World, evs: seq<NetEvent>)
    requires RInv(w) && Ends(w)
    ensures RInv(NetRun(w, evs)) && Ends(NetRun(w, evs))
    decreases |evs|
  {
    if evs != [] {
      NetStepKeeps(w, evs[0]);
      StepEnds(w, evs[0]);
      RunEnds(NetStep(w, evs[0]), evs[1..]);
    }
  }

  /** In every run: when an endpoint is down, every proxy in its table has exited or has the farewell
      before it; one that was live when it handled the farewell has exited with exactly that reason;
      and whoever was on the list of a proxy that exited has been told its reason. */
  lemma ProxiesFollow(evs: seq<NetEvent>, s: bool, k: Id)
    requires var sd := Get(NetRun(INIT, evs), s); !Alive(sd.node, sd.ep) && k in sd.table
    ensures var sd := Get(NetRun(INIT, evs), s);
            var p := sd.table[k];
            && p in sd.node.actors && (FAREWELL in sd.node.actors[p].mailbox || Exited(sd.node, p))
            && (forall h :: h in sd.node.actors[p].handled && h.env == FAREWELL && h.outcome.Received? ==>
                  ExitedWith(sd.node, p, Short(TransportClosed)))
            && (Exited(sd.node, p) ==> forall x :: x in sd.node.actors[p].exits[0].links ==>
                  Settled(sd.node, p, sd.node.actors[p].exits[0].reason, x))
  {
    InitOk();
    RunEnds(INIT, evs);
    var sd, peer := Get(NetRun(INIT, evs), s), Get(NetRun(INIT, evs), !s);
    var p := sd.table[k];
    assert Parted(sd, p);
    assert ProxyOk(sd, peer, p) && Sound(sd.node.actors[p]);
    assert NOBODY !in sd.node.actors;
  }

  // ---------------------------------------------------------------- whoever is linked to a proxy

  lemma LinkedLocal(sd: Side, peer: Side, ev: NetEvent, p: Id, x: Id)
    requires SideOk(sd, peer) && EnabledOn(sd, peer, ev) && p in sd.remoteOf && Exits.LinkedTo(sd.node, p, x)
    ensures var sd' := Local(sd, peer, ev); p in sd'.remoteOf && Exits.LinkedTo(sd'.node, p, x)
  {
    LocalExtends(sd, peer, ev);
    Exits.LinkedStays(sd, peer, ev, p, x);
  }

  lemma LinkedStep(w: World, ev: NetEvent, s: bool, p: Id, x: Id)
    requires RInv(w) && p in Get(w, s).remoteOf && Exits.LinkedTo(Get(w, s).node, p, x)
    ensures var sd := Get(NetStep(w, ev), s); p in sd.remoteOf && Exits.LinkedTo(sd.node, p, x)
  {
    if Enabled(w, ev) {
      StepSides(w, ev);
      if ev.s == s {
        LinkedLocal(Get(w, s), Get(w, !s), ev, p, x);
      }
    }
  }

  lemma {:induction false} LinkedRun(w: World, evs: seq<NetEvent>, s: bool, p: Id, x: Id)
    requires RInv(w) && p in Get(w, s).remoteOf && Exits.LinkedTo(Get(w, s).node, p, x)
    ensures var sd := Get(NetRun(w, evs), s); p in sd.remoteOf && Exits.LinkedTo(sd.node, p, x)
    decreases |evs|
  {
    if evs != [] {
      NetStepKeeps(w, evs[0]);
      LinkedStep(w, evs[0], s, p, x);
      LinkedRun(NetStep(w, evs[0]), evs[1..], s, p, x);
    }
  }

  /** In every run: if X was linked to a live proxy and the proxy's endpoint has gone down since, the proxy
      has the farewell before it and X on its list; or it has exited, for that reason if it was live
      when it handled the farewell, and X has been told its reason. */
  lemma LinkedHearOfClosing(before: seq<NetEvent>, after: seq<NetEvent>, s: bool, p: Id, x: Id)
    requires var sd := Get(NetRun(INIT, before), s); p in sd.remoteOf && Alive(sd.node, p) && x in sd.node.actors[p].links
    requires var sd := Get(NetRun(NetRun(INIT, before), after), s); !Alive(sd.node, sd.ep)
    ensures var nd := Get(NetRun(NetRun(INIT, before), after), s).node;
            && p in nd.actors
            && (if Alive(nd, p) then FAREWELL in nd.actors[p].mailbox && x in nd.actors[p].links
                else Exited(nd, p) && Settled(nd, p, nd.actors[p].exits[0].reason, x))
            && (forall h :: h in nd.actors[p].handled && h.env == FAREWELL && h.outcome.Received? ==>
                  ExitedWith(nd, p, Short(TransportClosed)))
  {
    InitOk();
    var w0 := NetRun(INIT, before);
    RunEnds(INIT, before);
    assert Exits.LinkedTo(Get(w0, s).node, p, x) by {
      assert ProxyOk(Get(w0, s), Get(w0, !s), p) && Sound(Get(w0, s).node.actors[p]);
    }
    LinkedRun(w0, after, s, p, x);
    RunEnds(w0, after);
    ClosingSettled(Get(NetRun(w0, after), s), Get(NetRun(w0, after), !s), p, x);
  }

  lemma ClosingSettled(sd: Side, peer: Side, p: Id, x: Id)
    requires SideOk(sd, peer) && AllParted(sd) && AllHeeded(sd) && !Alive(sd.node, sd.ep)
    requires p in sd.remoteOf && Exits.LinkedTo(sd.node, p, x)
    ensures var nd := sd.node;
            && p in nd.actors && Heeded(nd.actors[p])
            && (if Alive(nd, p) then FAREWELL in nd.actors[p].mailbox && x in nd.actors[p].links
                else Exited(nd, p) && Settled(nd, p, nd.actors[p].exits[0].reason, x))
  {
    assert ProxyOk(sd, peer, p) && Sound(sd.node.actors[p]);
    assert NOBODY !in sd.node.actors;
    if Alive(sd.node, p) {
      assert Parted(sd, sd.table[sd.remoteOf[p]]);
    }
  }
}
