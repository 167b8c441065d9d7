/**
 The exception in the transparency theorem is real: a run in which a message is lost although its
 sender, its receiver and both endpoints stay alive.

 An actor sends a named message to a name that the other side does not know.  The proxy that
 should deliver it fails and exits, and takes with it a message that a live actor has queued there
 for the live sender of the named message.
 */
module RemoteLoss {
  import opened Actors
  import opened Lifecycle
  import opened Remote
  import opened RemoteInv
  import opened RemoteLanes
  import opened RemoteEndpoint
  import opened RemoteRuns

  const X: Id := 2
  const Y: Id := 2
  const P: Id := 3

  const ASK := Env(Y, SendNamed(Y, 0, Plain(9)), Direct)
  const ASKED := Env(EP, DeliverNamed(0, Plain(9)), Direct)
  const WAKE := Env(NOBODY, Null, Direct)
  const LOST := Env(X, Data(7), Direct)

  const FarCalls := Callback([Receive, SendTo(EP, ASK.msg, Direct, true)], Ok)
  const NearCalls := Callback([Receive, SendTo(P, LOST.msg, Direct, true)], Ok)

  // ---------------------------------------------------------------- the far side

  /** Y has asked its endpoint for a named send. */
  predicate Asking(sd: Side) {
    && sd.ep == EP && Alive(sd.node, EP) && Alive(sd.node, Y) && sd.table == map[] && sd.out == []
    && sd.node.actors[EP] == InitSide().node.actors[EP].(mailbox := [ASK], accepted := [ASK])
  }

  predicate Asked(sd: Side) {
    && sd.ep == EP && Alive(sd.node, EP) && Alive(sd.node, Y) && sd.table == map[]
    && sd.out == [NamedFrame(Y, 0, Plain(9))]
  }

  function Spawned(): Side {
    InitSide().(node := SpawnOne(InitSide().node, NOBODY))
  }

  lemma TwoEffects(nd: Node, a: Id, e: Effect, f: Effect)
    requires a in nd.actors && !ApplyEffect(nd, a, e).1 && a in ApplyEffect(nd, a, e).0.actors
    requires !ApplyEffect(ApplyEffect(nd, a, e).0, a, f).1
    ensures ApplyEffects(nd, a, [e, f]) == (ApplyEffect(ApplyEffect(nd, a, e).0, a, f).0, false)
  {
    var nd1 := ApplyEffect(nd, a, e).0;
    var nd2 := ApplyEffect(nd1, a, f).0;
    assert [e, f][1..] == [f] && [f][1..] == [];
    assert ApplyEffects(nd1, a, [f]) == ApplyEffects(nd2, a, []) == (nd2, false);
  }

  /** A user's first run, in which it sends one message. */
  lemma FirstSend(nd: Node, a: Id, to: Id, m: Msg)
    requires a in nd.actors && nd.actors[a] == Fresh(NOBODY) && Alive(nd, to) && to != a
    ensures var nd' := Run(nd, a, Callback([Receive, SendTo(to, m, Direct, true)], Ok));
            && Alive(nd', a) && to in nd'.actors
            && nd'.actors[to] == nd.actors[to].(mailbox := nd.actors[to].mailbox + [Env(a, m, Direct)],
                                                accepted := nd.actors[to].accepted + [Env(a, m, Direct)])
            && (forall b :: b in nd.actors && b != a && b != to ==> b in nd'.actors && nd'.actors[b] == nd.actors[b])
  {
    var nd1 := Take(nd, a);
    var nd2 := Put(nd1, a, nd1.actors[a].(receiver := true));
    assert OutcomeOf(nd.actors[a], nd.actors[a].mailbox[0]).Received?;
    assert ApplyEffect(nd1, a, Receive) == (nd2, false);
    TwoEffects(nd1, a, Receive, SendTo(to, m, Direct, true));
  }

  lemma FarAsks(peer: Side)
    ensures EnabledOn(Spawned(), peer, UserRun(true, Y, FarCalls))
    ensures Asking(Local(Spawned(), peer, UserRun(true, Y, FarCalls)))
  {
    FirstSend(Spawned().node, Y, EP, ASK.msg);
    assert Honest(Spawned(), SendTo(EP, ASK.msg, Direct, true));
    assert [] + [ASK] == [ASK];
  }

  lemma FarWrites(sd: Side, peer: Side)
    requires Asking(sd)
    ensures EnabledOn(sd, peer, EndpointRun(true)) && Asked(Local(sd, peer, EndpointRun(true)))
  {
    assert OutcomeOf(sd.node.actors[EP], ASK).Received?;
    assert Invoke(Take(sd.node, EP), EP, Callback([], Ok)) == Take(sd.node, EP);
  }

  // ---------------------------------------------------------------- the near side

  /** The proxy for Y holds these envelopes, having accepted all three in the end. */
  predicate Holding(sd: Side, box: seq<Env>, log: seq<Env>) {
    && sd.ep == EP && Alive(sd.node, EP) && sd.node.actors[EP].mailbox == [] && Alive(sd.node, X)
    && sd.table == map[Y := P] && sd.remoteOf == map[P := Y] && sd.names == map[] && sd.out == []
    && P in sd.node.actors && sd.node.actors[P].mailbox == box && sd.node.actors[P].accepted == log
  }

  lemma NearReads(peer: Side)
    requires Asked(peer)
    ensures EnabledOn(Spawned(), peer, WireIn(false))
    ensures var sd := Local(Spawned(), peer, WireIn(false));
            && Holding(sd, [WAKE, ASKED], [WAKE, ASKED]) && sd.node.actors[X] == Fresh(NOBODY)
            && sd.node.actors[P] == Fresh(NOBODY).(mailbox := [WAKE, ASKED], accepted := [WAKE, ASKED])
  {
    var sd := Spawned();
    var nd1 := Put(sd.node, EP, Entered(sd.node.actors[EP]));
    var e := SendTo(P, ASKED.msg, Direct, true);
    assert ApplyEffect(nd1, EP, Spawn) == (SpawnOne(nd1, NOBODY), false);
    assert Fresh(NOBODY).mailbox == [WAKE];
    assert [WAKE] + [ASKED] == [WAKE, ASKED];
    TwoEffects(nd1, EP, Spawn, e);
  }

  lemma NearSends(sd: Side, peer: Side)
    requires Holding(sd, [WAKE, ASKED], [WAKE, ASKED]) && sd.node.actors[X] == Fresh(NOBODY)
    requires sd.node.actors[P] == Fresh(NOBODY).(mailbox := [WAKE, ASKED], accepted := [WAKE, ASKED])
    ensures EnabledOn(sd, peer, UserRun(false, X, NearCalls))
    ensures var sd' := Local(sd, peer, UserRun(false, X, NearCalls));
            && Holding(sd', [WAKE, ASKED, LOST], [WAKE, ASKED, LOST]) && sd'.node.actors[P].status.Live?
            && !sd'.node.actors[P].started && sd'.node.actors[P].links == []
  {
    FirstSend(sd.node, X, P, LOST.msg);
    assert [WAKE, ASKED] + [LOST] == [WAKE, ASKED, LOST];
  }

  lemma ProxyStarts(sd: Side, peer: Side)
    requires Holding(sd, [WAKE, ASKED, LOST], [WAKE, ASKED, LOST]) && sd.node.actors[P].status.Live?
    requires !sd.node.actors[P].started && sd.node.actors[P].links == []
    ensures EnabledOn(sd, peer, ProxyRun(false, P))
    ensures var sd' := Local(sd, peer, ProxyRun(false, P)); var p := sd'.node.actors[P];
            Holding(sd', [ASKED, LOST], [WAKE, ASKED, LOST]) && p.status.Live? && p.started && p.trap && p.links == []
  {
    var nd1 := Take(sd.node, P);
    assert [WAKE, ASKED, LOST][1..] == [ASKED, LOST];
    assert OutcomeOf(sd.node.actors[P], WAKE).Received?;
    var nd2 := Put(nd1, P, nd1.actors[P].(trap := true));
    var nd3 := Put(nd2, P, nd2.actors[P].(observe := true));
    var nd4 := Put(nd3, P, nd3.actors[P].(receiver := true));
    var es := [SetTrap(true), SetObserve(true), Receive];
    assert es[1..] == [SetObserve(true), Receive];
    TwoEffects(nd2, P, SetObserve(true), Receive);
    assert ApplyEffects(nd1, P, es) == (nd4, false);
    assert Run(sd.node, P, Callback(es, Ok)) == nd4;
  }

  lemma ProxyFails(sd: Side, peer: Side)
    requires Holding(sd, [ASKED, LOST], [WAKE, ASKED, LOST])
    requires var p := sd.node.actors[P]; p.status.Live? && p.started && p.trap && p.links == []
    requires NOBODY !in sd.node.actors
    ensures EnabledOn(sd, peer, ProxyRun(false, P))
    ensures var sd' := Local(sd, peer, ProxyRun(false, P));
            Holding(sd', [LOST], [WAKE, ASKED, LOST]) && sd'.node.actors[P].status.Dying?
  {
    var nd1 := Take(sd.node, P);
    var e := SendTo(NOBODY, Data(9), ByName, true);
    assert [ASKED, LOST][1..] == [LOST];
    assert OutcomeOf(sd.node.actors[P], ASKED).Received?;
    assert ApplyEffect(nd1, P, e) == (nd1, true);
    assert ApplyEffects(nd1, P, [e]) == (nd1, true);
    assert Run(sd.node, P, Callback([e], Ok)) == MarkExit(nd1, P, DEAD_SEND);
  }

  lemma ProxyDrops(sd: Side, peer: Side)
    requires Holding(sd, [LOST], [WAKE, ASKED, LOST]) && sd.node.actors[P].status.Dying?
    ensures EnabledOn(sd, peer, ProxyRun(false, P))
    ensures Holding(Local(sd, peer, ProxyRun(false, P)), [], [WAKE, ASKED, LOST])
  {
    assert OutcomeOf(sd.node.actors[P], LOST).Dropped?;
  }

  lemma NotALane(src: Side, dst: Side)
    requires Holding(src, [], [WAKE, ASKED, LOST]) && dst.table == map[]
    ensures Sent(src, X, Y) == [Plain(7)] && Inbound(dst, X, Y) == [] && Outbound(src, X, Y) == []
  {
    var f := FromActor(X);
    assert Log(src, Y) == [WAKE, ASKED, LOST];
    assert [WAKE, ASKED, LOST][1..] == [ASKED, LOST] && [ASKED, LOST][1..] == [LOST];
    assert Pick([LOST], f) == [Plain(7)];
    assert Pick([ASKED, LOST], f) == Pick([LOST], f);
    assert Pick([WAKE, ASKED, LOST], f) == Pick([ASKED, LOST], f);
  }

  // ---------------------------------------------------------------- the run

  lemma {:induction false} OneMore(w: World, evs: seq<NetEvent>, ev: NetEvent)
    ensures NetRun(w, evs + [ev]) == NetStep(NetRun(w, evs), ev)
    decreases |evs|
  {
    if evs == [] {
      assert [ev][1..] == [];
      assert evs + [ev] == [ev];
    } else {
      assert (evs + [ev])[1..] == evs[1..] + [ev];
      OneMore(NetStep(w, evs[0]), evs[1..], ev);
    }
  }

  lemma FarPart() returns (evs: seq<NetEvent>)
    ensures var w := NetRun(INIT, evs); w.near == Spawned() && Asked(w.far)
  {
    var e1, e2, e3, e4 := UserSpawn(false), UserSpawn(true), UserRun(true, Y, FarCalls), EndpointRun(true);
    var w1 := NetStep(INIT, e1);
    var w2 := NetStep(w1, e2);
    assert w2 == World(Spawned(), Spawned());
    FarAsks(Spawned());
    var w3 := NetStep(w2, e3);
    assert w3.near == Spawned() && Asking(w3.far);
    FarWrites(w3.far, w3.near);
    var w4 := NetStep(w3, e4);
    evs := [];
    OneMore(INIT, [], e1);
    OneMore(INIT, [] + [e1], e2);
    OneMore(INIT, [] + [e1] + [e2], e3);
    OneMore(INIT, [] + [e1] + [e2] + [e3], e4);
    evs := [] + [e1] + [e2] + [e3] + [e4];
  }

  lemma NearPart(w: World) returns (w': World)
    requires w.near == Spawned() && Asked(w.far)
    ensures w' == NetStep(NetStep(w, WireIn(false)), UserRun(false, X, NearCalls))
    ensures Holding(w'.near, [WAKE, ASKED, LOST], [WAKE, ASKED, LOST])
    ensures var p := w'.near.node.actors[P]; p.status.Live? && !p.started && p.links == []
    ensures w'.far.node == w.far.node && w'.far.table == w.far.table && w'.far.ep == w.far.ep
  {
    NearReads(w.far);
    var w1 := NetStep(w, WireIn(false));
    assert w1.near == Local(w.near, w.far, WireIn(false));
    NearSends(w1.near, w1.far);
    w' := NetStep(w1, UserRun(false, X, NearCalls));
  }

  lemma ProxyPart(w: World) returns (w': World)
    requires RInv(w) && Holding(w.near, [WAKE, ASKED, LOST], [WAKE, ASKED, LOST]) && w.far.ep in w.far.node.actors
    requires var p := w.near.node.actors[P]; p.status.Live? && !p.started && p.links == []
    ensures var e := ProxyRun(false, P); w' == NetStep(NetStep(NetStep(w, e), e), e)
    ensures Holding(w'.near, [], [WAKE, ASKED, LOST]) && w'.far == w.far
  {
    var e := ProxyRun(false, P);
    ProxyStarts(w.near, w.far);
    ProxyMoves(w);
    var w1 := NetStep(w, e);
    assert NOBODY !in w1.near.node.actors by { NobodyStays(w, e); }
    ProxyFails(w1.near, w1.far);
    ProxyMoves(w1);
    var w2 := NetStep(w1, e);
    ProxyDrops(w2.near, w2.far);
    ProxyMoves(w2);
    w' := NetStep(w2, e);
  }

  lemma NobodyStays(w: World, e: NetEvent)
    requires RInv(w)
    ensures NOBODY !in NetStep(w, e).near.node.actors
  {
    NetStepKeeps(w, e);
    assert Ids(NetStep(w, e).near.node);
  }

  lemma ProxyMoves(w: World)
    requires Formed(w) && EnabledOn(w.near, w.far, ProxyRun(false, P))
    ensures NetStep(w, ProxyRun(false, P)) == World(Local(w.near, w.far, ProxyRun(false, P)), w.far)
  {
  }

  /** A message is lost between two live actors whose endpoints are alive. */
  lemma MessageLost() returns (evs: seq<NetEvent>)
    ensures var w := NetRun(INIT, evs);
            && Connected(w, false, X, Y) && Alive(w.near.node, X)
            && Sent(w.near, X, Y) == [Plain(7)] && Inbound(w.far, X, Y) == [] && Outbound(w.near, X, Y) == []
            && !Lane(w.near, w.far, X, Y)
  {
    var e5, e6, e7 := WireIn(false), UserRun(false, X, NearCalls), ProxyRun(false, P);
    var before := FarPart();
    var w4 := NetRun(INIT, before);
    var w6 := NearPart(w4);
    OneMore(INIT, before, e5);
    OneMore(INIT, before + [e5], e6);
    var middle := before + [e5] + [e6];
    InitOk();
    NetRunKeeps(INIT, middle);
    var w9 := ProxyPart(w6);
    OneMore(INIT, middle, e7);
    OneMore(INIT, middle + [e7], e7);
    OneMore(INIT, middle + [e7] + [e7], e7);
    evs := middle + [e7] + [e7] + [e7];
    NotALane(w9.near, w9.far);
    NetRunKeeps(INIT, evs);
    NotExitedBefore(w9.near.node, w9.near.node, X) by { LaterReflexive(w9.near.node); }
  }
}
