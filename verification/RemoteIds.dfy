/**
 Ids that cross the wire were handed out before: no frame, message or table entry names an actor
 that does not exist yet.
 */
module RemoteIds {
  import opened Actors
  import opened Lifecycle
  import opened Mail
  import opened Remote
  import opened RemoteInv
  import opened RemoteSteps
  import opened RemoteEndpoint
  import opened RemoteMoves

  predicate Named(m: Msg, here: Id, there: Id) {
    match m
    case Send(f, t, _) => f < here && t < there
    case SendNamed(f, _, _) => f < here
    case LinkWire(f, _) => f < here
    case DeliverPid(t, _) => t < here
    case _ => true
  }

  predicate FrameNamed(fr: Frame, here: Id, there: Id) {
    match fr
    case SendFrame(f, t, _) => f < here && t < there
    case NamedFrame(f, _, _) => f < here
    case LinkFrame(f, _) => f < here
    case _ => true
  }

  ghost predicate ProxiesNamed(sd: Side, there: Id) {
    forall p :: p in sd.remoteOf ==> sd.remoteOf[p] < there
  }

  ghost predicate MailNamed(nd: Node, there: Id) {
    forall b, e :: b in nd.actors && e in nd.actors[b].mailbox ==> Named(e.msg, nd.next, there)
  }

  ghost predicate WireNamed(out: seq<Frame>, here: Id, there: Id) {
    forall fr :: fr in out ==> FrameNamed(fr, here, there)
  }

  ghost predicate IdsOk(sd: Side, there: Id) {
    ProxiesNamed(sd, there) && MailNamed(sd.node, there) && WireNamed(sd.out, sd.node.next, there)
  }

  ghost predicate AllNamed(w: World) {
    IdsOk(w.near, w.far.node.next) && IdsOk(w.far, w.near.node.next)
  }

  function NamedKind(here: Id, there: Id): Kind {
    (e: Env) => Named(e.msg, here, there)
  }

  lemma MailStaysNamed(nd: Node, nd1: Node, nd': Node, a: Id, there: Id)
    requires MailNamed(nd, there) && Between(nd, nd1, a) && Adds(nd1, nd', a, NamedKind(nd.next, there))
    ensures MailNamed(nd', there)
  {
    forall b, e | b in nd'.actors && e in nd'.actors[b].mailbox ensures Named(e.msg, nd'.next, there) {
      if b in nd1.actors && e in nd1.actors[b].mailbox {
        assert e in nd.actors[b].mailbox && Named(e.msg, nd.next, there);
      } else {
        NewMail(nd1, nd', a, NamedKind(nd.next, there), b, e);
      }
    }
  }

  lemma Renamed(sd: Side, there: Id, there': Id)
    requires IdsOk(sd, there) && there <= there'
    ensures IdsOk(sd, there')
  {
    forall b, e | b in sd.node.actors && e in sd.node.actors[b].mailbox ensures Named(e.msg, sd.node.next, there') {
      assert Named(e.msg, sd.node.next, there);
    }
    forall fr | fr in sd.out ensures FrameNamed(fr, sd.node.next, there') {
      assert FrameNamed(fr, sd.node.next, there);
    }
  }

  lemma WireStaysNamed(out: seq<Frame>, out': seq<Frame>, here: Id, here': Id, there: Id)
    requires WireNamed(out, here, there) && here <= here'
    requires forall fr :: fr in out' ==> fr in out || FrameNamed(fr, here', there)
    ensures WireNamed(out', here', there)
  {
    forall fr | fr in out' ensures FrameNamed(fr, here', there) {
      assert fr in out ==> FrameNamed(fr, here, there);
    }
  }

  lemma SideNamed(sd: Side, sd': Side, nd1: Node, a: Id, there: Id)
    requires IdsOk(sd, there) && Between(sd.node, nd1, a) && Adds(nd1, sd'.node, a, NamedKind(sd.node.next, there))
    requires ProxiesNamed(sd', there)
    requires forall fr :: fr in sd'.out ==> fr in sd.out || FrameNamed(fr, sd.node.next, there)
    ensures IdsOk(sd', there)
  {
    MailStaysNamed(sd.node, nd1, sd'.node, a, there);
    WireStaysNamed(sd.out, sd'.out, sd.node.next, sd'.node.next, there);
  }

  /** Everything but the mail of the side is as before. */
  lemma NodeNamed(sd: Side, nd1: Node, nd': Node, a: Id, there: Id)
    requires IdsOk(sd, there) && Between(sd.node, nd1, a) && Adds(nd1, nd', a, NamedKind(sd.node.next, there))
    ensures IdsOk(sd.(node := nd'), there)
  {
    SideNamed(sd, sd.(node := nd'), nd1, a, there);
  }

  // ---------------------------------------------------------------- events

  lemma UserNamed(sd: Side, peer: Side, a: Id, cb: Callback, there: Id)
    requires SideOk(sd, peer) && EnabledOn(sd, peer, UserRun(false, a, cb)) && IdsOk(sd, there)
    ensures IdsOk(sd.(node := Run(sd.node, a, cb)), there)
  {
    var k := NamedKind(sd.node.next, there);
    forall e | e in cb.effects ensures EffectOf(a, e, k) {
      assert Honest(sd, e);
    }
    RunAdds(sd.node, a, cb, k);
    TakeBetween(sd.node, a);
    NodeNamed(sd, Take(sd.node, a), Run(sd.node, a, cb), a, there);
  }

  lemma SpawnNamed(sd: Side, there: Id)
    requires Inv(sd.node) && IdsOk(sd, there)
    ensures IdsOk(sd.(node := SpawnOne(sd.node, NOBODY)), there)
  {
    SpawnAdds(sd.node, NOBODY, NOBODY, NamedKind(sd.node.next, there));
    NodeNamed(sd, sd.node, SpawnOne(sd.node, NOBODY), NOBODY, there);
  }

  lemma TriggerNamed(sd: Side, to: Id, n: nat, there: Id)
    requires IdsOk(sd, there)
    ensures IdsOk(sd.(node := Queue(sd.node, to, Env(NOBODY, Data(n), Direct))), there)
  {
    var env := Env(NOBODY, Data(n), Direct);
    QueueAdds(sd.node, to, env, NOBODY, NamedKind(sd.node.next, there));
    NodeNamed(sd, sd.node, Queue(sd.node, to, env), NOBODY, there);
  }

  lemma ProxyEffectsNamed(sd: Side, p: Id, env: Env, there: Id)
    requires p in sd.remoteOf && p in sd.node.actors && sd.remoteOf[p] < there && env.from < sd.node.next
    ensures forall e :: e in ProxyCallback(sd, p, env).effects ==> EffectOf(p, e, NamedKind(sd.node.next, there))
  {
  }

  lemma ProxyNamed(sd: Side, p: Id, there: Id)
    requires Inv(sd.node) && IdsOk(sd, there) && p in sd.remoteOf && CanRun(sd.node, p)
    ensures IdsOk(sd.(node := AfterProxy(sd, p)), there)
  {
    assert HeadOf(sd, p).from < sd.node.next by {
      var x := sd.node.actors[p];
      assert Sound(x) && Known(sd.node.next, x);
      HeadAccepted(x);
    }
    ProxyEffectsNamed(sd, p, HeadOf(sd, p), there);
    RunAdds(sd.node, p, ProxyCallback(sd, p, HeadOf(sd, p)), NamedKind(sd.node.next, there));
    TakeBetween(sd.node, p);
    NodeNamed(sd, Take(sd.node, p), AfterProxy(sd, p), p, there);
  }

  lemma HeadAccepted(x: Actor)
    requires InOrder(x) && x.mailbox != []
    ensures x.mailbox[0] in x.accepted
  {
  }

  lemma EndpointNamed(sd: Side, there: Id)
    requires Running(sd.node, sd.ep) && !Exited(sd.node, sd.ep) && sd.node.actors[sd.ep].trap && CanRun(sd.node, sd.ep)
    requires IdsOk(sd, there)
    ensures IdsOk(RunEndpoint(sd), there)
  {
    var sd' := RunEndpoint(sd);
    assert Adds(Take(sd.node, sd.ep), sd'.node, sd.ep, NamedKind(sd.node.next, there)) by {
      EndpointRunAdds(sd, NamedKind(sd.node.next, there));
    }
    assert Between(sd.node, Take(sd.node, sd.ep), sd.ep) by { TakeBetween(sd.node, sd.ep); }
    EndpointWire(sd, there);
    SideNamed(sd, sd', Take(sd.node, sd.ep), sd.ep, there);
  }

  lemma EndpointWire(sd: Side, there: Id)
    requires CanRun(sd.node, sd.ep) && MailNamed(sd.node, there)
    ensures RunEndpoint(sd).remoteOf == sd.remoteOf
    ensures forall fr :: fr in RunEndpoint(sd).out ==> fr in sd.out || FrameNamed(fr, sd.node.next, there)
  {
    assert Named(HeadOf(sd, sd.ep).msg, sd.node.next, there);
  }

  lemma FailNamed(sd: Side, t: Text, tell: bool, there: Id)
    requires Running(sd.node, sd.ep) && IdsOk(sd, there)
    ensures IdsOk(FailEndpoint(sd, t, tell), there)
  {
    assert Adds(sd.node, FailEndpoint(sd, t, tell).node, sd.ep, NamedKind(sd.node.next, there)) by {
      EndpointFailAdds(sd, t, tell, NamedKind(sd.node.next, there));
    }
    FailWire(sd, t, tell, there);
    SideNamed(sd, FailEndpoint(sd, t, tell), sd.node, sd.ep, there);
  }

  lemma FailWire(sd: Side, t: Text, tell: bool, there: Id)
    ensures forall fr :: fr in FailEndpoint(sd, t, tell).out ==> fr in sd.out || FrameNamed(fr, sd.node.next, there)
    ensures FailEndpoint(sd, t, tell).remoteOf == sd.remoteOf
  {
    assert FailEndpoint(sd, t, tell).out == sd.out + (if tell then [ErrorFrame(t)] else []);
  }

  lemma DispatchNamed(sd: Side, fr: Frame, there: Id)
    requires FrameNamed(fr, there, sd.node.next) && ProxiesNamed(sd, there)
    ensures forall e :: e in Dispatch(sd, fr).1.effects ==> EffectOf(sd.ep, e, NamedKind(sd.node.next, there))
    ensures ProxiesNamed(Dispatch(sd, fr).0, there) && Dispatch(sd, fr).0.out == sd.out
  {
    forall e | e in Dispatch(sd, fr).1.effects ensures EffectOf(sd.ep, e, NamedKind(sd.node.next, there)) {
    }
  }

  lemma ArrivalNamed(sd: Side, fr: Frame, there: Id)
    requires Running(sd.node, sd.ep) && IdsOk(sd, there) && FrameNamed(fr, there, sd.node.next)
    ensures IdsOk(ReadFrame(sd, fr), there)
  {
    var nd1 := Put(sd.node, sd.ep, Entered(sd.node.actors[sd.ep]));
    DispatchNamed(sd, fr, there);
    assert Adds(nd1, ReadFrame(sd, fr).node, sd.ep, NamedKind(sd.node.next, there)) by {
      WireInAdds(sd, fr, NamedKind(sd.node.next, there));
    }
    ArrivalWire(sd, fr);
    SideNamed(sd, ReadFrame(sd, fr), nd1, sd.ep, there);
  }

  lemma ArrivalWire(sd: Side, fr: Frame)
    requires sd.ep in sd.node.actors
    ensures ReadFrame(sd, fr).out == Dispatch(sd, fr).0.out && ReadFrame(sd, fr).remoteOf == Dispatch(sd, fr).0.remoteOf
  {
  }

  lemma ReapNamed(sd: Side, a: Id, there: Id)
    requires IdsOk(sd, there) && a in sd.node.actors
    ensures IdsOk(sd.(node := Put(sd.node, a, sd.node.actors[a].(status := Gone))), there)
  {
    var nd' := Put(sd.node, a, sd.node.actors[a].(status := Gone));
    SameAdds(nd', nd', a, NamedKind(sd.node.next, there));
    NodeNamed(sd, nd', nd', a, there);
  }

  lemma LocalNamed(sd: Side, peer: Side, ev: NetEvent)
    requires SideOk(sd, peer) && EnabledOn(sd, peer, ev) && IdsOk(sd, peer.node.next) && IdsOk(peer, sd.node.next)
    ensures IdsOk(Local(sd, peer, ev), peer.node.next)
  {
    var there := peer.node.next;
    assert Running(sd.node, sd.ep) == Alive(sd.node, sd.ep);
    assert Alive(sd.node, sd.ep) ==> !Exited(sd.node, sd.ep) by { assert Sound(sd.node.actors[sd.ep]); }
    match ev {
      case UserRun(_, a, cb) => UserNamed(sd, peer, a, cb, there);
      case UserSpawn(_) => SpawnNamed(sd, there);
      case Trigger(_, to, n) => TriggerNamed(sd, to, n, there);
      case Register(_, name, a) =>
      case ProxyRun(_, p) => ProxyNamed(sd, p, there);
      case EndpointRun(_) => EndpointNamed(sd, there);
      case WireIn(_) => ArrivalNamed(sd, peer.out[0], there);
      case EndpointFail(_, t, tell) => FailNamed(sd, t, tell, there);
      case Reap(_, a) => ReapNamed(sd, a, there);
    }
  }

  /** Every event keeps ids within bounds on both sides. */
  lemma NetStepNamed(w: World, ev: NetEvent)
    requires RInv(w) && AllNamed(w)
    ensures AllNamed(NetStep(w, ev))
  {
    if Enabled(w, ev) {
      var sd, peer := Get(w, ev.s), Get(w, !ev.s);
      LocalNamed(sd, peer, ev);
      NetStepKeeps(w, ev);
      var sd' := Local(sd, peer, ev);
      assert sd.node.next <= sd'.node.next by { LocalKeeps(sd, peer, ev); }
      Renamed(peer, sd.node.next, sd'.node.next);
    }
  }
}
