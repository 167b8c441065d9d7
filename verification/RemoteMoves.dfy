/**
 What one event of the remote protocol leaves in place: mail stays queued except for the first
 envelope of the actor that runs, and logs of accepted mail only grow.
 */
module RemoteMoves {
  import opened Actors
  import opened Lifecycle
  import opened Mail
  import opened Remote
  import opened RemoteInv
  import opened RemoteSteps
  import opened RemoteEndpoint

  /** The actor whose code an event runs. */
  function Runner(sd: Side, ev: NetEvent): Id {
    match ev
    case UserRun(_, a, _) => a
    case ProxyRun(_, p) => p
    case EndpointRun(_) => sd.ep
    case WireIn(_) => sd.ep
    case EndpointFail(_, _, _) => sd.ep
    case Reap(_, a) => a
    case _ => NOBODY
  }

  predicate TakesMail(ev: NetEvent) {
    ev.UserRun? || ev.ProxyRun? || ev.EndpointRun?
  }

  /** The node once the runner has taken its envelope, before its code runs. */
  function Begun(sd: Side, peer: Side, ev: NetEvent): Node
    requires EnabledOn(sd, peer, ev) && sd.ep in sd.node.actors
  {
    match ev
    case UserRun(_, a, _) => Take(sd.node, a)
    case ProxyRun(_, p) => Take(sd.node, p)
    case EndpointRun(_) => Take(sd.node, sd.ep)
    case WireIn(_) => Put(sd.node, sd.ep, Entered(sd.node.actors[sd.ep]))
    case Reap(_, a) => Put(sd.node, a, sd.node.actors[a].(status := Gone))
    case _ => sd.node
  }

  lemma AddsByNobody(nd: Node, nd': Node, a: Id, k: Kind)
    requires Adds(nd, nd', NOBODY, k) && NOBODY !in nd.actors
    ensures Adds(nd, nd', a, k)
  {
  }

  /** Exit messages and farewells of the endpoint are of kind k. */
  ghost predicate Parting(ep: Id, k: Kind) {
    k(FAREWELL) && forall r :: k(ExitEnv(ep, r))
  }

  lemma ThenBury(nd: Node, sd: Side, a: Id, k: Kind)
    requires Adds(nd, sd.node, a, k) && Core(sd.node) && k(FAREWELL)
    ensures Adds(nd, Bury(sd).node, a, k)
  {
    BuryAdds(sd, k);
    AddsByNobody(sd.node, Bury(sd).node, a, k);
    AddsTransitive(nd, sd.node, Bury(sd).node, a, k);
  }

  lemma EndpointRunAdds(sd: Side, k: Kind)
    requires Inv(sd.node) && CanRun(sd.node, sd.ep) && !Exited(sd.node, sd.ep) && sd.node.actors[sd.ep].trap && Parting(sd.ep, k)
    ensures Adds(Take(sd.node, sd.ep), RunEndpoint(sd).node, sd.ep, k)
  {
    var m := HeadOf(sd, sd.ep).msg;
    RunAdds(sd.node, sd.ep, EndpointCallback(m), k);
    RunKeeps(sd.node, sd.ep, EndpointCallback(m));
    ThenBury(Take(sd.node, sd.ep),
             sd.(node := Run(sd.node, sd.ep, EndpointCallback(m)), out := sd.out + FramesFor(m),
                 table := if m.ProxyExit? then sd.table - {m.remote} else sd.table), sd.ep, k);
  }

  lemma EnterRunning(nd: Node, a: Id)
    requires Running(nd, a)
    ensures Running(Put(nd, a, Entered(nd.actors[a])), a)
  {
    var x, y := nd.actors[a], Entered(nd.actors[a]);
    assert Sound(x) && Known(nd.next, x);
    assert Sound(y) && Known(nd.next, y);
    PutKeeps(nd, a, y, NOBODY);
  }

  lemma WireInAdds(sd: Side, fr: Frame, k: Kind)
    requires Running(sd.node, sd.ep) && Parting(sd.ep, k)
    requires forall e :: e in Dispatch(sd, fr).1.effects ==> EffectOf(sd.ep, e, k)
    ensures Adds(Put(sd.node, sd.ep, Entered(sd.node.actors[sd.ep])), ReadFrame(sd, fr).node, sd.ep, k)
  {
    EnterRunning(sd.node, sd.ep);
    var nd1 := Put(sd.node, sd.ep, Entered(sd.node.actors[sd.ep]));
    var (sd2, cb) := Dispatch(sd, fr);
    InvokeAdds(nd1, sd.ep, cb, k);
    InvokeKeeps(nd1, sd.ep, cb);
    ThenBury(nd1, sd2.(node := Invoke(nd1, sd.ep, cb)), sd.ep, k);
  }

  lemma EndpointFailAdds(sd: Side, t: Text, tell: bool, k: Kind)
    requires Running(sd.node, sd.ep) && Parting(sd.ep, k)
    ensures Adds(sd.node, FailEndpoint(sd, t, tell).node, sd.ep, k)
  {
    HandleExitAdds(sd.node, sd.ep, Short(t), k);
    ExitRunning(sd.node, sd.ep, Short(t));
    ThenBury(sd.node, sd.(node := HandleExit(sd.node, sd.ep, Short(t)),
                          out := if tell then sd.out + [ErrorFrame(t)] else sd.out), sd.ep, k);
  }

  lemma RunMoves(nd: Node, a: Id, cb: Callback)
    requires Inv(nd) && CanRun(nd, a)
    ensures Adds(Take(nd, a), Run(nd, a, cb), a, e => true) && Between(nd, Take(nd, a), a)
  {
    TakeBetween(nd, a);
    RunAdds(nd, a, cb, e => true);
  }

  lemma EndpointAdds(sd: Side, peer: Side, ev: NetEvent)
    requires SideOk(sd, peer) && EnabledOn(sd, peer, ev) && (ev.EndpointRun? || ev.WireIn? || ev.EndpointFail?)
    ensures Adds(Begun(sd, peer, ev), Local(sd, peer, ev).node, sd.ep, e => true)
    ensures Between(sd.node, Begun(sd, peer, ev), sd.ep)
  {
    assert Running(sd.node, sd.ep) && !Exited(sd.node, sd.ep) by { assert Sound(sd.node.actors[sd.ep]); }
    match ev {
      case EndpointRun(_) => TakeBetween(sd.node, sd.ep); EndpointRunAdds(sd, e => true);
      case WireIn(_) => WireInAdds(sd, peer.out[0], e => true);
      case EndpointFail(_, t, tell) => EndpointFailAdds(sd, t, tell, e => true);
    }
  }

  /** Every event only adds mail, once the runner has taken its own. */
  lemma LocalAdds(sd: Side, peer: Side, ev: NetEvent)
    requires SideOk(sd, peer) && EnabledOn(sd, peer, ev)
    ensures Adds(Begun(sd, peer, ev), Local(sd, peer, ev).node, Runner(sd, ev), e => true)
    ensures Between(sd.node, Begun(sd, peer, ev), Runner(sd, ev))
  {
    match ev {
      case UserSpawn(_) => SpawnAdds(sd.node, NOBODY, NOBODY, e => true);
      case Trigger(_, to, n) => QueueAdds(sd.node, to, Env(NOBODY, Data(n), Direct), NOBODY, e => true);
      case Register(_, name, a) => SameAdds(sd.node, sd.node, NOBODY, e => true);
      case Reap(_, a) => SameAdds(Begun(sd, peer, ev), Begun(sd, peer, ev), a, e => true);
      case UserRun(_, a, cb) => RunMoves(sd.node, a, cb);
      case ProxyRun(_, p) => RunMoves(sd.node, p, ProxyCallback(sd, p, HeadOf(sd, p)));
      case _ => EndpointAdds(sd, peer, ev);
    }
  }

  lemma AddsRemain(nd1: Node, nd': Node, a: Id, b: Id, e: Env)
    requires Adds(nd1, nd', a, e => true) && b in nd1.actors
    ensures b in nd'.actors
    ensures e in nd1.actors[b].mailbox ==> e in nd'.actors[b].mailbox
  {
    assert AddsAt(nd1.actors[b], nd'.actors[b]);
  }

  lemma BegunMail(sd: Side, peer: Side, ev: NetEvent, b: Id)
    requires EnabledOn(sd, peer, ev) && b in sd.node.actors && sd.ep in sd.node.actors
    ensures var nd1 := Begun(sd, peer, ev);
            && b in nd1.actors && nd1.actors[b].accepted == sd.node.actors[b].accepted
            && nd1.actors[b].mailbox == (if b == Runner(sd, ev) && TakesMail(ev) then sd.node.actors[b].mailbox[1..] else sd.node.actors[b].mailbox)
  {
  }

  /** Mail stays queued unless it is the first envelope of the actor that runs. */
  lemma MailRemains(sd: Side, peer: Side, ev: NetEvent, b: Id, e: Env)
    requires SideOk(sd, peer) && EnabledOn(sd, peer, ev) && b in sd.node.actors && e in sd.node.actors[b].mailbox
    requires b == Runner(sd, ev) && TakesMail(ev) ==> e in sd.node.actors[b].mailbox[1..]
    ensures var nd' := Local(sd, peer, ev).node; b in nd'.actors && e in nd'.actors[b].mailbox
  {
    BegunMail(sd, peer, ev, b);
    LocalAdds(sd, peer, ev);
    AddsRemain(Begun(sd, peer, ev), Local(sd, peer, ev).node, Runner(sd, ev), b, e);
  }

  lemma AcceptedGrows(sd: Side, peer: Side, ev: NetEvent, b: Id)
    requires SideOk(sd, peer) && EnabledOn(sd, peer, ev) && b in sd.node.actors
    ensures var nd' := Local(sd, peer, ev).node; b in nd'.actors && sd.node.actors[b].accepted <= nd'.actors[b].accepted
  {
    BegunMail(sd, peer, ev, b);
    LocalAdds(sd, peer, ev);
    assert AddsAt(Begun(sd, peer, ev).actors[b], Local(sd, peer, ev).node.actors[b]);
  }

  /** An actor that does not run changes only in its mail. */
  lemma OthersKeep(sd: Side, peer: Side, ev: NetEvent, b: Id)
    requires SideOk(sd, peer) && EnabledOn(sd, peer, ev) && b in sd.node.actors && b != Runner(sd, ev)
    ensures var nd' := Local(sd, peer, ev).node; b in nd'.actors && OnlyMail(sd.node.actors[b], nd'.actors[b])
  {
    LocalAdds(sd, peer, ev);
  }

  predicate Extends(sd: Side, sd': Side) {
    && sd'.ep == sd.ep
    && (forall p :: p in sd.remoteOf ==> p in sd'.remoteOf && sd'.remoteOf[p] == sd.remoteOf[p])
    && sd.out <= sd'.out
  }

  lemma DispatchExtends(sd: Side, peer: Side, fr: Frame)
    requires SideOk(sd, peer)
    ensures Extends(sd, Dispatch(sd, fr).0)
  {
    assert forall p :: p in sd.remoteOf ==> ProxyOk(sd, peer, p);
  }

  /** Proxies keep their remote ids, and the outgoing wire is only appended to. */
  lemma LocalExtends(sd: Side, peer: Side, ev: NetEvent)
    requires SideOk(sd, peer) && EnabledOn(sd, peer, ev)
    ensures Extends(sd, Local(sd, peer, ev))
  {
    if ev.WireIn? {
      DispatchExtends(sd, peer, peer.out[0]);
    }
  }

  // ---------------------------------------------------------------- callbacks with one effect

  /** A callback that makes one send which succeeds. */
  lemma OneSend(nd: Node, a: Id, to: Id, m: Msg, via: SendVia, must: bool)
    requires a in nd.actors && nd.actors[a].receiver && Alive(nd, to)
    ensures Invoke(nd, a, Callback([SendTo(to, m, via, must)], Ok)) == Queue(nd, to, Env(a, m, via))
  {
    var es := [SendTo(to, m, via, must)];
    var nd' := Queue(nd, to, Env(a, m, via));
    assert es[1..] == [];
    assert ApplyEffect(nd, a, es[0]) == (nd', false);
    assert ApplyEffects(nd, a, es) == ApplyEffects(nd', a, []) == (nd', false);
  }

  /** A live proxy sees everything but its first wake-up and its parent's link in receive_safe. */
  lemma ProxyReceives(sd: Side, peer: Side, p: Id)
    requires SideOk(sd, peer) && p in sd.remoteOf && CanRun(sd.node, p) && Alive(sd.node, p)
    requires !HeadOf(sd, p).msg.Null? && !HeadOf(sd, p).msg.Link?
    ensures sd.node.actors[p].started && OutcomeOf(sd.node.actors[p], HeadOf(sd, p)).Received?
    ensures Taken(sd.node.actors[p]).receiver
  {
    assert ProxyOk(sd, peer, p) && Sound(sd.node.actors[p]);
  }

  /** A `must` send to a dying actor ends the sender. */
  lemma OneFailure(nd: Node, a: Id, to: Id, m: Msg, via: SendVia)
    requires Running(nd, a) && SendFails(nd, to, m)
    ensures var nd' := Invoke(nd, a, Callback([SendTo(to, m, via, true)], Ok));
            nd' == HandleExit(nd, a, DEAD_SEND) && !Alive(nd', a) && ExitedWith(nd', a, DEAD_SEND)
  {
    var es := [SendTo(to, m, via, true)];
    assert ApplyEffect(nd, a, es[0]) == (nd, true);
    assert ApplyEffects(nd, a, es) == (nd, true);
    ExitModes(nd, a, DEAD_SEND);
  }

  lemma NoEffect(nd: Node, a: Id)
    requires a in nd.actors && nd.actors[a].receiver
    ensures Invoke(nd, a, Callback([], Ok)) == nd
  {
  }

  /** While it stays alive the endpoint changes nothing but its mailbox, table and wire. */
  lemma EndpointRunExact(sd: Side, peer: Side)
    requires SideOk(sd, peer) && Alive(sd.node, sd.ep) && CanRun(sd.node, sd.ep) && Alive(RunEndpoint(sd).node, sd.ep)
    ensures var m := HeadOf(sd, sd.ep).msg;
            RunEndpoint(sd) == sd.(node := Take(sd.node, sd.ep), out := sd.out + FramesFor(m),
                                   table := if m.ProxyExit? then sd.table - {m.remote} else sd.table)
  {
    var m, nd1 := HeadOf(sd, sd.ep).msg, Take(sd.node, sd.ep);
    var sd2 := sd.(node := nd1, out := sd.out + FramesFor(m), table := if m.ProxyExit? then sd.table - {m.remote} else sd.table);
    RunEndpointSplits(sd, sd2);
    if !m.Link? {
      if EndpointCallback(m).result.Ok? {
        NoEffect(nd1, sd.ep);
      } else {
        EndpointTakes(sd, peer);
        UnexpectedEnds(nd1, sd.ep);
        BurySparesNode(sd2.(node := Invoke(nd1, sd.ep, EndpointCallback(m))));
        assert false;
      }
    }
  }

  lemma UnexpectedEnds(nd: Node, ep: Id)
    requires Running(nd, ep)
    ensures !Alive(Invoke(nd, ep, Callback([], Err(UNEXPECTED))), ep)
  {
    ExitModes(nd, ep, UNEXPECTED);
  }

  lemma BurySparesNode(sd: Side)
    requires !Alive(sd.node, sd.ep)
    ensures !Alive(Bury(sd).node, sd.ep)
  {
  }
}
