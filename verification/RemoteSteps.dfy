/**
 Every event of the remote protocol keeps the invariant.
 */
module RemoteSteps {
  import opened Actors
  import opened Lifecycle
  import opened Mail
  import opened Remote
  import opened RemoteInv

  // ---------------------------------------------------------------- callbacks that only send

  predicate Sends(e: Effect) {
    e.SendTo? || e.LinkTo?
  }

  /** x and y agree on everything that decides how an actor receives. */
  predicate SameModes(x: Actor, y: Actor) {
    y.trap == x.trap && y.observe == x.observe && y.started == x.started && y.receiver == x.receiver
    && y.status == x.status && y.exits == x.exits && y.parent == x.parent
  }

  lemma {:induction false} SendsKeepModes(nd: Node, a: Id, es: seq<Effect>)
    requires a in nd.actors && forall e :: e in es ==> Sends(e)
    ensures SameModes(nd.actors[a], ApplyEffects(nd, a, es).0.actors[a])
    decreases |es|
  {
    if es != [] {
      var (nd1, failed) := ApplyEffect(nd, a, es[0]);
      assert Sends(es[0]);
      if !failed {
        SendsKeepModes(nd1, a, es[1..]);
      }
    }
  }

  lemma ExitModes(nd: Node, a: Id, r: Reason)
    requires Running(nd, a)
    ensures a in HandleExit(nd, a, r).actors
    ensures var y := HandleExit(nd, a, r).actors[a];
            && !y.status.Live? && y.trap == nd.actors[a].trap && y.observe == nd.actors[a].observe && y.started
            && y.parent == nd.actors[a].parent
            && y.exits != [] && y.exits[0].reason == r
  {
    var nd1 := MarkExit(nd, a, r);
    MarkExitCore(nd, a, r);
    NotifyAllAdds(nd1, nd.actors[a].links, ExitEnv(a, r), NOBODY, e => true);
    assert OnlyMail(nd1.actors[a], HandleExit(nd, a, r).actors[a]);
  }

  /** After a callback that only sends, the actor is alive with its receiver, or has exited with
      the callback's reason or because a send failed. */
  lemma InvokeOutcome(nd: Node, a: Id, cb: Callback)
    requires Running(nd, a) && nd.actors[a].receiver && forall e :: e in cb.effects ==> Sends(e)
    ensures a in Invoke(nd, a, cb).actors
    ensures var x, y := nd.actors[a], Invoke(nd, a, cb).actors[a];
            && y.trap == x.trap && y.observe == x.observe && y.started && y.parent == x.parent
            && (y.status.Live? ==> y.receiver && cb.result.Ok? && y.exits == [])
            && (y.exits != [] ==> !y.status.Live? && (y.exits[0].reason == DEAD_SEND || (cb.result.Err? && y.exits[0].reason == cb.result.reason)))
  {
    SendsKeepModes(nd, a, cb.effects);
    ApplyEffectsKeeps(nd, a, cb.effects);
    var (nd1, failed) := ApplyEffects(nd, a, cb.effects);
    assert Sound(nd.actors[a]);
    if failed {
      ExitModes(nd1, a, DEAD_SEND);
    } else if cb.result.Err? {
      ExitModes(nd1, a, cb.result.reason);
    }
  }

  // ---------------------------------------------------------------- proxies

  /** The state of a proxy after Taken, as Invoke finds it. */
  lemma ProxyTaken(sd: Side, peer: Side, p: Id)
    requires SideOk(sd, peer) && p in sd.remoteOf && CanRun(sd.node, p)
    ensures var x := sd.node.actors[p];
            OutcomeOf(x, x.mailbox[0]).Received? ==>
              Running(Take(sd.node, p), p) && x.status.Live? && (x.started ==> Taken(x).trap && Taken(x).observe && Taken(x).receiver)
  {
    assert ProxyOk(sd, peer, p);
    TakeKeeps(sd.node, p);
    TakenSound(sd.node.actors[p], sd.node.next);
  }

  function HeadOf(sd: Side, p: Id): Env
    requires CanRun(sd.node, p)
  {
    sd.node.actors[p].mailbox[0]
  }

  function AfterProxy(sd: Side, p: Id): Node
    requires p in sd.remoteOf && CanRun(sd.node, p)
  {
    Run(sd.node, p, ProxyCallback(sd, p, HeadOf(sd, p)))
  }

  /** A callback of a started proxy only sends. */
  lemma ProxySends(sd: Side, p: Id, env: Env)
    requires p in sd.remoteOf && p in sd.node.actors && sd.node.actors[p].started
    ensures forall e :: e in ProxyCallback(sd, p, env).effects ==> Sends(e)
  {
  }

  /** x is a proxy before its run and y after it: its modes are right, and if it exited then its
      callback said so or a send of its callback failed. */
  predicate ProxyRan(x: Actor, y: Actor, cb: Callback) {
    && ProxyModes(y)
    && (y.exits != [] && x.exits == [] ==> y.exits[0].reason == DEAD_SEND || (x.started && cb.result.Err? && y.exits[0].reason == cb.result.reason))
    && (x.status.Live? && x.started && cb.result.Err? ==> !y.status.Live?)
  }

  lemma ProxySelf(sd: Side, peer: Side, p: Id)
    requires SideOk(sd, peer) && p in sd.remoteOf && CanRun(sd.node, p)
    ensures p in AfterProxy(sd, p).actors
    ensures ProxyRan(sd.node.actors[p], AfterProxy(sd, p).actors[p], ProxyCallback(sd, p, HeadOf(sd, p)))
  {
    var cb := ProxyCallback(sd, p, HeadOf(sd, p));
    assert Sound(sd.node.actors[p]) && ProxyModes(sd.node.actors[p]) by { assert ProxyOk(sd, peer, p); }
    if sd.node.actors[p].started {
      ProxySends(sd, p, HeadOf(sd, p));
    }
    ProxyTaken(sd, peer, p);
    ProxyRuns(sd.node, p, cb);
  }

  lemma ProxyRuns(nd: Node, p: Id, cb: Callback)
    requires CanRun(nd, p) && Sound(nd.actors[p]) && ProxyModes(nd.actors[p])
    requires var x := nd.actors[p];
             OutcomeOf(x, x.mailbox[0]).Received? ==>
               Running(Take(nd, p), p) && x.status.Live? && (x.started ==> Taken(x).trap && Taken(x).observe && Taken(x).receiver)
    requires if nd.actors[p].started then forall e :: e in cb.effects ==> Sends(e)
             else cb == Callback([SetTrap(true), SetObserve(true), Receive], Ok)
    ensures p in Run(nd, p, cb).actors && ProxyRan(nd.actors[p], Run(nd, p, cb).actors[p], cb)
  {
    var x, nd1 := nd.actors[p], Take(nd, p);
    if OutcomeOf(x, x.mailbox[0]).Received? {
      if x.started {
        InvokeOutcome(nd1, p, cb);
      } else {
        FirstRun(nd1, p);
      }
    }
  }

  /** Proxy.init: trap and observe are on, the receiver is set, and nothing is sent. */
  lemma FirstRun(nd: Node, p: Id)
    requires p in nd.actors
    ensures var nd' := Invoke(nd, p, Callback([SetTrap(true), SetObserve(true), Receive], Ok));
            nd' == Put(nd, p, nd.actors[p].(trap := true, observe := true, receiver := true))
  {
    var es := [SetTrap(true), SetObserve(true), Receive];
    var nd1 := ApplyEffect(nd, p, es[0]).0;
    var nd2 := ApplyEffect(nd1, p, es[1]).0;
    assert es[1..][0] == es[1] && es[1..][1..] == [Receive];
    assert ApplyEffects(nd1, p, es[1..]) == ApplyEffects(nd2, p, [Receive]);
    var nd3 := ApplyEffect(nd2, p, Receive).0;
    assert [Receive][1..] == [];
    assert ApplyEffects(nd2, p, [Receive]) == ApplyEffects(nd3, p, []) == (nd3, false);
  }

  /** Messages that say nothing about exits. */
  predicate Bland(m: Msg) {
    !(m.Exit? && m.reason.Short?) && !m.EndpointExit? && !m.LocalLinkExit? && !m.ProxyExit?
  }

  predicate BlandEffect(e: Effect) {
    e.SendTo? ==> Bland(e.msg)
  }

  lemma ProxyBland(sd: Side, p: Id, env: Env)
    requires p in sd.remoteOf && p in sd.node.actors
    requires !(sd.node.actors[p].started && env.msg.Exit? && env.msg.reason.Short?)
    ensures forall e :: e in ProxyCallback(sd, p, env).effects ==> BlandEffect(e)
  {
  }

  lemma BlandSafe(a: Id, e: Effect, sd': Side, peer: Side)
    requires BlandEffect(e)
    ensures EffectOf(a, e, SafeKind(sd', peer))
  {
  }

  /** Everything a proxy sends is safe: it never makes up an exit. */
  lemma ProxySafe(sd: Side, peer: Side, p: Id, sd': Side)
    requires SideOk(sd, peer) && p in sd.remoteOf && CanRun(sd.node, p) && Alive(sd.node, p)
    requires sd' == sd.(node := sd'.node) && Later(sd.node, sd'.node)
    requires p in sd'.node.actors && ProxyRan(sd.node.actors[p], sd'.node.actors[p], ProxyCallback(sd, p, HeadOf(sd, p)))
    ensures forall e :: e in ProxyCallback(sd, p, HeadOf(sd, p)).effects ==> EffectOf(p, e, SafeKind(sd', peer))
  {
    var env := HeadOf(sd, p);
    if sd.node.actors[p].started && env.msg.Exit? && env.msg.reason.Short? {
      assert ProxyOk(sd, peer, p) && MailOk(sd, peer, p, env);
      ExitForwardSafe(sd, peer, p, sd', env);
    } else {
      ProxyBland(sd, p, env);
      forall e | e in ProxyCallback(sd, p, env).effects ensures EffectOf(p, e, SafeKind(sd', peer)) {
        BlandSafe(p, e, sd', peer);
      }
    }
  }

  lemma ExitForwardSafe(sd: Side, peer: Side, p: Id, sd': Side, env: Env)
    requires p in sd.remoteOf && ProxyOk(sd, peer, p) && ProxyMail(sd, peer, p, env) && Alive(sd.node, p) && sd.ep in sd.node.actors
    requires sd.node.actors[p].started && env.msg.Exit? && env.msg.reason.Short?
    requires sd' == sd.(node := sd'.node) && Later(sd.node, sd'.node)
    requires p in sd'.node.actors && ProxyRan(sd.node.actors[p], sd'.node.actors[p], ProxyCallback(sd, p, env))
    ensures forall e :: e in ProxyCallback(sd, p, env).effects ==> EffectOf(p, e, SafeKind(sd', peer))
  {
    assert Aged(sd.node.actors[sd.ep], sd'.node.actors[sd.ep]);
    if env.from != sd.ep {
      assert ExitedWith(sd'.node, env.from, env.msg.reason);
    }
  }

  lemma ProxyAdds(sd: Side, peer: Side, p: Id)
    requires SideOk(sd, peer) && p in sd.remoteOf && CanRun(sd.node, p)
    ensures Adds(Take(sd.node, p), AfterProxy(sd, p), p, SafeKind(sd.(node := AfterProxy(sd, p)), peer))
    ensures Later(sd.node, AfterProxy(sd, p))
  {
    var cb, nd' := ProxyCallback(sd, p, HeadOf(sd, p)), AfterProxy(sd, p);
    var sd' := sd.(node := nd');
    RunLater(sd.node, p, cb);
    ProxySelf(sd, peer, p);
    assert Sound(sd.node.actors[p]) && p != sd.ep by { assert ProxyOk(sd, peer, p); }
    if Alive(sd.node, p) {
      ProxySafe(sd, peer, p, sd');
    }
    RunAdds(sd.node, p, cb, SafeKind(sd', peer));
  }

  lemma ProxyStillOk(sd: Side, peer: Side, p: Id)
    requires SideOk(sd, peer) && p in sd.remoteOf && CanRun(sd.node, p)
    ensures ProxyOk(sd.(node := AfterProxy(sd, p)), peer, p)
  {
    var cb, nd' := ProxyCallback(sd, p, HeadOf(sd, p)), AfterProxy(sd, p);
    assert ProxyOk(sd, peer, p) && MailOk(sd, peer, p, HeadOf(sd, p)) && Sound(sd.node.actors[p]);
    RunLater(sd.node, p, cb);
    ProxySelf(sd, peer, p);
    assert Aged(sd.node.actors[p], nd'.actors[p]);
    assert Aged(sd.node.actors[sd.ep], nd'.actors[sd.ep]);
  }

  function NoProxyExit(): Kind {
    (e: Env) => !e.msg.ProxyExit?
  }

  lemma NotLeaving(sd: Side, p: Id, env: Env)
    requires p in sd.remoteOf && p in sd.node.actors && !Leaving(sd, p, env)
    ensures forall e :: e in ProxyCallback(sd, p, env).effects ==> EffectOf(p, e, NoProxyExit())
  {
  }

  lemma ProxyEndpoint(sd: Side, peer: Side, p: Id)
    requires SideOk(sd, peer) && p in sd.remoteOf && CanRun(sd.node, p)
    ensures sd.ep in AfterProxy(sd, p).actors && EndpointOk(AfterProxy(sd, p).actors[sd.ep])
  {
    if Leaving(sd, p, HeadOf(sd, p)) && OutcomeOf(sd.node.actors[p], HeadOf(sd, p)).Received? {
      ProxyLeaves(sd, peer, p);
    } else {
      ProxyRemains(sd, peer, p);
    }
  }

  lemma ProxyRemains(sd: Side, peer: Side, p: Id)
    requires SideOk(sd, peer) && p in sd.remoteOf && CanRun(sd.node, p)
    requires !Leaving(sd, p, HeadOf(sd, p)) || !OutcomeOf(sd.node.actors[p], HeadOf(sd, p)).Received?
    ensures sd.ep in AfterProxy(sd, p).actors && EndpointOk(AfterProxy(sd, p).actors[sd.ep])
  {
    assert p != sd.ep by { assert ProxyOk(sd, peer, p); }
    var cb := ProxyCallback(sd, p, HeadOf(sd, p));
    if !Leaving(sd, p, HeadOf(sd, p)) {
      NotLeaving(sd, p, HeadOf(sd, p));
    }
    TakeBetween(sd.node, p);
    RunAdds(sd.node, p, cb, NoProxyExit());
    EndpointKept(sd.node, Take(sd.node, p), AfterProxy(sd, p), p, sd.ep, NoProxyExit());
  }

  /** The proxy is told by its endpoint that the remote actor exited. */
  predicate Leaving(sd: Side, p: Id, env: Env)
    requires p in sd.node.actors
  {
    sd.node.actors[p].started && env.msg.Exit? && env.msg.reason.Short? && env.from == sd.ep
  }

  /** A callback that tells the endpoint and exits queues the notice once. */
  lemma LeaveOnce(nd: Node, p: Id, ep: Id, k: Id, r: Reason)
    requires Running(nd, p) && ep in nd.actors && ep != p && EndpointOk(nd.actors[ep])
    requires Alive(nd, ep) ==> forall e :: e in nd.actors[ep].mailbox ==> e.msg != ProxyExit(k)
    ensures var nd' := Invoke(nd, p, Callback([SendTo(ep, ProxyExit(k), Direct, false)], Err(r)));
            ep in nd'.actors && EndpointOk(nd'.actors[ep])
  {
    var es := [SendTo(ep, ProxyExit(k), Direct, false)];
    var nd2 := if Alive(nd, ep) then Queue(nd, ep, Env(p, ProxyExit(k), Direct)) else nd;
    assert es[1..] == [];
    assert ApplyEffects(nd, p, es) == (nd2, false);
    ApplyEffectsKeeps(nd, p, es);
    HandleExitAdds(nd2, p, r, NoProxyExit());
    var nd' := HandleExit(nd2, p, r);
    assert OnlyMail(nd2.actors[ep], nd'.actors[ep]);
    OnceEachGrows(nd2.actors[ep].mailbox, New(nd2.actors[ep], nd'.actors[ep]));
  }

  lemma ProxyLeaves(sd: Side, peer: Side, p: Id)
    requires SideOk(sd, peer) && p in sd.remoteOf && CanRun(sd.node, p)
    requires Leaving(sd, p, HeadOf(sd, p)) && OutcomeOf(sd.node.actors[p], HeadOf(sd, p)).Received?
    ensures sd.ep in AfterProxy(sd, p).actors && EndpointOk(AfterProxy(sd, p).actors[sd.ep])
  {
    var nd1, ep := Take(sd.node, p), sd.ep;
    assert p != ep by { assert ProxyOk(sd, peer, p); }
    ProxyTaken(sd, peer, p);
    assert nd1.actors[ep] == sd.node.actors[ep];
    if Alive(nd1, ep) {
      NoneQueued(sd, peer, p);
    }
    LeaveOnce(nd1, p, ep, sd.remoteOf[p], HeadOf(sd, p).msg.reason);
  }

  /** While a proxy is alive, its endpoint has no ProxyExit for it. */
  lemma NoneQueued(sd: Side, peer: Side, p: Id)
    requires SideOk(sd, peer) && p in sd.remoteOf && Alive(sd.node, p) && Alive(sd.node, sd.ep)
    ensures forall e :: e in sd.node.actors[sd.ep].mailbox ==> e.msg != ProxyExit(sd.remoteOf[p])
  {
    forall e | e in sd.node.actors[sd.ep].mailbox ensures e.msg != ProxyExit(sd.remoteOf[p]) {
      assert MailOk(sd, peer, sd.ep, e) && ProxyOk(sd, peer, p);
    }
  }

  lemma ProxyRunKeeps(sd: Side, peer: Side, p: Id)
    requires SideOk(sd, peer) && p in sd.remoteOf && CanRun(sd.node, p)
    ensures SideOk(sd.(node := AfterProxy(sd, p)), peer) && Later(sd.node, AfterProxy(sd, p))
  {
    RunKeeps(sd.node, p, ProxyCallback(sd, p, HeadOf(sd, p)));
    TakeBetween(sd.node, p);
    ProxyAdds(sd, peer, p);
    ProxyStillOk(sd, peer, p);
    ProxyEndpoint(sd, peer, p);
    SideRuns(sd, sd.(node := AfterProxy(sd, p)), peer, p, Take(sd.node, p));
  }
}
