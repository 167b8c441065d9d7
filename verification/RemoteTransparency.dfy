/**
 Every event keeps every open lane, so transparency holds over all runs.
 */
module RemoteTransparency {
  import opened Actors
  import opened Lifecycle
  import opened Mail
  import opened Remote
  import opened RemoteInv
  import opened RemoteSteps
  import opened RemoteMoves
  import opened RemoteLanes

  // ---------------------------------------------------------------- what is common to all events

  /** The entry for k, if any, is a proxy of this side for k. */
  predicate EntryOk(sd: Side, k: Id) {
    k in sd.table ==>
      sd.table[k] in sd.remoteOf && sd.remoteOf[sd.table[k]] == k && sd.table[k] in sd.node.actors && sd.table[k] != sd.ep
  }

  lemma EntryIsProxy(sd: Side, peer: Side, k: Id)
    requires SideOk(sd, peer)
    ensures EntryOk(sd, k)
  {
    if k in sd.table {
      assert ProxyOk(sd, peer, sd.table[k]);
    }
  }

  /** Someone other than a proxy or the endpoint runs, and adds only mail of users. */
  lemma UserMoves(src: Side, dst: Side, nd1: Node, nd': Node, a: Id, x: Id, y: Id)
    requires EntryOk(src, y) && src.ep in src.node.actors && Lane(src, dst, x, y)
    requires Between(src.node, nd1, a) && Adds(nd1, nd', a, UserKind(a, nd')) && a != src.ep && a !in src.remoteOf
    ensures Lane(src.(node := nd'), dst, x, y)
  {
    assert SameEntry(src, src.(node := nd'), nd1, y);
    SourceQuiet(src, src.(node := nd'), dst, nd1, a, UserKind(a, nd'), x, y);
  }

  lemma UserMovesTarget(src: Side, dst: Side, nd1: Node, nd': Node, a: Id, x: Id, y: Id)
    requires EntryOk(dst, x) && Lane(src, dst, x, y) && y in dst.node.actors
    requires Between(dst.node, nd1, a) && Adds(nd1, nd', a, UserKind(a, nd')) && a != dst.ep && a !in dst.remoteOf
    requires a in dst.node.actors ==> nd1.actors[a].accepted == dst.node.actors[a].accepted
    ensures Lane(src, dst.(node := nd'), x, y)
  {
    assert SameEntry(dst, dst.(node := nd'), nd1, x);
    TargetQuiet(src, dst, dst.(node := nd'), nd1, a, UserKind(a, nd'), x, y);
  }

  /** Events of users and of the outside world, on either side of the lane. */
  lemma OutsideEvent(sd: Side, peer: Side, ev: NetEvent) returns (nd1: Node, a: Id)
    requires SideOk(sd, peer) && EnabledOn(sd, peer, ev) && (ev.UserRun? || ev.UserSpawn? || ev.Trigger?)
    ensures var nd' := Local(sd, peer, ev).node;
            && Between(sd.node, nd1, a) && Adds(nd1, nd', a, UserKind(a, nd')) && a != sd.ep && a !in sd.remoteOf
            && (a in sd.node.actors ==> nd1.actors[a].accepted == sd.node.actors[a].accepted)
            && Local(sd, peer, ev) == sd.(node := nd')
  {
    var nd' := Local(sd, peer, ev).node;
    if ev.UserRun? {
      a, nd1 := ev.who, Take(sd.node, ev.who);
      TakeBetween(sd.node, a);
      UserRunAdds(sd, peer, a, ev.callback);
    } else {
      a, nd1 := NOBODY, sd.node;
      assert NOBODY in sd.remoteOf ==> ProxyOk(sd, peer, NOBODY);
      if ev.UserSpawn? {
        SpawnAdds(sd.node, NOBODY, NOBODY, UserKind(NOBODY, nd'));
      } else {
        QueueAdds(sd.node, ev.to, Env(NOBODY, Data(ev.n), Direct), NOBODY, UserKind(NOBODY, nd'));
      }
    }
  }

  // ---------------------------------------------------------------- proxies, sender's side

  /** Taking an envelope that is not for the lane. */
  lemma SourcePops(src: Side, dst: Side, p: Id, x: Id, y: Id)
    requires Lane(src, dst, x, y) && p != src.ep && CanRun(src.node, p)
    requires y in src.table && src.table[y] == p ==> FromActor(x)(HeadOf(src, p)) == []
    ensures Lane(src.(node := Take(src.node, p)), dst, x, y)
  {
    var src', e := src.(node := Take(src.node, p)), HeadOf(src, p);
    assert Log(src, y) == Log(src', y) && EndpointBox(src') == EndpointBox(src);
    if y in src.table && src.table[y] == p {
      PickHead(Box(src, y), FromActor(x));
    } else {
      assert Box(src, y) == Box(src', y);
    }
  }

  lemma PickHead<T>(q: seq<T>, f: T -> seq<Payload>)
    requires q != [] && f(q[0]) == []
    ensures Pick(q[1..], f) == Pick(q, f)
  {
  }

  predicate Forwards(sd: Side, p: Id)
    requires CanRun(sd.node, p)
  {
    Alive(sd.node, p) && PayloadOf(HeadOf(sd, p).msg) != []
  }

  lemma NoSendEffects(sd: Side, p: Id, env: Env)
    requires p in sd.remoteOf && p in sd.node.actors && PayloadOf(env.msg) == []
    ensures forall e :: e in ProxyCallback(sd, p, env).effects ==> EffectOf(p, e, NotSend())
  {
  }

  lemma ProxyQuietSource(src: Side, dst: Side, p: Id, x: Id, y: Id)
    requires SideOk(src, dst) && p in src.remoteOf && CanRun(src.node, p) && !Forwards(src, p)
    requires Lane(src.(node := Take(src.node, p)), dst, x, y) && (y in src.table ==> src.table[y] in src.node.actors)
    ensures Lane(src.(node := AfterProxy(src, p)), dst, x, y)
  {
    var cb, nd1 := ProxyCallback(src, p, HeadOf(src, p)), Take(src.node, p);
    assert Sound(src.node.actors[p]) by { assert ProxyOk(src, dst, p); }
    if Alive(src.node, p) {
      NoSendEffects(src, p, HeadOf(src, p));
    }
    RunAdds(src.node, p, cb, NotSend());
    SourceQuiet(src.(node := nd1), src.(node := AfterProxy(src, p)), dst, nd1, p, NotSend(), x, y);
  }

  lemma ProxyForwardsExact(src: Side, dst: Side, p: Id)
    requires SideOk(src, dst) && p in src.remoteOf && CanRun(src.node, p) && Forwards(src, p) && Alive(src.node, src.ep)
    ensures var e := HeadOf(src, p);
            AfterProxy(src, p) == Queue(Take(src.node, p), src.ep, Env(p, Send(e.from, src.remoteOf[p], PayloadOf(e.msg)[0]), Direct))
  {
    var e := HeadOf(src, p);
    ProxyReceives(src, dst, p);
    assert p != src.ep by { assert ProxyOk(src, dst, p); }
    OneSend(Take(src.node, p), p, src.ep, Send(e.from, src.remoteOf[p], PayloadOf(e.msg)[0]), Direct, true);
  }

  lemma ForwardingSource(src: Side, dst: Side, p: Id, nd': Node, x: Id, y: Id)
    requires TableOk(src) && p in src.remoteOf && InTable(src, p) && p != src.ep && CanRun(src.node, p) && EntryOk(src, y)
    requires src.ep !in src.remoteOf && Alive(src.node, src.ep) && PayloadOf(HeadOf(src, p).msg) != [] && Lane(src, dst, x, y)
    requires var e := HeadOf(src, p);
             nd' == Queue(Take(src.node, p), src.ep, Env(p, Send(e.from, src.remoteOf[p], PayloadOf(e.msg)[0]), Direct))
    ensures Lane(src.(node := nd'), dst, x, y)
  {
    SourceForwards(src, src.(node := nd'), dst, Take(src.node, p), p, HeadOf(src, p), x, y);
  }

  lemma ProxySource(src: Side, dst: Side, p: Id, x: Id, y: Id)
    requires SideOk(src, dst) && p in src.remoteOf && CanRun(src.node, p) && Lane(src, dst, x, y)
    requires Alive(src.node, src.ep) && ProxyUp(src, y)
    ensures Lane(src.(node := AfterProxy(src, p)), dst, x, y)
  {
    EntryIsProxy(src, dst, y);
    assert ProxyOk(src, dst, p);
    if Forwards(src, p) {
      ProxyForwardsExact(src, dst, p);
      ForwardingSource(src, dst, p, AfterProxy(src, p), x, y);
    } else {
      SourcePops(src, dst, p, x, y);
      ProxyQuietSource(src, dst, p, x, y);
    }
  }

  // ---------------------------------------------------------------- proxies, receiver's side

  lemma TargetPops(src: Side, dst: Side, p: Id, x: Id, y: Id)
    requires Lane(src, dst, x, y) && CanRun(dst.node, p)
    requires x in dst.table && dst.table[x] == p ==> ForPid(y)(HeadOf(dst, p)) == []
    ensures Lane(src, dst.(node := Take(dst.node, p)), x, y)
  {
    var dst' := dst.(node := Take(dst.node, p));
    assert Delivered(dst, x, y) == Delivered(dst', x, y);
    if x in dst.table && dst.table[x] == p {
      PickHead(Box(dst, x), ForPid(y));
    } else {
      assert Box(dst, x) == Box(dst', x);
    }
  }

  function OwnRelays(p: Id): Kind {
    (e: Env) => !e.msg.DeliverPid? && (e.via.ByPid? ==> e.from == p)
  }

  lemma RelayEffects(sd: Side, p: Id, env: Env)
    requires p in sd.remoteOf && p in sd.node.actors
    ensures forall e :: e in ProxyCallback(sd, p, env).effects ==> EffectOf(p, e, OwnRelays(p))
  {
  }

  lemma NoRelayEffects(sd: Side, p: Id, env: Env)
    requires p in sd.remoteOf && p in sd.node.actors && !env.msg.DeliverPid?
    ensures forall e :: e in ProxyCallback(sd, p, env).effects ==> EffectOf(p, e, NotPid())
  {
  }

  lemma ProxyRunAdds(dst: Side, src: Side, p: Id, kind: Kind)
    requires SideOk(dst, src) && p in dst.remoteOf && CanRun(dst.node, p)
    requires forall e :: e in ProxyCallback(dst, p, HeadOf(dst, p)).effects ==> EffectOf(p, e, kind)
    requires forall r :: kind(ExitEnv(p, r))
    ensures Adds(Take(dst.node, p), AfterProxy(dst, p), p, kind)
  {
    RunAdds(dst.node, p, ProxyCallback(dst, p, HeadOf(dst, p)), kind);
  }

  lemma AfterTakeTarget(src: Side, dst: Side, nd1: Node, nd': Node, p: Id, kind: Kind, x: Id, y: Id)
    requires Lane(src, dst.(node := nd1), x, y) && y in nd1.actors && Adds(nd1, nd', p, kind)
    requires x in dst.table ==> dst.table[x] in nd1.actors && forall e :: kind(e) ==> Relayed(dst.table[x])(e) == []
    requires forall e :: kind(e) ==> !e.msg.DeliverPid?
    ensures Lane(src, dst.(node := nd'), x, y)
  {
    TargetQuiet(src, dst.(node := nd1), dst.(node := nd'), nd1, p, kind, x, y);
  }

  /** A proxy other than the one for x runs. */
  lemma OtherProxyTarget(src: Side, dst: Side, p: Id, x: Id, y: Id)
    requires SideOk(dst, src) && p in dst.remoteOf && CanRun(dst.node, p) && y in dst.node.actors
    requires Lane(src, dst.(node := Take(dst.node, p)), x, y) && (x in dst.table ==> dst.table[x] != p && dst.table[x] in dst.node.actors)
    ensures Lane(src, dst.(node := AfterProxy(dst, p)), x, y)
  {
    assert Adds(Take(dst.node, p), AfterProxy(dst, p), p, OwnRelays(p)) by {
      RelayEffects(dst, p, HeadOf(dst, p));
      ProxyRunAdds(dst, src, p, OwnRelays(p));
    }
    AfterTakeTarget(src, dst, Take(dst.node, p), AfterProxy(dst, p), p, OwnRelays(p), x, y);
  }

  /** The proxy for x runs on something that is not a delivery. */
  lemma PeerQuietTarget(src: Side, dst: Side, p: Id, x: Id, y: Id)
    requires SideOk(dst, src) && p in dst.remoteOf && CanRun(dst.node, p) && y in dst.node.actors && !HeadOf(dst, p).msg.DeliverPid?
    requires Lane(src, dst.(node := Take(dst.node, p)), x, y) && (x in dst.table ==> dst.table[x] in dst.node.actors)
    ensures Lane(src, dst.(node := AfterProxy(dst, p)), x, y)
  {
    assert Adds(Take(dst.node, p), AfterProxy(dst, p), p, NotPid()) by {
      NoRelayEffects(dst, p, HeadOf(dst, p));
      ProxyRunAdds(dst, src, p, NotPid());
    }
    AfterTakeTarget(src, dst, Take(dst.node, p), AfterProxy(dst, p), p, NotPid(), x, y);
  }

  /** The proxy for x delivers to somebody else, and survives. */
  lemma PeerElsewhere(src: Side, dst: Side, p: Id, t: Id, pl: Payload, x: Id, y: Id)
    requires SideOk(dst, src) && p in dst.remoteOf && CanRun(dst.node, p) && y in dst.node.actors
    requires HeadOf(dst, p).msg == DeliverPid(t, pl) && t != y && x in dst.table && dst.table[x] == p
    requires Alive(dst.node, p) && Alive(AfterProxy(dst, p), p)
    requires Lane(src, dst.(node := Take(dst.node, p)), x, y)
    ensures Lane(src, dst.(node := AfterProxy(dst, p)), x, y)
  {
    DeliveryExact(dst, src, p, t, pl);
    if Alive(Take(dst.node, p), t) {
      ElsewhereLane(src, dst.(node := Take(dst.node, p)), t, Env(p, AsMsg(pl), ByPid), x, y);
    }
  }

  lemma ElsewhereLane(src: Side, dst: Side, t: Id, m: Env, x: Id, y: Id)
    requires Lane(src, dst, x, y) && t != y && !m.msg.DeliverPid? && y in dst.node.actors
    ensures Lane(src, dst.(node := Queue(dst.node, t, m)), x, y)
  {
    var dst' := dst.(node := Queue(dst.node, t, m));
    QueuedElsewhere(dst, t, m, x, y);
    assert AtPeer(dst', x, y) == AtPeer(dst, x, y) by {
      PickOne(Box(dst, x), m, ForPid(y));
      assert ForPid(y)(m) == [];
    }
  }

  lemma QueuedElsewhere(dst: Side, t: Id, m: Env, x: Id, y: Id)
    requires t != y && y in dst.node.actors
    ensures var dst' := dst.(node := Queue(dst.node, t, m));
            && (Box(dst', x) == Box(dst, x) || Box(dst', x) == Box(dst, x) + [m])
            && Delivered(dst', x, y) == Delivered(dst, x, y)
  {
  }

  /** What a delivery does when the proxy survives it. */
  lemma DeliveryExact(dst: Side, src: Side, p: Id, t: Id, pl: Payload)
    requires SideOk(dst, src) && p in dst.remoteOf && CanRun(dst.node, p) && HeadOf(dst, p).msg == DeliverPid(t, pl)
    requires Alive(dst.node, p) && Alive(AfterProxy(dst, p), p)
    ensures var nd1 := Take(dst.node, p);
            AfterProxy(dst, p) == if Alive(nd1, t) then Queue(nd1, t, Env(p, AsMsg(pl), ByPid)) else nd1
  {
    var nd1 := Take(dst.node, p);
    ProxyReceives(dst, src, p);
    ProxyTaken(dst, src, p);
    if !Exists(dst.node, t) {
      NoEffect(nd1, p);
    } else {
      assert AfterProxy(dst, p) == Invoke(nd1, p, Callback([SendTo(t, AsMsg(pl), ByPid, true)], Ok));
      SurvivedSend(nd1, p, t, AsMsg(pl));
    }
  }

  /** A send that must succeed, survived by its sender. */
  lemma SurvivedSend(nd: Node, a: Id, to: Id, m: Msg)
    requires Running(nd, a) && nd.actors[a].receiver && Alive(Invoke(nd, a, Callback([SendTo(to, m, ByPid, true)], Ok)), a)
    ensures Invoke(nd, a, Callback([SendTo(to, m, ByPid, true)], Ok)) == if Alive(nd, to) then Queue(nd, to, Env(a, m, ByPid)) else nd
  {
    if Alive(nd, to) {
      OneSend(nd, a, to, m, ByPid, true);
    } else if m.Exit? {
      ExitToDead(nd, a, to, m);
    } else {
      OneFailure(nd, a, to, m, ByPid);
      assert false;
    }
  }

  lemma ExitToDead(nd: Node, a: Id, to: Id, m: Msg)
    requires a in nd.actors && nd.actors[a].receiver && !Alive(nd, to) && m.Exit?
    ensures Invoke(nd, a, Callback([SendTo(to, m, ByPid, true)], Ok)) == nd
  {
    var es := [SendTo(to, m, ByPid, true)];
    assert es[1..] == [];
    assert ApplyEffect(nd, a, es[0]) == (nd, false);
    assert ApplyEffects(nd, a, es) == ApplyEffects(nd, a, []) == (nd, false);
  }

  lemma ProxyTarget(src: Side, dst: Side, p: Id, x: Id, y: Id)
    requires SideOk(dst, src) && p in dst.remoteOf && CanRun(dst.node, p) && Lane(src, dst, x, y)
    requires Alive(dst.node, y) && ProxyUp(dst, x) && ProxyUp(dst.(node := AfterProxy(dst, p)), x)
    ensures Lane(src, dst.(node := AfterProxy(dst, p)), x, y)
  {
    var e := HeadOf(dst, p);
    EntryIsProxy(dst, src, x);
    if x in dst.table && dst.table[x] == p && e.msg.DeliverPid? && e.msg.target == y {
      DeliveryExact(dst, src, p, y, e.msg.payload);
      TargetDelivers(src, dst, dst.(node := AfterProxy(dst, p)), Take(dst.node, p), p, e, e.msg.payload, x, y);
    } else {
      TargetPops(src, dst, p, x, y);
      if !(x in dst.table && dst.table[x] == p) {
        OtherProxyTarget(src, dst, p, x, y);
      } else if !e.msg.DeliverPid? {
        PeerQuietTarget(src, dst, p, x, y);
      } else {
        PeerElsewhere(src, dst, p, e.msg.target, e.msg.payload, x, y);
      }
    }
  }

  // ---------------------------------------------------------------- endpoints

  /** The endpoint after taking one message and staying alive. */
  predicate TookOne(sd: Side, sd': Side, m: Msg) {
    && CanRun(sd.node, sd.ep) && m == HeadOf(sd, sd.ep).msg
    && sd' == sd.(node := Take(sd.node, sd.ep), out := sd.out + FramesFor(m),
                  table := if m.ProxyExit? then sd.table - {m.remote} else sd.table)
  }

  lemma TookOneBoxes(sd: Side, sd': Side, m: Msg, k: Id)
    requires TookOne(sd, sd', m) && EntryOk(sd, k) && (m.ProxyExit? ==> m.remote != k)
    ensures Box(sd', k) == Box(sd, k) && Log(sd', k) == Log(sd, k) && EntryOk(sd', k)
    ensures k in sd'.table <==> k in sd.table
    ensures k in sd.table ==> sd'.table[k] == sd.table[k]
  {
  }

  /** A live actor's entry is never removed. */
  lemma NoFarewell(sd: Side, peer: Side, k: Id)
    requires AllMailOk(sd, peer) && Alive(sd.node, sd.ep) && CanRun(sd.node, sd.ep) && !Exited(peer.node, k)
    ensures var m := HeadOf(sd, sd.ep).msg; m.ProxyExit? ==> m.remote != k
  {
    assert MailOk(sd, peer, sd.ep, HeadOf(sd, sd.ep));
  }

  lemma TookOneSource(src: Side, src': Side, dst: Side, m: Msg, x: Id, y: Id)
    requires TookOne(src, src', m) && EntryOk(src, y) && (m.ProxyExit? ==> m.remote != y) && Lane(src, dst, x, y)
    ensures Lane(src', dst, x, y)
  {
    TookOneBoxes(src, src', m, y);
    SourceWrites(src, src', dst, src'.node, x, y);
  }

  lemma TookOneTarget(src: Side, dst: Side, dst': Side, m: Msg, x: Id, y: Id)
    requires TookOne(dst, dst', m) && EntryOk(dst, x) && (m.ProxyExit? ==> m.remote != x) && Lane(src, dst, x, y)
    ensures Lane(src, dst', x, y)
  {
    TookOneBoxes(dst, dst', m, x);
    assert Delivered(dst', x, y) == Delivered(dst, x, y);
  }

  lemma EndpointSource(src: Side, dst: Side, x: Id, y: Id)
    requires SideOk(src, dst) && Alive(src.node, src.ep) && CanRun(src.node, src.ep)
    requires Alive(RunEndpoint(src).node, src.ep) && !Exited(dst.node, y) && Lane(src, dst, x, y)
    ensures Lane(RunEndpoint(src), dst, x, y)
  {
    EndpointRunExact(src, dst);
    EntryIsProxy(src, dst, y);
    NoFarewell(src, dst, y);
    TookOneSource(src, RunEndpoint(src), dst, HeadOf(src, src.ep).msg, x, y);
  }

  lemma EndpointTarget(src: Side, dst: Side, x: Id, y: Id)
    requires SideOk(dst, src) && Alive(dst.node, dst.ep) && CanRun(dst.node, dst.ep)
    requires Alive(RunEndpoint(dst).node, dst.ep) && !Exited(src.node, x) && Lane(src, dst, x, y)
    ensures Lane(src, RunEndpoint(dst), x, y)
  {
    EndpointRunExact(dst, src);
    EntryIsProxy(dst, src, x);
    NoFarewell(dst, src, x);
    TookOneTarget(src, dst, RunEndpoint(dst), HeadOf(dst, dst.ep).msg, x, y);
  }
}
