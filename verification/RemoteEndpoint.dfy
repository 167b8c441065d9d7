/**
 The endpoint's own events keep the invariant of the remote protocol.
 */
module RemoteEndpoint {
  import opened Actors
  import opened Lifecycle
  import opened Mail
  import opened Remote
  import opened RemoteInv
  import opened RemoteSteps

  // ---------------------------------------------------------------- deinit

  const FAREWELL := Env(NOBODY, EndpointExit(TransportClosed), Direct)

  lemma BuryAdds(sd: Side, k: Kind)
    requires k(FAREWELL)
    ensures Adds(sd.node, Bury(sd).node, NOBODY, k)
  {
    var nd, nd' := sd.node, Bury(sd).node;
    if Alive(nd, sd.ep) {
      SameAdds(nd, nd, NOBODY, k);
    } else {
      forall b | b in nd.actors
        ensures b in nd'.actors && AddsAt(nd.actors[b], nd'.actors[b]) && AllOf(New(nd.actors[b], nd'.actors[b]), k)
                && OnlyMail(nd.actors[b], nd'.actors[b])
      {
        assert New(nd.actors[b], nd'.actors[b]) == [] || New(nd.actors[b], nd'.actors[b]) == [FAREWELL];
      }
    }
  }

  lemma BuryInv(sd: Side)
    requires Inv(sd.node)
    ensures Inv(Bury(sd).node)
  {
    var nd, nd' := sd.node, Bury(sd).node;
    if !Alive(nd, sd.ep) {
      forall b | b in nd.actors
        ensures Sound(nd'.actors[b]) && Known(nd'.next, nd'.actors[b]) && Longer(nd.actors[b], nd'.actors[b])
      {
        QueuedSound(nd.actors[b], nd.next, FAREWELL);
      }
      GrowsSettles(nd, nd', NOBODY);
    }
  }

  lemma BurySpares(sd: Side)
    requires TableOk(sd) && sd.ep !in sd.remoteOf && sd.ep in sd.node.actors
    ensures sd.ep in Bury(sd).node.actors && Bury(sd).node.actors[sd.ep] == sd.node.actors[sd.ep]
    ensures Bury(sd) == sd.(node := Bury(sd).node)
  {
  }

  lemma BuryKeeps(sd: Side, peer: Side)
    requires SideOk(sd, peer)
    ensures SideOk(Bury(sd), peer) && Later(sd.node, Bury(sd).node)
  {
    if !Alive(sd.node, sd.ep) {
      BurySpares(sd);
      BuryInv(sd);
      BuryAdds(sd, SafeKind(Bury(sd), peer));
      BuriedKeeps(sd, Bury(sd), peer);
    }
  }

  lemma BuriedKeeps(sd: Side, sd': Side, peer: Side)
    requires SideOk(sd, peer) && sd' == sd.(node := sd'.node) && Inv(sd'.node)
    requires sd.ep in sd'.node.actors && sd'.node.actors[sd.ep] == sd.node.actors[sd.ep]
    requires Adds(sd.node, sd'.node, NOBODY, SafeKind(sd', peer))
    ensures SideOk(sd', peer) && Later(sd.node, sd'.node)
  {
    OutsideLater(sd.node, sd'.node, SafeKind(sd', peer));
    assert NOBODY in sd.remoteOf ==> ProxyOk(sd, peer, NOBODY);
    SideRuns(sd, sd', peer, NOBODY, sd.node);
  }

  // ---------------------------------------------------------------- callbacks of the endpoint

  lemma EndpointModes(nd: Node, nd': Node, ep: Id, k: Kind)
    requires Adds(nd, nd', ep, k) && ep in nd.actors && EndpointOk(nd.actors[ep])
    requires forall e :: k(e) ==> !e.msg.ProxyExit?
    requires var x, y := nd.actors[ep], nd'.actors[ep];
             y.trap == x.trap && y.observe == x.observe && y.started && (y.status.Live? ==> y.receiver)
    ensures EndpointOk(nd'.actors[ep])
  {
    OnceEachGrows(nd.actors[ep].mailbox, New(nd.actors[ep], nd'.actors[ep]));
  }

  function BlandKind(sd': Side, peer: Side): Kind {
    (e: Env) => Safe(sd', peer, e) && !e.msg.ProxyExit?
  }

  /** A callback of the live endpoint that only sends bland messages. */
  lemma EndpointInvokes(sd: Side, peer: Side, cb: Callback)
    requires SideOk(sd, peer) && Alive(sd.node, sd.ep)
    requires forall e :: e in cb.effects ==> Sends(e) && BlandEffect(e)
    ensures var nd' := Invoke(sd.node, sd.ep, cb); SideOk(sd.(node := nd'), peer) && Later(sd.node, nd')
  {
    var nd, ep, nd' := sd.node, sd.ep, Invoke(sd.node, sd.ep, cb);
    var sd' := sd.(node := nd');
    InvokeKeeps(nd, ep, cb);
    InvokeOutcome(nd, ep, cb);
    InvokeAdds(nd, ep, cb, BlandKind(sd', peer));
    assert Between(nd, nd, ep);
    assert Sound(nd.actors[ep]);
    AddsLater(nd, nd, nd', ep, BlandKind(sd', peer));
    EndpointModes(nd, nd', ep, BlandKind(sd', peer));
    Weaken(nd, nd', ep, BlandKind(sd', peer), SafeKind(sd', peer));
    SideRuns(sd, sd', peer, ep, nd);
  }

  lemma EnterKeeps(sd: Side, peer: Side)
    requires SideOk(sd, peer) && Alive(sd.node, sd.ep)
    ensures var nd' := Put(sd.node, sd.ep, Entered(sd.node.actors[sd.ep]));
            SideOk(sd.(node := nd'), peer) && Later(sd.node, nd') && Alive(nd', sd.ep)
  {
    var x, y := sd.node.actors[sd.ep], Entered(sd.node.actors[sd.ep]);
    var nd' := Put(sd.node, sd.ep, y);
    var sd' := sd.(node := nd');
    assert Sound(x) && Known(sd.node.next, x);
    assert Sound(y) && Known(sd.node.next, y);
    PutKeeps(sd.node, sd.ep, y, NOBODY);
    SameAdds(nd', nd', sd.ep, SafeKind(sd', peer));
    assert Between(sd.node, nd', sd.ep);
    AddsLater(sd.node, nd', nd', sd.ep, SafeKind(sd', peer));
    SideRuns(sd, sd', peer, sd.ep, nd');
  }

  // ---------------------------------------------------------------- messages to the endpoint

  lemma OnceEachTail(es: seq<Env>)
    requires OnceEach(es) && es != []
    ensures OnceEach(es[1..])
    ensures es[0].msg.ProxyExit? ==> forall e :: e in es[1..] ==> e.msg != es[0].msg
  {
  }

  /** Taking one envelope. */
  lemma EndpointTakes(sd: Side, peer: Side)
    requires SideOk(sd, peer) && Alive(sd.node, sd.ep) && CanRun(sd.node, sd.ep)
    ensures var nd' := Take(sd.node, sd.ep);
            && SideOk(sd.(node := nd'), peer) && Later(sd.node, nd') && Alive(nd', sd.ep)
            && (HeadOf(sd, sd.ep).msg.ProxyExit? ==>
                  forall e :: e in nd'.actors[sd.ep].mailbox ==> e.msg != HeadOf(sd, sd.ep).msg)
  {
    var x, nd' := sd.node.actors[sd.ep], Take(sd.node, sd.ep);
    var sd' := sd.(node := nd');
    TakeKeeps(sd.node, sd.ep);
    TakeBetween(sd.node, sd.ep);
    OnceEachTail(x.mailbox);
    SameAdds(nd', nd', sd.ep, SafeKind(sd', peer));
    AddsLater(sd.node, nd', nd', sd.ep, SafeKind(sd', peer));
    SideRuns(sd, sd', peer, sd.ep, nd');
  }

  lemma MailTableDrops(sd: Side, sd': Side, peer: Side, k: Id, b: Id, e: Env)
    requires MailOk(sd, peer, b, e) && (b == sd.ep ==> e.msg != ProxyExit(k)) && sd' == sd.(table := sd.table - {k})
    ensures MailOk(sd', peer, b, e)
  {
  }

  lemma ProxyTableDrops(sd: Side, sd': Side, peer: Side, k: Id, p: Id)
    requires p in sd.remoteOf && ProxyOk(sd, peer, p) && sd' == sd.(table := sd.table - {k})
    requires Exited(peer.node, k) && k in sd.table && !Alive(sd.node, sd.table[k])
    ensures ProxyOk(sd', peer, p)
  {
  }

  /** Removing the entry of a dead proxy whose remote actor exited. */
  lemma TableDrops(sd: Side, peer: Side, k: Id)
    requires SideOk(sd, peer) && Exited(peer.node, k) && k in sd.table && !Alive(sd.node, sd.table[k])
    requires forall e :: e in sd.node.actors[sd.ep].mailbox ==> e.msg != ProxyExit(k)
    ensures SideOk(sd.(table := sd.table - {k}), peer)
  {
    var sd' := sd.(table := sd.table - {k});
    forall b, e | b in sd'.node.actors && e in sd'.node.actors[b].mailbox ensures MailOk(sd', peer, b, e) {
      MailTableDrops(sd, sd', peer, k, b, e);
    }
    forall p | p in sd'.remoteOf ensures ProxyOk(sd', peer, p) {
      ProxyTableDrops(sd, sd', peer, k, p);
    }
    SameFrames(sd, sd');
  }

  lemma WireGrows(sd: Side, peer: Side, frs: seq<Frame>)
    requires SideOk(sd, peer) && forall fr :: fr in frs ==> FrameOk(sd, fr)
    ensures SideOk(sd.(out := sd.out + frs), peer)
  {
    var sd' := sd.(out := sd.out + frs);
    forall fr | fr in sd'.out ensures FrameOk(sd', fr) {
      assert FrameOk(sd, fr);
    }
    forall b, e | b in sd'.node.actors && e in sd'.node.actors[b].mailbox ensures MailOk(sd', peer, b, e) {
      assert MailOk(sd, peer, b, e);
    }
    forall p | p in sd'.remoteOf ensures ProxyOk(sd', peer, p) {
      assert ProxyOk(sd, peer, p);
    }
  }

  /** Frames and table entries that an envelope causes, once it has been taken. */
  lemma EndpointWrites(sd: Side, peer: Side, m: Msg)
    requires SideOk(sd, peer) && Alive(sd.node, sd.ep) && EndpointMail(sd, peer, Env(NOBODY, m, Direct))
    requires m.ProxyExit? ==> forall e :: e in sd.node.actors[sd.ep].mailbox ==> e.msg != m
    ensures SideOk(sd.(out := sd.out + FramesFor(m), table := if m.ProxyExit? then sd.table - {m.remote} else sd.table), peer)
  {
    WireGrows(sd, peer, FramesFor(m));
    if m.ProxyExit? {
      TableDrops(sd.(out := sd.out + FramesFor(m)), peer, m.remote);
    }
  }

  lemma EndpointRunKeeps(sd: Side, peer: Side)
    requires SideOk(sd, peer) && Alive(sd.node, sd.ep) && CanRun(sd.node, sd.ep)
    ensures SideOk(RunEndpoint(sd), peer) && Later(sd.node, RunEndpoint(sd).node)
  {
    var env := HeadOf(sd, sd.ep);
    var m, nd1 := env.msg, Take(sd.node, sd.ep);
    EndpointTakes(sd, peer);
    var sd1 := sd.(node := nd1);
    assert MailOk(sd, peer, sd.ep, env);
    MailStays(sd, sd1, peer, peer, sd.ep, env);
    EndpointWrites(sd1, peer, m);
    var sd2 := sd1.(out := sd1.out + FramesFor(m), table := if m.ProxyExit? then sd1.table - {m.remote} else sd1.table);
    RunEndpointSplits(sd, sd2);
    if !m.Link? {
      EndpointInvokes(sd2, peer, EndpointCallback(m));
      BuryAfter(sd.node, nd1, sd2.(node := Invoke(nd1, sd.ep, EndpointCallback(m))), peer);
    } else {
      BuryKeeps(sd2, peer);
      LaterTransitive(sd.node, nd1, Bury(sd2).node);
    }
  }

  lemma LaterTransitive(a: Node, b: Node, c: Node)
    requires Later(a, b) && Later(b, c)
    ensures Later(a, c)
  {
    forall x | x in a.actors ensures x in c.actors && Aged(a.actors[x], c.actors[x]) {
      assert Aged(a.actors[x], b.actors[x]) && Aged(b.actors[x], c.actors[x]);
    }
  }

  lemma RunEndpointSplits(sd: Side, sd2: Side)
    requires Alive(sd.node, sd.ep) && CanRun(sd.node, sd.ep) && EndpointOk(sd.node.actors[sd.ep])
    requires var m := HeadOf(sd, sd.ep).msg;
             sd2 == sd.(node := Take(sd.node, sd.ep), out := sd.out + FramesFor(m),
                        table := if m.ProxyExit? then sd.table - {m.remote} else sd.table)
    ensures var m := HeadOf(sd, sd.ep).msg;
            RunEndpoint(sd) == if m.Link? then Bury(sd2) else Bury(sd2.(node := Invoke(sd2.node, sd.ep, EndpointCallback(m))))
  {
  }

  lemma EndpointFailKeeps(sd: Side, peer: Side, t: Text, tell: bool)
    requires SideOk(sd, peer) && Alive(sd.node, sd.ep)
    ensures SideOk(FailEndpoint(sd, t, tell), peer) && Later(sd.node, FailEndpoint(sd, t, tell).node)
  {
    var cb := Callback([], Err(Short(t)));
    EndpointInvokes(sd, peer, cb);
    assert Invoke(sd.node, sd.ep, cb) == HandleExit(sd.node, sd.ep, Short(t));
    var sd1 := sd.(node := HandleExit(sd.node, sd.ep, Short(t)));
    var sd2 := sd1.(out := if tell then sd.out + [ErrorFrame(t)] else sd.out);
    if tell {
      WireGrows(sd1, peer, [ErrorFrame(t)]);
    }
    FailBuries(sd.node, sd2, peer);
  }

  lemma FailBuries(nd: Node, sd2: Side, peer: Side)
    requires SideOk(sd2, peer) && Later(nd, sd2.node)
    ensures SideOk(Bury(sd2), peer) && Later(nd, Bury(sd2).node)
  {
    BuryKeeps(sd2, peer);
    LaterTransitive(nd, sd2.node, Bury(sd2).node);
  }

  // ---------------------------------------------------------------- frames

  /** get_or_create_proxy when there is none: the new proxy is the one for its remote id. */
  lemma SpawnProxyKeeps(sd: Side, peer: Side, k: Id)
    requires SideOk(sd, peer) && k !in sd.table
    ensures SideOk(WithProxy(sd, k), peer) && Later(sd.node, WithProxy(sd, k).node)
  {
    var nd := SpawnOne(sd.node, NOBODY);
    UserSpawnKeeps(sd, peer);
    var sd1 := sd.(node := nd);
    assert forall p :: p in sd.remoteOf ==> ProxyOk(sd, peer, p);
    TableAdds(sd1, peer, k, sd.node.next);
  }

  function WithProxy(sd: Side, k: Id): Side {
    var p := sd.node.next;
    sd.(node := SpawnOne(sd.node, NOBODY), table := sd.table[k := p], remoteOf := sd.remoteOf[p := k])
  }

  lemma MailTableAdds(sd: Side, sd': Side, peer: Side, k: Id, p: Id, b: Id, e: Env)
    requires MailOk(sd, peer, b, e) && k !in sd.table && (b == p ==> e.msg.Null?) && p != sd.ep
    requires sd' == sd.(table := sd.table[k := p], remoteOf := sd.remoteOf[p := k])
    ensures MailOk(sd', peer, b, e)
  {
  }

  lemma ProxyTableAdds(sd: Side, sd': Side, peer: Side, k: Id, p: Id, q: Id)
    requires q in sd.remoteOf && ProxyOk(sd, peer, q) && k !in sd.table && q != p
    requires sd' == sd.(table := sd.table[k := p], remoteOf := sd.remoteOf[p := k])
    ensures ProxyOk(sd', peer, q)
  {
  }

  lemma TableAdds(sd: Side, peer: Side, k: Id, p: Id)
    requires SideOk(sd, peer) && k !in sd.table && p !in sd.remoteOf && p != sd.ep
    requires p in sd.node.actors && sd.node.actors[p] == Fresh(NOBODY)
    ensures SideOk(sd.(table := sd.table[k := p], remoteOf := sd.remoteOf[p := k]), peer)
  {
    var sd' := sd.(table := sd.table[k := p], remoteOf := sd.remoteOf[p := k]);
    forall b, e | b in sd'.node.actors && e in sd'.node.actors[b].mailbox ensures MailOk(sd', peer, b, e) {
      MailTableAdds(sd, sd', peer, k, p, b, e);
    }
    assert ProxyOk(sd', peer, p);
    forall q | q in sd'.remoteOf ensures ProxyOk(sd', peer, q) {
      if q != p {
        ProxyTableAdds(sd, sd', peer, k, p, q);
      }
    }
    SameFrames(sd, sd');
  }

  lemma SameFrames(sd: Side, sd': Side)
    requires AllFramesOk(sd) && sd'.out == sd.out && sd'.node == sd.node
    ensures AllFramesOk(sd')
  {
    forall fr | fr in sd'.out ensures FrameOk(sd', fr) {
      assert FrameOk(sd, fr);
    }
  }

  /** The endpoint tells a proxy that its remote actor exited. */
  lemma EndpointTells(sd: Side, peer: Side, k: Id, t: Text)
    requires SideOk(sd, peer) && Alive(sd.node, sd.ep) && k in sd.table && ExitedWith(peer.node, k, Short(t))
    ensures var nd' := Queue(sd.node, sd.table[k], Env(sd.ep, Exit(Short(t)), Direct));
            SideOk(sd.(node := nd'), peer) && Later(sd.node, nd')
  {
    var q, env := sd.table[k], Env(sd.ep, Exit(Short(t)), Direct);
    var nd' := Queue(sd.node, q, env);
    var sd' := sd.(node := nd');
    QueueCore(sd.node, q, env);
    GrowsSettles(sd.node, nd', NOBODY);
    QueueAdds(sd.node, q, env, NOBODY, e => true);
    OutsideLater(sd.node, nd', e => true);
    assert ProxyOk(sd, peer, q);
    TellMail(sd, peer, q, env);
    ProxiesKept(sd, sd', peer, NOBODY, sd.node, e => true) by {
      assert NOBODY in sd.remoteOf ==> ProxyOk(sd, peer, NOBODY);
    }
    FramesKept(sd, sd');
  }

  lemma TellMail(sd: Side, peer: Side, q: Id, env: Env)
    requires SideOk(sd, peer) && q in sd.remoteOf && q != sd.ep && ProxyMail(sd, peer, q, env)
    requires Later(sd.node, Queue(sd.node, q, env))
    ensures AllMailOk(sd.(node := Queue(sd.node, q, env)), peer)
  {
    var sd' := sd.(node := Queue(sd.node, q, env));
    forall b, e | b in sd'.node.actors && e in sd'.node.actors[b].mailbox ensures MailOk(sd', peer, b, e) {
      if e in sd.node.actors[b].mailbox {
        MailStays(sd, sd', peer, peer, b, e);
      } else {
        assert b == q && e == env;
        MailStays(sd, sd', peer, peer, q, env);
      }
    }
  }

  lemma ReadSend(sd: Side, peer: Side, k: Id, m: Msg)
    requires SideOk(sd, peer) && Alive(sd.node, sd.ep) && Bland(m)
    ensures var (sd1, cb) := ToProxy(sd, k, m);
            SideOk(sd1.(node := Invoke(sd.node, sd.ep, cb)), peer) && Later(sd.node, Invoke(sd.node, sd.ep, cb))
  {
    if k in sd.table {
      EndpointInvokes(sd, peer, Callback([SendTo(sd.table[k], m, Direct, true)], Ok));
    } else {
      var p := sd.node.next;
      SpawnProxyKeeps(sd, peer, k);
      var sdp, cb := WithProxy(sd, k), Callback([SendTo(p, m, Direct, true)], Ok);
      assert Alive(sdp.node, sd.ep);
      EndpointInvokes(sdp, peer, cb);
      SpawnFirst(sd.node, sd.ep, SendTo(p, m, Direct, true));
      LaterTransitive(sd.node, sdp.node, Invoke(sdp.node, sd.ep, cb));
    }
  }

  lemma SpawnFirst(nd: Node, a: Id, e: Effect)
    requires a in nd.actors && nd.next != a
    ensures Invoke(nd, a, Callback([Spawn, e], Ok)) == Invoke(SpawnOne(nd, NOBODY), a, Callback([e], Ok))
  {
    assert [Spawn, e][1..] == [e];
  }

  lemma ReadExit(sd: Side, peer: Side, k: Id, t: Text)
    requires SideOk(sd, peer) && Alive(sd.node, sd.ep) && ExitedWith(peer.node, k, Short(t))
    ensures var (sd1, cb) := Dispatch(sd, ExitFrame(k, t));
            SideOk(sd1.(node := Invoke(sd.node, sd.ep, cb)), peer) && Later(sd.node, Invoke(sd.node, sd.ep, cb))
  {
    if k in sd.table {
      EndpointTells(sd, peer, k, t);
      TellsExactly(sd.node, sd.ep, sd.table[k], Exit(Short(t)));
    } else {
      EndpointInvokes(sd, peer, Callback([], Ok));
    }
  }

  /** A send that may fail, of an exit message, which cannot. */
  lemma TellsExactly(nd: Node, a: Id, to: Id, m: Msg)
    requires a in nd.actors && nd.actors[a].receiver && m.Exit?
    ensures Invoke(nd, a, Callback([SendTo(to, m, Direct, false)], Ok)) == Queue(nd, to, Env(a, m, Direct))
  {
    var e, nd' := SendTo(to, m, Direct, false), Queue(nd, to, Env(a, m, Direct));
    assert [e][1..] == [];
    assert ApplyEffects(nd, a, [e]) == ApplyEffects(nd', a, []) == (nd', false);
  }

  lemma DispatchKeeps(sd: Side, peer: Side, fr: Frame)
    requires SideOk(sd, peer) && Alive(sd.node, sd.ep) && FrameOk(peer, fr)
    ensures var (sd1, cb) := Dispatch(sd, fr);
            SideOk(sd1.(node := Invoke(sd.node, sd.ep, cb)), peer) && Later(sd.node, Invoke(sd.node, sd.ep, cb))
  {
    match fr {
      case SendFrame(f, t, pl) => ReadSend(sd, peer, f, DeliverPid(t, pl));
      case NamedFrame(f, n, pl) =>
        if f != NOBODY {
          ReadSend(sd, peer, f, DeliverNamed(n, pl));
        } else {
          EndpointInvokes(sd, peer, Callback([SendTo(NameOf(sd, n), AsMsg(pl), ByName, true)], Ok));
        }
      case ExitFrame(k, t) => ReadExit(sd, peer, k, t);
      case LinkFrame(k, t) => ReadSend(sd, peer, k, SetNotify(t));
      case ErrorFrame(t) => EndpointInvokes(sd, peer, Callback([], Err(Short(t))));
    }
  }

  lemma WireInKeeps(sd: Side, peer: Side, fr: Frame)
    requires SideOk(sd, peer) && Alive(sd.node, sd.ep) && FrameOk(peer, fr)
    ensures SideOk(ReadFrame(sd, fr), peer) && Later(sd.node, ReadFrame(sd, fr).node)
  {
    EnterKeeps(sd, peer);
    var nd1 := Put(sd.node, sd.ep, Entered(sd.node.actors[sd.ep]));
    var sd1 := sd.(node := nd1);
    DispatchKeeps(sd1, peer, fr);
    DispatchIgnoresCalls(sd, sd1, fr);
    var (sd2, cb) := Dispatch(sd, fr);
    BuryAfter(sd.node, nd1, sd2.(node := Invoke(nd1, sd.ep, cb)), peer);
  }

  /** Dispatching does not depend on how often the endpoint has run. */
  lemma DispatchIgnoresCalls(sd: Side, sd1: Side, fr: Frame)
    requires sd1 == sd.(node := sd1.node) && sd1.node.next == sd.node.next
    ensures Dispatch(sd1, fr) == (Dispatch(sd, fr).0.(node := sd1.node), Dispatch(sd, fr).1)
  {
  }

  lemma BuryAfter(nd: Node, nd1: Node, sd3: Side, peer: Side)
    requires Later(nd, nd1) && Later(nd1, sd3.node) && SideOk(sd3, peer)
    ensures SideOk(Bury(sd3), peer) && Later(nd, Bury(sd3).node)
  {
    BuryKeeps(sd3, peer);
    LaterTransitive(nd, nd1, sd3.node);
    LaterTransitive(nd, sd3.node, Bury(sd3).node);
  }

  // ---------------------------------------------------------------- every event

  lemma ReapKeeps(sd: Side, peer: Side, a: Id)
    requires SideOk(sd, peer) && a in sd.node.actors && sd.node.actors[a].status.Dying? && sd.node.actors[a].mailbox == []
    ensures var nd' := Put(sd.node, a, sd.node.actors[a].(status := Gone));
            SideOk(sd.(node := nd'), peer) && Later(sd.node, nd')
  {
    var nd' := Put(sd.node, a, sd.node.actors[a].(status := Gone));
    var sd' := sd.(node := nd');
    assert Inv(nd') by { DestroyKeeps(sd.node, a); }
    SameAdds(nd', nd', a, SafeKind(sd', peer));
    GoneBetween(sd.node, nd', a);
    assert Later(sd.node, nd') by { AddsLater(sd.node, nd', nd', a, SafeKind(sd', peer)); }
    assert a in sd.remoteOf ==> ProxyOk(sd', peer, a) by {
      if a in sd.remoteOf {
        GoneProxy(sd, sd', peer, a);
      }
    }
    SideRuns(sd, sd', peer, a, nd');
  }

  lemma GoneBetween(nd: Node, nd': Node, a: Id)
    requires a in nd.actors && nd' == Put(nd, a, nd.actors[a].(status := Gone)) && nd.actors[a].status.Dying?
    ensures Between(nd, nd', a) && Aged(nd.actors[a], nd'.actors[a])
  {
  }

  lemma GoneProxy(sd: Side, sd': Side, peer: Side, a: Id)
    requires a in sd.remoteOf && ProxyOk(sd, peer, a) && sd.node.actors[a].status.Dying?
    requires sd' == sd.(node := Put(sd.node, a, sd.node.actors[a].(status := Gone)))
    ensures ProxyOk(sd', peer, a)
  {
  }

  lemma LocalKeeps(sd: Side, peer: Side, ev: NetEvent)
    requires SideOk(sd, peer) && SideOk(peer, sd) && EnabledOn(sd, peer, ev)
    ensures SideOk(Local(sd, peer, ev), peer) && Later(sd.node, Local(sd, peer, ev).node)
  {
    match ev {
      case UserRun(_, a, cb) => UserRunKeeps(sd, peer, a, cb);
      case UserSpawn(_) => UserSpawnKeeps(sd, peer);
      case Trigger(_, to, n) => TriggerKeeps(sd, peer, to, n);
      case Register(_, name, a) => RegisterKeeps(sd, peer, name, a);
      case ProxyRun(_, p) => ProxyRunKeeps(sd, peer, p);
      case EndpointRun(_) => EndpointRunKeeps(sd, peer);
      case WireIn(_) => WireInKeeps(sd, peer, peer.out[0]);
      case EndpointFail(_, t, tell) => EndpointFailKeeps(sd, peer, t, tell);
      case Reap(_, a) => ReapKeeps(sd, peer, a);
    }
  }

  lemma RegisterKeeps(sd: Side, peer: Side, name: nat, a: Id)
    requires SideOk(sd, peer)
    ensures SideOk(sd.(names := sd.names[name := a]), peer) && Later(sd.node, sd.node)
  {
    var sd' := sd.(names := sd.names[name := a]);
    assert forall b, e :: MailOk(sd', peer, b, e) == MailOk(sd, peer, b, e);
    assert forall p :: p in sd.remoteOf ==> ProxyOk(sd', peer, p) == ProxyOk(sd, peer, p);
    assert forall fr :: FrameOk(sd', fr) == FrameOk(sd, fr);
  }

  /** What an event makes of the two sides. */
  lemma StepSides(w: World, ev: NetEvent)
    requires Formed(w) && Enabled(w, ev)
    ensures var w', sd, peer := NetStep(w, ev), Get(w, ev.s), Get(w, !ev.s);
            Get(w', ev.s) == Local(sd, peer, ev) && Get(w', !ev.s) == if ev.WireIn? then peer.(out := peer.out[1..]) else peer
  {
  }

  /** Every event keeps the invariant on both sides. */
  lemma NetStepKeeps(w: World, ev: NetEvent)
    requires RInv(w)
    ensures RInv(NetStep(w, ev))
    ensures Later(w.near.node, NetStep(w, ev).near.node) && Later(w.far.node, NetStep(w, ev).far.node)
  {
    if Enabled(w, ev) {
      var w' := NetStep(w, ev);
      SidesKeep(Get(w, ev.s), Get(w', ev.s), Get(w, !ev.s), Get(w', !ev.s), ev);
    }
  }

  /** One side moves, and its peer may lose the first frame of its wire. */
  lemma SidesKeep(sd: Side, sd': Side, peer: Side, peer': Side, ev: NetEvent)
    requires SideOk(sd, peer) && SideOk(peer, sd) && EnabledOn(sd, peer, ev) && sd' == Local(sd, peer, ev)
    requires peer' == if ev.WireIn? then peer.(out := peer.out[1..]) else peer
    ensures SideOk(sd', peer) && SideOk(sd', peer') && SideOk(peer', sd')
    ensures Later(sd.node, sd'.node) && Later(peer.node, peer'.node)
  {
    LocalKeeps(sd, peer, ev);
    PeerKeeps(peer, sd, sd');
    if ev.WireIn? {
      WirePopped(peer, sd');
    }
    PeerKeeps(sd', peer, peer');
  }

  lemma InitOk()
    ensures RInv(INIT)
  {
    var x := INIT.near.node.actors[EP];
    assert Sound(x) && Known(2, x);
  }

  lemma {:induction false} NetRunKeeps(w: World, evs: seq<NetEvent>)
    requires RInv(w)
    ensures RInv(NetRun(w, evs))
    decreases |evs|
  {
    if evs != [] {
      NetStepKeeps(w, evs[0]);
      NetRunKeeps(NetStep(w, evs[0]), evs[1..]);
    }
  }
}
