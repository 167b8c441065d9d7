/**
 The invariant of the remote protocol: the proxy table is consistent, and no exit notice is ever
 made up: every notice in a mailbox or on a wire stands for an actor that really exited with
 that reason.
 */
module RemoteInv {
  import opened Actors
  import opened Lifecycle
  import opened Mail
  import opened Remote

  // ---------------------------------------------------------------- the invariant

  predicate ExitedWith(nd: Node, a: Id, r: Reason) {
    Exited(nd, a) && nd.actors[a].exits[0].reason == r
  }

  /** What an envelope in the mailbox of proxy p stands for. */
  predicate ProxyMail(sd: Side, peer: Side, p: Id, e: Env)
    requires p in sd.remoteOf
  {
    match e.msg
    case Exit(Short(t)) =>
      if e.from == sd.ep then Alive(sd.node, sd.ep) ==> ExitedWith(peer.node, sd.remoteOf[p], Short(t))
      else ExitedWith(sd.node, e.from, Short(t))
    case EndpointExit(_) => !Alive(sd.node, sd.ep)
    case _ => true
  }

  /** What an envelope in the mailbox of a live endpoint stands for. */
  predicate EndpointMail(sd: Side, peer: Side, e: Env) {
    Alive(sd.node, sd.ep) ==>
      match e.msg
      case LocalLinkExit(f, t) => ExitedWith(sd.node, f, Short(t))
      case ProxyExit(k) => Exited(peer.node, k) && k in sd.table && !Alive(sd.node, sd.table[k])
      case _ => true
  }

  predicate MailOk(sd: Side, peer: Side, b: Id, e: Env) {
    (b in sd.remoteOf ==> ProxyMail(sd, peer, b, e)) && (b == sd.ep ==> EndpointMail(sd, peer, e))
  }

  predicate FrameOk(sd: Side, fr: Frame) {
    fr.ExitFrame? ==> ExitedWith(sd.node, fr.local, Short(fr.text))
  }

  predicate InTable(sd: Side, p: Id)
    requires p in sd.remoteOf
  {
    sd.remoteOf[p] in sd.table && sd.table[sd.remoteOf[p]] == p
  }

  predicate ProxyModes(x: Actor) {
    x.parent == NOBODY && (x.started ==> x.trap && x.observe && (x.status.Live? ==> x.receiver))
  }

  /** A live proxy is the one in the table, and so is any proxy of an actor that has not exited.
      A proxy exits with a short reason only as its remote actor did or because its endpoint died;
      its only other reason is a send that failed. */
  predicate ProxyOk(sd: Side, peer: Side, p: Id)
    requires p in sd.remoteOf
  {
    && p in sd.node.actors && p != sd.ep
    && ProxyModes(sd.node.actors[p])
    && (Alive(sd.node, p) || !Exited(peer.node, sd.remoteOf[p]) ==> InTable(sd, p))
    && (Exited(sd.node, p) && sd.node.actors[p].exits[0].reason != DEAD_SEND && Alive(sd.node, sd.ep)
        ==> ExitedWith(peer.node, sd.remoteOf[p], sd.node.actors[p].exits[0].reason))
  }

  predicate OnceEach(es: seq<Env>) {
    forall i, j :: 0 <= i < j < |es| && es[i].msg.ProxyExit? ==> es[j].msg != es[i].msg
  }

  predicate EndpointOk(x: Actor) {
    x.started && x.trap && !x.observe && (x.status.Live? ==> x.receiver) && OnceEach(x.mailbox)
  }

  predicate TableOk(sd: Side) {
    forall k :: k in sd.table ==> sd.table[k] in sd.remoteOf && sd.remoteOf[sd.table[k]] == k
  }

  ghost predicate ProxiesOk(sd: Side, peer: Side) {
    forall p :: p in sd.remoteOf ==> ProxyOk(sd, peer, p)
  }

  ghost predicate AllMailOk(sd: Side, peer: Side) {
    forall b, e :: b in sd.node.actors && e in sd.node.actors[b].mailbox ==> MailOk(sd, peer, b, e)
  }

  ghost predicate AllFramesOk(sd: Side) {
    forall fr :: fr in sd.out ==> FrameOk(sd, fr)
  }

  ghost predicate SideOk(sd: Side, peer: Side) {
    && Inv(sd.node)
    && sd.ep in sd.node.actors && sd.ep !in sd.remoteOf && EndpointOk(sd.node.actors[sd.ep])
    && TableOk(sd)
    && ProxiesOk(sd, peer)
    && AllMailOk(sd, peer)
    && AllFramesOk(sd)
  }

  ghost predicate RInv(w: World) {
    SideOk(w.near, w.far) && SideOk(w.far, w.near)
  }

  // ---------------------------------------------------------------- monotonicity

  /** Exits are final. */
  predicate Aged(x: Actor, y: Actor) {
    (x.exits != [] ==> y.exits != [] && y.exits[0] == x.exits[0]) && (y.status.Live? ==> x.status.Live?)
  }

  ghost predicate Later(nd: Node, nd': Node) {
    nd.next <= nd'.next && forall a :: a in nd.actors ==> a in nd'.actors && Aged(nd.actors[a], nd'.actors[a])
  }

  lemma MailStays(sd: Side, sd': Side, peer: Side, peer': Side, b: Id, e: Env)
    requires MailOk(sd, peer, b, e) && TableOk(sd) && ProxiesOk(sd, peer)
    requires sd'.ep == sd.ep && sd.ep in sd.node.actors && sd'.table == sd.table && sd'.remoteOf == sd.remoteOf
    requires Later(sd.node, sd'.node) && Later(peer.node, peer'.node)
    ensures MailOk(sd', peer', b, e)
  {
    if e.msg.ProxyExit? && e.msg.remote in sd.table {
      assert ProxyOk(sd, peer, sd.table[e.msg.remote]);
    }
  }

  lemma ProxyStays(sd: Side, sd': Side, peer: Side, peer': Side, p: Id)
    requires p in sd.remoteOf && ProxyOk(sd, peer, p)
    requires sd'.ep == sd.ep && sd.ep in sd.node.actors && sd'.table == sd.table && sd'.remoteOf == sd.remoteOf
    requires p in sd'.node.actors && OnlyMail(sd.node.actors[p], sd'.node.actors[p])
    requires Alive(sd'.node, sd.ep) ==> Alive(sd.node, sd.ep)
    requires Later(peer.node, peer'.node)
    ensures ProxyOk(sd', peer', p)
  {
  }

  lemma PeerKeeps(sd: Side, peer: Side, peer': Side)
    requires SideOk(sd, peer) && Later(peer.node, peer'.node)
    ensures SideOk(sd, peer')
  {
    forall b, e | b in sd.node.actors && e in sd.node.actors[b].mailbox ensures MailOk(sd, peer', b, e) {
      MailStays(sd, sd, peer, peer', b, e);
    }
    forall p | p in sd.remoteOf ensures ProxyOk(sd, peer', p) {
      ProxyStays(sd, sd, peer, peer', p);
    }
  }

  /** Dropping frames from a side's wire keeps its invariant. */
  lemma WirePopped(sd: Side, peer: Side)
    requires SideOk(sd, peer) && sd.out != []
    ensures SideOk(sd.(out := sd.out[1..]), peer)
  {
    var sd' := sd.(out := sd.out[1..]);
    forall b, e | b in sd'.node.actors && e in sd'.node.actors[b].mailbox ensures MailOk(sd', peer, b, e) {
      assert MailOk(sd, peer, b, e);
    }
    forall p | p in sd'.remoteOf ensures ProxyOk(sd', peer, p) {
      assert ProxyOk(sd, peer, p);
    }
    forall fr | fr in sd'.out ensures FrameOk(sd', fr) {
      assert fr in sd.out && FrameOk(sd, fr);
    }
  }

  lemma AddsLater(nd: Node, nd1: Node, nd': Node, a: Id, k: Kind)
    requires Between(nd, nd1, a) && Adds(nd1, nd', a, k) && a in nd.actors && Aged(nd.actors[a], nd'.actors[a])
    ensures Later(nd, nd')
  {
    forall b | b in nd.actors ensures b in nd'.actors && Aged(nd.actors[b], nd'.actors[b]) {
      if b != a {
        assert OnlyMail(nd1.actors[b], nd'.actors[b]);
      }
    }
  }

  /** An actor that has exited only loses mail when it runs. */
  lemma RunAges(nd: Node, a: Id, cb: Callback)
    requires Inv(nd) && CanRun(nd, a)
    ensures a in Run(nd, a, cb).actors && Aged(nd.actors[a], Run(nd, a, cb).actors[a])
  {
    assert Sound(nd.actors[a]);
    RunAdds(nd, a, cb, e => true);
  }

  lemma RunLater(nd: Node, a: Id, cb: Callback)
    requires Inv(nd) && CanRun(nd, a)
    ensures Later(nd, Run(nd, a, cb))
  {
    assert Adds(Take(nd, a), Run(nd, a, cb), a, e => true) by { RunAdds(nd, a, cb, e => true); }
    TakeBetween(nd, a);
    RunAges(nd, a, cb);
    AddsLater(nd, Take(nd, a), Run(nd, a, cb), a, e => true);
  }

  // ---------------------------------------------------------------- one side after a run

  /** Mail that is right for whichever actor of this side gets it. */
  predicate Safe(sd: Side, peer: Side, e: Env) {
    && EndpointMail(sd, peer, e)
    && (match e.msg
        case Exit(Short(t)) => if e.from == sd.ep then !Alive(sd.node, sd.ep) else ExitedWith(sd.node, e.from, Short(t))
        case EndpointExit(_) => !Alive(sd.node, sd.ep)
        case _ => true)
  }

  function SafeKind(sd: Side, peer: Side): Kind {
    (e: Env) => Safe(sd, peer, e)
  }

  /** nd1 is nd in which `a` may have taken mail and changed in other ways, and nobody else has. */
  ghost predicate Between(nd: Node, nd1: Node, a: Id) {
    && nd1.actors.Keys == nd.actors.Keys && nd1.next == nd.next
    && (forall b :: b in nd.actors && b != a ==> nd1.actors[b] == nd.actors[b])
    && (forall e :: a in nd.actors && e in nd1.actors[a].mailbox ==> e in nd.actors[a].mailbox)
  }

  lemma NewMail(nd1: Node, nd': Node, a: Id, k: Kind, b: Id, e: Env)
    requires Adds(nd1, nd', a, k) && b in nd'.actors && e in nd'.actors[b].mailbox
    requires b in nd1.actors ==> e !in nd1.actors[b].mailbox
    ensures k(e)
  {
    if b in nd1.actors {
      assert e in New(nd1.actors[b], nd'.actors[b]);
    }
  }

  lemma MailKept(sd: Side, sd': Side, peer: Side, a: Id, nd1: Node)
    requires AllMailOk(sd, peer) && TableOk(sd) && ProxiesOk(sd, peer) && sd.ep in sd.node.actors
    requires sd' == sd.(node := sd'.node) && Later(sd.node, sd'.node)
    requires Between(sd.node, nd1, a) && Adds(nd1, sd'.node, a, SafeKind(sd', peer))
    ensures AllMailOk(sd', peer)
  {
    forall b, e | b in sd'.node.actors && e in sd'.node.actors[b].mailbox ensures MailOk(sd', peer, b, e) {
      if b in nd1.actors && e in nd1.actors[b].mailbox {
        assert e in sd.node.actors[b].mailbox;
        MailStays(sd, sd', peer, peer, b, e);
      } else {
        NewMail(nd1, sd'.node, a, SafeKind(sd', peer), b, e);
      }
    }
  }

  lemma ProxiesKept(sd: Side, sd': Side, peer: Side, a: Id, nd1: Node, k: Kind)
    requires ProxiesOk(sd, peer) && sd.ep in sd.node.actors
    requires sd' == sd.(node := sd'.node) && Later(sd.node, sd'.node)
    requires Between(sd.node, nd1, a) && Adds(nd1, sd'.node, a, k)
    requires a in sd.remoteOf ==> ProxyOk(sd', peer, a)
    ensures ProxiesOk(sd', peer)
  {
    forall p | p in sd.remoteOf ensures ProxyOk(sd', peer, p) {
      if p != a {
        assert OnlyMail(nd1.actors[p], sd'.node.actors[p]);
        ProxyStays(sd, sd', peer, peer, p);
      }
    }
  }

  lemma FramesKept(sd: Side, sd': Side)
    requires AllFramesOk(sd) && sd'.out == sd.out && Later(sd.node, sd'.node)
    ensures AllFramesOk(sd')
  {
    forall fr | fr in sd'.out ensures FrameOk(sd', fr) {
      assert FrameOk(sd, fr);
    }
  }

  /** A side keeps its invariant when one actor runs and adds only safe mail. */
  lemma SideRuns(sd: Side, sd': Side, peer: Side, a: Id, nd1: Node)
    requires SideOk(sd, peer) && sd' == sd.(node := sd'.node)
    requires Inv(sd'.node) && Later(sd.node, sd'.node)
    requires Between(sd.node, nd1, a) && Adds(nd1, sd'.node, a, SafeKind(sd', peer))
    requires a in sd.remoteOf ==> ProxyOk(sd', peer, a)
    requires EndpointOk(sd'.node.actors[sd.ep])
    ensures SideOk(sd', peer)
  {
    MailKept(sd, sd', peer, a, nd1);
    ProxiesKept(sd, sd', peer, a, nd1, SafeKind(sd', peer));
    FramesKept(sd, sd');
  }

  lemma OnceEachGrows(es: seq<Env>, more: seq<Env>)
    requires OnceEach(es) && forall e :: e in more ==> !e.msg.ProxyExit?
    ensures OnceEach(es + more)
  {
  }

  lemma EndpointKept(nd: Node, nd1: Node, nd': Node, a: Id, ep: Id, k: Kind)
    requires ep in nd.actors && EndpointOk(nd.actors[ep]) && a != ep
    requires Between(nd, nd1, a) && Adds(nd1, nd', a, k) && forall e :: e in New(nd1.actors[ep], nd'.actors[ep]) ==> !e.msg.ProxyExit?
    ensures EndpointOk(nd'.actors[ep])
  {
    OnceEachGrows(nd1.actors[ep].mailbox, New(nd1.actors[ep], nd'.actors[ep]));
  }

  lemma TakeBetween(nd: Node, a: Id)
    requires CanRun(nd, a)
    ensures Between(nd, Take(nd, a), a)
  {
    forall e | e in Take(nd, a).actors[a].mailbox ensures e in nd.actors[a].mailbox {
      assert e in nd.actors[a].mailbox[1..];
    }
  }

  lemma Weaken(nd: Node, nd': Node, a: Id, k: Kind, k2: Kind)
    requires Adds(nd, nd', a, k) && forall e :: k(e) ==> k2(e)
    ensures Adds(nd, nd', a, k2)
  {
  }

  // ---------------------------------------------------------------- users

  /** What a user's run may add: data, links, named sends, wake-ups, and its own exit. */
  function UserKind(a: Id, nd': Node): Kind {
    (e: Env) =>
      && (e.via.Direct? || e.via.AtLink? || e.via.AtExit?)
      && (e.msg.Exit? ==> e.from == a && ExitedWith(nd', a, e.msg.reason))
      && (e.msg.Data? || e.msg.Link? || e.msg.SendNamed? || e.msg.Null? || e.msg.Exit?)
  }

  lemma UserRunAdds(sd: Side, peer: Side, a: Id, cb: Callback)
    requires SideOk(sd, peer) && EnabledOn(sd, peer, UserRun(false, a, cb))
    ensures Adds(Take(sd.node, a), Run(sd.node, a, cb), a, UserKind(a, Run(sd.node, a, cb)))
  {
    RunAdds(sd.node, a, cb, UserKind(a, Run(sd.node, a, cb)));
  }

  lemma UserSide(sd: Side, peer: Side, a: Id, nd1: Node, nd': Node)
    requires SideOk(sd, peer) && a != sd.ep && a !in sd.remoteOf
    requires Inv(nd') && Later(sd.node, nd') && Between(sd.node, nd1, a) && Adds(nd1, nd', a, UserKind(a, nd'))
    ensures SideOk(sd.(node := nd'), peer)
  {
    var sd' := sd.(node := nd');
    UserSparesEndpoint(sd.node, nd1, nd', a, sd.ep);
    UserMailSafe(sd', peer, a, nd1);
    SideRuns(sd, sd', peer, a, nd1);
  }

  lemma UserSparesEndpoint(nd: Node, nd1: Node, nd': Node, a: Id, ep: Id)
    requires ep in nd.actors && EndpointOk(nd.actors[ep]) && a != ep
    requires Between(nd, nd1, a) && Adds(nd1, nd', a, UserKind(a, nd'))
    ensures ep in nd'.actors && EndpointOk(nd'.actors[ep])
  {
    EndpointKept(nd, nd1, nd', a, ep, UserKind(a, nd'));
  }

  lemma UserMailSafe(sd': Side, peer: Side, a: Id, nd1: Node)
    requires Adds(nd1, sd'.node, a, UserKind(a, sd'.node)) && a != sd'.ep
    ensures Adds(nd1, sd'.node, a, SafeKind(sd', peer))
  {
    forall e | UserKind(a, sd'.node)(e) ensures SafeKind(sd', peer)(e) {
    }
    Weaken(nd1, sd'.node, a, UserKind(a, sd'.node), SafeKind(sd', peer));
  }

  lemma UserRunKeeps(sd: Side, peer: Side, a: Id, cb: Callback)
    requires SideOk(sd, peer) && EnabledOn(sd, peer, UserRun(false, a, cb))
    ensures SideOk(sd.(node := Run(sd.node, a, cb)), peer) && Later(sd.node, Run(sd.node, a, cb))
  {
    RunKeeps(sd.node, a, cb);
    RunLater(sd.node, a, cb);
    TakeBetween(sd.node, a);
    UserRunAdds(sd, peer, a, cb);
    UserSide(sd, peer, a, Take(sd.node, a), Run(sd.node, a, cb));
  }

  lemma TriggerKeeps(sd: Side, peer: Side, to: Id, n: nat)
    requires SideOk(sd, peer)
    ensures var nd' := Queue(sd.node, to, Env(NOBODY, Data(n), Direct));
            SideOk(sd.(node := nd'), peer) && Later(sd.node, nd')
  {
    var env := Env(NOBODY, Data(n), Direct);
    var nd' := Queue(sd.node, to, env);
    QueueCore(sd.node, to, env);
    GrowsSettles(sd.node, nd', NOBODY);
    QueueAdds(sd.node, to, env, NOBODY, UserKind(NOBODY, nd'));
    OutsideLater(sd.node, nd', UserKind(NOBODY, nd'));
    UserSide(sd, peer, NOBODY, sd.node, nd');
  }

  lemma OutsideLater(nd: Node, nd': Node, k: Kind)
    requires Adds(nd, nd', NOBODY, k) && NOBODY !in nd.actors
    ensures Later(nd, nd') && Between(nd, nd, NOBODY)
  {
    forall b | b in nd.actors ensures b in nd'.actors && Aged(nd.actors[b], nd'.actors[b]) {
      assert OnlyMail(nd.actors[b], nd'.actors[b]);
    }
  }

  lemma UserSpawnKeeps(sd: Side, peer: Side)
    requires SideOk(sd, peer)
    ensures var nd' := SpawnOne(sd.node, NOBODY); SideOk(sd.(node := nd'), peer) && Later(sd.node, nd')
  {
    var nd' := SpawnOne(sd.node, NOBODY);
    SpawnKeeps(sd.node, NOBODY);
    SpawnAdds(sd.node, NOBODY, NOBODY, UserKind(NOBODY, nd'));
    OutsideLater(sd.node, nd', UserKind(NOBODY, nd'));
    UserSide(sd, peer, NOBODY, sd.node, nd');
  }
}
