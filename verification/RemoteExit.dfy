/**
 A cross-process exit is never lost.

 X is linked to its local proxy P for Y, and Y's link list holds Q, the proxy of X on Y's side.
 Once Y exits, with whatever reason, in every continuation the notice is in some stage of its way
 to X, or X has been sent an exit with exactly that reason, or X or an endpoint has exited, or
 one of the two proxies has failed on a dead send.
 */
module RemoteExit {
  import opened Actors
  import opened Lifecycle
  import opened Remote
  import opened RemoteInv
  import opened RemoteSteps
  import opened RemoteEndpoint
  import opened RemoteMoves
  import Branches = RemoteBranches
  import Deliveries = RemoteTransparency

  /** The parties: Y lives on the side `home`, X on the side `away`.  X had been sent `seen` envelopes
      when Y exited. */
  datatype Parties = Parties(x: Id, y: Id, p: Id, q: Id, reason: Reason, seen: nat)

  predicate LinkedTo(nd: Node, p: Id, x: Id) {
    p in nd.actors && (if nd.actors[p].exits == [] then x in nd.actors[p].links else x in nd.actors[p].exits[0].links)
  }

  /** How many envelopes an actor has been sent. */
  function SentSoFar(nd: Node, x: Id): nat {
    if x in nd.actors then |nd.actors[x].accepted| else 0
  }

  /** Y has exited, P stands for Y and Q for X, and X is linked to P. */
  predicate Context(home: Side, away: Side, c: Parties) {
    && c.p in away.remoteOf && away.remoteOf[c.p] == c.y
    && c.q in home.remoteOf && home.remoteOf[c.q] == c.x
    && c.y != home.ep && ExitedWith(home.node, c.y, c.reason)
    && LinkedTo(away.node, c.p, c.x) && c.seen <= SentSoFar(away.node, c.x)
  }

  // A short reason travels as an exit frame, and P is told to exit with it; a longer one travels as a
  // message, which P delivers to X.

  /** What Q sends to its endpoint. */
  function NoticeMsg(c: Parties): Msg {
    match c.reason
    case Short(t) => LocalLinkExit(c.y, t)
    case Long(t, d) => Send(c.y, c.x, LongExit(t, d))
  }

  function NoticeFrame(c: Parties): Frame {
    match c.reason
    case Short(t) => ExitFrame(c.y, t)
    case Long(t, d) => SendFrame(c.y, c.x, LongExit(t, d))
  }

  /** What P's endpoint sends to it. */
  function ProxyNotice(c: Parties): Msg {
    match c.reason
    case Short(t) => Exit(c.reason)
    case Long(t, d) => DeliverPid(c.x, LongExit(t, d))
  }

  predicate AtPeerProxy(home: Side, c: Parties) {
    Alive(home.node, c.q) && ExitEnv(c.y, c.reason) in home.node.actors[c.q].mailbox
  }

  predicate AtFarEndpoint(home: Side, c: Parties) {
    Alive(home.node, home.ep) && exists e :: e in home.node.actors[home.ep].mailbox && e.msg == NoticeMsg(c)
  }

  predicate OnWire(home: Side, c: Parties) {
    NoticeFrame(c) in home.out
  }

  predicate AtLocalProxy(away: Side, c: Parties) {
    Alive(away.node, c.p) && Env(away.ep, ProxyNotice(c), Direct) in away.node.actors[c.p].mailbox
  }

  /** X has been sent an exit with exactly the reason: by P when it exited itself, or delivered by P
      since Y exited. */
  predicate Told(away: Side, c: Parties) {
    && c.x in away.node.actors && c.seen <= |away.node.actors[c.x].accepted|
    && (|| ExitEnv(c.p, c.reason) in away.node.actors[c.x].accepted
        || (c.reason.Long? && Env(c.p, Exit(c.reason), ByPid) in away.node.actors[c.x].accepted[c.seen..]))
  }

  predicate Escaped(home: Side, away: Side, c: Parties) {
    || !Alive(away.node, c.x)
    || !Alive(home.node, home.ep) || !Alive(away.node, away.ep)
    || ExitedWith(home.node, c.q, DEAD_SEND) || ExitedWith(away.node, c.p, DEAD_SEND)
  }

  predicate Notice(home: Side, away: Side, c: Parties) {
    || AtPeerProxy(home, c) || AtFarEndpoint(home, c) || OnWire(home, c) || AtLocalProxy(away, c)
    || Told(away, c)
    || Escaped(home, away, c)
  }

  // ---------------------------------------------------------------- dead proxies

  lemma SettledAccepted(x: Actor, e: Env, r: Reason)
    requires Sound(x) && x.status.Live? && SettledAt(x, e, r)
    ensures e in x.accepted
  {
    if e in x.mailbox {
      assert e in x.accepted[|x.handled|..];
    } else {
      var h :| h in x.handled && h.env == e;
      var i :| 0 <= i < |x.handled| && x.handled[i] == h;
      assert x.accepted[i] == e;
    }
  }

  /** If P is gone then X was told, or one of the escapes holds. */
  lemma LocalProxyDead(home: Side, away: Side, c: Parties)
    requires SideOk(home, away) && SideOk(away, home) && Context(home, away, c) && !Alive(away.node, c.p)
    ensures Told(away, c) || Escaped(home, away, c)
  {
    assert ProxyOk(away, home, c.p) && Sound(away.node.actors[c.p]);
    if !Escaped(home, away, c) {
      assert away.node.actors[c.p].exits[0].reason == c.reason;
      assert Settled(away.node, c.p, c.reason, c.x);
      assert Sound(away.node.actors[c.x]);
      SettledAccepted(away.node.actors[c.x], ExitEnv(c.p, c.reason), c.reason);
    }
  }

  /** If Q is gone then one of the escapes holds. */
  lemma PeerProxyDead(home: Side, away: Side, c: Parties)
    requires SideOk(home, away) && SideOk(away, home) && Context(home, away, c) && !Alive(home.node, c.q)
    ensures Escaped(home, away, c)
  {
    assert ProxyOk(home, away, c.q) && Sound(home.node.actors[c.q]);
    if c.x in away.node.actors {
      assert Sound(away.node.actors[c.x]);
    }
  }

  // ---------------------------------------------------------------- stages

  /** Q passes the notice on to its endpoint. */
  lemma PeerProxyForwards(home: Side, away: Side, c: Parties)
    requires SideOk(home, away) && c.q in home.remoteOf && home.remoteOf[c.q] == c.x && CanRun(home.node, c.q) && Alive(home.node, c.q)
    requires HeadOf(home, c.q) == ExitEnv(c.y, c.reason) && c.y != home.ep && Alive(home.node, home.ep)
    ensures AtFarEndpoint(home.(node := AfterProxy(home, c.q)), c)
  {
    ProxyReceives(home, away, c.q);
    assert c.q != home.ep by { assert ProxyOk(home, away, c.q); }
    match c.reason {
      case Short(t) => Branches.LocalExitReported(home, away, c.q, t);
      case Long(t, d) => Branches.LongExitForwarded(home, away, c.q, t, d);
    }
    QueuedAt(Take(home.node, c.q), home.ep, Env(c.q, NoticeMsg(c), Direct));
  }

  lemma QueuedAt(nd: Node, to: Id, e: Env)
    requires Alive(nd, to)
    ensures var nd' := Queue(nd, to, e);
            Alive(nd', to) && e in nd'.actors[to].mailbox && nd'.actors[to].accepted == nd.actors[to].accepted + [e]
  {
  }

  /** P exits on a short notice, which tells X among its links. */
  lemma LocalProxyObeys(away: Side, home: Side, c: Parties)
    requires SideOk(away, home) && c.p in away.remoteOf && CanRun(away.node, c.p) && Alive(away.node, c.p) && Alive(away.node, away.ep)
    requires c.reason.Short? && HeadOf(away, c.p) == Env(away.ep, Exit(c.reason), Direct)
    ensures !Alive(AfterProxy(away, c.p), c.p)
  {
    ProxyReceives(away, home, c.p);
    Branches.RemoteExitFollowed(away, home, c.p, c.reason.text);
    Branches.AllReceived(away, home, c.p);
    var nd1 := Take(away.node, c.p);
    QueueRunning(nd1, c.p, away.ep, Env(c.p, ProxyExit(away.remoteOf[c.p]), Direct));
    ExitModes(Queue(nd1, away.ep, Env(c.p, ProxyExit(away.remoteOf[c.p]), Direct)), c.p, c.reason);
  }

  /** P delivers a longer notice, if it survives. */
  lemma LocalProxyDelivers(away: Side, home: Side, c: Parties)
    requires SideOk(away, home) && c.p in away.remoteOf && CanRun(away.node, c.p) && Alive(away.node, c.p)
    requires c.reason.Long? && HeadOf(away, c.p).msg == ProxyNotice(c) && Alive(away.node, c.x) && Alive(AfterProxy(away, c.p), c.p)
    requires c.seen <= SentSoFar(away.node, c.x)
    ensures Told(away.(node := AfterProxy(away, c.p)), c)
  {
    Deliveries.DeliveryExact(away, home, c.p, c.x, LongExit(c.reason.text, c.reason.detail));
    DeliveredIsTold(away, Take(away.node, c.p), c);
  }

  lemma DeliveredIsTold(away: Side, nd: Node, c: Parties)
    requires c.reason.Long? && Alive(nd, c.x) && c.seen <= |nd.actors[c.x].accepted|
    ensures Told(away.(node := Queue(nd, c.x, Env(c.p, Exit(c.reason), ByPid))), c)
  {
    var e := Env(c.p, Exit(c.reason), ByPid);
    QueuedAt(nd, c.x, e);
    assert (nd.actors[c.x].accepted + [e])[c.seen..] == nd.actors[c.x].accepted[c.seen..] + [e];
  }

  /** A frame that the endpoint passes to a live proxy without making one. */
  lemma FrameExact(sd: Side, fr: Frame, m: Msg, p: Id, must: bool)
    requires Alive(sd.node, sd.ep) && EndpointOk(sd.node.actors[sd.ep]) && Alive(sd.node, p) && p != sd.ep
    requires Dispatch(sd, fr) == (sd, Callback([SendTo(p, m, Direct, must)], Ok))
    ensures var nd1 := Put(sd.node, sd.ep, Entered(sd.node.actors[sd.ep]));
            ReadFrame(sd, fr) == sd.(node := Queue(nd1, p, Env(sd.ep, m, Direct)))
  {
    var nd1 := Put(sd.node, sd.ep, Entered(sd.node.actors[sd.ep]));
    OneSend(nd1, sd.ep, p, m, Direct, must);
  }

  lemma EndpointTellsProxy(away: Side, home: Side, c: Parties)
    requires SideOk(away, home) && Alive(away.node, away.ep) && Alive(away.node, c.p)
    requires c.p in away.remoteOf && away.remoteOf[c.p] == c.y
    ensures AtLocalProxy(ReadFrame(away, NoticeFrame(c)), c)
  {
    assert ProxyOk(away, home, c.p);
    FrameExact(away, NoticeFrame(c), ProxyNotice(c), c.p, c.reason.Long?);
    QueuedAt(Put(away.node, away.ep, Entered(away.node.actors[away.ep])), c.p, Env(away.ep, ProxyNotice(c), Direct));
  }

  // ---------------------------------------------------------------- links

  /** No effect loses links, and an exit records them all. */
  lemma {:induction false} EffectsKeepLinks(nd: Node, a: Id, es: seq<Effect>, h: Id)
    requires a in nd.actors && h in nd.actors[a].links && a < nd.next
    ensures h in ApplyEffects(nd, a, es).0.actors[a].links
    decreases |es|
  {
    if es != [] {
      var (nd1, failed) := ApplyEffect(nd, a, es[0]);
      assert h in nd1.actors[a].links;
      if !failed {
        EffectsKeepLinks(nd1, a, es[1..], h);
      }
    }
  }

  lemma ExitKeepsLinks(nd: Node, a: Id, r: Reason, h: Id)
    requires Running(nd, a) && h in nd.actors[a].links
    ensures LinkedTo(HandleExit(nd, a, r), a, h)
  {
    assert SettledBut(nd, a);
    HandleExitKeeps(nd, a, r);
  }

  lemma InvokeKeepsLinks(nd: Node, a: Id, cb: Callback, h: Id)
    requires Running(nd, a) && h in nd.actors[a].links
    ensures LinkedTo(Invoke(nd, a, cb), a, h)
  {
    EffectsKeepLinks(nd, a, cb.effects, h);
    ApplyEffectsKeeps(nd, a, cb.effects);
    var (nd1, failed) := ApplyEffects(nd, a, cb.effects);
    assert Sound(nd1.actors[a]);
    if failed {
      ExitKeepsLinks(nd1, a, DEAD_SEND, h);
    } else if cb.result.Err? {
      ExitKeepsLinks(nd1, a, cb.result.reason, h);
    } else if !nd1.actors[a].receiver {
      ExitKeepsLinks(nd1, a, Short(NoReceive), h);
    }
  }

  lemma RunKeepsLinks(nd: Node, a: Id, cb: Callback, h: Id)
    requires CanRun(nd, a) && LinkedTo(nd, a, h)
    requires var o := OutcomeOf(nd.actors[a], nd.actors[a].mailbox[0]);
             !o.Obeyed? && (o.Received? ==> Running(Take(nd, a), a) && nd.actors[a].exits == [])
    ensures LinkedTo(Run(nd, a, cb), a, h)
  {
    if OutcomeOf(nd.actors[a], nd.actors[a].mailbox[0]).Received? {
      assert h in Take(nd, a).actors[a].links;
      InvokeKeepsLinks(Take(nd, a), a, cb, h);
    }
  }

  lemma ProxyKeepsLinks(sd: Side, peer: Side, p: Id, h: Id)
    requires SideOk(sd, peer) && p in sd.remoteOf && CanRun(sd.node, p) && LinkedTo(sd.node, p, h)
    ensures LinkedTo(AfterProxy(sd, p), p, h)
  {
    assert ProxyOk(sd, peer, p) && Sound(sd.node.actors[p]);
    ProxyTaken(sd, peer, p);
    RunKeepsLinks(sd.node, p, ProxyCallback(sd, p, HeadOf(sd, p)), h);
  }

  /** Proxies keep their links through every event. */
  lemma LinkedStays(sd: Side, peer: Side, ev: NetEvent, p: Id, h: Id)
    requires SideOk(sd, peer) && EnabledOn(sd, peer, ev) && p in sd.remoteOf && LinkedTo(sd.node, p, h)
    ensures LinkedTo(Local(sd, peer, ev).node, p, h)
  {
    assert ProxyOk(sd, peer, p);
    if p != Runner(sd, ev) {
      OthersKeep(sd, peer, ev, p);
    } else if ev.ProxyRun? {
      ProxyKeepsLinks(sd, peer, p, h);
    } else {
      assert ev.Reap?;
    }
  }

  // ---------------------------------------------------------------- one event

  lemma EscapeIsFinal(home: Side, away: Side, home': Side, away': Side, c: Parties)
    requires Escaped(home, away, c) && Later(home.node, home'.node) && Later(away.node, away'.node)
    requires home'.ep == home.ep && away'.ep == away.ep && Ids(away.node) && Ids(away'.node)
    requires home.ep in home.node.actors && away.ep in away.node.actors && c.x < away.node.next
    ensures Escaped(home', away', c)
  {
  }

  lemma HomeEvent(home: Side, away: Side, ev: NetEvent, c: Parties)
    requires SideOk(home, away) && EnabledOn(home, away, ev) && Notice(home, away, c) && !Escaped(home, away, c)
    requires c.q in home.remoteOf && home.remoteOf[c.q] == c.x && c.y != home.ep
    requires Alive(Local(home, away, ev).node, c.q) && Alive(Local(home, away, ev).node, home.ep)
    ensures var home' := Local(home, away, ev); home'.ep == home.ep ==> Notice(home', away, c)
  {
    if AtPeerProxy(home, c) {
      PeerProxyStage(home, away, ev, c);
    } else if AtFarEndpoint(home, c) {
      EndpointStays(home, away, ev);
      FarEndpointStage(home, away, ev, c);
    } else if OnWire(home, c) {
      OwnWireStage(home, away, ev, c);
    }
  }

  lemma EndpointStays(home: Side, away: Side, ev: NetEvent)
    requires SideOk(home, away) && EnabledOn(home, away, ev)
    ensures Local(home, away, ev).ep == home.ep
  {
    LocalExtends(home, away, ev);
  }

  lemma OwnWireStage(home: Side, away: Side, ev: NetEvent, c: Parties)
    requires SideOk(home, away) && EnabledOn(home, away, ev) && OnWire(home, c)
    ensures OnWire(Local(home, away, ev), c)
  {
    LocalExtends(home, away, ev);
    assert NoticeFrame(c) in Local(home, away, ev).out[..|home.out|];
  }

  lemma PeerProxyStage(home: Side, away: Side, ev: NetEvent, c: Parties)
    requires SideOk(home, away) && EnabledOn(home, away, ev) && AtPeerProxy(home, c)
    requires c.q in home.remoteOf && home.remoteOf[c.q] == c.x && c.y != home.ep && Alive(home.node, home.ep)
    requires Alive(Local(home, away, ev).node, c.q)
    ensures var home' := Local(home, away, ev); AtPeerProxy(home', c) || (home'.ep == home.ep ==> AtFarEndpoint(home', c))
  {
    var e, mb := ExitEnv(c.y, c.reason), home.node.actors[c.q].mailbox;
    assert ProxyOk(home, away, c.q);
    if c.q == Runner(home, ev) && TakesMail(ev) && e !in mb[1..] {
      assert ev == ProxyRun(ev.s, c.q) && mb[0] == e;
      PeerProxyForwards(home, away, c);
    } else {
      MailRemains(home, away, ev, c.q, e);
    }
  }

  lemma FarEndpointStage(home: Side, away: Side, ev: NetEvent, c: Parties)
    requires SideOk(home, away) && EnabledOn(home, away, ev) && AtFarEndpoint(home, c)
    requires Alive(Local(home, away, ev).node, home.ep) && Local(home, away, ev).ep == home.ep
    ensures var home' := Local(home, away, ev); AtFarEndpoint(home', c) || OnWire(home', c)
  {
    var mb := home.node.actors[home.ep].mailbox;
    var e :| e in mb && e.msg == NoticeMsg(c);
    EndpointRuns(home, away, ev);
    if ev.EndpointRun? && e !in mb[1..] {
      assert mb[0] == e;
      FarEndpointWrites(home, c);
    } else {
      MailRemains(home, away, ev, home.ep, e);
    }
  }

  lemma FarEndpointWrites(home: Side, c: Parties)
    requires CanRun(home.node, home.ep) && HeadOf(home, home.ep).msg == NoticeMsg(c)
    ensures OnWire(RunEndpoint(home), c)
  {
    assert RunEndpoint(home).out == home.out + [NoticeFrame(c)];
  }

  /** Only EndpointRun takes mail from the endpoint. */
  lemma EndpointRuns(sd: Side, peer: Side, ev: NetEvent)
    requires SideOk(sd, peer) && EnabledOn(sd, peer, ev)
    ensures Runner(sd, ev) == sd.ep && TakesMail(ev) ==> ev.EndpointRun?
  {
    assert ev.ProxyRun? ==> ProxyOk(sd, peer, ev.who);
  }

  lemma AwayEvent(home: Side, away: Side, ev: NetEvent, c: Parties)
    requires SideOk(away, home) && EnabledOn(away, home, ev) && Notice(home, away, c) && !Escaped(home, away, c)
    requires c.p in away.remoteOf && away.remoteOf[c.p] == c.y
    requires Alive(away.node, c.p) && Alive(Local(away, home, ev).node, c.p) && Local(away, home, ev).ep == away.ep
    requires c.seen <= SentSoFar(away.node, c.x)
    ensures Notice(if ev.WireIn? then home.(out := home.out[1..]) else home, Local(away, home, ev), c)
  {
    if AtLocalProxy(away, c) {
      LocalProxyStage(home, away, ev, c);
    } else if Told(away, c) {
      AcceptedGrows(away, home, ev, c.x);
      ToldRemains(away, Local(away, home, ev), c);
    } else if OnWire(home, c) && ev.WireIn? {
      WireStage(home, away, ev, c);
    }
  }

  lemma ToldRemains(away: Side, away': Side, c: Parties)
    requires Told(away, c) && c.x in away'.node.actors && away.node.actors[c.x].accepted <= away'.node.actors[c.x].accepted
    ensures Told(away', c)
  {
    var es, es' := away.node.actors[c.x].accepted, away'.node.actors[c.x].accepted;
    assert es' == es + es'[|es|..];
    assert es'[c.seen..] == es[c.seen..] + es'[|es|..];
  }

  lemma WireStage(home: Side, away: Side, ev: NetEvent, c: Parties)
    requires SideOk(away, home) && EnabledOn(away, home, ev) && OnWire(home, c) && ev.WireIn?
    requires c.p in away.remoteOf && away.remoteOf[c.p] == c.y && Alive(away.node, c.p)
    ensures OnWire(home.(out := home.out[1..]), c) || AtLocalProxy(Local(away, home, ev), c)
  {
    if NoticeFrame(c) !in home.out[1..] {
      assert home.out[0] == NoticeFrame(c);
      EndpointTellsProxy(away, home, c);
    }
  }

  lemma LocalProxyStage(home: Side, away: Side, ev: NetEvent, c: Parties)
    requires SideOk(away, home) && EnabledOn(away, home, ev) && AtLocalProxy(away, c)
    requires c.p in away.remoteOf && Alive(Local(away, home, ev).node, c.p) && Alive(away.node, c.x) && Alive(away.node, away.ep)
    requires c.seen <= SentSoFar(away.node, c.x)
    ensures var away' := Local(away, home, ev); away'.ep == away.ep ==> AtLocalProxy(away', c) || Told(away', c)
  {
    var e, mb := Env(away.ep, ProxyNotice(c), Direct), away.node.actors[c.p].mailbox;
    assert ProxyOk(away, home, c.p);
    if c.p == Runner(away, ev) && TakesMail(ev) && e !in mb[1..] {
      assert ev == ProxyRun(ev.s, c.p) && mb[0] == e;
      if c.reason.Short? {
        LocalProxyObeys(away, home, c);
      } else {
        LocalProxyDelivers(away, home, c);
      }
    } else {
      MailRemains(away, home, ev, c.p, e);
    }
  }

  // ---------------------------------------------------------------- runs

  ghost predicate Tracked(w: World, s: bool, c: Parties) {
    RInv(w) && Context(Get(w, s), Get(w, !s), c) && c.x < Get(w, !s).node.next && Notice(Get(w, s), Get(w, !s), c)
  }

  lemma HomeContext(home: Side, away: Side, away': Side, ev: NetEvent, c: Parties)
    requires SideOk(home, away) && Context(home, away, c) && EnabledOn(home, away, ev) && Later(home.node, Local(home, away, ev).node)
    requires away'.node == away.node && away'.remoteOf == away.remoteOf
    ensures Context(Local(home, away, ev), away', c)
  {
    LocalExtends(home, away, ev);
  }

  lemma HomeGoesOn(home: Side, away: Side, ev: NetEvent, c: Parties)
    requires SideOk(home, away) && EnabledOn(home, away, ev) && Notice(home, away, c) && !Escaped(home, away, c)
    requires c.q in home.remoteOf && home.remoteOf[c.q] == c.x && c.y != home.ep && Alive(Local(home, away, ev).node, c.q)
    ensures Notice(Local(home, away, ev), away, c)
  {
    EndpointStays(home, away, ev);
    if Alive(Local(home, away, ev).node, home.ep) {
      HomeEvent(home, away, ev, c);
    }
  }

  lemma HomeEscapes(home: Side, away: Side, home': Side, away': Side, ev: NetEvent, c: Parties)
    requires SideOk(home, away) && Ids(away.node) && away.ep in away.node.actors && Escaped(home, away, c) && c.x < away.node.next
    requires EnabledOn(home, away, ev) && home' == Local(home, away, ev) && away'.node == away.node && away'.ep == away.ep
    requires Later(home.node, home'.node)
    ensures Escaped(home', away', c)
  {
    EndpointStays(home, away, ev);
    EscapeIsFinal(home, away, home', away', c);
  }

  /** Of the side of X only its node matters. */
  lemma NoticeAside(home: Side, away: Side, away': Side, c: Parties)
    requires Notice(home, away, c) && away'.node == away.node && away'.ep == away.ep
    ensures Notice(home, away', c)
  {
  }

  lemma HomeStep(home: Side, away: Side, home': Side, away': Side, ev: NetEvent, c: Parties)
    requires SideOk(home, away) && SideOk(away, home) && Context(home, away, c) && Notice(home, away, c) && c.x < away.node.next
    requires EnabledOn(home, away, ev) && home' == Local(home, away, ev) && away'.node == away.node && away'.ep == away.ep && away'.remoteOf == away.remoteOf
    requires SideOk(home', away') && SideOk(away', home') && Later(home.node, home'.node)
    ensures Context(home', away', c) && Notice(home', away', c)
  {
    HomeContext(home, away, away', ev, c);
    if Escaped(home, away, c) {
      HomeEscapes(home, away, home', away', ev, c);
    } else if !Alive(home'.node, c.q) {
      PeerProxyDead(home', away', c);
    } else {
      HomeGoesOn(home, away, ev, c);
      NoticeAside(home', away, away', c);
    }
  }

  lemma AwayContext(home: Side, away: Side, ev: NetEvent, c: Parties)
    requires SideOk(away, home) && Context(home, away, c) && EnabledOn(away, home, ev)
    ensures Context(home, Local(away, home, ev), c)
  {
    LocalExtends(away, home, ev);
    LinkedStays(away, home, ev, c.p, c.x);
    if c.x in away.node.actors {
      AcceptedGrows(away, home, ev, c.x);
    }
  }

  lemma AwayStep(home: Side, away: Side, home': Side, away': Side, ev: NetEvent, c: Parties)
    requires SideOk(home, away) && SideOk(away, home) && Context(home, away, c) && Notice(home, away, c) && c.x < away.node.next
    requires EnabledOn(away, home, ev) && away' == Local(away, home, ev)
    requires home' == if ev.WireIn? then home.(out := home.out[1..]) else home
    requires SideOk(home', away') && SideOk(away', home') && Later(away.node, away'.node)
    ensures Context(home', away', c) && Notice(home', away', c)
  {
    LocalExtends(away, home, ev);
    AwayContext(home, away, ev, c);
    if Escaped(home, away, c) {
      SelfLater(home.node);
      EscapeIsFinal(home, away, home', away', c);
    } else if !Alive(away'.node, c.p) {
      LocalProxyDead(home', away', c);
    } else {
      assert Alive(away.node, c.p) by {
        assert ProxyOk(away, home, c.p);
        assert Aged(away.node.actors[c.p], away'.node.actors[c.p]);
      }
      AwayEvent(home, away, ev, c);
    }
  }

  lemma SelfLater(nd: Node)
    ensures Later(nd, nd)
  {
  }

  lemma TrackedStep(w: World, ev: NetEvent, s: bool, c: Parties)
    requires Tracked(w, s, c)
    ensures Tracked(NetStep(w, ev), s, c)
  {
    NetStepKeeps(w, ev);
    if Enabled(w, ev) {
      var w' := NetStep(w, ev);
      var home, away, home', away' := Get(w, s), Get(w, !s), Get(w', s), Get(w', !s);
      if ev.s == s {
        HomeStep(home, away, home', away', ev, c);
      } else {
        AwayStep(home, away, home', away', ev, c);
      }
    }
  }

  lemma {:induction false} TrackedRun(w: World, evs: seq<NetEvent>, s: bool, c: Parties)
    requires Tracked(w, s, c)
    ensures Tracked(NetRun(w, evs), s, c)
    decreases |evs|
  {
    if evs != [] {
      TrackedStep(w, evs[0], s, c);
      TrackedRun(NetStep(w, evs[0]), evs[1..], s, c);
    }
  }

  // ---------------------------------------------------------------- the exit itself

  /** When `a` exits, every live actor it was linked to has the notice in its mailbox. */
  lemma ExitTells(nd: Node, a: Id, r: Reason, b: Id)
    requires Running(nd, a) && b in nd.actors[a].links && b != a && Alive(HandleExit(nd, a, r), b)
    ensures ExitEnv(a, r) in HandleExit(nd, a, r).actors[b].mailbox
  {
    var nd1 := MarkExit(nd, a, r);
    MarkExitCore(nd, a, r);
    NotifyAllCore(nd1, nd.actors[a].links, ExitEnv(a, r));
    assert b in nd1.actors && Longer(nd1.actors[b], HandleExit(nd, a, r).actors[b]);
    NotifyAllTells(nd1, nd.actors[a].links, ExitEnv(a, r), b);
  }

  lemma InvokeTells(nd: Node, a: Id, cb: Callback, b: Id)
    requires Running(nd, a) && b in nd.actors[a].links && b != a
    requires var nd' := Invoke(nd, a, cb); Exited(nd', a) && Alive(nd', b)
    ensures var nd' := Invoke(nd, a, cb); ExitEnv(a, nd'.actors[a].exits[0].reason) in nd'.actors[b].mailbox
  {
    EffectsKeepLinks(nd, a, cb.effects, b);
    ApplyEffectsKeeps(nd, a, cb.effects);
    var (nd1, failed) := ApplyEffects(nd, a, cb.effects);
    assert Sound(nd1.actors[a]);
    var r := if failed then DEAD_SEND else if cb.result.Err? then cb.result.reason else Short(NoReceive);
    if failed || cb.result.Err? || !nd1.actors[a].receiver {
      ExitTells(nd1, a, r, b);
      assert SettledBut(nd1, a);
      HandleExitKeeps(nd1, a, r);
    }
  }

  lemma RunTells(nd: Node, a: Id, cb: Callback, b: Id)
    requires Inv(nd) && CanRun(nd, a) && Alive(nd, a) && b in nd.actors[a].links && b != a
    requires var nd' := Run(nd, a, cb); Exited(nd', a) && Alive(nd', b)
    ensures var nd' := Run(nd, a, cb); ExitEnv(a, nd'.actors[a].exits[0].reason) in nd'.actors[b].mailbox
  {
    TakeKeeps(nd, a);
    TakenSound(nd.actors[a], nd.next);
    assert Sound(nd.actors[a]);
    var nd1, o := Take(nd, a), OutcomeOf(nd.actors[a], nd.actors[a].mailbox[0]);
    assert b in nd1.actors[a].links;
    if o.Received? {
      InvokeTells(nd1, a, cb, b);
    } else if o.Obeyed? {
      ObeyTells(nd1, a, nd.actors[a].mailbox[0].msg.reason, b);
    }
  }

  lemma ObeyTells(nd: Node, a: Id, r: Reason, b: Id)
    requires Core(nd) && SettledBut(nd, a) && Alive(nd, a) && nd.actors[a].started
    requires b in nd.actors[a].links && b != a && Alive(HandleExit(nd, a, r), b)
    ensures var nd' := HandleExit(nd, a, r); Exited(nd', a) && ExitEnv(a, nd'.actors[a].exits[0].reason) in nd'.actors[b].mailbox
  {
    var nd1 := MarkExit(nd, a, r);
    MarkExitCore(nd, a, r);
    NotifyAllCore(nd1, nd.actors[a].links, ExitEnv(a, r));
    assert b in nd1.actors && Longer(nd1.actors[b], HandleExit(nd, a, r).actors[b]);
    NotifyAllTells(nd1, nd.actors[a].links, ExitEnv(a, r), b);
    HandleExitKeeps(nd, a, r);
  }

  /** X is linked to its proxy P of Y, and Y's link list holds Q, the proxy of X. */
  predicate LinkedAcross(home: Side, away: Side, c: Parties) {
    && Alive(home.node, c.y) && c.q in home.node.actors[c.y].links
    && c.q in home.remoteOf && home.remoteOf[c.q] == c.x
    && Alive(away.node, c.p) && c.p in away.remoteOf && away.remoteOf[c.p] == c.y
    && c.x in away.node.actors[c.p].links && c.seen <= SentSoFar(away.node, c.x)
  }

  lemma ExitIsTracked(w: World, cb: Callback, s: bool, c: Parties)
    requires RInv(w) && Enabled(w, UserRun(s, c.y, cb)) && LinkedAcross(Get(w, s), Get(w, !s), c)
    requires ExitedWith(Run(Get(w, s).node, c.y, cb), c.y, c.reason)
    ensures Tracked(NetStep(w, UserRun(s, c.y, cb)), s, c)
  {
    var ev := UserRun(s, c.y, cb);
    var home, away := Get(w, s), Get(w, !s);
    NetStepKeeps(w, ev);
    assert ProxyOk(home, away, c.q) && ProxyOk(away, home, c.p) && Sound(away.node.actors[c.p]) && Known(away.node.next, away.node.actors[c.p]);
    var home' := Local(home, away, ev);
    if Alive(home'.node, c.q) {
      RunTells(home.node, c.y, cb, c.q);
    } else {
      PeerProxyDead(home', away, c);
    }
  }

  /** In every run: once Y exits, with any reason, while X and Y are linked across the wire, the
      notice is in transit, or X has been sent exactly that reason since, or an escape holds. */
  lemma ExitIsNeverLost(before: seq<NetEvent>, cb: Callback, after: seq<NetEvent>, s: bool, c: Parties)
    requires var w := NetRun(INIT, before);
             && Enabled(w, UserRun(s, c.y, cb)) && LinkedAcross(Get(w, s), Get(w, !s), c)
             && ExitedWith(Run(Get(w, s).node, c.y, cb), c.y, c.reason)
    ensures var w := NetRun(NetStep(NetRun(INIT, before), UserRun(s, c.y, cb)), after);
            Notice(Get(w, s), Get(w, !s), c)
  {
    InitOk();
    NetRunKeeps(INIT, before);
    var w := NetRun(INIT, before);
    ExitIsTracked(w, cb, s, c);
    TrackedRun(NetStep(w, UserRun(s, c.y, cb)), after, s, c);
  }
}
