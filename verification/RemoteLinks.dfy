/**
 A link request crosses the wire.

 X links to its proxy P for Y.  In every continuation in which X has not exited and Y, the endpoints
 and the proxies are alive, the request is in some stage of its way, or it has arrived: then X and Y
 are linked across the wire, which is what the propagation of exits starts from.
 */
module RemoteLinks {
  import opened Actors
  import opened Lifecycle
  import opened Remote
  import opened RemoteInv
  import opened RemoteSteps
  import opened RemoteEndpoint
  import opened RemoteMoves
  import opened RemoteLanes
  import opened RemoteTransparency
  import opened RemoteRuns
  import Arrivals = RemoteArrivals
  import Branches = RemoteBranches
  import Exits = RemoteExit

  // ---------------------------------------------------------------- stages

  /** The proxy for k has h in its link list. */
  predicate Records(sd: Side, k: Id, h: Id) {
    k in sd.table && sd.table[k] in sd.node.actors && h in sd.node.actors[sd.table[k]].links
  }

  predicate AtOwnProxy(src: Side, x: Id, y: Id) {
    Env(x, Link, AtLink) in Box(src, y)
  }

  predicate AtOwnEndpoint(src: Side, x: Id, y: Id) {
    exists e :: e in EndpointBox(src) && e.msg == LinkWire(x, y)
  }

  predicate LinkOnWire(src: Side, x: Id, y: Id) {
    LinkFrame(x, y) in src.out
  }

  predicate AtPeerProxy(dst: Side, x: Id, y: Id) {
    exists e :: e in Box(dst, x) && e.msg == SetNotify(y)
  }

  /** The proxy for x has linked to y: y has recorded it, or has the link message queued. */
  predicate AtTarget(dst: Side, x: Id, y: Id) {
    && Records(dst, x, y) && y in dst.node.actors
    && (Env(dst.table[x], Link, AtLink) in dst.node.actors[y].mailbox || dst.table[x] in dst.node.actors[y].links)
  }

  predicate OnWay(src: Side, dst: Side, x: Id, y: Id) {
    || AtOwnProxy(src, x, y)
    || (Records(src, y, x) && (AtOwnEndpoint(src, x, y) || LinkOnWire(src, x, y) || AtPeerProxy(dst, x, y) || AtTarget(dst, x, y)))
  }

  // ---------------------------------------------------------------- links are kept

  /** An actor that survives its run has all links that it had when the run began. */
  lemma RunKeepsLinks(nd: Node, a: Id, cb: Callback, h: Id)
    requires Inv(nd) && CanRun(nd, a) && h in Take(nd, a).actors[a].links && Alive(Run(nd, a, cb), a)
    ensures h in Run(nd, a, cb).actors[a].links
  {
    var x, nd1 := nd.actors[a], Take(nd, a);
    var o := OutcomeOf(x, x.mailbox[0]);
    assert Sound(x);
    TakeKeeps(nd, a);
    TakenSound(x, nd.next);
    if o.Obeyed? {
      HandleExitKeeps(nd1, a, x.mailbox[0].msg.reason);
      assert false;
    } else if o.Received? {
      Exits.InvokeKeepsLinks(nd1, a, cb, h);
      SurvivorSound(nd, a, cb);
    }
  }

  lemma SurvivorSound(nd: Node, a: Id, cb: Callback)
    requires Inv(nd) && CanRun(nd, a) && Alive(Run(nd, a, cb), a)
    ensures Run(nd, a, cb).actors[a].exits == []
  {
    RunKeeps(nd, a, cb);
    assert Sound(Run(nd, a, cb).actors[a]);
  }

  /** The entry for an actor that has not exited stays. */
  lemma EntryStays(sd: Side, sd': Side, peer: Side, peer': Side, k: Id)
    requires SideOk(sd, peer) && SideOk(sd', peer') && SameProxies(sd, sd') && k in sd.table && !Exited(peer'.node, k)
    ensures k in sd'.table && sd'.table[k] == sd.table[k] && sd.table[k] in sd.remoteOf
    ensures sd.table[k] in sd.node.actors && sd.table[k] in sd'.node.actors && sd.table[k] != sd.ep
  {
    assert ProxyOk(sd, peer, sd.table[k]);
    assert ProxyOk(sd', peer', sd.table[k]);
  }

  lemma RecordsStay(sd: Side, sd': Side, peer: Side, peer': Side, ev: NetEvent, k: Id, h: Id)
    requires SideOk(sd, peer) && SideOk(sd', peer') && SameProxies(sd, sd') && EnabledOn(sd, peer, ev) && sd' == Local(sd, peer, ev)
    requires Records(sd, k, h) && !Exited(peer'.node, k) && Alive(sd.node, sd.table[k]) && ProxyUp(sd', k)
    ensures Records(sd', k, h)
  {
    var p := sd.table[k];
    EntryStays(sd, sd', peer, peer', k);
    assert Sound(sd.node.actors[p]) && Sound(sd'.node.actors[p]);
    Exits.LinkedStays(sd, peer, ev, p, h);
  }

  // ---------------------------------------------------------------- the sender's side

  lemma OwnProxyStep(src: Side, src': Side, dst: Side, dst': Side, ev: NetEvent, x: Id, y: Id)
    requires SideOk(src, dst) && SideOk(src', dst') && SameProxies(src, src') && EnabledOn(src, dst, ev) && src' == Local(src, dst, ev)
    requires AtOwnProxy(src, x, y) && y in src.table && !Exited(dst'.node, y)
    requires Alive(src.node, src.ep) && Alive(src.node, src.table[y])
    ensures AtOwnProxy(src', x, y) || (Records(src', y, x) && AtOwnEndpoint(src', x, y))
  {
    var p, e := src.table[y], Env(x, Link, AtLink);
    EntryStays(src, src', dst, dst', y);
    if p == Runner(src, ev) && TakesMail(ev) && e !in src.node.actors[p].mailbox[1..] {
      ProxyIsRunner(src, dst, ev, p);
      HeadOrTail(src.node.actors[p].mailbox, e);
      ForwardStep(src, dst, p, x, y);
    } else {
      MailRemains(src, dst, ev, p, e);
    }
  }

  lemma ProxyIsRunner(sd: Side, peer: Side, ev: NetEvent, p: Id)
    requires EnabledOn(sd, peer, ev) && p in sd.remoteOf && p != sd.ep && p == Runner(sd, ev) && TakesMail(ev)
    ensures ev.ProxyRun? && ev.who == p
  {
  }

  lemma ForwardStep(src: Side, dst: Side, p: Id, x: Id, y: Id)
    requires SideOk(src, dst) && p in src.remoteOf && CanRun(src.node, p) && HeadOf(src, p) == Env(x, Link, AtLink)
    requires Alive(src.node, src.ep) && Alive(src.node, p) && y in src.table && src.table[y] == p
    ensures var src' := src.(node := AfterProxy(src, p)); Records(src', y, x) && AtOwnEndpoint(src', x, y)
  {
    NotWaiting(src, dst, p);
    LinkTaken(src, dst, p, x);
  }

  lemma HeadOrTail(box: seq<Env>, e: Env)
    requires e in box && e !in box[1..]
    ensures box != [] && box[0] == e
  {
  }

  /** A proxy is not linked to by a parent, so its first envelope is its wake-up. */
  lemma NotWaiting(sd: Side, peer: Side, p: Id)
    requires SideOk(sd, peer) && p in sd.remoteOf && CanRun(sd.node, p) && HeadOf(sd, p).msg.Link?
    ensures sd.node.actors[p].started
  {
    assert ProxyOk(sd, peer, p) && Sound(sd.node.actors[p]);
  }

  lemma LinkTaken(src: Side, dst: Side, p: Id, x: Id)
    requires Branches.Ready(src, dst, p) && HeadOf(src, p) == Env(x, Link, AtLink) && InTable(src, p)
    ensures var src' := src.(node := AfterProxy(src, p)); var y := src.remoteOf[p];
            Records(src', y, x) && AtOwnEndpoint(src', x, y)
  {
    Branches.LinkForwarded(src, dst, p);
    assert p != src.ep by { assert ProxyOk(src, dst, p); }
    LinkQueued(src, Take(src.node, p), p, Env(p, LinkWire(x, src.remoteOf[p]), Direct), x);
  }

  lemma LinkQueued(src: Side, nd1: Node, p: Id, m: Env, x: Id)
    requires p in src.remoteOf && InTable(src, p) && p != src.ep && p in nd1.actors && x in nd1.actors[p].links && Alive(nd1, src.ep)
    requires m.msg == LinkWire(x, src.remoteOf[p])
    ensures var src' := src.(node := Queue(nd1, src.ep, m)); var y := src.remoteOf[p];
            Records(src', y, x) && AtOwnEndpoint(src', x, y)
  {
    var src' := src.(node := Queue(nd1, src.ep, m));
    assert m in EndpointBox(src');
  }

  lemma OwnEndpointStep(src: Side, src': Side, dst: Side, ev: NetEvent, x: Id, y: Id)
    requires SideOk(src, dst) && EnabledOn(src, dst, ev) && src' == Local(src, dst, ev) && src'.ep == src.ep
    requires AtOwnEndpoint(src, x, y) && Alive(src'.node, src.ep) && Alive(src.node, src.ep)
    ensures AtOwnEndpoint(src', x, y) || LinkOnWire(src', x, y)
  {
    var e :| e in EndpointBox(src) && e.msg == LinkWire(x, y);
    if src.ep == Runner(src, ev) && TakesMail(ev) && e !in src.node.actors[src.ep].mailbox[1..] {
      EndpointIsRunner(src, dst, ev);
      HeadOrTail(src.node.actors[src.ep].mailbox, e);
      EndpointRunExact(src, dst);
      assert FramesFor(e.msg) == [LinkFrame(x, y)];
      assert LinkFrame(x, y) in src'.out;
    } else {
      MailRemains(src, dst, ev, src.ep, e);
      assert e in EndpointBox(src');
    }
  }

  lemma EndpointIsRunner(sd: Side, peer: Side, ev: NetEvent)
    requires SideOk(sd, peer) && EnabledOn(sd, peer, ev) && sd.ep == Runner(sd, ev) && TakesMail(ev)
    ensures ev.EndpointRun?
  {
  }

  /** An event on X's side. */
  lemma SourceLinks(src: Side, src': Side, dst: Side, dst': Side, ev: NetEvent, x: Id, y: Id)
    requires Moves(src, src', dst, dst', ev) && SideOk(src, dst) && SideOk(dst, src)
    requires Open(src, dst, x, y) && Open(src', dst', x, y) && OnWay(src, dst, x, y)
    ensures OnWay(src', dst', x, y)
  {
    MovesOk(src, src', dst, dst', ev);
    LocalExtends(src, dst, ev);
    assert !Exited(dst'.node, y) by { assert Sound(dst'.node.actors[y]); }
    if AtOwnProxy(src, x, y) {
      OwnProxyStep(src, src', dst, dst', ev, x, y);
    } else {
      RecordsStay(src, src', dst, dst', ev, y, x);
      if AtOwnEndpoint(src, x, y) {
        OwnEndpointStep(src, src', dst, ev, x, y);
      } else if LinkOnWire(src, x, y) {
        WireKeeps(src.out, src'.out, LinkFrame(x, y));
      } else {
        SameTarget(dst, dst', x, y);
      }
    }
  }

  lemma WireKeeps(out: seq<Frame>, out': seq<Frame>, fr: Frame)
    requires fr in out && out <= out'
    ensures fr in out'
  {
  }

  lemma SameTarget(dst: Side, dst': Side, x: Id, y: Id)
    requires dst'.node == dst.node && dst'.table == dst.table
    ensures AtPeerProxy(dst, x, y) ==> AtPeerProxy(dst', x, y)
    ensures AtTarget(dst, x, y) ==> AtTarget(dst', x, y)
  {
  }

  // ---------------------------------------------------------------- the receiver's side

  lemma PeerProxyStep(src: Side, dst: Side, dst': Side, src': Side, ev: NetEvent, x: Id, y: Id)
    requires SideOk(dst, src) && SideOk(dst', src') && SameProxies(dst, dst') && EnabledOn(dst, src, ev) && dst' == Local(dst, src, ev)
    requires AtPeerProxy(dst, x, y) && x in dst.table && !Exited(src'.node, x) && Alive(dst.node, y)
    requires Alive(dst.node, dst.ep) && Alive(dst.node, dst.table[x])
    ensures AtPeerProxy(dst', x, y) || AtTarget(dst', x, y)
  {
    var q := dst.table[x];
    var e :| e in Box(dst, x) && e.msg == SetNotify(y);
    EntryStays(dst, dst', src, src', x);
    if q == Runner(dst, ev) && TakesMail(ev) && e !in dst.node.actors[q].mailbox[1..] {
      ProxyIsRunner(dst, src, ev, q);
      HeadOrTail(dst.node.actors[q].mailbox, e);
      NotifyStep(dst, src, q, x, y);
    } else {
      MailRemains(dst, src, ev, q, e);
      assert e in Box(dst', x);
    }
  }

  lemma NotifyStep(dst: Side, src: Side, q: Id, x: Id, y: Id)
    requires SideOk(dst, src) && q in dst.remoteOf && CanRun(dst.node, q) && HeadOf(dst, q).msg == SetNotify(y)
    requires Alive(dst.node, dst.ep) && Alive(dst.node, q) && Alive(dst.node, y) && x in dst.table && dst.table[x] == q
    ensures AtTarget(dst.(node := AfterProxy(dst, q)), x, y)
  {
    assert ProxyOk(dst, src, q) && Sound(dst.node.actors[q]);
    assert Alive(Take(dst.node, q), y);
    Branches.NotifyLinks(dst, src, q, y);
    Notified(dst, Take(dst.node, q), q, x, y);
  }

  lemma Notified(dst: Side, nd1: Node, q: Id, x: Id, y: Id)
    requires x in dst.table && dst.table[x] == q && q in nd1.actors && Alive(nd1, y)
    ensures AtTarget(dst.(node := AddLink(Queue(nd1, y, Env(q, Link, AtLink)), q, y)), x, y)
  {
    var nd2 := Queue(nd1, y, Env(q, Link, AtLink));
    assert Env(q, Link, AtLink) in nd2.actors[y].mailbox;
  }

  /** What y has of the link stays: the message until it is taken, and then the entry. */
  lemma TargetKeeps(dst: Side, src: Side, ev: NetEvent, q: Id, y: Id)
    requires SideOk(dst, src) && EnabledOn(dst, src, ev) && y in dst.node.actors && y != dst.ep && Alive(Local(dst, src, ev).node, y)
    requires Env(q, Link, AtLink) in dst.node.actors[y].mailbox || q in dst.node.actors[y].links
    ensures var x := Local(dst, src, ev).node.actors[y]; Env(q, Link, AtLink) in x.mailbox || q in x.links
  {
    var e := Env(q, Link, AtLink);
    if y == Runner(dst, ev) && TakesMail(ev) {
      if e in dst.node.actors[y].mailbox && e in dst.node.actors[y].mailbox[1..] {
        MailRemains(dst, src, ev, y, e);
      } else {
        RunnerLinks(dst, src, ev, q, y);
      }
    } else if e in dst.node.actors[y].mailbox {
      MailRemains(dst, src, ev, y, e);
    } else if y != Runner(dst, ev) {
      OthersKeep(dst, src, ev, y);
    }
  }

  lemma RunnerLinks(dst: Side, src: Side, ev: NetEvent, q: Id, y: Id)
    requires SideOk(dst, src) && EnabledOn(dst, src, ev) && y in dst.node.actors && y != dst.ep && Alive(Local(dst, src, ev).node, y)
    requires y == Runner(dst, ev) && TakesMail(ev)
    requires q in dst.node.actors[y].links || dst.node.actors[y].mailbox[0] == Env(q, Link, AtLink)
    ensures q in Local(dst, src, ev).node.actors[y].links
  {
    assert q in Take(dst.node, y).actors[y].links;
    if ev.UserRun? {
      RunKeepsLinks(dst.node, y, ev.callback, q);
    } else {
      assert ev.ProxyRun? && Local(dst, src, ev).node == AfterProxy(dst, y);
      RunKeepsLinks(dst.node, y, ProxyCallback(dst, y, HeadOf(dst, y)), q);
    }
  }

  lemma TargetStays(src: Side, dst: Side, dst': Side, src': Side, ev: NetEvent, x: Id, y: Id)
    requires SideOk(dst, src) && SideOk(dst', src') && SameProxies(dst, dst') && EnabledOn(dst, src, ev) && dst' == Local(dst, src, ev)
    requires AtTarget(dst, x, y) && !Exited(src'.node, x) && Alive(dst.node, dst.table[x]) && ProxyUp(dst', x)
    requires y != dst.ep && Alive(dst'.node, y)
    ensures AtTarget(dst', x, y)
  {
    EntryStays(dst, dst', src, src', x);
    RecordsStay(dst, dst', src, src', ev, x, y);
    TargetKeeps(dst, src, ev, dst.table[x], y);
  }

  /** The frame arrives. */
  lemma LinkArrives(src: Side, dst: Side, dst': Side, x: Id, y: Id)
    requires SideOk(dst, src) && Alive(dst.node, dst.ep) && dst' == ReadFrame(dst, LinkFrame(x, y)) && Alive(dst'.node, dst.ep)
    ensures AtPeerProxy(dst', x, y)
  {
    Arrivals.PassedOn(dst, src, LinkFrame(x, y), x, SetNotify(y));
    var sd2, m := Arrivals.Ready(Arrivals.Awake(dst), x), Env(dst.ep, SetNotify(y), Direct);
    QueuedThere(sd2, x, m);
  }

  lemma QueuedThere(sd: Side, x: Id, m: Env)
    requires x in sd.table && Alive(sd.node, sd.table[x])
    ensures m in Box(sd.(node := Queue(sd.node, sd.table[x], m)), x)
  {
  }

  lemma WireStep(src: Side, src': Side, dst: Side, dst': Side, ev: NetEvent, x: Id, y: Id)
    requires Moves(dst, dst', src, src', ev) && SideOk(dst, src) && LinkOnWire(src, x, y)
    requires Alive(dst.node, dst.ep) && Alive(dst'.node, dst.ep)
    ensures LinkOnWire(src', x, y) || AtPeerProxy(dst', x, y)
  {
    if ev.WireIn? && src.out[0] == LinkFrame(x, y) {
      LinkArrives(src, dst, dst', x, y);
    }
  }

  /** An event on Y's side. */
  lemma TargetLinks(src: Side, src': Side, dst: Side, dst': Side, ev: NetEvent, x: Id, y: Id)
    requires Moves(dst, dst', src, src', ev) && SideOk(src, dst) && SideOk(dst, src) && y != dst.ep
    requires Open(src, dst, x, y) && Open(src', dst', x, y) && OnWay(src, dst, x, y)
    ensures OnWay(src', dst', x, y)
  {
    MovesOk(dst, dst', src, src', ev);
    SameSource(src, src', x, y);
    if !AtOwnProxy(src, x, y) && !AtOwnEndpoint(src, x, y) {
      if LinkOnWire(src, x, y) {
        WireStep(src, src', dst, dst', ev, x, y);
      } else if AtPeerProxy(dst, x, y) {
        PeerProxyStep(src, dst, dst', src', ev, x, y);
      } else {
        TargetStays(src, dst, dst', src', ev, x, y);
      }
    }
  }

  lemma SameSource(src: Side, src': Side, x: Id, y: Id)
    requires src'.node == src.node && src'.table == src.table && src'.ep == src.ep
    ensures AtOwnProxy(src, x, y) ==> AtOwnProxy(src', x, y)
    ensures AtOwnEndpoint(src, x, y) ==> AtOwnEndpoint(src', x, y)
    ensures Records(src, y, x) ==> Records(src', y, x)
  {
  }

  // ---------------------------------------------------------------- every run

  predicate OnWayIfOpen(w: World, s: bool, x: Id, y: Id) {
    Open(Get(w, s), Get(w, !s), x, y) ==> OnWay(Get(w, s), Get(w, !s), x, y)
  }

  lemma LinkStep(w: World, ev: NetEvent, s: bool, x: Id, y: Id)
    requires RInv(w) && OnWayIfOpen(w, s, x, y) && y in Get(w, !s).node.actors && y != Get(w, !s).ep
    ensures OnWayIfOpen(NetStep(w, ev), s, x, y)
  {
    var w' := NetStep(w, ev);
    if Enabled(w, ev) && Open(Get(w', s), Get(w', !s), x, y) {
      StepMoves(w, ev);
      var src, src', dst, dst' := Get(w, s), Get(w', s), Get(w, !s), Get(w', !s);
      if ev.s == s {
        SourceStays(src, src', dst, dst', ev, x, y);
      } else {
        TargetStaysOpen(src, src', dst, dst', ev, x, y);
      }
    }
  }

  lemma SourceStays(src: Side, src': Side, dst: Side, dst': Side, ev: NetEvent, x: Id, y: Id)
    requires Moves(src, src', dst, dst', ev) && SideOk(src, dst) && SideOk(dst, src) && y in dst.node.actors
    requires Open(src', dst', x, y) && (Open(src, dst, x, y) ==> OnWay(src, dst, x, y))
    ensures OnWay(src', dst', x, y)
  {
    MovesOk(src, src', dst, dst', ev);
    OpenBefore(src, src', dst, dst', x, y);
    SourceLinks(src, src', dst, dst', ev, x, y);
  }

  lemma TargetStaysOpen(src: Side, src': Side, dst: Side, dst': Side, ev: NetEvent, x: Id, y: Id)
    requires Moves(dst, dst', src, src', ev) && SideOk(src, dst) && SideOk(dst, src) && y in dst.node.actors && y != dst.ep
    requires Open(src', dst', x, y) && (Open(src, dst, x, y) ==> OnWay(src, dst, x, y))
    ensures OnWay(src', dst', x, y)
  {
    MovesOk(dst, dst', src, src', ev);
    OpenBefore(src, src', dst, dst', x, y);
    TargetLinks(src, src', dst, dst', ev, x, y);
  }

  lemma StillThere(w: World, ev: NetEvent, s: bool, y: Id)
    requires RInv(w) && y in Get(w, s).node.actors
    ensures y in Get(NetStep(w, ev), s).node.actors && Get(NetStep(w, ev), s).ep == Get(w, s).ep
  {
    NetStepKeeps(w, ev);
    if Enabled(w, ev) {
      StepMoves(w, ev);
      MovesOk(Get(w, ev.s), Get(NetStep(w, ev), ev.s), Get(w, !ev.s), Get(NetStep(w, ev), !ev.s), ev);
    }
  }

  lemma {:induction false} LinkRun(w: World, evs: seq<NetEvent>, s: bool, x: Id, y: Id)
    requires RInv(w) && OnWayIfOpen(w, s, x, y) && y in Get(w, !s).node.actors && y != Get(w, !s).ep
    ensures OnWayIfOpen(NetRun(w, evs), s, x, y)
    decreases |evs|
  {
    if evs != [] {
      NetStepKeeps(w, evs[0]);
      LinkStep(w, evs[0], s, x, y);
      StillThere(w, evs[0], !s, y);
      LinkRun(NetStep(w, evs[0]), evs[1..], s, x, y);
    }
  }

  /** In every run: once X has queued a link for its proxy of Y, then as long as X has not exited and
      Y, the endpoints and the proxies are alive, the request is on its way or has arrived. */
  lemma LinkIsNeverLost(before: seq<NetEvent>, after: seq<NetEvent>, s: bool, x: Id, y: Id)
    requires var w := NetRun(INIT, before);
             AtOwnProxy(Get(w, s), x, y) && y in Get(w, !s).node.actors && y != Get(w, !s).ep
    ensures var w := NetRun(NetRun(INIT, before), after);
            Open(Get(w, s), Get(w, !s), x, y) ==> OnWay(Get(w, s), Get(w, !s), x, y)
  {
    InitOk();
    NetRunKeeps(INIT, before);
    LinkRun(NetRun(INIT, before), after, s, x, y);
  }

  /** Once it has arrived and Y has taken it, X and Y are linked across the wire, as the propagation
      of exits supposes. */
  lemma ArrivedIsLinked(src: Side, dst: Side, x: Id, y: Id, r: Reason)
    requires SideOk(src, dst) && SideOk(dst, src) && Open(src, dst, x, y)
    requires Records(src, y, x) && AtTarget(dst, x, y) && dst.table[x] in dst.node.actors[y].links
    ensures Exits.LinkedAcross(dst, src, Exits.Parties(x, y, src.table[y], dst.table[x], r, Exits.SentSoFar(src.node, x)))
  {
    EntryIsProxy(src, dst, y);
    EntryIsProxy(dst, src, x);
  }
}
