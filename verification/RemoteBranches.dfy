/**
 What each branch of a proxy's receive_safe does to the whole node, when nothing fails: the envelope
 is taken, and exactly one thing happens.
 */
module RemoteBranches {
  import opened Actors
  import opened Lifecycle
  import opened Remote
  import opened RemoteInv
  import opened RemoteSteps
  import opened RemoteMoves

  /** A started, live proxy with a live endpoint, about to handle its first envelope. */
  ghost predicate Ready(sd: Side, peer: Side, p: Id) {
    && SideOk(sd, peer) && p in sd.remoteOf && CanRun(sd.node, p)
    && Alive(sd.node, p) && sd.node.actors[p].started && Alive(sd.node, sd.ep)
  }

  /** Everything reaches a started proxy, links included. */
  lemma AllReceived(sd: Side, peer: Side, p: Id)
    requires Ready(sd, peer, p)
    ensures var nd1 := Take(sd.node, p);
            && p != sd.ep && Running(nd1, p) && nd1.actors[p].receiver && Alive(nd1, sd.ep)
            && AfterProxy(sd, p) == Invoke(nd1, p, ProxyCallback(sd, p, HeadOf(sd, p)))
  {
    assert ProxyOk(sd, peer, p) && Sound(sd.node.actors[p]);
    assert OutcomeOf(sd.node.actors[p], HeadOf(sd, p)).Received?;
    ProxyTaken(sd, peer, p);
  }

  /** A link is recorded in the proxy's own list and forwarded with the linking actor's id. */
  lemma LinkForwarded(sd: Side, peer: Side, p: Id)
    requires Ready(sd, peer, p) && HeadOf(sd, p).msg.Link?
    ensures var e, nd1 := HeadOf(sd, p), Take(sd.node, p);
            && nd1.actors[p].links == [e.from] + sd.node.actors[p].links
            && AfterProxy(sd, p) == Queue(nd1, sd.ep, Env(p, LinkWire(e.from, sd.remoteOf[p]), Direct))
  {
    AllReceived(sd, peer, p);
    OneSend(Take(sd.node, p), p, sd.ep, LinkWire(HeadOf(sd, p).from, sd.remoteOf[p]), Direct, true);
  }

  /** A request to be notified links the proxy and its target, both ways. */
  lemma NotifyLinks(sd: Side, peer: Side, p: Id, t: Id)
    requires Ready(sd, peer, p) && HeadOf(sd, p).msg == SetNotify(t) && Alive(Take(sd.node, p), t)
    ensures var nd1 := Take(sd.node, p);
            AfterProxy(sd, p) == AddLink(Queue(nd1, t, Env(p, Link, AtLink)), p, t)
  {
    AllReceived(sd, peer, p);
    OneLink(Take(sd.node, p), p, t);
  }

  lemma OneLink(nd: Node, a: Id, to: Id)
    requires a in nd.actors && nd.actors[a].receiver && Alive(nd, to)
    ensures Invoke(nd, a, Callback([LinkTo(to, true)], Ok)) == AddLink(Queue(nd, to, Env(a, Link, AtLink)), a, to)
  {
    var es := [LinkTo(to, true)];
    var nd' := AddLink(Queue(nd, to, Env(a, Link, AtLink)), a, to);
    assert es[1..] == [];
    assert ApplyEffect(nd, a, es[0]) == (nd', false);
    assert ApplyEffects(nd, a, es) == ApplyEffects(nd', a, []) == (nd', false);
  }

  /** The exit of a local actor is reported to the endpoint, and the proxy goes on. */
  lemma LocalExitReported(sd: Side, peer: Side, p: Id, t: Text)
    requires Ready(sd, peer, p) && HeadOf(sd, p).msg == Exit(Short(t)) && HeadOf(sd, p).from != sd.ep
    ensures AfterProxy(sd, p) == Queue(Take(sd.node, p), sd.ep, Env(p, LocalLinkExit(HeadOf(sd, p).from, t), Direct))
  {
    AllReceived(sd, peer, p);
    OneSend(Take(sd.node, p), p, sd.ep, LocalLinkExit(HeadOf(sd, p).from, t), Direct, false);
  }

  /** An exit message with more than a reason is no exit to a proxy: it is forwarded as a message. */
  lemma LongExitForwarded(sd: Side, peer: Side, p: Id, t: Text, d: nat)
    requires Ready(sd, peer, p) && HeadOf(sd, p).msg == Exit(Long(t, d))
    ensures AfterProxy(sd, p) == Queue(Take(sd.node, p), sd.ep, Env(p, Send(HeadOf(sd, p).from, sd.remoteOf[p], LongExit(t, d)), Direct))
  {
    AllReceived(sd, peer, p);
    OneSend(Take(sd.node, p), p, sd.ep, Send(HeadOf(sd, p).from, sd.remoteOf[p], LongExit(t, d)), Direct, true);
  }

  /** The exit of the remote actor: the endpoint is told to forget the proxy, which then exits with
      that reason, and tells its links. */
  lemma RemoteExitFollowed(sd: Side, peer: Side, p: Id, t: Text)
    requires Ready(sd, peer, p) && HeadOf(sd, p).msg == Exit(Short(t)) && HeadOf(sd, p).from == sd.ep
    ensures AfterProxy(sd, p) ==
              HandleExit(Queue(Take(sd.node, p), sd.ep, Env(p, ProxyExit(sd.remoteOf[p]), Direct)), p, Short(t))
  {
    AllReceived(sd, peer, p);
    OneSendThenExit(Take(sd.node, p), p, sd.ep, ProxyExit(sd.remoteOf[p]), Short(t));
  }

  lemma OneSendThenExit(nd: Node, a: Id, to: Id, m: Msg, r: Reason)
    requires a in nd.actors && Alive(nd, to)
    ensures Invoke(nd, a, Callback([SendTo(to, m, Direct, false)], Err(r))) == HandleExit(Queue(nd, to, Env(a, m, Direct)), a, r)
  {
    var es, nd' := [SendTo(to, m, Direct, false)], Queue(nd, to, Env(a, m, Direct));
    assert es[1..] == [];
    assert ApplyEffect(nd, a, es[0]) == (nd', false);
    assert ApplyEffects(nd, a, es) == ApplyEffects(nd', a, []) == (nd', false);
  }
}
