/**
 The exception in the theorem about exits is real: a run in which X and Y are linked across the wire,
 Y exits, and X is never told, although X and both endpoints stay alive.

 X, on the near side, traps exits.  It greets Y by name, so that Y's side makes a proxy Q for it; Y
 links to Q, and X's side makes a proxy P for Y, which links to X.  Then Y sends a message to a name
 that nobody has on the near side, and exits.  P fails on that message, and the notice of the exit
 finds it dead.
 */
module RemoteExitLoss {
  import opened Actors
  import opened Lifecycle
  import opened Remote
  import opened RemoteInv
  import opened RemoteSteps
  import opened RemoteEndpoint
  import opened RemoteMoves
  import opened RemoteExit
  import Breaks = RemoteBreaks
  import Loss = RemoteLoss
  import Names = RemoteNames

  /** On either side the user is instance 2 and the proxy, once it is made, instance 3. */
  const U: Id := 2
  const P: Id := 3

  const WAKE := Env(NOBODY, Null, Direct)
  const HELLO := SendNamed(U, 0, Plain(1))
  const ASK := SendNamed(U, 5, Plain(9))
  const REASON := Short(Other(1))
  const LINKED := Parties(U, U, P, P, REASON, 0)

  const Greets := Callback([SetTrap(true), Receive, SendTo(EP, HELLO, Direct, true)], Ok)
  const Links := Callback([Receive, LinkTo(P, true)], Ok)
  const Quits := Callback([SendTo(EP, ASK, Direct, true)], Err(REASON))

  /** A side with its proxy: what is queued at its endpoint, its proxy and its user, and on its wire. */
  predicate At(sd: Side, epBox: seq<Env>, out: seq<Frame>, pBox: seq<Env>, uBox: seq<Env>) {
    && sd.ep == EP && sd.table == map[U := P] && sd.remoteOf == map[P := U] && sd.out == out
    && Alive(sd.node, EP) && sd.node.actors[EP].mailbox == epBox
    && Alive(sd.node, P) && sd.node.actors[P].mailbox == pBox
    && Alive(sd.node, U) && sd.node.actors[U].mailbox == uBox
  }

  predicate Same(sd: Side, sd': Side, a: Id) {
    a in sd.node.actors && a in sd'.node.actors && sd'.node.actors[a] == sd.node.actors[a]
  }

  // ---------------------------------------------------------------- before there are proxies

  function Start(): Side {
    Loss.Spawned()
  }

  lemma XGreets(peer: Side)
    ensures EnabledOn(Start(), peer, UserRun(false, U, Greets))
    ensures var sd := Local(Start(), peer, UserRun(false, U, Greets));
            && sd == Start().(node := sd.node) && sd.node.next == 3 && sd.node.actors.Keys == {EP, U}
            && sd.node.actors[EP] == Start().node.actors[EP].(mailbox := [Env(U, HELLO, Direct)], accepted := [Env(U, HELLO, Direct)])
            && Alive(sd.node, U) && sd.node.actors[U].accepted == [WAKE] && sd.node.actors[U].mailbox == []
  {
    var nd := Start().node;
    var nd1 := Take(nd, U);
    var nd2 := Put(nd1, U, nd1.actors[U].(trap := true));
    var nd3 := Put(nd2, U, nd2.actors[U].(receiver := true));
    assert Fresh(NOBODY).mailbox == [WAKE];
    assert OutcomeOf(nd.actors[U], WAKE).Received?;
    assert ApplyEffect(nd1, U, SetTrap(true)) == (nd2, false);
    assert ApplyEffect(nd2, U, Receive) == (nd3, false);
    Loss.TwoEffects(nd2, U, Receive, SendTo(EP, HELLO, Direct, true));
    var es := Greets.effects;
    assert es[1..] == [Receive, SendTo(EP, HELLO, Direct, true)];
    assert Honest(Start(), es[2]);
    assert [] + [Env(U, HELLO, Direct)] == [Env(U, HELLO, Direct)];
  }

  predicate EndpointFit(sd: Side) {
    sd.ep in sd.node.actors && EndpointOk(sd.node.actors[sd.ep])
  }

  /** The endpoint writes the only message it has. */
  lemma Writes(sd: Side, peer: Side, ev: NetEvent, e: Env, fr: Frame)
    requires EndpointFit(sd) && ev.EndpointRun? && Alive(sd.node, sd.ep) && sd.node.actors[sd.ep].mailbox == [e] && FramesFor(e.msg) == [fr]
    ensures EnabledOn(sd, peer, ev)
    ensures var sd' := Local(sd, peer, ev);
            && sd' == sd.(node := sd'.node, out := sd.out + [fr]) && sd'.node.next == sd.node.next
            && sd'.node.actors.Keys == sd.node.actors.Keys && Alive(sd'.node, sd.ep) && sd'.node.actors[sd.ep].mailbox == []
            && forall a :: a in sd.node.actors && a != sd.ep ==> sd'.node.actors[a] == sd.node.actors[a]
  {
    var nd1 := Take(sd.node, sd.ep);
    assert OutcomeOf(sd.node.actors[sd.ep], e).Received?;
    NoEffect(nd1, sd.ep);
    assert RunEndpoint(sd) == sd.(node := nd1, out := sd.out + [fr]);
  }

  /** The endpoint makes the proxy for the peer's user and hands it a message. */
  lemma MakesProxy(sd: Side, peer: Side, ev: NetEvent, fr: Frame, m: Msg)
    requires EndpointFit(sd) && ev.WireIn? && peer.out != [] && peer.out[0] == fr && sd.ep == EP && Alive(sd.node, EP)
    requires sd.table == map[] && sd.remoteOf == map[] && sd.node.next == P && sd.node.actors.Keys == {EP, U}
    requires Dispatch(sd, fr) == ToProxy(sd, U, m) && !m.Exit?
    ensures EnabledOn(sd, peer, ev)
    ensures var sd' := Local(sd, peer, ev);
            && sd' == sd.(node := sd'.node, table := map[U := P], remoteOf := map[P := U]) && Same(sd, sd', U)
            && P in sd'.node.actors && sd'.node.actors[P] == Fresh(NOBODY).(mailbox := [WAKE, Env(EP, m, Direct)], accepted := [WAKE, Env(EP, m, Direct)])
            && Alive(sd'.node, EP) && sd'.node.actors[EP].mailbox == sd.node.actors[EP].mailbox
  {
    var nd1 := Put(sd.node, EP, Entered(sd.node.actors[EP]));
    assert ApplyEffect(nd1, EP, Spawn) == (SpawnOne(nd1, NOBODY), false);
    assert Fresh(NOBODY).mailbox == [WAKE];
    assert [WAKE] + [Env(EP, m, Direct)] == [WAKE, Env(EP, m, Direct)];
    Loss.TwoEffects(nd1, EP, Spawn, SendTo(P, m, Direct, true));
  }

  // ---------------------------------------------------------------- steps of a side with its proxy

  /** The proxy starts. */
  lemma Starts(sd: Side, peer: Side, ev: NetEvent, epBox: seq<Env>, out: seq<Frame>, rest: seq<Env>, uBox: seq<Env>)
    requires ev.ProxyRun? && ev.who == P && At(sd, epBox, out, [WAKE] + rest, uBox)
    requires var p := sd.node.actors[P]; !p.started && !p.trap && !p.observe
    ensures EnabledOn(sd, peer, ev)
    ensures var sd' := Local(sd, peer, ev);
            && sd' == sd.(node := sd'.node) && At(sd', epBox, out, rest, uBox) && Same(sd, sd', U) && sd'.node.actors[P].started
            && sd'.node.actors[P].links == sd.node.actors[P].links
  {
    assert ([WAKE] + rest)[0] == WAKE && ([WAKE] + rest)[1..] == rest;
    assert OutcomeOf(sd.node.actors[P], WAKE).Received?;
    FirstRun(Take(sd.node, P), P);
  }

  /** The proxy of X hands the greeting to Y. */
  lemma Delivers(sd: Side, peer: Side, ev: NetEvent, uBox: seq<Env>)
    requires SideOk(sd, peer) && ev.ProxyRun? && ev.who == P && At(sd, [], [], [Env(EP, DeliverNamed(0, Plain(1)), Direct)], uBox)
    requires sd.node.actors[P].started && sd.names == map[0 := U]
    ensures EnabledOn(sd, peer, ev)
    ensures Local(sd, peer, ev) == sd.(node := Queue(Take(sd.node, P), U, Env(P, Data(1), ByName)))
  {
    Names.NamedDelivered(sd, peer, P, 0, Plain(1));
  }

  /** A started proxy takes its only envelope and queues one for the user. */
  lemma PassedToUser(sd: Side, epBox: seq<Env>, out: seq<Frame>, e: Env, uBox: seq<Env>, m: Env)
    requires At(sd, epBox, out, [e], uBox) && sd.node.actors[P].started && !e.msg.Link?
    ensures var sd' := sd.(node := Queue(Take(sd.node, P), U, m));
            && At(sd', epBox, out, [], uBox + [m]) && sd'.node.actors[P].started && sd'.node.actors[P].links == sd.node.actors[P].links
            && sd'.node.actors[U] == sd.node.actors[U].(mailbox := uBox + [m], accepted := sd.node.actors[U].accepted + [m])
  {
    assert [e][1..] == [];
  }

  /** A started proxy takes its only envelope and queues one for the endpoint. */
  lemma PassedToEndpoint(sd: Side, out: seq<Frame>, e: Env, uBox: seq<Env>, m: Env)
    requires At(sd, [], out, [e], uBox) && sd.node.actors[P].started
    ensures var sd' := sd.(node := Queue(Take(sd.node, P), EP, m));
            At(sd', [m], out, [], uBox) && Same(sd, sd', U) && sd'.node.actors[P].started
  {
    assert [e][1..] == [] && [] + [m] == [m];
  }

  /** Y's first run: it links to the proxy of X. */
  lemma YLinks(sd: Side, peer: Side, rest: seq<Env>)
    requires At(sd, [], [], [], [WAKE] + rest) && sd.node.actors[P].started
    requires var y := sd.node.actors[U]; !y.started && !y.observe && !y.trap && y.links == []
    ensures EnabledOn(sd, peer, UserRun(true, U, Links))
    ensures var sd' := Local(sd, peer, UserRun(true, U, Links));
            && sd' == sd.(node := sd'.node) && At(sd', [], [], [Env(U, Link, AtLink)], rest) && sd'.node.actors[P].started
            && sd'.node.actors[P].links == sd.node.actors[P].links
            && sd'.node.actors[U].links == [P] && sd'.node.actors[U].started
  {
    var nd1 := Take(sd.node, U);
    var nd2 := Put(nd1, U, nd1.actors[U].(receiver := true));
    assert ([WAKE] + rest)[0] == WAKE && ([WAKE] + rest)[1..] == rest;
    assert OutcomeOf(sd.node.actors[U], WAKE).Received?;
    assert ApplyEffect(nd1, U, Receive) == (nd2, false);
    Loss.TwoEffects(nd1, U, Receive, LinkTo(P, true));
    assert [] + [Env(U, Link, AtLink)] == [Env(U, Link, AtLink)];
    assert [P] + [] == [P];
  }

  /** The proxy of X forwards the link. */
  lemma Forwards(sd: Side, peer: Side, ev: NetEvent, uBox: seq<Env>)
    requires SideOk(sd, peer) && ev.ProxyRun? && ev.who == P && At(sd, [], [], [Env(U, Link, AtLink)], uBox) && sd.node.actors[P].started
    ensures EnabledOn(sd, peer, ev)
    ensures var sd' := Local(sd, peer, ev);
            && sd' == sd.(node := sd'.node) && At(sd', [Env(P, LinkWire(U, U), Direct)], [], [], uBox) && Same(sd, sd', U)
            && sd'.node.actors[P].started
  {
    Branches.LinkForwarded(sd, peer, P);
    PassedToEndpoint(sd, [], Env(U, Link, AtLink), uBox, Env(P, LinkWire(U, U), Direct));
  }

  /** The proxy of Y links to X. */
  lemma Notifies(sd: Side, peer: Side, ev: NetEvent, out: seq<Frame>, uBox: seq<Env>)
    requires SideOk(sd, peer) && ev.ProxyRun? && ev.who == P && At(sd, [], out, [Env(EP, SetNotify(U), Direct)], uBox)
    requires sd.node.actors[P].started && sd.node.actors[P].links == []
    ensures EnabledOn(sd, peer, ev)
    ensures var sd', m := Local(sd, peer, ev), Env(P, Link, AtLink);
            && sd' == sd.(node := sd'.node) && At(sd', [], out, [], uBox + [m]) && sd'.node.actors[P].started
            && sd'.node.actors[P].links == [U] && sd'.node.actors[U].accepted == sd.node.actors[U].accepted + [m]
  {
    Branches.NotifyLinks(sd, peer, P, U);
    assert [U] + [] == [U];
  }

  // ---------------------------------------------------------------- the exit

  /** Y asks for a name that X's side does not know, and exits. */
  lemma YQuits(sd: Side, peer: Side, e: Env)
    requires At(sd, [], [], [], [e]) && e.msg.Data? && sd.node.actors[U].exits == [] && sd.node.next > P
    requires sd.node.actors[U].started && sd.node.actors[U].links == [P] && sd.node.actors[P].started
    ensures EnabledOn(sd, peer, UserRun(true, U, Quits))
    ensures var sd' := Local(sd, peer, UserRun(true, U, Quits));
            && sd' == sd.(node := sd'.node) && U in sd'.node.actors && ExitedWith(sd'.node, U, REASON)
            && sd'.node == Run(sd.node, U, Quits)
            && Alive(sd'.node, EP) && sd'.node.actors[EP].mailbox == [Env(U, ASK, Direct)]
            && Alive(sd'.node, P) && sd'.node.actors[P].mailbox == [ExitEnv(U, REASON)] && sd'.node.actors[P].started
  {
    var nd1 := Take(sd.node, U);
    assert OutcomeOf(sd.node.actors[U], e).Received?;
    var s := SendTo(EP, ASK, Direct, true);
    var nd2 := Queue(nd1, EP, Env(U, ASK, Direct));
    assert [s][1..] == [] && ApplyEffect(nd1, U, s) == (nd2, false);
    assert ApplyEffects(nd1, U, [s]) == ApplyEffects(nd2, U, []) == (nd2, false);
    assert Honest(sd, s);
    assert [] + [Env(U, ASK, Direct)] == [Env(U, ASK, Direct)] && [] + [ExitEnv(U, REASON)] == [ExitEnv(U, REASON)];
    TellsOne(nd2, U, REASON, P);
  }

  lemma TellsOne(nd: Node, a: Id, r: Reason, b: Id)
    requires a in nd.actors && nd.actors[a].links == [b] && a != b
    ensures HandleExit(nd, a, r) == Queue(MarkExit(nd, a, r), b, ExitEnv(a, r))
  {
    assert [b][1..] == [];
    var nd1 := Queue(MarkExit(nd, a, r), b, ExitEnv(a, r));
    assert NotifyAll(nd1, [], ExitEnv(a, r)) == nd1;
  }

  /** The proxy of X reports the exit. */
  lemma Reports(sd: Side, peer: Side, ev: NetEvent)
    requires SideOk(sd, peer) && ev.ProxyRun? && ev.who == P && P in sd.remoteOf && sd.ep == EP
    requires Alive(sd.node, P) && sd.node.actors[P].started && sd.node.actors[P].mailbox == [ExitEnv(U, REASON)] && Alive(sd.node, EP)
    ensures EnabledOn(sd, peer, ev)
    ensures Local(sd, peer, ev) == sd.(node := Queue(Take(sd.node, P), EP, Env(P, LocalLinkExit(U, Other(1)), Direct)))
  {
    Branches.LocalExitReported(sd, peer, P, Other(1));
  }

  lemma Reported(sd: Side, m: Env)
    requires P in sd.node.actors && Alive(sd.node, P) && sd.node.actors[P].mailbox == [ExitEnv(U, REASON)]
    requires Alive(sd.node, EP) && sd.node.actors[EP].mailbox == [] && U in sd.node.actors
    ensures var sd' := sd.(node := Queue(Take(sd.node, P), EP, m));
            && Same(sd, sd', U) && Alive(sd'.node, EP) && sd'.node.actors[EP].mailbox == [m]
            && Alive(sd'.node, P) && sd'.node.actors[P].mailbox == []
  {
    assert [ExitEnv(U, REASON)][1..] == [] && [] + [m] == [m];
  }

  /** X's endpoint passes the message for the unknown name to the proxy of Y. */
  lemma PassesOn(sd: Side, peer: Side, ev: NetEvent, out: seq<Frame>, uBox: seq<Env>)
    requires EndpointFit(sd) && ev.WireIn? && At(sd, [], out, [], uBox) && peer.out != [] && peer.out[0] == NamedFrame(U, 5, Plain(9))
    requires sd.node.actors[P].started && sd.node.actors[P].links == [U]
    ensures EnabledOn(sd, peer, ev)
    ensures var sd' := Local(sd, peer, ev);
            && sd' == sd.(node := sd'.node) && At(sd', [], out, [Env(EP, DeliverNamed(5, Plain(9)), Direct)], uBox) && Same(sd, sd', U)
            && sd'.node.actors[P].started && sd'.node.actors[P].links == [U]
  {
    var m := DeliverNamed(5, Plain(9));
    FrameExact(sd, peer.out[0], m, P, true);
    assert [] + [Env(EP, m, Direct)] == [Env(EP, m, Direct)];
  }

  /** The proxy of Y fails. */
  lemma Fails(sd: Side, peer: Side, ev: NetEvent, out: seq<Frame>, uBox: seq<Env>)
    requires SideOk(sd, peer) && ev.ProxyRun? && ev.who == P && At(sd, [], out, [Env(EP, DeliverNamed(5, Plain(9)), Direct)], uBox)
    requires sd.node.actors[P].started && sd.node.actors[P].links == [U] && sd.names == map[]
    ensures EnabledOn(sd, peer, ev)
    ensures var sd' := Local(sd, peer, ev);
            && sd' == sd.(node := sd'.node) && Alive(sd'.node, EP) && sd'.node.actors[EP].mailbox == []
            && P in sd'.node.actors && !Alive(sd'.node, P) && sd'.node.actors[P].mailbox == []
            && Alive(sd'.node, U) && sd'.node.actors[U].accepted == sd.node.actors[U].accepted + [ExitEnv(P, DEAD_SEND)]
  {
    var nd1, e := Take(sd.node, P), SendTo(NOBODY, Data(9), ByName, true);
    Branches.AllReceived(sd, peer, P);
    assert NOBODY !in sd.node.actors by { assert Ids(sd.node); }
    assert ApplyEffect(nd1, P, e) == (nd1, true);
    assert ApplyEffects(nd1, P, [e]) == (nd1, true);
    TellsOne(nd1, P, DEAD_SEND, U);
  }

  /** The notice finds nobody. */
  lemma FindsNobody(sd: Side, peer: Side, ev: NetEvent)
    requires EndpointFit(sd) && ev.WireIn? && peer.out == [ExitFrame(U, Other(1))] && sd.table == map[U := P]
    requires sd.ep == EP && Alive(sd.node, EP) && P in sd.node.actors && !Alive(sd.node, P) && U in sd.node.actors
    ensures EnabledOn(sd, peer, ev)
    ensures var sd' := Local(sd, peer, ev);
            sd' == sd.(node := sd'.node) && Alive(sd'.node, EP) && Same(sd, sd', U) && Same(sd, sd', P)
  {
    Breaks.NoticeDiesWithProxy(sd, U, Other(1));
  }

  // ---------------------------------------------------------------- the steps of the run

  /** What an event that can occur makes of the two sides. */
  lemma Act(w: World, ev: NetEvent)
    requires Formed(w) && EnabledOn(Get(w, ev.s), Get(w, !ev.s), ev)
    ensures var w', peer := NetStep(w, ev), Get(w, !ev.s);
            && Get(w', ev.s) == Local(Get(w, ev.s), peer, ev)
            && Get(w', !ev.s) == if ev.WireIn? then peer.(out := peer.out[1..]) else peer
  {
  }

  lemma Fits(sd: Side, peer: Side)
    requires SideOk(sd, peer)
    ensures EndpointFit(sd)
  {
  }

  lemma AliveFits(sd: Side, peer: Side, a: Id)
    requires SideOk(sd, peer) && Alive(sd.node, a)
    ensures sd.node.actors[a].exits == [] && a < sd.node.next
  {
    assert Sound(sd.node.actors[a]) && Ids(sd.node);
  }

  /** X's side as long as it has no proxy. */
  predicate Bare(sd: Side, out: seq<Frame>) {
    && sd.ep == EP && sd.table == map[] && sd.remoteOf == map[] && sd.names == map[]
    && sd.out == out && sd.node.next == P && sd.node.actors.Keys == {EP, U}
    && Alive(sd.node, EP) && sd.node.actors[EP].mailbox == []
    && Alive(sd.node, U) && sd.node.actors[U].accepted == [WAKE] && sd.node.actors[U].mailbox == []
  }

  /** X's side once P is linked to X. */
  predicate Tied(sd: Side, pBox: seq<Env>) {
    && At(sd, [], [], pBox, [Env(P, Link, AtLink)]) && sd.names == map[]
    && sd.node.actors[P].started && sd.node.actors[P].links == [U]
    && sd.node.actors[U].accepted == [WAKE, Env(P, Link, AtLink)]
  }

  /** Y's side before Y is linked. */
  predicate Waiting(sd: Side, pBox: seq<Env>, started: bool, uBox: seq<Env>) {
    && At(sd, [], [], pBox, uBox) && sd.names == map[0 := U] && sd.node.actors[P].started == started
    && (!started ==> !sd.node.actors[P].trap && !sd.node.actors[P].observe)
    && var y := sd.node.actors[U]; !y.started && !y.observe && !y.trap && y.links == []
  }

  /** Y's side once Y is linked to Q. */
  predicate Linked(sd: Side, epBox: seq<Env>, out: seq<Frame>, pBox: seq<Env>) {
    && At(sd, epBox, out, pBox, [Env(P, Data(1), ByName)])
    && sd.node.actors[P].started && sd.node.actors[U].started && sd.node.actors[U].links == [P]
  }

  /** Y's side once Y has exited. */
  predicate Left(sd: Side, epBox: seq<Env>, out: seq<Frame>, pBox: seq<Env>) {
    && sd.ep == EP && sd.remoteOf == map[P := U] && sd.out == out && U in sd.node.actors
    && Alive(sd.node, EP) && sd.node.actors[EP].mailbox == epBox
    && Alive(sd.node, P) && sd.node.actors[P].started && sd.node.actors[P].mailbox == pBox
  }

  const GREETING := NamedFrame(U, 0, Plain(1))
  const GREETED := Env(EP, DeliverNamed(0, Plain(1)), Direct)
  const REQUEST := Env(EP, SetNotify(U), Direct)
  const ASKED := NamedFrame(U, 5, Plain(9))
  const NOTICE := ExitFrame(U, Other(1))
  const REPORT := Env(P, LocalLinkExit(U, Other(1)), Direct)

  const NAMED := Start().(names := map[0 := U])

  /** Some run leads from s to w. */
  ghost predicate From(s: World, w: World) {
    RInv(s) && exists evs :: w == NetRun(s, evs)
  }

  lemma FromOk(s: World, w: World)
    requires From(s, w)
    ensures RInv(w)
  {
    var evs :| w == NetRun(s, evs);
    NetRunKeeps(s, evs);
  }

  lemma FromStep(s: World, w: World, ev: NetEvent)
    requires From(s, w)
    ensures From(s, NetStep(w, ev))
  {
    var evs :| w == NetRun(s, evs);
    Loss.OneMore(s, evs, ev);
  }

  lemma FromStart(s: World)
    requires RInv(s)
    ensures From(s, s)
  {
    assert s == NetRun(s, []);
  }

  lemma Greeting1(s: World, w: World) returns (w': World)
    requires From(s, w) && w == World(Start(), NAMED)
    ensures From(s, w')
    ensures w'.far == NAMED && w'.near == Local(Start(), NAMED, UserRun(false, U, Greets))
  {
    FromOk(s, w);
    XGreets(NAMED);
    Act(w, UserRun(false, U, Greets));
    w' := NetStep(w, UserRun(false, U, Greets));
    FromStep(s, w, UserRun(false, U, Greets));
  }

  lemma Greeting2(s: World, w: World) returns (w': World)
    requires From(s, w) && w.far == NAMED && w.near == Local(Start(), NAMED, UserRun(false, U, Greets))
    ensures From(s, w')
    ensures w'.far == NAMED && Bare(w'.near, [GREETING])
  {
    FromOk(s, w);
    XGreets(NAMED);
    Fits(w.near, w.far);
    Writes(w.near, w.far, EndpointRun(false), Env(U, HELLO, Direct), GREETING);
    Act(w, EndpointRun(false));
    w' := NetStep(w, EndpointRun(false));
    FromStep(s, w, EndpointRun(false));
    assert [] + [GREETING] == [GREETING];
  }

  lemma Joining1(s: World, w: World) returns (w': World)
    requires From(s, w) && w.far == NAMED && Bare(w.near, [GREETING])
    ensures From(s, w')
    ensures Bare(w'.near, []) && Waiting(w'.far, [WAKE, GREETED], false, [WAKE])
  {
    FromOk(s, w);
    Fits(w.far, w.near);
    MakesProxy(w.far, w.near, WireIn(true), GREETING, GREETED.msg);
    Act(w, WireIn(true));
    w' := NetStep(w, WireIn(true));
    FromStep(s, w, WireIn(true));
    assert Fresh(NOBODY).mailbox == [WAKE];
  }

  lemma Joining2(s: World, w: World) returns (w': World)
    requires From(s, w) && Bare(w.near, []) && Waiting(w.far, [WAKE, GREETED], false, [WAKE])
    ensures From(s, w')
    ensures Bare(w'.near, []) && Waiting(w'.far, [GREETED], true, [WAKE])
  {
    FromOk(s, w);
    assert [WAKE] + [GREETED] == [WAKE, GREETED];
    Starts(w.far, w.near, ProxyRun(true, P), [], [], [GREETED], [WAKE]);
    Act(w, ProxyRun(true, P));
    w' := NetStep(w, ProxyRun(true, P));
    FromStep(s, w, ProxyRun(true, P));
  }

  lemma Joining3(s: World, w: World) returns (w': World)
    requires From(s, w) && Bare(w.near, []) && Waiting(w.far, [GREETED], true, [WAKE])
    ensures From(s, w')
    ensures Bare(w'.near, []) && Waiting(w'.far, [], true, [WAKE, Env(P, Data(1), ByName)])
  {
    FromOk(s, w);
    Delivers(w.far, w.near, ProxyRun(true, P), [WAKE]);
    PassedToUser(w.far, [], [], GREETED, [WAKE], Env(P, Data(1), ByName));
    Act(w, ProxyRun(true, P));
    w' := NetStep(w, ProxyRun(true, P));
    FromStep(s, w, ProxyRun(true, P));
    assert [WAKE] + [Env(P, Data(1), ByName)] == [WAKE, Env(P, Data(1), ByName)];
  }

  lemma Joining4(s: World, w: World) returns (w': World)
    requires From(s, w) && Bare(w.near, []) && Waiting(w.far, [], true, [WAKE, Env(P, Data(1), ByName)])
    ensures From(s, w')
    ensures Bare(w'.near, []) && Linked(w'.far, [], [], [Env(U, Link, AtLink)])
  {
    FromOk(s, w);
    assert [WAKE] + [Env(P, Data(1), ByName)] == [WAKE, Env(P, Data(1), ByName)];
    YLinks(w.far, w.near, [Env(P, Data(1), ByName)]);
    Act(w, UserRun(true, U, Links));
    w' := NetStep(w, UserRun(true, U, Links));
    FromStep(s, w, UserRun(true, U, Links));
  }

  lemma Joining5(s: World, w: World) returns (w': World)
    requires From(s, w) && Bare(w.near, []) && Linked(w.far, [], [], [Env(U, Link, AtLink)])
    ensures From(s, w')
    ensures Bare(w'.near, []) && Linked(w'.far, [Env(P, LinkWire(U, U), Direct)], [], [])
  {
    FromOk(s, w);
    Forwards(w.far, w.near, ProxyRun(true, P), [Env(P, Data(1), ByName)]);
    Act(w, ProxyRun(true, P));
    w' := NetStep(w, ProxyRun(true, P));
    FromStep(s, w, ProxyRun(true, P));
  }

  lemma Joining6(s: World, w: World) returns (w': World)
    requires From(s, w) && Bare(w.near, []) && Linked(w.far, [Env(P, LinkWire(U, U), Direct)], [], [])
    ensures From(s, w')
    ensures Bare(w'.near, []) && Linked(w'.far, [], [LinkFrame(U, U)], [])
  {
    FromOk(s, w);
    Fits(w.far, w.near);
    Writes(w.far, w.near, EndpointRun(true), Env(P, LinkWire(U, U), Direct), LinkFrame(U, U));
    Act(w, EndpointRun(true));
    w' := NetStep(w, EndpointRun(true));
    FromStep(s, w, EndpointRun(true));
    assert [] + [LinkFrame(U, U)] == [LinkFrame(U, U)];
  }

  /** X's side while P has not started, or has not handled the request yet. */
  predicate Made(sd: Side, pBox: seq<Env>, started: bool) {
    && At(sd, [], [], pBox, []) && sd.names == map[] && sd.node.actors[U].accepted == [WAKE]
    && sd.node.actors[P].links == [] && sd.node.actors[P].started == started
    && (!started ==> !sd.node.actors[P].trap && !sd.node.actors[P].observe)
  }

  lemma Binding1(s: World, w: World) returns (w': World)
    requires From(s, w) && Bare(w.near, []) && Linked(w.far, [], [LinkFrame(U, U)], [])
    ensures From(s, w')
    ensures Made(w'.near, [WAKE, REQUEST], false) && Linked(w'.far, [], [], [])
  {
    FromOk(s, w);
    Fits(w.near, w.far);
    MakesProxy(w.near, w.far, WireIn(false), LinkFrame(U, U), SetNotify(U));
    Act(w, WireIn(false));
    w' := NetStep(w, WireIn(false));
    FromStep(s, w, WireIn(false));
  }

  lemma Binding2(s: World, w: World) returns (w': World)
    requires From(s, w) && Made(w.near, [WAKE, REQUEST], false) && Linked(w.far, [], [], [])
    ensures From(s, w')
    ensures Made(w'.near, [REQUEST], true) && Linked(w'.far, [], [], [])
  {
    FromOk(s, w);
    assert [WAKE] + [REQUEST] == [WAKE, REQUEST];
    Starts(w.near, w.far, ProxyRun(false, P), [], [], [REQUEST], []);
    Act(w, ProxyRun(false, P));
    w' := NetStep(w, ProxyRun(false, P));
    FromStep(s, w, ProxyRun(false, P));
  }

  lemma Binding3(s: World, w: World) returns (w': World)
    requires From(s, w) && Made(w.near, [REQUEST], true) && Linked(w.far, [], [], [])
    ensures From(s, w')
    ensures Tied(w'.near, []) && Linked(w'.far, [], [], [])
  {
    FromOk(s, w);
    Notifies(w.near, w.far, ProxyRun(false, P), [], []);
    Act(w, ProxyRun(false, P));
    w' := NetStep(w, ProxyRun(false, P));
    FromStep(s, w, ProxyRun(false, P));
    assert [] + [Env(P, Link, AtLink)] == [Env(P, Link, AtLink)];
    assert [WAKE] + [Env(P, Link, AtLink)] == [WAKE, Env(P, Link, AtLink)];
  }

  lemma Going1(s: World, w: World) returns (w': World)
    requires From(s, w) && Tied(w.near, []) && Linked(w.far, [], [], [])
    ensures Enabled(w, UserRun(true, U, Quits)) && ExitedWith(Run(w.far.node, U, Quits), U, REASON)
    ensures w' == NetStep(w, UserRun(true, U, Quits)) && From(s, w')
    ensures Tied(w'.near, []) && Left(w'.far, [Env(U, ASK, Direct)], [], [ExitEnv(U, REASON)])
  {
    FromOk(s, w);
    AliveFits(w.far, w.near, U);
    AliveFits(w.far, w.near, P);
    YQuits(w.far, w.near, Env(P, Data(1), ByName));
    Act(w, UserRun(true, U, Quits));
    w' := NetStep(w, UserRun(true, U, Quits));
    FromStep(s, w, UserRun(true, U, Quits));
  }

  lemma Going2(s: World, w: World) returns (w': World)
    requires From(s, w) && Tied(w.near, []) && Left(w.far, [Env(U, ASK, Direct)], [], [ExitEnv(U, REASON)])
    ensures From(s, w')
    ensures Tied(w'.near, []) && Left(w'.far, [], [ASKED], [ExitEnv(U, REASON)])
  {
    FromOk(s, w);
    Fits(w.far, w.near);
    Writes(w.far, w.near, EndpointRun(true), Env(U, ASK, Direct), ASKED);
    Act(w, EndpointRun(true));
    w' := NetStep(w, EndpointRun(true));
    FromStep(s, w, EndpointRun(true));
    assert [] + [ASKED] == [ASKED];
  }

  lemma Going3(s: World, w: World) returns (w': World)
    requires From(s, w) && Tied(w.near, []) && Left(w.far, [], [ASKED], [ExitEnv(U, REASON)])
    ensures From(s, w')
    ensures Tied(w'.near, []) && Left(w'.far, [REPORT], [ASKED], [])
  {
    FromOk(s, w);
    Reports(w.far, w.near, ProxyRun(true, P));
    Reported(w.far, REPORT);
    Act(w, ProxyRun(true, P));
    w' := NetStep(w, ProxyRun(true, P));
    FromStep(s, w, ProxyRun(true, P));
  }

  lemma Going4(s: World, w: World) returns (w': World)
    requires From(s, w) && Tied(w.near, []) && Left(w.far, [REPORT], [ASKED], [])
    ensures From(s, w')
    ensures Tied(w'.near, []) && Left(w'.far, [], [ASKED, NOTICE], [])
  {
    FromOk(s, w);
    Fits(w.far, w.near);
    Writes(w.far, w.near, EndpointRun(true), REPORT, NOTICE);
    Act(w, EndpointRun(true));
    w' := NetStep(w, EndpointRun(true));
    FromStep(s, w, EndpointRun(true));
    assert [ASKED] + [NOTICE] == [ASKED, NOTICE];
  }

  lemma Losing1(s: World, w: World) returns (w': World)
    requires From(s, w) && Tied(w.near, []) && Left(w.far, [], [ASKED, NOTICE], [])
    ensures From(s, w')
    ensures Tied(w'.near, [Env(EP, DeliverNamed(5, Plain(9)), Direct)]) && Left(w'.far, [], [NOTICE], [])
  {
    FromOk(s, w);
    Fits(w.near, w.far);
    PassesOn(w.near, w.far, WireIn(false), [], [Env(P, Link, AtLink)]);
    Act(w, WireIn(false));
    w' := NetStep(w, WireIn(false));
    FromStep(s, w, WireIn(false));
    assert [ASKED, NOTICE][1..] == [NOTICE];
  }

  /** X's side once P has failed. */
  predicate Failed(sd: Side) {
    && sd.ep == EP && sd.table == map[U := P] && Alive(sd.node, EP) && Alive(sd.node, U)
    && P in sd.node.actors && !Alive(sd.node, P)
    && sd.node.actors[U].accepted == [WAKE, Env(P, Link, AtLink), ExitEnv(P, DEAD_SEND)]
  }

  lemma Losing2(s: World, w: World) returns (w': World)
    requires From(s, w) && Tied(w.near, [Env(EP, DeliverNamed(5, Plain(9)), Direct)]) && Left(w.far, [], [NOTICE], [])
    ensures From(s, w')
    ensures Failed(w'.near) && Left(w'.far, [], [NOTICE], [])
  {
    FromOk(s, w);
    Fails(w.near, w.far, ProxyRun(false, P), [], [Env(P, Link, AtLink)]);
    Act(w, ProxyRun(false, P));
    w' := NetStep(w, ProxyRun(false, P));
    FromStep(s, w, ProxyRun(false, P));
    assert [WAKE, Env(P, Link, AtLink)] + [ExitEnv(P, DEAD_SEND)] == [WAKE, Env(P, Link, AtLink), ExitEnv(P, DEAD_SEND)];
  }

  lemma Losing3(s: World, w: World) returns (w': World)
    requires From(s, w) && Failed(w.near) && Left(w.far, [], [NOTICE], [])
    ensures From(s, w')
    ensures Failed(w'.near) && Left(w'.far, [], [], [])
  {
    FromOk(s, w);
    Fits(w.near, w.far);
    FindsNobody(w.near, w.far, WireIn(false));
    Act(w, WireIn(false));
    w' := NetStep(w, WireIn(false));
    FromStep(s, w, WireIn(false));
  }

  // ---------------------------------------------------------------- the run

  lemma Opening() returns (w: World)
    ensures From(INIT, w) && w == World(Start(), NAMED)
  {
    InitOk();
    FromStart(INIT);
    var w1 := NetStep(INIT, UserSpawn(false));
    FromStep(INIT, INIT, UserSpawn(false));
    var w2 := NetStep(w1, UserSpawn(true));
    FromStep(INIT, w1, UserSpawn(true));
    assert w2 == World(Start(), Start());
    FromStep(INIT, w2, Register(true, 0, U));
    w := NetStep(w2, Register(true, 0, U));
  }

  lemma Meeting() returns (w: World)
    ensures From(INIT, w) && Tied(w.near, []) && Linked(w.far, [], [], [])
  {
    w := Opening();
    w := Greeting1(INIT, w);
    w := Greeting2(INIT, w);
    w := Joining1(INIT, w);
    w := Joining2(INIT, w);
    w := Joining3(INIT, w);
    w := Joining4(INIT, w);
    w := Joining5(INIT, w);
    w := Joining6(INIT, w);
    w := Binding1(INIT, w);
    w := Binding2(INIT, w);
    w := Binding3(INIT, w);
  }

  lemma Parting(s: World) returns (w: World)
    requires From(s, s) && Tied(s.near, []) && Left(s.far, [Env(U, ASK, Direct)], [], [ExitEnv(U, REASON)])
    ensures From(s, w) && Failed(w.near) && Left(w.far, [], [], [])
  {
    w := Going2(s, s);
    w := Going3(s, w);
    w := Going4(s, w);
    w := Losing1(s, w);
    w := Losing2(s, w);
    w := Losing3(s, w);
  }

  /** X and both endpoints are alive, nothing is on its way, and X has not been told. */
  predicate Untold(home: Side, away: Side, c: Parties) {
    && Alive(away.node, c.x) && Alive(home.node, home.ep) && Alive(away.node, away.ep)
    && !AtPeerProxy(home, c) && !AtFarEndpoint(home, c) && !OnWire(home, c) && !AtLocalProxy(away, c) && !Told(away, c)
  }

  lemma FailedIsUntold(home: Side, away: Side)
    requires Failed(away) && Left(home, [], [], [])
    ensures Untold(home, away, LINKED)
  {
  }

  lemma TiedIsLinked(home: Side, away: Side)
    requires Tied(away, []) && Linked(home, [], [], [])
    ensures LinkedAcross(home, away, LINKED)
  {
  }

  /** An exit is lost between X and Y, which were linked across the wire, although X and both endpoints
      are alive: X has not been told and nothing is on its way to it. */
  lemma ExitLost() returns (before: seq<NetEvent>, after: seq<NetEvent>)
    ensures var w0 := NetRun(INIT, before);
            && Enabled(w0, UserRun(true, U, Quits)) && LinkedAcross(w0.far, w0.near, LINKED)
            && ExitedWith(Run(w0.far.node, U, Quits), U, REASON)
            && var w := NetRun(NetStep(w0, UserRun(true, U, Quits)), after); Untold(w.far, w.near, LINKED)
  {
    var w0 := Meeting();
    before :| w0 == NetRun(INIT, before);
    TiedIsLinked(w0.far, w0.near);
    var w1 := Going1(INIT, w0);
    FromOk(INIT, w1);
    FromStart(w1);
    var w := Parting(w1);
    after :| w == NetRun(w1, after);
    FailedIsUntold(w.far, w.near);
  }
}
