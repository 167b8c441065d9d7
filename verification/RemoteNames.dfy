/**
 A message sent to a name on the other side is never lost: it is at the endpoint, on the wire or at
 the proxy of its sender, or it was given to the actor that had the name.
 */
module RemoteNames {
  import opened Actors
  import opened Lifecycle
  import opened Remote
  import opened RemoteInv
  import opened RemoteSteps
  import opened RemoteEndpoint
  import opened RemoteMoves
  import Branches = RemoteBranches
  import Arrivals = RemoteArrivals
  import Exits = RemoteExit

  /** A message from f for whoever is called n. */
  datatype Letter = Letter(f: Id, n: nat, pl: Payload)

  predicate AtEndpoint(home: Side, c: Letter) {
    Alive(home.node, home.ep) && exists e :: e in home.node.actors[home.ep].mailbox && e.msg == SendNamed(c.f, c.n, c.pl)
  }

  predicate OnWire(home: Side, c: Letter) {
    NamedFrame(c.f, c.n, c.pl) in home.out
  }

  predicate StandsFor(sd: Side, p: Id, f: Id) {
    p in sd.remoteOf && sd.remoteOf[p] == f
  }

  predicate HasLetter(away: Side, c: Letter, p: Id) {
    StandsFor(away, p, c.f) && Alive(away.node, p) && Env(away.ep, DeliverNamed(c.n, c.pl), Direct) in away.node.actors[p].mailbox
  }

  /** b was given the message, by the proxy of its sender, or by the endpoint if it has none. */
  predicate Given(away: Side, c: Letter, b: Id, from: Id) {
    && b in away.node.actors && Env(from, AsMsg(c.pl), ByName) in away.node.actors[b].accepted
    && (StandsFor(away, from, c.f) || (c.f == NOBODY && from == away.ep))
  }

  predicate Stopped(away: Side, c: Letter, p: Id) {
    StandsFor(away, p, c.f) && Exited(away.node, p)
  }

  /** An endpoint has ended, or a proxy of the sender has; or the message is an exit, which may be sent to
      nobody. */
  ghost predicate Escaped(home: Side, away: Side, c: Letter) {
    || !Alive(home.node, home.ep) || !Alive(away.node, away.ep) || c.pl.LongExit?
    || exists p :: Stopped(away, c, p)
  }

  ghost predicate OnWay(home: Side, away: Side, c: Letter) {
    || AtEndpoint(home, c) || OnWire(home, c)
    || (exists p :: HasLetter(away, c, p))
    || (exists b, from :: Given(away, c, b, from))
    || Escaped(home, away, c)
  }

  // ---------------------------------------------------------------- the sender's side

  lemma EndpointStage(home: Side, away: Side, ev: NetEvent, c: Letter)
    requires SideOk(home, away) && EnabledOn(home, away, ev) && AtEndpoint(home, c)
    requires Alive(Local(home, away, ev).node, home.ep) && Local(home, away, ev).ep == home.ep
    ensures AtEndpoint(Local(home, away, ev), c) || OnWire(Local(home, away, ev), c)
  {
    var mb := home.node.actors[home.ep].mailbox;
    var e :| e in mb && e.msg == SendNamed(c.f, c.n, c.pl);
    Exits.EndpointRuns(home, away, ev);
    if ev.EndpointRun? && e !in mb[1..] {
      assert mb[0] == e;
      assert RunEndpoint(home).out == home.out + [NamedFrame(c.f, c.n, c.pl)];
    } else {
      MailRemains(home, away, ev, home.ep, e);
    }
  }

  lemma WireStays(home: Side, away: Side, ev: NetEvent, c: Letter)
    requires SideOk(home, away) && EnabledOn(home, away, ev) && OnWire(home, c)
    ensures OnWire(Local(home, away, ev), c)
  {
    LocalExtends(home, away, ev);
    assert NamedFrame(c.f, c.n, c.pl) in Local(home, away, ev).out[..|home.out|];
  }

  lemma HomeGoesOn(home: Side, away: Side, ev: NetEvent, c: Letter)
    requires SideOk(home, away) && EnabledOn(home, away, ev) && (AtEndpoint(home, c) || OnWire(home, c))
    requires Alive(Local(home, away, ev).node, home.ep)
    ensures AtEndpoint(Local(home, away, ev), c) || OnWire(Local(home, away, ev), c)
  {
    Exits.EndpointStays(home, away, ev);
    if OnWire(home, c) {
      WireStays(home, away, ev, c);
    } else {
      EndpointStage(home, away, ev, c);
    }
  }

  lemma DownStays(home: Side, away: Side, ev: NetEvent)
    requires SideOk(home, away) && SideOk(away, home) && EnabledOn(home, away, ev) && !Alive(home.node, home.ep)
    ensures var home' := Local(home, away, ev); !Alive(home'.node, home'.ep)
  {
    Exits.EndpointStays(home, away, ev);
    LocalKeeps(home, away, ev);
    assert Aged(home.node.actors[home.ep], Local(home, away, ev).node.actors[home.ep]);
  }

  lemma HomeStep(home: Side, away: Side, ev: NetEvent, c: Letter)
    requires SideOk(home, away) && SideOk(away, home) && EnabledOn(home, away, ev) && OnWay(home, away, c)
    ensures OnWay(Local(home, away, ev), away, c)
  {
    Exits.EndpointStays(home, away, ev);
    if !Alive(home.node, home.ep) {
      DownStays(home, away, ev);
    } else if Alive(Local(home, away, ev).node, home.ep) && (AtEndpoint(home, c) || OnWire(home, c)) {
      HomeGoesOn(home, away, ev, c);
    }
  }

  // ---------------------------------------------------------------- the receiver's side

  /** A frame for a name that the endpoint survives. */
  lemma FrameStage(away: Side, home: Side, c: Letter)
    requires SideOk(away, home) && Alive(away.node, away.ep) && c.pl.Plain?
    requires Alive(ReadFrame(away, NamedFrame(c.f, c.n, c.pl)).node, away.ep)
    ensures var away' := ReadFrame(away, NamedFrame(c.f, c.n, c.pl));
            (exists p :: HasLetter(away', c, p)) || (exists b, from :: Given(away', c, b, from))
  {
    var fr := NamedFrame(c.f, c.n, c.pl);
    var away' := ReadFrame(away, fr);
    if c.f != NOBODY {
      Arrivals.PassedOn(away, home, fr, c.f, DeliverNamed(c.n, c.pl));
      PassedHasLetter(away, home, c, away');
    } else {
      GivenDirectly(away, home, c);
    }
  }

  lemma PassedHasLetter(away: Side, home: Side, c: Letter, away': Side)
    requires SideOk(away, home)
    requires var sd2 := Arrivals.Ready(Arrivals.Awake(away), c.f);
             && Alive(sd2.node, sd2.table[c.f])
             && away' == sd2.(node := Queue(sd2.node, sd2.table[c.f], Env(away.ep, DeliverNamed(c.n, c.pl), Direct)))
    ensures exists p :: HasLetter(away', c, p)
  {
    var sd2 := Arrivals.Ready(Arrivals.Awake(away), c.f);
    var p := sd2.table[c.f];
    assert sd2.remoteOf[p] == c.f;
    Exits.QueuedAt(sd2.node, p, Env(away.ep, DeliverNamed(c.n, c.pl), Direct));
    assert HasLetter(away', c, p);
  }

  lemma GivenDirectly(away: Side, home: Side, c: Letter)
    requires SideOk(away, home) && Alive(away.node, away.ep) && c.pl.Plain? && c.f == NOBODY
    requires Alive(ReadFrame(away, NamedFrame(c.f, c.n, c.pl)).node, away.ep)
    ensures Given(ReadFrame(away, NamedFrame(c.f, c.n, c.pl)), c, NameOf(away, c.n), away.ep)
  {
    var fr, sd1 := NamedFrame(c.f, c.n, c.pl), Arrivals.Awake(away);
    Arrivals.Survives(away, fr);
    EnterKeeps(away, home);
    var to := NameOf(away, c.n);
    if Alive(sd1.node, to) {
      OneSend(sd1.node, away.ep, to, AsMsg(c.pl), ByName, true);
      Exits.QueuedAt(sd1.node, to, Env(away.ep, AsMsg(c.pl), ByName));
    } else {
      OneFailure(sd1.node, away.ep, to, AsMsg(c.pl), ByName);
      assert false;
    }
  }

  /** The proxy gives the message to the actor that has the name, or ends. */
  lemma NamedDelivered(sd: Side, peer: Side, p: Id, n: nat, pl: Payload)
    requires Branches.Ready(sd, peer, p) && HeadOf(sd, p).msg == DeliverNamed(n, pl) && pl.Plain?
    ensures var nd1, to := Take(sd.node, p), NameOf(sd, n);
            if Alive(nd1, to) then AfterProxy(sd, p) == Queue(nd1, to, Env(p, AsMsg(pl), ByName))
            else ExitedWith(AfterProxy(sd, p), p, DEAD_SEND)
  {
    Branches.AllReceived(sd, peer, p);
    var nd1, to := Take(sd.node, p), NameOf(sd, n);
    if Alive(nd1, to) {
      OneSend(nd1, p, to, AsMsg(pl), ByName, true);
    } else {
      OneFailure(nd1, p, to, AsMsg(pl), ByName);
    }
  }

  lemma ProxyGives(sd: Side, peer: Side, p: Id, c: Letter)
    requires Branches.Ready(sd, peer, p) && HeadOf(sd, p).msg == DeliverNamed(c.n, c.pl) && c.pl.Plain? && StandsFor(sd, p, c.f)
    requires !Exited(AfterProxy(sd, p), p)
    ensures Given(sd.(node := AfterProxy(sd, p)), c, NameOf(sd, c.n), p)
  {
    NamedDelivered(sd, peer, p, c.n, c.pl);
    Exits.QueuedAt(Take(sd.node, p), NameOf(sd, c.n), Env(p, AsMsg(c.pl), ByName));
  }

  lemma ProxyStage(away: Side, home: Side, ev: NetEvent, c: Letter, p: Id)
    requires SideOk(away, home) && EnabledOn(away, home, ev) && HasLetter(away, c, p) && Alive(away.node, away.ep) && c.pl.Plain?
    requires var away' := Local(away, home, ev);
             Alive(away'.node, p) && !Exited(away'.node, p) && StandsFor(away', p, c.f) && away'.ep == away.ep
    ensures var away' := Local(away, home, ev); HasLetter(away', c, p) || exists b, from :: Given(away', c, b, from)
  {
    var e, mb := Env(away.ep, DeliverNamed(c.n, c.pl), Direct), away.node.actors[p].mailbox;
    if p == Runner(away, ev) && TakesMail(ev) && e !in mb[1..] {
      assert ProxyOk(away, home, p) && Sound(away.node.actors[p]);
      assert ev == ProxyRun(ev.s, p) && mb[0] == e;
      ProxyGives(away, home, p, c);
      assert Given(Local(away, home, ev), c, NameOf(away, c.n), p);
    } else {
      MailRemains(away, home, ev, p, e);
    }
  }

  lemma GivenStays(away: Side, home: Side, ev: NetEvent, c: Letter, b: Id, from: Id)
    requires SideOk(away, home) && EnabledOn(away, home, ev) && Given(away, c, b, from)
    ensures Given(Local(away, home, ev), c, b, from)
  {
    LocalExtends(away, home, ev);
    AcceptedGrows(away, home, ev, b);
  }

  lemma StoppedStays(away: Side, home: Side, ev: NetEvent, c: Letter, p: Id)
    requires SideOk(away, home) && EnabledOn(away, home, ev) && Stopped(away, c, p) && Later(away.node, Local(away, home, ev).node)
    ensures Stopped(Local(away, home, ev), c, p)
  {
    LocalExtends(away, home, ev);
    assert Aged(away.node.actors[p], Local(away, home, ev).node.actors[p]);
  }

  lemma LetterStays(away: Side, home: Side, ev: NetEvent, c: Letter, p: Id)
    requires SideOk(away, home) && SideOk(home, away) && EnabledOn(away, home, ev) && HasLetter(away, c, p) && c.pl.Plain?
    requires Alive(away.node, away.ep)
    ensures var away' := Local(away, home, ev);
            HasLetter(away', c, p) || Stopped(away', c, p) || exists b, from :: Given(away', c, b, from)
  {
    var away' := Local(away, home, ev);
    LocalKeeps(away, home, ev);
    LocalExtends(away, home, ev);
    assert ProxyOk(away', home, p) && Sound(away'.node.actors[p]);
    if Alive(away'.node, p) {
      ProxyStage(away, home, ev, c, p);
    }
  }

  lemma WireStage(home: Side, away: Side, ev: NetEvent, c: Letter)
    requires SideOk(away, home) && EnabledOn(away, home, ev) && OnWire(home, c) && c.pl.Plain? && Alive(away.node, away.ep)
    requires Alive(Local(away, home, ev).node, away.ep)
    ensures var away' := Local(away, home, ev);
            || OnWire(if ev.WireIn? then home.(out := home.out[1..]) else home, c)
            || (exists p :: HasLetter(away', c, p)) || (exists b, from :: Given(away', c, b, from))
  {
    if ev.WireIn? && NamedFrame(c.f, c.n, c.pl) !in home.out[1..] {
      assert home.out[0] == NamedFrame(c.f, c.n, c.pl);
      FrameStage(away, home, c);
    }
  }

  lemma AwayStops(away: Side, home: Side, ev: NetEvent, c: Letter)
    requires SideOk(home, away) && SideOk(away, home) && EnabledOn(away, home, ev) && exists p :: Stopped(away, c, p)
    ensures exists p :: Stopped(Local(away, home, ev), c, p)
  {
    var p :| Stopped(away, c, p);
    LocalKeeps(away, home, ev);
    StoppedStays(away, home, ev, c, p);
  }

  lemma AwayGoesOn(home: Side, away: Side, ev: NetEvent, c: Letter)
    requires SideOk(home, away) && SideOk(away, home) && EnabledOn(away, home, ev) && OnWay(home, away, c) && !Escaped(home, away, c)
    requires Alive(Local(away, home, ev).node, away.ep)
    ensures OnWay(if ev.WireIn? then home.(out := home.out[1..]) else home, Local(away, home, ev), c)
  {
    if b, from :| Given(away, c, b, from) {
      GivenStays(away, home, ev, c, b, from);
    } else if p :| HasLetter(away, c, p) {
      LetterStays(away, home, ev, c, p);
    } else if OnWire(home, c) {
      WireStage(home, away, ev, c);
    }
  }

  lemma AwayStep(home: Side, away: Side, ev: NetEvent, c: Letter)
    requires SideOk(home, away) && SideOk(away, home) && EnabledOn(away, home, ev) && OnWay(home, away, c)
    ensures OnWay(if ev.WireIn? then home.(out := home.out[1..]) else home, Local(away, home, ev), c)
  {
    Exits.EndpointStays(away, home, ev);
    if !Alive(away.node, away.ep) {
      DownStays(away, home, ev);
    } else if exists p :: Stopped(away, c, p) {
      AwayStops(away, home, ev, c);
    } else if !Escaped(home, away, c) && Alive(Local(away, home, ev).node, away.ep) {
      AwayGoesOn(home, away, ev, c);
    }
  }

  // ---------------------------------------------------------------- runs

  /** Only the node of the receiver's side matters, and the wire of the sender's. */
  lemma Aside(home: Side, away: Side, away': Side, c: Letter)
    requires OnWay(home, away, c) && away' == away.(out := away'.out)
    ensures OnWay(home, away', c)
  {
    if b, from :| Given(away, c, b, from) {
      assert Given(away', c, b, from);
    } else if p :| HasLetter(away, c, p) {
      assert HasLetter(away', c, p);
    } else if p :| Stopped(away, c, p) {
      assert Stopped(away', c, p);
    }
  }

  lemma Step(w: World, ev: NetEvent, s: bool, c: Letter)
    requires RInv(w) && OnWay(Get(w, s), Get(w, !s), c)
    ensures var w' := NetStep(w, ev); OnWay(Get(w', s), Get(w', !s), c)
  {
    if Enabled(w, ev) {
      StepSides(w, ev);
      if ev.s == s {
        HomeStep(Get(w, s), Get(w, !s), ev, c);
        Aside(Get(NetStep(w, ev), s), Get(w, !s), Get(NetStep(w, ev), !s), c);
      } else {
        AwayStep(Get(w, s), Get(w, !s), ev, c);
      }
    }
  }

  lemma {:induction false} Runs(w: World, evs: seq<NetEvent>, s: bool, c: Letter)
    requires RInv(w) && OnWay(Get(w, s), Get(w, !s), c)
    ensures var w' := NetRun(w, evs); OnWay(Get(w', s), Get(w', !s), c)
    decreases |evs|
  {
    if evs != [] {
      NetStepKeeps(w, evs[0]);
      Step(w, evs[0], s, c);
      Runs(NetStep(w, evs[0]), evs[1..], s, c);
    }
  }

  /** In every run: once a live endpoint has been handed a message for a name, it is there, on the wire or
      at a live proxy of its sender, or somebody was given it; or an endpoint or a proxy of the sender
      has ended, or it is an exit message. */
  lemma NamedIsNeverLost(before: seq<NetEvent>, after: seq<NetEvent>, s: bool, c: Letter)
    requires AtEndpoint(Get(NetRun(INIT, before), s), c)
    ensures var w := NetRun(NetRun(INIT, before), after); OnWay(Get(w, s), Get(w, !s), c)
  {
    InitOk();
    NetRunKeeps(INIT, before);
    Runs(NetRun(INIT, before), after, s, c);
  }
}
