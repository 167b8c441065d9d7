/**
 When exactly an endpoint ends, and why; and that an endpoint which tells its peer of a transport
 error takes the peer with it.
 */
module RemoteFailures {
  import opened Actors
  import opened Lifecycle
  import opened Callbacks
  import opened Remote
  import opened RemoteInv
  import opened RemoteEndpoint
  import opened RemoteMoves

  // ---------------------------------------------------------------- one frame, one message

  /** Why reading a frame ends the endpoint, if it does: a transport error with its own reason; or the
      proxy for the sender has failed, or there is nobody of that name. */
  function ReadReason(sd: Side, fr: Frame): seq<Reason> {
    match fr
    case SendFrame(f, _, _) => if f in sd.table && !Alive(sd.node, sd.table[f]) then [Long(DeadSend, 0)] else []
    case NamedFrame(f, n, pl) =>
      if f != NOBODY then (if f in sd.table && !Alive(sd.node, sd.table[f]) then [Long(DeadSend, 0)] else [])
      else if pl.Plain? && !(n in sd.names && Alive(sd.node, sd.names[n])) then [Long(DeadSend, 0)] else []
    case LinkFrame(f, _) => if f in sd.table && !Alive(sd.node, sd.table[f]) then [Long(DeadSend, 0)] else []
    case ExitFrame(_, _) => []
    case ErrorFrame(t) => [Short(t)]
  }

  /** Why a message ends the endpoint, if it does. */
  function RunReason(m: Msg): seq<Reason> {
    match m
    case Link => []
    case Exit(Short(_)) => []
    case Send(_, _, _) => []
    case SendNamed(_, _, _) => []
    case LinkWire(_, _) => []
    case LocalLinkExit(_, _) => []
    case ProxyExit(_) => []
    case _ => [Short(Other(0))]
  }

  /** The endpoint has exited exactly as x says. */
  predicate EndedAs(nd: Node, a: Id, x: seq<Reason>) {
    a in nd.actors && (if x == [] then nd.actors[a].exits == [] else nd.actors[a].exits != [] && nd.actors[a].exits[0].reason == x[0])
  }

  lemma BuryEnded(sd: Side, a: Id, x: seq<Reason>)
    requires EndedAs(sd.node, a, x)
    ensures EndedAs(Bury(sd).node, a, x)
  {
  }

  lemma EnteredFits(sd: Side, peer: Side)
    requires SideOk(sd, peer) && Alive(sd.node, sd.ep)
    ensures var nd := Put(sd.node, sd.ep, Entered(sd.node.actors[sd.ep]));
            Running(nd, sd.ep) && Fit(nd, sd.ep) && Since(nd, 0, nd) && nd.actors[sd.ep].receiver
            && nd.next == sd.node.next && forall b :: Alive(nd, b) <==> Alive(sd.node, b)
  {
    assert Sound(sd.node.actors[sd.ep]);
    EnterRunning(sd.node, sd.ep);
  }

  /** One or two effects. */
  lemma OneDone(nd: Node, e: Effect)
    ensures Done(nd, 0, [e]) == if Stops(nd, 0, e) then 0 else 1
  {
    assert [e][1..] == [];
    assert Done(nd, Births(e), []) == 0;
  }

  lemma SpawnDone(nd: Node, m: Msg)
    ensures Done(nd, 0, [Spawn, SendTo(nd.next, m, Direct, true)]) == 2
  {
    var e := SendTo(nd.next, m, Direct, true);
    assert [Spawn, e][1..] == [e] && [e][1..] == [];
    assert Done(nd, 1, []) == 0;
    assert !Stops(nd, 1, e);
  }

  lemma ProxyDone(sd: Side, nd: Node, remote: Id, m: Msg)
    requires nd.next == sd.node.next && (forall b :: Alive(nd, b) <==> Alive(sd.node, b)) && !m.Exit?
    ensures var es := ToProxy(sd, remote, m).1.effects;
            Done(nd, 0, es) < |es| <==> remote in sd.table && !Alive(sd.node, sd.table[remote])
  {
    if remote in sd.table {
      OneDone(nd, SendTo(sd.table[remote], m, Direct, true));
    } else {
      SpawnDone(nd, m);
    }
  }

  lemma DispatchDone(sd: Side, nd: Node, fr: Frame)
    requires nd.next == sd.node.next && (forall b :: Alive(nd, b) <==> Alive(sd.node, b)) && !Alive(sd.node, NOBODY)
    ensures var cb := Dispatch(sd, fr).1;
            ReadReason(sd, fr) == if Done(nd, 0, cb.effects) < |cb.effects| then [DEAD_SEND] else if cb.result.Err? then [cb.result.reason] else []
  {
    match fr {
      case SendFrame(f, t, pl) => ProxyDone(sd, nd, f, DeliverPid(t, pl));
      case NamedFrame(f, n, pl) =>
        if f != NOBODY {
          ProxyDone(sd, nd, f, DeliverNamed(n, pl));
        } else {
          OneDone(nd, SendTo(NameOf(sd, n), AsMsg(pl), ByName, true));
        }
      case ExitFrame(k, t) =>
        if k in sd.table {
          OneDone(nd, SendTo(sd.table[k], Exit(Short(t)), Direct, false));
        }
      case LinkFrame(k, t) => ProxyDone(sd, nd, k, SetNotify(t));
      case ErrorFrame(t) =>
    }
  }

  /** Reading a frame ends a live endpoint exactly if and for the reason that ReadReason says. */
  lemma ReadEnds(sd: Side, peer: Side, fr: Frame)
    requires SideOk(sd, peer) && Alive(sd.node, sd.ep)
    ensures EndedAs(ReadFrame(sd, fr).node, sd.ep, ReadReason(sd, fr))
  {
    var nd := Put(sd.node, sd.ep, Entered(sd.node.actors[sd.ep]));
    var (sd1, cb) := Dispatch(sd, fr);
    EnteredFits(sd, peer);
    DispatchDone(sd, nd, fr);
    EffectsDone(nd, 0, nd, sd.ep, cb.effects);
    EffectsModes(nd, 0, nd, sd.ep, cb.effects);
    ApplyEffectsKeeps(nd, sd.ep, cb.effects);
    Concludes(nd, sd.ep, cb, ReadReason(sd, fr));
    BuryEnded(sd1.(node := Invoke(nd, sd.ep, cb)), sd.ep, ReadReason(sd, fr));
  }

  /** Handling a message ends a live endpoint exactly if it is none that the endpoint knows. */
  lemma MessageEnds(sd: Side, peer: Side)
    requires SideOk(sd, peer) && Alive(sd.node, sd.ep) && CanRun(sd.node, sd.ep)
    ensures EndedAs(RunEndpoint(sd).node, sd.ep, RunReason(sd.node.actors[sd.ep].mailbox[0].msg))
  {
    var x := sd.node.actors[sd.ep];
    var m := x.mailbox[0].msg;
    var nd, cb := Take(sd.node, sd.ep), EndpointCallback(m);
    assert Sound(x);
    if !m.Link? {
      EnteredSince(sd.node, sd.ep);
      assert ApplyEffects(nd, sd.ep, []) == (nd, false);
      Concludes(nd, sd.ep, cb, RunReason(m));
    }
    BuryEnded(sd.(node := Run(sd.node, sd.ep, cb), out := sd.out + FramesFor(m),
                  table := if m.ProxyExit? then sd.table - {m.remote} else sd.table), sd.ep, RunReason(m));
  }

  /** A failure of the transport ends it with its own reason. */
  lemma FailureEnds(sd: Side, peer: Side, t: Text, tell: bool)
    requires SideOk(sd, peer) && Alive(sd.node, sd.ep)
    ensures EndedAs(FailEndpoint(sd, t, tell).node, sd.ep, [Short(t)])
  {
    assert Sound(sd.node.actors[sd.ep]);
    ExitOnce(sd.node, sd.ep, Short(t));
  }

  // ---------------------------------------------------------------- over runs

  predicate ErrorCrosses(home: Side, away: Side, t: Text) {
    ErrorFrame(t) in home.out || !Alive(away.node, away.ep)
  }

  lemma CrossesHome(home: Side, away: Side, ev: NetEvent, t: Text)
    requires SideOk(home, away) && EnabledOn(home, away, ev) && ErrorCrosses(home, away, t)
    ensures ErrorCrosses(Local(home, away, ev), if ev.WireIn? then away.(out := away.out[1..]) else away, t)
  {
    LocalExtends(home, away, ev);
    if ErrorFrame(t) in home.out {
      assert ErrorFrame(t) in Local(home, away, ev).out[..|home.out|];
    }
  }

  lemma DownStaysDown(sd: Side, peer: Side, ev: NetEvent)
    requires SideOk(sd, peer) && SideOk(peer, sd) && EnabledOn(sd, peer, ev) && !Alive(sd.node, sd.ep)
    ensures var sd' := Local(sd, peer, ev); !Alive(sd'.node, sd'.ep)
  {
    LocalKeeps(sd, peer, ev);
    LocalExtends(sd, peer, ev);
    assert Aged(sd.node.actors[sd.ep], Local(sd, peer, ev).node.actors[sd.ep]);
  }

  lemma ErrorKills(sd: Side, peer: Side, t: Text)
    requires SideOk(sd, peer) && Alive(sd.node, sd.ep)
    ensures var sd' := ReadFrame(sd, ErrorFrame(t)); !Alive(sd'.node, sd'.ep)
  {
    ReadEnds(sd, peer, ErrorFrame(t));
    WireInKeeps(sd, peer, ErrorFrame(t));
    assert Sound(ReadFrame(sd, ErrorFrame(t)).node.actors[sd.ep]);
  }

  lemma CrossesAway(home: Side, away: Side, ev: NetEvent, t: Text)
    requires SideOk(away, home) && SideOk(home, away) && EnabledOn(away, home, ev) && ErrorCrosses(home, away, t)
    ensures ErrorCrosses(if ev.WireIn? then home.(out := home.out[1..]) else home, Local(away, home, ev), t)
  {
    if !Alive(away.node, away.ep) {
      DownStaysDown(away, home, ev);
    } else if ev.WireIn? && ErrorFrame(t) !in home.out[1..] {
      assert home.out[0] == ErrorFrame(t);
      ErrorKills(away, home, t);
    }
  }

  lemma CrossesStep(w: World, ev: NetEvent, s: bool, t: Text)
    requires RInv(w) && ErrorCrosses(Get(w, s), Get(w, !s), t)
    ensures var w' := NetStep(w, ev); ErrorCrosses(Get(w', s), Get(w', !s), t)
  {
    if Enabled(w, ev) {
      StepSides(w, ev);
      if ev.s == s {
        CrossesHome(Get(w, s), Get(w, !s), ev, t);
      } else {
        CrossesAway(Get(w, s), Get(w, !s), ev, t);
      }
    }
  }

  lemma {:induction false} CrossesRun(w: World, evs: seq<NetEvent>, s: bool, t: Text)
    requires RInv(w) && ErrorCrosses(Get(w, s), Get(w, !s), t)
    ensures var w' := NetRun(w, evs); ErrorCrosses(Get(w', s), Get(w', !s), t)
    decreases |evs|
  {
    if evs != [] {
      NetStepKeeps(w, evs[0]);
      CrossesStep(w, evs[0], s, t);
      CrossesRun(NetStep(w, evs[0]), evs[1..], s, t);
    }
  }

  lemma FailureTells(w: World, s: bool, t: Text)
    requires Formed(w) && Enabled(w, EndpointFail(s, t, true))
    ensures ErrorFrame(t) in Get(NetStep(w, EndpointFail(s, t, true)), s).out
  {
    var sd := Get(w, s);
    assert FailEndpoint(sd, t, true).out == sd.out + [ErrorFrame(t)];
  }

  /** In every run: once an endpoint has failed and told its peer, the error is on the wire or the peer
      has ended too. */
  lemma ErrorIsNeverLost(before: seq<NetEvent>, s: bool, t: Text, after: seq<NetEvent>)
    requires Enabled(NetRun(INIT, before), EndpointFail(s, t, true))
    ensures var w := NetRun(NetStep(NetRun(INIT, before), EndpointFail(s, t, true)), after);
            ErrorFrame(t) in Get(w, s).out || !Alive(Get(w, !s).node, Get(w, !s).ep)
  {
    InitOk();
    NetRunKeeps(INIT, before);
    var w := NetRun(INIT, before);
    NetStepKeeps(w, EndpointFail(s, t, true));
    FailureTells(w, s, t);
    CrossesRun(NetStep(w, EndpointFail(s, t, true)), after, s, t);
  }
}
