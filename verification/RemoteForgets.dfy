/**
 A proxy that has followed the exit of its remote actor is forgotten: as long as it is still in the
 table of a live endpoint, the message that takes it out is in the endpoint's mailbox.
 */
module RemoteForgets {
  import opened Actors
  import opened Lifecycle
  import opened Callbacks
  import opened Remote
  import opened RemoteInv
  import opened RemoteSteps
  import opened RemoteEndpoint
  import opened RemoteMoves
  import Branches = RemoteBranches
  import Exits = RemoteExit
  import Failures = RemoteFailures

  predicate Leaves(mailbox: seq<Env>, k: Id) {
    exists e :: e in mailbox && e.msg == ProxyExit(k)
  }

  /** An entry whose proxy is alive, has failed on a dead send, or is about to be taken out. */
  predicate EntryOk(sd: Side, k: Id)
    requires k in sd.table
  {
    Alive(sd.node, sd.ep) ==>
      || Alive(sd.node, sd.table[k])
      || ExitedWith(sd.node, sd.table[k], DEAD_SEND)
      || Leaves(sd.node.actors[sd.ep].mailbox, k)
  }

  ghost predicate EntriesOk(sd: Side) {
    forall k :: k in sd.table ==> EntryOk(sd, k)
  }

  lemma LeavesRemain(sd: Side, peer: Side, ev: NetEvent, k: Id)
    requires SideOk(sd, peer) && EnabledOn(sd, peer, ev) && Leaves(sd.node.actors[sd.ep].mailbox, k)
    requires ev.EndpointRun? ==> HeadOf(sd, sd.ep).msg != ProxyExit(k)
    ensures var nd := Local(sd, peer, ev).node; sd.ep in nd.actors && Leaves(nd.actors[sd.ep].mailbox, k)
  {
    var mb := sd.node.actors[sd.ep].mailbox;
    var e :| e in mb && e.msg == ProxyExit(k);
    Exits.EndpointRuns(sd, peer, ev);
    if ev.EndpointRun? {
      assert e in mb[1..];
    }
    MailRemains(sd, peer, ev, sd.ep, e);
  }

  /** A proxy's result is an exit only when it is told to. */
  lemma ErrIsTold(sd: Side, p: Id, e: Env)
    requires p in sd.remoteOf && p in sd.node.actors && sd.node.actors[p].started && ProxyCallback(sd, p, e).result.Err?
    ensures e.msg.EndpointExit? || (e.msg.Exit? && e.msg.reason.Short? && e.from == sd.ep)
  {
  }

  /** Why a live proxy ends. */
  lemma EndReason(x: Actor, y: Actor, cb: Callback)
    requires ProxyRan(x, y, cb) && Sound(x) && Sound(y) && x.status.Live? && !y.status.Live?
    ensures y.exits != [] && (y.exits[0].reason == DEAD_SEND || (x.started && cb.result.Err?))
  {
  }

  lemma NoFarewell(sd: Side, peer: Side, p: Id)
    requires SideOk(sd, peer) && p in sd.remoteOf && CanRun(sd.node, p) && Alive(sd.node, sd.ep)
    ensures !HeadOf(sd, p).msg.EndpointExit?
  {
    assert MailOk(sd, peer, p, HeadOf(sd, p));
  }

  lemma ProxyLeft(sd: Side, peer: Side, p: Id)
    requires SideOk(sd, peer) && p in sd.remoteOf && CanRun(sd.node, p) && Alive(sd.node, p) && Alive(sd.node, sd.ep)
    requires sd.node.actors[p].started && ProxyCallback(sd, p, HeadOf(sd, p)).result.Err?
    ensures var nd := AfterProxy(sd, p); sd.ep in nd.actors && Leaves(nd.actors[sd.ep].mailbox, sd.remoteOf[p])
  {
    var e := HeadOf(sd, p);
    NoFarewell(sd, peer, p);
    ErrIsTold(sd, p, e);
    Branches.RemoteExitFollowed(sd, peer, p, e.msg.reason.text);
    Leaving(sd, peer, p, e.msg.reason);
  }

  /** A proxy whose endpoint lives ends only on a dead send, or by leaving. */
  lemma ProxyEnds(sd: Side, peer: Side, p: Id, y: Actor)
    requires SideOk(sd, peer) && p in sd.remoteOf && CanRun(sd.node, p) && Alive(sd.node, p) && Alive(sd.node, sd.ep)
    requires p in AfterProxy(sd, p).actors && AfterProxy(sd, p).actors[p] == y && Sound(y) && !y.status.Live?
    ensures y.exits != []
    ensures var nd := AfterProxy(sd, p);
            y.exits[0].reason == DEAD_SEND || (sd.ep in nd.actors && Leaves(nd.actors[sd.ep].mailbox, sd.remoteOf[p]))
  {
    var x, cb := sd.node.actors[p], ProxyCallback(sd, p, HeadOf(sd, p));
    ProxySelf(sd, peer, p);
    assert Sound(x);
    EndReason(x, y, cb);
    if x.started && cb.result.Err? {
      ProxyLeft(sd, peer, p);
    }
  }

  lemma Leaving(sd: Side, peer: Side, p: Id, r: Reason)
    requires Branches.Ready(sd, peer, p)
    ensures var m := Env(p, ProxyExit(sd.remoteOf[p]), Direct);
            var nd := HandleExit(Queue(Take(sd.node, p), sd.ep, m), p, r);
            sd.ep in nd.actors && Leaves(nd.actors[sd.ep].mailbox, sd.remoteOf[p])
  {
    var m := Env(p, ProxyExit(sd.remoteOf[p]), Direct);
    var nd1 := Queue(Take(sd.node, p), sd.ep, m);
    Branches.AllReceived(sd, peer, p);
    assert m in nd1.actors[sd.ep].mailbox;
    StaysQueued(MarkExit(nd1, p, r), nd1.actors[p].links, ExitEnv(p, r), sd.ep, m);
  }

  lemma {:induction false} StaysQueued(nd: Node, hs: seq<Id>, env: Env, a: Id, m: Env)
    requires a in nd.actors && m in nd.actors[a].mailbox
    ensures var nd' := NotifyAll(nd, hs, env); a in nd'.actors && m in nd'.actors[a].mailbox
    decreases |hs|
  {
    if hs != [] {
      StaysQueued(Queue(nd, hs[0], env), hs[1..], env, a, m);
    }
  }

  /** An entry that stays in the table. */
  lemma EntryStays(sd: Side, peer: Side, ev: NetEvent, k: Id)
    requires SideOk(sd, peer) && EnabledOn(sd, peer, ev) && k in sd.table && EntryOk(sd, k)
    requires SideOk(Local(sd, peer, ev), peer) && Later(sd.node, Local(sd, peer, ev).node)
    requires k in Local(sd, peer, ev).table && Local(sd, peer, ev).table[k] == sd.table[k] && Local(sd, peer, ev).ep == sd.ep
    requires ev.EndpointRun? ==> HeadOf(sd, sd.ep).msg != ProxyExit(k)
    ensures EntryOk(Local(sd, peer, ev), k)
  {
    var sd', p := Local(sd, peer, ev), sd.table[k];
    assert ProxyOk(sd, peer, p) && ProxyOk(sd', peer, p) && Sound(sd'.node.actors[p]);
    assert Aged(sd.node.actors[p], sd'.node.actors[p]) && Aged(sd.node.actors[sd.ep], sd'.node.actors[sd.ep]);
    if Alive(sd'.node, sd.ep) {
      if Leaves(sd.node.actors[sd.ep].mailbox, k) {
        LeavesRemain(sd, peer, ev, k);
      } else if Alive(sd.node, p) && !Alive(sd'.node, p) {
        if p != Runner(sd, ev) {
          OthersKeep(sd, peer, ev, p);
        } else {
          assert ev == ProxyRun(ev.s, p);
          ProxyEnds(sd, peer, p, sd'.node.actors[p]);
        }
      }
    }
  }

  /** A new entry is for a proxy just made. */
  lemma NewEntry(sd: Side, fr: Frame, k: Id)
    requires k in Dispatch(sd, fr).0.table && k !in sd.table
    ensures var (sd1, cb) := Dispatch(sd, fr);
            sd1.table[k] == sd.node.next && |cb.effects| == 2 && cb.effects[0].Spawn?
            && cb.effects[1].SendTo? && cb.effects[1].to == sd.node.next
  {
  }

  lemma NewAlive(sd: Side, peer: Side, fr: Frame, k: Id)
    requires SideOk(sd, peer) && Alive(sd.node, sd.ep)
    requires k in ReadFrame(sd, fr).table && k !in sd.table
    ensures var sd' := ReadFrame(sd, fr); Alive(sd'.node, sd'.table[k])
  {
    var nd := Put(sd.node, sd.ep, Entered(sd.node.actors[sd.ep]));
    var (sd1, cb) := Dispatch(sd, fr);
    NewEntry(sd, fr, k);
    Failures.EnteredFits(sd, peer);
    SpawnedLives(nd, sd.ep, cb);
    BuriedLives(sd1.(node := Invoke(nd, sd.ep, cb)), sd.node.next);
  }

  lemma SpawnedLives(nd: Node, a: Id, cb: Callback)
    requires Since(nd, 0, nd) && Fit(nd, a) && |cb.effects| == 2 && cb.effects[0].Spawn? && cb.effects[1].SendTo? && cb.effects[1].to == nd.next
    ensures Alive(Invoke(nd, a, cb), nd.next)
  {
    var e := cb.effects[1];
    assert cb.effects[1..] == [e] && [e][1..] == [];
    assert Born(nd, 1, []) == 1 && Born(nd, 1, [e]) == 1 && Born(nd, 0, cb.effects) == 1;
    EffectsAlive(nd, 0, nd, a, cb.effects, nd.next);
    InvokeSpares(nd, a, cb, nd.next);
  }

  lemma BuriedLives(sd: Side, b: Id)
    requires Alive(sd.node, b)
    ensures Alive(Bury(sd).node, b)
  {
  }

  /** An entry stays as it is, unless it is taken out; or it is new. */
  lemma TableMoves(sd: Side, peer: Side, ev: NetEvent, k: Id)
    requires EnabledOn(sd, peer, ev) && sd.ep in sd.node.actors && k in Local(sd, peer, ev).table
    ensures || (k in sd.table && Local(sd, peer, ev).table[k] == sd.table[k]
                && (ev.EndpointRun? ==> sd.node.actors[sd.ep].mailbox[0].msg != ProxyExit(k)))
            || (ev.WireIn? && k !in sd.table)
  {
  }

  lemma LocalEntries(sd: Side, peer: Side, ev: NetEvent)
    requires SideOk(sd, peer) && SideOk(peer, sd) && EnabledOn(sd, peer, ev) && EntriesOk(sd)
    ensures EntriesOk(Local(sd, peer, ev))
  {
    var sd' := Local(sd, peer, ev);
    LocalKeeps(sd, peer, ev);
    LocalExtends(sd, peer, ev);
    forall k | k in sd'.table ensures EntryOk(sd', k) {
      TableMoves(sd, peer, ev, k);
      if k in sd.table {
        EntryStays(sd, peer, ev, k);
      } else {
        NewAlive(sd, peer, peer.out[0], k);
      }
    }
  }

  lemma EntriesAside(sd: Side)
    requires EntriesOk(sd)
    ensures forall out :: EntriesOk(sd.(out := out))
  {
    forall out ensures EntriesOk(sd.(out := out)) {
      assert forall k :: k in sd.table ==> EntryOk(sd.(out := out), k) == EntryOk(sd, k);
    }
  }

  lemma StepEntries(w: World, ev: NetEvent)
    requires RInv(w) && EntriesOk(w.near) && EntriesOk(w.far)
    ensures EntriesOk(NetStep(w, ev).near) && EntriesOk(NetStep(w, ev).far)
  {
    if Enabled(w, ev) {
      StepSides(w, ev);
      LocalEntries(Get(w, ev.s), Get(w, !ev.s), ev);
      EntriesAside(Get(w, !ev.s));
    }
  }

  lemma {:induction false} RunEntries(w: World, evs: seq<NetEvent>)
    requires RInv(w) && EntriesOk(w.near) && EntriesOk(w.far)
    ensures RInv(NetRun(w, evs)) && EntriesOk(NetRun(w, evs).near) && EntriesOk(NetRun(w, evs).far)
    decreases |evs|
  {
    if evs != [] {
      NetStepKeeps(w, evs[0]);
      StepEntries(w, evs[0]);
      RunEntries(NetStep(w, evs[0]), evs[1..]);
    }
  }

  /** In every run: an entry of a live endpoint's table is a live proxy, or one that failed on a dead send,
      or the message that takes it out is waiting. */
  lemma GoneIsForgotten(evs: seq<NetEvent>, s: bool, k: Id)
    requires var sd := Get(NetRun(INIT, evs), s); Alive(sd.node, sd.ep) && k in sd.table
    ensures var sd := Get(NetRun(INIT, evs), s);
            || Alive(sd.node, sd.table[k])
            || ExitedWith(sd.node, sd.table[k], DEAD_SEND)
            || exists e :: e in sd.node.actors[sd.ep].mailbox && e.msg == ProxyExit(k)
  {
    InitOk();
    RunEntries(INIT, evs);
    assert EntryOk(Get(NetRun(INIT, evs), s), k);
  }
}
