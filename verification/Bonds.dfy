/**
 Links work both ways.  In every run of the actor runtime, whoever linked to an instance, or
 spawned it with a link, has it in its own link list, and the instance has the other in its list
 once it has taken the link message; so whichever exits first, the other is told.
 */
module Bonds {
  import opened Actors
  import opened Lifecycle

  /** The list of instances that x tells, or has told, when it exits. */
  function TellList(x: Actor): seq<Id> {
    if x.exits == [] then x.links else x.exits[0].links
  }

  predicate Holds(x: Actor, b: Id) {
    b in TellList(x)
  }

  /** Nobody is taken off the list. */
  ghost predicate KeepsList(x: Actor, y: Actor) {
    y.parent == x.parent && x.accepted <= y.accepted && forall b :: Holds(x, b) ==> Holds(y, b)
  }

  ghost predicate KeepsLists(nd: Node, nd': Node) {
    forall a :: a in nd.actors ==> a in nd'.actors && KeepsList(nd.actors[a], nd'.actors[a])
  }

  lemma KeepsListsTwice(nd: Node, nd1: Node, nd2: Node)
    requires KeepsLists(nd, nd1) && KeepsLists(nd1, nd2)
    ensures KeepsLists(nd, nd2)
  {
    forall a | a in nd.actors ensures a in nd2.actors && KeepsList(nd.actors[a], nd2.actors[a]) {
      assert KeepsList(nd.actors[a], nd1.actors[a]) && KeepsList(nd1.actors[a], nd2.actors[a]);
    }
  }

  /** Whoever made the link of an envelope has its receiver on the list. */
  predicate Bound(nd: Node, b: Id, e: Env) {
    e.via.AtLink? ==> e.msg.Link? && e.from in nd.actors && Holds(nd.actors[e.from], b)
  }

  ghost predicate BoundAt(nd: Node, b: Id) {
    b in nd.actors ==> forall e :: e in nd.actors[b].accepted ==> Bound(nd, b, e)
  }

  /** A child has been sent the link of its parent. */
  predicate Parented(x: Actor) {
    x.parent != NOBODY ==> Env(x.parent, Link, AtLink) in x.accepted
  }

  ghost predicate AllBound(nd: Node) {
    (forall b :: BoundAt(nd, b)) && (forall b :: b in nd.actors ==> Parented(nd.actors[b]))
  }

  /** What was bound stays bound, so only new envelopes and new instances matter. */
  lemma StaysBound(nd: Node, nd': Node)
    requires AllBound(nd) && KeepsLists(nd, nd')
    requires forall b, e :: b in nd'.actors && e in nd'.actors[b].accepted && !(b in nd.actors && e in nd.actors[b].accepted) ==> Bound(nd', b, e)
    requires forall b :: b in nd'.actors && b !in nd.actors ==> Parented(nd'.actors[b])
    ensures AllBound(nd')
  {
    forall b | b in nd'.actors ensures BoundAt(nd', b) && Parented(nd'.actors[b]) {
      if b in nd.actors {
        assert KeepsList(nd.actors[b], nd'.actors[b]) && BoundAt(nd, b) && Parented(nd.actors[b]);
        forall e | e in nd'.actors[b].accepted ensures Bound(nd', b, e) {
          if e in nd.actors[b].accepted && e.via.AtLink? {
            assert Bound(nd, b, e);
            assert KeepsList(nd.actors[e.from], nd'.actors[e.from]);
          }
        }
      }
    }
  }

  // ---------------------------------------------------------------- transitions

  /** One record is replaced by one with the same mail. */
  lemma PutBound(nd: Node, a: Id, y: Actor)
    requires AllBound(nd) && a in nd.actors && KeepsList(nd.actors[a], y) && y.accepted == nd.actors[a].accepted
    ensures AllBound(Put(nd, a, y)) && KeepsLists(nd, Put(nd, a, y))
  {
    StaysBound(nd, Put(nd, a, y));
  }

  lemma QueueBound(nd: Node, to: Id, env: Env)
    requires AllBound(nd) && !env.via.AtLink?
    ensures AllBound(Queue(nd, to, env)) && KeepsLists(nd, Queue(nd, to, env))
  {
    StaysBound(nd, Queue(nd, to, env));
  }

  lemma {:induction false} NotifyBound(nd: Node, hs: seq<Id>, env: Env)
    requires AllBound(nd) && !env.via.AtLink?
    ensures AllBound(NotifyAll(nd, hs, env)) && KeepsLists(nd, NotifyAll(nd, hs, env))
    decreases |hs|
  {
    if hs != [] {
      var nd1 := Queue(nd, hs[0], env);
      QueueBound(nd, hs[0], env);
      NotifyBound(nd1, hs[1..], env);
      KeepsListsTwice(nd, nd1, NotifyAll(nd, hs, env));
    }
  }

  /** The links are recorded as they are when the instance exits. */
  lemma ExitBound(nd: Node, a: Id, r: Reason)
    requires AllBound(nd) && a in nd.actors && nd.actors[a].exits == []
    ensures AllBound(HandleExit(nd, a, r)) && KeepsLists(nd, HandleExit(nd, a, r))
  {
    var x, nd1 := nd.actors[a], MarkExit(nd, a, r);
    PutBound(nd, a, x.(status := Dying, receiver := false, exits := x.exits + [ExitRecord(r, x.links)]));
    NotifyBound(nd1, x.links, ExitEnv(a, r));
    KeepsListsTwice(nd, nd1, HandleExit(nd, a, r));
  }

  lemma LinkBound(nd: Node, a: Id, to: Id)
    requires AllBound(nd) && a in nd.actors && nd.actors[a].exits == []
    ensures var nd' := AddLink(Queue(nd, to, Env(a, Link, AtLink)), a, to); AllBound(nd') && KeepsLists(nd, nd')
  {
    StaysBound(nd, AddLink(Queue(nd, to, Env(a, Link, AtLink)), a, to));
  }

  lemma SpawnBound(nd: Node)
    requires AllBound(nd) && nd.next !in nd.actors
    ensures AllBound(SpawnOne(nd, NOBODY)) && KeepsLists(nd, SpawnOne(nd, NOBODY))
  {
    StaysBound(nd, SpawnOne(nd, NOBODY));
  }

  lemma SpawnLinkBound(nd: Node, a: Id)
    requires AllBound(nd) && a in nd.actors && nd.actors[a].exits == [] && nd.next !in nd.actors && a != NOBODY
    ensures var nd' := AddLink(SpawnOne(nd, a), a, nd.next); AllBound(nd') && KeepsLists(nd, nd')
  {
    var nd' := AddLink(SpawnOne(nd, a), a, nd.next);
    assert nd'.actors[nd.next].accepted == [Env(a, Link, AtLink), Env(NOBODY, Null, Direct)];
    StaysBound(nd, nd');
  }

  lemma EffectBound(nd: Node, a: Id, e: Effect)
    requires Running(nd, a) && AllBound(nd)
    ensures var nd' := ApplyEffect(nd, a, e).0; AllBound(nd') && KeepsLists(nd, nd')
  {
    var x := nd.actors[a];
    assert Sound(x) && nd.next !in nd.actors && a != NOBODY;
    match e {
      case SendTo(to, msg, via, _) => QueueBound(nd, to, Env(a, msg, via));
      case LinkTo(to, _) => LinkBound(nd, a, to);
      case Spawn => SpawnBound(nd);
      case SpawnLink => SpawnLinkBound(nd, a);
      case SetTrap(on) => PutBound(nd, a, x.(trap := on));
      case SetObserve(on) => PutBound(nd, a, x.(observe := on));
      case Receive => PutBound(nd, a, x.(receiver := true));
    }
  }

  lemma {:induction false} EffectsBound(nd: Node, a: Id, es: seq<Effect>)
    requires Running(nd, a) && AllBound(nd)
    ensures var nd' := ApplyEffects(nd, a, es).0; AllBound(nd') && KeepsLists(nd, nd')
    decreases |es|
  {
    if es != [] {
      var (nd1, failed) := ApplyEffect(nd, a, es[0]);
      EffectBound(nd, a, es[0]);
      if !failed {
        ApplyEffectKeeps(nd, a, es[0]);
        EffectsBound(nd1, a, es[1..]);
        KeepsListsTwice(nd, nd1, ApplyEffects(nd, a, es).0);
      }
    }
  }

  lemma InvokeBound(nd: Node, a: Id, cb: Callback)
    requires Running(nd, a) && AllBound(nd)
    ensures AllBound(Invoke(nd, a, cb)) && KeepsLists(nd, Invoke(nd, a, cb))
  {
    EffectsBound(nd, a, cb.effects);
    ApplyEffectsKeeps(nd, a, cb.effects);
    var (nd1, failed) := ApplyEffects(nd, a, cb.effects);
    assert Sound(nd1.actors[a]);
    var r := if failed then DEAD_SEND else if cb.result.Err? then cb.result.reason else Short(NoReceive);
    ExitBound(nd1, a, r);
    KeepsListsTwice(nd, nd1, HandleExit(nd1, a, r));
  }

  lemma TakeBound(nd: Node, a: Id)
    requires AllBound(nd) && CanRun(nd, a)
    ensures AllBound(Take(nd, a)) && KeepsLists(nd, Take(nd, a))
  {
    var x := nd.actors[a];
    assert KeepsList(x, Taken(x));
    PutBound(nd, a, Taken(x));
  }

  /** An instance whose envelope is for its receiver, or shuts it down, runs. */
  lemma TakeRuns(nd: Node, a: Id)
    requires Inv(nd) && CanRun(nd, a)
    ensures var o := OutcomeOf(nd.actors[a], nd.actors[a].mailbox[0]);
            && (o.Received? ==> Running(Take(nd, a), a))
            && (o.Obeyed? ==> Take(nd, a).actors[a].exits == [])
  {
    TakeKeeps(nd, a);
    TakenSound(nd.actors[a], nd.next);
    assert Sound(nd.actors[a]);
  }

  lemma RunBound(nd: Node, a: Id, cb: Callback)
    requires Inv(nd) && CanRun(nd, a) && AllBound(nd)
    ensures AllBound(Run(nd, a, cb)) && KeepsLists(Take(nd, a), Run(nd, a, cb)) && KeepsLists(nd, Run(nd, a, cb))
  {
    var nd1, env := Take(nd, a), nd.actors[a].mailbox[0];
    TakeRuns(nd, a);
    TakeBound(nd, a);
    match OutcomeOf(nd.actors[a], env) {
      case Obeyed => ExitBound(nd1, a, env.msg.reason);
      case Received(_) => InvokeBound(nd1, a, cb);
      case _ =>
    }
    KeepsListsTwice(nd, nd1, Run(nd, a, cb));
  }

  lemma StepBound(nd: Node, ev: Event)
    requires Inv(nd) && AllBound(nd)
    ensures AllBound(Step(nd, ev)) && KeepsLists(nd, Step(nd, ev))
  {
    match ev {
      case RunOne(a, cb) => if CanRun(nd, a) { RunBound(nd, a, cb); }
      case Outside(to, msg) => QueueBound(nd, to, Env(NOBODY, msg, Direct));
      case OutsideSpawn => SpawnBound(nd);
      case Destroy(a) => if a in nd.actors { PutBound(nd, a, nd.actors[a].(status := Gone)); }
    }
  }

  lemma {:induction false} ExecBound(nd: Node, evs: seq<Event>)
    requires Inv(nd) && AllBound(nd)
    ensures Inv(Exec(nd, evs)) && AllBound(Exec(nd, evs)) && KeepsLists(nd, Exec(nd, evs))
    decreases |evs|
  {
    if evs != [] {
      StepBound(nd, evs[0]);
      StepKeeps(nd, evs[0]);
      ExecBound(Step(nd, evs[0]), evs[1..]);
      KeepsListsTwice(nd, Step(nd, evs[0]), Exec(nd, evs));
    }
  }

  // ---------------------------------------------------------------- results

  lemma HolderTells(nd: Node, a: Id, b: Id)
    requires Inv(nd) && a in nd.actors && Holds(nd.actors[a], b)
    ensures Exited(nd, a) ==> b in nd.actors[a].exits[0].links && Settled(nd, a, nd.actors[a].exits[0].reason, b)
  {
    assert NOBODY !in nd.actors;
  }

  /** In every run: if b was sent a link by a, then a has b on its list, and if a exited b was told. */
  lemma LinkerTells(evs: seq<Event>, a: Id, b: Id)
    requires var nd := Exec(EMPTY, evs); b in nd.actors && Env(a, Link, AtLink) in nd.actors[b].accepted
    ensures var nd := Exec(EMPTY, evs);
            && a in nd.actors && (nd.actors[a].exits == [] ==> b in nd.actors[a].links)
            && (Exited(nd, a) ==> b in nd.actors[a].exits[0].links && Settled(nd, a, nd.actors[a].exits[0].reason, b))
  {
    ExecBound(EMPTY, evs);
    var nd := Exec(EMPTY, evs);
    assert BoundAt(nd, b);
    assert Bound(nd, b, Env(a, Link, AtLink));
    HolderTells(nd, a, b);
  }

  /** The child of a spawn_link is on its parent's list, and is told when the parent exits. */
  lemma ParentTellsChild(evs: seq<Event>, child: Id)
    requires child in Exec(EMPTY, evs).actors && Exec(EMPTY, evs).actors[child].parent != NOBODY
    ensures var nd := Exec(EMPTY, evs); var p := nd.actors[child].parent;
            && p in nd.actors && (nd.actors[p].exits == [] ==> child in nd.actors[p].links)
            && (Exited(nd, p) ==> child in nd.actors[p].exits[0].links && Settled(nd, p, nd.actors[p].exits[0].reason, child))
  {
    ExecBound(EMPTY, evs);
    assert Parented(Exec(EMPTY, evs).actors[child]);
    LinkerTells(evs, Exec(EMPTY, evs).actors[child].parent, child);
  }

  /** A live instance that is about to take a link has its sender on its list from then on, so it
      tells the sender when it exits, however the run goes on. */
  lemma LinkedTells(evs: seq<Event>, b: Id, cb: Callback, more: seq<Event>)
    requires var nd := Exec(EMPTY, evs); Alive(nd, b) && CanRun(nd, b) && nd.actors[b].mailbox[0].msg.Link?
    ensures var nd, nd' := Exec(EMPTY, evs), Exec(Step(Exec(EMPTY, evs), RunOne(b, cb)), more);
            var a := nd.actors[b].mailbox[0].from;
            && b in nd'.actors && (nd'.actors[b].exits == [] ==> a in nd'.actors[b].links)
            && (Exited(nd', b) ==> a in nd'.actors[b].exits[0].links && Settled(nd', b, nd'.actors[b].exits[0].reason, a))
  {
    ExecBound(EMPTY, evs);
    var nd := Exec(EMPTY, evs);
    var a := nd.actors[b].mailbox[0].from;
    StepKeeps(nd, RunOne(b, cb));
    StepBound(nd, RunOne(b, cb));
    TakenHolds(nd, b, cb);
    var nd1 := Step(nd, RunOne(b, cb));
    ExecBound(nd1, more);
    var nd' := Exec(nd1, more);
    assert KeepsList(nd1.actors[b], nd'.actors[b]);
    HolderTells(nd', b, a);
  }

  lemma TakenHolds(nd: Node, b: Id, cb: Callback)
    requires Inv(nd) && AllBound(nd) && Alive(nd, b) && CanRun(nd, b) && nd.actors[b].mailbox[0].msg.Link?
    ensures var nd' := Run(nd, b, cb); b in nd'.actors && Holds(nd'.actors[b], nd.actors[b].mailbox[0].from)
  {
    assert Sound(nd.actors[b]);
    assert Holds(Take(nd, b).actors[b], nd.actors[b].mailbox[0].from);
    RunBound(nd, b, cb);
    assert KeepsList(Take(nd, b).actors[b], Run(nd, b, cb).actors[b]);
  }
}
