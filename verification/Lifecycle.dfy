/**
 What every run of the actor runtime keeps: shutdown happens at most once, envelopes are handled
 in the order they were accepted, an exit reaches every linked actor, and a spawn_linked child
 is linked to its parent before its behaviour first runs.
 */
module Lifecycle {
  import opened Actors

  // ---------------------------------------------------------------- the invariant

  /** Envelopes are handled in the order in which they were accepted. */
  predicate InOrder(x: Actor) {
    && |x.accepted| == |x.handled| + |x.mailbox|
    && (forall i :: 0 <= i < |x.handled| ==> x.accepted[i] == x.handled[i].env)
    && x.accepted[|x.handled|..] == x.mailbox
  }

  /** An instance whose behaviour has not run: its parent's link, if any, comes first. */
  predicate Waiting(x: Actor) {
    || (|x.mailbox| >= 1 && x.mailbox[0].msg.Null? && (x.parent != NOBODY ==> x.parent in x.links))
    || (|x.mailbox| >= 2 && x.parent != NOBODY && x.mailbox[0] == Env(x.parent, Link, AtLink) && x.mailbox[1].msg.Null?)
  }

  /** What holds of one instance by itself. */
  predicate Sound(x: Actor) {
    && |x.exits| <= 1
    && (x.status.Live? <==> x.exits == [])
    && InOrder(x)
    && (!x.started ==> x.status.Live? && !x.trap && !x.observe && x.calls == 0 && Waiting(x))
    && (x.started && x.parent != NOBODY ==> x.parent in x.links)
    && (x.parent != NOBODY && x.exits != [] ==> x.parent in x.exits[0].links)
  }

  /** Only ids already handed out are mentioned. */
  predicate Known(next: Id, x: Actor) {
    && x.parent < next
    && (forall e :: e in x.accepted ==> e.from < next)
    && (forall h :: h in x.links ==> h < next)
    && (x.exits != [] ==> forall h :: h in x.exits[0].links ==> h < next)
  }

  ghost predicate Ids(nd: Node) {
    nd.next > 0 && forall a :: a in nd.actors <==> 0 < a < nd.next
  }

  /** Everything but exit propagation. */
  ghost predicate Core(nd: Node) {
    Ids(nd) && forall a :: a in nd.actors ==> Sound(nd.actors[a]) && Known(nd.next, nd.actors[a])
  }

  /** The notice that `a` exited with `r` is settled at an instance: it is in shutdown, or the
      notice is still queued, or was handled while trapping, or was exactly the normal exit. */
  predicate SettledAt(x: Actor, e: Env, r: Reason) {
    x.status.Live? ==>
      || e in x.mailbox
      || Handled(e, Received(true)) in x.handled
      || (r == Short(Normal) && Handled(e, Ignored) in x.handled)
  }

  predicate Settled(nd: Node, a: Id, r: Reason, b: Id) {
    b in nd.actors ==> SettledAt(nd.actors[b], ExitEnv(a, r), r)
  }

  predicate Exited(nd: Node, a: Id) {
    a in nd.actors && nd.actors[a].exits != []
  }

  /** All notices are settled, except perhaps at `skip`. */
  ghost predicate SettledBut(nd: Node, skip: Id) {
    forall a, b :: Exited(nd, a) && b in nd.actors[a].exits[0].links && b != skip
                   ==> Settled(nd, a, nd.actors[a].exits[0].reason, b)
  }

  ghost predicate Inv(nd: Node) {
    Core(nd) && SettledBut(nd, NOBODY)
  }

  // ---------------------------------------------------------------- growth

  /** y is x with perhaps a longer mailbox; it has not exited since. */
  predicate Longer(x: Actor, y: Actor) {
    && y.status == x.status
    && y.exits == x.exits
    && y.handled == x.handled
    && x.mailbox <= y.mailbox
  }

  ghost predicate Grows(nd: Node, nd': Node) {
    && nd.next <= nd'.next
    && (forall b :: b in nd.actors ==> b in nd'.actors && Longer(nd.actors[b], nd'.actors[b]))
    && (forall b :: b in nd'.actors && b !in nd.actors ==> nd'.actors[b].exits == [])
  }

  lemma SettledLonger(x: Actor, y: Actor, e: Env, r: Reason)
    requires Longer(x, y) && SettledAt(x, e, r)
    ensures SettledAt(y, e, r)
  {
    if e in x.mailbox {
      assert e in y.mailbox[..|x.mailbox|];
    }
  }

  lemma GrowsSettles(nd: Node, nd': Node, skip: Id)
    requires Core(nd) && SettledBut(nd, skip) && Ids(nd') && Grows(nd, nd')
    ensures SettledBut(nd', skip)
  {
    forall a, b | Exited(nd', a) && b in nd'.actors[a].exits[0].links && b != skip
      ensures Settled(nd', a, nd'.actors[a].exits[0].reason, b)
    {
      assert a in nd.actors && Longer(nd.actors[a], nd'.actors[a]);
      assert Known(nd.next, nd.actors[a]);
      if b in nd'.actors {
        assert b in nd.actors;
        SettledLonger(nd.actors[b], nd'.actors[b], ExitEnv(a, nd.actors[a].exits[0].reason), nd.actors[a].exits[0].reason);
      }
    }
  }

  lemma PutCore(nd: Node, a: Id, y: Actor)
    requires Core(nd) && a in nd.actors && Sound(y) && Known(nd.next, y)
    ensures Core(Put(nd, a, y))
  {
  }

  lemma PutGrows(nd: Node, a: Id, y: Actor)
    requires a in nd.actors && Longer(nd.actors[a], y)
    ensures Grows(nd, Put(nd, a, y))
  {
  }

  lemma PutKeeps(nd: Node, a: Id, y: Actor, skip: Id)
    requires Core(nd) && SettledBut(nd, skip) && a in nd.actors
    requires Sound(y) && Known(nd.next, y) && Longer(nd.actors[a], y)
    ensures Core(Put(nd, a, y)) && SettledBut(Put(nd, a, y), skip) && Grows(nd, Put(nd, a, y))
  {
    PutCore(nd, a, y);
    PutGrows(nd, a, y);
    GrowsSettles(nd, Put(nd, a, y), skip);
  }

  // ---------------------------------------------------------------- queueing and exits

  lemma QueuedSound(x: Actor, next: Id, env: Env)
    requires Sound(x) && Known(next, x) && env.from < next
    ensures var y := x.(mailbox := x.mailbox + [env], accepted := x.accepted + [env]);
            Sound(y) && Known(next, y) && Longer(x, y) && env in y.mailbox
  {
    var y := x.(mailbox := x.mailbox + [env], accepted := x.accepted + [env]);
    assert y.mailbox[|x.mailbox|] == env;
    assert InOrder(y);
    assert Waiting(x) ==> Waiting(y);
  }

  lemma QueueCore(nd: Node, to: Id, env: Env)
    requires Core(nd) && env.from < nd.next
    ensures var nd' := Queue(nd, to, env);
            && Core(nd') && Grows(nd, nd') && nd'.next == nd.next
            && (Alive(nd, to) ==> env in nd'.actors[to].mailbox)
  {
    if Alive(nd, to) {
      var x := nd.actors[to];
      var y := x.(mailbox := x.mailbox + [env], accepted := x.accepted + [env]);
      QueuedSound(x, nd.next, env);
      PutCore(nd, to, y);
      PutGrows(nd, to, y);
    }
  }

  lemma LongerTransitive(x: Actor, y: Actor, z: Actor)
    requires Longer(x, y) && Longer(y, z)
    ensures Longer(x, z)
  {
  }

  lemma GrowsTransitive(nd: Node, nd1: Node, nd2: Node)
    requires Grows(nd, nd1) && Grows(nd1, nd2)
    ensures Grows(nd, nd2)
  {
    forall b | b in nd.actors ensures b in nd2.actors && Longer(nd.actors[b], nd2.actors[b]) {
      LongerTransitive(nd.actors[b], nd1.actors[b], nd2.actors[b]);
    }
  }

  lemma {:induction false} NotifyAllCore(nd: Node, hs: seq<Id>, env: Env)
    requires Core(nd) && env.from < nd.next
    ensures var nd' := NotifyAll(nd, hs, env); Core(nd') && Grows(nd, nd') && nd'.next == nd.next
    decreases |hs|
  {
    if hs != [] {
      var nd1 := Queue(nd, hs[0], env);
      QueueCore(nd, hs[0], env);
      NotifyAllCore(nd1, hs[1..], env);
      GrowsTransitive(nd, nd1, NotifyAll(nd, hs, env));
    }
  }

  /** Every live instance in the list has the notice in its mailbox afterwards. */
  lemma {:induction false} NotifyAllTells(nd: Node, hs: seq<Id>, env: Env, b: Id)
    requires Core(nd) && env.from < nd.next && b in hs && Alive(nd, b)
    ensures var nd' := NotifyAll(nd, hs, env); b in nd'.actors && env in nd'.actors[b].mailbox
    decreases |hs|
  {
    var nd1 := Queue(nd, hs[0], env);
    QueueCore(nd, hs[0], env);
    if b == hs[0] {
      NotifyAllCore(nd1, hs[1..], env);
      var nd' := NotifyAll(nd, hs, env);
      assert Longer(nd1.actors[b], nd'.actors[b]);
      assert env in nd'.actors[b].mailbox[..|nd1.actors[b].mailbox|];
    } else {
      assert Alive(nd1, b) by { assert Longer(nd.actors[b], nd1.actors[b]); }
      NotifyAllTells(nd1, hs[1..], env, b);
    }
  }

  lemma MarkExitCore(nd: Node, a: Id, r: Reason)
    requires Core(nd) && Alive(nd, a) && nd.actors[a].started
    ensures var nd1 := MarkExit(nd, a, r);
            && Core(nd1) && nd1.next == nd.next && a in nd1.actors
            && nd1.actors[a].exits == [ExitRecord(r, nd.actors[a].links)] && nd1.actors[a].status.Dying?
  {
    var x := nd.actors[a];
    var y := x.(status := Dying, receiver := false, exits := x.exits + [ExitRecord(r, x.links)]);
    assert Sound(x) && Known(nd.next, x);
    assert Sound(y) && Known(nd.next, y);
    PutCore(nd, a, y);
  }

  /** handle_exit: afterwards `a` is in shutdown and every live linked instance has been told. */
  lemma HandleExitKeeps(nd: Node, a: Id, r: Reason)
    requires Core(nd) && SettledBut(nd, a) && Alive(nd, a) && nd.actors[a].started
    ensures Inv(HandleExit(nd, a, r)) && !Alive(HandleExit(nd, a, r), a)
    ensures Exited(HandleExit(nd, a, r), a)
    ensures HandleExit(nd, a, r).actors[a].exits[0] == ExitRecord(r, nd.actors[a].links)
  {
    var nd1 := MarkExit(nd, a, r);
    MarkExitCore(nd, a, r);
    NotifyAllCore(nd1, nd.actors[a].links, ExitEnv(a, r));
    var nd' := HandleExit(nd, a, r);
    assert Longer(nd1.actors[a], nd'.actors[a]);
    forall c, b | Exited(nd', c) && b in nd'.actors[c].exits[0].links && b != NOBODY
      ensures Settled(nd', c, nd'.actors[c].exits[0].reason, b)
    {
      ExitSettles(nd, a, r, c, b);
    }
  }

  lemma ExitSettles(nd: Node, a: Id, r: Reason, c: Id, b: Id)
    requires Core(nd) && SettledBut(nd, a) && Alive(nd, a) && nd.actors[a].started
    requires var nd' := HandleExit(nd, a, r); Exited(nd', c) && b in nd'.actors[c].exits[0].links && b != NOBODY
    ensures var nd' := HandleExit(nd, a, r); Settled(nd', c, nd'.actors[c].exits[0].reason, b)
  {
    var nd1 := MarkExit(nd, a, r);
    MarkExitCore(nd, a, r);
    NotifyAllCore(nd1, nd.actors[a].links, ExitEnv(a, r));
    var nd' := HandleExit(nd, a, r);
    assert c in nd1.actors && Longer(nd1.actors[c], nd'.actors[c]);
    assert Known(nd1.next, nd1.actors[c]);
    assert b in nd1.actors && Longer(nd1.actors[b], nd'.actors[b]);
    if b != a && Alive(nd', b) {
      if c == a {
        NotifyAllTells(nd1, nd.actors[a].links, ExitEnv(a, r), b);
      } else {
        assert Exited(nd, c) && nd.actors[c] == nd1.actors[c];
        var r' := nd.actors[c].exits[0].reason;
        assert Settled(nd, c, r', b);
        SettledLonger(nd1.actors[b], nd'.actors[b], ExitEnv(c, r'), r');
      }
    }
  }

  // ---------------------------------------------------------------- callbacks

  ghost predicate Running(nd: Node, a: Id) {
    Inv(nd) && Alive(nd, a) && nd.actors[a].started
  }

  lemma AddLinkKeeps(nd: Node, a: Id, h: Id)
    requires Running(nd, a) && h < nd.next
    ensures Running(AddLink(nd, a, h), a)
  {
    var x := nd.actors[a];
    var y := x.(links := [h] + x.links);
    assert Sound(x) && Known(nd.next, x);
    assert Sound(y) && Known(nd.next, y);
    PutKeeps(nd, a, y, NOBODY);
  }

  lemma FreshSound(parent: Id, next: Id)
    requires parent < next
    ensures Sound(Fresh(parent)) && Known(next, Fresh(parent))
  {
    var z := Fresh(parent);
    assert z.accepted[0..] == z.mailbox;
  }

  lemma SpawnKeeps(nd: Node, parent: Id)
    requires Inv(nd) && parent < nd.next
    ensures Inv(SpawnOne(nd, parent)) && Grows(nd, SpawnOne(nd, parent))
  {
    var nd' := SpawnOne(nd, parent);
    FreshSound(parent, nd'.next);
    forall a | a in nd.actors ensures Sound(nd'.actors[a]) && Known(nd'.next, nd'.actors[a]) {
      assert nd'.actors[a] == nd.actors[a] && Known(nd.next, nd.actors[a]);
    }
    GrowsSettles(nd, nd', NOBODY);
  }

  lemma QueueRunning(nd: Node, a: Id, to: Id, env: Env)
    requires Running(nd, a) && env.from < nd.next
    ensures Running(Queue(nd, to, env), a)
  {
    QueueCore(nd, to, env);
    var nd' := Queue(nd, to, env);
    GrowsSettles(nd, nd', NOBODY);
    assert Longer(nd.actors[a], nd'.actors[a]);
  }

  lemma ApplyEffectKeeps(nd: Node, a: Id, e: Effect)
    requires Running(nd, a)
    ensures Running(ApplyEffect(nd, a, e).0, a)
  {
    var x := nd.actors[a];
    assert Sound(x) && Known(nd.next, x);
    match e {
      case SendTo(to, msg, via, must) =>
        QueueRunning(nd, a, to, Env(a, msg, via));
      case LinkTo(to, must) =>
        if !SendFails(nd, to, Link) {
          var nd1 := Queue(nd, to, Env(a, Link, AtLink));
          QueueRunning(nd, a, to, Env(a, Link, AtLink));
          AddLinkKeeps(nd1, a, to);
        }
      case Spawn =>
        SpawnKeeps(nd, NOBODY);
      case SpawnLink =>
        SpawnKeeps(nd, a);
        AddLinkKeeps(SpawnOne(nd, a), a, nd.next);
      case SetTrap(on) => PutKeeps(nd, a, x.(trap := on), NOBODY);
      case SetObserve(on) => PutKeeps(nd, a, x.(observe := on), NOBODY);
      case Receive => PutKeeps(nd, a, x.(receiver := true), NOBODY);
    }
  }

  lemma {:induction false} ApplyEffectsKeeps(nd: Node, a: Id, es: seq<Effect>)
    requires Running(nd, a)
    ensures Running(ApplyEffects(nd, a, es).0, a)
    decreases |es|
  {
    if es != [] {
      ApplyEffectKeeps(nd, a, es[0]);
      var (nd1, failed) := ApplyEffect(nd, a, es[0]);
      if !failed {
        ApplyEffectsKeeps(nd1, a, es[1..]);
      }
    }
  }

  lemma ExitRunning(nd: Node, a: Id, r: Reason)
    requires Running(nd, a)
    ensures Inv(HandleExit(nd, a, r))
  {
    assert SettledBut(nd, a);
    HandleExitKeeps(nd, a, r);
  }

  lemma InvokeKeeps(nd: Node, a: Id, cb: Callback)
    requires Running(nd, a)
    ensures Inv(Invoke(nd, a, cb))
  {
    ApplyEffectsKeeps(nd, a, cb.effects);
    var (nd2, failed) := ApplyEffects(nd, a, cb.effects);
    if failed {
      ExitRunning(nd2, a, DEAD_SEND);
    } else if cb.result.Err? {
      ExitRunning(nd2, a, cb.result.reason);
    } else if !nd2.actors[a].receiver {
      ExitRunning(nd2, a, Short(NoReceive));
    }
  }

  // ---------------------------------------------------------------- one envelope

  lemma TakenSound(x: Actor, next: Id)
    requires Sound(x) && Known(next, x) && x.mailbox != []
    ensures var y := Taken(x); Sound(y) && Known(next, y)
    ensures var o := OutcomeOf(x, x.mailbox[0]);
            o.Received? || o.Obeyed? ==> Taken(x).started && Taken(x).status.Live?
  {
    var y := Taken(x);
    assert x.mailbox[0] == x.accepted[|x.handled|..][0] == x.accepted[|x.handled|];
    assert InOrder(y) by {
      assert x.accepted[|x.handled|..][0] == x.mailbox[0];
      assert x.accepted[|x.handled| + 1..] == x.accepted[|x.handled|..][1..];
    }
  }

  lemma TakenSettles(x: Actor, e: Env, r: Reason)
    requires x.mailbox != [] && e.msg == Exit(r) && SettledAt(x, e, r) && !OutcomeOf(x, x.mailbox[0]).Obeyed?
    ensures SettledAt(Taken(x), e, r)
  {
    var y := Taken(x);
    if x.status.Live? {
      if e in x.mailbox && e != x.mailbox[0] {
        assert e in x.mailbox[1..];
      } else if e == x.mailbox[0] {
        assert y.handled[|x.handled|] == Handled(e, OutcomeOf(x, e));
      }
    }
  }

  lemma TakeKeeps(nd: Node, a: Id)
    requires Inv(nd) && CanRun(nd, a)
    ensures var nd' := Take(nd, a);
            && Core(nd')
            && SettledBut(nd', if OutcomeOf(nd.actors[a], nd.actors[a].mailbox[0]).Obeyed? then a else NOBODY)
  {
    var x := nd.actors[a];
    var nd' := Take(nd, a);
    TakenSound(x, nd.next);
    PutCore(nd, a, Taken(x));
    var skip := if OutcomeOf(x, x.mailbox[0]).Obeyed? then a else NOBODY;
    forall c, b | Exited(nd', c) && b in nd'.actors[c].exits[0].links && b != skip
      ensures Settled(nd', c, nd'.actors[c].exits[0].reason, b)
    {
      var r := nd'.actors[c].exits[0].reason;
      if b != NOBODY {
        assert Exited(nd, c) && nd.actors[c].exits == nd'.actors[c].exits;
        assert Settled(nd, c, r, b);
        if b == a {
          TakenSettles(x, ExitEnv(c, r), r);
        }
      }
    }
  }

  lemma RunKeeps(nd: Node, a: Id, cb: Callback)
    requires Inv(nd) && CanRun(nd, a)
    ensures Inv(Run(nd, a, cb))
  {
    TakeKeeps(nd, a);
    TakenSound(nd.actors[a], nd.next);
    var nd1 := Take(nd, a);
    var o := OutcomeOf(nd.actors[a], nd.actors[a].mailbox[0]);
    if o.Obeyed? {
      HandleExitKeeps(nd1, a, nd.actors[a].mailbox[0].msg.reason);
    } else if o.Received? {
      InvokeKeeps(nd1, a, cb);
    }
  }

  lemma StepKeeps(nd: Node, ev: Event)
    requires Inv(nd)
    ensures Inv(Step(nd, ev))
  {
    match ev {
      case RunOne(a, cb) =>
        if CanRun(nd, a) {
          RunKeeps(nd, a, cb);
        }
      case Outside(to, msg) =>
        var env := Env(NOBODY, msg, Direct);
        QueueCore(nd, to, env);
        GrowsSettles(nd, Queue(nd, to, env), NOBODY);
      case OutsideSpawn =>
        SpawnKeeps(nd, NOBODY);
      case Destroy(a) =>
        DestroyKeeps(nd, a);
    }
  }

  lemma DestroyKeeps(nd: Node, a: Id)
    requires Inv(nd)
    ensures Inv(Step(nd, Destroy(a)))
  {
    var nd' := Step(nd, Destroy(a));
    if nd' != nd {
      var y := nd.actors[a].(status := Gone);
      assert Sound(nd.actors[a]) && Known(nd.next, nd.actors[a]);
      assert Sound(y) && Known(nd.next, y);
      PutCore(nd, a, y);
      forall c, b | Exited(nd', c) && b in nd'.actors[c].exits[0].links && b != NOBODY
        ensures Settled(nd', c, nd'.actors[c].exits[0].reason, b)
      {
        assert Exited(nd, c);
        assert Settled(nd, c, nd.actors[c].exits[0].reason, b);
      }
    }
  }

  /** The invariant holds in every reachable state. */
  lemma {:induction false} ExecKeeps(nd: Node, evs: seq<Event>)
    requires Inv(nd)
    ensures Inv(Exec(nd, evs))
    decreases |evs|
  {
    if evs != [] {
      StepKeeps(nd, evs[0]);
      ExecKeeps(Step(nd, evs[0]), evs[1..]);
    }
  }
}
