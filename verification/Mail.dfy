/**
 Which envelopes one run of an actor adds, and where.  A run only appends to mailboxes, and every
 appended envelope satisfies whatever the callback's effects and its exit message satisfy.
 */
module Mail {
  import opened Actors
  import opened Lifecycle

  type Kind = Env -> bool

  /** The envelopes accepted by an instance between two of its states. */
  function New(x: Actor, y: Actor): seq<Env> {
    if |x.accepted| <= |y.accepted| then y.accepted[|x.accepted|..] else []
  }

  predicate AddsAt(x: Actor, y: Actor) {
    y.accepted == x.accepted + New(x, y) && y.mailbox == x.mailbox + New(x, y)
  }

  ghost predicate AllOf(es: seq<Env>, k: Kind) {
    forall e :: e in es ==> k(e)
  }

  /** y is x but for its mail. */
  predicate OnlyMail(x: Actor, y: Actor) {
    y == x.(mailbox := y.mailbox, accepted := y.accepted)
  }

  /** nd' is nd with envelopes of kind k appended here and there, and perhaps new instances; only
      `a` may have changed otherwise. */
  ghost predicate Adds(nd: Node, nd': Node, a: Id, k: Kind) {
    && nd.next <= nd'.next
    && (forall b :: b in nd.actors ==> b in nd'.actors && AddsAt(nd.actors[b], nd'.actors[b])
                                       && AllOf(New(nd.actors[b], nd'.actors[b]), k)
                                       && (b != a ==> OnlyMail(nd.actors[b], nd'.actors[b])))
    && (forall c :: c in nd'.actors && c !in nd.actors ==>
          nd.next <= c && nd'.actors[c].accepted == nd'.actors[c].mailbox && AllOf(nd'.actors[c].mailbox, k))
  }

  lemma AddsAtTransitive(x: Actor, y: Actor, z: Actor, k: Kind)
    requires AddsAt(x, y) && AddsAt(y, z) && AllOf(New(x, y), k) && AllOf(New(y, z), k)
    ensures AddsAt(x, z) && AllOf(New(x, z), k) && New(x, z) == New(x, y) + New(y, z)
  {
    assert z.accepted == x.accepted + (New(x, y) + New(y, z));
    assert z.mailbox == x.mailbox + (New(x, y) + New(y, z));
  }

  lemma AddsTransitive(nd: Node, nd1: Node, nd2: Node, a: Id, k: Kind)
    requires Adds(nd, nd1, a, k) && Adds(nd1, nd2, a, k) && Core(nd1)
    ensures Adds(nd, nd2, a, k)
  {
    forall b | b in nd.actors
      ensures b in nd2.actors && AddsAt(nd.actors[b], nd2.actors[b]) && AllOf(New(nd.actors[b], nd2.actors[b]), k)
              && (b != a ==> OnlyMail(nd.actors[b], nd2.actors[b]))
    {
      AddsAtTransitive(nd.actors[b], nd1.actors[b], nd2.actors[b], k);
    }
    forall c | c in nd2.actors && c !in nd.actors
      ensures nd.next <= c && nd2.actors[c].accepted == nd2.actors[c].mailbox && AllOf(nd2.actors[c].mailbox, k)
    {
      if c in nd1.actors {
        NewbornGrows(nd1.actors[c], nd2.actors[c], k);
      }
    }
  }

  lemma NewbornGrows(x: Actor, y: Actor, k: Kind)
    requires AddsAt(x, y) && AllOf(New(x, y), k) && x.accepted == x.mailbox && AllOf(x.mailbox, k)
    ensures y.accepted == y.mailbox && AllOf(y.mailbox, k)
  {
  }

  // ---------------------------------------------------------------- primitives

  lemma QueueAdds(nd: Node, to: Id, env: Env, a: Id, k: Kind)
    requires k(env)
    ensures Adds(nd, Queue(nd, to, env), a, k)
    ensures Alive(nd, to) ==> New(nd.actors[to], Queue(nd, to, env).actors[to]) == [env]
    ensures forall b :: b in nd.actors && (b != to || !Alive(nd, to)) ==> New(nd.actors[b], Queue(nd, to, env).actors[b]) == []
  {
    var nd' := Queue(nd, to, env);
    if Alive(nd, to) {
      assert New(nd.actors[to], nd'.actors[to]) == [env];
    }
    forall b | b in nd.actors && (b != to || !Alive(nd, to))
      ensures AddsAt(nd.actors[b], nd'.actors[b]) && New(nd.actors[b], nd'.actors[b]) == []
    {
    }
  }

  lemma {:induction false} NotifyAllAdds(nd: Node, hs: seq<Id>, env: Env, a: Id, k: Kind)
    requires Core(nd) && env.from < nd.next && k(env)
    ensures Adds(nd, NotifyAll(nd, hs, env), a, k)
    decreases |hs|
  {
    if hs != [] {
      var nd1 := Queue(nd, hs[0], env);
      QueueCore(nd, hs[0], env);
      QueueAdds(nd, hs[0], env, a, k);
      NotifyAllAdds(nd1, hs[1..], env, a, k);
      AddsTransitive(nd, nd1, NotifyAll(nd, hs, env), a, k);
    } else {
      SameAdds(nd, nd, a, k);
    }
  }

  /** Nodes that differ in nothing but modes and links. */
  lemma SameAdds(nd: Node, nd': Node, a: Id, k: Kind)
    requires nd'.actors.Keys == nd.actors.Keys && nd'.next == nd.next
    requires forall b :: b in nd.actors ==> nd'.actors[b].accepted == nd.actors[b].accepted
                                            && nd'.actors[b].mailbox == nd.actors[b].mailbox
                                            && (b != a ==> nd'.actors[b] == nd.actors[b])
    ensures Adds(nd, nd', a, k)
  {
    forall b | b in nd.actors
      ensures b in nd'.actors && AddsAt(nd.actors[b], nd'.actors[b]) && New(nd.actors[b], nd'.actors[b]) == []
    {
    }
  }

  lemma HandleExitAdds(nd: Node, a: Id, r: Reason, k: Kind)
    requires Core(nd) && Alive(nd, a) && nd.actors[a].started && k(ExitEnv(a, r))
    ensures Adds(nd, HandleExit(nd, a, r), a, k)
  {
    var nd1 := MarkExit(nd, a, r);
    MarkExitCore(nd, a, r);
    SameAdds(nd, nd1, a, k);
    NotifyAllAdds(nd1, nd.actors[a].links, ExitEnv(a, r), a, k);
    AddsTransitive(nd, nd1, HandleExit(nd, a, r), a, k);
  }

  /** The envelopes that one effect of `a` may create are of kind k. */
  predicate EffectOf(a: Id, e: Effect, k: Kind) {
    match e
    case SendTo(to, msg, via, _) => k(Env(a, msg, via))
    case LinkTo(_, _) => k(Env(a, Link, AtLink))
    case Spawn => k(Env(NOBODY, Null, Direct))
    case SpawnLink => k(Env(NOBODY, Null, Direct)) && k(Env(a, Link, AtLink))
    case _ => true
  }

  lemma SpawnAdds(nd: Node, parent: Id, a: Id, k: Kind)
    requires nd.next !in nd.actors && k(Env(NOBODY, Null, Direct)) && (parent != NOBODY ==> k(Env(parent, Link, AtLink)))
    ensures Adds(nd, SpawnOne(nd, parent), a, k)
  {
    var nd' := SpawnOne(nd, parent);
    forall b | b in nd.actors
      ensures b in nd'.actors && AddsAt(nd.actors[b], nd'.actors[b]) && New(nd.actors[b], nd'.actors[b]) == []
    {
      assert nd'.actors[b] == nd.actors[b];
    }
  }

  lemma LinkAdds(nd: Node, a: Id, to: Id, k: Kind)
    requires Core(nd) && a in nd.actors && k(Env(a, Link, AtLink))
    ensures Adds(nd, AddLink(Queue(nd, to, Env(a, Link, AtLink)), a, to), a, k)
  {
    var nd1 := Queue(nd, to, Env(a, Link, AtLink));
    QueueAdds(nd, to, Env(a, Link, AtLink), a, k);
    QueueCore(nd, to, Env(a, Link, AtLink));
    SameAdds(nd1, AddLink(nd1, a, to), a, k);
    AddsTransitive(nd, nd1, AddLink(nd1, a, to), a, k);
  }

  lemma SpawnLinkAdds(nd: Node, a: Id, k: Kind)
    requires Inv(nd) && a in nd.actors && k(Env(NOBODY, Null, Direct)) && k(Env(a, Link, AtLink))
    ensures Adds(nd, AddLink(SpawnOne(nd, a), a, nd.next), a, k)
  {
    var nd1 := SpawnOne(nd, a);
    SpawnAdds(nd, a, a, k);
    SpawnKeeps(nd, a);
    SameAdds(nd1, AddLink(nd1, a, nd.next), a, k);
    AddsTransitive(nd, nd1, AddLink(nd1, a, nd.next), a, k);
  }

  lemma ApplyEffectAdds(nd: Node, a: Id, e: Effect, k: Kind)
    requires Running(nd, a) && EffectOf(a, e, k)
    ensures Adds(nd, ApplyEffect(nd, a, e).0, a, k)
  {
    if ApplyEffect(nd, a, e).0 == nd {
      SameAdds(nd, nd, a, k);
    } else {
      match e {
        case SendTo(to, msg, via, must) => QueueAdds(nd, to, Env(a, msg, via), a, k);
        case LinkTo(to, must) => LinkAdds(nd, a, to, k);
        case Spawn => SpawnAdds(nd, NOBODY, a, k);
        case SpawnLink => SpawnLinkAdds(nd, a, k);
        case _ => SameAdds(nd, ApplyEffect(nd, a, e).0, a, k);
      }
    }
  }

  lemma {:induction false} ApplyEffectsAdds(nd: Node, a: Id, es: seq<Effect>, k: Kind)
    requires Running(nd, a) && forall e :: e in es ==> EffectOf(a, e, k)
    ensures Adds(nd, ApplyEffects(nd, a, es).0, a, k)
    decreases |es|
  {
    if es == [] {
      SameAdds(nd, nd, a, k);
    } else {
      var (nd1, failed) := ApplyEffect(nd, a, es[0]);
      ApplyEffectAdds(nd, a, es[0], k);
      ApplyEffectKeeps(nd, a, es[0]);
      if !failed {
        ApplyEffectsAdds(nd1, a, es[1..], k);
        AddsTransitive(nd, nd1, ApplyEffects(nd, a, es).0, a, k);
      }
    }
  }

  /** The exit message an instance sent, if it has exited, is of kind k. */
  predicate ExitOf(nd: Node, a: Id, k: Kind) {
    Exited(nd, a) ==> k(ExitEnv(a, nd.actors[a].exits[0].reason))
  }

  lemma InvokeAdds(nd: Node, a: Id, cb: Callback, k: Kind)
    requires Running(nd, a) && (forall e :: e in cb.effects ==> EffectOf(a, e, k)) && ExitOf(Invoke(nd, a, cb), a, k)
    ensures Adds(nd, Invoke(nd, a, cb), a, k)
  {
    ApplyEffectsAdds(nd, a, cb.effects, k);
    ApplyEffectsKeeps(nd, a, cb.effects);
    var (nd1, failed) := ApplyEffects(nd, a, cb.effects);
    var nd' := Invoke(nd, a, cb);
    if failed || cb.result.Err? || !nd1.actors[a].receiver {
      var r := if failed then DEAD_SEND else if cb.result.Err? then cb.result.reason else Short(NoReceive);
      assert SettledBut(nd1, a);
      HandleExitKeeps(nd1, a, r);
      HandleExitAdds(nd1, a, r, k);
      AddsTransitive(nd, nd1, nd', a, k);
    }
  }

  /** One run: the instance takes its first envelope, and then only adds. */
  lemma RunAdds(nd: Node, a: Id, cb: Callback, k: Kind)
    requires Inv(nd) && CanRun(nd, a)
    requires OutcomeOf(nd.actors[a], nd.actors[a].mailbox[0]).Received? ==> forall e :: e in cb.effects ==> EffectOf(a, e, k)
    requires !Exited(nd, a) ==> ExitOf(Run(nd, a, cb), a, k)
    ensures Adds(Take(nd, a), Run(nd, a, cb), a, k)
  {
    TakeKeeps(nd, a);
    TakenSound(nd.actors[a], nd.next);
    assert Sound(nd.actors[a]);
    var nd1 := Take(nd, a);
    var o := OutcomeOf(nd.actors[a], nd.actors[a].mailbox[0]);
    if o.Obeyed? {
      var r := nd.actors[a].mailbox[0].msg.reason;
      HandleExitKeeps(nd1, a, r);
      HandleExitAdds(nd1, a, r, k);
    } else if o.Received? {
      InvokeAdds(nd1, a, cb, k);
    } else {
      SameAdds(nd1, nd1, a, k);
    }
  }
}
