/**
 What one run of a receiver does, told instance by instance: what each is sent, which are made,
 whom the running one is linked to, and whether and why it exits.

 The description never looks at a node in between.  Whether a send in the middle of a callback
 reaches its target is known beforehand, since nobody exits during it: the target was alive at the
 start, or was made earlier in the same callback.
 */
module Callbacks {
  import opened Actors
  import opened Lifecycle

  // ---------------------------------------------------------------- description

  /** `born` counts the instances made so far. */
  predicate Reaches(nd: Node, born: nat, to: Id) {
    Alive(nd, to) || nd.next <= to < nd.next + born
  }

  predicate Spawns(e: Effect) {
    e.Spawn? || e.SpawnLink?
  }

  function Births(e: Effect): nat {
    if Spawns(e) then 1 else 0
  }

  /** An exit message may be sent to the dead; no other message and no link may. */
  predicate Stops(nd: Node, born: nat, e: Effect) {
    || (e.SendTo? && e.must && !e.msg.Exit? && !Reaches(nd, born, e.to))
    || (e.LinkTo? && e.must && !Reaches(nd, born, e.to))
  }

  /** What one effect of `a` adds to the mailbox of `b`; a new instance gets its parent's link, if any, and
      a wake-up. */
  function Sends(nd: Node, born: nat, a: Id, e: Effect, b: Id): seq<Env> {
    match e
    case SendTo(to, msg, via, _) => if to == b && Reaches(nd, born, b) then [Env(a, msg, via)] else []
    case LinkTo(to, _) => if to == b && Reaches(nd, born, b) then [Env(a, Link, AtLink)] else []
    case Spawn => if b == nd.next + born then [Env(NOBODY, Null, Direct)] else []
    case SpawnLink => if b == nd.next + born then [Env(a, Link, AtLink), Env(NOBODY, Null, Direct)] else []
    case _ => []
  }

  /** Whom one effect adds to the link list of `a`. */
  function Links(nd: Node, born: nat, e: Effect): seq<Id> {
    match e
    case LinkTo(to, _) => if Reaches(nd, born, to) then [to] else []
    case SpawnLink => [nd.next + born]
    case _ => []
  }

  /** The effects that are carried out: those before the first that stops the callback. */
  function Done(nd: Node, born: nat, es: seq<Effect>): nat
    decreases |es|
  {
    if es == [] || Stops(nd, born, es[0]) then 0 else 1 + Done(nd, born + Births(es[0]), es[1..])
  }

  function Born(nd: Node, born: nat, es: seq<Effect>): nat
    decreases |es|
  {
    if es == [] || Stops(nd, born, es[0]) then born else Born(nd, born + Births(es[0]), es[1..])
  }

  function SentTo(nd: Node, born: nat, a: Id, es: seq<Effect>, b: Id): seq<Env>
    decreases |es|
  {
    if es == [] || Stops(nd, born, es[0]) then []
    else Sends(nd, born, a, es[0], b) + SentTo(nd, born + Births(es[0]), a, es[1..], b)
  }

  /** The newest link comes first. */
  function NewLinks(nd: Node, born: nat, es: seq<Effect>): seq<Id>
    decreases |es|
  {
    if es == [] || Stops(nd, born, es[0]) then []
    else NewLinks(nd, born + Births(es[0]), es[1..]) + Links(nd, born, es[0])
  }

  predicate Listens(nd: Node, born: nat, es: seq<Effect>)
    decreases |es|
  {
    es != [] && !Stops(nd, born, es[0]) && (es[0].Receive? || Listens(nd, born + Births(es[0]), es[1..]))
  }

  /** The mode that the last effect of its kind leaves. */
  function Trap(nd: Node, born: nat, es: seq<Effect>, was: bool): bool
    decreases |es|
  {
    if es == [] || Stops(nd, born, es[0]) then was
    else Trap(nd, born + Births(es[0]), es[1..], if es[0].SetTrap? then es[0].on else was)
  }

  function Observe(nd: Node, born: nat, es: seq<Effect>, was: bool): bool
    decreases |es|
  {
    if es == [] || Stops(nd, born, es[0]) then was
    else Observe(nd, born + Births(es[0]), es[1..], if es[0].SetObserve? then es[0].on else was)
  }

  // ---------------------------------------------------------------- one effect

  function Box(nd: Node, b: Id): seq<Env> {
    if b in nd.actors then nd.actors[b].mailbox else []
  }

  /** nd came of nd0 by effects that made `born` instances. */
  ghost predicate Since(nd0: Node, born: nat, nd: Node) {
    nd.next == nd0.next + born && forall b :: Alive(nd, b) <==> Reaches(nd0, born, b)
  }

  /** A live instance, in a node whose next id is free. */
  predicate Fit(nd: Node, a: Id) {
    a != NOBODY && Alive(nd, a) && forall c :: c in nd.actors ==> c < nd.next
  }

  lemma EffectStops(nd0: Node, born: nat, nd: Node, a: Id, e: Effect)
    requires Since(nd0, born, nd) && a in nd.actors
    ensures ApplyEffect(nd, a, e).1 == Stops(nd0, born, e)
    ensures Stops(nd0, born, e) ==> ApplyEffect(nd, a, e).0 == nd
  {
    if e.SendTo? || e.LinkTo? {
      assert Alive(nd, e.to) <==> Reaches(nd0, born, e.to);
    }
  }

  lemma EffectSince(nd0: Node, born: nat, nd: Node, a: Id, e: Effect)
    requires Since(nd0, born, nd) && Fit(nd, a)
    ensures Since(nd0, born + Births(e), ApplyEffect(nd, a, e).0)
  {
    var nd' := ApplyEffect(nd, a, e).0;
    assert nd.next !in nd.actors;
    forall b ensures Alive(nd', b) <==> Reaches(nd0, born + Births(e), b) {
      assert Alive(nd, b) <==> Reaches(nd0, born, b);
      assert Alive(nd', b) <==> Alive(nd, b) || (Spawns(e) && b == nd.next);
    }
  }

  /** The first effect, then the rest. */
  lemma First(nd: Node, a: Id, es: seq<Effect>)
    requires Fit(nd, a) && es != []
    ensures var (nd1, failed) := ApplyEffect(nd, a, es[0]);
            && (failed ==> ApplyEffects(nd, a, es) == (nd1, true))
            && (!failed ==> Fit(nd1, a) && ApplyEffects(nd, a, es) == ApplyEffects(nd1, a, es[1..]))
  {
    EffectFits(nd, a, es[0]);
  }

  lemma EffectFits(nd: Node, a: Id, e: Effect)
    requires Fit(nd, a)
    ensures Fit(ApplyEffect(nd, a, e).0, a)
  {
  }

  lemma EffectSends(nd0: Node, born: nat, nd: Node, a: Id, e: Effect, b: Id)
    requires Since(nd0, born, nd) && Fit(nd, a)
    ensures Box(ApplyEffect(nd, a, e).0, b) == Box(nd, b) + Sends(nd0, born, a, e, b)
  {
    assert nd.next !in nd.actors;
    assert Alive(nd, b) <==> Reaches(nd0, born, b);
    if Spawns(e) && b == nd.next {
      assert Box(nd, b) == [];
      assert [] + Fresh(NOBODY).mailbox == [Env(NOBODY, Null, Direct)];
    }
  }

  lemma EffectModes(nd0: Node, born: nat, nd: Node, a: Id, e: Effect)
    requires Since(nd0, born, nd) && Fit(nd, a)
    ensures var x, y := nd.actors[a], ApplyEffect(nd, a, e).0.actors[a];
            && y.links == Links(nd0, born, e) + x.links
            && y.trap == (if e.SetTrap? then e.on else x.trap)
            && y.observe == (if e.SetObserve? then e.on else x.observe)
            && y.receiver == (x.receiver || e.Receive?)
  {
    assert nd.next !in nd.actors;
    assert e.LinkTo? ==> (Alive(nd, e.to) <==> Reaches(nd0, born, e.to));
  }

  // ---------------------------------------------------------------- all effects

  lemma Associative<T>(s: seq<T>, t: seq<T>, u: seq<T>)
    ensures (s + t) + u == s + (t + u)
  {
  }

  lemma {:induction false} EffectsDone(nd0: Node, born: nat, nd: Node, a: Id, es: seq<Effect>)
    requires Since(nd0, born, nd) && Fit(nd, a)
    ensures var (nd', failed) := ApplyEffects(nd, a, es);
            failed == (Done(nd0, born, es) < |es|) && nd'.next == nd0.next + Born(nd0, born, es)
    decreases |es|
  {
    if es != [] {
      First(nd, a, es);
      EffectStops(nd0, born, nd, a, es[0]);
      if !Stops(nd0, born, es[0]) {
        EffectSince(nd0, born, nd, a, es[0]);
        EffectsDone(nd0, born + Births(es[0]), ApplyEffect(nd, a, es[0]).0, a, es[1..]);
      }
    }
  }

  lemma {:induction false} EffectsSent(nd0: Node, born: nat, nd: Node, a: Id, es: seq<Effect>, b: Id)
    requires Since(nd0, born, nd) && Fit(nd, a)
    ensures Box(ApplyEffects(nd, a, es).0, b) == Box(nd, b) + SentTo(nd0, born, a, es, b)
    decreases |es|
  {
    if es != [] {
      First(nd, a, es);
      EffectStops(nd0, born, nd, a, es[0]);
      if !Stops(nd0, born, es[0]) {
        EffectSince(nd0, born, nd, a, es[0]);
        EffectSends(nd0, born, nd, a, es[0], b);
        EffectsSent(nd0, born + Births(es[0]), ApplyEffect(nd, a, es[0]).0, a, es[1..], b);
        Associative(Box(nd, b), Sends(nd0, born, a, es[0], b), SentTo(nd0, born + Births(es[0]), a, es[1..], b));
      }
    }
  }

  lemma {:induction false} EffectsLinks(nd0: Node, born: nat, nd: Node, a: Id, es: seq<Effect>)
    requires Since(nd0, born, nd) && Fit(nd, a)
    ensures ApplyEffects(nd, a, es).0.actors[a].links == NewLinks(nd0, born, es) + nd.actors[a].links
    decreases |es|
  {
    if es != [] {
      First(nd, a, es);
      EffectStops(nd0, born, nd, a, es[0]);
      if !Stops(nd0, born, es[0]) {
        EffectSince(nd0, born, nd, a, es[0]);
        EffectModes(nd0, born, nd, a, es[0]);
        EffectsLinks(nd0, born + Births(es[0]), ApplyEffect(nd, a, es[0]).0, a, es[1..]);
        Associative(NewLinks(nd0, born + Births(es[0]), es[1..]), Links(nd0, born, es[0]), nd.actors[a].links);
      }
    }
  }

  lemma {:induction false} EffectsModes(nd0: Node, born: nat, nd: Node, a: Id, es: seq<Effect>)
    requires Since(nd0, born, nd) && Fit(nd, a)
    ensures var x, y := nd.actors[a], ApplyEffects(nd, a, es).0.actors[a];
            && y.trap == Trap(nd0, born, es, x.trap) && y.observe == Observe(nd0, born, es, x.observe)
            && y.receiver == (x.receiver || Listens(nd0, born, es))
    decreases |es|
  {
    if es != [] {
      First(nd, a, es);
      EffectStops(nd0, born, nd, a, es[0]);
      if !Stops(nd0, born, es[0]) {
        EffectSince(nd0, born, nd, a, es[0]);
        EffectModes(nd0, born, nd, a, es[0]);
        EffectsModes(nd0, born + Births(es[0]), ApplyEffect(nd, a, es[0]).0, a, es[1..]);
      }
    }
  }

  lemma {:induction false} EffectsAlive(nd0: Node, born: nat, nd: Node, a: Id, es: seq<Effect>, b: Id)
    requires Since(nd0, born, nd) && Fit(nd, a)
    ensures Alive(ApplyEffects(nd, a, es).0, b) <==> Reaches(nd0, Born(nd0, born, es), b)
    decreases |es|
  {
    if es != [] {
      First(nd, a, es);
      EffectStops(nd0, born, nd, a, es[0]);
      if !Stops(nd0, born, es[0]) {
        EffectSince(nd0, born, nd, a, es[0]);
        EffectsAlive(nd0, born + Births(es[0]), ApplyEffect(nd, a, es[0]).0, a, es[1..], b);
      }
    }
  }

  /** Nobody but the running instance exits. */
  lemma OthersLive(nd: Node, a: Id, r: Reason, b: Id)
    requires a in nd.actors && b != a && Alive(nd, b)
    ensures Alive(HandleExit(nd, a, r), b)
  {
    NotifySpares(MarkExit(nd, a, r), nd.actors[a].links, ExitEnv(a, r), b);
  }

  lemma {:induction false} NotifySpares(nd: Node, hs: seq<Id>, env: Env, b: Id)
    requires Alive(nd, b)
    ensures Alive(NotifyAll(nd, hs, env), b)
    decreases |hs|
  {
    if hs != [] {
      NotifySpares(Queue(nd, hs[0], env), hs[1..], env, b);
    }
  }

  /** What is done about the result of a callback. */
  function Conclude(nd: Node, failed: bool, a: Id, result: Result): Node
    requires a in nd.actors
  {
    if failed then HandleExit(nd, a, DEAD_SEND)
    else if result.Err? then HandleExit(nd, a, result.reason)
    else if !nd.actors[a].receiver then HandleExit(nd, a, Short(NoReceive))
    else nd
  }

  lemma InvokeConcludes(nd: Node, a: Id, cb: Callback)
    requires a in nd.actors
    ensures var (nd1, failed) := ApplyEffects(nd, a, cb.effects); Invoke(nd, a, cb) == Conclude(nd1, failed, a, cb.result)
  {
  }

  lemma ConcludeSpares(nd: Node, failed: bool, a: Id, result: Result, b: Id)
    requires a in nd.actors && b != a && Alive(nd, b)
    ensures Alive(Conclude(nd, failed, a, result), b)
  {
    if failed {
      OthersLive(nd, a, DEAD_SEND, b);
    } else if result.Err? {
      OthersLive(nd, a, result.reason, b);
    } else {
      OthersLive(nd, a, Short(NoReceive), b);
    }
  }

  lemma InvokeSpares(nd: Node, a: Id, cb: Callback, b: Id)
    requires a in nd.actors && b != a && Alive(ApplyEffects(nd, a, cb.effects).0, b)
    ensures Alive(Invoke(nd, a, cb), b)
  {
    InvokeConcludes(nd, a, cb);
    var (nd1, failed) := ApplyEffects(nd, a, cb.effects);
    ConcludeSpares(nd1, failed, a, cb.result, b);
  }

  // ---------------------------------------------------------------- the receiver's run

  /** Why an instance exits in a run of its receiver, if it does: a send or a link that had to succeed did
      not; or its result says so; or it has no receiver, as after a first run without `receive`. */
  function ExitOf(nd: Node, a: Id, cb: Callback): seq<Reason>
    requires a in nd.actors
  {
    if Done(nd, 0, cb.effects) < |cb.effects| then [Long(DeadSend, 0)]
    else if cb.result.Err? then [cb.result.reason]
    else if !(nd.actors[a].started && nd.actors[a].receiver) && !Listens(nd, 0, cb.effects) then [Short(NoReceive)]
    else []
  }

  lemma EnteredSince(nd: Node, a: Id)
    requires Inv(nd) && CanRun(nd, a) && OutcomeOf(nd.actors[a], nd.actors[a].mailbox[0]).Received?
    ensures Since(nd, 0, Take(nd, a)) && Running(Take(nd, a), a)
  {
    TakeKeeps(nd, a);
    TakenSound(nd.actors[a], nd.next);
  }

  /** In every state that the invariant allows, a run of a's receiver makes it exit exactly if and for
      the reason that the description says. */
  lemma ReceiverExits(nd: Node, a: Id, cb: Callback)
    requires Inv(nd) && CanRun(nd, a) && OutcomeOf(nd.actors[a], nd.actors[a].mailbox[0]).Received?
    ensures var x, nd' := ExitOf(nd, a, cb), Run(nd, a, cb);
            && a in nd'.actors && (nd'.actors[a].exits == [] <==> x == [])
            && (x != [] ==> nd'.actors[a].exits == [ExitRecord(x[0], NewLinks(nd, 0, cb.effects) + Take(nd, a).actors[a].links)])
  {
    var nd1, es := Take(nd, a), cb.effects;
    EnteredSince(nd, a);
    assert Fit(nd1, a);
    EffectsDone(nd, 0, nd1, a, es);
    EffectsModes(nd, 0, nd1, a, es);
    EffectsLinks(nd, 0, nd1, a, es);
    ApplyEffectsKeeps(nd1, a, es);
    Concludes(nd1, a, cb, ExitOf(nd, a, cb));
  }

  lemma Concludes(nd: Node, a: Id, cb: Callback, x: seq<Reason>)
    requires a in nd.actors && Running(ApplyEffects(nd, a, cb.effects).0, a)
    requires var (nd2, failed) := ApplyEffects(nd, a, cb.effects);
             x == if failed then [DEAD_SEND] else if cb.result.Err? then [cb.result.reason]
                  else if !nd2.actors[a].receiver then [Short(NoReceive)] else []
    ensures var nd2, nd' := ApplyEffects(nd, a, cb.effects).0, Invoke(nd, a, cb);
            && a in nd'.actors && (nd'.actors[a].exits == [] <==> x == [])
            && (x != [] ==> nd'.actors[a].exits == [ExitRecord(x[0], nd2.actors[a].links)])
  {
    var nd2 := ApplyEffects(nd, a, cb.effects).0;
    assert Sound(nd2.actors[a]);
    if x != [] {
      ExitOnce(nd2, a, x[0]);
    }
  }

  lemma ExitOnce(nd: Node, a: Id, r: Reason)
    requires Running(nd, a)
    ensures a in HandleExit(nd, a, r).actors && HandleExit(nd, a, r).actors[a].exits == [ExitRecord(r, nd.actors[a].links)]
  {
    assert SettledBut(nd, a);
    HandleExitKeeps(nd, a, r);
    assert Sound(HandleExit(nd, a, r).actors[a]);
  }

  /** A run in which a does not exit adds to every mailbox, and to a's own links and modes, exactly what
      the description says; new instances are among those that get mail. */
  lemma ReceiverActs(nd: Node, a: Id, cb: Callback, b: Id)
    requires Inv(nd) && CanRun(nd, a) && OutcomeOf(nd.actors[a], nd.actors[a].mailbox[0]).Received?
    requires ExitOf(nd, a, cb) == []
    ensures var nd1, nd', es := Take(nd, a), Run(nd, a, cb), cb.effects;
            && nd'.next == nd.next + Born(nd, 0, es)
            && Box(nd', b) == Box(nd1, b) + SentTo(nd, 0, a, es, b)
            && a in nd'.actors && nd'.actors[a].links == NewLinks(nd, 0, es) + nd1.actors[a].links
            && nd'.actors[a].trap == Trap(nd, 0, es, nd.actors[a].trap)
            && nd'.actors[a].observe == Observe(nd, 0, es, nd.actors[a].observe)
  {
    var nd1, es := Take(nd, a), cb.effects;
    EnteredSince(nd, a);
    assert Fit(nd1, a);
    EffectsDone(nd, 0, nd1, a, es);
    EffectsSent(nd, 0, nd1, a, es, b);
    EffectsModes(nd, 0, nd1, a, es);
    EffectsLinks(nd, 0, nd1, a, es);
    assert nd1.actors[a].receiver == (nd.actors[a].started && nd.actors[a].receiver);
  }

  /** An exit message, other than the normal one, ends an instance that does not trap with exactly its
      own reason, without a call of the receiver, and passes that reason on to its links. */
  lemma ExitObeyed(nd: Node, a: Id, cb: Callback, b: Id)
    requires Inv(nd) && Alive(nd, a) && CanRun(nd, a) && !nd.actors[a].trap
    requires var m := nd.actors[a].mailbox[0].msg; m.Exit? && m.reason != Short(Normal)
    ensures var nd', r := Run(nd, a, cb), nd.actors[a].mailbox[0].msg.reason;
            && a in nd'.actors && nd'.actors[a].exits == [ExitRecord(r, nd.actors[a].links)] && nd'.actors[a].calls == nd.actors[a].calls
            && (b in nd.actors[a].links ==> Settled(nd', a, r, b))
  {
    var nd1, r := Take(nd, a), nd.actors[a].mailbox[0].msg.reason;
    TakeKeeps(nd, a);
    TakenSound(nd.actors[a], nd.next);
    HandleExitKeeps(nd1, a, r);
    var nd' := HandleExit(nd1, a, r);
    assert Sound(nd'.actors[a]) && NOBODY !in nd'.actors;
    ExitCalls(MarkExit(nd1, a, r), nd1.actors[a].links, ExitEnv(a, r), a);
  }

  lemma {:induction false} ExitCalls(nd: Node, hs: seq<Id>, env: Env, a: Id)
    requires a in nd.actors
    ensures a in NotifyAll(nd, hs, env).actors && NotifyAll(nd, hs, env).actors[a].calls == nd.actors[a].calls
    decreases |hs|
  {
    if hs != [] {
      ExitCalls(Queue(nd, hs[0], env), hs[1..], env, a);
    }
  }
}
