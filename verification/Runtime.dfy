/**
 The runtime in the form of src/instance.cpp: instances are updated in place, exits are sent in
 a loop over the link list, and a callback's effects are carried out one after the other.  Every
 method is proved to be the transition of the state machine, and to keep its invariant.
 */
module Runtime {
  import opened Actors
  import opened Lifecycle
  import opened Runs

  lemma {:induction false} NotifySplits(nd: Node, hs: seq<Id>, i: nat, env: Env)
    requires i < |hs|
    ensures NotifyAll(nd, hs[..i + 1], env) == Queue(NotifyAll(nd, hs[..i], env), hs[i], env)
    decreases i
  {
    if i == 0 {
      assert hs[..1] == [hs[0]] && hs[..0] == [];
      assert [hs[0]][1..] == [];
      assert NotifyAll(Queue(nd, hs[0], env), [], env) == Queue(nd, hs[0], env);
    } else {
      assert hs[..i + 1][1..] == hs[1..][..i] && hs[..i][1..] == hs[1..][..i - 1];
      NotifySplits(Queue(nd, hs[0], env), hs[1..], i - 1, env);
    }
  }

  lemma {:induction false} EffectsSplit(nd: Node, a: Id, es: seq<Effect>, i: nat)
    requires a in nd.actors && i < |es|
    ensures var (nd1, failed) := ApplyEffects(nd, a, es[..i]);
            ApplyEffects(nd, a, es[..i + 1]) == if failed then (nd1, true) else ApplyEffect(nd1, a, es[i])
    decreases i
  {
    if i == 0 {
      assert es[..1] == [es[0]] && es[..0] == [];
      assert [es[0]][1..] == [];
      var nd1 := ApplyEffect(nd, a, es[0]).0;
      assert ApplyEffects(nd1, a, []) == (nd1, false);
    } else {
      assert es[..i + 1][1..] == es[1..][..i] && es[..i][1..] == es[1..][..i - 1];
      var (nd1, failed) := ApplyEffect(nd, a, es[0]);
      if !failed {
        EffectsSplit(nd1, a, es[1..], i - 1);
      }
    }
  }

  lemma {:induction false} FailureStays(nd: Node, a: Id, es: seq<Effect>, i: nat)
    requires a in nd.actors && i <= |es| && ApplyEffects(nd, a, es[..i]).1
    ensures ApplyEffects(nd, a, es) == ApplyEffects(nd, a, es[..i])
    decreases |es| - i
  {
    if i == |es| {
      assert es[..i] == es;
    } else {
      EffectsSplit(nd, a, es, i);
      FailureStays(nd, a, es, i + 1);
    }
  }

  class Instances {
    var actors: map<Id, Actor>
    var next: Id

    function State(): Node
      reads this
    {
      Node(actors, next)
    }

    constructor ()
      ensures State() == EMPTY && Inv(State())
    {
      actors, next := map[], 1;
      new;
      EmptyInv();
    }

    /** instance::queue and handle::send_raw: whether the envelope was accepted. */
    method Send(to: Id, env: Env) returns (ok: bool)
      modifies this
      ensures State() == Queue(old(State()), to, env)
      ensures ok <==> !SendFails(old(State()), to, env.msg)
    {
      ok := env.msg.Exit?;
      if to in actors && actors[to].status.Live? {
        var t := actors[to];
        actors := actors[to := t.(mailbox := t.mailbox + [env], accepted := t.accepted + [env])];
        ok := true;
      }
    }

    /** instance::handle_exit: set in_shutdown, tell every link, drop the receiver. */
    method Exit(a: Id, r: Reason)
      requires a in actors
      modifies this
      ensures State() == HandleExit(old(State()), a, r)
      ensures Core(old(State())) && SettledBut(old(State()), a) && old(Alive(State(), a) && actors[a].started) ==>
                Inv(State()) && !Alive(State(), a)
    {
      ghost var nd := State();
      var x := actors[a];
      actors := actors[a := x.(status := Dying, receiver := false, exits := x.exits + [ExitRecord(r, x.links)])];
      ghost var nd1 := State();
      var i := 0;
      assert x.links[..0] == [];
      while i < |x.links|
        invariant i <= |x.links|
        invariant State() == NotifyAll(nd1, x.links[..i], ExitEnv(a, r))
      {
        NotifySplits(nd1, x.links, i, ExitEnv(a, r));
        var _ := Send(x.links[i], ExitEnv(a, r));
        i := i + 1;
      }
      assert x.links[..i] == x.links;
      if Core(nd) && SettledBut(nd, a) && Alive(nd, a) && nd.actors[a].started {
        HandleExitKeeps(nd, a, r);
      }
    }

    /** instance::spawn: the link message, if any, is queued before the wake-up. */
    method Spawn(parent: Id) returns (child: Id)
      modifies this
      ensures State() == SpawnOne(old(State()), parent) && child == old(next)
    {
      child := next;
      actors := actors[child := Actor(Live, false, false, false, true, [], [], [], [], 0, [], parent)];
      next := next + 1;
      if parent != NOBODY {
        var _ := Send(child, Env(parent, Msg.Link, AtLink));
      }
      var _ := Send(child, Env(NOBODY, Null, Direct));
      assert actors[child].mailbox == Fresh(parent).mailbox;
      assert actors == old(actors)[child := Fresh(parent)];
    }

    /** What one call in a callback does; `failed` if a send written with `try` found its target dead. */
    method Perform(a: Id, e: Effect) returns (failed: bool)
      requires a in actors
      modifies this
      ensures (State(), failed) == ApplyEffect(old(State()), a, e) && a in actors
    {
      failed := false;
      match e {
        case SendTo(to, msg, via, must) =>
          var ok := Send(to, Env(a, msg, via));
          failed := must && !ok;
        case LinkTo(to, must) =>
          var ok := Send(to, Env(a, Msg.Link, AtLink));
          if ok {
            actors := actors[a := actors[a].(links := [to] + actors[a].links)];
          } else {
            failed := must;
          }
        case Spawn =>
          var _ := Spawn(NOBODY);
        case SpawnLink =>
          var child := Spawn(a);
          actors := actors[a := actors[a].(links := [child] + actors[a].links)];
        case SetTrap(on) => actors := actors[a := actors[a].(trap := on)];
        case SetObserve(on) => actors := actors[a := actors[a].(observe := on)];
        case Receive => actors := actors[a := actors[a].(receiver := true)];
      }
    }

    /** The receiver's body and what is done about its result. */
    method Call(a: Id, cb: Callback)
      requires a in actors
      modifies this
      ensures State() == Invoke(old(State()), a, cb)
    {
      ghost var nd := State();
      var i, failed := 0, false;
      assert cb.effects[..0] == [];
      while i < |cb.effects| && !failed
        invariant i <= |cb.effects| && a in actors
        invariant ApplyEffects(nd, a, cb.effects[..i]) == (State(), failed)
      {
        EffectsSplit(nd, a, cb.effects, i);
        failed := Perform(a, cb.effects[i]);
        i := i + 1;
      }
      if failed {
        FailureStays(nd, a, cb.effects, i);
        Exit(a, DEAD_SEND);
      } else {
        assert cb.effects[..i] == cb.effects;
        if cb.result.Err? {
          Exit(a, cb.result.reason);
        } else if !actors[a].receiver {
          Exit(a, Short(NoReceive));
        }
      }
    }

    /** instance::run on the first envelope of a's strand. */
    method Run(a: Id, cb: Callback)
      requires CanRun(State(), a)
      modifies this
      ensures State() == Actors.Run(old(State()), a, cb)
      ensures Inv(old(State())) ==> Inv(State())
    {
      ghost var nd := State();
      var x := actors[a];
      var env := x.mailbox[0];
      var outcome := OutcomeOf(x, env);
      x := x.(mailbox := x.mailbox[1..], handled := x.handled + [Handled(env, outcome)]);
      if env.msg.Link? {
        x := x.(links := [env.from] + x.links);
      }
      actors := actors[a := x];
      if outcome.Obeyed? {
        assert State() == Take(nd, a);
        Exit(a, env.msg.reason);
      } else if outcome.Received? {
        actors := actors[a := Entered(x)];
        assert State() == Take(nd, a);
        Call(a, cb);
      }
      if Inv(nd) {
        RunKeeps(nd, a, cb);
      }
    }

    /** ~instance, once nothing more is queued for it. */
    method Destroy(a: Id)
      modifies this
      ensures State() == Step(old(State()), Event.Destroy(a))
      ensures Inv(old(State())) ==> Inv(State())
    {
      if Inv(State()) {
        DestroyKeeps(State(), a);
      }
      if a in actors && actors[a].status.Dying? && actors[a].mailbox == [] {
        actors := actors[a := actors[a].(status := Gone)];
      }
    }
  }
}
