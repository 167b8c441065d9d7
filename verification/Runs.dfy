/**
 Results over every run of the actor runtime, from the empty node and any sequence of events.
 */
module Runs {
  import opened Actors
  import opened Lifecycle
  import opened Mail

  lemma EmptyInv()
    ensures Inv(EMPTY)
  {
  }

  /** If `a` exited, every instance in its link list at that moment is in shutdown, or still has
      the notice queued, or handled it while trapping, or it was the normal exit. */
  lemma ExitPropagates(evs: seq<Event>, a: Id, b: Id)
    requires var nd := Exec(EMPTY, evs); Exited(nd, a) && b in nd.actors[a].exits[0].links
    ensures var nd := Exec(EMPTY, evs); Settled(nd, a, nd.actors[a].exits[0].reason, b)
  {
    EmptyInv();
    ExecKeeps(EMPTY, evs);
    assert NOBODY !in Exec(EMPTY, evs).actors;
  }

  // ---------------------------------------------------------------- notices are genuine

  /** An exit notice stands for the exit of its sender, with exactly that reason. */
  predicate Genuine(nd: Node, e: Env) {
    e.via.AtExit? ==> e.msg.Exit? && Exited(nd, e.from) && nd.actors[e.from].exits[0].reason == e.msg.reason
  }

  ghost predicate AllGenuine(nd: Node) {
    forall b, e :: b in nd.actors && e in nd.actors[b].accepted ==> Genuine(nd, e)
  }

  lemma StaysGenuine(nd: Node, ev: Event, e: Env)
    requires Inv(nd) && Genuine(nd, e)
    ensures Genuine(Step(nd, ev), e)
  {
    if e.via.AtExit? {
      StepAfterExit(nd, ev, e.from);
    }
  }

  /** What a step adds, it adds somewhere to what was accepted. */
  lemma StepGenuine(nd: Node, nd1: Node, nd': Node, ev: Event, a: Id)
    requires Inv(nd) && AllGenuine(nd) && nd' == Step(nd, ev)
    requires nd1.actors.Keys == nd.actors.Keys && forall b :: b in nd.actors ==> nd1.actors[b].accepted == nd.actors[b].accepted
    requires Adds(nd1, nd', a, GenuineIn(nd'))
    ensures AllGenuine(nd')
  {
    forall b, e | b in nd'.actors && e in nd'.actors[b].accepted ensures Genuine(nd', e) {
      if b in nd.actors {
        assert AddsAt(nd1.actors[b], nd'.actors[b]);
        if e in nd.actors[b].accepted {
          StaysGenuine(nd, ev, e);
        } else {
          assert e in New(nd1.actors[b], nd'.actors[b]);
        }
      }
    }
  }

  function GenuineIn(nd: Node): Kind {
    (e: Env) => Genuine(nd, e)
  }

  lemma RunGenuine(nd: Node, a: Id, cb: Callback)
    requires Inv(nd) && CanRun(nd, a) && AllGenuine(nd)
    ensures AllGenuine(Run(nd, a, cb))
  {
    RunAdds(nd, a, cb, GenuineIn(Run(nd, a, cb)));
    StepGenuine(nd, Take(nd, a), Run(nd, a, cb), RunOne(a, cb), a);
  }

  lemma OutsideGenuine(nd: Node, ev: Event)
    requires Inv(nd) && AllGenuine(nd) && (ev.Outside? || ev.OutsideSpawn?)
    ensures AllGenuine(Step(nd, ev))
  {
    var nd' := Step(nd, ev);
    if ev.Outside? {
      QueueAdds(nd, ev.to, Env(NOBODY, ev.msg, Direct), NOBODY, GenuineIn(nd'));
    } else {
      SpawnAdds(nd, NOBODY, NOBODY, GenuineIn(nd'));
    }
    StepGenuine(nd, nd, nd', ev, NOBODY);
  }

  lemma DestroyGenuine(nd: Node, a: Id)
    requires Inv(nd) && AllGenuine(nd)
    ensures AllGenuine(Step(nd, Destroy(a)))
  {
    var nd' := Step(nd, Destroy(a));
    SameAdds(nd', nd', a, GenuineIn(nd'));
    StepGenuine(nd, nd', nd', Destroy(a), a);
  }

  lemma NextGenuine(nd: Node, ev: Event)
    requires Inv(nd) && AllGenuine(nd)
    ensures AllGenuine(Step(nd, ev))
  {
    match ev {
      case RunOne(a, cb) => if CanRun(nd, a) { RunGenuine(nd, a, cb); }
      case Destroy(a) => DestroyGenuine(nd, a);
      case _ => OutsideGenuine(nd, ev);
    }
  }

  lemma {:induction false} ExecGenuine(nd: Node, evs: seq<Event>)
    requires Inv(nd) && AllGenuine(nd)
    ensures AllGenuine(Exec(nd, evs))
    decreases |evs|
  {
    if evs != [] {
      NextGenuine(nd, evs[0]);
      StepKeeps(nd, evs[0]);
      ExecGenuine(Step(nd, evs[0]), evs[1..]);
    }
  }

  /** In every run, an exit notice that anyone has accepted is the one its sender made when it exited,
      so the notices of ExitPropagates cannot be confused with messages that look like them. */
  lemma NoticesAreGenuine(evs: seq<Event>, b: Id, e: Env)
    requires b in Exec(EMPTY, evs).actors && e in Exec(EMPTY, evs).actors[b].accepted && e.via.AtExit?
    ensures var nd := Exec(EMPTY, evs);
            Exited(nd, e.from) && e == ExitEnv(e.from, nd.actors[e.from].exits[0].reason)
  {
    EmptyInv();
    ExecGenuine(EMPTY, evs);
    assert Genuine(Exec(EMPTY, evs), e);
  }

  // ---------------------------------------------------------------- exits

  /** Shutdown happens at most once, and envelopes are handled in acceptance order. */
  lemma ExitsAtMostOnce(evs: seq<Event>, a: Id)
    requires a in Exec(EMPTY, evs).actors
    ensures var x := Exec(EMPTY, evs).actors[a];
            |x.exits| <= 1 && (x.status.Live? <==> x.exits == []) && InOrder(x)
  {
    EmptyInv();
    ExecKeeps(EMPTY, evs);
    assert Sound(Exec(EMPTY, evs).actors[a]);
  }

  lemma StepAfterExit(nd: Node, ev: Event, a: Id)
    requires Inv(nd) && Exited(nd, a)
    ensures var nd' := Step(nd, ev);
            a in nd'.actors && nd'.actors[a].calls == nd.actors[a].calls && nd'.actors[a].exits == nd.actors[a].exits
  {
    assert Sound(nd.actors[a]);
    match ev {
      case RunOne(c, cb) =>
        if CanRun(nd, c) && c != a {
          RunAdds(nd, c, cb, e => true);
          assert OnlyMail(Take(nd, c).actors[a], Step(nd, ev).actors[a]);
        }
      case _ =>
    }
  }

  /** After shutdown the receiver is never called again and no second exit is recorded. */
  lemma {:induction false} SilentAfterExit(nd: Node, evs: seq<Event>, a: Id)
    requires Inv(nd) && Exited(nd, a)
    ensures var nd' := Exec(nd, evs);
            a in nd'.actors && nd'.actors[a].calls == nd.actors[a].calls && nd'.actors[a].exits == nd.actors[a].exits
    decreases |evs|
  {
    if evs != [] {
      StepAfterExit(nd, evs[0], a);
      StepKeeps(nd, evs[0]);
      SilentAfterExit(Step(nd, evs[0]), evs[1..], a);
    }
  }

  /** A normal exit notice never shuts down an instance that does not trap: only its mailbox and
      its history change, and no other instance changes. */
  lemma NormalNoticeIsHarmless(nd: Node, a: Id, cb: Callback)
    requires Inv(nd) && Alive(nd, a) && CanRun(nd, a)
    requires nd.actors[a].mailbox[0].msg == Exit(Short(Normal)) && !nd.actors[a].trap
    ensures var nd' := Run(nd, a, cb);
            && Alive(nd', a) && nd'.actors.Keys == nd.actors.Keys
            && nd'.actors[a].calls == nd.actors[a].calls && nd'.actors[a].links == nd.actors[a].links
            && nd'.actors[a].mailbox == nd.actors[a].mailbox[1..]
            && forall b :: b in nd.actors && b != a ==> nd'.actors[b] == nd.actors[b]
  {
    assert nd.actors[a].mailbox[0].msg.reason == Short(Normal);
  }

  /** A spawn_linked child has its parent in its link list before its behaviour first runs, so
      every exit of the child, even for want of a receiver on the first run, is settled at the parent. */
  lemma ChildTellsParent(evs: seq<Event>, child: Id)
    requires child in Exec(EMPTY, evs).actors && Exec(EMPTY, evs).actors[child].parent != NOBODY
    ensures var nd := Exec(EMPTY, evs); var x := nd.actors[child];
            && (x.calls > 0 ==> x.parent in x.links)
            && (Exited(nd, child) ==> x.parent in x.exits[0].links && Settled(nd, child, x.exits[0].reason, x.parent))
  {
    EmptyInv();
    ExecKeeps(EMPTY, evs);
    assert Sound(Exec(EMPTY, evs).actors[child]);
    if Exited(Exec(EMPTY, evs), child) {
      ExitPropagates(evs, child, Exec(EMPTY, evs).actors[child].parent);
    }
  }
}
