/**
 The endpoint in the form of src/remote/endpoint_common.zig: an object whose proxy table is
 changed in place.  Its methods are proved to be the endpoint's events of the protocol model, so
 that what is proved about runs of that model holds of this code.
 */
module EndpointObject {
  import opened Actors
  import opened Remote
  import opened RemoteInv
  import opened RemoteEndpoint
  import opened Runtime

  lemma OneEffect(nd: Node, a: Id, e: Effect)
    requires a in nd.actors
    ensures ApplyEffects(nd, a, [e]) == ApplyEffect(nd, a, e)
  {
    assert [e][1..] == [];
    var nd1 := ApplyEffect(nd, a, e).0;
    assert ApplyEffects(nd1, a, []) == (nd1, false);
  }

  lemma FirstEffect(nd: Node, a: Id, e: Effect, es: seq<Effect>)
    requires a in nd.actors && ApplyEffect(nd, a, e) == (ApplyEffect(nd, a, e).0, false)
    ensures a in ApplyEffect(nd, a, e).0.actors
    ensures ApplyEffects(nd, a, [e] + es) == ApplyEffects(ApplyEffect(nd, a, e).0, a, es)
  {
    assert ([e] + es)[0] == e && ([e] + es)[1..] == es;
  }

  lemma SpawnThen(nd: Node, a: Id, e: Effect)
    requires a in nd.actors
    ensures ApplyEffects(nd, a, [Spawn, e]) == ApplyEffect(SpawnOne(nd, NOBODY), a, e)
  {
    FirstEffect(nd, a, Spawn, [e]);
    assert [Spawn] + [e] == [Spawn, e];
    OneEffect(SpawnOne(nd, NOBODY), a, e);
  }

  /** How a call that can fail ended. */
  datatype Ended = Fine | DeadTarget | Failed(reason: Reason)

  function EndOf(failed: bool, r: Result): Ended {
    if failed then DeadTarget else if r.Err? then Failed(r.reason) else Fine
  }

  class Endpoint {
    const instances: Instances
    const self: Id
    var remoteProxies: map<Id, Id>
    var remoteOf: map<Id, Id>
    var names: map<nat, Id>
    var wire: seq<Frame>

    constructor (instances: Instances, self: Id)
      ensures this.instances == instances && this.self == self
      ensures State() == Side(instances.State(), self, map[], map[], map[], [])
    {
      this.instances, this.self := instances, self;
      remoteProxies, remoteOf, names, wire := map[], map[], map[], [];
    }

    function State(): Side
      reads this, instances
    {
      Side(instances.State(), self, remoteProxies, remoteOf, names, wire)
    }

    /** get_or_create_proxy. */
    method GetOrCreateProxy(remote: Id) returns (p: Id)
      modifies this, instances
      ensures remote in remoteProxies && p == remoteProxies[remote]
      ensures State() == if remote in old(remoteProxies) then old(State()) else WithProxy(old(State()), remote)
    {
      if remote in remoteProxies {
        p := remoteProxies[remote];
      } else {
        p := instances.Spawn(NOBODY);
        remoteProxies := remoteProxies[remote := p];
        remoteOf := remoteOf[p := remote];
      }
    }

    /** A send to a proxy that the caller cannot do without. */
    method Forward(remote: Id, m: Msg) returns (ended: Ended)
      requires self in instances.actors && self != instances.next && !m.Exit?
      modifies this, instances
      ensures var (sd, cb) := ToProxy(old(State()), remote, m);
              var (nd, failed) := ApplyEffects(old(instances.State()), self, cb.effects);
              State() == sd.(node := nd) && ended == EndOf(failed, cb.result)
      ensures self in instances.actors
    {
      ghost var sd0 := State();
      var p := GetOrCreateProxy(remote);
      var ok := instances.Send(p, Env(self, m, Direct));
      ended := if ok then Fine else DeadTarget;
      ghost var e := SendTo(p, m, Direct, true);
      if remote in sd0.table {
        OneEffect(sd0.node, self, e);
      } else {
        SpawnThen(sd0.node, self, e);
      }
    }

    /** dispatch_inbound. */
    method DispatchInbound(fr: Frame) returns (ended: Ended)
      requires self in instances.actors && self != instances.next
      modifies this, instances
      ensures var (sd, cb) := Dispatch(old(State()), fr);
              var (nd, failed) := ApplyEffects(old(instances.State()), self, cb.effects);
              State() == sd.(node := nd) && ended == EndOf(failed, cb.result)
      ensures self in instances.actors
    {
      ghost var sd0 := State();
      ended := Fine;
      match fr {
        case SendFrame(f, t, pl) =>
          ended := Forward(f, DeliverPid(t, pl));
        case NamedFrame(f, n, pl) =>
          if f != NOBODY {
            ended := Forward(f, DeliverNamed(n, pl));
          } else {
            var to := if n in names then names[n] else NOBODY;
            var ok := instances.Send(to, Env(self, AsMsg(pl), ByName));
            OneEffect(sd0.node, self, SendTo(to, AsMsg(pl), ByName, true));
            if !ok {
              ended := DeadTarget;
            }
          }
        case ExitFrame(k, t) =>
          if k in remoteProxies {
            var _ := instances.Send(remoteProxies[k], Env(self, Exit(Short(t)), Direct));
            OneEffect(sd0.node, self, SendTo(remoteProxies[k], Exit(Short(t)), Direct, false));
          }
        case LinkFrame(k, t) =>
          ended := Forward(k, SetNotify(t));
        case ErrorFrame(t) =>
          ended := Failed(Short(t));
      }
    }

    /** deinit: every proxy is told that the transport closed. */
    method Deinit()
      requires TableOk(State())
      modifies instances
      ensures !Alive(old(State()).node, self) ==> State() == Bury(old(State()))
    {
      var todo := remoteProxies.Keys;
      ghost var nd := instances.State();
      while todo != {}
        invariant todo <= remoteProxies.Keys && Parting(nd, instances.State(), Told(remoteProxies, todo))
        decreases todo
      {
        var k :| k in todo;
        PartOne(nd, instances.State(), remoteProxies, remoteOf, todo, k);
        var _ := instances.Send(remoteProxies[k], FAREWELL);
        todo := todo - {k};
      }
      if !Alive(nd, self) {
        PartedAll(old(State()), instances.State());
      }
    }

    /** What the runtime does about how a call of the endpoint ended; an endpoint that is down is
        taken apart. */
    method Conclude(ended: Ended)
      requires self in instances.actors && TableOk(State())
      modifies instances
      ensures State() == Bury(old(State()).(node := Concluded(old(instances.State()), self, ended)))
    {
      if ended == DeadTarget {
        instances.Exit(self, DEAD_SEND);
      } else if ended.Failed? {
        instances.Exit(self, ended.reason);
      } else if !instances.actors[self].receiver {
        instances.Exit(self, Short(NoReceive));
      }
      if self !in instances.actors || !instances.actors[self].status.Live? {
        Deinit();
      }
    }

    /** feed, for one complete frame: whatever goes wrong ends the endpoint. */
    method Feed(fr: Frame)
      requires self in instances.actors && self < instances.next && TableOk(State()) && instances.next !in remoteOf
      modifies this, instances
      ensures State() == ReadFrame(old(State()), fr)
    {
      ghost var sd0 := State();
      instances.actors := instances.actors[self := Entered(instances.actors[self])];
      ghost var sd1 := State();
      DispatchIgnoresCalls(sd0, sd1, fr);
      DispatchTableOk(sd1, fr);
      var ended := DispatchInbound(fr);
      InvokeConcludes(sd1.node, self, Dispatch(sd1, fr).1);
      Conclude(ended);
    }

    /** The strand hands the endpoint its first message; a link is recorded by the runtime itself. */
    method TakeMail() returns (m: Msg)
      requires CanRun(instances.State(), self)
      requires EndpointOk(instances.actors[self]) && instances.actors[self].status.Live?
      modifies instances
      ensures m == old(instances.actors[self].mailbox[0].msg) && instances.State() == Take(old(instances.State()), self)
    {
      var x := instances.actors[self];
      var env := x.mailbox[0];
      m := env.msg;
      x := x.(mailbox := x.mailbox[1..], handled := x.handled + [Handled(env, OutcomeOf(x, env))]);
      if m.Link? {
        x := x.(links := [env.from] + x.links);
      } else {
        x := Entered(x);
      }
      instances.actors := instances.actors[self := x];
    }

    /** receive: messages from proxies and users become frames; a leaving proxy is forgotten. */
    method Handle(m: Msg) returns (ended: Ended)
      modifies this
      ensures State() == old(State()).(out := old(wire) + FramesFor(m),
                                       table := if m.ProxyExit? then old(remoteProxies) - {m.remote} else old(remoteProxies))
      ensures ended == EndOf(false, EndpointCallback(m).result)
    {
      ended := Fine;
      match m {
        case Send(f, t, pl) => wire := wire + [SendFrame(f, t, pl)];
        case SendNamed(f, n, pl) => wire := wire + [NamedFrame(f, n, pl)];
        case LinkWire(f, t) => wire := wire + [LinkFrame(f, t)];
        case LocalLinkExit(f, t) => wire := wire + [ExitFrame(f, t)];
        case ProxyExit(k) => remoteProxies := remoteProxies - {k};
        case Exit(Short(_)) =>
        case _ => ended := Failed(UNEXPECTED);
      }
    }

    method Receive()
      requires CanRun(instances.State(), self) && TableOk(State())
      requires EndpointOk(instances.actors[self]) && instances.actors[self].status.Live?
      modifies this, instances
      ensures State() == RunEndpoint(old(State()))
    {
      ghost var sd0 := State();
      var m := TakeMail();
      ghost var nd1 := instances.State();
      if !m.Link? {
        var ended := Handle(m);
        RunEndpointSplits(sd0, State());
        InvokeConcludes(nd1, self, EndpointCallback(m));
        Conclude(ended);
      } else {
        RunEndpointSplits(sd0, State());
      }
    }
  }

  /** The node once the runtime has dealt with how a call ended. */
  function Concluded(nd: Node, a: Id, ended: Ended): Node
    requires a in nd.actors
  {
    if ended == DeadTarget then HandleExit(nd, a, DEAD_SEND)
    else if ended.Failed? then HandleExit(nd, a, ended.reason)
    else if !nd.actors[a].receiver then HandleExit(nd, a, Short(NoReceive))
    else nd
  }

  lemma InvokeConcludes(nd: Node, a: Id, cb: Callback)
    requires a in nd.actors
    ensures var (nd1, failed) := ApplyEffects(nd, a, cb.effects);
            Invoke(nd, a, cb) == Concluded(nd1, a, EndOf(failed, cb.result))
  {
  }

  lemma DispatchTableOk(sd: Side, fr: Frame)
    requires TableOk(sd) && sd.node.next !in sd.remoteOf
    ensures TableOk(Dispatch(sd, fr).0)
  {
  }

  function Told(table: map<Id, Id>, todo: set<Id>): set<Id> {
    set k | k in table && k !in todo :: table[k]
  }

  /** An instance once the farewell has been queued for it, if it is one of those told. */
  function Parted(nd: Node, a: Id, told: set<Id>): Actor
    requires a in nd.actors
  {
    var x := nd.actors[a];
    if a in told && x.status.Live? then x.(mailbox := x.mailbox + [FAREWELL], accepted := x.accepted + [FAREWELL]) else x
  }

  predicate Parting(nd: Node, nd1: Node, told: set<Id>) {
    nd1.next == nd.next && nd1.actors.Keys == nd.actors.Keys && forall a :: a in nd.actors ==> nd1.actors[a] == Parted(nd, a, told)
  }

  lemma PartOne(nd: Node, nd1: Node, table: map<Id, Id>, remoteOf: map<Id, Id>, todo: set<Id>, k: Id)
    requires Parting(nd, nd1, Told(table, todo)) && k in todo && k in table
    requires forall j :: j in table ==> table[j] in remoteOf && remoteOf[table[j]] == j
    ensures Parting(nd, Queue(nd1, table[k], FAREWELL), Told(table, todo - {k}))
  {
    assert table[k] !in Told(table, todo);
    assert Told(table, todo - {k}) == Told(table, todo) + {table[k]};
    var nd2 := Queue(nd1, table[k], FAREWELL);
    forall a | a in nd.actors ensures nd2.actors[a] == Parted(nd, a, Told(table, todo - {k})) {
    }
  }

  lemma PartedAll(sd: Side, nd1: Node)
    requires Parting(sd.node, nd1, Told(sd.table, {})) && !Alive(sd.node, sd.ep)
    ensures nd1 == Bury(sd).node
  {
    assert Told(sd.table, {}) == sd.table.Values;
    assert nd1.actors == Bury(sd).node.actors;
  }
}
