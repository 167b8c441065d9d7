/**
 The actor runtime of src/instance.cpp as a state machine.

 A node holds the instances of one process.  Every instance has a strand, which is a FIFO
 mailbox; one event takes one envelope off one mailbox and runs it to completion, exactly as
 `instance::run` does.  What the user's callback does is arbitrary: it is a list of effects
 (sends, links, spawns, mode changes) and a result.

 The fields `accepted`, `handled`, `calls`, `exits` and `parent` are history: no transition
 reads them.
 */
module Actors {
  type Id = nat

  const NOBODY: Id := 0

  /** Text of an exit reason.  The named ones are the constants the runtime itself uses. */
  datatype Text = Normal | NoReceive | DeadSend | TransportClosed | Other(n: nat)

  /** ["exit", text] is short; an exit message with further elements is long. */
  datatype Reason = Short(text: Text) | Long(text: Text, detail: nat)

  /** What crosses the wire inside a "send" frame: any message that a proxy does not intercept. */
  datatype Payload = Plain(n: nat) | LongExit(text: Text, detail: nat)

  datatype Msg =
    | Null                                          // the wake-up queued by `schedule`
    | Link                                          // ["link"]
    | Exit(reason: Reason)                          // ["exit", ...]
    | Data(n: nat)                                  // any other message between users
    // endpoint to proxy
    | EndpointExit(text: Text)
    | SetNotify(target: Id)
    | DeliverPid(target: Id, payload: Payload)
    | DeliverNamed(name: nat, payload: Payload)
    // proxy or user to endpoint
    | Send(from: Id, to: Id, payload: Payload)
    | SendNamed(from: Id, name: nat, payload: Payload)
    | LinkWire(from: Id, to: Id)
    | LocalLinkExit(from: Id, text: Text)
    | ProxyExit(remote: Id)

  /** Why an envelope was queued.  History only: a proxy relays by pid or by name, and the runtime
      itself sends link messages and tells the links of an instance that exits. */
  datatype Via = Direct | ByPid | ByName | AtLink | AtExit

  /** What a callback can claim: links and exit notices are the runtime's own. */
  type SendVia = v: Via | !v.AtExit? && !v.AtLink? witness Direct

  datatype Env = Env(from: Id, msg: Msg, via: Via)

  /** Dying: `in_shutdown` is set but the instance object still exists.  Gone: destroyed. */
  datatype Status = Live | Dying | Gone

  /** What `run` did with an envelope. */
  datatype Outcome =
    | Linked                     // recorded in the link list, not shown to the receiver
    | Dropped                    // in shutdown
    | Obeyed                     // an exit message that shut the instance down
    | Ignored                    // exactly ["exit", "normal"] without trap
    | Received(trapping: bool)   // handed to the receiver

  datatype Handled = Handled(env: Env, outcome: Outcome)

  datatype ExitRecord = ExitRecord(reason: Reason, links: seq<Id>)

  datatype Actor = Actor(
    status: Status,
    trap: bool,
    observe: bool,
    started: bool,
    receiver: bool,
    links: seq<Id>,
    mailbox: seq<Env>,
    accepted: seq<Env>,
    handled: seq<Handled>,
    calls: nat,
    exits: seq<ExitRecord>,
    parent: Id)

  /** `next` is the value of the instance id counter. */
  datatype Node = Node(actors: map<Id, Actor>, next: Id)

  /** What a callback may do.  A `must` effect is written with `try`: its failure ends the callback. */
  datatype Effect =
    | SendTo(to: Id, msg: Msg, via: SendVia, must: bool)
    | LinkTo(to: Id, must: bool)
    | Spawn
    | SpawnLink
    | SetTrap(on: bool)
    | SetObserve(on: bool)
    | Receive

  datatype Result = Ok | Err(reason: Reason)

  datatype Callback = Callback(effects: seq<Effect>, result: Result)

  datatype Event =
    | RunOne(who: Id, callback: Callback)
    | Outside(to: Id, msg: Msg)         // a send made while no actor is current
    | OutsideSpawn
    | Destroy(who: Id)

  // ---------------------------------------------------------------- transitions

  predicate Alive(nd: Node, a: Id) {
    a in nd.actors && nd.actors[a].status.Live?
  }

  /** The node with the record of one instance replaced. */
  function Put(nd: Node, a: Id, x: Actor): Node {
    nd.(actors := nd.actors[a := x])
  }

  /** instance::queue: nothing is queued once the target is in shutdown. */
  function Queue(nd: Node, to: Id, env: Env): Node {
    if Alive(nd, to) then
      var t := nd.actors[to];
      Put(nd, to, t.(mailbox := t.mailbox + [env], accepted := t.accepted + [env]))
    else nd
  }

  /** deadsend: a send to a dead target is an error unless the message is an exit. */
  predicate SendFails(nd: Node, to: Id, msg: Msg) {
    !Alive(nd, to) && !msg.Exit?
  }

  function NotifyAll(nd: Node, hs: seq<Id>, env: Env): Node
    decreases |hs|
  {
    if hs == [] then nd else NotifyAll(Queue(nd, hs[0], env), hs[1..], env)
  }

  function ExitEnv(a: Id, r: Reason): Env {
    Env(a, Exit(r), AtExit)
  }

  /** The instance as it is after `in_shutdown` is set, before the links are told. */
  function MarkExit(nd: Node, a: Id, r: Reason): Node {
    if a in nd.actors then
      var x := nd.actors[a];
      Put(nd, a, x.(status := Dying, receiver := false, exits := x.exits + [ExitRecord(r, x.links)]))
    else nd
  }

  function HandleExit(nd: Node, a: Id, r: Reason): Node {
    if a in nd.actors then NotifyAll(MarkExit(nd, a, r), nd.actors[a].links, ExitEnv(a, r)) else nd
  }

  function Fresh(parent: Id): Actor {
    var box := (if parent == NOBODY then [] else [Env(parent, Link, AtLink)]) + [Env(NOBODY, Null, Direct)];
    Actor(Live, false, false, false, true, [], box, box, [], 0, [], parent)
  }

  function SpawnOne(nd: Node, parent: Id): Node {
    Node(nd.actors[nd.next := Fresh(parent)], nd.next + 1)
  }

  function AddLink(nd: Node, a: Id, h: Id): Node {
    if a in nd.actors then
      Put(nd, a, nd.actors[a].(links := [h] + nd.actors[a].links))
    else nd
  }

  /** The node after one effect of `a`'s callback, and whether a `must` effect failed. */
  function ApplyEffect(nd: Node, a: Id, e: Effect): (Node, bool)
    requires a in nd.actors
  {
    match e
    case SendTo(to, msg, via, must) =>
      if SendFails(nd, to, msg) then (nd, must) else (Queue(nd, to, Env(a, msg, via)), false)
    case LinkTo(to, must) =>
      if SendFails(nd, to, Link) then (nd, must)
      else (AddLink(Queue(nd, to, Env(a, Link, AtLink)), a, to), false)
    case Spawn => (SpawnOne(nd, NOBODY), false)
    case SpawnLink => (AddLink(SpawnOne(nd, a), a, nd.next), false)
    case SetTrap(on) => (Put(nd, a, nd.actors[a].(trap := on)), false)
    case SetObserve(on) => (Put(nd, a, nd.actors[a].(observe := on)), false)
    case Receive => (Put(nd, a, nd.actors[a].(receiver := true)), false)
  }

  function ApplyEffects(nd: Node, a: Id, es: seq<Effect>): (r: (Node, bool))
    requires a in nd.actors
    ensures a in r.0.actors
    decreases |es|
  {
    if es == [] then (nd, false)
    else
      var (nd1, failed) := ApplyEffect(nd, a, es[0]);
      if failed then (nd1, true) else ApplyEffects(nd1, a, es[1..])
  }

  /** Entering the receiver; the first call swaps the start-up closure out. */
  function Entered(x: Actor): Actor {
    x.(started := true, receiver := x.started && x.receiver, calls := x.calls + 1)
  }

  const DEAD_SEND := Long(DeadSend, 0)

  /** The body of the receiver, once entered, and what is done about its result. */
  function Invoke(nd: Node, a: Id, cb: Callback): Node
    requires a in nd.actors
  {
    var (nd1, failed) := ApplyEffects(nd, a, cb.effects);
    if failed then HandleExit(nd1, a, DEAD_SEND)
    else if cb.result.Err? then HandleExit(nd1, a, cb.result.reason)
    else if !nd1.actors[a].receiver then HandleExit(nd1, a, Short(NoReceive))
    else nd1
  }

  /** The outcome `run` chooses for an envelope. */
  function OutcomeOf(x: Actor, env: Env): Outcome {
    if env.msg.Link? && !x.observe then Linked
    else if !x.status.Live? then Dropped
    else if !x.trap && env.msg.Exit? then
      if env.msg.reason == Short(Normal) then Ignored else Obeyed
    else Received(x.trap)
  }

  /** An instance after taking its first envelope: a link is recorded, and the receiver entered
      if the envelope is for it. */
  function Taken(x: Actor): Actor
    requires x.mailbox != []
  {
    var env := x.mailbox[0];
    var y := x.(mailbox := x.mailbox[1..],
                handled := x.handled + [Handled(env, OutcomeOf(x, env))],
                links := if env.msg.Link? then [env.from] + x.links else x.links);
    if OutcomeOf(x, env).Received? then Entered(y) else y
  }

  function Take(nd: Node, a: Id): Node
    requires CanRun(nd, a)
  {
    Put(nd, a, Taken(nd.actors[a]))
  }

  predicate CanRun(nd: Node, a: Id) {
    a in nd.actors && nd.actors[a].mailbox != []
  }

  /** instance::run on the first envelope of a's strand. */
  function Run(nd: Node, a: Id, cb: Callback): Node
    requires CanRun(nd, a)
  {
    var env := nd.actors[a].mailbox[0];
    match OutcomeOf(nd.actors[a], env)
    case Obeyed => HandleExit(Take(nd, a), a, env.msg.reason)
    case Received(_) => Invoke(Take(nd, a), a, cb)
    case _ => Take(nd, a)
  }

  function Step(nd: Node, ev: Event): Node {
    match ev
    case RunOne(a, cb) => if CanRun(nd, a) then Run(nd, a, cb) else nd
    case Outside(to, msg) => Queue(nd, to, Env(NOBODY, msg, Direct))
    case OutsideSpawn => SpawnOne(nd, NOBODY)
    case Destroy(a) =>
      if a in nd.actors && nd.actors[a].status.Dying? && nd.actors[a].mailbox == []
      then Put(nd, a, nd.actors[a].(status := Gone)) else nd
  }

  function Exec(nd: Node, evs: seq<Event>): Node
    decreases |evs|
  {
    if evs == [] then nd else Exec(Step(nd, evs[0]), evs[1..])
  }

  const EMPTY := Node(map[], 1)
}
