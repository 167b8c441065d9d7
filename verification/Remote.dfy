/**
 The remote actor protocol of src/remote: two endpoints joined by two lossless FIFO wires.

 Each side is a node of the actor runtime.  Its endpoint keeps a table from remote ids to proxy
 actors; a proxy forwards messages, links and exits.  Proxies and endpoints are ordinary actors
 whose callbacks are the functions below; users are actors with arbitrary callbacks.
 */
module Remote {
  import opened Actors

  datatype Frame =
    | SendFrame(from: Id, to: Id, payload: Payload)
    | NamedFrame(from: Id, name: nat, payload: Payload)
    | LinkFrame(local: Id, remote: Id)
    | ExitFrame(local: Id, text: Text)
    | ErrorFrame(text: Text)

  /** `remoteOf` holds the remote_id field of every proxy ever made; `out` is the outgoing wire. */
  datatype Side = Side(
    node: Node,
    ep: Id,
    table: map<Id, Id>,
    remoteOf: map<Id, Id>,
    names: map<nat, Id>,
    out: seq<Frame>)

  datatype World = World(near: Side, far: Side)

  function Get(w: World, s: bool): Side {
    if s then w.far else w.near
  }

  function Set(w: World, s: bool, sd: Side): World {
    if s then w.(far := sd) else w.(near := sd)
  }

  // ---------------------------------------------------------------- proxies

  /** A message that a proxy does not intercept, as the payload it forwards. */
  function PayloadOf(m: Msg): seq<Payload> {
    match m
    case Data(n) => [Plain(n)]
    case Exit(Long(t, d)) => [LongExit(t, d)]
    case _ => []
  }

  function AsMsg(p: Payload): Msg {
    match p
    case Plain(n) => Data(n)
    case LongExit(t, d) => Exit(Long(t, d))
  }

  /** pid.from_id finds an instance until it is destroyed, even while it is in shutdown. */
  predicate Exists(nd: Node, a: Id) {
    a in nd.actors && !nd.actors[a].status.Gone?
  }

  function NameOf(sd: Side, name: nat): Id {
    if name in sd.names then sd.names[name] else NOBODY
  }

  /** Proxy.init on the first run, Proxy.receive_safe afterwards. */
  function ProxyCallback(sd: Side, p: Id, env: Env): Callback
    requires p in sd.remoteOf && p in sd.node.actors
  {
    var remote := sd.remoteOf[p];
    if !sd.node.actors[p].started then Callback([SetTrap(true), SetObserve(true), Receive], Ok)
    else
      match env.msg
      case EndpointExit(t) => Callback([], Err(Short(t)))
      case Exit(Short(t)) =>
        if env.from != sd.ep
        then Callback([SendTo(sd.ep, LocalLinkExit(env.from, t), Direct, false)], Ok)
        else Callback([SendTo(sd.ep, ProxyExit(remote), Direct, false)], Err(Short(t)))
      case Link => Callback([SendTo(sd.ep, LinkWire(env.from, remote), Direct, true)], Ok)
      case SetNotify(t) =>
        Callback(if Exists(sd.node, t) then [LinkTo(t, true)] else [], Ok)
      case DeliverNamed(n, pl) =>
        Callback([SendTo(NameOf(sd, n), AsMsg(pl), ByName, true)], Ok)
      case DeliverPid(t, pl) =>
        Callback(if Exists(sd.node, t) then [SendTo(t, AsMsg(pl), ByPid, true)] else [], Ok)
      case Data(n) => Callback([SendTo(sd.ep, Send(env.from, remote, Plain(n)), Direct, true)], Ok)
      case Exit(Long(t, d)) => Callback([SendTo(sd.ep, Send(env.from, remote, LongExit(t, d)), Direct, true)], Ok)
      case _ => Callback([], Ok)
  }

  // ---------------------------------------------------------------- endpoints

  /** The frame that endpoint.receive puts on the wire for a message, if any. */
  function FramesFor(m: Msg): seq<Frame> {
    match m
    case Send(f, t, pl) => [SendFrame(f, t, pl)]
    case SendNamed(f, n, pl) => [NamedFrame(f, n, pl)]
    case LinkWire(f, t) => [LinkFrame(f, t)]
    case LocalLinkExit(f, t) => [ExitFrame(f, t)]
    case _ => []
  }

  const UNEXPECTED := Short(Other(0))

  /** endpoint.receive: everything it does not know is an error, a long exit message included.  A
      short one only starts the deferred close of the connection, which the event EndpointFail
      completes. */
  function EndpointCallback(m: Msg): Callback {
    if FramesFor(m) != [] || m.ProxyExit? || (m.Exit? && m.reason.Short?) then Callback([], Ok) else Callback([], Err(UNEXPECTED))
  }

  /** get_or_create_proxy, then a send that must succeed. */
  function ToProxy(sd: Side, remote: Id, m: Msg): (Side, Callback) {
    if remote in sd.table then (sd, Callback([SendTo(sd.table[remote], m, Direct, true)], Ok))
    else
      var p := sd.node.next;
      (sd.(table := sd.table[remote := p], remoteOf := sd.remoteOf[p := remote]),
       Callback([Spawn, SendTo(p, m, Direct, true)], Ok))
  }

  /** dispatch_inbound. */
  function Dispatch(sd: Side, fr: Frame): (Side, Callback) {
    match fr
    case SendFrame(f, t, pl) => ToProxy(sd, f, DeliverPid(t, pl))
    case NamedFrame(f, n, pl) =>
      if f != NOBODY then ToProxy(sd, f, DeliverNamed(n, pl))
      else (sd, Callback([SendTo(NameOf(sd, n), AsMsg(pl), ByName, true)], Ok))
    case ExitFrame(k, t) =>
      (sd, Callback(if k in sd.table then [SendTo(sd.table[k], Exit(Short(t)), Direct, false)] else [], Ok))
    case LinkFrame(k, t) => ToProxy(sd, k, SetNotify(t))
    case ErrorFrame(t) => (sd, Callback([], Err(Short(t))))
  }

  /** endpoint.deinit: every proxy in the table is told that the transport closed. */
  function Bury(sd: Side): Side {
    var env := Env(NOBODY, EndpointExit(TransportClosed), Direct);
    if Alive(sd.node, sd.ep) then sd
    else
      sd.(node := sd.node.(actors := map a | a in sd.node.actors ::
            if a in sd.table.Values && Alive(sd.node, a)
            then sd.node.actors[a].(mailbox := sd.node.actors[a].mailbox + [env],
                                    accepted := sd.node.actors[a].accepted + [env])
            else sd.node.actors[a]))
  }

  // ---------------------------------------------------------------- events

  datatype NetEvent =
    | UserRun(s: bool, who: Id, callback: Callback)
    | UserSpawn(s: bool)                                // an actor started from outside
    | Trigger(s: bool, to: Id, n: nat)                  // a message sent from outside
    | Register(s: bool, name: nat, who: Id)
    | ProxyRun(s: bool, who: Id)
    | EndpointRun(s: bool)
    | WireIn(s: bool)                                   // side s reads one frame of its peer's wire
    | EndpointFail(s: bool, text: Text, tell: bool)     // transport error, oversized frame or close
    | Reap(s: bool, who: Id)

  /** Users send data, or named sends to the endpoint on behalf of an actor of their own node; they
      never forge control messages. */
  predicate Honest(sd: Side, e: Effect) {
    match e
    case SendTo(to, msg, via, _) => via == Direct && (msg.Data? || (msg.SendNamed? && to == sd.ep && msg.from < sd.node.next))
    case _ => true
  }

  predicate IsUser(sd: Side, a: Id) {
    a in sd.node.actors && a != sd.ep && a !in sd.remoteOf
  }

  predicate EnabledOn(sd: Side, peer: Side, ev: NetEvent) {
    match ev
    case UserRun(_, a, cb) => IsUser(sd, a) && CanRun(sd.node, a) && forall e :: e in cb.effects ==> Honest(sd, e)
    case UserSpawn(_) => true
    case Trigger(_, to, _) => true
    case Register(_, _, a) => true
    case ProxyRun(_, p) => p in sd.remoteOf && CanRun(sd.node, p)
    case EndpointRun(_) => Alive(sd.node, sd.ep) && CanRun(sd.node, sd.ep)
    case WireIn(_) => Alive(sd.node, sd.ep) && peer.out != []
    case EndpointFail(_, _, _) => Alive(sd.node, sd.ep)
    case Reap(_, a) => a in sd.node.actors && sd.node.actors[a].status.Dying? && sd.node.actors[a].mailbox == []
  }

  predicate Enabled(w: World, ev: NetEvent) {
    EnabledOn(Get(w, ev.s), Get(w, !ev.s), ev)
  }

  function RunEndpoint(sd: Side): Side
    requires CanRun(sd.node, sd.ep)
  {
    var m := sd.node.actors[sd.ep].mailbox[0].msg;
    Bury(sd.(node := Run(sd.node, sd.ep, EndpointCallback(m)),
             out := sd.out + FramesFor(m),
             table := if m.ProxyExit? then sd.table - {m.remote} else sd.table))
  }

  function ReadFrame(sd: Side, fr: Frame): Side
    requires sd.ep in sd.node.actors
  {
    var (sd1, cb) := Dispatch(sd, fr);
    Bury(sd1.(node := Invoke(Put(sd.node, sd.ep, Entered(sd.node.actors[sd.ep])), sd.ep, cb)))
  }

  function FailEndpoint(sd: Side, t: Text, tell: bool): Side {
    Bury(sd.(node := HandleExit(sd.node, sd.ep, Short(t)),
             out := if tell then sd.out + [ErrorFrame(t)] else sd.out))
  }

  /** The side on which an event happens, afterwards. */
  function Local(sd: Side, peer: Side, ev: NetEvent): Side
    requires EnabledOn(sd, peer, ev) && sd.ep in sd.node.actors
  {
    match ev
    case UserRun(_, a, cb) => sd.(node := Run(sd.node, a, cb))
    case UserSpawn(_) => sd.(node := SpawnOne(sd.node, NOBODY))
    case Trigger(_, to, n) => sd.(node := Queue(sd.node, to, Env(NOBODY, Data(n), Direct)))
    case Register(_, name, a) => sd.(names := sd.names[name := a])
    case ProxyRun(_, p) => sd.(node := Run(sd.node, p, ProxyCallback(sd, p, sd.node.actors[p].mailbox[0])))
    case EndpointRun(_) => RunEndpoint(sd)
    case WireIn(_) => ReadFrame(sd, peer.out[0])
    case EndpointFail(_, t, tell) => FailEndpoint(sd, t, tell)
    case Reap(_, a) => sd.(node := Put(sd.node, a, sd.node.actors[a].(status := Gone)))
  }

  predicate Formed(w: World) {
    w.near.ep in w.near.node.actors && w.far.ep in w.far.node.actors
  }

  function NetStep(w: World, ev: NetEvent): World {
    if !Formed(w) || !Enabled(w, ev) then w
    else
      var sd, peer := Get(w, ev.s), Get(w, !ev.s);
      var w1 := Set(w, ev.s, Local(sd, peer, ev));
      if ev.WireIn? then Set(w1, !ev.s, peer.(out := peer.out[1..])) else w1
  }

  function NetRun(w: World, evs: seq<NetEvent>): World
    decreases |evs|
  {
    if evs == [] then w else NetRun(NetStep(w, evs[0]), evs[1..])
  }

  const EP: Id := 1

  function InitSide(): Side {
    var ep := Actor(Live, true, false, true, true, [], [], [], [], 0, [], NOBODY);
    Side(Node(map[EP := ep], 2), EP, map[], map[], map[], [])
  }

  const INIT := World(InitSide(), InitSide())
}
