/**
 Remote transparency.

 What X has sent to its proxy for Y equals what Y has been sent by the proxy for X, followed by
 what is in flight at each stage in order: the peer proxy, the wire, the endpoint, the proxy.
 This holds for every interleaving with any number of other actors, as long as X has not exited
 and Y, the endpoints and the two proxies are alive.
 */
module RemoteLanes {
  import opened Actors
  import opened Lifecycle
  import opened Mail
  import opened Remote
  import opened RemoteInv
  import opened RemoteSteps

  // ---------------------------------------------------------------- projections

  function Pick<T>(q: seq<T>, f: T -> seq<Payload>): seq<Payload> {
    if q == [] then [] else f(q[0]) + Pick(q[1..], f)
  }

  lemma {:induction false} PickConcat<T>(a: seq<T>, b: seq<T>, f: T -> seq<Payload>)
    ensures Pick(a + b, f) == Pick(a, f) + Pick(b, f)
    decreases |a|
  {
    if a == [] {
      assert a + b == b;
    } else {
      assert (a + b)[1..] == a[1..] + b;
      PickConcat(a[1..], b, f);
    }
  }

  lemma {:induction false} PickNone<T>(a: seq<T>, f: T -> seq<Payload>)
    requires forall e :: e in a ==> f(e) == []
    ensures Pick(a, f) == []
    decreases |a|
  {
    if a != [] {
      PickNone(a[1..], f);
    }
  }

  lemma PickAppend<T>(a: seq<T>, more: seq<T>, f: T -> seq<Payload>)
    requires forall e :: e in more ==> f(e) == []
    ensures Pick(a + more, f) == Pick(a, f)
  {
    PickConcat(a, more, f);
    PickNone(more, f);
  }

  lemma PickOne<T>(a: seq<T>, e: T, f: T -> seq<Payload>)
    ensures Pick(a + [e], f) == Pick(a, f) + f(e)
  {
    PickConcat(a, [e], f);
  }

  function FromActor(x: Id): Env -> seq<Payload> {
    (e: Env) => if e.from == x then PayloadOf(e.msg) else []
  }

  function ToWire(x: Id, y: Id): Env -> seq<Payload> {
    (e: Env) => if e.msg.Send? && e.msg.from == x && e.msg.to == y then [e.msg.payload] else []
  }

  function InFrame(x: Id, y: Id): Frame -> seq<Payload> {
    (fr: Frame) => if fr.SendFrame? && fr.from == x && fr.to == y then [fr.payload] else []
  }

  function ForPid(y: Id): Env -> seq<Payload> {
    (e: Env) => if e.msg.DeliverPid? && e.msg.target == y then [e.msg.payload] else []
  }

  function Relayed(q: Id): Env -> seq<Payload> {
    (e: Env) => if e.from == q && e.via.ByPid? then PayloadOf(e.msg) else []
  }

  // ---------------------------------------------------------------- stages

  function Box(sd: Side, k: Id): seq<Env> {
    if k in sd.table && sd.table[k] in sd.node.actors then sd.node.actors[sd.table[k]].mailbox else []
  }

  function Log(sd: Side, k: Id): seq<Env> {
    if k in sd.table && sd.table[k] in sd.node.actors then sd.node.actors[sd.table[k]].accepted else []
  }

  function EndpointBox(sd: Side): seq<Env> {
    if sd.ep in sd.node.actors then sd.node.actors[sd.ep].mailbox else []
  }

  /** What x has sent to this side's proxy for y. */
  function Sent(src: Side, x: Id, y: Id): seq<Payload> {
    Pick(Log(src, y), FromActor(x))
  }

  function AtProxy(src: Side, x: Id, y: Id): seq<Payload> {
    Pick(Box(src, y), FromActor(x))
  }

  function AtEndpoint(src: Side, x: Id, y: Id): seq<Payload> {
    Pick(EndpointBox(src), ToWire(x, y))
  }

  function OnWire(src: Side, x: Id, y: Id): seq<Payload> {
    Pick(src.out, InFrame(x, y))
  }

  function AtPeer(dst: Side, x: Id, y: Id): seq<Payload> {
    Pick(Box(dst, x), ForPid(y))
  }

  /** What y has accepted from this side's proxy for x by pid. */
  function Delivered(dst: Side, x: Id, y: Id): seq<Payload> {
    if x in dst.table && y in dst.node.actors then Pick(dst.node.actors[y].accepted, Relayed(dst.table[x])) else []
  }

  /** The stages on the sender's side, latest message last. */
  function Outbound(src: Side, x: Id, y: Id): seq<Payload> {
    OnWire(src, x, y) + AtEndpoint(src, x, y) + AtProxy(src, x, y)
  }

  function Inbound(dst: Side, x: Id, y: Id): seq<Payload> {
    Delivered(dst, x, y) + AtPeer(dst, x, y)
  }

  predicate Lane(src: Side, dst: Side, x: Id, y: Id) {
    Sent(src, x, y) == Inbound(dst, x, y) + Outbound(src, x, y)
  }

  predicate ProxyUp(sd: Side, k: Id) {
    k in sd.table ==> Alive(sd.node, sd.table[k])
  }

  /** x has not exited, and y, the endpoints and the proxies on the way are alive. */
  predicate Open(src: Side, dst: Side, x: Id, y: Id) {
    && !Exited(src.node, x) && Alive(dst.node, y)
    && Alive(src.node, src.ep) && Alive(dst.node, dst.ep)
    && ProxyUp(src, y) && ProxyUp(dst, x)
  }

  /** Moving a message from one stage to the next does not change the concatenation. */
  lemma Regroup(i: seq<Payload>, w: seq<Payload>, e: seq<Payload>, p: seq<Payload>, d: seq<Payload>)
    ensures (i + (w + e + p)) + d == i + (w + e + (p + d))
    ensures i + (w + e + (d + p)) == i + (w + (e + d) + p)
    ensures i + (w + (d + e) + p) == i + ((w + d) + e + p)
    ensures (i + (d + w)) + e == ((i + d) + w) + e
  {
  }

  lemma RegroupWire(i: seq<Payload>, a: seq<Payload>, d: seq<Payload>, w: seq<Payload>, e: seq<Payload>, p: seq<Payload>)
    ensures (i + a) + ((d + w) + e + p) == (i + (a + d)) + (w + e + p)
  {
  }

  // ---------------------------------------------------------------- mail that no stage counts

  function NotSend(): Kind {
    (e: Env) => !e.msg.Send?
  }

  function NotPid(): Kind {
    (e: Env) => !e.msg.DeliverPid? && !e.via.ByPid?
  }

  /** The table entry for k is kept, or made for a new-born proxy, or absent. */
  predicate SameEntry(sd: Side, sd': Side, nd1: Node, k: Id) {
    if k in sd.table then
      && k in sd'.table && sd'.table[k] == sd.table[k] && sd.table[k] in sd.node.actors && sd.table[k] in nd1.actors
      && nd1.actors[sd.table[k]].mailbox == sd.node.actors[sd.table[k]].mailbox
      && nd1.actors[sd.table[k]].accepted == sd.node.actors[sd.table[k]].accepted
    else k in sd'.table ==> sd'.table[k] !in nd1.actors && sd'.table[k] in sd'.node.actors
  }

  /** What the proxy for k accepted between two states of its side. */
  function Fresher(sd: Side, sd': Side, k: Id): seq<Env> {
    if |Log(sd, k)| <= |Log(sd', k)| then Log(sd', k)[|Log(sd, k)|..] else []
  }

  lemma ProxyGrows(sd: Side, sd': Side, nd1: Node, a: Id, kind: Kind, k: Id)
    requires Adds(nd1, sd'.node, a, kind) && SameEntry(sd, sd', nd1, k)
    ensures Log(sd', k) == Log(sd, k) + Fresher(sd, sd', k)
    ensures Box(sd', k) == Box(sd, k) + Fresher(sd, sd', k)
    ensures AllOf(Fresher(sd, sd', k), kind)
  {
    if k in sd.table {
      var p := sd.table[k];
      assert AddsAt(nd1.actors[p], sd'.node.actors[p]);
      assert Fresher(sd, sd', k) == New(nd1.actors[p], sd'.node.actors[p]);
    } else if k in sd'.table {
      assert Fresher(sd, sd', k) == Log(sd', k);
    }
  }

  lemma EndpointGrows(sd: Side, sd': Side, nd1: Node, a: Id, kind: Kind, x: Id, y: Id)
    requires Adds(nd1, sd'.node, a, kind) && forall e :: kind(e) ==> !e.msg.Send?
    requires sd'.ep == sd.ep && sd.ep in sd.node.actors && sd.ep in nd1.actors
    requires nd1.actors[sd.ep].mailbox == sd.node.actors[sd.ep].mailbox
    ensures AtEndpoint(sd', x, y) == AtEndpoint(sd, x, y)
  {
    var more := New(nd1.actors[sd.ep], sd'.node.actors[sd.ep]);
    assert AddsAt(nd1.actors[sd.ep], sd'.node.actors[sd.ep]);
    PickAppend(sd.node.actors[sd.ep].mailbox, more, ToWire(x, y));
  }

  /** An event that adds no Send adds the same messages to Sent and to the proxy's mailbox. */
  lemma SourceQuiet(src: Side, src': Side, dst: Side, nd1: Node, a: Id, kind: Kind, x: Id, y: Id)
    requires Lane(src, dst, x, y)
    requires Adds(nd1, src'.node, a, kind) && forall e :: kind(e) ==> !e.msg.Send?
    requires src'.ep == src.ep && src.ep in src.node.actors && src.ep in nd1.actors && src'.out == src.out
    requires nd1.actors[src.ep].mailbox == src.node.actors[src.ep].mailbox
    requires SameEntry(src, src', nd1, y)
    ensures Lane(src', dst, x, y)
  {
    ProxyGrows(src, src', nd1, a, kind, y);
    EndpointGrows(src, src', nd1, a, kind, x, y);
    var d := Fresher(src, src', y);
    PickConcat(Log(src, y), d, FromActor(x));
    PickConcat(Box(src, y), d, FromActor(x));
    Regroup(Inbound(dst, x, y), OnWire(src, x, y), AtEndpoint(src, x, y), AtProxy(src, x, y), Pick(d, FromActor(x)));
  }

  /** The proxy forwards its first message to the endpoint. */
  lemma SourceForwards(src: Side, src': Side, dst: Side, nd1: Node, p: Id, e: Env, x: Id, y: Id)
    requires Lane(src, dst, x, y)
    requires CanRun(src.node, p) && e == HeadOf(src, p) && PayloadOf(e.msg) != [] && nd1 == Take(src.node, p)
    requires p in src.remoteOf && p != src.ep && src.ep in src.node.actors && src.ep !in src.remoteOf
    requires InTable(src, p) && TableOk(src) && (y in src.table ==> src.table[y] in src.node.actors)
    requires Alive(nd1, src.ep)
    requires src' == src.(node := Queue(nd1, src.ep, Env(p, Send(e.from, src.remoteOf[p], PayloadOf(e.msg)[0]), Direct)))
    ensures Lane(src', dst, x, y)
  {
    var m := Env(p, Send(e.from, src.remoteOf[p], PayloadOf(e.msg)[0]), Direct);
    ForwardBoxes(src, src', nd1, p, e, m, y);
    ForwardLane(src, src', dst, if src.remoteOf[p] == y then [e] else [], m, x, y) by {
      assert Pick([e], FromActor(x)) == FromActor(x)(e);
    }
  }

  lemma ForwardLane(src: Side, src': Side, dst: Side, head: seq<Env>, m: Env, x: Id, y: Id)
    requires Lane(src, dst, x, y)
    requires EndpointBox(src') == EndpointBox(src) + [m] && Log(src', y) == Log(src, y) && src'.out == src.out
    requires Box(src, y) == head + Box(src', y) && Pick(head, FromActor(x)) == ToWire(x, y)(m)
    ensures Lane(src', dst, x, y)
  {
    PickOne(EndpointBox(src), m, ToWire(x, y));
    PickConcat(head, Box(src', y), FromActor(x));
    Regroup(Inbound(dst, x, y), OnWire(src, x, y), AtEndpoint(src, x, y), AtProxy(src', x, y), ToWire(x, y)(m));
  }

  lemma ForwardBoxes(src: Side, src': Side, nd1: Node, p: Id, e: Env, m: Env, y: Id)
    requires CanRun(src.node, p) && e == HeadOf(src, p) && nd1 == Take(src.node, p)
    requires p in src.remoteOf && p != src.ep && src.ep in src.node.actors && src.ep !in src.remoteOf
    requires InTable(src, p) && TableOk(src) && (y in src.table ==> src.table[y] in src.node.actors)
    requires Alive(nd1, src.ep) && src' == src.(node := Queue(nd1, src.ep, m))
    ensures EndpointBox(src') == EndpointBox(src) + [m] && Log(src', y) == Log(src, y)
    ensures Box(src, y) == (if src.remoteOf[p] == y then [e] else []) + Box(src', y)
  {
    if y in src.table {
      assert src.table[y] != src.ep;
    }
  }

  /** The endpoint writes its first message to the wire. */
  lemma SourceWrites(src: Side, src': Side, dst: Side, nd': Node, x: Id, y: Id)
    requires Lane(src, dst, x, y)
    requires CanRun(src.node, src.ep) && src'.ep == src.ep && src'.node == nd'
    requires src.ep in nd'.actors && nd'.actors[src.ep].mailbox == src.node.actors[src.ep].mailbox[1..]
    requires src'.out == src.out + FramesFor(HeadOf(src, src.ep).msg)
    requires Log(src', y) == Log(src, y) && Box(src', y) == Box(src, y)
    ensures Lane(src', dst, x, y)
  {
    var e := HeadOf(src, src.ep);
    var d := Pick([e], ToWire(x, y));
    assert AtEndpoint(src, x, y) == d + AtEndpoint(src', x, y) by {
      assert EndpointBox(src) == [e] + EndpointBox(src');
      PickConcat([e], EndpointBox(src'), ToWire(x, y));
    }
    assert OnWire(src', x, y) == OnWire(src, x, y) + d by {
      PickConcat(src.out, FramesFor(e.msg), InFrame(x, y));
      FrameForSend(e, x, y);
    }
    Regroup(Inbound(dst, x, y), OnWire(src, x, y), AtEndpoint(src', x, y), AtProxy(src, x, y), d);
  }

  lemma FrameForSend(e: Env, x: Id, y: Id)
    ensures Pick([e], ToWire(x, y)) == Pick(FramesFor(e.msg), InFrame(x, y))
  {
    assert Pick([e], ToWire(x, y)) == ToWire(x, y)(e);
    if FramesFor(e.msg) != [] {
      var fr := FramesFor(e.msg)[0];
      assert FramesFor(e.msg) == [fr];
      assert Pick([fr], InFrame(x, y)) == InFrame(x, y)(fr);
    }
  }

  // ---------------------------------------------------------------- the receiver's side

  lemma DeliveredGrows(dst: Side, dst': Side, nd1: Node, a: Id, kind: Kind, x: Id, y: Id)
    requires Adds(nd1, dst'.node, a, kind) && SameEntry(dst, dst', nd1, x) && y in dst.node.actors && y in nd1.actors
    requires nd1.actors[y].accepted == dst.node.actors[y].accepted
    requires x in dst.table ==> forall e :: kind(e) ==> Relayed(dst.table[x])(e) == []
    requires x !in dst.table && x in dst'.table ==>
               dst.node.next <= dst'.table[x] && (forall e :: e in dst.node.actors[y].accepted ==> e.from < dst.node.next)
               && (forall e :: kind(e) ==> !e.via.ByPid?)
    ensures Delivered(dst', x, y) == Delivered(dst, x, y)
  {
    var more := New(nd1.actors[y], dst'.node.actors[y]);
    assert AddsAt(nd1.actors[y], dst'.node.actors[y]);
    if x in dst.table {
      PickAppend(dst.node.actors[y].accepted, more, Relayed(dst.table[x]));
    } else if x in dst'.table {
      PickNone(dst.node.actors[y].accepted + more, Relayed(dst'.table[x]));
    }
  }

  /** An event that adds no mail for the lane leaves the receiver's stages alone. */
  lemma TargetQuiet(src: Side, dst: Side, dst': Side, nd1: Node, a: Id, kind: Kind, x: Id, y: Id)
    requires Lane(src, dst, x, y)
    requires Adds(nd1, dst'.node, a, kind) && forall e :: kind(e) ==> ForPid(y)(e) == []
    requires SameEntry(dst, dst', nd1, x) && y in dst.node.actors && y in nd1.actors
    requires nd1.actors[y].accepted == dst.node.actors[y].accepted
    requires x in dst.table ==> forall e :: kind(e) ==> Relayed(dst.table[x])(e) == []
    requires x !in dst.table && x in dst'.table ==>
               dst.node.next <= dst'.table[x] && (forall e :: e in dst.node.actors[y].accepted ==> e.from < dst.node.next)
               && (forall e :: kind(e) ==> !e.via.ByPid?)
    ensures Lane(src, dst', x, y)
  {
    ProxyGrows(dst, dst', nd1, a, kind, x);
    PickAppend(Box(dst, x), Fresher(dst, dst', x), ForPid(y));
    DeliveredGrows(dst, dst', nd1, a, kind, x, y);
  }

  /** The proxy for x hands its first message to y. */
  lemma TargetDelivers(src: Side, dst: Side, dst': Side, nd1: Node, q: Id, e: Env, pl: Payload, x: Id, y: Id)
    requires Lane(src, dst, x, y)
    requires CanRun(dst.node, q) && e == HeadOf(dst, q) && e.msg == DeliverPid(y, pl) && nd1 == Take(dst.node, q)
    requires x in dst.table && dst.table[x] == q && Alive(nd1, y) && y in dst.node.actors
    requires dst' == dst.(node := Queue(nd1, y, Env(q, AsMsg(pl), ByPid)))
    ensures Lane(src, dst', x, y)
  {
    var m, rest := Env(q, AsMsg(pl), ByPid), dst.node.actors[q].mailbox[1..];
    assert Box(dst, x) == [e] + rest;
    DeliverLane(src, dst, dst', e, rest, m, pl, x, y);
  }

  lemma DeliverLane(src: Side, dst: Side, dst': Side, e: Env, rest: seq<Env>, m: Env, pl: Payload, x: Id, y: Id)
    requires Lane(src, dst, x, y) && y in dst.node.actors && y in dst'.node.actors && x in dst.table && dst'.table == dst.table
    requires Box(dst, x) == [e] + rest && (Box(dst', x) == rest || Box(dst', x) == rest + [m])
    requires dst'.node.actors[y].accepted == dst.node.actors[y].accepted + [m]
    requires e.msg == DeliverPid(y, pl) && m == Env(dst.table[x], AsMsg(pl), ByPid)
    ensures Lane(src, dst', x, y)
  {
    var q := dst.table[x];
    assert Delivered(dst', x, y) == Delivered(dst, x, y) + [pl] by {
      PickOne(dst.node.actors[y].accepted, m, Relayed(q));
      assert Relayed(q)(m) == [pl];
    }
    assert AtPeer(dst, x, y) == [pl] + Pick(rest, ForPid(y)) by {
      PickConcat([e], rest, ForPid(y));
      assert Pick([e], ForPid(y)) == [pl];
    }
    assert AtPeer(dst', x, y) == Pick(rest, ForPid(y)) by {
      PickOne(rest, m, ForPid(y));
      assert ForPid(y)(m) == [];
    }
    Regroup(Delivered(dst, x, y), Pick(rest, ForPid(y)), Outbound(src, x, y), [], [pl]);
  }

  /** The endpoint of the receiver reads a frame for the lane and queues it for the proxy. */
  lemma WireLane(src: Side, src': Side, dst: Side, dst': Side, pre: seq<Env>, m: Env, pl: Payload, x: Id, y: Id)
    requires Lane(src, dst, x, y) && src.out != [] && src.out[0] == SendFrame(x, y, pl) && src' == src.(out := src.out[1..])
    requires m.msg == DeliverPid(y, pl)
    requires Box(dst', x) == Box(dst, x) + pre + [m] && Pick(pre, ForPid(y)) == []
    requires Delivered(dst', x, y) == Delivered(dst, x, y)
    ensures Lane(src', dst', x, y)
  {
    PickOne(Box(dst, x) + pre, m, ForPid(y));
    PickConcat(Box(dst, x), pre, ForPid(y));
    assert AtPeer(dst', x, y) == AtPeer(dst, x, y) + [pl] by {
      assert ForPid(y)(m) == [pl];
    }
    assert OnWire(src, x, y) == [pl] + OnWire(src', x, y) by {
      assert InFrame(x, y)(src.out[0]) == [pl];
    }
    RegroupWire(Delivered(dst, x, y), AtPeer(dst, x, y), [pl], OnWire(src', x, y), AtEndpoint(src, x, y), AtProxy(src, x, y));
  }

  /** A frame of another lane is read. */
  lemma OtherFrame(src: Side, src': Side, dst: Side, x: Id, y: Id)
    requires Lane(src, dst, x, y) && src.out != [] && InFrame(x, y)(src.out[0]) == [] && src' == src.(out := src.out[1..])
    ensures Lane(src', dst, x, y)
  {
    assert OnWire(src', x, y) == OnWire(src, x, y);
  }
}
