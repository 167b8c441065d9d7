/**
 The lock-free trace log of src/trace.cpp: threads push records onto a stack by compare-exchange,
 and whichever thread gets the lock takes the whole stack, reverses it in place and writes it.

 Every step that touches shared memory is an event of its own, so the runs are all interleavings.
 Addresses may be reused after a node has been freed, and compare-exchange may fail spuriously.

 The fields `order`, `stack`, `front` and `back` are history: no transition depends on them.
 */
module TraceLog {
  type Addr = nat
  type Thread = nat
  type Record = nat

  const NULL: Addr := 0
  const NO_ONE: Thread := 0

  datatype Cell = Cell(data: Record, next: Addr)

  datatype Pc =
    | Idle
    | Pushing(node: Addr)                  // about to compare-exchange the head
    | Seeking                              // about to try the lock
    | Locked                               // about to load the head
    | Loaded(p: Addr)                      // about to compare-exchange the head with null
    | Reversing(prev: Addr, p: Addr)
    | Writing(p: Addr)

  datatype State = State(
    heap: map<Addr, Cell>,
    head: Addr,
    owner: Thread,
    pcs: map<Thread, Pc>,
    written: seq<Record>,
    order: seq<Record>,      // records in the order of their successful compare-exchanges
    stack: seq<Addr>,        // the list from head
    front: seq<Addr>,        // the drainer's list from p
    back: seq<Addr>)         // the drainer's list from prev

  datatype Event =
    | Begin(t: Thread, data: Record, at: Addr)
    | Push(t: Thread, spurious: bool)
    | TryLock(t: Thread)
    | Load(t: Thread)
    | Take(t: Thread, spurious: bool)
    | Reverse(t: Thread)
    | Write(t: Thread)

  function PcOf(st: State, t: Thread): Pc {
    if t in st.pcs then st.pcs[t] else Idle
  }

  function Go(st: State, t: Thread, pc: Pc): State {
    st.(pcs := st.pcs[t := pc])
  }

  predicate Enabled(st: State, ev: Event) {
    && ev.t != NO_ONE
    && match ev
       case Begin(t, _, at) => PcOf(st, t).Idle? && at != NULL && at !in st.heap
       case Push(t, _) => PcOf(st, t).Pushing? && PcOf(st, t).node in st.heap
       case TryLock(t) => PcOf(st, t).Seeking?
       case Load(t) => PcOf(st, t).Locked?
       case Take(t, _) => PcOf(st, t).Loaded?
       case Reverse(t) => PcOf(st, t).Reversing? && (PcOf(st, t).p == NULL || PcOf(st, t).p in st.heap)
       case Write(t) => PcOf(st, t).Writing? && (PcOf(st, t).p == NULL || PcOf(st, t).p in st.heap)
  }

  function Tail<T>(xs: seq<T>): seq<T> {
    if xs == [] then [] else xs[1..]
  }

  /** new node{data, head} and the compare-exchange loop of push. */
  function PushStep(st: State, t: Thread, a: Addr, spurious: bool): State
    requires a in st.heap
  {
    var c := st.heap[a];
    if !spurious && st.head == c.next then
      Go(st.(head := a, stack := [a] + st.stack, order := st.order + [c.data]), t, Seeking)
    else st.(heap := st.heap[a := Cell(c.data, st.head)])
  }

  /** The compare-exchange loop of do_work, which takes the whole stack. */
  function TakeStep(st: State, t: Thread, p: Addr, spurious: bool): State {
    if p == NULL then Go(st.(owner := NO_ONE), t, Idle)
    else if !spurious && st.head == p then Go(st.(head := NULL, stack := [], front := st.stack), t, Reversing(NULL, p))
    else Go(st, t, Loaded(st.head))
  }

  /** One round of the loop of reverse. */
  function ReverseStep(st: State, t: Thread, prev: Addr, p: Addr): State
    requires p == NULL || p in st.heap
  {
    if p == NULL then Go(st.(front := st.back, back := []), t, Writing(prev))
    else
      var c := st.heap[p];
      Go(st.(heap := st.heap[p := Cell(c.data, prev)], front := Tail(st.front), back := [p] + st.back), t, Reversing(p, c.next))
  }

  /** One round of the writing loop; at its end the lock is released and do_work is called again. */
  function WriteStep(st: State, t: Thread, p: Addr): State
    requires p == NULL || p in st.heap
  {
    if p == NULL then Go(st.(owner := NO_ONE), t, Seeking)
    else
      var c := st.heap[p];
      Go(st.(heap := st.heap - {p}, written := st.written + [c.data], front := Tail(st.front)), t, Writing(c.next))
  }

  function Step(st: State, ev: Event): State {
    if !Enabled(st, ev) then st
    else
      match ev
      case Begin(t, d, at) => Go(st.(heap := st.heap[at := Cell(d, st.head)]), t, Pushing(at))
      case Push(t, spurious) => PushStep(st, t, PcOf(st, t).node, spurious)
      case TryLock(t) => if st.owner == NO_ONE then Go(st.(owner := t), t, Locked) else Go(st, t, Idle)
      case Load(t) => Go(st, t, Loaded(st.head))
      case Take(t, spurious) => TakeStep(st, t, PcOf(st, t).p, spurious)
      case Reverse(t) => ReverseStep(st, t, PcOf(st, t).prev, PcOf(st, t).p)
      case Write(t) => WriteStep(st, t, PcOf(st, t).p)
  }

  function Exec(st: State, evs: seq<Event>): State
    decreases |evs|
  {
    if evs == [] then st else Exec(Step(st, evs[0]), evs[1..])
  }

  const INIT := State(map[], NULL, NO_ONE, map[], [], [], [], [], [])

  // ---------------------------------------------------------------- lists in memory

  /** The nodes reached from p are exactly xs. */
  predicate Chain(heap: map<Addr, Cell>, p: Addr, xs: seq<Addr>)
    decreases |xs|
  {
    if xs == [] then p == NULL
    else p == xs[0] && p != NULL && p in heap && Chain(heap, heap[p].next, xs[1..])
  }

  function Data(heap: map<Addr, Cell>, xs: seq<Addr>): seq<Record> {
    if xs == [] then [] else (if xs[0] in heap then [heap[xs[0]].data] else []) + Data(heap, xs[1..])
  }

  function Rev<T>(xs: seq<T>): seq<T> {
    if xs == [] then [] else Rev(xs[1..]) + [xs[0]]
  }

  predicate Distinct(xs: seq<Addr>) {
    forall i, j :: 0 <= i < j < |xs| ==> xs[i] != xs[j]
  }

  /** Lists that a change of memory does not touch are as before. */
  lemma {:induction false} ChainFrame(h: map<Addr, Cell>, h': map<Addr, Cell>, p: Addr, xs: seq<Addr>)
    requires Chain(h, p, xs) && forall a :: a in xs ==> a in h' && a in h && h'[a] == h[a]
    ensures Chain(h', p, xs) && Data(h', xs) == Data(h, xs)
    decreases |xs|
  {
    if xs != [] {
      ChainFrame(h, h', h[p].next, xs[1..]);
    }
  }

  lemma {:induction false} DataFrame(h: map<Addr, Cell>, h': map<Addr, Cell>, xs: seq<Addr>)
    requires forall a :: a in xs ==> (a in h <==> a in h') && (a in h ==> h'[a].data == h[a].data)
    ensures Data(h', xs) == Data(h, xs)
    decreases |xs|
  {
    if xs != [] {
      DataFrame(h, h', xs[1..]);
    }
  }

  lemma {:induction false} ChainInHeap(h: map<Addr, Cell>, p: Addr, xs: seq<Addr>)
    requires Chain(h, p, xs)
    ensures forall a :: a in xs ==> a in h && a != NULL
    decreases |xs|
  {
    if xs != [] {
      ChainInHeap(h, h[p].next, xs[1..]);
    }
  }

  // ---------------------------------------------------------------- the invariant

  /** What the drainer has taken and not yet written, in the order in which it will be. */
  function Unwritten(st: State): seq<Record> {
    if PcOf(st, st.owner).Reversing? then Rev(Data(st.heap, st.front)) + Data(st.heap, st.back)
    else Data(st.heap, st.front)
  }

  predicate Conserved(st: State) {
    st.written + Unwritten(st) + Rev(Data(st.heap, st.stack)) == st.order
  }

  predicate Holds(pc: Pc) {
    pc.Locked? || pc.Loaded? || pc.Reversing? || pc.Writing?
  }

  predicate Drainer(st: State) {
    match PcOf(st, st.owner)
    case Reversing(prev, p) => Chain(st.heap, p, st.front) && Chain(st.heap, prev, st.back)
    case Writing(p) => Chain(st.heap, p, st.front) && st.back == []
    case _ => st.front == [] && st.back == []
  }

  function Nodes(st: State): seq<Addr> {
    st.stack + st.front + st.back
  }

  /** A node that is still being pushed belongs to its thread alone. */
  predicate Private(st: State, t: Thread) {
    PcOf(st, t).Pushing? ==>
      var a := PcOf(st, t).node;
      && a in st.heap && a != NULL && a !in Nodes(st)
      && forall u :: u in st.pcs && u != t && PcOf(st, u).Pushing? ==> PcOf(st, u).node != a
  }

  ghost predicate Inv(st: State) {
    && NO_ONE !in st.pcs
    && Chain(st.heap, st.head, st.stack)
    && Drainer(st)
    && Distinct(Nodes(st))
    && (forall t :: t in st.pcs ==> (Holds(st.pcs[t]) <==> t == st.owner))
    && (st.owner != NO_ONE ==> st.owner in st.pcs)
    && (forall t :: t in st.pcs ==> Private(st, t))
    && Conserved(st)
  }

  // ---------------------------------------------------------------- every event keeps it

  /** The nodes of all lists are in memory. */
  lemma NodesInHeap(st: State)
    requires Chain(st.heap, st.head, st.stack) && Drainer(st)
    ensures forall a :: a in Nodes(st) ==> a in st.heap && a != NULL
  {
    ChainInHeap(st.heap, st.head, st.stack);
    match PcOf(st, st.owner) {
      case Reversing(prev, p) =>
        ChainInHeap(st.heap, p, st.front);
        ChainInHeap(st.heap, prev, st.back);
      case Writing(p) => ChainInHeap(st.heap, p, st.front);
      case _ =>
    }
  }

  /** Memory may change outside the lists. */
  lemma OutsideChains(st: State, h: map<Addr, Cell>)
    requires Chain(st.heap, st.head, st.stack) && Drainer(st)
    requires forall a :: a in Nodes(st) ==> a in st.heap && a in h && h[a] == st.heap[a]
    ensures Chain(h, st.head, st.stack) && Drainer(st.(heap := h))
    ensures Data(h, st.stack) == Data(st.heap, st.stack) && Data(h, st.front) == Data(st.heap, st.front)
    ensures Data(h, st.back) == Data(st.heap, st.back)
  {
    assert forall a :: a in st.stack || a in st.front || a in st.back ==> a in Nodes(st);
    ChainFrame(st.heap, h, st.head, st.stack);
    DataFrame(st.heap, h, st.front);
    DataFrame(st.heap, h, st.back);
    match PcOf(st, st.owner) {
      case Reversing(prev, p) =>
        ChainFrame(st.heap, h, p, st.front);
        ChainFrame(st.heap, h, prev, st.back);
      case Writing(p) => ChainFrame(st.heap, h, p, st.front);
      case _ =>
    }
  }

  lemma OutsideLists(st: State, h: map<Addr, Cell>)
    requires Chain(st.heap, st.head, st.stack) && Drainer(st) && Conserved(st)
    requires forall a :: a in Nodes(st) && a in st.heap ==> a in h && h[a] == st.heap[a]
    ensures var st' := st.(heap := h); Chain(h, st.head, st.stack) && Drainer(st') && Conserved(st')
  {
    NodesInHeap(st);
    OutsideChains(st, h);
  }

  /** A thread that does not hold the lock moves between states that do not hold it. */
  lemma OtherMoves(st: State, t: Thread, pc: Pc)
    requires t != NO_ONE && t != st.owner && !Holds(pc) && NO_ONE !in st.pcs
    requires Chain(st.heap, st.head, st.stack) && Drainer(st) && Distinct(Nodes(st)) && Conserved(st)
    requires (forall u :: u in st.pcs && u != t ==> (Holds(st.pcs[u]) <==> u == st.owner)) && (st.owner != NO_ONE ==> st.owner in st.pcs)
    requires forall u :: u in Go(st, t, pc).pcs ==> Private(Go(st, t, pc), u)
    ensures Inv(Go(st, t, pc))
  {
  }

  lemma BeginKeeps(st: State, t: Thread, d: Record, at: Addr)
    requires Inv(st) && Enabled(st, Begin(t, d, at))
    ensures Inv(Step(st, Begin(t, d, at)))
  {
    NodesInHeap(st);
    var st1 := st.(heap := st.heap[at := Cell(d, st.head)]);
    OutsideLists(st, st1.heap);
    var st' := Go(st1, t, Pushing(at));
    forall u | u in st'.pcs ensures Private(st', u) {
      if u != t {
        assert Private(st, u);
      }
    }
    OtherMoves(st1, t, Pushing(at));
  }

  lemma RevOne<T>(x: T, xs: seq<T>)
    ensures Rev([x] + xs) == Rev(xs) + [x]
  {
    assert ([x] + xs)[1..] == xs;
  }

  lemma DataOne(h: map<Addr, Cell>, a: Addr, xs: seq<Addr>)
    requires a in h
    ensures Data(h, [a] + xs) == [h[a].data] + Data(h, xs)
  {
    assert ([a] + xs)[1..] == xs;
  }

  lemma DistinctMore(a: Addr, xs: seq<Addr>)
    requires Distinct(xs) && a !in xs
    ensures Distinct([a] + xs)
  {
  }

  lemma PushedConserves(st: State, st1: State, a: Addr)
    requires Conserved(st) && a in st.heap
    requires st1 == st.(head := a, stack := [a] + st.stack, order := st.order + [st.heap[a].data])
    ensures Conserved(st1)
  {
    DataOne(st.heap, a, st.stack);
    RevOne(st.heap[a].data, Data(st.heap, st.stack));
    assert Unwritten(st1) == Unwritten(st);
  }

  lemma PushedKeeps(st: State, t: Thread, a: Addr)
    requires Inv(st) && t in st.pcs && st.pcs[t] == Pushing(a) && st.heap[a].next == st.head
    ensures Inv(PushStep(st, t, a, false))
  {
    assert Private(st, t);
    var st1 := st.(head := a, stack := [a] + st.stack, order := st.order + [st.heap[a].data]);
    assert st1.stack[1..] == st.stack;
    PushedConserves(st, st1, a);
    assert Nodes(st1) == [a] + Nodes(st);
    DistinctMore(a, Nodes(st));
    var st' := Go(st1, t, Seeking);
    forall u | u in st'.pcs ensures Private(st', u) {
      if u != t {
        assert Private(st, u);
      }
    }
    OtherMoves(st1, t, Seeking);
  }

  lemma RetryKeeps(st: State, t: Thread, a: Addr)
    requires Inv(st) && t in st.pcs && st.pcs[t] == Pushing(a)
    ensures Inv(st.(heap := st.heap[a := Cell(st.heap[a].data, st.head)]))
  {
    assert Private(st, t);
    var st' := st.(heap := st.heap[a := Cell(st.heap[a].data, st.head)]);
    OutsideLists(st, st'.heap);
    forall u | u in st'.pcs ensures Private(st', u) {
      assert Private(st, u);
    }
  }

  lemma LockKeeps(st: State, t: Thread)
    requires Inv(st) && Enabled(st, TryLock(t))
    ensures Inv(Step(st, TryLock(t)))
  {
    var st' := Step(st, TryLock(t));
    forall u | u in st'.pcs ensures Private(st', u) {
      if u != t {
        assert Private(st, u);
      }
    }
    if st.owner == NO_ONE {
      assert Unwritten(st') == Unwritten(st) && Nodes(st') == Nodes(st);
      assert forall u :: u in st'.pcs ==> (Holds(st'.pcs[u]) <==> u == t);
    } else {
      OtherMoves(st, t, Idle);
    }
  }

  /** The drainer's own steps: everything but the private nodes. */
  lemma DrainerMoves(st: State, st': State)
    requires Inv(st) && st.owner != NO_ONE
    requires Chain(st'.heap, st'.head, st'.stack) && Drainer(st') && Distinct(Nodes(st')) && Conserved(st')
    requires st'.pcs == st.pcs[st.owner := PcOf(st', st.owner)] && !PcOf(st', st.owner).Pushing?
    requires if Holds(PcOf(st', st.owner)) then st'.owner == st.owner else st'.owner == NO_ONE
    requires forall a :: a in Nodes(st') ==> a in Nodes(st)
    requires forall a :: a in st.heap && a !in Nodes(st) ==> a in st'.heap
    ensures Inv(st')
  {
    forall u | u in st'.pcs ensures Private(st', u) {
      if u != st.owner {
        assert Private(st, u);
      }
    }
  }

  lemma LoadKeeps(st: State, t: Thread)
    requires Inv(st) && Enabled(st, Load(t))
    ensures Inv(Step(st, Load(t)))
  {
    DrainerMoves(st, Step(st, Load(t)));
  }

  /** The whole stack is taken. */
  lemma TakenKeeps(st: State, t: Thread, p: Addr)
    requires Inv(st) && t in st.pcs && st.pcs[t] == Loaded(p) && p != NULL && st.head == p
    ensures Inv(TakeStep(st, t, p, false))
  {
    var st' := TakeStep(st, t, p, false);
    assert t == st.owner && st.front == [] && st.back == [];
    assert Nodes(st) == st.stack && Nodes(st') == st.stack;
    var d := Rev(Data(st.heap, st.stack));
    assert Data(st.heap, []) == [] && Rev<Record>([]) == [];
    assert Unwritten(st) == [] && Unwritten(st') == d;
    assert st.written + [] + d == st.written + d + [];
    DrainerMoves(st, st');
  }

  lemma TakeKeeps(st: State, t: Thread, spurious: bool)
    requires Inv(st) && Enabled(st, Take(t, spurious))
    ensures Inv(Step(st, Take(t, spurious)))
  {
    var p := PcOf(st, t).p;
    if p != NULL && !spurious && st.head == p {
      TakenKeeps(st, t, p);
    } else {
      var st' := Step(st, Take(t, spurious));
      assert t == st.owner && st.front == [] && st.back == [];
      assert Unwritten(st') == Unwritten(st) && Nodes(st') == Nodes(st);
      DrainerMoves(st, st');
    }
  }

  lemma ReverseKeeps(st: State, t: Thread, prev: Addr, p: Addr)
    requires Inv(st) && t in st.pcs && st.pcs[t] == Reversing(prev, p) && p != NULL
    ensures p in st.heap && Inv(ReverseStep(st, t, prev, p))
  {
    var st', rest := ReverseStep(st, t, prev, p), st.front[1..];
    assert st.front == [p] + rest;
    var h, h' := st.heap, st'.heap;
    NodesInHeap(st);
    assert p !in rest && p !in st.back && p !in st.stack by { DistinctParts(st.stack, st.front, st.back, p); }
    ChainFrame(h, h', h[p].next, rest);
    ChainFrame(h, h', prev, st.back);
    ChainFrame(h, h', st.head, st.stack);
    assert st'.back[1..] == st.back;
    DataOne(h, p, rest);
    DataOne(h', p, st.back);
    RevOne(h[p].data, Data(h, rest));
    assert Unwritten(st') == Unwritten(st);
    Reordered(st.stack, rest, st.back, p);
    DrainerMoves(st, st');
  }

  lemma DistinctParts(a: seq<Addr>, b: seq<Addr>, c: seq<Addr>, p: Addr)
    requires Distinct(a + b + c) && b != [] && b[0] == p
    ensures p !in b[1..] && p !in c && p !in a
  {
    var xs := a + b + c;
    assert xs[|a|] == p;
    forall i | 0 <= i < |b[1..]| ensures b[1..][i] != p {
      assert xs[|a| + 1 + i] == b[1..][i];
    }
    forall i | 0 <= i < |c| ensures c[i] != p {
      assert xs[|a| + |b| + i] == c[i];
    }
    forall i | 0 <= i < |a| ensures a[i] != p {
      assert xs[i] == a[i];
    }
  }

  lemma Reordered(a: seq<Addr>, rest: seq<Addr>, c: seq<Addr>, p: Addr)
    requires Distinct(a + ([p] + rest) + c)
    ensures Distinct(a + rest + ([p] + c))
    ensures forall x :: x in a + rest + ([p] + c) <==> x in a + ([p] + rest) + c
  {
    var xs, ys := a + ([p] + rest) + c, a + rest + ([p] + c);
    forall i, j | 0 <= i < j < |ys| ensures ys[i] != ys[j] {
      var i', j' := Moved(|a|, |rest|, i), Moved(|a|, |rest|, j);
      assert ys[i] == xs[i'] && ys[j] == xs[j'] && i' != j';
    }
  }

  /** Where an element of the reordered list came from. */
  function Moved(a: nat, rest: nat, i: nat): nat {
    if i < a then i else if i < a + rest then i + 1 else if i == a + rest then a else i
  }

  lemma ReversedKeeps(st: State, t: Thread, prev: Addr)
    requires Inv(st) && t in st.pcs && st.pcs[t] == Reversing(prev, NULL)
    ensures Inv(ReverseStep(st, t, prev, NULL))
  {
    var st' := ReverseStep(st, t, prev, NULL);
    assert t == st.owner && st.front == [];
    assert Nodes(st') == Nodes(st) == st.stack + st.back;
    assert Unwritten(st') == Unwritten(st) by {
      assert Data(st.heap, []) == [] && Rev<Record>([]) == [];
      assert [] + Data(st.heap, st.back) == Data(st.heap, st.back);
    }
    DrainerMoves(st, st');
  }

  /** Writing the first record of the drainer's list. */
  lemma WriteMoves(st: State, t: Thread, p: Addr, rest: seq<Addr>)
    requires Chain(st.heap, st.head, st.stack) && Drainer(st) && Conserved(st) && t == st.owner
    requires t in st.pcs && st.pcs[t] == Writing(p) && p != NULL && st.front == [p] + rest && st.back == []
    requires p in st.heap && p !in rest && p !in st.stack
    ensures var st' := WriteStep(st, t, p);
            Chain(st'.heap, st'.head, st'.stack) && Drainer(st') && Conserved(st') && st'.front == rest
  {
    var st' := WriteStep(st, t, p);
    var h, h' := st.heap, st'.heap;
    assert st.front[1..] == rest;
    ChainInHeap(h, p, st.front);
    ChainInHeap(h, st.head, st.stack);
    ChainFrame(h, h', h[p].next, rest);
    ChainFrame(h, h', st.head, st.stack);
    DataOne(h, p, rest);
    assert Unwritten(st) == [h[p].data] + Unwritten(st');
  }

  lemma WriteKeeps(st: State, t: Thread, p: Addr)
    requires Inv(st) && t in st.pcs && st.pcs[t] == Writing(p) && p != NULL
    ensures p in st.heap && Inv(WriteStep(st, t, p))
  {
    var rest := st.front[1..];
    assert st.front == [p] + rest && st.back == [] && t == st.owner;
    DistinctParts(st.stack, st.front, st.back, p);
    WriteMoves(st, t, p, rest);
    var st' := WriteStep(st, t, p);
    assert Nodes(st) == st.stack + ([p] + rest) && Nodes(st') == st.stack + rest;
    Dropped(st.stack, rest, p);
    DrainerMoves(st, st');
  }

  lemma Dropped(a: seq<Addr>, rest: seq<Addr>, p: Addr)
    requires Distinct(a + ([p] + rest))
    ensures Distinct(a + rest)
    ensures forall x :: x in a + rest ==> x in a + ([p] + rest)
    ensures forall x :: x in a + ([p] + rest) ==> x in a + rest || x == p
  {
    var xs, ys := a + ([p] + rest), a + rest;
    forall i, j | 0 <= i < j < |ys| ensures ys[i] != ys[j] {
      assert ys[i] == xs[if i < |a| then i else i + 1] && ys[j] == xs[if j < |a| then j else j + 1];
    }
  }

  lemma WrittenKeeps(st: State, t: Thread)
    requires Inv(st) && t in st.pcs && st.pcs[t] == Writing(NULL)
    ensures Inv(WriteStep(st, t, NULL))
  {
    assert st.front == [];
    DrainerMoves(st, WriteStep(st, t, NULL));
  }

  lemma StepKeeps(st: State, ev: Event)
    requires Inv(st)
    ensures Inv(Step(st, ev))
  {
    if Enabled(st, ev) {
      var pc := PcOf(st, ev.t);
      match ev {
        case Begin(t, d, at) => BeginKeeps(st, t, d, at);
        case Push(t, spurious) =>
          if !spurious && st.head == st.heap[pc.node].next {
            PushedKeeps(st, t, pc.node);
          } else {
            RetryKeeps(st, t, pc.node);
          }
        case TryLock(t) => LockKeeps(st, t);
        case Load(t) => LoadKeeps(st, t);
        case Take(t, spurious) => TakeKeeps(st, t, spurious);
        case Reverse(t) =>
          if pc.p == NULL {
            ReversedKeeps(st, t, pc.prev);
          } else {
            ReverseKeeps(st, t, pc.prev, pc.p);
          }
        case Write(t) =>
          if pc.p == NULL {
            WrittenKeeps(st, t);
          } else {
            WriteKeeps(st, t, pc.p);
          }
      }
    }
  }

  /** In every state of every run, what was written, what was taken and not yet written, and the
      stack read backwards make up all records in compare-exchange order. */
  lemma {:induction false} ExecKeeps(st: State, evs: seq<Event>)
    requires Inv(st)
    ensures Inv(Exec(st, evs))
    decreases |evs|
  {
    if evs != [] {
      StepKeeps(st, evs[0]);
      ExecKeeps(Step(st, evs[0]), evs[1..]);
    }
  }

  lemma InitOk()
    ensures Inv(INIT)
  {
  }

  /** All runs, from the beginning. */
  lemma NothingIsLost(evs: seq<Event>)
    ensures var st := Exec(INIT, evs);
            st.written + Unwritten(st) + Rev(Data(st.heap, st.stack)) == st.order
  {
    InitOk();
    ExecKeeps(INIT, evs);
  }

  /** The drainer never follows a pointer to a node that has been freed. */
  lemma NoDangling(st: State, t: Thread)
    requires Inv(st) && t in st.pcs
    ensures st.pcs[t].Reversing? || st.pcs[t].Writing? ==> st.pcs[t].p == NULL || st.pcs[t].p in st.heap
    ensures st.pcs[t].Pushing? ==> st.pcs[t].node in st.heap
  {
    assert Private(st, t);
  }

  // ---------------------------------------------------------------- the destructor

  predicate Quiet(st: State) {
    st.owner == NO_ONE && forall t :: t in st.pcs ==> st.pcs[t].Idle?
  }

  /** The destructor runs do_work until it finds nothing, when no other thread is left; afterwards
      every record has been written exactly once, in order, and every node has been freed. */
  method Destruct(st0: State, t: Thread) returns (st: State)
    requires Inv(st0) && Quiet(st0) && t != NO_ONE
    ensures Inv(st) && st.written == st.order && st.order == st0.order && st.stack == [] && st.head == NULL
  {
    st := Go(st0, t, Seeking);
    SeekKeeps(st0, t);
    var more := true;
    while more
      invariant Inv(st) && st.order == st0.order && t in st.pcs
      invariant more ==> st.pcs[t] == Seeking && st.owner == NO_ONE
      invariant !more ==> st.stack == [] && st.front == [] && st.back == [] && st.owner == NO_ONE && st.head == NULL
      decreases |st.stack|, more
    {
      st, more := DoWork(st, t);
    }
    assert Data(st.heap, []) == [] && Rev<Record>([]) == [];
  }

  lemma SeekKeeps(st: State, t: Thread)
    requires Inv(st) && Quiet(st) && t != NO_ONE
    ensures Inv(Go(st, t, Seeking))
  {
    var st' := Go(st, t, Seeking);
    forall u | u in st'.pcs ensures Private(st', u) {
      if u != t {
        assert Private(st, u);
      }
    }
  }

  /** One call of do_work by a thread that has no competitor: false when there was nothing to do. */
  method DoWork(st0: State, t: Thread) returns (st: State, worked: bool)
    requires Inv(st0) && t != NO_ONE && t in st0.pcs && st0.pcs[t] == Seeking && st0.owner == NO_ONE
    ensures Inv(st) && st.order == st0.order && t in st.pcs && st.owner == NO_ONE && st.front == [] && st.back == []
    ensures st.stack == [] && st.head == NULL
    ensures worked ==> st0.stack != [] && st.pcs[t] == Seeking
  {
    StepKeeps(st0, TryLock(t));
    st := Step(st0, TryLock(t));
    StepKeeps(st, Load(t));
    st := Step(st, Load(t));
    var p := st.head;
    StepKeeps(st, Take(t, false));
    st := Step(st, Take(t, false));
    if p == NULL {
      return st, false;
    }
    while st.pcs[t].Reversing?
      invariant Inv(st) && st.order == st0.order && t in st.pcs && st.owner == t && st.stack == []
      invariant st.pcs[t].Reversing? || st.pcs[t].Writing?
      decreases st.pcs[t].Reversing?, |st.front|
    {
      ReverseStepsOn(st, t);
      st := Step(st, Reverse(t));
    }
    while st.pcs[t].Writing?
      invariant Inv(st) && st.order == st0.order && t in st.pcs && st.stack == []
      invariant st.pcs[t].Writing? || (st.pcs[t] == Seeking && st.owner == NO_ONE && st.front == [] && st.back == [])
      decreases st.pcs[t].Writing?, |st.front|
    {
      WriteStepsOn(st, t);
      st := Step(st, Write(t));
    }
    worked := true;
  }

  lemma ReverseStepsOn(st: State, t: Thread)
    requires Inv(st) && t != NO_ONE && t in st.pcs && st.pcs[t].Reversing?
    ensures var st' := Step(st, Reverse(t));
            && Inv(st') && t in st'.pcs && st'.stack == st.stack && st'.order == st.order && st'.owner == st.owner
            && (st'.pcs[t].Writing? || (st'.pcs[t].Reversing? && |st'.front| < |st.front|))
  {
    StepKeeps(st, Reverse(t));
    var p := st.pcs[t].p;
    assert p != NULL ==> st.front != [];
  }

  lemma WriteStepsOn(st: State, t: Thread)
    requires Inv(st) && t != NO_ONE && t in st.pcs && st.pcs[t].Writing?
    ensures var st' := Step(st, Write(t));
            && Inv(st') && t in st'.pcs && st'.stack == st.stack && st'.order == st.order
            && (if st'.pcs[t].Writing? then |st'.front| < |st.front|
                else st'.pcs[t] == Seeking && st'.owner == NO_ONE && st'.front == [] && st'.back == [])
  {
    StepKeeps(st, Write(t));
    var p := st.pcs[t].p;
    assert p != NULL ==> st.front != [];
  }

  // ---------------------------------------------------------------- records may wait

  const FIRST := [Begin(1, 7, 10), Push(1, false), TryLock(1), Load(1), Take(1, false)]
  const SECOND := [Reverse(1), Reverse(1), Write(1), Write(1), TryLock(1), Load(1)]
  const LAST := [Begin(2, 8, 10), Push(2, false), TryLock(2), Take(1, false)]

  /** A record can be left on the stack when all threads have returned: its thread found the lock
      taken by one that had already seen an empty stack.  Here thread 1 pushes 7 and drains it, sees
      an empty stack, and pauses; thread 2 pushes 8, fails to get the lock and returns; then thread
      1 returns. */
  lemma RecordCanWait() returns (evs: seq<Event>)
    ensures var st := Exec(INIT, evs);
            Quiet(st) && st.stack != [] && st.written == [7] && st.order == [7, 8]
  {
    evs := FIRST + (SECOND + LAST);
    ExecSplits(INIT, FIRST, SECOND + LAST);
    ExecSplits(TAKEN, SECOND, LAST);
    FirstPart();
    SecondPart();
    LastPart();
  }

  lemma {:induction false} ExecSplits(st: State, a: seq<Event>, b: seq<Event>)
    ensures Exec(st, a + b) == Exec(Exec(st, a), b)
    decreases |a|
  {
    if a == [] {
      assert a + b == b;
    } else {
      assert (a + b)[1..] == a[1..] + b;
      ExecSplits(Step(st, a[0]), a[1..], b);
    }
  }

  lemma ExecOne(st: State, evs: seq<Event>, i: nat)
    requires i < |evs|
    ensures Exec(st, evs[i..]) == Exec(Step(st, evs[i]), evs[i + 1..])
  {
    assert evs[i..][1..] == evs[i + 1..];
  }

  const TAKEN := State(map[10 := Cell(7, NULL)], NULL, 1, map[1 := Reversing(NULL, 10)], [], [7], [], [10], [])
  const DRAINED := State(map[], NULL, 1, map[1 := Loaded(NULL)], [7], [7], [], [], [])

  lemma FirstPart()
    ensures Exec(INIT, FIRST) == TAKEN
  {
    var s1 := INIT.(heap := map[10 := Cell(7, NULL)], pcs := map[1 := Pushing(10)]);
    var s2 := s1.(head := 10, pcs := map[1 := Seeking], order := [7], stack := [10]);
    var s3 := s2.(owner := 1, pcs := map[1 := Locked]);
    var s4 := s3.(pcs := map[1 := Loaded(10)]);
    assert Step(INIT, FIRST[0]) == s1;
    assert Step(s1, FIRST[1]) == s2;
    assert Step(s2, FIRST[2]) == s3;
    assert Step(s3, FIRST[3]) == s4;
    assert Step(s4, FIRST[4]) == TAKEN;
    ExecOne(INIT, FIRST, 0);
    ExecOne(s1, FIRST, 1);
    ExecOne(s2, FIRST, 2);
    ExecOne(s3, FIRST, 3);
    ExecOne(s4, FIRST, 4);
    assert FIRST[0..] == FIRST && FIRST[5..] == [];
  }

  lemma SecondPart()
    ensures Exec(TAKEN, SECOND) == DRAINED
  {
    var s1 := TAKEN.(pcs := map[1 := Reversing(10, NULL)], front := [], back := [10]);
    var s2 := s1.(pcs := map[1 := Writing(10)], front := [10], back := []);
    var s3 := s2.(heap := map[], pcs := map[1 := Writing(NULL)], front := [], written := [7]);
    var s4 := s3.(owner := NO_ONE, pcs := map[1 := Seeking]);
    var s5 := s4.(owner := 1, pcs := map[1 := Locked]);
    assert Step(TAKEN, SECOND[0]) == s1;
    assert Step(s1, SECOND[1]) == s2;
    assert Step(s2, SECOND[2]) == s3;
    assert Step(s3, SECOND[3]) == s4;
    assert Step(s4, SECOND[4]) == s5;
    assert Step(s5, SECOND[5]) == DRAINED;
    ExecOne(TAKEN, SECOND, 0);
    ExecOne(s1, SECOND, 1);
    ExecOne(s2, SECOND, 2);
    ExecOne(s3, SECOND, 3);
    ExecOne(s4, SECOND, 4);
    ExecOne(s5, SECOND, 5);
    assert SECOND[0..] == SECOND && SECOND[6..] == [];
  }

  lemma LastPart()
    ensures var st := Exec(DRAINED, LAST);
            Quiet(st) && st.stack == [10] && st.written == [7] && st.order == [7, 8]
  {
    var s1 := DRAINED.(heap := map[10 := Cell(8, NULL)], pcs := map[1 := Loaded(NULL), 2 := Pushing(10)]);
    var s2 := s1.(head := 10, pcs := map[1 := Loaded(NULL), 2 := Seeking], stack := [10], order := [7, 8]);
    var s3 := s2.(pcs := map[1 := Loaded(NULL), 2 := Idle]);
    var s4 := s3.(owner := NO_ONE, pcs := map[1 := Idle, 2 := Idle]);
    assert Step(DRAINED, LAST[0]) == s1;
    assert Step(s1, LAST[1]) == s2;
    assert Step(s2, LAST[2]) == s3;
    assert Step(s3, LAST[3]) == s4;
    ExecOne(DRAINED, LAST, 0);
    ExecOne(s1, LAST, 1);
    ExecOne(s2, LAST, 2);
    ExecOne(s3, LAST, 3);
    assert LAST[0..] == LAST && LAST[4..] == [];
  }

  // ---------------------------------------------------------------- when a record waits, exactly

  /** The thread will look at the stack again before it returns, or has its records in hand. */
  predicate WillLook(pc: Pc) {
    pc.Seeking? || pc.Locked? || (pc.Loaded? && pc.p != NULL) || pc.Reversing? || pc.Writing?
  }

  /** The thread fails to get the lock from one that has already seen an empty stack, while the stack
      is not empty any more. */
  predicate ComesLate(st: State, ev: Event) {
    Enabled(st, ev) && ev.TryLock? && st.owner != NO_ONE && PcOf(st, st.owner) == Loaded(NULL) && st.head != NULL
  }

  predicate TakesAll(st: State, ev: Event) {
    Enabled(st, ev) && ev.Take? && !ev.spurious && PcOf(st, ev.t).p != NULL && st.head == PcOf(st, ev.t).p
  }

  /** Whether some thread came late since the stack was last taken, over a run. */
  function LeftBehind(st: State, evs: seq<Event>, left: bool): bool
    decreases |evs|
  {
    if evs == [] then left else LeftBehind(Step(st, evs[0]), evs[1..], NowLeft(st, evs[0], left))
  }

  function NowLeft(st: State, ev: Event, left: bool): bool {
    if ComesLate(st, ev) then true else if TakesAll(st, ev) then false else left
  }

  /** A record on the stack has a thread that will look at it, or was left behind; and what was left
      behind is still there. */
  ghost predicate Minded(st: State, left: bool) {
    && (st.head != NULL ==> left || exists t :: t in st.pcs && WillLook(st.pcs[t]))
    && (left ==> st.head != NULL)
  }

  lemma OthersLook(st: State, st': State, t: Thread, u: Thread)
    requires u in st.pcs && WillLook(st.pcs[u]) && u != t && st'.pcs == st.pcs[t := PcOf(st', t)]
    ensures exists v :: v in st'.pcs && WillLook(st'.pcs[v])
  {
    assert u in st'.pcs && st'.pcs[u] == st.pcs[u];
  }

  lemma SelfLooks(st': State, t: Thread)
    requires t in st'.pcs && WillLook(st'.pcs[t])
    ensures exists v :: v in st'.pcs && WillLook(st'.pcs[v])
  {
  }

  /** If the thread that moves still looks afterwards, or did not look before, then someone looks. */
  lemma MovesMinded(st: State, st': State, t: Thread, left: bool)
    requires Minded(st, left) && st'.head == st.head && t in st'.pcs && st'.pcs == st.pcs[t := st'.pcs[t]]
    requires st.head != NULL ==> WillLook(st'.pcs[t]) || !WillLook(PcOf(st, t))
    ensures Minded(st', left)
  {
    if st.head != NULL && !left {
      var u :| u in st.pcs && WillLook(st.pcs[u]);
      if u == t {
        SelfLooks(st', t);
      } else {
        OthersLook(st, st', t, u);
      }
    }
  }

  lemma PushMinded(st: State, t: Thread, spurious: bool, left: bool)
    requires Inv(st) && Minded(st, left) && Enabled(st, Push(t, spurious))
    ensures Minded(Step(st, Push(t, spurious)), left)
  {
    var a, st' := PcOf(st, t).node, Step(st, Push(t, spurious));
    assert Private(st, t);
    if !spurious && st.head == st.heap[a].next {
      SelfLooks(st', t);
    } else {
      assert st'.pcs == st.pcs && st'.head == st.head;
    }
  }

  lemma LockMinded(st: State, t: Thread, left: bool)
    requires Inv(st) && Minded(st, left) && Enabled(st, TryLock(t))
    ensures Minded(Step(st, TryLock(t)), NowLeft(st, TryLock(t), left))
  {
    var st' := Step(st, TryLock(t));
    if st.owner == NO_ONE {
      MovesMinded(st, st', t, left);
    } else if st.head != NULL && PcOf(st, st.owner) != Loaded(NULL) {
      OthersLook(st, st', t, st.owner);
    }
  }

  lemma TakeMinded(st: State, t: Thread, spurious: bool, left: bool)
    requires Inv(st) && Minded(st, left) && Enabled(st, Take(t, spurious))
    ensures Minded(Step(st, Take(t, spurious)), NowLeft(st, Take(t, spurious), left))
  {
    var st', p := Step(st, Take(t, spurious)), PcOf(st, t).p;
    if !(p != NULL && !spurious && st.head == p) {
      MovesMinded(st, st', t, left);
    }
  }

  lemma StepMinded(st: State, ev: Event, left: bool)
    requires Inv(st) && Minded(st, left)
    ensures Minded(Step(st, ev), NowLeft(st, ev, left))
  {
    if Enabled(st, ev) {
      match ev {
        case Push(t, spurious) => PushMinded(st, t, spurious, left);
        case TryLock(t) => LockMinded(st, t, left);
        case Take(t, spurious) => TakeMinded(st, t, spurious, left);
        case _ => MovesMinded(st, Step(st, ev), ev.t, left);
      }
    }
  }

  lemma {:induction false} ExecMinded(st: State, evs: seq<Event>, left: bool)
    requires Inv(st) && Minded(st, left)
    ensures Minded(Exec(st, evs), LeftBehind(st, evs, left))
    decreases |evs|
  {
    if evs != [] {
      StepMinded(st, evs[0], left);
      StepKeeps(st, evs[0]);
      ExecMinded(Step(st, evs[0]), evs[1..], NowLeft(st, evs[0], left));
    }
  }

  /** In every run, when all threads have returned there are records left on the stack if and only if,
      since it was last taken, some thread failed to get the lock from one that had already seen an
      empty stack. */
  lemma RecordsWaitIff(evs: seq<Event>)
    requires Quiet(Exec(INIT, evs))
    ensures Exec(INIT, evs).stack != [] <==> LeftBehind(INIT, evs, false)
  {
    InitOk();
    ExecKeeps(INIT, evs);
    ExecMinded(INIT, evs, false);
  }

  /** No thread comes late in the run. */
  predicate InTime(st: State, evs: seq<Event>)
    decreases |evs|
  {
    evs == [] || (!ComesLate(st, evs[0]) && InTime(Step(st, evs[0]), evs[1..]))
  }

  lemma {:induction false} InTimeLeavesNone(st: State, evs: seq<Event>)
    requires InTime(st, evs)
    ensures !LeftBehind(st, evs, false)
    decreases |evs|
  {
    if evs != [] {
      InTimeLeavesNone(Step(st, evs[0]), evs[1..]);
    }
  }

  /** In every run in which no thread comes late, all records have been written once all threads have
      returned. */
  lemma AllWrittenInTime(evs: seq<Event>)
    requires Quiet(Exec(INIT, evs)) && InTime(INIT, evs)
    ensures var st := Exec(INIT, evs); st.stack == [] && st.written == st.order
  {
    InTimeLeavesNone(INIT, evs);
    RecordsWaitIff(evs);
    InitOk();
    ExecKeeps(INIT, evs);
    var st := Exec(INIT, evs);
    assert st.front == [] && Data(st.heap, []) == [] && Rev<Record>([]) == [];
  }
}
