/**
 Every record that a thread sets out to push gets its place in the order of the trace log exactly
 once, as soon as its compare-exchange succeeds.
 */
module TraceCount {
  import opened TraceLog

  /** The threads that are about to push the record d. */
  function PushingOf(st: State, d: Record): set<Thread> {
    set t | t in st.pcs && st.pcs[t].Pushing? && st.pcs[t].node in st.heap && st.heap[st.pcs[t].node].data == d
  }

  /** What an event sets out to push. */
  function BegunBy(st: State, ev: Event): seq<Record> {
    if Enabled(st, ev) && ev.Begin? then [ev.data] else []
  }

  function Begun(st: State, evs: seq<Event>): seq<Record>
    decreases |evs|
  {
    if evs == [] then [] else BegunBy(st, evs[0]) + Begun(Step(st, evs[0]), evs[1..])
  }

  lemma BeginCounts(st: State, t: Thread, r: Record, at: Addr, d: Record)
    requires Inv(st) && Enabled(st, Begin(t, r, at))
    ensures PushingOf(Step(st, Begin(t, r, at)), d) == PushingOf(st, d) + (if d == r then {t} else {})
    ensures t !in PushingOf(st, d)
  {
    forall u | u in st.pcs && u != t ensures u in PushingOf(Step(st, Begin(t, r, at)), d) <==> u in PushingOf(st, d) {
      assert Private(st, u);
    }
  }

  lemma PushCounts(st: State, t: Thread, spurious: bool, d: Record)
    requires Inv(st) && Enabled(st, Push(t, spurious))
    ensures var st', r := Step(st, Push(t, spurious)), st.heap[PcOf(st, t).node].data;
            && (st'.order == st.order ==> PushingOf(st', d) == PushingOf(st, d))
            && (st'.order != st.order ==> st'.order == st.order + [r] && PushingOf(st', d) == PushingOf(st, d) - {t})
            && (t in PushingOf(st, d) <==> d == r)
  {
    var st' := Step(st, Push(t, spurious));
    forall u | u in st.pcs && u != t ensures u in PushingOf(st', d) <==> u in PushingOf(st, d) {
      assert Private(st, u) && Private(st, t);
    }
  }

  /** The others neither begin nor end a push, and leave the nodes being pushed alone. */
  lemma OthersCount(st: State, ev: Event, d: Record)
    requires Inv(st) && Enabled(st, ev) && !ev.Begin? && !ev.Push?
    ensures Step(st, ev).order == st.order && PushingOf(Step(st, ev), d) == PushingOf(st, d)
  {
    var st' := Step(st, ev);
    forall u | u in st.pcs ensures u in PushingOf(st', d) <==> u in PushingOf(st, d) {
      assert Private(st, u);
      if u != ev.t && st.pcs[u].Pushing? {
        NodeKept(st, ev, st.pcs[u].node);
      }
    }
    assert forall u :: u in PushingOf(st', d) ==> u in st.pcs;
  }

  lemma NodeKept(st: State, ev: Event, a: Addr)
    requires Inv(st) && Enabled(st, ev) && !ev.Begin? && !ev.Push? && a in st.heap && a !in Nodes(st)
    ensures a in Step(st, ev).heap && Step(st, ev).heap[a] == st.heap[a]
  {
    if (ev.Reverse? || ev.Write?) && PcOf(st, ev.t).p != NULL {
      assert Holds(st.pcs[ev.t]) && st.owner == ev.t;
      assert Chain(st.heap, PcOf(st, ev.t).p, st.front);
      assert PcOf(st, ev.t).p == st.front[0];
    }
  }

  /** How often a record occurs. */
  function Count(rs: seq<Record>, d: Record): nat {
    if rs == [] then 0 else (if rs[0] == d then 1 else 0) + Count(rs[1..], d)
  }

  lemma {:induction false} CountBoth(a: seq<Record>, b: seq<Record>, d: Record)
    ensures Count(a + b, d) == Count(a, d) + Count(b, d)
  {
    if a == [] {
      assert a + b == b;
    } else {
      assert (a + b)[1..] == a[1..] + b;
      CountBoth(a[1..], b, d);
    }
  }

  lemma CountOne(r: Record, d: Record)
    ensures Count([r], d) == if r == d then 1 else 0
  {
    assert [r][1..] == [];
  }

  /** What an event begins is what it adds to the order and to the threads about to push. */
  lemma StepCounts(st: State, ev: Event, d: Record)
    requires Inv(st)
    ensures var st' := Step(st, ev);
            Count(st.order, d) + |PushingOf(st, d)| + Count(BegunBy(st, ev), d) == Count(st'.order, d) + |PushingOf(st', d)|
  {
    if Enabled(st, ev) {
      match ev {
        case Begin(t, r, at) =>
          BeginCounts(st, t, r, at, d);
          CountOne(r, d);
        case Push(t, spurious) =>
          var r := st.heap[PcOf(st, t).node].data;
          PushCounts(st, t, spurious, d);
          CountBoth(st.order, [r], d);
          CountOne(r, d);
        case _ => OthersCount(st, ev, d);
      }
    }
  }

  lemma {:induction false} ExecCounts(st: State, evs: seq<Event>, d: Record)
    requires Inv(st)
    ensures var st' := Exec(st, evs);
            Count(st.order, d) + |PushingOf(st, d)| + Count(Begun(st, evs), d) == Count(st'.order, d) + |PushingOf(st', d)|
    decreases |evs|
  {
    if evs != [] {
      StepKeeps(st, evs[0]);
      StepCounts(st, evs[0], d);
      ExecCounts(Step(st, evs[0]), evs[1..], d);
      CountBoth(BegunBy(st, evs[0]), Begun(Step(st, evs[0]), evs[1..]), d);
    }
  }

  /** In every run: every record begun is in the order, or its thread is still about to push it, as often
      as it was begun; and when all threads have returned the order holds each as often as it was begun. */
  lemma EveryRecordCounts(evs: seq<Event>, d: Record)
    ensures var st := Exec(INIT, evs);
            && Count(Begun(INIT, evs), d) == Count(st.order, d) + |PushingOf(st, d)|
            && (Quiet(st) ==> Count(Begun(INIT, evs), d) == Count(st.order, d))
  {
    var st := Exec(INIT, evs);
    InitOk();
    ExecCounts(INIT, evs, d);
    assert PushingOf(INIT, d) == {};
    if Quiet(st) {
      assert PushingOf(st, d) == {};
    }
  }
}
