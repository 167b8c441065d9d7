/**
 Taking items off a byte stream as they become complete.  For any scanner that is not confused by
 bytes that come later, the items taken do not depend on how the stream is cut into chunks.
 */
module Stream {
  import opened Bytes
  import opened Cbor
  import opened CborLaws

  /** The first item of the bytes, or why there is none. */
  type Scanner = bytes -> Parse<bytes>

  /** More bytes change neither an item that is complete nor bytes that cannot start one. */
  ghost predicate Steady(scan: Scanner) {
    scan([]).TooShort? && (forall s :: Shrinks(scan, s)) && (forall s, t :: SteadyAt(scan, s, t))
  }

  predicate Shrinks(scan: Scanner, s: bytes) {
    scan(s).Ok? ==> |scan(s).rest| < |s|
  }

  predicate SteadyAt(scan: Scanner, s: bytes, t: bytes) {
    !scan(s).TooShort? ==> scan(s + t) == Before(scan(s), t)
  }

  /** The complete items at the front, and what is left. */
  datatype Drained = Drained(items: seq<bytes>, rest: bytes)

  function Drain(scan: Scanner, s: bytes): (d: Drained)
    ensures |d.rest| <= |s|
    decreases |s|
  {
    var p := scan(s);
    if p.Ok? && |p.rest| < |s| then
      var d := Drain(scan, p.rest);
      Drained([p.value] + d.items, d.rest)
    else Drained([], s)
  }

  function Joined(a: seq<bytes>, d: Drained): Drained {
    Drained(a + d.items, d.rest)
  }

  /** What has been drained once need not be looked at again. */
  lemma {:induction false} DrainMore(scan: Scanner, s: bytes, t: bytes)
    requires Steady(scan)
    ensures var d := Drain(scan, s); Drain(scan, s + t) == Joined(d.items, Drain(scan, d.rest + t))
    decreases |s|
  {
    var p := scan(s);
    assert Shrinks(scan, s) && SteadyAt(scan, s, t);
    if p.Ok? {
      DrainMore(scan, p.rest, t);
      var d, e := Drain(scan, p.rest), Drain(scan, Drain(scan, p.rest).rest + t);
      assert |p.rest + t| < |s + t|;
      assert [p.value] + (d.items + e.items) == [p.value] + d.items + e.items;
    } else {
      assert [] + Drain(scan, s + t).items == Drain(scan, s + t).items;
      assert Drain(scan, s).rest == s;
    }
  }

  function Concat(cs: seq<bytes>): bytes {
    if cs == [] then [] else cs[0] + Concat(cs[1..])
  }

  /** The stream cut into chunks, each drained as it arrives. */
  function DrainAll(scan: Scanner, buf: bytes, chunks: seq<bytes>): Drained
    decreases |chunks|
  {
    if chunks == [] then Drained([], buf)
    else
      var d := Drain(scan, buf + chunks[0]);
      Joined(d.items, DrainAll(scan, d.rest, chunks[1..]))
  }

  /** Nothing complete is waiting. */
  predicate Idle(scan: Scanner, buf: bytes) {
    !scan(buf).Ok?
  }

  lemma {:induction false} DrainLeavesIdle(scan: Scanner, s: bytes)
    requires Steady(scan)
    ensures Idle(scan, Drain(scan, s).rest)
    decreases |s|
  {
    var p := scan(s);
    assert Shrinks(scan, s);
    if p.Ok? {
      DrainLeavesIdle(scan, p.rest);
    }
  }

  /** The items taken, and what is left, do not depend on the chunks. */
  lemma {:induction false} ChunksDoNotMatter(scan: Scanner, buf: bytes, chunks: seq<bytes>)
    requires Steady(scan) && Idle(scan, buf)
    ensures DrainAll(scan, buf, chunks) == Drain(scan, buf + Concat(chunks))
    decreases |chunks|
  {
    if chunks == [] {
      assert buf + [] == buf;
    } else {
      var d := Drain(scan, buf + chunks[0]);
      DrainLeavesIdle(scan, buf + chunks[0]);
      ChunksDoNotMatter(scan, d.rest, chunks[1..]);
      DrainMore(scan, buf + chunks[0], Concat(chunks[1..]));
      assert buf + chunks[0] + Concat(chunks[1..]) == buf + Concat(chunks);
    }
  }

  /** m is exactly one item, carrying the payload v. */
  predicate Whole(scan: Scanner, m: bytes, v: bytes) {
    scan(m) == Ok(v, [])
  }

  predicate AllWhole(scan: Scanner, ms: seq<bytes>, vs: seq<bytes>) {
    |ms| == |vs| && forall i :: 0 <= i < |ms| ==> Whole(scan, ms[i], vs[i])
  }

  /** The first k items have been taken, and what is left is a strict prefix of the next one. */
  predicate Reached(scan: Scanner, ms: seq<bytes>, vs: seq<bytes>, k: nat, d: Drained) {
    && k <= |ms| && |vs| == |ms|
    && d.items == vs[..k]
    && scan(d.rest).TooShort?
    && (if k == |ms| then d.rest == [] else |d.rest| < |ms[k]| && d.rest == ms[k][..|d.rest|])
  }

  lemma ReachedShift(scan: Scanner, ms: seq<bytes>, vs: seq<bytes>, k: nat, d: Drained)
    requires ms != [] && |vs| == |ms| && Reached(scan, ms[1..], vs[1..], k, d)
    ensures Reached(scan, ms, vs, k + 1, Joined([vs[0]], d))
  {
    assert [vs[0]] + vs[1..][..k] == vs[..k + 1];
  }

  lemma ReachedNone(scan: Scanner, ms: seq<bytes>, vs: seq<bytes>, n: nat)
    requires Steady(scan) && AllWhole(scan, ms, vs) && ms != [] && n < |ms[0]|
    ensures Reached(scan, ms, vs, 0, Drain(scan, ms[0][..n]))
  {
    assert Whole(scan, ms[0], vs[0]);
    StrictPrefix(scan, ms[0], vs[0], n);
  }

  /** A stream of whole items is taken apart into exactly these; at any point in between, what has
      been taken are the first of them, and what is left is too short to be one. */
  lemma {:induction false} DrainPrefix(scan: Scanner, ms: seq<bytes>, vs: seq<bytes>, n: nat) returns (k: nat)
    requires Steady(scan) && AllWhole(scan, ms, vs) && n <= |Concat(ms)|
    ensures Reached(scan, ms, vs, k, Drain(scan, Concat(ms)[..n]))
    ensures n == |Concat(ms)| ==> k == |ms|
    decreases |ms|
  {
    var all := Concat(ms);
    if ms == [] {
      k := 0;
    } else if n < |ms[0]| {
      k := 0;
      assert all[..n] == ms[0][..n];
      ReachedNone(scan, ms, vs, n);
    } else {
      var m, v, p := ms[0], vs[0], Concat(ms[1..])[..n - |ms[0]|];
      TailWhole(scan, ms, vs);
      k := DrainPrefix(scan, ms[1..], vs[1..], n - |m|);
      assert all[..n] == m + p;
      ReachedShift(scan, ms, vs, k, Drain(scan, p));
      DrainFirst(scan, m, v, p);
      k := k + 1;
    }
  }

  lemma TailWhole(scan: Scanner, ms: seq<bytes>, vs: seq<bytes>)
    requires AllWhole(scan, ms, vs) && ms != []
    ensures Whole(scan, ms[0], vs[0]) && AllWhole(scan, ms[1..], vs[1..])
  {
    assert forall i :: 0 <= i < |ms[1..]| ==> ms[1..][i] == ms[i + 1] && vs[1..][i] == vs[i + 1];
  }

  lemma DrainFirst(scan: Scanner, m: bytes, v: bytes, p: bytes)
    requires Steady(scan) && Whole(scan, m, v)
    ensures Drain(scan, m + p) == Joined([v], Drain(scan, p))
  {
    assert SteadyAt(scan, m, p) && Shrinks(scan, m);
    assert scan(m + p) == Ok(v, [] + p) && [] + p == p;
    assert |p| < |m + p|;
  }

  lemma StrictPrefix(scan: Scanner, m: bytes, v: bytes, n: nat)
    requires Steady(scan) && Whole(scan, m, v) && n < |m|
    ensures scan(m[..n]).TooShort?
  {
    assert m[..n] + m[n..] == m;
    assert SteadyAt(scan, m[..n], m[n..]);
  }

  /** However whole items are cut into chunks, exactly these come out, in order, and nothing is left. */
  lemma AllArrive(scan: Scanner, ms: seq<bytes>, vs: seq<bytes>, chunks: seq<bytes>)
    requires Steady(scan) && AllWhole(scan, ms, vs) && Concat(chunks) == Concat(ms)
    ensures DrainAll(scan, [], chunks) == Drained(vs, [])
  {
    ChunksDoNotMatter(scan, [], chunks);
    assert [] + Concat(chunks) == Concat(ms) == Concat(ms)[..|Concat(ms)|];
    var k := DrainPrefix(scan, ms, vs, |Concat(ms)|);
    assert vs[..k] == vs;
  }
}
