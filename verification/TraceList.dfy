/**
 The linked list of src/trace.cpp in memory: reversing it in place, and writing and freeing its
 nodes one by one.
 */
module TraceList {
  class Node {
    const data: nat
    var next: Node?

    constructor (data: nat, next: Node?)
      ensures this.data == data && this.next == next
    {
      this.data, this.next := data, next;
    }
  }

  predicate Distinct(xs: seq<Node>) {
    forall i, j :: 0 <= i < j < |xs| ==> xs[i] != xs[j]
  }

  function At(xs: seq<Node>, i: int): Node? {
    if 0 <= i < |xs| then xs[i] else null
  }

  /** The nodes reached from p are exactly xs. */
  ghost predicate List(p: Node?, xs: seq<Node>)
    reads set x | x in xs
  {
    && p == At(xs, 0)
    && Distinct(xs)
    && forall i :: 0 <= i < |xs| ==> xs[i].next == At(xs, i + 1)
  }

  function Reversed(xs: seq<Node>): (ys: seq<Node>)
    ensures |ys| == |xs| && forall i :: 0 <= i < |xs| ==> ys[i] == xs[|xs| - 1 - i]
  {
    if xs == [] then [] else Reversed(xs[1..]) + [xs[0]]
  }

  function Records(xs: seq<Node>): (ds: seq<nat>)
    ensures |ds| == |xs| && forall i :: 0 <= i < |xs| ==> ds[i] == xs[i].data
  {
    if xs == [] then [] else [xs[0].data] + Records(xs[1..])
  }

  /** reverse: the same nodes, in the opposite order; no node is made, lost or given other data. */
  method Reverse(head: Node?, ghost xs: seq<Node>) returns (r: Node?)
    requires List(head, xs)
    modifies set x | x in xs
    ensures List(r, Reversed(xs))
  {
    var prev: Node?, p := null, head;
    ghost var k := 0;
    while p != null
      invariant 0 <= k <= |xs| && p == At(xs, k) && prev == At(xs, k - 1)
      invariant forall i :: 0 <= i < k ==> xs[i].next == At(xs, i - 1)
      invariant forall i :: k <= i < |xs| ==> xs[i].next == At(xs, i + 1)
      decreases |xs| - k
    {
      var next := p.next;
      p.next := prev;
      prev := p;
      p := next;
      k := k + 1;
    }
    r := prev;
  }

  /** Writing all records of a list, oldest first once it has been reversed. */
  method WriteAll(head: Node?, ghost xs: seq<Node>, written: seq<nat>) returns (out: seq<nat>)
    requires List(head, xs)
    ensures out == written + Records(xs)
  {
    out := written;
    var p := head;
    ghost var k := 0;
    while p != null
      invariant 0 <= k <= |xs| && p == At(xs, k) && out == written + Records(xs)[..k]
      decreases |xs| - k
    {
      out := out + [p.data];
      p := p.next;
      k := k + 1;
    }
  }

  /** do_work on a stack that has been taken: the records are written in the order of their pushes. */
  method Drain(head: Node?, ghost xs: seq<Node>, written: seq<nat>) returns (out: seq<nat>)
    requires List(head, xs)
    modifies set x | x in xs
    ensures out == written + Records(Reversed(xs))
  {
    var r := Reverse(head, xs);
    out := WriteAll(r, Reversed(xs), written);
  }
}
