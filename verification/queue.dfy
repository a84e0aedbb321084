/** An unbounded FIFO queue over singly linked heap nodes with head and
    tail pointers and a length counter, all updated in place. */
module Queues {
  import opened Common

  class Node<T> {
    const value: T
    var next: Node?<T>

    constructor (value: T)
      ensures this.value == value && next == null
    {
      this.value := value;
      next := null;
    }
  }

  class Queue<T> {
    var start: Node?<T>
    var end: Node?<T>
    var length: nat

    // public view: the queued values, head first
    ghost var Contents: seq<T>
    // the nodes holding Contents, in list order from `start`
    ghost var nodes: seq<Node<T>>
    ghost var Repr: set<object>

    /** The list from `start` visits exactly `nodes`, each once, ends at
        `end` and then at null; `length` counts those nodes. */
    ghost predicate Valid()
      reads this, Repr
      ensures Valid() ==> this in Repr
    {
      && this in Repr
      && |nodes| == |Contents| == length
      && (forall i :: 0 <= i < |nodes| ==> nodes[i] in Repr && nodes[i].value == Contents[i])
      && (forall i, j :: 0 <= i < j < |nodes| ==> nodes[i] != nodes[j])
      && (forall i :: 0 <= i < |nodes| - 1 ==> nodes[i].next == nodes[i + 1])
      && (length == 0 ==> start == null && end == null)
      && (length > 0 ==> start == nodes[0] && end == nodes[length - 1] && end.next == null)
    }

    /** The empty-queue shape: both pointers nil exactly when the length is 0. */
    lemma EmptyIffNil()
      requires Valid()
      ensures length == 0 <==> start == null
      ensures start == null <==> end == null
      ensures length == |Contents|
    {
    }

    constructor ()
      ensures Valid() && fresh(Repr)
      ensures Contents == [] && length == 0 && start == null && end == null
    {
      start, end, length := null, null, 0;
      Contents, nodes := [], [];
      Repr := {this};
    }

    method Dequeue() returns (head: Option<T>)
      requires Valid()
      modifies this
      ensures Valid() && Repr == old(Repr)
      ensures old(Contents) == [] ==> head == None && unchanged(this)
      ensures old(Contents) != [] ==> head == Some(old(Contents)[0]) && Contents == old(Contents)[1..]
      ensures old(length) == 1 ==> start == null && end == null
    {
      if length == 0 {
        return None;
      }
      var n := start;
      if length == 1 {
        start := null;
        end := null;
      } else {
        start := start.next;
      }
      length := length - 1;
      nodes := nodes[1..];
      Contents := Contents[1..];
      head := Some(n.value);
    }

    method Enqueue(value: T)
      requires Valid()
      modifies Repr
      ensures Valid() && fresh(end) && Repr == old(Repr) + {end}
      ensures Contents == old(Contents) + [value]
    {
      var n := new Node(value);
      if length == 0 {
        start := n;
        end := n;
      } else {
        end.next := n;
        end := n;
      }
      length := length + 1;
      nodes := nodes + [n];
      Contents := Contents + [value];
      Repr := Repr + {n};
    }

    method Len() returns (n: nat)
      requires Valid()
      ensures n == |Contents|
    {
      n := length;
    }

    method Peek() returns (head: Option<T>)
      requires Valid()
      ensures Contents == [] ==> head == None
      ensures Contents != [] ==> head == Some(Contents[0])
    {
      if length == 0 {
        return None;
      }
      head := Some(start.value);
    }
  }

  /** FIFO: enqueuing `values` into a new queue and then dequeuing as many
      times yields the same values in the same order. */
  method EnqueueThenDequeueAll<T>(values: seq<T>) returns (out: seq<T>)
    ensures out == values
  {
    var q := new Queue<T>();
    var i := 0;
    while i < |values|
      invariant 0 <= i <= |values|
      invariant q.Valid() && fresh(q.Repr)
      invariant q.Contents == values[..i]
    {
      q.Enqueue(values[i]);
      i := i + 1;
    }
    out := [];
    while |out| < |values|
      invariant q.Valid() && fresh(q.Repr)
      invariant out + q.Contents == values
      decreases |values| - |out|
    {
      var head := q.Dequeue();
      out := out + [head.value];
    }
  }
}
