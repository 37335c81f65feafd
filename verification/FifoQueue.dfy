/** The FIFO a task pool queues on: a doubly linked list with a map from values to nodes. */
module FifoQueue {
  import opened Base

  class Node<T> {
    const value: T
    var previous: Node?<T>
    var next: Node?<T>

    constructor (value: T, previous: Node?<T>)
      ensures this.value == value && this.previous == previous && this.next == null
    {
      this.value, this.previous, this.next := value, previous, null;
    }
  }

  ghost function Values<T>(chain: seq<Node<T>>): (s: seq<T>) {
    seq(|chain|, i requires 0 <= i < |chain| => chain[i].value)
  }

  /** The map leads from each value of the chain to its node. */
  ghost predicate Mapped<T>(chain: seq<Node<T>>, nodes: map<T, Node<T>>) {
    && (forall i :: 0 <= i < |chain| ==> chain[i].value in nodes && nodes[chain[i].value] == chain[i])
    && (forall v <- nodes :: nodes[v] in chain && nodes[v].value == v)
  }

  ghost predicate Owned<T>(chain: seq<Node<T>>, repr: set<Node<T>>) {
    forall i :: 0 <= i < |chain| ==> chain[i] in repr
  }

  lemma PushMapped<T>(chain: seq<Node<T>>, nodes: map<T, Node<T>>, node: Node<T>)
    requires Mapped(chain, nodes) && node !in chain
    ensures Mapped(chain + [node], nodes[node.value := node]) <==> node.value !in nodes
    ensures Values(chain + [node]) == Values(chain) + [node.value]
  {
    assert (chain + [node])[|chain|] == node;
    if node.value in nodes {
      var i :| 0 <= i < |chain| && chain[i] == nodes[node.value];
      assert (chain + [node])[i] == chain[i] && chain[i].value == node.value;
    }
  }

  lemma ShiftMapped<T>(chain: seq<Node<T>>, nodes: map<T, Node<T>>)
    requires Mapped(chain, nodes) && Distinct(chain) && chain != []
    ensures Mapped(chain[1..], nodes - {chain[0].value})
    ensures Values(chain) == [chain[0].value] + Values(chain[1..])
  {}

  lemma NoValues<T>(chain: seq<Node<T>>)
    ensures Values(chain) == [] <==> chain == []
  {}

  /** Where the element at position `k` was before the one at `i` moved to the front. */
  function Source(i: nat, k: nat): nat {
    if k == 0 then i else if k <= i then k - 1 else k
  }

  function ToFront<T>(s: seq<T>, i: nat): (r: seq<T>)
    requires i < |s|
    ensures |r| == |s|
  {
    [s[i]] + s[..i] + s[i + 1..]
  }

  lemma ToFrontAt<T>(s: seq<T>, i: nat)
    requires i < |s|
    ensures forall k :: 0 <= k < |s| ==> ToFront(s, i)[k] == s[Source(i, k)]
  {}

  lemma FrontMapped<T>(chain: seq<Node<T>>, nodes: map<T, Node<T>>, i: nat)
    requires Mapped(chain, nodes) && i < |chain|
    ensures Mapped(ToFront(chain, i), nodes)
    ensures |Values(chain)| == |chain| && Values(chain)[i] == chain[i].value
    ensures Values(ToFront(chain, i)) == ToFront(Values(chain), i)
  {
    ToFrontAt(chain, i);
    ToFrontAt(Values(chain), i);
    var moved := ToFront(chain, i);
    forall v <- nodes ensures nodes[v] in moved {
      var j :| 0 <= j < |chain| && chain[j] == nodes[v];
      var k := if j == i then 0 else if j < i then j + 1 else j;
      assert Source(i, k) == j && moved[k] == nodes[v];
    }
    hide ToFront;
  }

  lemma FrontOwned<T>(chain: seq<Node<T>>, repr: set<Node<T>>, i: nat)
    requires Owned(chain, repr) && i < |chain|
    ensures Owned(ToFront(chain, i), repr)
  {
    ToFrontAt(chain, i);
    hide ToFront;
  }

  lemma {:induction false} OneEntryEach<T>(chain: seq<Node<T>>, nodes: map<T, Node<T>>)
    requires Mapped(chain, nodes) && Distinct(chain)
    ensures |nodes| == |chain|
  {
    if chain == [] {
      assert nodes.Keys == {};
    } else {
      ShiftMapped(chain, nodes);
      OneEntryEach(chain[1..], nodes - {chain[0].value});
    }
  }

  lemma MappedValue<T>(chain: seq<Node<T>>, nodes: map<T, Node<T>>, value: T)
    requires Mapped(chain, nodes)
    ensures value in nodes <==> value in Values(chain)
  {
    if value in nodes {
      var i :| 0 <= i < |chain| && chain[i] == nodes[value];
      assert Values(chain)[i] == value;
    }
  }

  lemma Spliced<T>(s: seq<T>, i: nat)
    requires Distinct(s) && i < |s|
    ensures var r := s[..i] + s[i + 1..];
      && |r| == |s| - 1 && Distinct(r) && s[i] !in r
      && (forall k :: 0 <= k < i ==> r[k] == s[k]) && (forall k :: i <= k < |r| ==> r[k] == s[k + 1])
  {}

  lemma NotBehind<T>(chain: seq<Node<T>>, nodes: map<T, Node<T>>, value: T)
    requires Mapped(chain, nodes) && (value in nodes ==> chain != [] && nodes[value] == chain[0])
    ensures value !in Values(chain) || value == Values(chain)[0]
  {}

  class FifoQueue<T(==)> {
    var nodes: map<T, Node<T>>
    var head: Node?<T>
    var tail: Node?<T>
    ghost var chain: seq<Node<T>>
    /** Every node ever linked. */
    ghost var repr: set<Node<T>>

    /** The values in the order `shift` will take them. */
    ghost function Contents(): (s: seq<T>)
      reads this
    {
      Values(chain)
    }

    ghost predicate Linked()
      reads this, chain
    {
      && head == (if chain == [] then null else chain[0])
      && tail == (if chain == [] then null else chain[|chain| - 1])
      && (forall i {:trigger chain[i].previous} ::
          0 <= i < |chain| ==> chain[i].previous == if i == 0 then null else chain[i - 1])
      && (forall i {:trigger chain[i].next} ::
          0 <= i < |chain| ==> chain[i].next == if i == |chain| - 1 then null else chain[i + 1])
      && Distinct(chain)
    }

    ghost predicate Valid()
      reads this, repr
    {
      Owned(chain, repr) && Linked() && Mapped(chain, nodes)
    }

    constructor ()
      ensures Valid() && Contents() == [] && repr == {}
    {
      nodes, head, tail, chain, repr := map[], null, null, [], {};
    }

    method Length() returns (n: nat)
      requires Valid()
      ensures n == |Contents()|
    {
      OneEntryEach(chain, nodes);
      n := |nodes|;
    }

    // Linking and unlinking.

    method LinkLast(node: Node<T>)
      requires Linked() && node !in chain && node.previous == tail && node.next == null
      modifies this`head, this`tail, this`chain, chain
      ensures Linked() && chain == old(chain) + [node]
    {
      if tail != null { tail.next := node; } else { head := node; }
      tail := node;
      chain := chain + [node];
    }

    method DropFirst() returns (node: Node<T>)
      requires Linked() && chain != []
      modifies this`head, this`tail, this`chain, chain
      ensures Linked() && node == old(chain)[0] && chain == old(chain)[1..]
    {
      node := head;
      head := node.next;
      if head != null { head.previous := null; } else { tail := null; }
      chain := chain[1..];
    }

    method Unlink(node: Node<T>, ghost i: nat)
      requires Linked() && 0 < i < |chain| && chain[i] == node
      modifies this`tail, this`chain, chain
      ensures Linked() && node !in chain && chain == old(chain)[..i] + old(chain)[i + 1..]
    {
      Spliced(chain, i);
      assert i + 1 < |chain| ==> chain[i + 1] == node.next;
      node.previous.next := node.next;
      if node.next != null { node.next.previous := node.previous; } else { tail := node.previous; }
      chain := chain[..i] + chain[i + 1..];
    }

    method LinkFirst(node: Node<T>)
      requires Linked() && node !in chain && chain != []
      modifies this`head, this`chain, chain, node
      ensures Linked() && chain == [node] + old(chain)
    {
      node.previous := null;
      node.next := head;
      head.previous := node;
      head := node;
      chain := [node] + chain;
    }

    method Promote(node: Node<T>, ghost i: nat)
      requires Linked() && 0 < i < |chain| && chain[i] == node
      modifies this`head, this`tail, this`chain, chain
      ensures Linked() && chain == ToFront(old(chain), i)
    {
      Unlink(node, i);
      hide Distinct;
      LinkFirst(node);
    }

    /** A value is appended; the queue stays in order if and only if it was not queued already. */
    method Push(value: T)
      requires Valid()
      modifies this, repr
      ensures Contents() == old(Contents()) + [value] && old(repr) <= repr && fresh(repr - old(repr))
      ensures Valid() <==> value !in old(Contents())
    {
      hide Mapped, Values;
      MappedValue(chain, nodes, value);
      var node := new Node(value, tail);
      PushMapped(chain, nodes, node);
      LinkLast(node);
      nodes := nodes[value := node];
      repr := repr + {node};
    }

    method Shift() returns (value: Option<T>)
      requires Valid()
      modifies this, repr
      ensures Valid() && repr == old(repr)
      ensures old(Contents()) == [] ==> value == None && Contents() == []
      ensures old(Contents()) != [] ==> value == Some(old(Contents())[0]) && Contents() == old(Contents())[1..]
    {
      hide Mapped, Values;
      NoValues(chain);
      if head == null { return None; }
      ShiftMapped(chain, nodes);
      var node := DropFirst();
      nodes := nodes - {node.value};
      return Some(node.value);
    }

    method MoveToFront(value: T) returns (moved: bool)
      requires Valid()
      modifies this, repr
      ensures Valid() && repr == old(repr)
      ensures !moved ==> Contents() == old(Contents()) && (value !in Contents() || value == Contents()[0])
      ensures moved
        ==> exists i ::
          0 < i < |old(Contents())| && old(Contents())[i] == value && Contents() == ToFront(old(Contents()), i)
    {
      if value !in nodes || nodes[value] == head {
        NotBehind(chain, nodes, value);
        return false;
      }
      var node := nodes[value];
      ghost var i :| 0 <= i < |chain| && chain[i] == node;
      FrontMapped(chain, nodes, i);
      FrontOwned(chain, repr, i);
      assert 0 < i && Contents()[i] == value;
      hide Mapped, Values, Linked, ToFront;
      Promote(node, i);
      assert Contents() == ToFront(old(Contents()), i);
      return true;
    }
  }
}
