/** The output chain of MemChain.cpp: a singly linked list with its two ends and its length. */
module MemChain {
  import opened FrameParser

  class MemNode {
    var next: MemNode?
    const buffer: array<byte>
    const len: nat
    const notify: bool
    var begin: nat
    /** The connection whose chain the node was made for. */
    ghost const key: int

    constructor (buffer: array<byte>, len: nat, notify: bool, ghost key: int)
      ensures next == null && begin == 0
      ensures this.buffer == buffer && this.len == len && this.notify == notify && this.key == key
    {
      this.buffer, this.len, this.notify, this.key := buffer, len, notify, key;
      next, begin := null, 0;
    }
  }

  /** The node at a position, or null from the end on. */
  ghost function At(nodes: seq<MemNode>, i: nat): MemNode? {
    if i < |nodes| then nodes[i] else null
  }

  /** The nodes are distinct and linked in order, and the last one ends the list. */
  ghost predicate Linked(nodes: seq<MemNode>)
    reads nodes
  {
    && (forall i, j :: 0 <= i < j < |nodes| ==> nodes[i] != nodes[j])
    && (forall i :: 0 <= i < |nodes| ==> nodes[i].next == At(nodes, i + 1))
  }

  lemma TailIsLinked(nodes: seq<MemNode>)
    requires Linked(nodes) && nodes != []
    ensures Linked(nodes[1..])
  {
    var rest := nodes[1..];
    forall i | 0 <= i < |rest| ensures rest[i].next == At(rest, i + 1) {
      assert rest[i] == nodes[i + 1] && nodes[i + 1].next == At(nodes, i + 2);
    }
  }

  class Chain {
    var head: MemNode?
    var end: MemNode?
    var size: int
    /** The nodes from head to end. */
    ghost var nodes: seq<MemNode>
    ghost const key: int

    ghost predicate Valid()
      reads this, nodes
    {
      && Linked(nodes)
      && (forall n :: n in nodes ==> n.key == key)
      && size == |nodes|
      && head == (if nodes == [] then null else nodes[0])
      && end == (if nodes == [] then null else nodes[|nodes| - 1])
    }

    constructor (ghost key: int)
      ensures Valid() && nodes == [] && this.key == key
    {
      this.key := key;
      head, end, size, nodes := null, null, 0, [];
    }

    /** Appends a fresh node; a missing buffer is refused. */
    method Push(buffer: array?<byte>, len: nat, notify: bool) returns (ok: bool)
      requires Valid()
      modifies this, end
      ensures Valid()
      ensures ok <==> buffer != null
      ensures !ok ==> nodes == old(nodes)
      ensures ok ==>
                && |nodes| == |old(nodes)| + 1 && nodes[..|old(nodes)|] == old(nodes)
                && var n := nodes[|nodes| - 1];
                   fresh(n) && n.buffer == buffer && n.len == len && n.notify == notify && n.begin == 0
      ensures forall n :: n in old(nodes) ==> n.begin == old(n.begin)
    {
      if buffer == null {
        return false;
      }
      var node := new MemNode(buffer, len, notify, key);
      if head == null && end == null {
        head, end := node, node;
      } else {
        end.next := node;
        end := node;
      }
      nodes := nodes + [node];
      size := size + 1;
      return true;
    }

    function GetHead(): (r: MemNode?)
      requires Valid()
      reads this, nodes
      ensures r == At(nodes, 0)
    {
      head
    }

    /** The node at a position, or null beyond the ends. */
    method GetIndex(index: int) returns (r: MemNode?)
      requires Valid()
      ensures r == if 0 <= index < |nodes| then nodes[index] else null
    {
      if index < 0 {
        return null;
      }
      r := head;
      var pos := 0;
      while pos < index && r != null
        invariant 0 <= pos <= index && pos <= |nodes|
        invariant r == if pos < |nodes| then nodes[pos] else null
        decreases index - pos
      {
        r := r.next;
        pos := pos + 1;
      }
    }

    /** Unlinks the head, if there is one. */
    method DeleteHead() returns (ok: bool)
      requires Valid()
      modifies this
      ensures Valid()
      ensures ok <==> old(nodes) != []
      ensures nodes == if ok then old(nodes)[1..] else []
    {
      if head == null {
        return false;
      }
      if head == end {
        assert |nodes| == 1;
        head, end := null, null;
        nodes := [];
        size := size - 1;
        return true;
      }
      TailIsLinked(nodes);
      head := head.next;
      size := size - 1;
      nodes := nodes[1..];
      return true;
    }

    function GetSize(): (n: int)
      requires Valid()
      reads this, nodes
      ensures n == |nodes|
    {
      size
    }
  }
}
