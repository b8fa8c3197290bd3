/**
 The intrusive list of MemBlockListManager.cpp: the nodes belong to the caller, the list keeps its two ends, and a
 node is found by the address it carries.
 */
module MemBlockList {
  import opened FrameParser

  class MemBlock {
    var next: MemBlock?
    var block: array?<byte>

    constructor (block: array?<byte>)
      ensures next == null && this.block == block
    {
      next, this.block := null, block;
    }
  }

  /** The node at a position, or null from the end on. */
  ghost function At(nodes: seq<MemBlock>, i: nat): MemBlock? {
    if i < |nodes| then nodes[i] else null
  }

  ghost predicate Linked(nodes: seq<MemBlock>)
    reads nodes
  {
    && (forall i, j :: 0 <= i < j < |nodes| ==> nodes[i] != nodes[j])
    && (forall i :: 0 <= i < |nodes| ==> nodes[i].next == At(nodes, i + 1))
  }

  lemma LinkAt(nodes: seq<MemBlock>, i: nat)
    requires Linked(nodes) && i < |nodes|
    ensures nodes[i].next == At(nodes, i + 1)
    ensures nodes[i] == nodes[|nodes| - 1] <==> i == |nodes| - 1
  {
  }

  /** All nodes but the one at position `i`. */
  ghost function Without(nodes: seq<MemBlock>, i: nat): (rest: seq<MemBlock>)
    requires i < |nodes|
    ensures |rest| == |nodes| - 1
  {
    nodes[..i] + nodes[i + 1..]
  }

  lemma EndsWithout(nodes: seq<MemBlock>, i: nat)
    requires i < |nodes|
    ensures var rest := Without(nodes, i);
            rest != [] ==> rest[0] == nodes[if i == 0 then 1 else 0]
                           && rest[|rest| - 1] == nodes[if i == |rest| then i - 1 else |rest|]
    ensures i == 0 ==> Without(nodes, i) == nodes[1..]
  {
  }

  lemma TailIsLinked(nodes: seq<MemBlock>)
    requires Linked(nodes) && nodes != []
    ensures Linked(nodes[1..])
  {
    var rest := nodes[1..];
    forall i | 0 <= i < |rest| ensures rest[i].next == At(rest, i + 1) {
      assert rest[i] == nodes[i + 1] && nodes[i + 1].next == At(nodes, i + 2);
    }
  }

  /** The position of the first node with this address, or the length. */
  ghost function Find(nodes: seq<MemBlock>, addr: array<byte>): (i: nat)
    reads nodes
    ensures i <= |nodes| && (i < |nodes| ==> nodes[i].block == addr)
    ensures forall j :: 0 <= j < i ==> nodes[j].block != addr
  {
    if nodes == [] then 0
    else if nodes[0].block == addr then 0
    else
      var i := Find(nodes[1..], addr);
      assert forall j :: 0 < j < i + 1 ==> nodes[j] == nodes[1..][j - 1];
      i + 1
  }

  class BlockList {
    var head: MemBlock?
    var trail: MemBlock?
    ghost var nodes: seq<MemBlock>

    ghost predicate Valid()
      reads this, nodes
    {
      && Linked(nodes)
      && head == (if nodes == [] then null else nodes[0])
      && trail == (if nodes == [] then null else nodes[|nodes| - 1])
    }

    constructor ()
      ensures Valid() && nodes == []
    {
      head, trail, nodes := null, null, [];
    }

    method PushHead(b: MemBlock?) returns (ok: bool)
      requires Valid() && b !in nodes
      modifies this, b
      ensures Valid()
      ensures ok <==> b != null
      ensures nodes == if ok then [b] + old(nodes) else old(nodes)
      ensures b != null ==> b.block == old(b.block)
    {
      if b == null {
        return false;
      }
      if head == null {
        head := b;
        trail := b;
        head.next := null;
      } else {
        b.next := head;
        head := b;
      }
      nodes := [b] + nodes;
      forall i | 0 <= i < |nodes| ensures nodes[i].next == At(nodes, i + 1) {
        if i > 0 {
          assert nodes[i] == old(nodes)[i - 1];
        }
      }
      return true;
    }

    method PushTrail(b: MemBlock?) returns (ok: bool)
      requires Valid() && b !in nodes
      modifies this, b, trail
      ensures Valid()
      ensures ok <==> b != null
      ensures nodes == if ok then old(nodes) + [b] else old(nodes)
      ensures b != null ==> b.block == old(b.block)
      ensures forall n :: n in old(nodes) ==> n.block == old(n.block)
    {
      if b == null {
        return false;
      }
      if trail == null {
        head := b;
        trail := b;
      } else {
        trail.next := b;
        trail := b;
      }
      trail.next := null;
      nodes := nodes + [b];
      return true;
    }

    method GetBlockHead() returns (r: MemBlock?)
      requires Valid()
      modifies this
      ensures Valid()
      ensures r == if old(nodes) == [] then null else old(nodes)[0]
      ensures nodes == if old(nodes) == [] then [] else old(nodes)[1..]
    {
      if head == null {
        return null;
      }
      TailIsLinked(nodes);
      r := head;
      head := head.next;
      if head == null {
        trail := null;
      }
      nodes := nodes[1..];
    }

    /** Takes out the first node with this address, wherever it is, or returns null and changes nothing. */
    method DeletBlockWithAddr(addr: array?<byte>) returns (r: MemBlock?)
      requires Valid()
      modifies this, nodes
      ensures Valid()
      ensures var i := if addr == null then |old(nodes)| else old(Find(nodes, addr));
              if i < |old(nodes)| then r == old(nodes)[i] && nodes == Without(old(nodes), i)
              else r == null && nodes == old(nodes)
      ensures forall n :: n in old(nodes) ==> n.block == old(n.block)
    {
      hide Find, Linked, Without;
      if addr == null || head == null {
        return null;
      }
      var front: MemBlock? := null;
      ghost var at := Find(nodes, addr);
      LinkAt(nodes, 0);
      EndsWithout(nodes, 0);
      if head.block != null && head.block == addr {
        TailIsLinked(nodes);
        r := head;
        head := head.next;
        nodes := nodes[1..];
      } else {
        front := head;
        r := front.next;
        ghost var i := 1;
        while r != null
          invariant unchanged(this) && unchanged(nodes)
          invariant 1 <= i <= |nodes| && i <= at
          invariant front == nodes[i - 1] && r == At(nodes, i)
          decreases |nodes| - i
        {
          LinkAt(nodes, i);
          if r.block != null && r.block == addr {
            EndsWithout(nodes, i);
            Unlink(front, r, i);
            break;
          }
          front := r;
          r := r.next;
          i := i + 1;
        }
      }
      if r == trail {
        trail := front;
      }
    }

    /** Bypasses node `i`, which is not the head. */
    method Unlink(front: MemBlock, r: MemBlock, ghost i: nat)
      requires Valid() && 0 < i < |nodes| && front == nodes[i - 1] && r == nodes[i]
      modifies this`nodes, front`next
      ensures nodes == Without(old(nodes), i) && Linked(nodes)
    {
      front.next := r.next;
      nodes := Without(nodes, i);
      forall j | 0 <= j < |nodes| ensures nodes[j].next == At(nodes, j + 1) {
        assert nodes[j] == old(nodes)[if j < i then j else j + 1];
      }
    }

    method IsEmpty() returns (empty: bool)
      requires Valid()
      ensures empty <==> nodes == []
    {
      return head == null;
    }
  }
}
