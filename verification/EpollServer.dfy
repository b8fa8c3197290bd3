/**
 The sending half of EpollServer.cpp over the real chain and the real pool: a buffer is copied into a block and
 queued, a send task writes what the kernel takes, and every block goes back to the pool once.
 */
module EpollServer {
  import opened FrameParser
  import FrameRestruct
  import opened MemChain
  import opened MemPool
  import opened Outbound

  /** A call of a sender's callback: its buffer, the length and the code. */
  datatype Call = Call(buffer: array<byte>, len: nat, code: int)

  /** A node as a value. */
  ghost function NodeOf(n: MemNode): Node
    requires n.len <= n.buffer.Length
    reads n, n.buffer
  {
    Node(n.buffer[..n.len], n.begin, n.notify)
  }

  /** What is left of a node to send, read off its buffer. */
  lemma LeftIs(n: MemNode, v: Node, ret: int)
    requires n.len <= n.buffer.Length && v == NodeOf(n) && v.Valid() && 0 <= ret <= n.len - n.begin
    ensures |v.Left()| == n.len - n.begin && n.buffer[n.begin..n.begin + ret] == v.Left()[..ret]
    ensures ret == n.len - n.begin ==> n.buffer[n.begin..n.len] == v.Left()
  {
    var a := n.buffer[..n.len];
    assert v.Left() == a[n.begin..];
    assert a[n.begin..][..ret] == n.buffer[n.begin..n.begin + ret];
  }

  ghost predicate Blocks(nodes: seq<MemNode>) {
    forall n :: n in nodes ==> n.buffer.Length == BLOCK_SIZE && n.len <= BLOCK_SIZE
  }

  ghost function Buffers(nodes: seq<MemNode>): set<array<byte>> {
    set n | n in nodes :: n.buffer
  }

  /** A chain as a value. */
  ghost function View(nodes: seq<MemNode>): (v: seq<Node>)
    requires Blocks(nodes)
    reads nodes, Buffers(nodes)
    ensures |v| == |nodes|
  {
    seq(|nodes|, i requires 0 <= i < |nodes| reads nodes, Buffers(nodes) => NodeOf(nodes[i]))
  }

  lemma ViewTail(nodes: seq<MemNode>)
    requires Blocks(nodes) && nodes != []
    ensures Blocks(nodes[1..]) && View(nodes[1..]) == View(nodes)[1..] && View(nodes)[0] == NodeOf(nodes[0])
  {
    forall i | 0 <= i < |nodes| - 1 ensures View(nodes[1..])[i] == View(nodes)[1..][i] {
      assert nodes[1..][i] == nodes[i + 1];
    }
  }

  lemma ViewSnoc(nodes: seq<MemNode>, n: MemNode)
    requires Blocks(nodes + [n])
    ensures Blocks(nodes) && View(nodes + [n]) == View(nodes) + [NodeOf(n)]
  {
    forall m | m in nodes ensures m in nodes + [n] {}
    forall i | 0 <= i < |nodes| ensures View(nodes + [n])[i] == View(nodes)[i] {
    }
  }

  /** A view depends on the nodes' positions and on the blocks' contents only. */
  twostate lemma ViewSame(nodes: seq<MemNode>)
    requires Blocks(nodes)
    requires forall n :: n in nodes ==> n.begin == old(n.begin) && n.buffer[..] == old(n.buffer[..])
    ensures View(nodes) == old(View(nodes))
  {
    forall i | 0 <= i < |nodes| ensures View(nodes)[i] == old(View(nodes))[i] {
      assert nodes[i] in nodes;
      var n := nodes[i];
      assert n.buffer[..n.len] == n.buffer[..][..n.len];
      assert old(n.buffer[..n.len]) == old(n.buffer[..])[..n.len];
    }
  }

  /** The chain's blocks are distinct and out of the pool. */
  ghost predicate Owns(nodes: seq<MemNode>, held: set<array<byte>>) {
    && Buffers(nodes) <= held
    && forall i, j :: 0 <= i < j < |nodes| ==> nodes[i].buffer != nodes[j].buffer
  }

  lemma OwnsTail(nodes: seq<MemNode>, held: set<array<byte>>)
    requires Owns(nodes, held) && nodes != []
    ensures Owns(nodes[1..], held - {nodes[0].buffer}) && nodes[0].buffer in held
  {
    forall n | n in nodes[1..] ensures n in nodes && n.buffer != nodes[0].buffer {
      var i :| 0 <= i < |nodes[1..]| && nodes[1..][i] == n;
      assert nodes[i + 1] == n;
    }
  }

  /** The callbacks that the nodes of a chain ask for. */
  ghost function Calls(nodes: seq<MemNode>, code: int): seq<Call> {
    if nodes == [] then []
    else (if nodes[0].notify then [Call(nodes[0].buffer, nodes[0].len, code)] else []) + Calls(nodes[1..], code)
  }

  lemma {:induction false} CallsSnoc(nodes: seq<MemNode>, m: nat, code: int)
    requires m < |nodes|
    ensures Calls(nodes[..m + 1], code) == Calls(nodes[..m], code) + Calls([nodes[m]], code)
    decreases |nodes|
  {
    if m == 0 {
      assert nodes[..1] == [nodes[0]];
    } else {
      CallsSnoc(nodes[1..], m - 1, code);
      assert nodes[..m + 1][1..] == nodes[1..][..m] && nodes[..m][1..] == nodes[1..][..m - 1];
    }
  }

  /** What a send task does after it wrote `wire` and finished `finished`. */
  ghost function Prepend(wire: seq<byte>, finished: seq<Node>, d: Drained): Drained {
    d.(wire := wire + d.wire, finished := finished + d.finished)
  }

  lemma PrependNothing(d: Drained)
    ensures Prepend([], [], d) == d
  {
    assert [] + d.wire == d.wire && [] + d.finished == d.finished;
  }

  /** The loop stops: the chain is empty, or the kernel did not take all of its head. */
  lemma Ended(d: Drained, wire: seq<byte>, finished: seq<Node>, now: seq<Node>, kernel: nat -> int, m: nat)
    requires Orderly(now) && d == Prepend(wire, finished, Drain(now, kernel, m))
    ensures now == [] ==> d == Drained([], wire, finished, false)
    ensures now != [] ==>
              var o: Outcome := SendOnce(now, kernel(m));
              && (o.Failed? ==> d == Drained(now, wire, finished, false))
              && (o.Short? ==> d == Drained(o.chain, wire + o.wire, finished, true))
  {
    assert wire + [] == wire && finished + [] == finished;
  }

  /** The loop goes on with the rest of the chain. */
  lemma WentOn(d: Drained, wire: seq<byte>, view: seq<Node>, m: nat, now: seq<Node>, kernel: nat -> int)
    requires Orderly(now) && m < |view| && now == view[m..] && d == Prepend(wire, view[..m], Drain(now, kernel, m))
    ensures var o: Outcome := SendOnce(now, kernel(m));
            o.Finished? ==>
              && o.chain == now[1..] == view[m + 1..] && Orderly(now[1..])
              && d == Prepend(wire + o.wire, view[..m + 1], Drain(now[1..], kernel, m + 1))
  {
    var o: Outcome := SendOnce(now, kernel(m));
    if o.Finished? {
      var rest := Drain(now[1..], kernel, m + 1);
      assert wire + (o.wire + rest.wire) == (wire + o.wire) + rest.wire;
      assert view[..m] + ([now[0]] + rest.finished) == view[..m + 1] + rest.finished;
    }
  }

  lemma Nobody(code: int)
    ensures Calls([], code) == [] && Buffers([]) == {}
  {
  }

  lemma BuffersSnoc(nodes: seq<MemNode>, m: nat)
    requires m < |nodes|
    ensures Buffers(nodes[..m + 1]) == Buffers(nodes[..m]) + {nodes[m].buffer}
  {
    assert nodes[..m + 1] == nodes[..m] + [nodes[m]];
  }

  class SocketInformation {
    const sockId: int
    const outputChain: Chain
    var waiting: bool
    var enableRead: bool

    constructor (sock: int)
      ensures outputChain.Valid() && outputChain.nodes == [] && !waiting && enableRead
      ensures sockId == outputChain.key == sock && fresh(outputChain)
    {
      sockId, waiting, enableRead := sock, false, true;
      outputChain := new Chain(sock);
    }

    ghost predicate Valid(pool: Pool)
      reads this, outputChain, outputChain.nodes, pool, pool.unused, pool.unused.queue
    {
      outputChain.Valid() && pool.Valid() && Blocks(outputChain.nodes) && Owns(outputChain.nodes, pool.held)
    }

    /** The head leaves the chain, its sender is told, and its block goes back to the pool. */
    method Finish(pool: Pool, code: int) returns (calls: seq<Call>)
      requires Valid(pool) && outputChain.nodes != []
      modifies outputChain, pool`held, pool.unused, pool.unused.queue
      ensures Valid(pool)
      ensures outputChain.nodes == old(outputChain.nodes)[1..]
      ensures View(outputChain.nodes) == old(View(outputChain.nodes))[1..]
      ensures calls == Calls([old(outputChain.nodes)[0]], code)
      ensures pool.held == old(pool.held) - {old(outputChain.nodes)[0].buffer}
    {
      hide Pool.Valid, View, Owns;
      ghost var nodes := outputChain.nodes;
      OwnsTail(nodes, pool.held);
      ViewTail(nodes);
      var node := outputChain.GetHead();
      var deleted := outputChain.DeleteHead();
      calls := [];
      if node.notify {
        calls := [Call(node.buffer, node.len, code)];
      }
      var freed := pool.FreeBlock(node.buffer);
      ViewSame(nodes[1..]);
    }

    /** The kernel took only `n` bytes of the head. */
    method Advance(pool: Pool, node: MemNode, n: nat)
      requires Valid(pool) && node == outputChain.head
      modifies this`waiting, node`begin
      ensures Valid(pool) && waiting
      ensures View(outputChain.nodes)
           == [old(NodeOf(node)).(begin := old(node.begin) + n)] + old(View(outputChain.nodes))[1..]
    {
      hide Pool.Valid, View, Owns;
      ghost var nodes := outputChain.nodes;
      ViewTail(nodes);
      node.begin := node.begin + n;
      waiting := true;
      ViewTail(nodes);
      ViewSame(nodes[1..]);
    }

    /** One turn of the send loop: what the kernel takes of the head, and the head's release when that is all of it. */
    method SendHead(pool: Pool, answer: int) returns (finished: bool, wire: seq<byte>, calls: seq<Call>)
      requires Valid(pool) && outputChain.nodes != [] && Orderly(View(outputChain.nodes))
      modifies this`waiting, outputChain, outputChain.head`begin, pool`held, pool.unused, pool.unused.queue
      ensures Valid(pool)
      ensures var o: Outcome := SendOnce(old(View(outputChain.nodes)), answer);
              && (finished <==> o.Finished?)
              && wire == (if o.Failed? then [] else o.wire)
              && View(outputChain.nodes) == (if o.Failed? then old(View(outputChain.nodes)) else o.chain)
              && waiting == (old(waiting) || o.Short?)
      ensures outputChain.nodes == if finished then old(outputChain.nodes)[1..] else old(outputChain.nodes)
      ensures calls == if finished then Calls([old(outputChain.nodes)[0]], SEND_SUCCEED) else []
      ensures pool.held == if finished then old(pool.held) - {old(outputChain.nodes)[0].buffer} else old(pool.held)
    {
      hide Pool.Valid, Drain, Calls, Owns, View;
      ghost var nodes, v := outputChain.nodes, View(outputChain.nodes);
      ViewTail(nodes);
      var node := outputChain.GetHead();
      assert v[0] == NodeOf(node) && v[0].Valid();
      wire, calls, finished := [], [], false;
      var ret := Kernel(answer, node.len - node.begin);
      LeftIs(node, v[0], 0);
      if ret < 0 {
      } else if ret < node.len - node.begin {
        wire := node.buffer[node.begin..node.begin + ret];
        LeftIs(node, v[0], ret);
        Advance(pool, node, ret);
      } else {
        wire := node.buffer[node.begin..node.len];
        LeftIs(node, v[0], node.len - node.begin);
        calls := Finish(pool, SEND_SUCCEED);
        finished := true;
      }
    }

    /** The send task's loop: writes the chain's bytes in order until the kernel refuses or takes only a part. */
    method SendAll(pool: Pool, kernel: nat -> int) returns (wire: seq<byte>, calls: seq<Call>, m: nat)
      requires Valid(pool) && Orderly(View(outputChain.nodes))
      modifies this`waiting, outputChain, outputChain.nodes, pool`held, pool.unused, pool.unused.queue
      ensures Valid(pool)
      ensures var d := Drain(old(View(outputChain.nodes)), kernel, 0);
              && View(outputChain.nodes) == d.chain && wire == d.wire
              && waiting == (old(waiting) || d.stalled)
              && m == |d.finished| <= |old(outputChain.nodes)|
      ensures outputChain.nodes == old(outputChain.nodes)[m..]
      ensures calls == Calls(old(outputChain.nodes)[..m], SEND_SUCCEED)
      ensures pool.held == old(pool.held) - Buffers(old(outputChain.nodes)[..m])
      ensures Orderly(View(outputChain.nodes))
    {
      hide Pool.Valid, Linked, View, Owns, Blocks, Orderly, Drain, SendOnce, Calls, Buffers, Prepend;
      ghost var nodes, view := outputChain.nodes, View(outputChain.nodes);
      ghost var d, now := Drain(view, kernel, 0), view;
      DrainConserves(view, kernel, 0);
      PrependNothing(d);
      wire, calls, m := [], [], 0;
      Nobody(SEND_SUCCEED);
      while true
        invariant m <= |nodes| && outputChain.nodes == nodes[m..] && outputChain.Valid() && Valid(pool)
        invariant now == View(outputChain.nodes) && now == view[m..] && Orderly(now)
        invariant waiting == old(waiting)
        invariant d == Prepend(wire, view[..m], Drain(now, kernel, m))
        invariant calls == Calls(nodes[..m], SEND_SUCCEED)
        invariant pool.held == old(pool.held) - Buffers(nodes[..m])
        decreases |nodes| - m
      {
        if outputChain.GetSize() <= 0 {
          Ended(d, wire, view[..m], now, kernel, m);
          break;
        }
        var finished, out, told := SendHead(pool, kernel(m));
        if !finished {
          Ended(d, wire, view[..m], now, kernel, m);
          wire := wire + out;
          break;
        }
        WentOn(d, wire, view, m, now, kernel);
        calls, wire := calls + told, wire + out;
        CallsSnoc(nodes, m, SEND_SUCCEED);
        BuffersSnoc(nodes, m);
        now := now[1..];
        m := m + 1;
      }
    }

    /** A block filled by `SendData` goes to the end of the chain. */
    method Enqueue(pool: Pool, buf: array<byte>, len: nat, notify: bool)
      requires Valid(pool) && buf in pool.held && buf !in Buffers(outputChain.nodes)
      requires buf.Length == BLOCK_SIZE && len <= BLOCK_SIZE
      modifies outputChain, outputChain.end
      ensures Valid(pool)
      ensures outputChain.nodes != [] && outputChain.nodes[..|outputChain.nodes| - 1] == old(outputChain.nodes)
      ensures var n := outputChain.nodes[|outputChain.nodes| - 1]; fresh(n) && n.buffer == buf
      ensures View(outputChain.nodes) == old(View(outputChain.nodes)) + [Node(buf[..len], 0, notify)]
    {
      hide Pool.Valid, Linked;
      ghost var nodes := outputChain.nodes;
      var pushed := outputChain.Push(buf, len, notify);
      assert outputChain.nodes == nodes + [outputChain.nodes[|nodes|]];
      ViewSame(nodes);
      ViewSnoc(nodes, outputChain.nodes[|nodes|]);
    }

    /** What `RemoveSocket` does to the chain: every buffer is released as failed. */
    method ReleaseAll(pool: Pool) returns (calls: seq<Call>)
      requires Valid(pool)
      modifies outputChain, pool`held, pool.unused, pool.unused.queue
      ensures Valid(pool) && outputChain.nodes == []
      ensures calls == Calls(old(outputChain.nodes), SEND_FAILD)
      ensures pool.held == old(pool.held) - Buffers(old(outputChain.nodes))
    {
      hide Pool.Valid, Linked, View, Calls, Buffers, Owns;
      ghost var nodes, m := outputChain.nodes, 0;
      calls := [];
      Nobody(SEND_FAILD);
      while outputChain.GetSize() > 0
        invariant m <= |nodes| && outputChain.nodes == nodes[m..] && outputChain.Valid() && Valid(pool)
        invariant calls == Calls(nodes[..m], SEND_FAILD)
        invariant pool.held == old(pool.held) - Buffers(nodes[..m])
        decreases |nodes| - m
      {
        var told := Finish(pool, SEND_FAILD);
        calls := calls + told;
        CallsSnoc(nodes, m, SEND_FAILD);
        BuffersSnoc(nodes, m);
        m := m + 1;
      }
      assert nodes[..m] == nodes;
    }
  }

  /** A chain that belongs to its socket, is well formed and partly written at its head only. */
  ghost predicate Chained(info: SocketInformation)
    reads info, info.outputChain, info.outputChain.nodes, Buffers(info.outputChain.nodes)
  {
    && info.outputChain.key == info.sockId
    && info.outputChain.Valid() && Blocks(info.outputChain.nodes) && Orderly(View(info.outputChain.nodes))
  }

  twostate predicate Untouched(info: SocketInformation)
    reads info.outputChain, info.outputChain.nodes, Buffers(info.outputChain.nodes)
  {
    var c := info.outputChain;
    && c.head == old(c.head) && c.end == old(c.end) && c.size == old(c.size) && c.nodes == old(c.nodes)
    && forall n :: n in c.nodes ==>
      n.next == old(n.next) && n.begin == old(n.begin) && n.buffer[..] == old(n.buffer[..])
  }

  /** A line that was not touched is still in order. */
  twostate lemma StaysChained(info: SocketInformation)
    requires old(Chained(info)) && Untouched(info)
    ensures Chained(info) && View(info.outputChain.nodes) == old(View(info.outputChain.nodes))
  {
    ViewSame(info.outputChain.nodes);
  }

  function Set(nodes: seq<MemNode>): set<MemNode> {
    set n | n in nodes
  }

  /** The nodes of all chains. */
  ghost function AllOf(chains: map<int, seq<MemNode>>): (all: set<MemNode>)
    ensures forall k, n :: k in chains && n in chains[k] ==> n in all
    ensures forall n :: n in all ==> exists k :: k in chains && n in chains[k]
  {
    set k, n | k in chains && n in chains[k] :: n
  }

  ghost function BlocksOf(nodes: set<MemNode>): set<array<byte>> {
    set n | n in nodes :: n.buffer
  }

  /** No two nodes share a block. */
  ghost predicate Unshared(nodes: set<MemNode>) {
    forall n, m :: n in nodes && m in nodes && n != m ==> n.buffer != m.buffer
  }

  ghost predicate Keyed(nodes: seq<MemNode>, k: int) {
    && (forall n :: n in nodes ==> n.key == k)
    && forall i, j :: 0 <= i < j < |nodes| ==> nodes[i] != nodes[j]
  }

  /** A block is out of the pool exactly when a node of some chain has it, and then only one node has it. */
  ghost predicate Tidy(chains: map<int, seq<MemNode>>, held: set<array<byte>>) {
    && (forall k :: k in chains ==> Keyed(chains[k], k))
    && Unshared(AllOf(chains))
    && held == BlocksOf(AllOf(chains))
  }

  lemma TidyOwns(chains: map<int, seq<MemNode>>, held: set<array<byte>>, k: int)
    requires Tidy(chains, held) && k in chains
    ensures Owns(chains[k], held)
  {
    var nodes := chains[k];
    forall i, j | 0 <= i < j < |nodes| ensures nodes[i].buffer != nodes[j].buffer {
      assert nodes[i] in AllOf(chains) && nodes[j] in AllOf(chains);
    }
    forall n | n in nodes ensures n.buffer in held {
      assert n in AllOf(chains);
    }
  }

  lemma BlocksLess(all: set<MemNode>, gone: set<MemNode>)
    requires Unshared(all) && gone <= all
    ensures Unshared(all - gone) && BlocksOf(all - gone) == BlocksOf(all) - BlocksOf(gone)
  {
  }

  lemma BuffersAre(nodes: seq<MemNode>)
    ensures Buffers(nodes) == BlocksOf(Set(nodes))
  {
  }

  /** Releasing the first `m` nodes of a chain and their blocks. */
  lemma TidyReleased(chains: map<int, seq<MemNode>>, held: set<array<byte>>, k: int, m: nat)
    requires Tidy(chains, held) && k in chains && m <= |chains[k]|
    ensures Tidy(chains[k := chains[k][m..]], held - Buffers(chains[k][..m]))
  {
    var nodes, all, after := chains[k], AllOf(chains), AllOf(chains[k := chains[k][m..]]);
    assert Keyed(nodes[m..], k);
    hide AllOf;
    assert after == all - Set(nodes[..m]) by {
      assert nodes == nodes[..m] + nodes[m..];
      forall n | n in after ensures n in all - Set(nodes[..m]) {
        var l :| l in chains && n in chains[k := nodes[m..]][l];
      }
      forall n | n in all - Set(nodes[..m]) ensures n in after {
        var l :| l in chains && n in chains[l];
        assert n in chains[k := nodes[m..]][l];
      }
    }
    BlocksLess(all, Set(nodes[..m]));
    BuffersAre(nodes[..m]);
  }

  /** Adding a node for a block that was just handed out. */
  lemma TidyAdded(chains: map<int, seq<MemNode>>, held: set<array<byte>>, k: int, n: MemNode)
    requires Tidy(chains, held) && k in chains && n.key == k && n.buffer !in held
    ensures Tidy(chains[k := chains[k] + [n]], held + {n.buffer})
  {
    var all := AllOf(chains);
    assert forall m :: m in all ==> m.buffer in held;
    assert Keyed(chains[k] + [n], k);
    var more := chains[k := chains[k] + [n]];
    hide AllOf;
    forall m | m in all ensures m in AllOf(more) {
      var l :| l in chains && m in chains[l];
      assert m in more[l];
    }
    assert n in more[k];
    assert AllOf(more) == all + {n};
  }

  /** Dropping a chain whose nodes were all released, or starting an empty one. */
  lemma TidyEmpty(chains: map<int, seq<MemNode>>, held: set<array<byte>>, k: int)
    requires Tidy(chains, held)
    ensures k in chains && chains[k] == [] ==> Tidy(chains - {k}, held)
    ensures k !in chains ==> Tidy(chains[k := []], held)
  {
    hide AllOf;
    if k in chains && chains[k] == [] {
      var less := chains - {k};
      forall n | n in AllOf(chains) ensures n in AllOf(less) {
        var l :| l in chains && n in chains[l];
        assert n in less[l];
      }
      assert AllOf(less) == AllOf(chains);
    }
    if k !in chains {
      var more := chains[k := []];
      forall n | n in AllOf(chains) ensures n in AllOf(more) {
        var l :| l in chains && n in chains[l];
        assert n in more[l];
      }
      assert AllOf(more) == AllOf(chains);
    }
  }

  lemma InOrder(info: SocketInformation, pool: Pool)
    requires info.Valid(pool) && Orderly(View(info.outputChain.nodes)) && info.outputChain.key == info.sockId
    ensures Chained(info)
  {
  }

  lemma EmptyLine(info: SocketInformation)
    requires info.outputChain.Valid() && info.outputChain.nodes == [] && info.outputChain.key == info.sockId
    ensures Chained(info)
  {
  }

  ghost predicate Apart(a: SocketInformation, b: SocketInformation)
    reads a.outputChain, b.outputChain
  {
    a != b && a.outputChain != b.outputChain && forall n :: n in a.outputChain.nodes ==> n !in b.outputChain.nodes
  }

  lemma ChainedApart(a: SocketInformation, b: SocketInformation)
    requires Chained(a) && Chained(b) && a.sockId != b.sockId
    ensures Apart(a, b)
  {
  }

  class Server {
    const pool: Pool
    var socketInfo: map<int, SocketInformation>

    ghost function Nodes(k: int): seq<MemNode>
      requires k in socketInfo
      reads this, socketInfo[k].outputChain
    {
      socketInfo[k].outputChain.nodes
    }

    ghost function Chains(): map<int, seq<MemNode>>
      reads this, set k | k in socketInfo :: socketInfo[k].outputChain
    {
      map k | k in socketInfo :: Nodes(k)
    }

    ghost predicate Sound(k: int)
      requires k in socketInfo
      reads *
    {
      socketInfo[k].sockId == k && Chained(socketInfo[k])
    }

    /** Every chain is in order, and the blocks out of the pool are those in the chains, each in one place. */
    ghost predicate Valid()
      reads *
    {
      && pool.Valid() && pool.blockSize == BLOCK_SIZE
      && (forall k :: k in socketInfo ==> Sound(k))
      && Tidy(Chains(), pool.held)
    }

    /** What is queued for a connection. */
    ghost function Queued(k: int): seq<Node>
      reads *
    {
      if k in socketInfo && Blocks(Nodes(k)) then View(Nodes(k)) else []
    }

    /** The objects that make up a connection's line. */
    ghost function Line(k: int): set<object>
      reads this, if k in socketInfo then {socketInfo[k].outputChain} else {}
    {
      if k in socketInfo then {socketInfo[k], socketInfo[k].outputChain} + Set(Nodes(k)) else {}
    }

    constructor ()
      ensures Valid() && socketInfo == map[]
    {
      socketInfo := map[];
      pool := new Pool();
      new;
      RelayPoolsFit();
      var created := pool.CreatPool(BLOCK_SIZE, SEND_BLOCKS, GROW_STEP);
    }

    /** A send task was worked off on one line, and the other lines are as they were. */
    twostate predicate Worked(sock: int, kernel: nat -> int, wire: seq<byte>, new calls: seq<Call>)
      reads *
    {
      && socketInfo == old(socketInfo) && sock in socketInfo && Orderly(old(Queued(sock)))
      && var d := Drain(old(Queued(sock)), kernel, 0);
      && Queued(sock) == d.chain && wire == d.wire
      && socketInfo[sock].waiting == (old(socketInfo[sock].waiting) || d.stalled)
      && |d.finished| <= |old(Nodes(sock))|
      && calls == Calls(old(Nodes(sock))[..|d.finished|], SEND_SUCCEED)
    }

    twostate predicate OthersKept(sock: int)
      reads *
    {
      forall k :: k in socketInfo && k != sock ==> k in old(socketInfo) && Queued(k) == old(Queued(k))
    }

    /** `CSocketSendTask::ProcessTask`: a connection that is gone is left alone. */
    method ProcessTask(sock: int, kernel: nat -> int) returns (wire: seq<byte>, calls: seq<Call>)
      requires Valid()
      modifies Line(sock), pool`held, pool.unused, pool.unused.queue
      ensures Valid() && socketInfo == old(socketInfo) && OthersKept(sock)
      ensures if sock in socketInfo then Worked(sock, kernel, wire, calls) else wire == [] && calls == []
    {
      if sock in socketInfo {
        wire, calls := SendOn(sock, kernel);
      } else {
        wire, calls := [], [];
      }
    }

    method SendOn(sock: int, kernel: nat -> int) returns (wire: seq<byte>, calls: seq<Call>)
      requires Valid() && sock in socketInfo
      modifies Line(sock), pool`held, pool.unused, pool.unused.queue
      ensures Valid() && OthersKept(sock) && Worked(sock, kernel, wire, calls)
    {
      hide Drain, View, Orderly, Calls, Pool.Valid, Tidy, Owns, Chained, Linked, Prepend, Buffers;
      var info := socketInfo[sock];
      ghost var nodes, chains := Nodes(sock), Chains();
      assert Sound(sock);
      LineOf(sock);
      LinesApart(sock);
      var m;
      wire, calls, m := info.SendAll(pool, kernel);
      LinesStay(socketInfo.Keys - {sock});
      TidyReleased(chains, old(pool.held), sock, m);
      assert Chains() == chains[sock := nodes[m..]];
      InOrder(info, pool);
      assert Sound(sock);
    }

    lemma LineOf(k: int)
      requires Valid() && k in socketInfo
      ensures socketInfo[k].Valid(pool) && Orderly(View(Nodes(k)))
      ensures socketInfo[k].outputChain.key == socketInfo[k].sockId == k
    {
      assert Sound(k);
      TidyOwns(Chains(), pool.held, k);
    }

    lemma LinesApart(sock: int)
      requires sock in socketInfo && forall k :: k in socketInfo ==> Sound(k)
      ensures forall k :: k in socketInfo && k != sock ==> Apart(socketInfo[k], socketInfo[sock])
    {
      assert Sound(sock);
      forall k | k in socketInfo && k != sock ensures Apart(socketInfo[k], socketInfo[sock]) {
        assert Sound(k);
        ChainedApart(socketInfo[k], socketInfo[sock]);
      }
    }

    /** Lines that were not touched are as they were. */
    twostate lemma LinesStay(new ks: set<int>)
      requires forall k :: k in ks ==>
                 k in old(socketInfo) && k in socketInfo && socketInfo[k] == old(socketInfo[k])
                 && old(Sound(k)) && Untouched(socketInfo[k])
      ensures forall k :: k in ks ==> Sound(k) && Nodes(k) == old(Nodes(k)) && View(Nodes(k)) == old(View(Nodes(k)))
    {
      forall k | k in ks ensures Sound(k) && Nodes(k) == old(Nodes(k)) && View(Nodes(k)) == old(View(Nodes(k))) {
        StaysChained(socketInfo[k]);
      }
    }

    /** One block was handed out and is in no chain yet. */
    ghost predicate Lent(buf: array<byte>)
      reads *
    {
      && pool.Valid() && pool.blockSize == BLOCK_SIZE && buf.Length == BLOCK_SIZE && buf in pool.held
      && (forall k :: k in socketInfo ==> Sound(k))
      && Tidy(Chains(), pool.held - {buf})
    }

    lemma LentLine(buf: array<byte>, k: int)
      requires Lent(buf) && k in socketInfo
      ensures socketInfo[k].Valid(pool) && Orderly(View(Nodes(k))) && buf !in Buffers(Nodes(k))
      ensures socketInfo[k].outputChain.key == socketInfo[k].sockId == k
    {
      assert Sound(k);
      TidyOwns(Chains(), pool.held - {buf}, k);
    }

    method EnqueueOn(sock: int, buf: array<byte>, len: nat, notify: bool)
      requires Lent(buf) && sock in socketInfo && 0 < len <= BLOCK_SIZE
      modifies socketInfo[sock].outputChain, Nodes(sock)
      ensures Valid() && OthersKept(sock)
      ensures Queued(sock) == old(Queued(sock)) + [Node(buf[..len], 0, notify)]
    {
      hide View, Pool.Valid, Tidy, Owns, Chained, Linked;
      var info := socketInfo[sock];
      ghost var nodes, chains, others := Nodes(sock), Chains(), socketInfo.Keys - {sock};
      assert Sound(sock);
      LentLine(buf, sock);
      LinesApart(sock);
      info.Enqueue(pool, buf, len, notify);
      LinesStay(others);
      ghost var n := Nodes(sock)[|nodes|];
      TidyAdded(chains, pool.held - {buf}, sock, n);
      assert pool.held == pool.held - {buf} + {buf};
      assert Nodes(sock) == nodes + [n];
      assert Chains() == chains[sock := nodes + [n]];
      InOrder(info, pool);
      assert Sound(sock);
    }

    /** Every line is as it was. */
    twostate predicate AllKept()
      reads *
    {
      && socketInfo == old(socketInfo)
      && forall k :: k in socketInfo ==> Nodes(k) == old(Nodes(k)) && Queued(k) == old(Queued(k))
    }

    /** A block is handed out and filled. */
    method Lend(buffer: array<byte>, len: nat) returns (buf: array?<byte>)
      requires Valid() && 0 < len <= BLOCK_SIZE && len <= buffer.Length
      requires buffer !in pool.held && buffer !in pool.Free()
      modifies pool`growCount, pool`blockTotalCount, pool`held, pool.unused, pool.unused.queue, pool.Spare()
      ensures buf == null <==> !old(pool.Ready())
      ensures if buf == null then Valid() else Lent(buf) && buf[..len] == old(buffer[..len])
      ensures AllKept()
    {
      hide View, Tidy, Owns, Chained, Linked;
      ghost var chains := Chains();
      AllBlocksHeld();
      buf := Take(buffer);
      if buf != null {
        FrameRestruct.Copy(buf, 0, buffer, 0, len);
        assert buf[..len] == buf[0..len] && buffer[..len] == buffer[0..len];
      }
      LinesStay(socketInfo.Keys);
      assert Chains() == chains;
    }

    /** A block other than the given array and the blocks in use. */
    method Take(other: array<byte>) returns (buf: array?<byte>)
      requires Valid() && other !in pool.held && other !in pool.Free()
      modifies pool`growCount, pool`blockTotalCount, pool`held, pool.unused, pool.unused.queue
      ensures pool.Valid() && (buf == null <==> !old(pool.Ready()))
      ensures buf == null ==> pool.held == old(pool.held)
      ensures buf != null ==> buf.Length == BLOCK_SIZE && buf !in old(pool.held) && buf in pool.held
      ensures buf != null ==> pool.held - {buf} == old(pool.held)
      ensures buf != null ==> buf != other && (fresh(buf) || buf in old(pool.Spare()))
    {
      buf := pool.GetBlock();
    }

    lemma AllBlocksHeld()
      requires Valid()
      ensures forall k, n :: k in socketInfo && n in Nodes(k) ==> n.buffer in pool.held
    {
      forall k, n | k in socketInfo && n in Nodes(k) ensures n.buffer in pool.held {
        TidyOwns(Chains(), pool.held, k);
        assert n in Chains()[k];
      }
    }

    /** A block that was handed out goes back unused. */
    method GiveBack(buf: array<byte>)
      requires Lent(buf)
      modifies pool`held, pool.unused, pool.unused.queue
      ensures Valid() && AllKept()
    {
      hide View, Tidy, Owns, Chained, Linked;
      ghost var chains := Chains();
      var freed := pool.FreeBlock(buf);
      LinesStay(socketInfo.Keys);
      assert Chains() == chains;
    }

    /** `SendData`: a copy of the buffer goes to the end of the line, or nothing is changed. */
    method SendData(sock: int, buffer: array?<byte>, len: int, notify: bool) returns (ok: bool, scheduled: bool)
      requires Valid()
      requires buffer != null ==> len <= buffer.Length && buffer !in pool.held && buffer !in pool.Free()
      modifies Line(sock), pool`growCount, pool`blockTotalCount, pool`held, pool.unused, pool.unused.queue, pool.Spare()
      ensures Valid() && socketInfo == old(socketInfo) && OthersKept(sock)
      ensures ok <==> buffer != null && 0 < len <= BLOCK_SIZE && sock in socketInfo && old(pool.Ready())
      ensures sock in socketInfo ==>
                Queued(sock) == old(Queued(sock)) + if ok then [Node(old(buffer[..len]), 0, notify)] else []
      ensures scheduled <==> ok && !old(socketInfo[sock].waiting)
    {
      hide View, Tidy, Owns, Chained, Linked, Pool.Valid, Sound;
      scheduled := false;
      if buffer == null || len <= 0 || len > BLOCK_SIZE {
        return false, false;
      }
      var buf := Lend(buffer, len);
      if buf == null {
        return false, false;
      }
      if sock !in socketInfo {
        GiveBack(buf);
        return false, false;
      }
      EnqueueOn(sock, buf, len, notify);
      if !socketInfo[sock].waiting {
        scheduled := true;
      }
      return true, scheduled;
    }

    /** A new connection's line is empty; one that is there already stays. */
    method AddSocket(sock: int)
      requires Valid()
      modifies this`socketInfo
      ensures Valid() && OthersKept(sock)
      ensures if sock in old(socketInfo) then socketInfo == old(socketInfo)
              else sock in socketInfo && socketInfo == old(socketInfo)[sock := socketInfo[sock]]
                   && fresh(socketInfo[sock]) && Queued(sock) == []
                   && !socketInfo[sock].waiting && socketInfo[sock].enableRead
    {
      hide Tidy, Owns, Linked, Pool.Valid, Chained, View;
      ghost var chains, ks := Chains(), socketInfo.Keys;
      var added := new SocketInformation(sock);
      if sock !in socketInfo {
        TidyEmpty(chains, pool.held, sock);
        socketInfo := socketInfo[sock := added];
        EmptyLine(added);
        LinesStay(ks);
        assert Chains() == chains[sock := []];
        assert Sound(sock);
      }
    }

    /** A line that was taken out of the table and is not released yet. */
    ghost predicate Detached(info: SocketInformation)
      reads *
    {
      && pool.Valid() && pool.blockSize == BLOCK_SIZE
      && info.sockId !in socketInfo && info.Valid(pool)
      && (forall k :: k in socketInfo ==> Sound(k) && Apart(socketInfo[k], info))
      && Tidy(Chains()[info.sockId := info.outputChain.nodes], pool.held)
    }

    /** Its buffers are reported failed and its blocks go back. */
    method Reclaim(info: SocketInformation) returns (calls: seq<Call>)
      requires Detached(info)
      modifies info.outputChain, pool`held, pool.unused, pool.unused.queue
      ensures Valid() && socketInfo == old(socketInfo)
      ensures forall k :: k in socketInfo ==> Queued(k) == old(Queued(k))
      ensures calls == Calls(old(info.outputChain.nodes), SEND_FAILD)
    {
      hide Tidy, Owns, Linked, Pool.Valid, Chained, Calls, View;
      ghost var nodes, sock := info.outputChain.nodes, info.sockId;
      ghost var chains := Chains()[sock := nodes];
      calls := info.ReleaseAll(pool);
      LinesStay(socketInfo.Keys);
      TidyReleased(chains, old(pool.held), sock, |nodes|);
      assert nodes[..|nodes|] == nodes && nodes[|nodes|..] == [];
      TidyEmpty(chains[sock := []], pool.held, sock);
      assert Chains() == chains[sock := []] - {sock};
    }

    /** `RemoveSocket`: the line leaves the table first and is released afterwards. */
    method RemoveSocket(sock: int) returns (calls: seq<Call>)
      requires Valid()
      modifies this`socketInfo, Line(sock), pool`held, pool.unused, pool.unused.queue
      ensures Valid() && socketInfo == old(socketInfo) - {sock} && OthersKept(sock)
      ensures calls == if sock in old(socketInfo) then Calls(old(Nodes(sock)), SEND_FAILD) else []
    {
      hide Tidy, Owns, Linked, Pool.Valid, Chained, Calls, View;
      calls := [];
      if sock in socketInfo {
        ghost var chains := Chains();
        LineOf(sock);
        LinesApart(sock);
        var info := socketInfo[sock];
        socketInfo := socketInfo - {sock};
        assert forall k :: k in socketInfo ==> old(Sound(k));
        LinesStay(socketInfo.Keys);
        assert Chains()[sock := info.outputChain.nodes] == chains;
        assert forall k :: k in socketInfo ==> Queued(k) == old(Queued(k));
        calls := Reclaim(info);
      }
    }

    /** `ModifyRead`, where `ctl` is what `epoll_ctl` answers; it is asked only when the flag changes. */
    method ModifyRead(sock: int, enable: bool, ctl: int) returns (ret: bool)
      requires Valid()
      modifies if sock in socketInfo then {socketInfo[sock]} else {}
      ensures Valid() && AllKept()
      ensures sock in socketInfo ==>
                socketInfo[sock].enableRead == enable && socketInfo[sock].waiting == old(socketInfo[sock].waiting)
      ensures !ret <==> sock in socketInfo && old(socketInfo[sock].enableRead) != enable && ctl < 0
    {
      hide Tidy, Owns, Linked, Pool.Valid, Chained, View;
      if sock !in socketInfo || enable == socketInfo[sock].enableRead {
        return true;
      }
      ghost var chains := Chains();
      socketInfo[sock].enableRead := enable;
      LinesStay(socketInfo.Keys);
      assert Chains() == chains;
      return ctl >= 0;
    }

    /** The socket can be written again: it is not waiting any more, and a send task is asked for. */
    method Writable(sock: int) returns (scheduled: bool)
      requires Valid()
      modifies if sock in socketInfo then {socketInfo[sock]} else {}
      ensures Valid() && AllKept()
      ensures scheduled <==> sock in socketInfo
      ensures scheduled ==> !socketInfo[sock].waiting && socketInfo[sock].enableRead == old(socketInfo[sock].enableRead)
    {
      hide Tidy, Owns, Linked, Pool.Valid, Chained, View;
      if sock !in socketInfo {
        return false;
      }
      ghost var chains := Chains();
      socketInfo[sock].waiting := false;
      LinesStay(socketInfo.Keys);
      assert Chains() == chains;
      return true;
    }
  }
}
