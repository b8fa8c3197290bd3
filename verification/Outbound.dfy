/**
 One connection's output: the chain of buffers waiting to be written, and what the kernel's answers
 to `send` do to it.
 */
module Outbound {
  import opened FrameParser

  /** What a sender's callback is told of a buffer. */
  const SEND_SUCCEED := 0
  const SEND_FAILD := 1

  /** A queued buffer, the part of it already written, and whether its sender asked to be called back. */
  datatype Node = Node(data: seq<byte>, begin: nat, notify: bool) {
    predicate Valid() {
      begin < |data| <= BLOCK_SIZE
    }

    function Left(): seq<byte>
      requires Valid()
    {
      data[begin..]
    }
  }

  /** Only the head of a chain may be partly written. */
  predicate Orderly(chain: seq<Node>) {
    forall i :: 0 <= i < |chain| ==> chain[i].Valid() && (i > 0 ==> chain[i].begin == 0)
  }

  function Unsent(chain: seq<Node>): seq<byte>
    requires Orderly(chain)
  {
    if chain == [] then [] else chain[0].Left() + Unsent(chain[1..])
  }

  function Datas(chain: seq<Node>): (ds: seq<seq<byte>>)
    ensures |ds| == |chain|
  {
    seq(|chain|, i requires 0 <= i < |chain| => chain[i].data)
  }

  /** What `send` may answer for `n` bytes: an error, or between one and `n` bytes accepted. */
  function Kernel(answer: int, n: nat): (r: int)
    ensures r <= n && r != 0
    ensures n > 0 && answer < 0 ==> r < 0
    ensures 1 <= answer <= n ==> r == answer
  {
    if answer <= 0 || n == 0 then -1 else if answer > n then n else answer
  }

  /** The outcome of one `send` on a chain: what is left, what went out, and the buffer that is finished, if any. */
  datatype Outcome = Failed | Short(chain: seq<Node>, wire: seq<byte>) | Finished(chain: seq<Node>, wire: seq<byte>)

  function SendOnce(chain: seq<Node>, answer: int): Outcome
    requires chain != [] && Orderly(chain)
  {
    var head := chain[0];
    var r := Kernel(answer, |head.Left()|);
    if r < 0 then Failed
    else if r < |head.Left()| then
      Short([head.(begin := head.begin + r)] + chain[1..], head.Left()[..r])
    else Finished(chain[1..], head.Left())
  }

  /** No byte is lost, repeated or reordered by a send, and the chain stays orderly. */
  lemma SendConserves(chain: seq<Node>, answer: int)
    requires chain != [] && Orderly(chain)
    ensures var o := SendOnce(chain, answer);
            o.Failed? || (Orderly(o.chain) && o.wire != [] && o.wire + Unsent(o.chain) == Unsent(chain))
  {
    match SendOnce(chain, answer)
    case Failed =>
    case Finished(rest, wire) =>
    case Short(rest, wire) =>
      var more := Unsent(chain[1..]);
      assert rest[1..] == chain[1..];
      assert chain[0].Left() == wire + rest[0].Left();
      assert wire + (rest[0].Left() + more) == (wire + rest[0].Left()) + more;
  }

  // ----- the whole send task -----

  datatype Drained = Drained(chain: seq<Node>, wire: seq<byte>, finished: seq<Node>, stalled: bool)

  /** The loop of the send task, where the `call`-th `send` of the task gets the answer `kernel(call)`. */
  function Drain(chain: seq<Node>, kernel: nat -> int, call: nat): Drained
    requires Orderly(chain)
    decreases chain
  {
    if chain == [] then Drained([], [], [], false)
    else match SendOnce(chain, kernel(call))
      case Failed => Drained(chain, [], [], false)
      case Short(rest, wire) => Drained(rest, wire, [], true)
      case Finished(rest, wire) =>
        var d := Drain(rest, kernel, call + 1);
        d.(wire := wire + d.wire, finished := [chain[0]] + d.finished)
  }

  lemma DatasCons(n: Node, chain: seq<Node>)
    ensures Datas([n] + chain) == [n.data] + Datas(chain)
  {
  }

  /**
   Over a whole send task, the bytes written followed by the bytes left are the bytes that were queued, and
   every buffer is either finished or still queued, in order.
   */
  lemma {:induction false} DrainConserves(chain: seq<Node>, kernel: nat -> int, call: nat)
    requires Orderly(chain)
    ensures var d := Drain(chain, kernel, call);
            && Orderly(d.chain)
            && d.wire + Unsent(d.chain) == Unsent(chain)
            && Datas(d.finished) + Datas(d.chain) == Datas(chain)
            && |d.finished| <= |chain| && d.finished == chain[..|d.finished|]
            && (d.stalled ==> d.chain != [] && d.chain[0].begin > 0)
    decreases chain
  {
    if chain != [] {
      SendConserves(chain, kernel(call));
      match SendOnce(chain, kernel(call))
      case Failed =>
      case Short(rest, wire) => assert Datas(rest) == Datas(chain);
      case Finished(rest, wire) =>
        DrainConserves(rest, kernel, call + 1);
        var d := Drain(rest, kernel, call + 1);
        assert wire + d.wire + Unsent(d.chain) == wire + (d.wire + Unsent(d.chain));
        DatasCons(chain[0], rest);
        DatasCons(chain[0], d.finished);
        assert [chain[0]] + rest == chain;
    }
  }

  /** A kernel that takes everything it is offered empties the chain. */
  lemma {:induction false} WillingKernelDrains(chain: seq<Node>, kernel: nat -> int, call: nat)
    requires Orderly(chain) && forall c :: kernel(c) >= BLOCK_SIZE
    ensures Drain(chain, kernel, call).chain == [] && Drain(chain, kernel, call).finished == chain
    decreases chain
  {
    if chain != [] {
      WillingKernelDrains(chain[1..], kernel, call + 1);
    }
  }
}
