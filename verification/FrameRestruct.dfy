/**
 The streaming parser of FrameRestruct.cpp: it scans the carry of earlier calls and the received buffer as
 one run of bytes, cuts out frames into pool blocks, and shifts what is left to the front of the carry.
 */
module FrameRestruct {
  import opened FrameParser
  import opened MemPool
  import RingQueue

  const EXIT_BUFFER_LEN := 2048

  /** A frame queued for a worker: the first `len` bytes of a pool block. */
  datatype FrameTask = FrameTask(sock: int, block: array<byte>, len: nat)

  ghost predicate Holds(t: FrameTask, f: seq<byte>)
    reads t.block
  {
    t.block.Length == BLOCK_SIZE && t.len == |f| <= BLOCK_SIZE && t.block[..t.len] == f
  }

  /** Every task has a block of its own that is out of the pool. */
  ghost predicate Taken(tasks: seq<FrameTask>, held: set<array<byte>>) {
    && (forall t :: t in tasks ==> t.block in held)
    && forall i, j :: 0 <= i < j < |tasks| ==> tasks[i].block != tasks[j].block
  }

  ghost function BlocksOf(tasks: seq<FrameTask>): set<array<byte>> {
    set t | t in tasks :: t.block
  }

  /** `memcpy` between distinct arrays. */
  method Copy(dst: array<byte>, at: nat, src: array<byte>, from: nat, n: nat)
    requires dst != src && at + n <= dst.Length && from + n <= src.Length
    modifies dst
    ensures dst[..at] == old(dst[..at]) && dst[at..at + n] == src[from..from + n] && dst[at + n..] == old(dst[at + n..])
  {
    for i := 0 to n
      invariant dst[..at] == old(dst[..at]) && dst[at..at + i] == src[from..from + i]
                  && dst[at + n..] == old(dst[at + n..])
    {
      dst[at + i] := src[from + i];
      assert dst[at..at + i + 1] == dst[at..at + i] + [src[from + i]];
      assert src[from..from + i + 1] == src[from..from + i] + [src[from + i]];
    }
  }

  /** The shift loop of `CopyRestToExitBuff`: bytes `from..end` move to the front, one by one. */
  method ShiftDown(a: array<byte>, from: nat, end: nat) returns (index: nat)
    requires from <= end <= a.Length
    modifies a
    ensures index == end - from && a[..index] == old(a[from..end])
  {
    index := 0;
    for i := from to end
      invariant index == i - from
      invariant a[..index] == old(a[from..i])
      invariant a[i..] == old(a[i..])
    {
      assert a[i..][0] == old(a[i..])[0];
      a[index] := a[i];
      index := index + 1;
    }
  }

  lemma SliceOfConcat(a: seq<byte>, b: seq<byte>, i: nat, n: nat)
    requires i + n <= |a| + |b|
    ensures (a + b)[i..i + n]
         == if i + n <= |a| then a[i..i + n]
            else if i < |a| then a[i..] + b[..n - (|a| - i)]
            else b[i - |a|..i - |a| + n]
  {
    var s := (a + b)[i..i + n];
    if i + n <= |a| {
      assert forall k :: 0 <= k < n ==> s[k] == a[i..i + n][k];
    } else if i < |a| {
      assert forall k :: 0 <= k < n ==> s[k] == (a[i..] + b[..n - (|a| - i)])[k];
    } else {
      assert forall k :: 0 <= k < n ==> s[k] == b[i - |a|..i - |a| + n][k];
    }
  }

  lemma SliceOfPart(a: array<byte>, len: nat, i: nat, j: nat)
    requires i <= j <= len <= a.Length
    ensures a[..len][i..j] == a[i..j]
  {
    assert forall k :: 0 <= k < j - i ==> a[..len][i..j][k] == a[i..j][k];
  }

  /** A slice of two buffers taken as one. */
  lemma SliceOfTwo(x: array<byte>, xLen: nat, y: array<byte>, yLen: nat, i: nat, n: nat)
    requires xLen <= x.Length && yLen <= y.Length && i + n <= xLen + yLen
    ensures (x[..xLen] + y[..yLen])[i..i + n]
         == if i + n <= xLen then x[i..i + n]
            else if i < xLen then x[i..xLen] + y[..n - (xLen - i)]
            else y[i - xLen..i - xLen + n]
  {
    SliceOfConcat(x[..xLen], y[..yLen], i, n);
    if i + n <= xLen {
      SliceOfPart(x, xLen, i, i + n);
    } else if i < xLen {
      SliceOfPart(x, xLen, i, xLen);
      SliceOfPart(y, yLen, 0, n - (xLen - i));
      assert x[..xLen][i..] == x[..xLen][i..xLen] && y[..yLen][..n - (xLen - i)] == y[..yLen][0..n - (xLen - i)];
      assert y[0..n - (xLen - i)] == y[..n - (xLen - i)];
    } else {
      SliceOfPart(y, yLen, i - xLen, i - xLen + n);
    }
  }

  class Restructurer {
    const exitBuffer: array<byte>
    var exitLen: int

    /** What is kept between calls: nothing, or the start of a frame. */
    ghost predicate Valid()
      reads this, exitBuffer
    {
      && exitBuffer.Length == EXIT_BUFFER_LEN && 0 <= exitLen < LEN_MAX
      && (Carry() == [] || Undecided(Carry()))
    }

    ghost function Carry(): seq<byte>
      requires 0 <= exitLen <= exitBuffer.Length
      reads this, exitBuffer
    {
      exitBuffer[..exitLen]
    }

    constructor ()
      ensures Valid() && Carry() == [] && fresh(exitBuffer)
    {
      exitBuffer := new byte[EXIT_BUFFER_LEN](_ => 0);
      exitLen := 0;
    }

    /** The two buffers as one. */
    ghost function All(recv: array<byte>, recvLen: nat): seq<byte>
      requires 0 <= exitLen <= exitBuffer.Length && recvLen <= recv.Length
      reads this, exitBuffer, recv
    {
      exitBuffer[..exitLen] + recv[..recvLen]
    }

    ghost predicate Ready(recv: array<byte>, recvLen: nat)
      reads this, exitBuffer
    {
      exitBuffer.Length == EXIT_BUFFER_LEN && 0 <= exitLen < LEN_MAX && recvLen <= recv.Length && recv != exitBuffer
    }

    /** The first head at or after `curIndex`, or -1. */
    method GetHeadIndex(curIndex: nat, recv: array<byte>, recvLen: nat) returns (r: int)
      requires Ready(recv, recvLen) && curIndex <= exitLen + recvLen
      ensures r == -1 ==> HEAD !in All(recv, recvLen)[curIndex..]
      ensures r != -1 ==> curIndex <= r < |All(recv, recvLen)| && All(recv, recvLen)[r] == HEAD
                          && HEAD !in All(recv, recvLen)[curIndex..r]
    {
      r := -1;
      for i := curIndex to exitLen + recvLen
        invariant HEAD !in All(recv, recvLen)[curIndex..i]
      {
        assert All(recv, recvLen)[curIndex..i + 1] == All(recv, recvLen)[curIndex..i] + [All(recv, recvLen)[i]];
        if i < exitLen {
          if exitBuffer[i] == HEAD {
            return i;
          }
        } else {
          if recv[i - exitLen] == HEAD {
            return i;
          }
        }
      }
    }

    /** The declared length of the frame at `curIndex`, or -1 when it is out of bounds. */
    method GetFrameLen(curIndex: nat, recv: array<byte>, recvLen: nat) returns (n: int)
      requires Ready(recv, recvLen) && curIndex + LEN_MIN <= exitLen + recvLen
      ensures var d := DeclaredLen(All(recv, recvLen)[curIndex..]);
              n == if LEN_MIN <= d <= LEN_MAX then d else -1
    {
      n := -1;
      if curIndex < exitLen - 2 {
        n := exitBuffer[curIndex + 1] as int * 256 + exitBuffer[curIndex + 2] as int;
      } else if curIndex == exitLen - 2 {
        n := exitBuffer[curIndex + 1] as int * 256 + recv[0] as int;
      } else if curIndex > exitLen - 2 {
        n := recv[curIndex + 1 - exitLen] as int * 256 + recv[curIndex + 2 - exitLen] as int;
      }
      if n < LEN_MIN || n > LEN_MAX {
        n := -1;
      }
    }

    /** Whether the frame of length `frameLen` at `curIndex` ends with the tail byte. */
    method CheckSum(curIndex: nat, recv: array<byte>, recvLen: nat, frameLen: nat) returns (ok: bool)
      requires Ready(recv, recvLen) && 0 < frameLen && curIndex + frameLen <= exitLen + recvLen
      ensures ok <==> All(recv, recvLen)[curIndex + frameLen - 1] == TAIL
    {
      var code: byte;
      if curIndex < exitLen && curIndex + frameLen <= exitLen {
        code := exitBuffer[curIndex + frameLen - 1];
      } else {
        code := recv[curIndex - exitLen + frameLen - 1];
      }
      ok := code == TAIL;
    }

    /** Copies the frame at `curIndex` to the front of a block. */
    method CopyFrame(curIndex: nat, recv: array<byte>, recvLen: nat, frameLen: nat, block: array<byte>)
      requires Ready(recv, recvLen) && frameLen <= LEN_MAX && curIndex + frameLen <= exitLen + recvLen
      requires block.Length == BLOCK_SIZE && block != recv && block != exitBuffer
      modifies block
      ensures block[..frameLen] == old(All(recv, recvLen))[curIndex..curIndex + frameLen]
    {
      SliceOfTwo(exitBuffer, exitLen, recv, recvLen, curIndex, frameLen);
      ghost var want := All(recv, recvLen)[curIndex..curIndex + frameLen];
      if curIndex < exitLen && curIndex + frameLen <= exitLen {
        assert want == exitBuffer[curIndex..curIndex + frameLen];
        Copy(block, 0, exitBuffer, curIndex, frameLen);
        assert block[..frameLen] == block[0..frameLen];
      } else if curIndex < exitLen && curIndex + frameLen > exitLen {
        var kept := exitLen - curIndex;
        assert want == exitBuffer[curIndex..exitLen] + recv[..frameLen - kept];
        Copy(block, 0, exitBuffer, curIndex, kept);
        assert block[..kept] == block[0..kept];
        Copy(block, kept, recv, 0, frameLen - kept);
        assert kept + (frameLen - kept) == frameLen;
        assert block[kept..frameLen] == recv[0..frameLen - kept] == recv[..frameLen - kept];
        assert block[..frameLen] == block[..kept] + block[kept..frameLen];
      } else {
        assert want == recv[curIndex - exitLen..curIndex - exitLen + frameLen];
        Copy(block, 0, recv, curIndex - exitLen, frameLen);
        assert block[..frameLen] == block[0..frameLen];
      }
    }

    /** The pool hands out blocks of the right size, and neither buffer is one of them. */
    ghost predicate Supplied(pool: Pool, recv: array<byte>)
      reads pool, pool.unused, pool.unused.queue
    {
      && pool.Valid() && pool.blockSize == BLOCK_SIZE
      && recv !in pool.held && recv !in pool.Free()
      && exitBuffer !in pool.held && exitBuffer !in pool.Free()
    }

    method GetBuffer(pool: Pool, recv: array<byte>) returns (block: array?<byte>)
      requires Supplied(pool, recv)
      modifies pool`growCount, pool`blockTotalCount, pool`held, pool.unused, pool.unused.queue
      ensures Supplied(pool, recv) && OnlyOldOrFresh(pool)
      ensures block == null <==> !old(pool.Ready())
      ensures block == null ==> !pool.Ready() && pool.held == old(pool.held)
      ensures block != null ==>
                && block.Length == BLOCK_SIZE && block != recv && block != exitBuffer
                && block !in old(pool.held) && pool.held == old(pool.held) + {block}
                && (fresh(block) || block in old(pool.Spare()))
    {
      block := pool.GetBlock();
    }

    /**
     Where the pool stands after `asked` frames: the tasks have the blocks that went out since `before`, and a frame
     went without one only when the pool was exhausted.
     */
    ghost predicate Drawn(pool: Pool, recv: array<byte>, tasks: seq<FrameTask>, before: set<array<byte>>, asked: nat)
      reads pool, pool.unused, pool.unused.queue
    {
      && Supplied(pool, recv) && Taken(tasks, pool.held)
      && pool.held == before + BlocksOf(tasks) && BlocksOf(tasks) !! before
      && |tasks| <= asked && (|tasks| < asked ==> !pool.Ready())
    }

    /** Hands the frame on in a block of its own, when the pool has one. */
    method SaveFrame(
      sock: int, curIndex: nat, recv: array<byte>, recvLen: nat, frameLen: nat, pool: Pool,
      tasks: seq<FrameTask>, ghost found: seq<seq<byte>>, ghost before: set<array<byte>>)
      returns (saved: bool, tasks': seq<FrameTask>)
      requires Ready(recv, recvLen) && frameLen <= LEN_MAX && curIndex + frameLen <= exitLen + recvLen
      requires Drawn(pool, recv, tasks, before, |found|) && AreTasks(tasks, sock, found[..|tasks|])
      modifies pool`growCount, pool`blockTotalCount, pool`held, pool.unused, pool.unused.queue, pool.Spare()
      ensures OnlyOldOrFresh(pool) && unchanged(this) && All(recv, recvLen) == old(All(recv, recvLen))
      ensures saved <==> old(pool.Ready())
      ensures |tasks'| == |tasks| + if saved then 1 else 0
      ensures Drawn(pool, recv, tasks', before, |found| + 1)
      ensures AreTasks(tasks', sock, (found + [All(recv, recvLen)[curIndex..curIndex + frameLen]])[..|tasks'|])
    {
      hide Pool.Valid, BlocksOf;
      ghost var f := All(recv, recvLen)[curIndex..curIndex + frameLen];
      var block := GetBuffer(pool, recv);
      if block == null {
        assert (found + [f])[..|tasks|] == found[..|tasks|];
        return false, tasks;
      }
      CopyFrame(curIndex, recv, recvLen, frameLen, block);
      assert found[..|tasks|] == found && (found + [f])[..|tasks| + 1] == found + [f];
      ghost var task := FrameTask(sock, block, frameLen);
      OneMoreTask(tasks, sock, found, task, f);
      OneMoreTaken(tasks, old(pool.held), before, task);
      return true, tasks + [FrameTask(sock, block, frameLen)];
    }

    /** Keeps everything from `curIndex` on, at the front of the carry. */
    method CopyRestToExitBuff(curIndex: nat, recv: array<byte>, recvLen: nat)
      requires Ready(recv, recvLen) && curIndex <= exitLen + recvLen < curIndex + LEN_MAX
      modifies this, exitBuffer
      ensures 0 <= exitLen <= exitBuffer.Length && Carry() == old(All(recv, recvLen))[curIndex..]
    {
      SliceOfTwo(exitBuffer, exitLen, recv, recvLen, curIndex, exitLen + recvLen - curIndex);
      if curIndex < exitLen {
        var index := ShiftDown(exitBuffer, curIndex, exitLen);
        Copy(exitBuffer, index, recv, 0, recvLen);
        exitLen := index + recvLen;
        assert exitBuffer[..exitLen] == exitBuffer[..index] + exitBuffer[index..exitLen];
      } else {
        Copy(exitBuffer, 0, recv, curIndex - exitLen, exitLen + recvLen - curIndex);
        exitLen := exitLen + recvLen - curIndex;
      }
    }

    /** One turn of the loop of `RestructFrame`, up to the point where it acts. */
    method Judge(curIndex: nat, recv: array<byte>, recvLen: nat, ghost all: seq<byte>) returns (v: Verdict)
      requires Ready(recv, recvLen) && curIndex <= exitLen + recvLen && all == All(recv, recvLen)
      ensures Right(all, curIndex, v)
    {
      hide Parse;
      var head := GetHeadIndex(curIndex, recv, recvLen);
      ToHead(all, curIndex, head);
      if head == -1 {
        return Nothing;
      }
      if head + LEN_MIN > exitLen + recvLen {
        Waits(all, head);
        return Unfinished(head);
      }
      var frameLen := GetFrameLen(head, recv, recvLen);
      if head + frameLen > exitLen + recvLen {
        Waits(all, head);
        return Unfinished(head);
      }
      if frameLen == -1 {
        SkipOne(all, head);
        return NoFrame(head);
      }
      var ok := CheckSum(head, recv, recvLen, frameLen);
      FrameTest(all, head, frameLen);
      if !ok {
        SkipOne(all, head);
        return NoFrame(head);
      }
      ParseAt(all, head);
      return Complete(head, frameLen);
    }

    lemma BlocksAreElsewhere(
      pool: Pool, recv: array<byte>, tasks: seq<FrameTask>, before: set<array<byte>>, asked: nat)
      requires Drawn(pool, recv, tasks, before, asked)
      ensures forall t :: t in tasks ==> t.block != exitBuffer
    {
    }

    lemma NoneYet(pool: Pool, recv: array<byte>)
      requires Supplied(pool, recv)
      ensures Drawn(pool, recv, [], pool.held, 0) && pool.unused.Valid()
    {
    }

    /**
     One call of the parser: the first frames of the carry and the received bytes together, each in a block of its
     own; as many as the pool has blocks for; and the new carry.
     */
    method RestructFrame(sock: int, recv: array<byte>, recvLen: nat, pool: Pool)
      returns (count: int, tasks: seq<FrameTask>)
      requires Valid() && recvLen <= recv.Length && recv != exitBuffer && Supplied(pool, recv)
      modifies this, exitBuffer, FreeBlocks(pool)
      modifies pool`growCount, pool`blockTotalCount, pool`held, pool.unused, pool.unused.queue
      ensures Valid() && Carry() == Parse(old(Carry() + recv[..recvLen])).rest
      ensures count == |tasks| <= |Parse(old(Carry() + recv[..recvLen])).frames|
      ensures AreTasks(tasks, sock, Parse(old(Carry() + recv[..recvLen])).frames[..count])
      ensures Drawn(pool, recv, tasks, old(pool.held), |Parse(old(Carry() + recv[..recvLen])).frames|)
    {
      hide Parse, Progress, Drawn, Supplied, Pool.Valid, Pool.Ready, Holds, FreeBlocks, Pool.Spare, RingQueue.Window;
      hide Pool.Free;
      NoneYet(pool, recv);
      ghost var all, found := All(recv, recvLen), [];
      var curIndex := 0;
      count, tasks := 0, [];
      RestIsPending(all);
      Outset(all);
      while true
        invariant Ready(recv, recvLen) && exitLen == old(exitLen) && All(recv, recvLen) == all
        invariant 0 <= curIndex && count == |tasks| <= |found|
        invariant Progress(all, found, curIndex)
        invariant AreTasks(tasks, sock, found[..count])
        invariant Drawn(pool, recv, tasks, old(pool.held), |found|)
        invariant OnlyOldOrFresh(pool)
        decreases |all| - curIndex
      {
        if curIndex > exitLen + recvLen {
          Ends(all, found, curIndex, []);
          exitLen := 0;
          break;
        }
        var v := Judge(curIndex, recv, recvLen, all);
        match v
        case Nothing =>
          Ends(all, found, curIndex, []);
          exitLen := 0;
          break;
        case Unfinished(head) =>
          Ends(all, found, curIndex, all[head..]);
          BlocksAreElsewhere(pool, recv, tasks, old(pool.held), |found|);
          CopyRestToExitBuff(head, recv, recvLen);
          break;
        case NoFrame(head) =>
          Skips(all, found, curIndex, head + 1);
          curIndex := head + 1;
        case Complete(head, frameLen) =>
          ghost var f := all[head..head + frameLen];
          Emits(all, found, curIndex, f, head + frameLen);
          SpareIsOldOrFresh(pool);
          var saved;
          saved, tasks := SaveFrame(sock, head, recv, recvLen, frameLen, pool, tasks, found, old(pool.held));
          if saved {
            count := count + 1;
          }
          found, curIndex := found + [f], head + frameLen;
      }
    }
  }

  /** What a free block now is, was free before or is new. */
  twostate predicate OnlyOldOrFresh(pool: Pool)
    reads pool, pool.unused, pool.unused.queue
  {
    old(pool.unused.Valid()) && pool.unused.Valid() && forall b :: b in pool.Free() ==>
      b in old(pool.Free()) || fresh(b)
  }

  twostate lemma SpareIsOldOrFresh(pool: Pool)
    requires OnlyOldOrFresh(pool)
    ensures forall o :: o in pool.Spare() ==> o in old(FreeBlocks(pool)) || fresh(o)
  {
    forall o | o in pool.Spare() ensures o in old(FreeBlocks(pool)) || fresh(o) {
      assert pool.Free()[0] in pool.Free();
    }
  }

  ghost function FreeBlocks(pool: Pool): set<array<byte>>
    reads pool, pool.unused, pool.unused.queue
  {
    if pool.unused.Valid() then set b: array<byte> | b in pool.Free() else {}
  }

  /** What one turn of the loop sees: no head, a head to keep for the next call, a head without a frame, or a frame. */
  datatype Verdict = Nothing | Unfinished(at: nat) | NoFrame(at: nat) | Complete(at: nat, len: nat)

  /** The verdict agrees with the parser. */
  ghost predicate Right(all: seq<byte>, i: nat, v: Verdict)
    requires i <= |all|
  {
    match v
    case Nothing => ParseFrom(all, i) == Parsed([], [])
    case Unfinished(at) =>
      at <= |all| < at + LEN_MAX && Undecided(all[at..]) && ParseFrom(all, i) == Parsed([], all[at..])
    case NoFrame(at) => i <= at < |all| && ParseFrom(all, i) == ParseFrom(all, at + 1)
    case Complete(at, len) =>
      && i <= at && LEN_MIN <= len <= LEN_MAX && at + len <= |all|
      && ParseFrom(all, i)
        == Parsed([all[at..at + len]] + ParseFrom(all, at + len).frames, ParseFrom(all, at + len).rest)
  }

  /** Task `i` holds frame `i`. */
  ghost predicate AreTasks(tasks: seq<FrameTask>, sock: int, frames: seq<seq<byte>>)
    reads set t | t in tasks :: t.block
  {
    && |tasks| == |frames|
    && forall i :: 0 <= i < |tasks| ==> tasks[i].sock == sock && Holds(tasks[i], frames[i])
  }

  lemma OneMoreTask(tasks: seq<FrameTask>, sock: int, frames: seq<seq<byte>>, t: FrameTask, f: seq<byte>)
    requires AreTasks(tasks, sock, frames) && t.sock == sock && Holds(t, f)
    ensures AreTasks(tasks + [t], sock, frames + [f])
  {
  }

  lemma OneMoreTaken(tasks: seq<FrameTask>, held: set<array<byte>>, before: set<array<byte>>, t: FrameTask)
    requires Taken(tasks, held) && held == before + BlocksOf(tasks) && BlocksOf(tasks) !! before && t.block !in held
    ensures Taken(tasks + [t], held + {t.block})
    ensures held + {t.block} == before + BlocksOf(tasks + [t]) && BlocksOf(tasks + [t]) !! before
  {
    assert BlocksOf(tasks + [t]) == BlocksOf(tasks) + {t.block};
  }

  // ----- how far the parse has come -----

  ghost function ParseFrom(all: seq<byte>, i: nat): Parsed {
    if i <= |all| then Parse(all[i..]) else Parsed([], [])
  }

  /** The frames found before index `i`, and those the parser finds from there on, are all frames. */
  ghost predicate Progress(all: seq<byte>, found: seq<seq<byte>>, i: nat) {
    Parse(all) == Parsed(found + ParseFrom(all, i).frames, ParseFrom(all, i).rest)
  }

  lemma Outset(all: seq<byte>)
    ensures Progress(all, [], 0)
  {
    assert all[0..] == all && [] + Parse(all).frames == Parse(all).frames;
  }

  lemma Ends(all: seq<byte>, found: seq<seq<byte>>, i: nat, rest: seq<byte>)
    requires Progress(all, found, i) && ParseFrom(all, i) == Parsed([], rest)
    ensures Parse(all) == Parsed(found, rest)
  {
    assert found + [] == found;
  }

  lemma Skips(all: seq<byte>, found: seq<seq<byte>>, i: nat, next: nat)
    requires Progress(all, found, i) && ParseFrom(all, i) == ParseFrom(all, next)
    ensures Progress(all, found, next)
  {
  }

  lemma Emits(all: seq<byte>, found: seq<seq<byte>>, i: nat, f: seq<byte>, next: nat)
    requires Progress(all, found, i)
    requires ParseFrom(all, i) == Parsed([f] + ParseFrom(all, next).frames, ParseFrom(all, next).rest)
    ensures Progress(all, found + [f], next)
  {
    assert found + ([f] + ParseFrom(all, next).frames) == (found + [f]) + ParseFrom(all, next).frames;
  }

  /** Skipping to the next head changes nothing for the parser. */
  lemma ToHead(all: seq<byte>, i: nat, head: int)
    requires i <= |all|
    requires if head == -1 then HEAD !in all[i..] else i <= head < |all| && HEAD !in all[i..head]
    ensures ParseFrom(all, i) == if head == -1 then Parsed([], []) else ParseFrom(all, head)
  {
    var next := if head == -1 then |all| else head;
    ParseNoise(all[i..next], all[next..]);
    assert all[i..] == all[i..next] + all[next..];
  }

  lemma Waits(all: seq<byte>, i: nat)
    requires i <= |all| && Undecided(all[i..])
    ensures ParseFrom(all, i) == Parsed([], all[i..])
  {
  }

  lemma SkipOne(all: seq<byte>, i: nat)
    requires i < |all| && !Undecided(all[i..]) && !StartsFrame(all[i..])
    ensures ParseFrom(all, i) == ParseFrom(all, i + 1)
  {
    assert all[i..][1..] == all[i + 1..];
  }

  /** With the head and the length right, the tail byte decides. */
  lemma FrameTest(all: seq<byte>, i: nat, n: nat)
    requires i + LEN_MIN <= |all| && all[i] == HEAD
    requires n == DeclaredLen(all[i..]) && LEN_MIN <= n <= LEN_MAX && i + n <= |all|
    ensures !Undecided(all[i..]) && (StartsAt(all, i) <==> all[i + n - 1] == TAIL)
  {
  }
}
