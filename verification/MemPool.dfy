/**
 The block pool of MemPool.cpp: a queue of unused blocks that is refilled by a fixed step, at most GROW_COUNT_MAX
 times.
 */
module MemPool {
  import opened FrameParser
  import opened RingQueue

  const GROW_COUNT_MAX := 20

  function AtLeastZero(n: int): nat {
    if n < 0 then 0 else n
  }

  /** The number of blocks after `grown` extensions by `step`; a step below one adds none. */
  function Population(count: nat, step: int, grown: nat): (n: nat)
    ensures n >= count
  {
    if grown == 0 then count else Population(count, step, grown - 1) + AtLeastZero(step)
  }

  /** What the pool says it owns after `grown` extensions by `step`. */
  function Total(count: int, step: int, grown: nat): int {
    if grown == 0 then count else Total(count, step, grown - 1) + step
  }

  /** The pool counts its blocks rightly unless it was extended by a negative step. */
  lemma {:induction false} TotalIsExact(count: nat, step: int, grown: nat)
    ensures Total(count, step, grown) == Population(count, step, grown) <==> grown == 0 || step >= 0
    ensures Total(count, step, grown) <= Population(count, step, grown)
  {
    if grown > 0 {
      TotalIsExact(count, step, grown - 1);
    }
  }

  lemma {:induction false} PopulationGrows(count: nat, step: int, less: nat, more: nat)
    requires less <= more
    ensures Population(count, step, less) <= Population(count, step, more)
  {
    if less < more {
      PopulationGrows(count, step, less, more - 1);
    }
  }

  lemma OneMore(count: nat, step: int, grown: nat)
    requires grown > 0
    ensures Population(count, step, grown) == Population(count, step, grown - 1) + AtLeastZero(step)
    ensures Total(count, step, grown) == Total(count, step, grown - 1) + step
  {
  }

  /** The most blocks a pool can ever own: the first extension is its creation. */
  function Most(count: nat, step: int): nat {
    Population(count, step, GROW_COUNT_MAX - 1)
  }

  /** So many blocks can go round in the ring at every position of its counters. */
  predicate Fits(count: nat, step: int) {
    Most(count, step) <= LAST_LAP - 2
  }

  lemma MostIs(count: nat, step: nat)
    ensures Most(count, step) == count + 19 * step
  {
    PopulationIs(count, step, 19);
  }

  lemma {:induction false} PopulationIs(count: nat, step: nat, grown: nat)
    ensures Population(count, step, grown) == count + grown * step
  {
    if grown > 0 {
      PopulationIs(count, step, grown - 1);
      assert (grown - 1) * step + step == grown * step;
    }
  }

  /** Blocks that differ from each other and from the ones handed out. */
  ghost predicate Separate(free: seq<array?<byte>>, held: set<array<byte>>) {
    && null !in free
    && (forall i, j :: 0 <= i < j < |free| ==> free[i] != free[j])
    && (forall i :: 0 <= i < |free| ==> free[i] !in held)
  }

  /** Every block has the size the pool was created with. */
  ghost predicate OfSize(free: seq<array?<byte>>, held: set<array<byte>>, size: int) {
    && (forall b :: b in free && b != null ==> b.Length == size)
    && (forall b :: b in held ==> b.Length == size)
  }

  lemma TakenStaysApart(free: seq<array?<byte>>, held: set<array<byte>>, size: int)
    requires Separate(free, held) && OfSize(free, held, size) && free != []
    ensures OfSize(free[1..], held + {free[0]}, size)
    ensures free[0] != null && free[0] !in held && free[0].Length == size
    ensures Separate(free[1..], held + {free[0]})
    ensures |free[1..]| + |held + {free[0]}| == |free| + |held|
  {
  }

  lemma GivenStaysApart(free: seq<array?<byte>>, held: set<array<byte>>, size: int, b: array<byte>)
    requires Separate(free, held) && OfSize(free, held, size) && b in held
    ensures OfSize(free + [b], held - {b}, size)
    ensures Separate(free + [b], held - {b})
    ensures |free + [b]| + |held - {b}| == |free| + |held|
  {
  }

  class Pool {
    const unused: Ring<array?<byte>>
    var blockTotalCount: int
    var blockSize: int
    var blockCount: int
    var growStep: int
    var growCount: nat
    var created: bool
    /** The blocks handed out and not yet given back. */
    ghost var held: set<array<byte>>

    ghost function Free(): seq<array?<byte>>
      requires unused.Valid()
      reads unused, unused.queue
    {
      unused.Contents()
    }

    /** The free blocks differ from each other and from the ones handed out. */
    ghost predicate Apart()
      requires unused.Valid()
      reads this, unused, unused.queue
    {
      Separate(Free(), held)
    }

    ghost predicate Sized()
      requires unused.Valid()
      reads this, unused, unused.queue
    {
      OfSize(Free(), held, blockSize)
    }

    ghost predicate Counted()
      requires unused.Valid()
      reads this, unused, unused.queue
    {
      && blockCount > 0
      && 1 <= growCount <= GROW_COUNT_MAX
      && blockTotalCount == Total(blockCount, growStep, growCount - 1)
      && |Free()| + |held| == Population(blockCount, growStep, growCount - 1)
    }

    /** A pool that was created once, with sizes that fit. */
    ghost predicate Valid()
      reads this, unused, unused.queue
    {
      && unused.Valid()
      && created
      && blockSize > 0
      && Apart() && Sized() && Counted()
      && Fits(blockCount, growStep)
    }

    /** As constructed. */
    ghost predicate Blank()
      reads this, unused, unused.queue
    {
      && unused.Valid() && Free() == [] && held == {}
      && !created && growCount == 0 && blockTotalCount == 0
    }

    constructor ()
      ensures Blank()
      ensures fresh(unused) && fresh(unused.queue)
    {
      unused := new Ring();
      blockTotalCount, growCount, created := 0, 0, false;
      held := {};
      blockSize, blockCount, growStep := *, *, *;
    }

    /**
     Refused on bad sizes and the second time; but the sizes are overwritten even when it is refused, so the blocks
     of a later extension may have another size.
     */
    method CreatPool(size: int, count: int, step: int) returns (ok: bool)
      requires Blank() || Valid()
      modifies this, unused, unused.queue
      ensures blockSize == size && blockCount == count && growStep == step
      ensures ok <==> old(Blank()) && size > 0 && count > 0
      ensures ok ==> unused.Valid() && created && blockTotalCount == count && held == {} && growCount == 1
      ensures ok && count <= LAST_LAP - 2 ==> Apart() && Sized() && Counted() && |Free()| == count
      ensures ok && Fits(count, step) ==> Valid()
      ensures ok && count <= LAST_LAP - 2 ==> forall b :: b in Free() ==> fresh(b)
      ensures !ok ==> unused.Valid() && Free() == old(Free()) && held == old(held)
      ensures !ok ==> created == old(created) && growCount == old(growCount) && blockTotalCount == old(blockTotalCount)
    {
      blockSize, blockCount, growStep := size, count, step;
      if blockSize <= 0 || blockCount <= 0 || created {
        return false;
      }
      PopulationGrows(count, step, 0, GROW_COUNT_MAX - 1);
      var ret := ExtendPool(blockSize, blockCount);
      if !ret {
        return false;
      }
      blockTotalCount := blockTotalCount + blockCount;
      created := true;
      return true;
    }

    /**
     The new blocks join the free ones as long as the ring can keep so many apart at every position of its counters.
     */
    method ExtendPool(size: int, count: int) returns (ok: bool)
      requires unused.Valid() && size > 0 && Apart()
      modifies this`growCount, unused, unused.queue
      ensures unused.Valid()
      ensures ok <==> old(growCount) < GROW_COUNT_MAX
      ensures !ok ==> growCount == old(growCount) && Free() == old(Free())
      ensures ok ==> growCount == old(growCount) + 1
      ensures ok && old(|Free()|) + AtLeastZero(count) <= LAST_LAP - 2 ==> Joined(old(Free()), count, size)
      ensures ok && old(|Free()|) + AtLeastZero(count) <= LAST_LAP - 2 ==>
                forall i :: old(|Free()|) <= i < |Free()| ==> fresh(Free()[i])
      ensures ok && old(|Free()|) + AtLeastZero(count) <= LAST_LAP - 2 && old(Sized()) && size == blockSize ==> Sized()
    {
      if growCount >= GROW_COUNT_MAX {
        return false;
      }
      hide Window, Distance;
      growCount := growCount + 1;
      var i := 0;
      ghost var fits := |Free()| + AtLeastZero(count) <= LAST_LAP - 2;
      while i < count
        invariant 0 <= i <= AtLeastZero(count)
        invariant unused.Valid()
        invariant growCount == old(growCount) + 1
        invariant fits ==> Joined(old(Free()), i, size)
        invariant fits ==> forall k :: old(|Free()|) <= k < |Free()| ==> fresh(Free()[k])
        invariant fits && old(Sized()) && size == blockSize ==> Sized()
      {
        var buff := new byte[size];
        var pushed := unused.Push(buff);
        i := i + 1;
      }
      return true;
    }

    /**
     `count` blocks of `size` bytes joined the free ones, which still differ from each other and from the ones handed
     out.
     */
    ghost predicate Joined(before: seq<array?<byte>>, count: int, size: int)
      requires unused.Valid()
      reads this, unused, unused.queue
    {
      && Apart()
      && |Free()| == |before| + AtLeastZero(count) && Free()[..|before|] == before
      && forall i :: |before| <= i < |Free()| ==> Free()[i] != null && Free()[i].Length == size
    }

    /** Whether a block can be had. */
    ghost predicate Ready()
      reads this, unused, unused.queue
    {
      unused.Valid() && (Free() != [] || (growCount < GROW_COUNT_MAX && growStep > 0))
    }

    /** The free block that would be handed out next, if there is one. */
    ghost function Spare(): set<array<byte>>
      reads this, unused, unused.queue
    {
      if unused.Valid() && Free() != [] && Free()[0] != null then {Free()[0]} else {}
    }

    /** The extension that an empty pool is given when a block is wanted. */
    method Refill() returns (ok: bool)
      requires Valid() && Free() == []
      modifies this`growCount, this`blockTotalCount, unused, unused.queue
      ensures Valid()
      ensures ok <==> old(growCount) < GROW_COUNT_MAX
      ensures growCount == if ok then old(growCount) + 1 else old(growCount)
      ensures |Free()| == if ok then AtLeastZero(growStep) else 0
      ensures forall b :: b in Free() ==> fresh(b)
    {
      hide Window, Distance, Population, Total, Separate, OfSize;
      PopulationGrows(blockCount, growStep, 1, GROW_COUNT_MAX - 1);
      OneMore(blockCount, growStep, 1);
      OneMore(blockCount, growStep, growCount);
      var extended := ExtendPool(blockSize, growStep);
      if !extended {
        return false;
      }
      blockTotalCount := blockTotalCount + growStep;
      return true;
    }

    /** Takes the oldest free block; an empty pool is extended first, if it still may be. */
    method GetBlock() returns (r: array?<byte>)
      requires Valid()
      modifies this`growCount, this`blockTotalCount, this`held, unused, unused.queue
      ensures Valid()
      ensures r == null <==> !old(Ready())
      ensures r == null ==> held == old(held) && Free() == [] && !Ready()
      ensures r != null ==> r !in old(held) && held == old(held) + {r}
      ensures r != null ==> r.Length == blockSize && (fresh(r) || r in old(Spare()))
      ensures old(Free()) != [] ==> r == old(Free())[0] && Free() == old(Free())[1..] && growCount == old(growCount)
      ensures old(Free()) == [] ==>
                growCount == if old(growCount) < GROW_COUNT_MAX then old(growCount) + 1 else old(growCount)
      ensures old(Free()) == [] && r != null ==> fresh(r)
      ensures forall b :: b in Free() ==> b in old(Free()) || fresh(b)
    {
      hide Window, Distance, Total, Separate, OfSize;
      if unused.Size() <= 0 {
        var extended := Refill();
        if !extended {
          return null;
        }
      }
      ghost var before := Free();
      assert before != [] ==> before[0] in before && forall b :: b in before[1..] ==> b in before;
      r := Take();
      assert r != null ==> r in held;
    }

    /** The removal itself. */
    method Take() returns (r: array?<byte>)
      requires Valid()
      modifies this`held, unused
      ensures Valid()
      ensures r == null <==> old(Free()) == []
      ensures r == null ==> held == old(held) && Free() == []
      ensures r != null ==> r !in old(held) && held == old(held) + {r}
      ensures r != null ==> r == old(Free())[0] && Free() == old(Free())[1..] && r.Length == blockSize
    {
      hide Window, Distance, Total, Separate, OfSize;
      PopulationGrows(blockCount, growStep, growCount - 1, GROW_COUNT_MAX - 1);
      hide Population;
      ghost var before := Free();
      var ret := unused.Pop();
      match ret
      case None => return null;
      case Some(b) =>
        TakenStaysApart(before, held, blockSize);
        held := held + {b};
        return b;
    }

    /** The caller gives back a block it was handed and has not given back before. */
    method FreeBlock(addr: array<byte>) returns (ok: bool)
      requires Valid() && addr in held
      modifies this`held, unused, unused.queue
      ensures Valid()
      ensures ok && Free() == old(Free()) + [addr] && held == old(held) - {addr}
    {
      hide Window, Distance, Population, Total, Separate, OfSize;
      PopulationGrows(blockCount, growStep, growCount - 1, GROW_COUNT_MAX - 1);
      GivenStaysApart(Free(), held, blockSize, addr);
      ok := unused.Push(addr);
      held := held - {addr};
    }
  }

  /** Free and held blocks together stay within the bound, and the counter tells their number. */
  lemma OwnedIsBounded(p: Pool)
    requires p.Valid()
    ensures |p.Free()| + |p.held| <= Most(p.blockCount, p.growStep)
    ensures p.blockTotalCount == |p.Free()| + |p.held| <==> p.growCount == 1 || p.growStep >= 0
  {
    PopulationGrows(p.blockCount, p.growStep, p.growCount - 1, GROW_COUNT_MAX - 1);
    TotalIsExact(p.blockCount, p.growStep, p.growCount - 1);
  }

  const SEND_BLOCKS := 1024 * 100
  const RECV_BLOCKS := 1024 * 300
  const GROW_STEP := 1024 * 10

  /**
   With one caller at a time the pools of the relay never own more than 296960 and 501760 blocks, far from what the
   ring can keep apart; with several, see `RingGrowth.ExtensionsAreBounded`.
   */
  lemma RelayPoolsFit()
    ensures Fits(SEND_BLOCKS, GROW_STEP) && Most(SEND_BLOCKS, GROW_STEP) == 296960
    ensures Fits(RECV_BLOCKS, GROW_STEP) && Most(RECV_BLOCKS, GROW_STEP) == 501760
  {
    MostIs(SEND_BLOCKS, GROW_STEP);
    MostIs(RECV_BLOCKS, GROW_STEP);
  }
}
