/**
 The ring of LockFreeQueue.h used by one thread at a time, with its real counters: unsigned 32-bit integers
 that wrap around.  The capacity does not divide 2^32, so the slot sequence breaks at every wrap, and the ring is
 a FIFO queue only while few enough elements are live.
 */
module RingQueue {
  import opened Prelude

  const QUEUE_LEN := 20 * 1024 * 1024
  const WRAP := 0x1_0000_0000

  /** What is left of the last lap when the counters wrap: 2^32 modulo the capacity, which is 2^24. */
  const LAST_LAP := WRAP % QUEUE_LEN

  /** `CountToIndex`. */
  function Slot(count: nat): (i: nat)
    ensures i < QUEUE_LEN
  {
    count % QUEUE_LEN
  }

  /** The slot of the `i`-th counter value after `start`, with wrap-around. */
  function SlotAfter(start: nat, i: nat): (k: nat)
    ensures k < QUEUE_LEN
  {
    Slot((start + i) % WRAP)
  }

  /** Adding up to a wrap either stays below it or starts over. */
  lemma WrapOnce(start: nat, i: nat)
    requires start < WRAP && i < WRAP
    ensures (start + i) % WRAP == if start + i < WRAP then start + i else start + i - WRAP
  {
  }

  /** Slots of counters less than a lap apart differ. */
  lemma NearSlotsDiffer(c: nat, d: nat)
    requires c < d < c + QUEUE_LEN
    ensures Slot(c) != Slot(d)
  {
    assert d - c == QUEUE_LEN * (d / QUEUE_LEN - c / QUEUE_LEN) + (Slot(d) - Slot(c));
  }

  /** The counters of the first lap are their own slots. */
  lemma FirstLap(c: nat)
    requires c < QUEUE_LEN
    ensures Slot(c) == c
  {
  }

  /** Up to 2^24 consecutive counters use different slots, wherever they start and whether or not they wrap. */
  lemma WindowDistinct(start: nat, i: nat, j: nat)
    requires start < WRAP && i < j < LAST_LAP
    ensures SlotAfter(start, i) != SlotAfter(start, j)
  {
    hide Slot;
    WrapOnce(start, i);
    WrapOnce(start, j);
    if start + j < WRAP {
      assert SlotAfter(start, i) == Slot(start + i) && SlotAfter(start, j) == Slot(start + j);
      NearSlotsDiffer(start + i, start + j);
    } else if start + i < WRAP {
      BeforeWrap(start + i);
      FirstLap(start + j - WRAP);
      assert SlotAfter(start, i) == start + i - (WRAP - LAST_LAP) && SlotAfter(start, j) == start + j - WRAP;
    } else {
      assert SlotAfter(start, i) == Slot(start + i - WRAP) && SlotAfter(start, j) == Slot(start + j - WRAP);
      NearSlotsDiffer(start + i - WRAP, start + j - WRAP);
    }
  }

  /** The counters just before the wrap use the slots of the last, incomplete lap. */
  lemma BeforeWrap(c: nat)
    requires WRAP - LAST_LAP <= c < WRAP
    ensures Slot(c) == c - (WRAP - LAST_LAP)
  {
  }

  /** A push with `live` elements stored from counter `read` on is not refused and overwrites none of them. */
  ghost predicate PushSafe(read: nat, live: nat) {
    && SlotAfter(read, live + 1) != Slot(read)
    && forall i :: 0 <= i < live ==> SlotAfter(read, i) != SlotAfter(read, live)
  }

  /** Exactly with at most 2^24 - 2 live elements is a push safe at every position of the counters. */
  lemma PushSafeExactly(live: nat)
    ensures (forall read :: 0 <= read < WRAP ==> PushSafe(read, live)) <==> live <= LAST_LAP - 2
  {
    if live <= LAST_LAP - 2 {
      forall read | 0 <= read < WRAP ensures PushSafe(read, live) {
        SafeAt(read, live);
      }
    } else {
      var read := WRAP - LAST_LAP;
      BeforeWrap(read);
      if live == LAST_LAP - 1 {
        assert SlotAfter(read, live + 1) == Slot(read);
        assert !PushSafe(read, live);
      } else {
        UnsafeBeyond(live);
      }
    }
  }

  lemma SafeAt(read: nat, live: nat)
    requires read < WRAP && live <= LAST_LAP - 2
    ensures PushSafe(read, live)
  {
    WrapOnce(read, 0);
    WindowDistinct(read, 0, live + 1);
    forall i | 0 <= i < live ensures SlotAfter(read, i) != SlotAfter(read, live) {
      WindowDistinct(read, i, live);
    }
  }

  /** With more elements, the push that wraps writes into slot 0 while it is still live. */
  lemma UnsafeBeyond(live: nat)
    requires live >= LAST_LAP
    ensures exists read :: 0 <= read < WRAP && !PushSafe(read, live)
  {
    var m := live % WRAP;
    var read, i := if m == 0 then 0 else WRAP - m, live - LAST_LAP;
    assert (read + live) % WRAP == 0 && (read + i) % WRAP == WRAP - LAST_LAP by {
      hide Slot;
      assert read + live == WRAP * (live / WRAP) + (if m == 0 then 0 else WRAP);
    }
    BeforeWrap(WRAP - LAST_LAP);
    assert SlotAfter(read, i) == SlotAfter(read, live);
    assert !PushSafe(read, live);
  }

  /** A pop with `live` elements stored from counter `read` on does not take the ring for empty. */
  ghost predicate PopSafe(read: nat, live: nat) {
    SlotAfter(read, live) != Slot(read)
  }

  /** Counters with the same slot are whole laps apart. */
  lemma SameSlot(c: nat, d: nat)
    requires c <= d
    ensures Slot(c) == Slot(d) ==> (d - c) % QUEUE_LEN == 0
  {
    assert d - c == QUEUE_LEN * (d / QUEUE_LEN - c / QUEUE_LEN) + (Slot(d) - Slot(c));
  }

  /** Counted back from 2^32. */
  lemma LapsFromWrap(live: nat)
    requires live < WRAP
    ensures (WRAP - live) % QUEUE_LEN == 0 ==> live % QUEUE_LEN == LAST_LAP
  {
    assert live == QUEUE_LEN * (WRAP / QUEUE_LEN - (WRAP - live) / QUEUE_LEN) + LAST_LAP - (WRAP - live) % QUEUE_LEN;
  }

  lemma PopUnsafeAt(read: nat, live: nat)
    requires read < WRAP && live < WRAP
    ensures PopSafe(read, live) || live % QUEUE_LEN == 0 || live % QUEUE_LEN == LAST_LAP
  {
    WrapOnce(read, live);
    if read + live < WRAP {
      SameSlot(read, read + live);
    } else {
      SameSlot(read + live - WRAP, read);
      LapsFromWrap(live);
    }
  }

  /** Exactly at whole laps, and at whole laps plus 2^24, can a ring that is not empty look empty. */
  lemma PopSafeExactly(live: nat)
    requires 0 < live < WRAP
    ensures (forall read :: 0 <= read < WRAP ==> PopSafe(read, live)) <==>
            live % QUEUE_LEN != 0 && live % QUEUE_LEN != LAST_LAP
  {
    if live % QUEUE_LEN == 0 {
      assert !PopSafe(0, live);
    } else if live % QUEUE_LEN == LAST_LAP {
      WrapOnce(WRAP - 1, live);
      assert Slot(live - 1) == LAST_LAP - 1 == Slot(WRAP - 1);
      assert !PopSafe(WRAP - 1, live);
    } else {
      hide PopSafe;
      forall read | 0 <= read < WRAP ensures PopSafe(read, live) {
        PopUnsafeAt(read, live);
      }
    }
  }

  /** Adding one to an unsigned 32-bit integer. */
  function Inc(c: nat): (d: nat)
    ensures d < WRAP
  {
    (c + 1) % WRAP
  }

  /** Taking one from an unsigned 32-bit integer. */
  function Dec(c: nat): (d: nat)
    ensures d < WRAP
  {
    (c + WRAP - 1) % WRAP
  }

  /** The number of elements from counter `read` up to counter `write`. */
  function Distance(read: nat, write: nat): (n: nat)
    ensures n < WRAP
  {
    (write - read) % WRAP
  }

  /** The distance, without the modulus. */
  lemma DistanceIs(read: nat, write: nat)
    requires write < WRAP && read < WRAP
    ensures Distance(read, write) == if read <= write then write - read else write - read + WRAP
  {
  }

  /** Adding and taking one, without the modulus. */
  lemma IncDecAre(c: nat)
    requires c < WRAP
    ensures Inc(c) == if c + 1 < WRAP then c + 1 else 0
    ensures Dec(c) == if c > 0 then c - 1 else WRAP - 1
  {
  }

  /** The counters and the number of live elements determine each other. */
  lemma CountersAgree(write: nat, read: nat)
    requires write < WRAP && read < WRAP
    ensures var live := Distance(read, write);
            && SlotAfter(read, live) == Slot(write)
            && SlotAfter(read, 0) == Slot(read)
            && SlotAfter(read, live + 1) == Slot(Inc(write))
            && Distance(read, Inc(write)) == Inc(live)
            && Distance(Inc(read), write) == Dec(live)
            && (live > 0 ==> Dec(live) == live - 1)
            && (live < WRAP - 1 ==> Inc(live) == live + 1)
            && (live == 0 <==> write == read)
  {
    var live := Distance(read, write);
    DistanceIs(read, write);
    assert SlotAfter(read, live + 1) == Slot(Inc(write)) by {
      hide Slot, Distance;
      assert (read + (live + 1)) % WRAP == (write + 1) % WRAP;
    }
    hide Slot, Distance, Inc, Dec;
    WrapOnce(read, live);
    WrapOnce(read, 0);
    IncDecAre(read);
    IncDecAre(write);
    IncDecAre(live);
    DistanceIs(read, Inc(write));
    DistanceIs(Inc(read), write);
  }

  /** Moving on by one. */
  lemma SlotAfterNext(read: nat, i: nat)
    requires read < WRAP
    ensures SlotAfter(Inc(read), i) == SlotAfter(read, i + 1)
  {
    hide Slot;
    assert ((read + 1) % WRAP + i) % WRAP == (read + (i + 1)) % WRAP;
  }

  /** The elements that `n` consecutive counters from `start` on lead to. */
  ghost function Window<T>(cells: seq<T>, start: nat, n: nat): (s: seq<T>)
    requires |cells| >= QUEUE_LEN
    ensures |s| == n
  {
    seq(n, i requires 0 <= i < n => cells[SlotAfter(start, i)])
  }

  /** A safe push appends. */
  lemma WindowPush<T>(cells: seq<T>, read: nat, live: nat, data: T)
    requires |cells| >= QUEUE_LEN && PushSafe(read, live)
    ensures Window(cells[SlotAfter(read, live) := data], read, live + 1) == Window(cells, read, live) + [data]
  {
    hide SlotAfter;
    var k := SlotAfter(read, live);
    var before, after := Window(cells, read, live), Window(cells[k := data], read, live + 1);
    assert after[live] == data;
    forall i | 0 <= i < live ensures after[i] == before[i] {
      assert SlotAfter(read, i) != k;
    }
  }

  /** Advancing the read counter drops the first element. */
  lemma WindowPop<T>(cells: seq<T>, read: nat, live: nat)
    requires |cells| >= QUEUE_LEN && read < WRAP && live > 0
    ensures Window(cells, Inc(read), live - 1) == Window(cells, read, live)[1..]
    ensures Window(cells, read, live)[0] == cells[SlotAfter(read, 0)]
  {
    hide SlotAfter, Inc;
    var before, after := Window(cells, read, live), Window(cells, Inc(read), live - 1);
    forall i | 0 <= i < live - 1 ensures after[i] == before[i + 1] {
      SlotAfterNext(read, i);
    }
  }

  class Ring<T(0)> {
    const queue: array<T>
    var writeIndex: nat
    var readIndex: nat
    var maximumReadIndex: nat
    var size: nat

    ghost predicate Valid()
      reads this
    {
      && queue.Length == QUEUE_LEN + 10
      && writeIndex < WRAP && readIndex < WRAP && maximumReadIndex == writeIndex
      && size == Live()
    }

    /** The number of stored elements, as the counters tell it. */
    ghost function Live(): (n: nat)
      reads this
      ensures n < WRAP
    {
      Distance(readIndex, writeIndex)
    }

    ghost function Contents(): (s: seq<T>)
      requires Valid()
      reads this, queue
      ensures |s| == Live()
    {
      Window(queue[..], readIndex, Live())
    }

    constructor ()
      ensures Valid() && Contents() == [] && fresh(queue)
    {
      queue := new T[QUEUE_LEN + 10];
      writeIndex, readIndex, maximumReadIndex, size := 0, 0, 0, 0;
    }

    /** With nobody else at work the reservation and the commit succeed at once. */
    method Push(data: T) returns (ok: bool)
      requires Valid()
      modifies this, queue
      ensures Valid()
      ensures ok <==> SlotAfter(old(readIndex), old(Live()) + 1) != Slot(old(readIndex))
      ensures !ok ==> Contents() == old(Contents())
      ensures old(Live()) <= LAST_LAP - 2 ==> ok && Contents() == old(Contents()) + [data]
    {
      hide Slot, SlotAfter, Window, Inc, Dec, Distance, PushSafe;
      var currentWriteIndex, currentReadIndex := writeIndex, readIndex;
      CountersAgree(writeIndex, readIndex);
      if old(Live()) <= LAST_LAP - 2 {
        SafeAt(readIndex, Live());
        WindowPush(queue[..], readIndex, Live(), data);
      }
      if Slot(Inc(currentWriteIndex)) == Slot(currentReadIndex) {
        return false;
      }
      writeIndex := Inc(currentWriteIndex);
      queue[Slot(currentWriteIndex)] := data;
      maximumReadIndex := Inc(currentWriteIndex);
      size := Inc(size);
      return true;
    }

    /** The slot is read before the counter moves, so the element is the one stored there when the call began. */
    method Pop() returns (r: Option<T>)
      requires Valid()
      modifies this
      ensures Valid()
      ensures r.None? <==> SlotAfter(old(readIndex), old(Live())) == Slot(old(readIndex))
      ensures r.None? ==> Contents() == old(Contents())
      ensures r.Some? ==> old(Contents()) != [] && r == Some(old(Contents())[0]) && Contents() == old(Contents())[1..]
      ensures old(Live()) < LAST_LAP ==> (r.None? <==> old(Contents()) == [])
    {
      hide Slot, SlotAfter, Window, Inc, Dec, Distance, PushSafe;
      var currentReadIndex, currentMaximumReadIndex := readIndex, maximumReadIndex;
      CountersAgree(writeIndex, readIndex);
      if 0 < Live() < LAST_LAP {
        WindowDistinct(readIndex, 0, Live());
      }
      if Slot(currentReadIndex) == Slot(currentMaximumReadIndex) {
        return None;
      }
      WindowPop(queue[..], readIndex, Live());
      var data := queue[Slot(currentReadIndex)];
      readIndex := Inc(currentReadIndex);
      size := Dec(size);
      return Some(data);
    }

    /** The separate counter tells the number of elements. */
    function Size(): (n: nat)
      requires Valid()
      reads this, queue
      ensures n == |Contents()|
    {
      size
    }
  }
}
