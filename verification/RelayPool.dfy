/** Which blocks of the receive pool are out: those of unreleased tasks, and those that receivers are filling. */
module RelayPool {
  import opened Prelude
  import opened FrameParser
  import opened Relay
  import opened RelayInbound

  function Blocks(tasks: seq<Task>): (bs: seq<nat>)
    ensures |bs| == |tasks|
  {
    seq(|tasks|, i requires 0 <= i < |tasks| => tasks[i].block)
  }

  /** The blocks out for a worker's tasks are exactly the blocks of its unfinished, unreleased tasks, each held once. */
  ghost predicate TasksHold(s: State, w: int)
    requires 0 <= w < |s.workers|
  {
    multiset(Blocks(s.workers[w].Holding())) == multiset(OutTo(s.recvHeld, WithWorker(w)))
  }

  /** A receiver has the one block that it is filling, and no other. */
  ghost predicate ReceiverHolds(s: State, r: int)
    requires 0 <= r < |s.receivers|
  {
    OutTo(s.recvHeld, WithReceiver(r)) == Hand(s.receivers[r].InHand())
  }

  /** Nobody else has any. */
  ghost predicate Accounted(s: State) {
    forall b :: b in s.recvHeld ==>
      match s.recvHeld[b]
      case WithReceiver(r) => 0 <= r < |s.receivers|
      case WithWorker(w) => 0 <= w < |s.workers|
      case InLine(_) => false
  }

  ghost predicate PoolExact(s: State) {
    && Accounted(s)
    && (forall w :: 0 <= w < |s.workers| ==> TasksHold(s, w))
    && (forall r :: 0 <= r < |s.receivers| ==> ReceiverHolds(s, r))
  }

  /** Nobody takes a block or lets go of one. */
  ghost predicate SameHoldings(s: State, s': State) {
    && SameStaff(s, s') && s'.recvHeld == s.recvHeld
    && (forall w :: 0 <= w < |s.workers| ==> s'.workers[w].Holding() == s.workers[w].Holding())
    && (forall r :: 0 <= r < |s.receivers| ==> s'.receivers[r].InHand() == s.receivers[r].InHand())
  }

  lemma SameHoldingsKeepPool(s: State, s': State)
    requires PoolExact(s) && SameHoldings(s, s')
    ensures PoolExact(s')
  {
    forall w | 0 <= w < |s'.workers| ensures TasksHold(s', w) {
      assert TasksHold(s, w);
    }
    forall r | 0 <= r < |s'.receivers| ensures ReceiverHolds(s', r) {
      assert ReceiverHolds(s, r);
    }
  }

  /** Steps by which a block of the receive pool comes or goes. */
  predicate Handles(e: Event) {
    (e.Fetch? && e.block.Some?) || e.Save? || e.Release?
  }

  lemma TakeSameHoldings(s: State, w: int)
    requires Staffed(s)
    ensures SameHoldings(s, DoTake(s, w))
  {
    if 0 <= w < |s.workers| && s.workers[w].work.Idle? && s.workers[w].queue != [] {
      assert s.workers[w].queue == [s.workers[w].queue[0]] + s.workers[w].queue[1..];
    }
  }

  lemma ReceiverSameHoldings(s: State, e: Event)
    requires Staffed(s) && (e.Read? || e.CountUp? || (e.Fetch? && e.block.None?))
    ensures SameHoldings(s, Step(s, e))
  {
    hide Shard, Parse;
  }

  lemma CountDownSameHoldings(s: State, w: int)
    requires Staffed(s)
    ensures SameHoldings(s, DoCountDown(s, w))
  {
  }

  lemma OtherSameHoldings(s: State, e: Event)
    requires Staffed(s) && !Handles(e)
    ensures SameHoldings(s, Step(s, e))
  {
    hide Shard, DoAccept, DoAdmit, DoRead, DoFetch, DoCountUp, DoQuit, DoSend, DoWritable, DoUnplug, DoReclaim;
    hide DoTake, DoExecute, DoVisit, DoStore, DoCompare, DoGrab, DoDeliver, DoEndPass, DoCountDown;
    if e.Take? {
      TakeSameHoldings(s, e.w);
    } else if e.Read? || e.CountUp? || e.Fetch? {
      ReceiverSameHoldings(s, e);
    } else if e.CountDown? {
      CountDownSameHoldings(s, e.w);
    }
  }

  lemma FetchKeepsPool(s: State, r: int, block: nat)
    requires Staffed(s) && PoolExact(s) && Fetching(s, r) && block !in s.recvHeld
    ensures PoolExact(DoFetch(s, r, Some(block)))
  {
    var s' := DoFetch(s, r, Some(block));
    forall w | 0 <= w < |s'.workers| ensures TasksHold(s', w) {
      assert TasksHold(s, w);
      assert OutTo(s'.recvHeld, WithWorker(w)) == OutTo(s.recvHeld, WithWorker(w));
    }
    forall q | 0 <= q < |s'.receivers| ensures ReceiverHolds(s', q) {
      assert ReceiverHolds(s, q);
      assert OutTo(s'.recvHeld, WithReceiver(q)) == OutTo(s.recvHeld, WithReceiver(q)) + if q == r then {block} else {};
    }
  }

  lemma SaveHoldings(s: State, r: int, leftover: seq<byte>, w: int)
    requires Staffed(s) && Saving(s, r, leftover) && 0 <= w < |s.workers|
    ensures DoSave(s, r, leftover).workers[w].Holding()
         == s.workers[w].Holding() + if w == s.Home(s.receivers[r].sock) then [Saved(s, r, leftover)] else []
  {
    hide Shard;
  }

  lemma OneMoreTask(tasks: seq<Task>, t: Task, out: set<nat>)
    requires multiset(Blocks(tasks)) == multiset(out) && t.block !in out
    ensures multiset(Blocks(tasks + [t])) == multiset(out + {t.block})
  {
    assert Blocks(tasks + [t]) == Blocks(tasks) + [t.block];
  }

  lemma SaveHeld(s: State, r: int, leftover: seq<byte>)
    requires Staffed(s) && Saving(s, r, leftover)
    ensures var s', block := DoSave(s, r, leftover), s.receivers[r].block.value;
            && Saved(s, r, leftover).block == block
            && s'.recvHeld == s.recvHeld[block := WithWorker(s.Home(s.receivers[r].sock))]
            && forall q :: 0 <= q < |s.receivers| ==>
              s'.receivers[q].InHand() == if q == r then None else s.receivers[q].InHand()
  {
    hide Shard;
  }

  lemma SaveKeepsPool(s: State, r: int, leftover: seq<byte>)
    requires Staffed(s) && PoolExact(s) && Saving(s, r, leftover)
    ensures PoolExact(DoSave(s, r, leftover))
  {
    hide Shard, DoSave, Blocks;
    var s', block, h := DoSave(s, r, leftover), s.receivers[r].block.value, s.Home(s.receivers[r].sock);
    SaveHeld(s, r, leftover);
    assert ReceiverHolds(s, r) && block in OutTo(s.recvHeld, WithReceiver(r));
    forall w | 0 <= w < |s'.workers| ensures TasksHold(s', w) {
      assert TasksHold(s, w);
      SaveHoldings(s, r, leftover, w);
      assert OutTo(s'.recvHeld, WithWorker(w)) == OutTo(s.recvHeld, WithWorker(w)) + if w == h then {block} else {};
      if w == h {
        OneMoreTask(s.workers[w].Holding(), Saved(s, r, leftover), OutTo(s.recvHeld, WithWorker(w)));
      } else {
        assert s.workers[w].Holding() + [] == s.workers[w].Holding();
      }
    }
    forall q | 0 <= q < |s'.receivers| ensures ReceiverHolds(s', q) {
      assert ReceiverHolds(s, q);
      assert OutTo(s'.recvHeld, WithReceiver(q)) == OutTo(s.recvHeld, WithReceiver(q)) - {block};
    }
  }

  lemma ReleaseHoldings(s: State, v: int, w: int)
    requires 0 <= w < |s.workers| && 0 <= v < |s.workers| && s.workers[v].work.Freeing?
    ensures var bs := Blocks(s.workers[v].Holding());
            && bs != [] && bs[0] == s.workers[v].work.task.block
            && Blocks(DoRelease(s, v).workers[w].Holding())
               == if w == v then bs[1..] else Blocks(s.workers[w].Holding())
  {
  }

  lemma ReleaseKeepsPool(s: State, v: int)
    requires Staffed(s) && PoolExact(s) && 0 <= v < |s.workers| && s.workers[v].work.Freeing?
    ensures PoolExact(DoRelease(s, v))
  {
    hide Shard, Blocks;
    var s', b := DoRelease(s, v), s.workers[v].work.task.block;
    assert TasksHold(s, v);
    ReleaseHoldings(s, v, v);
    TakeFirst(Blocks(s.workers[v].Holding()), OutTo(s.recvHeld, WithWorker(v)));
    forall w | 0 <= w < |s'.workers| ensures TasksHold(s', w) {
      assert TasksHold(s, w);
      ReleaseHoldings(s, v, w);
      assert OutTo(s'.recvHeld, WithWorker(w)) == OutTo(s.recvHeld, WithWorker(w)) - {b};
      assert w != v ==> b !in OutTo(s.recvHeld, WithWorker(w));
    }
    forall q | 0 <= q < |s'.receivers| ensures ReceiverHolds(s', q) {
      assert ReceiverHolds(s, q);
      assert OutTo(s'.recvHeld, WithReceiver(q)) == OutTo(s.recvHeld, WithReceiver(q));
    }
  }

  /** Every step keeps the account. */
  lemma StepKeepsPool(s: State, e: Event)
    requires Staffed(s) && PoolExact(s)
    ensures PoolExact(Step(s, e))
  {
    hide PoolExact, Shard, DoAccept, DoAdmit, DoRead, DoCountUp, DoQuit, DoSend, DoWritable, DoUnplug, DoReclaim;
    hide DoTake, DoExecute, DoVisit, DoStore, DoCompare, DoGrab, DoDeliver, DoEndPass, DoCountDown;
    if !Handles(e) {
      OtherSameHoldings(s, e);
      SameHoldingsKeepPool(s, Step(s, e));
    } else if e.Fetch? {
      if Fetching(s, e.r) && e.block.value !in s.recvHeld { FetchKeepsPool(s, e.r, e.block.value); }
    } else if e.Save? {
      if Saving(s, e.r, e.leftover) { SaveKeepsPool(s, e.r, e.leftover); }
    } else if 0 <= e.w < |s.workers| && s.workers[e.w].work.Freeing? {
      ReleaseKeepsPool(s, e.w);
    }
  }
}
