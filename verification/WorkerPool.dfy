/** The task queues of ThreadPool.cpp, and MasterWorkPool.cpp, which gives every id to one of them. */
module WorkerPool {
  import opened Prelude
  import Relay

  /** Quotient and remainder are unique. */
  lemma RemainderIs(k: nat, n: nat, q: nat, r: nat)
    requires r < n && k == n * q + r
    ensures k % n == r
  {
    var d := q - k / n;
    assert n * d == k % n - r by {
      assert k == n * (k / n) + k % n;
    }
    assert d >= 1 ==> n * d >= n;
    assert d <= -1 ==> n * d + n <= 0;
  }

  /** Every `k` is some number of `n`s beyond its shard. */
  lemma {:induction false} ShardQuotient(k: nat, n: nat) returns (q: nat)
    requires n > 0
    ensures k == n * q + Relay.Shard(k, n)
    decreases k
  {
    if k < n {
      q := 0;
    } else {
      var p := ShardQuotient(k - n, n);
      q := p + 1;
      assert n * q == n * p + n;
    }
  }

  /** The relay's home thread of a connection is the worker that the pool's hashing selects. */
  lemma ShardIsRemainder(k: nat, n: nat)
    requires n > 0
    ensures Relay.Shard(k, n) == k % n
  {
    var q := ShardQuotient(k, n);
    RemainderIs(k, n, q, Relay.Shard(k, n));
  }

  class ThreadPool<T> {
    var taskList: seq<T>
    var running: bool
    var threadCount: int

    constructor ()
      ensures taskList == [] && running
    {
      taskList, running, threadCount := [], true, 0;
    }

    method InitPool(threads: int)
      modifies this
      ensures threadCount == threads && taskList == old(taskList) && running == old(running)
    {
      threadCount := threads;
    }

    method AddTask(task: T)
      modifies this`taskList
      ensures taskList == old(taskList) + [task]
    {
      taskList := taskList + [task];
    }

    /** What `GetTask` does once it is not waiting any more: after a shutdown there is no task to run. */
    method GetTask() returns (r: Option<T>)
      requires taskList != [] || !running
      modifies this`taskList
      ensures running ==> r == Some(old(taskList)[0]) && old(taskList) == [old(taskList)[0]] + taskList
      ensures !running ==> r == None && taskList == old(taskList)
    {
      if !running {
        return None;
      }
      r := Some(taskList[0]);
      taskList := taskList[1..];
    }
  }

  class MasterWorkPool<T> {
    var workerCount: int
    var threadMap: map<int, ThreadPool<T>>

    ghost predicate Valid()
      reads this
    {
      && workerCount > 0
      && (forall i :: i in threadMap <==> 0 <= i < workerCount)
      && forall i, j :: 0 <= i < j < workerCount ==> threadMap[i] != threadMap[j]
    }

    ghost function Queue(i: int): seq<T>
      requires i in threadMap
      reads this, threadMap[i]
    {
      threadMap[i].taskList
    }

    constructor ()
      ensures workerCount == 0 && threadMap == map[]
    {
      workerCount, threadMap := 0, map[];
    }

    /** One queue and one thread per worker. */
    method InitPool(count: int)
      modifies this
      ensures workerCount == count && forall i :: i in threadMap <==> 0 <= i < count
      ensures count > 0 ==> Valid()
      ensures forall i :: 0 <= i < count ==> fresh(threadMap[i]) && Queue(i) == [] && threadMap[i].threadCount == 1
      ensures forall i :: 0 <= i < count ==> threadMap[i].running
    {
      workerCount, threadMap := count, map[];
      var i := 0;
      while i < count
        invariant workerCount == count && 0 <= i && (i <= count || i == 0)
        invariant forall j :: j in threadMap <==> 0 <= j < i
        invariant forall j :: 0 <= j < i ==> fresh(threadMap[j]) && threadMap[j].taskList == [] && threadMap[j].running
        invariant forall j, k :: 0 <= j < k < i ==> threadMap[j] != threadMap[k]
      {
        var worker := new ThreadPool();
        threadMap := threadMap[i := worker];
        i := i + 1;
      }
      ghost var workers := threadMap;
      i := 0;
      while i < count
        invariant threadMap == workers && workerCount == count && 0 <= i
        invariant forall j :: 0 <= j < count ==>
                    fresh(threadMap[j]) && threadMap[j].taskList == [] && threadMap[j].running
        invariant forall j :: 0 <= j < i && j < count ==> threadMap[j].threadCount == 1
      {
        threadMap[i].InitPool(1);
        i := i + 1;
      }
    }

    /** Tasks of one id always join the queue of the same worker, at its end; no other queue changes. */
    method AddTask(id: nat, task: T)
      requires Valid()
      modifies threadMap.Values
      ensures Valid() && threadMap == old(threadMap) && workerCount == old(workerCount)
      ensures forall i :: 0 <= i < workerCount ==>
                Queue(i) == old(Queue(i)) + if i == Relay.Shard(id, workerCount) then [task] else []
    {
      ShardIsRemainder(id, workerCount);
      var worker := id % workerCount;
      threadMap[worker].AddTask(task);
    }
  }
}
