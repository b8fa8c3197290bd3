/**
 How the tables and threads of the relay fit together: every connection is served by one receiver and one worker,
 and every thread and table mentions known connections only.
 */
module RelayInbound {
  import opened Prelude
  import opened FrameParser
  import opened Sessions
  import opened Relay

  ghost predicate TablesFit(s: State) {
    && (forall k :: k in s.logs ==> k >= 0)
    && s.carry.Keys == s.clients.Keys
    && s.passes.Keys == s.logs.Keys && s.out.logs.Keys == s.logs.Keys
    && (forall k :: k in s.clients ==> k in s.logs && s.logs[k].admitted)
  }

  ghost predicate TaskFits(s: State, w: int, t: Task)
    requires Staffed(s)
  {
    t.sock >= 0 && t.sock in s.logs && s.Home(t.sock) == w && t.Valid()
  }

  /** Every task of a connection is with the one worker that serves it. */
  ghost predicate WorkersFit(s: State)
    requires Staffed(s)
  {
    forall w, t :: 0 <= w < |s.workers| && t in s.workers[w].Unfinished() ==> TaskFits(s, w, t)
  }

  ghost predicate ReceiverFits(s: State, r: int)
    requires Staffed(s) && 0 <= r < |s.receivers|
  {
    s.receivers[r].Parsing? ==>
      && s.receivers[r].sock >= 0 && s.receivers[r].sock in s.logs
      && s.Home(s.receivers[r].sock) == r && AllFrames(s.receivers[r].found)
  }

  ghost predicate ReceiversFit(s: State)
    requires Staffed(s)
  {
    forall r :: 0 <= r < |s.receivers| ==> ReceiverFits(s, r)
  }

  ghost predicate Wired(s: State) {
    Staffed(s) && TablesFit(s) && WorkersFit(s) && ReceiversFit(s)
  }

  /** The blocks of a pool that somebody has. */
  function OutTo(held: map<nat, Holder>, h: Holder): set<nat> {
    set b | b in held && held[b] == h
  }

  function Hand(block: Option<nat>): set<nat> {
    if block.Some? then {block.value} else {}
  }

  // ----- what a step leaves alone -----

  /** The worker that a step belongs to, if it does. */
  function Actor(e: Event): Option<int> {
    match e
    case Take(w) => Some(w)
    case Execute(w) => Some(w)
    case Store(w) => Some(w)
    case Visit(w, _) => Some(w)
    case Compare(w) => Some(w)
    case Grab(w, _) => Some(w)
    case Deliver(w) => Some(w)
    case EndPass(w) => Some(w)
    case Release(w) => Some(w)
    case CountDown(w) => Some(w)
    case _ => None
  }

  /** A step changes the work of at most the worker it names. */
  lemma OtherWork(s: State, e: Event, v: int)
    requires Staffed(s) && 0 <= v < |s.workers| && Actor(e) != Some(v)
    ensures Step(s, e).workers[v].work == s.workers[v].work
  {
    if e.Save? && Saving(s, e.r, e.leftover) {
      SaveWork(s, e.r, e.leftover, v);
    }
    hide Shard, DoFetch, DoCountUp, DoRead, DoTake, DoExecute, DoVisit, DoStore, DoCompare, DoGrab, DoDeliver,
         DoEndPass, DoRelease;
    hide DoCountDown;
  }

  /** A connection appears only by being accepted. */
  lemma KnownConnections(s: State, e: Event)
    requires Staffed(s)
    ensures s.logs.Keys <= Step(s, e).logs.Keys <= s.logs.Keys + if e.Accept? then {e.k} else {}
  {
    hide Shard, DoRead, DoFetch, DoSave, DoCountUp, DoQuit, DoSend, DoWritable, DoUnplug, DoReclaim, DoTake;
    hide DoExecute, DoVisit, DoStore, DoCompare, DoGrab, DoDeliver, DoEndPass, DoRelease, DoCountDown;
  }

  /** Nobody who was ever admitted comes back. */
  ghost predicate Forward(s: State, s': State) {
    && s.logs.Keys <= s'.logs.Keys
    && (forall k :: k in s.logs && s.logs[k].admitted ==> s'.logs[k].admitted)
    && (forall k :: k in s'.clients ==> k in s.clients || (k in s.logs && !s.logs[k].admitted))
  }

  lemma StepForward(s: State, e: Event)
    requires Staffed(s)
    ensures Forward(s, Step(s, e))
  {
    hide Shard, DoRead, DoFetch, DoSave, DoCountUp, DoSend, DoWritable, DoUnplug, DoReclaim, DoTake, DoVisit, DoStore,
         DoCompare, DoGrab;
    hide DoDeliver, DoEndPass, DoRelease, DoCountDown;
  }

  // ----- every step keeps the wiring -----

  /** No task comes or goes and nobody starts or stops parsing. */
  ghost predicate SameWork(s: State, s': State) {
    && SameStaff(s, s') && s'.receivers == s.receivers
    && s.logs.Keys <= s'.logs.Keys
    && forall w :: 0 <= w < |s.workers| ==> s'.workers[w].Unfinished() == s.workers[w].Unfinished()
  }

  /** Old tasks and parsers stay wired; new ones have to be. */
  lemma StaysWired(s: State, s': State)
    requires Wired(s) && SameStaff(s, s') && TablesFit(s') && s.logs.Keys <= s'.logs.Keys
    requires forall w, t :: 0 <= w < |s.workers| && t in s'.workers[w].Unfinished() ==>
               t in s.workers[w].Unfinished() || TaskFits(s', w, t)
    requires forall r :: 0 <= r < |s.receivers| ==> s'.receivers[r] == s.receivers[r] || ReceiverFits(s', r)
    ensures Wired(s')
  {
    hide Shard;
    forall w, t | 0 <= w < |s'.workers| && t in s'.workers[w].Unfinished() ensures TaskFits(s', w, t) {
      assert t in s.workers[w].Unfinished() ==> TaskFits(s, w, t);
    }
    forall r | 0 <= r < |s'.receivers| ensures ReceiverFits(s', r) {
      assert ReceiverFits(s, r);
    }
  }

  /** Steps by which no task and no parse comes or goes. */
  predicate Bookkeeping(e: Event) {
    !e.Read? && !e.Fetch? && !e.Save? && !e.CountUp? && !e.CountDown?
  }

  lemma TakeSameWork(s: State, w: int)
    requires Staffed(s)
    ensures SameWork(s, DoTake(s, w))
  {
    if 0 <= w < |s.workers| && s.workers[w].work.Idle? && s.workers[w].queue != [] {
      assert s.workers[w].queue == [s.workers[w].queue[0]] + s.workers[w].queue[1..];
    }
  }

  lemma BookkeepingSameWork(s: State, e: Event)
    requires Staffed(s) && Bookkeeping(e)
    ensures SameWork(s, Step(s, e))
  {
    hide Shard, DoAdmit, DoQuit, DoSend, DoWritable, DoUnplug, DoReclaim, DoTake, DoExecute, DoVisit, DoStore,
         DoCompare, DoGrab;
    hide DoDeliver, DoEndPass, DoRelease;
    KnownConnections(s, e);
    if e.Take? {
      TakeSameWork(s, e.w);
    }
  }

  lemma FolkKeepsTables(s: State, s': State)
    requires TablesFit(s) && SameFolk(s, s') && s'.clients.Keys <= s.clients.Keys && s'.carry.Keys == s'.clients.Keys
    ensures TablesFit(s')
  {
  }

  lemma ArrivalKeepsTables(s: State, k: int)
    requires TablesFit(s)
    ensures TablesFit(DoAccept(s, k)) && TablesFit(DoAdmit(s, k))
  {
  }

  lemma ReadKeys(s: State, k: int, chunk: seq<byte>)
    requires Staffed(s)
    ensures DoRead(s, k, chunk).carry.Keys == s.carry.Keys
  {
    hide Shard, Parse;
  }

  lemma DepartureKeys(s: State, k: int, w: int)
    requires TablesFit(s)
    ensures DoQuit(s, k).clients.Keys <= s.clients.Keys && DoQuit(s, k).carry.Keys == DoQuit(s, k).clients.Keys
    ensures DoExecute(s, w).clients.Keys <= s.clients.Keys && DoExecute(s, w).carry.Keys == DoExecute(s, w).clients.Keys
  {
    hide Decode;
  }

  lemma StepKeepsTables(s: State, e: Event)
    requires Staffed(s) && TablesFit(s)
    ensures TablesFit(Step(s, e))
  {
    hide Shard, TablesFit, SameFolk, DoAccept, DoAdmit, DoRead, DoFetch, DoSave, DoCountUp, DoQuit, DoSend, DoWritable;
    hide DoUnplug, DoReclaim, DoTake, DoExecute, DoVisit, DoStore, DoCompare, DoGrab, DoDeliver, DoEndPass, DoRelease,
         DoCountDown;
    CarryKeys(s);
    if e.Accept? || e.Admit? {
      ArrivalKeepsTables(s, e.k);
    } else {
      if e.Read? {
        ReadKeys(s, e.k, e.chunk);
      } else if e.Execute? {
        DepartureKeys(s, 0, e.w);
      } else if e.Quit? {
        DepartureKeys(s, e.k, 0);
      }
      FolkKeepsTables(s, Step(s, e));
    }
  }

  lemma CarryKeys(s: State)
    requires TablesFit(s)
    ensures s.carry.Keys == s.clients.Keys
  {
  }

  lemma ReadKeepsReceivers(s: State, k: int, chunk: seq<byte>)
    requires Wired(s)
    ensures forall r :: 0 <= r < |s.receivers| ==>
              DoRead(s, k, chunk).receivers[r] == s.receivers[r] || ReceiverFits(DoRead(s, k, chunk), r)
  {
    hide Shard, Parse;
    if k in s.carry {
      RestIsPending(s.carry[k] + chunk);
    }
  }

  lemma TailOfFrames(fs: seq<seq<byte>>)
    requires AllFrames(fs) && fs != []
    ensures AllFrames(fs[1..]) && IsFrame(fs[0])
  {
    forall f | f in fs[1..] ensures f in fs {}
  }

  lemma FetchKeepsReceivers(s: State, r: int, block: Option<nat>)
    requires Wired(s)
    ensures forall q :: 0 <= q < |s.receivers| ==>
              DoFetch(s, r, block).receivers[q] == s.receivers[q] || ReceiverFits(DoFetch(s, r, block), q)
  {
    hide Shard, AllFrames;
    if Fetching(s, r) {
      assert ReceiverFits(s, r);
      TailOfFrames(s.receivers[r].found);
    }
  }

  /** A saved frame joins the queue of its own worker; nobody else's work changes. */
  lemma SaveWork(s: State, r: int, leftover: seq<byte>, w: int)
    requires Staffed(s) && Saving(s, r, leftover) && 0 <= w < |s.workers|
    ensures DoSave(s, r, leftover).workers[w].work == s.workers[w].work
    ensures DoSave(s, r, leftover).workers[w].Unfinished()
         == s.workers[w].Unfinished() + if w == s.Home(s.receivers[r].sock) then [Saved(s, r, leftover)] else []
  {
    hide Shard;
  }

  lemma SavedTask(s: State, r: int, leftover: seq<byte>)
    requires Wired(s) && Saving(s, r, leftover)
    ensures Saved(s, r, leftover).Valid() && Saved(s, r, leftover).Frame() == s.receivers[r].found[0]
    ensures TaskFits(s, r, Saved(s, r, leftover)) && s.Home(s.receivers[r].sock) == r
  {
    hide Shard;
    assert ReceiverFits(s, r);
    var f := s.receivers[r].found[0];
    TailOfFrames(s.receivers[r].found);
    assert (f + leftover)[..|f|] == f;
  }

  lemma SaveKeepsReceivers(s: State, r: int, leftover: seq<byte>)
    requires Wired(s)
    ensures forall q :: 0 <= q < |s.receivers| ==>
              DoSave(s, r, leftover).receivers[q] == s.receivers[q] || ReceiverFits(DoSave(s, r, leftover), q)
  {
    hide Shard, AllFrames;
    if Saving(s, r, leftover) {
      assert ReceiverFits(s, r);
      TailOfFrames(s.receivers[r].found);
    }
  }

  lemma SaveKeepsWiring(s: State, r: int, leftover: seq<byte>)
    requires Wired(s)
    ensures Wired(DoSave(s, r, leftover))
  {
    hide Shard, DoSave, Saved;
    var s' := DoSave(s, r, leftover);
    StepKeepsTables(s, Save(r, leftover));
    KnownConnections(s, Save(r, leftover));
    SaveKeepsReceivers(s, r, leftover);
    forall w, t | 0 <= w < |s.workers| && t in s'.workers[w].Unfinished()
      ensures t in s.workers[w].Unfinished() || TaskFits(s', w, t)
    {
      if Saving(s, r, leftover) {
        SaveWork(s, r, leftover, w);
        SavedTask(s, r, leftover);
      } else {
        SaveIdle(s, r, leftover);
      }
    }
    StaysWired(s, s');
  }

  lemma SaveIdle(s: State, r: int, leftover: seq<byte>)
    requires Staffed(s) && !Saving(s, r, leftover)
    ensures DoSave(s, r, leftover) == s
  {
  }

  /** Completing a task takes it off the front of its worker's work. */
  lemma CountDownWork(s: State, v: int, w: int)
    requires Staffed(s) && 0 <= w < |s.workers|
    ensures var u := s.workers[w].Unfinished();
            DoCountDown(s, v).workers[w].Unfinished()
            == if v == w && s.workers[w].work.Counting? && s.workers[w].work.task.sock in s.logs then u[1..] else u
  {
    hide Shard;
  }

  lemma CountDownKeepsWiring(s: State, v: int)
    requires Wired(s)
    ensures Wired(DoCountDown(s, v))
  {
    hide Shard, DoCountDown;
    StepKeepsTables(s, CountDown(v));
    KnownConnections(s, CountDown(v));
    forall w | 0 <= w < |s.workers| {
      CountDownWork(s, v, w);
    }
    StaysWired(s, DoCountDown(s, v));
  }

  lemma CountUpReceivers(s: State, r: int)
    requires Staffed(s)
    ensures forall q :: 0 <= q < |s.receivers| ==>
              DoCountUp(s, r).receivers[q] == s.receivers[q] || DoCountUp(s, r).receivers[q].Waiting?
  {
  }

  lemma StepKeepsWiring(s: State, e: Event)
    requires Wired(s)
    ensures Wired(Step(s, e))
  {
    hide Shard, TablesFit, WorkersFit, DoAccept, DoAdmit, DoRead, DoFetch, DoSave, DoCountUp, DoQuit, DoSend;
    hide DoWritable, DoUnplug, DoReclaim, DoTake, DoExecute, DoVisit, DoStore, DoCompare, DoGrab, DoDeliver, DoEndPass,
         DoRelease;
    hide DoCountDown;
    StepKeepsTables(s, e);
    KnownConnections(s, e);
    match e
    case Read(k, chunk) =>
      ReadKeepsReceivers(s, k, chunk);
      StaysWired(s, Step(s, e));
    case Fetch(r, block) =>
      FetchKeepsReceivers(s, r, block);
      StaysWired(s, Step(s, e));
    case Save(r, leftover) => SaveKeepsWiring(s, r, leftover);
    case CountUp(r) =>
      CountUpReceivers(s, r);
      StaysWired(s, Step(s, e));
    case CountDown(w) => CountDownKeepsWiring(s, w);
    case _ =>
      BookkeepingSameWork(s, e);
      StaysWired(s, Step(s, e));
  }
}
