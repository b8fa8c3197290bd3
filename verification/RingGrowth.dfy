/**
 `GetBlock` of MemPool.cpp as several threads run it at the same time: the size test, the test of the number of
 extensions, its increment, the allocations and the ring's own steps are steps of their own, on the pool of
 `RingHandout`.  The increment is one step here.
 */
module RingGrowth {
  import opened Prelude
  import R = RingProtocol
  import H = RingHandout
  import MemPool

  /**
   Where a thread is in `GetBlock`: about to read the size, about to test the number of extensions, about to count one
   more, making the blocks of extension `id`, about to pop, or popping.
   */
  datatype Call = Out | Sizing | Testing | Bumping | Filling(id: nat) | Wanting | Popping

  /** `made` counts the blocks of each extension so far; the first extension is the creation of the pool. */
  datatype State = State(
    pool: H.Pool, count: nat, step: nat, team: set<R.Tid>,
    grown: nat, made: seq<nat>, calls: map<R.Tid, Call>)
  {
    function At(t: R.Tid): Call {
      if t in calls then calls[t] else Out
    }

    function Goto(t: R.Tid, c: Call): State {
      this.(calls := calls[t := c])
    }

    /** The blocks that an extension is to make. */
    function Quota(id: nat): nat {
      if id == 0 then count else step
    }

    /** The pool is ready for use once its first blocks are made. */
    predicate Created() {
      made != [] && made[0] == count && forall t :: t in calls ==> calls[t] != Filling(0)
    }

    predicate Resting(t: R.Tid) {
      pool.ring.At(t).Idle?
    }
  }

  /**
   `Create` is the first extension, by any thread; `Get` starts a call of a thread of the team; `Fill` makes a block.
   */
  datatype Event =
    | Create(t: R.Tid)
    | Get(t: R.Tid)
    | Size(t: R.Tid)
    | Test(t: R.Tid)
    | Bump(t: R.Tid)
    | Fill(t: R.Tid, b: H.Block)
    | Filled(t: R.Tid)
    | Want(t: R.Tid)
    | Go(t: R.Tid)
    | Return(t: R.Tid)
    | Free(t: R.Tid, b: H.Block)
    | Pass(t: R.Tid, u: R.Tid, b: H.Block)

  predicate Fit(s: State) {
    s.pool.ring.cap > 0 && |s.pool.ring.slots| == s.pool.ring.cap
  }

  function Step(s: State, e: Event): State
    requires Fit(s)
  {
    match e
    case Create(t) =>
      if s.made == [] && s.At(t).Out? then s.(grown := s.grown + 1, made := [0]).Goto(t, Filling(0)) else s
    case Get(t) => if s.Created() && t in s.team && s.At(t).Out? && s.Resting(t) then s.Goto(t, Sizing) else s
    case Size(t) => if s.At(t).Sizing? then s.Goto(t, if s.pool.ring.size == 0 then Testing else Wanting) else s
    case Test(t) =>
      if s.At(t).Testing? then s.Goto(t, if s.grown >= MemPool.GROW_COUNT_MAX then Out else Bumping) else s
    case Bump(t) =>
      if s.At(t).Bumping? then s.(grown := s.grown + 1, made := s.made + [0]).Goto(t, Filling(|s.made|)) else s
    case Fill(t, b) =>
      if s.At(t).Filling? && s.Resting(t) && b !in s.pool.made
         && s.At(t).id < |s.made| && s.made[s.At(t).id] < s.Quota(s.At(t).id) then
        s.(made := s.made[s.At(t).id := s.made[s.At(t).id] + 1],
           pool := H.Step(H.Step(s.pool, H.Make(t, b)), H.Give(t, b)))
      else s
    case Filled(t) =>
      if s.At(t).Filling? && s.Resting(t) && s.At(t).id < |s.made| && s.made[s.At(t).id] == s.Quota(s.At(t).id) then
        s.Goto(t, if s.At(t).id == 0 then Out else Wanting)
      else s
    case Want(t) =>
      if s.At(t).Wanting? && s.Resting(t) then s.(pool := H.Step(s.pool, H.Want(t))).Goto(t, Popping) else s
    case Go(t) => s.(pool := H.Step(s.pool, H.Go(t)))
    case Return(t) => if s.At(t).Popping? && s.Resting(t) then s.Goto(t, Out) else s
    case Free(t, b) => if s.At(t).Out? then s.(pool := H.Step(s.pool, H.Give(t, b))) else s
    case Pass(t, u, b) => s.(pool := H.Step(s.pool, H.Pass(t, u, b)))
  }

  predicate Init(s: State) {
    H.Init(s.pool) && s.count > 0 && s.grown == 0 && s.made == [] && s.calls == map[]
  }

  // ----- the invariant -----

  function Sum(ns: seq<nat>): nat {
    if ns == [] then 0 else Sum(Front(ns)) + Last(ns)
  }

  lemma SumSnoc(ns: seq<nat>, n: nat)
    ensures Sum(ns + [n]) == Sum(ns) + n
  {
    assert Front(ns + [n]) == ns && Last(ns + [n]) == n;
  }

  lemma {:induction false} SumUpdate(ns: seq<nat>, i: nat, n: nat)
    requires i < |ns|
    ensures Sum(ns[i := n]) == Sum(ns) - ns[i] + n
    decreases |ns|
  {
    if i < |ns| - 1 {
      assert Front(ns[i := n]) == Front(ns)[i := n];
      SumUpdate(Front(ns), i, n);
    } else {
      assert Front(ns[i := n]) == Front(ns);
    }
  }

  /** The threads that have passed the test and not counted their extension yet. */
  ghost function Bumpers(s: State): set<R.Tid> {
    set t | t in s.calls && s.calls[t].Bumping?
  }

  /** Every block is of an extension, and no extension makes more than its quota. */
  ghost predicate Accounted(s: State) {
    && |s.pool.made| == Sum(s.made)
    && forall id :: 0 <= id < |s.made| ==> s.made[id] <= s.Quota(id)
  }

  /** The extensions are counted rightly, and those to come are of threads of the team that are past the test. */
  ghost predicate Counted(s: State) {
    && s.grown == |s.made|
    && (s.made == [] ==> s.calls == map[])
    && (forall t :: t in s.calls && s.calls[t].Filling? ==> s.calls[t].id < |s.made|)
    && (forall t :: t in s.calls && !s.calls[t].Out? && s.calls[t] != Filling(0) ==> t in s.team)
    && s.grown + |Bumpers(s)| <= MemPool.GROW_COUNT_MAX - 1 + |s.team|
  }

  ghost predicate Inv(s: State) {
    H.Inv(s.pool) && Accounted(s) && Counted(s)
  }

  lemma InitHolds(s: State)
    requires Init(s)
    ensures Inv(s)
  {
    R.InitHolds(s.pool.ring);
    assert Bumpers(s) == {};
  }

  lemma StepKeepsPool(s: State, e: Event)
    requires H.Inv(s.pool)
    ensures Fit(s) && H.Inv(Step(s, e).pool) && Fit(Step(s, e))
  {
    hide H.Exclusive, R.Ownership, R.Stored, R.Stale, R.Counted, H.Step;
    match e
    case Fill(t, b) =>
      H.StepKeepsInv(s.pool, H.Make(t, b));
      H.StepKeepsInv(H.Step(s.pool, H.Make(t, b)), H.Give(t, b));
    case Want(t) => H.StepKeepsInv(s.pool, H.Want(t));
    case Go(t) => H.StepKeepsInv(s.pool, H.Go(t));
    case Free(t, b) => H.StepKeepsInv(s.pool, H.Give(t, b));
    case Pass(t, u, b) => H.StepKeepsInv(s.pool, H.Pass(t, u, b));
    case _ =>
  }

  lemma OnlyMakeMakes(p: H.Pool, e: H.Event)
    requires p.ring.cap > 0 && |p.ring.slots| == p.ring.cap
    ensures H.Step(p, e).made == if e.Make? then p.made + {e.b} else p.made
  {
    hide R.Step;
  }

  lemma FillMakesOne(s: State, t: R.Tid, b: H.Block)
    requires Fit(s) && b !in s.pool.made
    ensures var p := H.Step(s.pool, H.Make(t, b));
            && p.ring == s.pool.ring && H.Step(p, H.Give(t, b)).made == s.pool.made + {b}
            && |s.pool.made + {b}| == |s.pool.made| + 1
  {
    OnlyMakeMakes(H.Step(s.pool, H.Make(t, b)), H.Give(t, b));
  }

  lemma FillKeepsAccounted(s: State, t: R.Tid, b: H.Block)
    requires Fit(s) && Accounted(s)
    ensures Accounted(Step(s, Fill(t, b)))
  {
    if s.At(t).Filling? && b !in s.pool.made && s.At(t).id < |s.made| {
      FillMakesOne(s, t, b);
      SumUpdate(s.made, s.At(t).id, s.made[s.At(t).id] + 1);
    }
    hide H.Step, Sum;
  }

  lemma GrowthKeepsAccounted(s: State, t: R.Tid)
    requires Fit(s) && Accounted(s)
    ensures Accounted(Step(s, Create(t))) && Accounted(Step(s, Bump(t)))
  {
    SumSnoc(s.made, 0);
    assert s.made == [] ==> s.made + [0] == [0];
    hide H.Step, Sum;
  }

  lemma StepKeepsAccounted(s: State, e: Event)
    requires Fit(s) && Accounted(s)
    ensures Accounted(Step(s, e))
  {
    if e.Fill? {
      FillKeepsAccounted(s, e.t, e.b);
    } else if e.Create? || e.Bump? {
      GrowthKeepsAccounted(s, e.t);
    } else {
      OthersMakeNothing(s, e);
      hide Step, Sum;
    }
  }

  lemma OthersMakeNothing(s: State, e: Event)
    requires Fit(s) && !e.Fill? && !e.Create? && !e.Bump?
    ensures var s' := Step(s, e);
            s'.pool.made == s.pool.made && s'.made == s.made && s'.count == s.count && s'.step == s.step
  {
    hide H.Step;
    match e
    case Want(t) => OnlyMakeMakes(s.pool, H.Want(t));
    case Go(t) => OnlyMakeMakes(s.pool, H.Go(t));
    case Free(t, b) => OnlyMakeMakes(s.pool, H.Give(t, b));
    case Pass(t, u, b) => OnlyMakeMakes(s.pool, H.Pass(t, u, b));
    case _ =>
  }

  /** One thread changes its place. */
  lemma BumpersChange(s: State, s': State, t: R.Tid, c: Call)
    requires s'.calls == s.calls[t := c]
    ensures Bumpers(s') == if c.Bumping? then Bumpers(s) + {t} else Bumpers(s) - {t}
  {
  }

  lemma BumpersInTeam(s: State)
    requires forall t :: t in s.calls && s.calls[t].Bumping? ==> t in s.team
    ensures |Bumpers(s)| <= |s.team|
  {
    Within(Bumpers(s), s.team);
  }

  lemma {:induction false} Within(x: set<R.Tid>, y: set<R.Tid>)
    requires x <= y
    ensures |x| <= |y|
    decreases |x|
  {
    if x != {} {
      var t :| t in x;
      Within(x - {t}, y - {t});
    }
  }

  /** What a step does to places and counts. */
  lemma StepMoves(s: State, e: Event)
    requires Fit(s)
    ensures var s' := Step(s, e);
            && s'.team == s.team && |s.made| <= |s'.made|
            && (s'.calls == s.calls || s'.calls == s.calls[e.t := s'.At(e.t)])
            && s'.grown - s.grown == |s'.made| - |s.made| <= 1
  {
    hide H.Step;
  }

  /** Who passes the test is of the team, and the count was below the limit. */
  lemma TestKeepsBound(s: State, t: R.Tid)
    requires Fit(s) && Counted(s)
    ensures var s' := Step(s, Test(t)); s'.grown + |Bumpers(s')| <= MemPool.GROW_COUNT_MAX - 1 + |s'.team|
  {
    var s' := Step(s, Test(t));
    BumpersInTeam(s');
    if s.At(t).Testing? {
      BumpersChange(s, s', t, s'.At(t));
      hide Bumpers;
      if !s'.At(t).Bumping? {
        Within(Bumpers(s) - {t}, Bumpers(s));
      }
    }
  }

  lemma BumpKeepsBound(s: State, t: R.Tid)
    requires Fit(s) && Counted(s)
    ensures var s' := Step(s, Bump(t)); s'.grown + |Bumpers(s')| <= MemPool.GROW_COUNT_MAX - 1 + |s'.team|
  {
    if s.At(t).Bumping? {
      var s' := Step(s, Bump(t));
      BumpersChange(s, s', t, s'.At(t));
      assert t in Bumpers(s);
    }
  }

  lemma CreateKeepsBound(s: State, t: R.Tid)
    requires Fit(s) && Counted(s)
    ensures var s' := Step(s, Create(t)); s'.grown + |Bumpers(s')| <= MemPool.GROW_COUNT_MAX - 1 + |s'.team|
  {
    if s.made == [] {
      assert Bumpers(s) == {} && Bumpers(Step(s, Create(t))) == {};
    }
  }

  lemma OthersKeepBumpers(s: State, e: Event)
    requires Fit(s) && !e.Create? && !e.Test? && !e.Bump?
    ensures var s' := Step(s, e); Bumpers(s') == Bumpers(s) && s'.grown == s.grown && s'.team == s.team
  {
    hide H.Step;
  }

  lemma StepKeepsCounted(s: State, e: Event)
    requires Fit(s) && Counted(s)
    ensures Counted(Step(s, e))
  {
    StepMoves(s, e);
    StepKeepsPlaces(s, e);
    if e.Create? {
      CreateKeepsBound(s, e.t);
    } else if e.Test? {
      TestKeepsBound(s, e.t);
    } else if e.Bump? {
      BumpKeepsBound(s, e.t);
    } else {
      OthersKeepBumpers(s, e);
    }
    hide Step, Bumpers;
  }

  lemma StepKeepsPlaces(s: State, e: Event)
    requires Fit(s) && Counted(s)
    ensures var s' := Step(s, e);
            && (s'.made == [] ==> s'.calls == map[])
            && (forall t :: t in s'.calls && s'.calls[t].Filling? ==> s'.calls[t].id < |s'.made|)
            && (forall t :: t in s'.calls && !s'.calls[t].Out? && s'.calls[t] != Filling(0) ==> t in s'.team)
  {
    hide H.Step, Bumpers;
  }

  lemma StepKeepsInv(s: State, e: Event)
    requires Inv(s)
    ensures Fit(s) && Inv(Step(s, e))
  {
    hide Accounted, Counted, Step;
    StepKeepsPool(s, e);
    StepKeepsAccounted(s, e);
    StepKeepsCounted(s, e);
  }

  // ----- runs -----

  function Run(s: State, events: seq<Event>): (s': State)
    requires Fit(s) && H.Inv(s.pool)
    decreases events
  {
    if events == [] then s
    else
      StepKeepsPool(s, events[0]);
      Run(Step(s, events[0]), events[1..])
  }

  lemma {:induction false} RunKeepsInv(s: State, events: seq<Event>)
    requires Inv(s)
    ensures Fit(s) && Inv(Run(s, events))
    decreases events
  {
    hide Accounted, Counted, Step;
    if events != [] {
      StepKeepsInv(s, events[0]);
      RunKeepsInv(Step(s, events[0]), events[1..]);
    }
  }

  /** The sizes and the team of a pool stay. */
  lemma {:induction false} RunKeepsSizes(s: State, events: seq<Event>)
    requires Fit(s) && H.Inv(s.pool)
    ensures var s' := Run(s, events); s'.count == s.count && s'.step == s.step && s'.team == s.team
    decreases events
  {
    if events != [] {
      StepKeepsPool(s, events[0]);
      StepKeepsSizes(s, events[0]);
      hide Step;
      RunKeepsSizes(Step(s, events[0]), events[1..]);
    }
  }

  lemma StepKeepsSizes(s: State, e: Event)
    requires Fit(s)
    ensures var s' := Step(s, e); s'.count == s.count && s'.step == s.step && s'.team == s.team
    ensures Step(s, e).pool.ring.cap == s.pool.ring.cap
  {
    hide R.Step;
    CapStays(s.pool.ring);
  }

  lemma CapStays(r: R.State<H.Block>)
    requires r.cap > 0 && |r.slots| == r.cap
    ensures forall t, a :: R.Step(r, t, a).cap == r.cap && |R.Step(r, t, a).slots| == r.cap
  {
  }

  lemma {:induction false} SumWithin(s: State, n: nat)
    requires n <= |s.made| && forall id :: 0 <= id < |s.made| ==> s.made[id] <= s.Quota(id)
    ensures Sum(s.made[..n]) <= if n == 0 then 0 else s.count + (n - 1) * s.step
    decreases n
  {
    if n > 0 {
      SumWithin(s, n - 1);
      assert s.made[..n] == s.made[..n - 1] + [s.made[n - 1]];
      SumSnoc(s.made[..n - 1], s.made[n - 1]);
      if n > 1 {
        assert (n - 1) * s.step == (n - 2) * s.step + s.step;
      }
    }
  }

  /**
   With `T` threads that take blocks, a pool is extended at most 19 + T times, its creation included: in every run
   the number of extensions and the number of blocks ever allocated stay within that.
   */
  lemma ExtensionsAreBounded(s0: State, events: seq<Event>)
    requires Init(s0)
    ensures H.Inv(s0.pool) && Fit(s0)
    ensures var s := Run(s0, events);
            && |s.made| == s.grown <= MemPool.GROW_COUNT_MAX - 1 + |s0.team|
            && |s.pool.made| <= s0.count + (MemPool.GROW_COUNT_MAX - 2 + |s0.team|) * s0.step
  {
    InitHolds(s0);
    RunKeepsInv(s0, events);
    RunKeepsSizes(s0, events);
    var s := Run(s0, events);
    SumWithin(s, |s.made|);
    assert s.made[..|s.made|] == s.made;
    var n, m := |s.made|, MemPool.GROW_COUNT_MAX - 1 + |s0.team|;
    hide Run;
    if n > 0 {
      Monotone(n - 1, m - 1, s.step);
    } else {
      Monotone(0, m - 1, s.step);
    }
  }

  lemma Monotone(x: nat, y: nat, step: nat)
    requires x <= y
    ensures 0 <= x * step <= y * step
  {
  }

  /** The relay's pools, each of which four threads take blocks from, stay far below what the ring can keep apart. */
  lemma RelayPoolsStayWithin(s0: State, events: seq<Event>)
    requires Init(s0) && |s0.team| == 4 && s0.step == MemPool.GROW_STEP
    ensures H.Inv(s0.pool) && Fit(s0)
    ensures s0.count == MemPool.SEND_BLOCKS ==> |Run(s0, events).pool.made| <= 327680
    ensures s0.count == MemPool.RECV_BLOCKS ==> |Run(s0, events).pool.made| <= 532480
    ensures |Run(s0, events).made| <= 23
  {
    ExtensionsAreBounded(s0, events);
  }

  // ----- the bound is reached -----

  ghost predicate Reaches(s0: State, s: State)
    requires Fit(s0) && H.Inv(s0.pool)
  {
    exists events :: Run(s0, events) == s
  }

  lemma {:induction false} RunSnoc(s: State, events: seq<Event>, e: Event)
    requires Inv(s)
    ensures Fit(s) && Inv(Run(s, events)) && Fit(Run(s, events)) && Run(s, events + [e]) == Step(Run(s, events), e)
    decreases events
  {
    hide Accounted, Counted, Step;
    RunKeepsInv(s, events);
    if events == [] {
      assert [] + [e] == [e];
      StepKeepsInv(s, e);
      assert Run(Step(s, e), []) == Step(s, e);
    } else {
      assert (events + [e])[0] == events[0] && (events + [e])[1..] == events[1..] + [e];
      StepKeepsInv(s, events[0]);
      RunSnoc(Step(s, events[0]), events[1..], e);
    }
  }

  predicate SameSizes(s: State, s': State) {
    s'.count == s.count && s'.step == s.step && s'.team == s.team && s'.pool.ring.cap == s.pool.ring.cap
  }

  lemma Onward(s0: State, s: State, e: Event) returns (s': State)
    requires Init(s0) && H.Inv(s0.pool) && Reaches(s0, s)
    ensures Fit(s) && Inv(s) && s' == Step(s, e) && Inv(s') && Fit(s') && Reaches(s0, s')
    ensures SameSizes(s, s')
  {
    InitHolds(s0);
    hide Inv, Step;
    var events :| Run(s0, events) == s;
    RunSnoc(s0, events, e);
    s' := Step(s, e);
    assert Run(s0, events + [e]) == s';
    StepKeepsInv(s, e);
    StepKeepsSizes(s, e);
  }

  // A push and a pop of one thread while all others rest.

  ghost predicate AllRest(r: R.State<H.Block>) {
    forall t {:trigger r.At(t)} :: r.At(t).Idle?
  }

  /** With nobody at work everything reserved is committed and the size is exact. */
  lemma RestingRing(r: R.State<H.Block>)
    requires R.Inv(r) && AllRest(r) && r.cap < R.COUNTER
    ensures r.maxRead == r.write && r.size == r.write - r.read && r.write < r.read + r.cap
  {
    R.SizeWhenQuiet(r);
    if r.maxRead < r.write {
      OwnerAtWork(r);
    }
  }

  lemma OwnerAtWork(r: R.State<H.Block>)
    requires R.Inv(r) && r.maxRead < r.write
    ensures !r.At(r.owners[r.maxRead]).Idle?
  {
    assert r.At(r.owners[r.maxRead]).Owns(r.maxRead);
  }

  function Gone(r: R.State<H.Block>, t: R.Tid, n: nat): (r': R.State<H.Block>)
    requires r.cap > 0 && |r.slots| == r.cap
    ensures r'.cap == r.cap && |r'.slots| == r'.cap
  {
    if n == 0 then r else R.Step(Gone(r, t, n - 1), t, R.Go)
  }

  lemma {:induction false} GoneOn(r: R.State<H.Block>, t: R.Tid, m: nat, n: nat)
    requires r.cap > 0 && |r.slots| == r.cap
    ensures Gone(r, t, m + n) == Gone(Gone(r, t, m), t, n)
    decreases n
  {
    if n > 0 {
      GoneOn(r, t, m, n - 1);
    }
  }

  lemma GoneOnce(r: R.State<H.Block>, t: R.Tid)
    requires r.cap > 0 && |r.slots| == r.cap
    ensures Gone(r, t, 1) == R.Step(r, t, R.Go)
  {
    assert Gone(r, t, 0) == r;
  }

  lemma GoneThrice(r: R.State<H.Block>, t: R.Tid)
    requires r.cap > 0 && |r.slots| == r.cap
    ensures Gone(r, t, 3) == R.Step(R.Step(R.Step(r, t, R.Go), t, R.Go), t, R.Go)
  {
    hide R.Step;
    GoneOnce(r, t);
    assert Gone(r, t, 2) == R.Step(Gone(r, t, 1), t, R.Go);
    assert Gone(r, t, 3) == R.Step(Gone(r, t, 2), t, R.Go);
  }

  /** The slot is reserved. */
  lemma PushReserves(r: R.State<H.Block>, t: R.Tid, b: H.Block)
    requires R.Window(r) && r.At(t) == R.PushLoadWrite(b) && r.write + 1 < r.read + r.cap
    ensures var q := Gone(r, t, 3);
            && q.pcs == r.pcs[t := R.PushStore(b, r.write)] && q.write == r.write + 1 && q.read == r.read
            && q.maxRead == r.maxRead
  {
    GoneThrice(r, t);
    hide Gone;
    R.FullTest(r, r.write);
    var q1 := R.Step(r, t, R.Go);
    assert q1.At(t) == R.PushLoadRead(b, r.write) && q1.cap == r.cap && q1.read == r.read;
    var q2 := R.Step(q1, t, R.Go);
    assert q2.At(t) == R.PushReserve(b, r.write);
  }

  /** It is filled, committed and counted. */
  lemma PushCommits(r: R.State<H.Block>, t: R.Tid, b: H.Block)
    requires r.cap > 0 && |r.slots| == r.cap && r.At(t) == R.PushStore(b, r.maxRead)
    ensures var q := Gone(r, t, 3); q.pcs == r.pcs[t := R.Idle] && q.write == r.write && q.read == r.read
  {
    GoneThrice(r, t);
    hide Gone;
    var q1 := R.Step(r, t, R.Go);
    assert q1.At(t) == R.PushCommit(b, r.maxRead);
    var q2 := R.Step(q1, t, R.Go);
    assert q2.At(t) == R.PushAdd;
  }

  lemma CallStarts(r: R.State<H.Block>, t: R.Tid, b: H.Block)
    requires R.Window(r) && r.At(t).Idle?
    ensures var q := R.Step(r, t, R.Push(b));
            R.Window(q) && q == r.Goto(t, R.PushLoadWrite(b)) && q.At(t) == R.PushLoadWrite(b)
    ensures var q := R.Step(r, t, R.Pop);
            R.Window(q) && q == r.Goto(t, R.PopLoadRead) && q.At(t) == R.PopLoadRead
  {
  }

  lemma PushAlone(r: R.State<H.Block>, t: R.Tid, b: H.Block)
    requires R.Window(r) && r.At(t).Idle? && r.maxRead == r.write && r.write + 1 < r.read + r.cap
    ensures var q := Gone(R.Step(r, t, R.Push(b)), t, 6);
            q.pcs == r.pcs[t := R.Idle] && q.write == r.write + 1 && q.read == r.read
  {
    hide R.Step, Gone;
    CallStarts(r, t, b);
    var q0 := R.Step(r, t, R.Push(b));
    PushReserves(q0, t, b);
    var q3 := Gone(q0, t, 3);
    assert q3.At(t) == R.PushStore(b, q3.maxRead);
    PushCommits(q3, t, b);
    GoneOn(q0, t, 3, 3);
  }

  /** The oldest element is found. */
  lemma PopFinds(r: R.State<H.Block>, t: R.Tid)
    requires R.Window(r) && r.At(t) == R.PopLoadRead && r.read < r.maxRead
    ensures var q := Gone(r, t, 3);
            && (exists v :: q.pcs == r.pcs[t := R.PopAdvance(r.read, v)]) && q.write == r.write && q.read == r.read
  {
    GoneThrice(r, t);
    hide Gone;
    R.EmptyTest(r, r.read);
    var q1 := R.Step(r, t, R.Go);
    assert q1.At(t) == R.PopLoadMax(r.read) && q1.cap == r.cap && q1.maxRead == r.maxRead;
    var q2 := R.Step(q1, t, R.Go);
    assert q2.At(t) == R.PopFetch(r.read) && q2.slots == r.slots;
    var q3 := R.Step(q2, t, R.Go);
    assert q3.pcs == r.pcs[t := R.PopAdvance(r.read, r.slots[r.read % r.cap])];
  }

  /** It is taken and counted. */
  lemma PopTakes(r: R.State<H.Block>, t: R.Tid, v: H.Block)
    requires r.cap > 0 && |r.slots| == r.cap && r.At(t) == R.PopAdvance(r.read, v)
    ensures var q := Gone(r, t, 2); q.pcs == r.pcs[t := R.Idle] && q.write == r.write && q.read == r.read + 1
  {
    GoneOnce(r, t);
    assert Gone(r, t, 2) == R.Step(Gone(r, t, 1), t, R.Go);
    var q1 := R.Step(r, t, R.Go);
    assert q1.At(t) == R.PopSub;
  }

  lemma PopAlone(r: R.State<H.Block>, t: R.Tid)
    requires R.Window(r) && r.At(t).Idle? && r.read < r.maxRead
    ensures var q := Gone(R.Step(r, t, R.Pop), t, 5);
            q.pcs == r.pcs[t := R.Idle] && q.write == r.write && q.read == r.read + 1
  {
    hide R.Step, Gone;
    CallStarts(r, t, 0);
    var q0 := R.Step(r, t, R.Pop);
    PopFinds(q0, t);
    var q3 := Gone(q0, t, 3);
    var v :| q3.pcs == q0.pcs[t := R.PopAdvance(q0.read, v)];
    PopTakes(q3, t, v);
    GoneOn(q0, t, 3, 2);
  }

  /** The ring goes on, and nothing else. */
  predicate SameGrowth(s: State, s': State) {
    s'.calls == s.calls && s'.grown == s.grown && s'.made == s.made && s'.pool.made == s.pool.made
  }

  lemma GoIs(s: State, t: R.Tid)
    requires Fit(s)
    ensures var s' := Step(s, Go(t)); SameGrowth(s, s') && s'.pool.ring == R.Step(s.pool.ring, t, R.Go)
  {
    OnlyMakeMakes(s.pool, H.Go(t));
    hide R.Step;
  }

  lemma {:induction false} GoOn(s0: State, s: State, t: R.Tid, n: nat) returns (s': State)
    requires Init(s0) && H.Inv(s0.pool) && Reaches(s0, s) && Fit(s)
    ensures Reaches(s0, s') && SameGrowth(s, s') && s'.pool.ring == Gone(s.pool.ring, t, n)
    ensures Fit(s') && SameSizes(s, s')
    decreases n
  {
    if n == 0 {
      s' := s;
    } else {
      hide Inv, Step, R.Step, Reaches, Init;
      var u := GoOn(s0, s, t, n - 1);
      GoIs(u, t);
      s' := Onward(s0, u, Go(t));
    }
  }

  // What one thread does in `GetBlock` while all others rest.

  /** Nobody is at work in the ring, which holds `n` blocks. */
  ghost predicate Calm(s: State, n: nat) {
    && Inv(s) && AllRest(s.pool.ring) && s.pool.ring.cap < R.COUNTER
    && s.pool.ring.write == s.pool.ring.read + n
  }

  lemma CalmRing(s: State, t: R.Tid, n: nat)
    requires Calm(s, n)
    ensures var r := s.pool.ring; Fit(s) && R.Window(r) && r.maxRead == r.write && r.size == n && n < r.cap
    ensures s.Resting(t)
  {
    RestingRing(s.pool.ring);
  }

  lemma StillCalm(s: State, s': State, t: R.Tid, n: nat, n': nat)
    requires Calm(s, n) && Inv(s') && s'.pool.ring.cap == s.pool.ring.cap
    requires s'.pool.ring.pcs == s.pool.ring.pcs[t := R.Idle] && s'.pool.ring.write == s'.pool.ring.read + n'
    ensures Calm(s', n')
  {
    hide Inv;
    forall u ensures s'.pool.ring.At(u).Idle? {
      assert s.pool.ring.At(u).Idle?;
    }
  }

  lemma {:induction false} Unmade(made: set<H.Block>) returns (b: H.Block)
    ensures b !in made && forall c :: c in made ==> c < b
    decreases |made|
  {
    if made == {} {
      b := 0;
    } else {
      var c :| c in made;
      var d := Unmade(made - {c});
      assert forall x :: x in made ==> x == c || x in made - {c};
      b := if d > c then d else c + 1;
    }
  }

  /** A block made by a resting thread can be pushed. */
  lemma MakeAndGive(p: H.Pool, t: R.Tid, b: H.Block)
    requires p.ring.cap > 0 && |p.ring.slots| == p.ring.cap && p.ring.At(t).Idle? && b !in p.made
    ensures var q := H.Step(p, H.Make(t, b));
            q.ring == p.ring && H.Step(q, H.Give(t, b)).ring == R.Step(p.ring, t, R.Push(b))
  {
    hide R.Step;
    assert b in H.Step(p, H.Make(t, b)).Hand(t);
  }

  lemma FillIs(s: State, t: R.Tid, b: H.Block)
    requires Fit(s) && s.At(t).Filling? && s.Resting(t) && b !in s.pool.made
    requires s.At(t).id < |s.made| && s.made[s.At(t).id] < s.Quota(s.At(t).id)
    ensures var s' := Step(s, Fill(t, b));
            && s'.calls == s.calls && s'.grown == s.grown && s'.pool.ring == R.Step(s.pool.ring, t, R.Push(b))
            && s'.made == s.made[s.At(t).id := s.made[s.At(t).id] + 1]
  {
    MakeAndGive(s.pool, t, b);
    hide H.Step, R.Step;
  }

  /** One block is made and pushed. */
  lemma PushOne(s0: State, s: State, t: R.Tid, id: nat, n: nat) returns (s': State)
    requires Init(s0) && H.Inv(s0.pool) && Reaches(s0, s) && Calm(s, n) && n + 1 < s.pool.ring.cap
    requires s.At(t) == Filling(id) && id < |s.made| && s.made[id] < s.Quota(id)
    ensures Reaches(s0, s') && Calm(s', n + 1) && SameSizes(s, s') && s'.grown == s.grown && s'.calls == s.calls
    ensures s'.made == s.made[id := s.made[id] + 1]
  {
    hide Reaches, Step, R.Step, Inv, Gone;
    var b := Unmade(s.pool.made);
    CalmRing(s, t, n);
    FillIs(s, t, b);
    var u := Onward(s0, s, Fill(t, b));
    PushAlone(s.pool.ring, t, b);
    s' := GoOn(s0, u, t, 6);
    ReachedInv(s0, s');
    StillCalm(s, s', t, n, n + 1);
  }

  lemma ReachedInv(s0: State, s: State)
    requires Init(s0) && H.Inv(s0.pool) && Reaches(s0, s)
    ensures Inv(s)
  {
    InitHolds(s0);
    hide Inv;
    var events :| Run(s0, events) == s;
    RunKeepsInv(s0, events);
  }

  /** The rest of an extension's blocks are made and pushed. */
  lemma {:induction false} FillAll(s0: State, s: State, t: R.Tid, id: nat, n: nat, left: nat) returns (s': State)
    requires Init(s0) && H.Inv(s0.pool) && Reaches(s0, s) && Calm(s, n) && n + left < s.pool.ring.cap
    requires s.At(t) == Filling(id) && id < |s.made| && s.made[id] + left == s.Quota(id)
    ensures Reaches(s0, s') && Calm(s', n + left) && SameSizes(s, s') && s'.grown == s.grown && s'.calls == s.calls
    ensures s'.made == s.made[id := s.Quota(id)]
    decreases left
  {
    hide Reaches, Init, H.Inv, Inv, Calm;
    if left == 0 {
      s' := s;
    } else {
      var u := PushOne(s0, s, t, id, n);
      s' := FillAll(s0, u, t, id, n + 1, left - 1);
    }
  }

  predicate Local(e: Event) {
    e.Create? || e.Get? || e.Size? || e.Test? || e.Bump? || e.Filled? || e.Return?
  }

  /** A step that leaves the ring alone. */
  lemma Act(s0: State, s: State, e: Event, n: nat) returns (s': State)
    requires Init(s0) && H.Inv(s0.pool) && Reaches(s0, s) && Calm(s, n) && Local(e)
    ensures Fit(s) && s' == Step(s, e) && s.Resting(e.t) && s.pool.ring.size == n
    ensures Reaches(s0, s') && Calm(s', n) && SameSizes(s, s')
  {
    hide Reaches, H.Step, Inv;
    CalmRing(s, e.t, n);
    s' := Onward(s0, s, e);
  }

  lemma WantIs(s: State, t: R.Tid)
    requires Fit(s) && s.At(t).Wanting? && s.Resting(t)
    ensures var s' := Step(s, Want(t));
            && s'.calls == s.calls[t := Popping] && s'.grown == s.grown && s'.made == s.made
            && s'.pool.ring == R.Step(s.pool.ring, t, R.Pop)
  {
    hide R.Step;
  }

  /** One block is popped and the call ends. */
  lemma TakeOne(s0: State, s: State, t: R.Tid, n: nat) returns (s': State)
    requires Init(s0) && H.Inv(s0.pool) && Reaches(s0, s) && Calm(s, n) && n > 0 && s.At(t).Wanting?
    ensures Reaches(s0, s') && Calm(s', n - 1) && SameSizes(s, s') && s'.grown == s.grown && s'.made == s.made
    ensures s'.calls == s.calls[t := Out]
  {
    hide Reaches, R.Step, Inv, Gone;
    CalmRing(s, t, n);
    WantIs(s, t);
    var u := Onward(s0, s, Want(t));
    hide Step;
    PopAlone(s.pool.ring, t);
    var v := GoOn(s0, u, t, 5);
    ReachedInv(s0, v);
    StillCalm(s, v, t, n, n - 1);
    s' := Act(s0, v, Return(t), n - 1);
    ReturnIs(v, t);
  }

  lemma ReturnIs(s: State, t: R.Tid)
    requires Fit(s) && s.At(t).Popping? && s.Resting(t)
    ensures Step(s, Return(t)) == s.(calls := s.calls[t := Out])
  {
  }

  /** Thread `t` takes all blocks there are. */
  lemma {:induction false} Drain(s0: State, s: State, t: R.Tid, n: nat) returns (s': State)
    requires Init(s0) && H.Inv(s0.pool) && Reaches(s0, s) && Calm(s, n)
    requires s.Created() && t in s.team && s.At(t).Out?
    ensures Reaches(s0, s') && Calm(s', 0) && SameSizes(s, s') && s'.grown == s.grown && s'.made == s.made
    ensures s'.Created() && s'.At(t).Out? && forall u :: u != t ==> s'.At(u) == s.At(u)
    decreases n
  {
    hide Reaches, Init, H.Inv, H.Step, Calm;
    s' := s;
    if n > 0 {
      s' := Act(s0, s', Get(t), n);
      s' := Act(s0, s', Size(t), n);
      hide Step;
      s' := TakeOne(s0, s', t, n);
      s' := Drain(s0, s', t, n - 1);
    }
  }

  /** Thread `t` finds the ring empty and passes the test. */
  lemma PassTest(s0: State, s: State, t: R.Tid) returns (s': State)
    requires Init(s0) && H.Inv(s0.pool) && Reaches(s0, s) && Calm(s, 0)
    requires s.Created() && t in s.team && s.At(t).Out? && s.grown < MemPool.GROW_COUNT_MAX
    ensures Reaches(s0, s') && Calm(s', 0) && SameSizes(s, s') && s'.grown == s.grown && s'.made == s.made
    ensures s'.Created() && s'.calls == s.calls[t := Bumping]
  {
    hide Reaches, Init, H.Inv, H.Step, Calm;
    s' := Act(s0, s, Get(t), 0);
    s' := Act(s0, s', Size(t), 0);
    s' := Act(s0, s', Test(t), 0);
  }

  /** Past the test, thread `t` extends the pool and takes all its blocks. */
  lemma Grow(s0: State, s: State, t: R.Tid) returns (s': State)
    requires Init(s0) && H.Inv(s0.pool) && Reaches(s0, s) && Calm(s, 0) && 1 <= s.step < s.pool.ring.cap
    requires s.Created() && t in s.team && s.At(t).Bumping?
    ensures Reaches(s0, s') && Calm(s', 0) && SameSizes(s, s')
    ensures s'.grown == s.grown + 1 && s'.made == s.made + [s.step]
    ensures s'.Created() && s'.At(t).Out? && forall u :: u != t ==> s'.At(u) == s.At(u)
  {
    hide Reaches, Init, H.Inv, H.Step, Calm;
    var id := |s.made|;
    s' := Act(s0, s, Bump(t), 0);
    s' := FillAll(s0, s', t, id, 0, s.step);
    assert s'.made == s.made + [s.step];
    s' := Act(s0, s', Filled(t), s.step);
    hide Step;
    s' := TakeOne(s0, s', t, s.step);
    s' := Drain(s0, s', t, s.step - 1);
  }

  lemma StartIsCalm(s0: State)
    requires Init(s0) && s0.pool.ring.cap < R.COUNTER
    ensures H.Inv(s0.pool) && Reaches(s0, s0) && Calm(s0, 0)
  {
    InitHolds(s0);
    assert Run(s0, []) == s0;
  }

  /** The creation of the pool, after which thread `t` takes all its blocks. */
  lemma CreateAndDrain(s0: State, t: R.Tid) returns (s': State)
    requires Init(s0) && t in s0.team && s0.count < s0.pool.ring.cap < R.COUNTER
    ensures H.Inv(s0.pool) && Reaches(s0, s') && Calm(s', 0) && SameSizes(s0, s')
    ensures s'.grown == 1 && s'.made == [s0.count] && s'.Created() && forall u {:trigger s'.At(u)} :: s'.At(u).Out?
  {
    StartIsCalm(s0);
    hide Reaches, H.Inv, H.Step, Calm;
    s' := Act(s0, s0, Create(t), 0);
    s' := FillAll(s0, s', t, 0, 0, s0.count);
    s' := Act(s0, s', Filled(t), s0.count);
    hide Step;
    s' := Drain(s0, s', t, s0.count);
  }

  /** Every extension has made all its blocks. */
  predicate Whole(s: State) {
    forall id :: 0 <= id < |s.made| ==> s.made[id] == s.Quota(id)
  }

  /** One thread extends the pool until one extension is left. */
  lemma {:induction false} Climb(s0: State, s: State, t: R.Tid) returns (s': State)
    requires Init(s0) && H.Inv(s0.pool) && Reaches(s0, s) && Calm(s, 0) && 1 <= s.step < s.pool.ring.cap
    requires s.Created() && t in s.team && 0 < s.grown < MemPool.GROW_COUNT_MAX && s.grown == |s.made| && Whole(s)
    requires forall u {:trigger s.At(u)} :: s.At(u).Out?
    ensures Reaches(s0, s') && Calm(s', 0) && SameSizes(s, s') && s'.Created()
    ensures s'.grown == |s'.made| == MemPool.GROW_COUNT_MAX - 1 && Whole(s')
    ensures forall u {:trigger s'.At(u)} :: s'.At(u).Out?
    decreases MemPool.GROW_COUNT_MAX - s.grown
  {
    hide Reaches, Init, H.Inv, Calm;
    if s.grown == MemPool.GROW_COUNT_MAX - 1 {
      s' := s;
    } else {
      var v := PassTest(s0, s, t);
      s' := Grow(s0, v, t);
      forall u ensures s'.At(u).Out? {
        assert u != t ==> v.At(u) == s.At(u);
      }
      s' := Climb(s0, s', t);
    }
  }

  /** The threads of `todo` pass the test one after the other, before any of them counts its extension. */
  lemma {:induction false} Gather(s0: State, s: State, todo: set<R.Tid>) returns (s': State)
    requires Init(s0) && H.Inv(s0.pool) && Reaches(s0, s) && Calm(s, 0) && s.Created()
    requires todo <= s.team && s.grown < MemPool.GROW_COUNT_MAX
    requires forall u :: u in todo ==> s.At(u).Out?
    ensures Reaches(s0, s') && Calm(s', 0) && SameSizes(s, s') && s'.Created()
    ensures s'.grown == s.grown && s'.made == s.made
    ensures forall u :: s'.At(u) == if u in todo then Bumping else s.At(u)
    decreases |todo|
  {
    hide Reaches, Init, H.Inv, Calm;
    s' := s;
    if todo != {} {
      var t :| t in todo;
      s' := PassTest(s0, s', t);
      s' := Gather(s0, s', todo - {t});
    }
  }

  /** Each of them extends the pool. */
  lemma {:induction false} Disperse(s0: State, s: State, todo: set<R.Tid>) returns (s': State)
    requires Init(s0) && H.Inv(s0.pool) && Reaches(s0, s) && Calm(s, 0) && 1 <= s.step < s.pool.ring.cap
    requires s.Created() && todo <= s.team && s.grown == |s.made| && Whole(s)
    requires forall u :: u in todo ==> s.At(u).Bumping?
    ensures Reaches(s0, s') && Calm(s', 0) && SameSizes(s, s')
    ensures s'.grown == |s'.made| == s.grown + |todo| && Whole(s')
    decreases |todo|
  {
    hide Reaches, Init, H.Inv, Calm;
    s' := s;
    if todo != {} {
      var t :| t in todo;
      s' := Grow(s0, s', t);
      s' := Disperse(s0, s', todo - {t});
    }
  }

  lemma {:induction false} WholeSum(s: State, n: nat)
    requires 0 < n <= |s.made| && Whole(s)
    ensures Sum(s.made[..n]) == s.count + (n - 1) * s.step
    decreases n
  {
    assert s.made[..n] == s.made[..n - 1] + [s.made[n - 1]];
    SumSnoc(s.made[..n - 1], s.made[n - 1]);
    if n > 1 {
      WholeSum(s, n - 1);
      assert (n - 1) * s.step == (n - 2) * s.step + s.step;
    }
  }

  /**
   The bound of `ExtensionsAreBounded` is the least one: with one extension left, every thread of the team finds the
   ring empty and passes the test before the first of them counts.  Two threads are enough to pass the limit of 20.
   */
  lemma BoundIsReached(s0: State) returns (s: State)
    requires Init(s0) && s0.team != {}
    requires s0.count < s0.pool.ring.cap && 1 <= s0.step < s0.pool.ring.cap < R.COUNTER
    ensures H.Inv(s0.pool) && Reaches(s0, s)
    ensures |s.made| == s.grown == MemPool.GROW_COUNT_MAX - 1 + |s0.team|
    ensures |s.pool.made| == s0.count + (MemPool.GROW_COUNT_MAX - 2 + |s0.team|) * s0.step
  {
    var t :| t in s0.team;
    s := CreateAndDrain(s0, t);
    hide Reaches, Init, H.Inv;
    s := Climb(s0, s, t);
    s := Gather(s0, s, s0.team);
    s := Disperse(s0, s, s0.team);
    WholeSum(s, |s.made|);
    assert s.made[..|s.made|] == s.made;
  }
}
