/**
 The multi-producer, multi-consumer ring of LockFreeQueue.h as a state machine.

 Every shared load, slot access, compare-and-swap and counter update of `Push`
 and `Pop` is one atomic step of one thread.  The machine runs any number of
 threads over a ring of any capacity of at least two slots, and a schedule may
 interleave the steps in any order.

 The three indices are unbounded here, which is what the code computes as long as
 fewer than 2^32 elements were pushed; wrap-around is the subject of `RingQueue`.
 `tickets`, `owners` and `popped` are history: the element and the thread of every
 reserved index, and the elements taken so far.
 */
module RingProtocol {
  import opened Prelude

  type Tid = nat

  const COUNTER := 0x1_0000_0000

  /** Where a thread is: the constructor names the shared access it does next. */
  datatype Pc<T> =
    | Idle
    | PushLoadWrite(v: T)
    | PushLoadRead(v: T, w: nat)
    | PushReserve(v: T, w: nat)
    | PushStore(v: T, ticket: nat)
    | PushCommit(v: T, ticket: nat)
    | PushAdd
    | PopLoadRead
    | PopLoadMax(r: nat)
    | PopFetch(r: nat)
    | PopAdvance(r: nat, v: T)
    | PopSub
  {
    predicate Owns(k: nat) {
      (PushStore? || PushCommit?) && ticket == k
    }
  }

  datatype State<T> = State(
    cap: nat, slots: seq<T>,
    write: nat, read: nat, maxRead: nat, size: nat,
    pcs: map<Tid, Pc<T>>,
    tickets: seq<T>, owners: seq<Tid>, popped: seq<T>)
  {
    function At(t: Tid): Pc<T> {
      if t in pcs then pcs[t] else Idle
    }

    function Goto(t: Tid, pc: Pc<T>): State<T> {
      this.(pcs := pcs[t := pc])
    }
  }

  datatype Action<T> = Push(v: T) | Pop | Go

  /** An empty ring over whatever the slots held before. */
  predicate Init<T>(s: State<T>) {
    && s.cap >= 2 && |s.slots| == s.cap
    && s.write == 0 && s.read == 0 && s.maxRead == 0 && s.size == 0
    && s.pcs == map[] && s.tickets == [] && s.owners == [] && s.popped == []
  }

  /** One step of thread `t`; an idle thread may start a call, any other goes on with its own. */
  function Step<T>(s: State<T>, t: Tid, a: Action<T>): State<T>
    requires s.cap > 0 && |s.slots| == s.cap
  {
    match s.At(t)
    case Idle =>
      (match a
       case Push(v) => s.Goto(t, PushLoadWrite(v))
       case Pop => s.Goto(t, PopLoadRead)
       case Go => s)
    case PushLoadWrite(v) => s.Goto(t, PushLoadRead(v, s.write))
    case PushLoadRead(v, w) =>
      if (w + 1) % s.cap == s.read % s.cap then s.Goto(t, Idle) else s.Goto(t, PushReserve(v, w))
    case PushReserve(v, w) =>
      if s.write == w then
        s.(write := w + 1, tickets := s.tickets + [v], owners := s.owners + [t]).Goto(t, PushStore(v, w))
      else
        s.Goto(t, PushLoadWrite(v))
    case PushStore(v, k) => s.(slots := s.slots[k % s.cap := v]).Goto(t, PushCommit(v, k))
    case PushCommit(v, k) =>
      if s.maxRead == k then s.(maxRead := k + 1).Goto(t, PushAdd) else s
    case PushAdd => s.(size := (s.size + 1) % COUNTER).Goto(t, Idle)
    case PopLoadRead => s.Goto(t, PopLoadMax(s.read))
    case PopLoadMax(r) =>
      if r % s.cap == s.maxRead % s.cap then s.Goto(t, Idle) else s.Goto(t, PopFetch(r))
    case PopFetch(r) => s.Goto(t, PopAdvance(r, s.slots[r % s.cap]))
    case PopAdvance(r, v) =>
      if s.read == r then s.(read := r + 1, popped := s.popped + [v]).Goto(t, PopSub)
      else s.Goto(t, PopLoadRead)
    case PopSub => s.(size := (s.size + COUNTER - 1) % COUNTER).Goto(t, Idle)
  }

  /** What the ring stores: committed and not yet taken. */
  function Contents<T>(s: State<T>): seq<T>
    requires s.read <= s.maxRead <= |s.tickets|
  {
    s.tickets[s.read..s.maxRead]
  }

  // ----- the invariant -----

  ghost predicate Window<T>(s: State<T>) {
    && s.cap >= 2 && |s.slots| == s.cap
    && s.read <= s.maxRead <= s.write < s.read + s.cap
    && |s.tickets| == |s.owners| == s.write
    && s.popped == s.tickets[..s.read]
  }

  /** Each reserved, uncommitted ticket belongs to exactly the thread that reserved it. */
  ghost predicate Ownership<T>(s: State<T>)
    requires Window(s)
  {
    && (forall k :: s.maxRead <= k < s.write ==> s.At(s.owners[k]).Owns(k))
    && (forall t, k: nat {:trigger s.At(t).Owns(k)} :: s.At(t).Owns(k) ==>
        s.maxRead <= k < s.write && s.owners[k] == t && s.At(t).v == s.tickets[k])
  }

  /** No live slot was overwritten. */
  ghost predicate Stored<T>(s: State<T>)
    requires Window(s)
  {
    && (forall k {:trigger s.tickets[k]} :: s.read <= k < s.maxRead ==> s.slots[k % s.cap] == s.tickets[k])
    && (forall t {:trigger s.At(t)} :: s.At(t).PushCommit? ==> s.slots[s.At(t).ticket % s.cap] == s.At(t).v)
  }

  /** What a thread may still rely on after the shared indices moved under its stale locals. */
  ghost predicate Locals<T>(s: State<T>, pc: Pc<T>)
    requires Window(s)
  {
    match pc
    case PushLoadRead(v, w) => w <= s.write
    case PushReserve(v, w) => w <= s.write && (w == s.write ==> w + 1 < s.read + s.cap)
    case PopLoadMax(r) => r <= s.read
    case PopFetch(r) => r <= s.read && (r == s.read ==> r < s.maxRead)
    case PopAdvance(r, v) => r <= s.read && (r == s.read ==> r < s.maxRead && v == s.tickets[r])
    case _ => true
  }

  ghost predicate Stale<T>(s: State<T>)
    requires Window(s)
  {
    forall t {:trigger s.At(t)} :: Locals(s, s.At(t))
  }

  ghost function Uncounted<T>(s: State<T>): set<Tid> {
    set t | t in s.pcs && s.pcs[t].PushAdd?
  }

  ghost function Undiscounted<T>(s: State<T>): set<Tid> {
    set t | t in s.pcs && s.pcs[t].PopSub?
  }

  ghost function Balance<T>(s: State<T>): int {
    s.maxRead - s.read - |Uncounted(s)| + |Undiscounted(s)|
  }

  /** `m_size` counts the stored elements, up to the updates that are still on their way. */
  ghost predicate Counted<T>(s: State<T>)
    requires Window(s)
  {
    && s.size < COUNTER
    && s.size == Balance(s) % COUNTER
  }

  ghost predicate Inv<T>(s: State<T>) {
    Window(s) && Ownership(s) && Stored(s) && Stale(s) && Counted(s)
  }

  // ----- arithmetic of the ring -----

  lemma NoMultipleWithin(n: int, cap: nat)
    ensures !(0 < n * cap < cap)
  {
    if n >= 1 {
      assert n * cap >= cap;
    }
  }

  /** Two indices less than a lap apart use different slots. */
  lemma SlotsDiffer(a: nat, b: nat, cap: nat)
    requires a < b < a + cap
    ensures a % cap != b % cap
  {
    var p, q := a / cap, b / cap;
    NoMultipleWithin(q - p, cap);
    assert b - a == (q - p) * cap + (b % cap - a % cap);
  }

  /** An index and the one a lap later use the same slot. */
  lemma FullLap(a: nat, cap: nat)
    requires cap > 0
    ensures (a + cap) % cap == a % cap
  {
    var p, q := (a + cap) / cap, a / cap + 1;
    NoMultipleWithin(q - p, cap);
    NoMultipleWithin(p - q, cap);
    assert (a + cap) % cap - a % cap == (q - p) * cap;
    assert a % cap - (a + cap) % cap == (p - q) * cap;
  }

  // ----- every step keeps the invariant -----

  lemma StepKeepsWindow<T>(s: State<T>, t: Tid, a: Action<T>)
    requires Window(s) && Ownership(s) && Stale(s)
    ensures Window(Step(s, t, a))
  {
    assert Locals(s, s.At(t));
    match s.At(t)
    case PushCommit(v, k) => assert s.At(t).Owns(k);
    case _ =>
  }

  lemma OwnerStays<T>(s: State<T>, t: Tid, a: Action<T>, k: nat)
    requires Window(s) && Ownership(s) && Window(Step(s, t, a))
    requires Step(s, t, a).maxRead <= k < Step(s, t, a).write
    ensures Step(s, t, a).At(Step(s, t, a).owners[k]).Owns(k)
  {
    if k < s.write {
      var o := s.owners[k];
      assert s.At(o).Owns(k) && Step(s, t, a).owners[k] == o;
      if o != t {
        assert Step(s, t, a).At(o) == s.At(o);
      }
    }
  }

  lemma OthersOwn<T>(s: State<T>, t: Tid, a: Action<T>, u: Tid, k: nat)
    requires Window(s) && Ownership(s) && Window(Step(s, t, a)) && u != t && s.At(u).Owns(k)
    ensures Step(s, t, a).maxRead <= k < Step(s, t, a).write
    ensures Step(s, t, a).owners[k] == u && Step(s, t, a).tickets[k] == s.At(u).v
  {
    match s.At(t)
    case PushCommit(v, j) => assert s.At(t).Owns(j);
    case _ =>
  }

  lemma StepperOwns<T>(s: State<T>, t: Tid, a: Action<T>, k: nat)
    requires Window(s) && Ownership(s) && Window(Step(s, t, a)) && Step(s, t, a).At(t).Owns(k)
    ensures Step(s, t, a).maxRead <= k < Step(s, t, a).write
    ensures Step(s, t, a).owners[k] == t && Step(s, t, a).tickets[k] == Step(s, t, a).At(t).v
  {
    if !s.At(t).PushReserve? {
      assert s.At(t).Owns(k);
    }
  }

  lemma StepKeepsOwnership<T>(s: State<T>, t: Tid, a: Action<T>)
    requires Window(s) && Ownership(s) && Window(Step(s, t, a))
    ensures Ownership(Step(s, t, a))
  {
    var s' := Step(s, t, a);
    forall k | s'.maxRead <= k < s'.write ensures s'.At(s'.owners[k]).Owns(k) {
      OwnerStays(s, t, a, k);
    }
    forall u, k: nat {:trigger s'.At(u).Owns(k)} | s'.At(u).Owns(k)
      ensures s'.maxRead <= k < s'.write && s'.owners[k] == u && s'.At(u).v == s'.tickets[k]
    {
      if u == t {
        StepperOwns(s, t, a, k);
      } else {
        assert s'.At(u) == s.At(u);
        OthersOwn(s, t, a, u, k);
      }
    }
  }

  lemma LiveSlotStays<T>(s: State<T>, t: Tid, a: Action<T>, k: nat)
    requires Window(s) && Ownership(s) && Stored(s) && Window(Step(s, t, a))
    requires Step(s, t, a).read <= k < Step(s, t, a).maxRead
    ensures Step(s, t, a).slots[k % s.cap] == Step(s, t, a).tickets[k]
  {
    match s.At(t)
    case PushStore(v, j) =>
      assert s.At(t).Owns(j);
      SlotsDiffer(k, j, s.cap);
      assert s.slots[k % s.cap] == s.tickets[k];
    case PushCommit(v, j) =>
      assert s.At(t).Owns(j);
      assert k != j ==> s.slots[k % s.cap] == s.tickets[k];
    case _ =>
      assert s.slots[k % s.cap] == s.tickets[k];
  }

  lemma WrittenSlotStays<T>(s: State<T>, t: Tid, a: Action<T>, u: Tid)
    requires Window(s) && Ownership(s) && Stored(s) && Window(Step(s, t, a)) && Step(s, t, a).At(u).PushCommit?
    ensures Step(s, t, a).slots[Step(s, t, a).At(u).ticket % s.cap] == Step(s, t, a).At(u).v
  {
    if u != t {
      assert s.At(u).PushCommit? && s.At(u) == Step(s, t, a).At(u);
      if s.At(t).PushStore? {
        var j, k := s.At(t).ticket, s.At(u).ticket;
        assert s.At(t).Owns(j) && s.At(u).Owns(k);
        SlotsDiffer(if j < k then j else k, if j < k then k else j, s.cap);
      }
    }
  }

  lemma StepKeepsStored<T>(s: State<T>, t: Tid, a: Action<T>)
    requires Window(s) && Ownership(s) && Stored(s) && Window(Step(s, t, a))
    ensures Stored(Step(s, t, a))
  {
    var s' := Step(s, t, a);
    forall k {:trigger s'.tickets[k]} | s'.read <= k < s'.maxRead ensures s'.slots[k % s'.cap] == s'.tickets[k] {
      LiveSlotStays(s, t, a, k);
    }
    forall u {:trigger s'.At(u)} | s'.At(u).PushCommit? ensures s'.slots[s'.At(u).ticket % s'.cap] == s'.At(u).v {
      WrittenSlotStays(s, t, a, u);
    }
  }

  /** A reserving thread that saw the ring not full leaves one slot free, if its index is still current. */
  lemma FullTest<T>(s: State<T>, w: nat)
    requires Window(s) && w == s.write
    ensures (w + 1) % s.cap == s.read % s.cap <==> w + 1 == s.read + s.cap
  {
    if w + 1 < s.read + s.cap {
      SlotsDiffer(s.read, w + 1, s.cap);
    } else {
      FullLap(s.read, s.cap);
    }
  }

  /** The index test of `Pop` is exact for the current read index. */
  lemma EmptyTest<T>(s: State<T>, r: nat)
    requires Window(s) && r == s.read
    ensures r % s.cap == s.maxRead % s.cap <==> r == s.maxRead
  {
    if r < s.maxRead {
      SlotsDiffer(r, s.maxRead, s.cap);
    }
  }

  lemma StepperLocals<T>(s: State<T>, t: Tid, a: Action<T>)
    requires Window(s) && Stored(s) && Stale(s) && Window(Step(s, t, a))
    ensures Locals(Step(s, t, a), Step(s, t, a).At(t))
  {
    assert Locals(s, s.At(t));
    match s.At(t)
    case PushLoadRead(v, w) => if w == s.write { FullTest(s, w); }
    case PopLoadMax(r) => if r == s.read { EmptyTest(s, r); }
    case PopFetch(r) => if r == s.read { assert s.slots[r % s.cap] == s.tickets[r]; }
    case _ =>
  }

  lemma OtherLocals<T>(s: State<T>, t: Tid, a: Action<T>, u: Tid)
    requires Window(s) && Stale(s) && Window(Step(s, t, a)) && u != t
    ensures Locals(Step(s, t, a), Step(s, t, a).At(u))
  {
    var s' := Step(s, t, a);
    assert s'.At(u) == s.At(u) && Locals(s, s.At(u));
    assert s.read <= s'.read && s.write <= s'.write && s.maxRead <= s'.maxRead && s.tickets <= s'.tickets;
  }

  lemma StepKeepsStale<T>(s: State<T>, t: Tid, a: Action<T>)
    requires Window(s) && Stored(s) && Stale(s) && Window(Step(s, t, a))
    ensures Stale(Step(s, t, a))
  {
    var s' := Step(s, t, a);
    forall u {:trigger s'.At(u)} ensures Locals(s', s'.At(u)) {
      if u == t {
        StepperLocals(s, t, a);
      } else {
        OtherLocals(s, t, a, u);
      }
    }
  }

  /** The two waiting sets change only by the stepping thread. */
  lemma WaitingSets<T>(s: State<T>, t: Tid, a: Action<T>)
    requires Window(s)
    ensures Uncounted(Step(s, t, a)) - {t} == Uncounted(s) - {t}
    ensures Undiscounted(Step(s, t, a)) - {t} == Undiscounted(s) - {t}
    ensures t in Uncounted(s) <==> s.At(t).PushAdd?
    ensures t in Undiscounted(s) <==> s.At(t).PopSub?
    ensures t in Uncounted(Step(s, t, a)) <==> Step(s, t, a).At(t).PushAdd?
    ensures t in Undiscounted(Step(s, t, a)) <==> Step(s, t, a).At(t).PopSub?
  {
  }

  lemma Without(x: set<Tid>, t: Tid)
    ensures |x - {t}| == |x| - if t in x then 1 else 0
  {
    if t in x {
      assert x == (x - {t}) + {t};
    } else {
      assert x == x - {t};
    }
  }

  /** How far the two waiting sets move in one step. */
  lemma WaitingChange<T>(s: State<T>, t: Tid, a: Action<T>)
    requires Window(s)
    ensures |Uncounted(Step(s, t, a))| - |Uncounted(s)|
         == (if Step(s, t, a).At(t).PushAdd? then 1 else 0) - (if s.At(t).PushAdd? then 1 else 0)
    ensures |Undiscounted(Step(s, t, a))| - |Undiscounted(s)|
         == (if Step(s, t, a).At(t).PopSub? then 1 else 0) - (if s.At(t).PopSub? then 1 else 0)
  {
    var s' := Step(s, t, a);
    WaitingSets(s, t, a);
    Without(Uncounted(s), t);
    Without(Uncounted(s'), t);
    Without(Undiscounted(s), t);
    Without(Undiscounted(s'), t);
  }

  lemma WrapAdd(n: int)
    ensures (n % COUNTER + 1) % COUNTER == (n + 1) % COUNTER
  {
  }

  lemma WrapSub(n: int)
    ensures (n % COUNTER + COUNTER - 1) % COUNTER == (n - 1) % COUNTER
  {
  }

  /** The committed balance moves only with the counter, by the same amount. */
  lemma BalanceChange<T>(s: State<T>, t: Tid, a: Action<T>)
    requires Window(s)
    ensures Balance(Step(s, t, a)) - Balance(s) == if s.At(t).PushAdd? then 1 else if s.At(t).PopSub? then -1 else 0
  {
    WaitingChange(s, t, a);
  }

  lemma StepKeepsCounted<T>(s: State<T>, t: Tid, a: Action<T>)
    requires Window(s) && Counted(s) && Window(Step(s, t, a))
    ensures Counted(Step(s, t, a))
  {
    BalanceChange(s, t, a);
    WrapAdd(Balance(s));
    WrapSub(Balance(s));
  }

  lemma StepKeepsInv<T>(s: State<T>, t: Tid, a: Action<T>)
    requires Inv(s)
    ensures Inv(Step(s, t, a))
  {
    StepKeepsWindow(s, t, a);
    StepKeepsOwnership(s, t, a);
    StepKeepsStored(s, t, a);
    StepKeepsStale(s, t, a);
    StepKeepsCounted(s, t, a);
  }

  // ----- runs -----

  datatype Turn<T> = Turn(t: Tid, a: Action<T>)

  function Exec<T>(s: State<T>, turns: seq<Turn<T>>): State<T>
    requires s.cap > 0 && |s.slots| == s.cap
    decreases turns
  {
    if turns == [] then s else Exec(Step(s, turns[0].t, turns[0].a), turns[1..])
  }

  /** Every state that any schedule of any number of threads reaches satisfies the invariant. */
  lemma {:induction false} RunKeepsInv<T>(s: State<T>, turns: seq<Turn<T>>)
    requires Inv(s)
    ensures Inv(Exec(s, turns))
    decreases turns
  {
    if turns != [] {
      StepKeepsInv(s, turns[0].t, turns[0].a);
      RunKeepsInv(Step(s, turns[0].t, turns[0].a), turns[1..]);
    }
  }

  lemma InitHolds<T>(s: State<T>)
    requires Init(s)
    ensures Inv(s)
  {
    assert Uncounted(s) == {} && Undiscounted(s) == {};
  }

  // ----- refinement of an atomic queue -----

  datatype Op<T> = Put(v: T) | Take(v: T)

  /** The operation of the atomic queue that a step performs: the commit CAS and the read CAS, nothing else. */
  function Effect<T>(s: State<T>, t: Tid): seq<Op<T>> {
    match s.At(t)
    case PushCommit(v, k) => if s.maxRead == k then [Put(v)] else []
    case PopAdvance(r, v) => if s.read == r then [Take(v)] else []
    case _ => []
  }

  function Effects<T>(s: State<T>, turns: seq<Turn<T>>): seq<Op<T>>
    requires s.cap > 0 && |s.slots| == s.cap
    decreases turns
  {
    if turns == [] then []
    else Effect(s, turns[0].t) + Effects(Step(s, turns[0].t, turns[0].a), turns[1..])
  }

  /** An atomic FIFO queue: it refuses a `Take` of anything but its oldest element. */
  function Replay<T(==)>(q: seq<T>, ops: seq<Op<T>>): Option<seq<T>>
    decreases ops
  {
    if ops == [] then Some(q)
    else match ops[0]
      case Put(v) => Replay(q + [v], ops[1..])
      case Take(v) => if q != [] && q[0] == v then Replay(q[1..], ops[1..]) else None
  }

  lemma CommitAppends<T>(s: State<T>, t: Tid, a: Action<T>)
    requires Window(s) && Ownership(s) && Window(Step(s, t, a)) && s.At(t).PushCommit? && s.maxRead == s.At(t).ticket
    ensures Contents(Step(s, t, a)) == Contents(s) + [s.At(t).v]
  {
    assert s.At(t).Owns(s.At(t).ticket);
  }

  lemma AdvanceTakes<T>(s: State<T>, t: Tid, a: Action<T>)
    requires Window(s) && Locals(s, s.At(t)) && Window(Step(s, t, a)) && s.At(t).PopAdvance? && s.read == s.At(t).r
    ensures Contents(s) == [s.At(t).v] + Contents(Step(s, t, a))
  {
  }

  lemma OthersLeave<T>(s: State<T>, t: Tid, a: Action<T>)
    requires Window(s) && Window(Step(s, t, a)) && Effect(s, t) == []
    ensures Contents(Step(s, t, a)) == Contents(s)
  {
    var s' := Step(s, t, a);
    assert s'.read == s.read && s'.maxRead == s.maxRead && s.tickets <= s'.tickets;
  }

  /** What a step does to the stored elements. */
  lemma StepContents<T>(s: State<T>, t: Tid, a: Action<T>)
    requires Inv(s) && Window(Step(s, t, a))
    ensures Effect(s, t) == [] ==> Contents(Step(s, t, a)) == Contents(s)
    ensures forall v :: Effect(s, t) == [Put(v)] ==> Contents(Step(s, t, a)) == Contents(s) + [v]
    ensures forall v :: Effect(s, t) == [Take(v)] ==> Contents(s) == [v] + Contents(Step(s, t, a))
  {
    assert Locals(s, s.At(t));
    hide Step, Ownership, Stored, Stale, Counted, Locals;
    if Effect(s, t) == [] {
      OthersLeave(s, t, a);
    } else if s.At(t).PushCommit? {
      CommitAppends(s, t, a);
    } else {
      AdvanceTakes(s, t, a);
    }
  }

  /** Each step leaves the stored elements alone, appends one at the tail, or takes the head. */
  lemma StepRefines<T>(s: State<T>, t: Tid, a: Action<T>)
    requires Inv(s) && Window(Step(s, t, a))
    ensures Replay(Contents(s), Effect(s, t)) == Some(Contents(Step(s, t, a)))
  {
    StepContents(s, t, a);
    if Effect(s, t) != [] && Effect(s, t)[0].Take? {
      assert Contents(s)[1..] == Contents(Step(s, t, a));
    }
  }

  lemma {:induction false} ReplayAppend<T>(q: seq<T>, x: seq<Op<T>>, y: seq<Op<T>>, mid: seq<T>)
    requires Replay(q, x) == Some(mid)
    ensures Replay(q, x + y) == Replay(mid, y)
    decreases x
  {
    if x == [] {
      assert x + y == y;
    } else {
      assert (x + y)[0] == x[0] && (x + y)[1..] == x[1..] + y;
      match x[0]
      case Put(v) => ReplayAppend(q + [v], x[1..], y, mid);
      case Take(v) => ReplayAppend(q[1..], x[1..], y, mid);
    }
  }

  /** Every concurrent run behaves like the atomic queue performing the effects in the order they took place. */
  lemma {:induction false} RunRefines<T>(s: State<T>, turns: seq<Turn<T>>)
    requires Inv(s)
    ensures Inv(Exec(s, turns))
    ensures Replay(Contents(s), Effects(s, turns)) == Some(Contents(Exec(s, turns)))
    decreases turns
  {
    if turns != [] {
      var s' := Step(s, turns[0].t, turns[0].a);
      StepKeepsInv(s, turns[0].t, turns[0].a);
      StepRefines(s, turns[0].t, turns[0].a);
      RunRefines(s', turns[1..]);
      ReplayAppend(Contents(s), Effect(s, turns[0].t), Effects(s', turns[1..]), Contents(s'));
    }
  }

  function Puts<T>(ops: seq<Op<T>>): seq<T> {
    if ops == [] then [] else (if ops[0].Put? then [ops[0].v] else []) + Puts(ops[1..])
  }

  function Takes<T>(ops: seq<Op<T>>): seq<T> {
    if ops == [] then [] else (if ops[0].Take? then [ops[0].v] else []) + Takes(ops[1..])
  }

  lemma TakeFirst<T>(q: seq<T>, v: T, puts: seq<T>, takes: seq<T>, end: seq<T>)
    requires q != [] && q[0] == v && q[1..] + puts == takes + end
    ensures q + puts == ([v] + takes) + end
  {
    assert q + puts == [v] + (q[1..] + puts);
  }

  lemma {:induction false} ReplayConserves<T>(q: seq<T>, ops: seq<Op<T>>)
    requires Replay(q, ops).Some?
    ensures q + Puts(ops) == Takes(ops) + Replay(q, ops).value
    decreases ops
  {
    if ops != [] {
      match ops[0]
      case Put(v) =>
        ReplayConserves(q + [v], ops[1..]);
        assert q + ([v] + Puts(ops[1..])) == (q + [v]) + Puts(ops[1..]);
        assert [] + Takes(ops[1..]) == Takes(ops[1..]);
      case Take(v) =>
        ReplayConserves(q[1..], ops[1..]);
        TakeFirst(q, v, Puts(ops[1..]), Takes(ops[1..]), Replay(q, ops).value);
        assert [] + Puts(ops[1..]) == Puts(ops[1..]);
    }
  }

  /**
   Nothing is lost, duplicated or reordered: from an empty ring, the elements taken, in the order of
   their read CAS, followed by the elements still stored are exactly the elements committed.
   */
  lemma NothingLost<T>(s: State<T>, turns: seq<Turn<T>>)
    requires Init(s)
    ensures Window(Exec(s, turns))
    ensures Takes(Effects(s, turns)) + Contents(Exec(s, turns)) == Puts(Effects(s, turns))
  {
    InitHolds(s);
    RunRefines(s, turns);
    ReplayConserves([], Effects(s, turns));
    assert [] + Puts(Effects(s, turns)) == Puts(Effects(s, turns));
  }

  // ----- the size counter, progress and refusals -----

  /** With no thread between its CAS and its counter update, `m_size` is exact. */
  lemma SizeWhenQuiet<T>(s: State<T>)
    requires Inv(s) && s.cap < COUNTER
    requires forall t {:trigger s.At(t)} :: !s.At(t).PushAdd? && !s.At(t).PopSub?
    ensures s.size == |Contents(s)|
  {
    forall t | t in s.pcs ensures s.pcs[t] == s.At(t) {}
    assert Uncounted(s) == {} && Undiscounted(s) == {};
  }

  /** The commit loop cannot hang: the owner of the oldest uncommitted ticket commits within two of its own steps. */
  lemma CommitProceeds<T>(s: State<T>)
    requires Inv(s) && s.maxRead < s.write
    ensures var o := s.owners[s.maxRead];
            && s.At(o).Owns(s.maxRead)
            && (forall t {:trigger s.At(t)} :: s.At(t).Owns(s.maxRead) ==> t == o)
            && (s.At(o).PushCommit? ==> Step(s, o, Go).maxRead == s.maxRead + 1)
            && (s.At(o).PushStore? ==> Step(Step(s, o, Go), o, Go).maxRead == s.maxRead + 1)
  {
    var o := s.owners[s.maxRead];
    assert s.At(o).Owns(s.maxRead);
    forall t {:trigger s.At(t)} | s.At(t).Owns(s.maxRead) ensures t == o {
      assert s.owners[s.maxRead] == t;
    }
  }

  /**
   When `Push` answers false, all capacity was taken at its second load exactly if the write index had not
   moved to another slot since the first load; a stale first index can make the answer spurious.
   */
  lemma PushRefusal<T>(s: State<T>, t: Tid, v: T, w: nat)
    requires Inv(s) && s.At(t) == PushLoadRead(v, w) && Step(s, t, Go).At(t).Idle?
    ensures s.write == s.read + s.cap - 1 <==> s.write % s.cap == w % s.cap
    ensures s.write == w || w < s.write
  {
    assert Locals(s, s.At(t));
    hide Ownership, Stored, Stale, Counted;
    assert (w + 1) % s.cap == s.read % s.cap;
    FullTest(s, s.write);
    SameSlotSucc(s.write, w, s.cap);
  }

  /** When `Pop` answers false, nothing committed was waiting exactly if the read index still names the loaded slot. */
  lemma PopRefusal<T>(s: State<T>, t: Tid, r: nat)
    requires Inv(s) && s.At(t) == PopLoadMax(r) && Step(s, t, Go).At(t).Idle?
    ensures Contents(s) == [] <==> s.read % s.cap == r % s.cap
    ensures s.read == r || r < s.read
  {
    assert Locals(s, s.At(t));
    EmptyTest(s, s.read);
  }

  /** Equal successors modulo the capacity come from equal slots. */
  lemma SameSlotSucc(x: nat, y: nat, cap: nat)
    requires cap >= 2
    ensures (x + 1) % cap == (y + 1) % cap <==> x % cap == y % cap
  {
    NextSlot(x, cap);
    NextSlot(y, cap);
  }

  lemma NextSlot(x: nat, cap: nat)
    requires cap >= 2
    ensures (x + 1) % cap == if x % cap == cap - 1 then 0 else x % cap + 1
  {
    var p, q, e := (x + 1) / cap, x / cap, if x % cap == cap - 1 then 0 else x % cap + 1;
    var n := if x % cap == cap - 1 then q + 1 else q;
    assert x + 1 == n * cap + e == p * cap + (x + 1) % cap;
    NoMultipleWithin(n - p, cap);
    NoMultipleWithin(p - n, cap);
    assert (x + 1) % cap - e == (n - p) * cap && e - (x + 1) % cap == (p - n) * cap;
  }

  /** A CAS that fails was overtaken by the same CAS of another thread, so some thread always gets ahead. */
  lemma FailedCasMeansProgress<T>(s: State<T>, t: Tid)
    requires Inv(s)
    ensures s.At(t).PushReserve? && Step(s, t, Go).At(t).PushLoadWrite? ==> s.At(t).w < s.write
    ensures s.At(t).PopAdvance? && Step(s, t, Go).At(t).PopLoadRead? ==> s.At(t).r < s.read
  {
    assert Locals(s, s.At(t));
  }

  // ----- a refusal can be spurious -----

  ghost predicate Reaches<T(!new)>(s0: State<T>, s: State<T>)
    requires s0.cap > 0 && |s0.slots| == s0.cap
  {
    exists turns :: Exec(s0, turns) == s
  }

  lemma {:induction false} ExecSnoc<T>(s: State<T>, turns: seq<Turn<T>>, last: Turn<T>)
    requires Inv(s)
    ensures Inv(Exec(s, turns))
    ensures Exec(s, turns + [last]) == Step(Exec(s, turns), last.t, last.a)
    decreases turns
  {
    if turns == [] {
      assert turns + [last] == [last];
      assert Exec(Step(s, last.t, last.a), []) == Step(s, last.t, last.a);
    } else {
      assert (turns + [last])[1..] == turns[1..] + [last];
      StepKeepsInv(s, turns[0].t, turns[0].a);
      ExecSnoc(Step(s, turns[0].t, turns[0].a), turns[1..], last);
    }
  }

  lemma Onward<T(!new)>(s0: State<T>, s: State<T>, t: Tid, a: Action<T>) returns (s': State<T>)
    requires Init(s0) && Reaches(s0, s)
    ensures Window(s) && Window(s') && s' == Step(s, t, a) && Reaches(s0, s')
  {
    InitHolds(s0);
    var turns :| Exec(s0, turns) == s;
    ExecSnoc(s0, turns, Turn(t, a));
    s' := Step(s, t, a);
    StepKeepsInv(s, t, a);
  }

  /** Thread 1 reserves the next slot undisturbed. */
  lemma ReserveOne<T(!new)>(s0: State<T>, s: State<T>, v: T) returns (s': State<T>)
    requires Init(s0) && Reaches(s0, s) && s.At(1).Idle?
    requires s.read == s.maxRead == s.write
    ensures Window(s) && Reaches(s0, s') && Window(s')
    ensures s'.cap == s.cap && s'.read == s'.maxRead == s.write && s'.write == s.write + 1
    ensures s'.pcs == s.pcs[1 := PushStore(v, s.write)]
  {
    s' := Onward(s0, s, 1, Push(v));
    s' := Onward(s0, s', 1, Go);
    FullTest(s', s'.write);
    s' := Onward(s0, s', 1, Go);
    s' := Onward(s0, s', 1, Go);
  }

  /** Thread 1 stores `v` undisturbed. */
  lemma StoreOne<T(!new)>(s0: State<T>, s: State<T>, v: T) returns (s': State<T>)
    requires Init(s0) && Reaches(s0, s) && s.At(1).Idle?
    requires s.read == s.maxRead == s.write
    ensures Window(s) && Reaches(s0, s')
    ensures s'.cap == s.cap && s'.read == s.read && s'.maxRead == s'.write == s.write + 1
    ensures s'.pcs == s.pcs[1 := Idle]
  {
    s' := ReserveOne(s0, s, v);
    s' := Onward(s0, s', 1, Go);
    s' := Onward(s0, s', 1, Go);
    s' := Onward(s0, s', 1, Go);
  }

  /** Thread 1 sees the only element undisturbed. */
  lemma FindOne<T(!new)>(s0: State<T>, s: State<T>) returns (s': State<T>)
    requires Init(s0) && Reaches(s0, s) && s.At(1).Idle?
    requires s.read + 1 == s.maxRead == s.write
    ensures Window(s) && Reaches(s0, s') && s' == s.Goto(1, PopFetch(s.read))
  {
    s' := Onward(s0, s, 1, Pop);
    s' := Onward(s0, s', 1, Go);
    EmptyTest(s', s'.read);
    s' := Onward(s0, s', 1, Go);
    assert s'.pcs == s.pcs[1 := PopFetch(s.read)];
  }

  /** Thread 1 takes the only element undisturbed. */
  lemma TakeOne<T(!new)>(s0: State<T>, s: State<T>) returns (s': State<T>)
    requires Init(s0) && Reaches(s0, s) && s.At(1).Idle?
    requires s.read + 1 == s.maxRead == s.write
    ensures Window(s) && Reaches(s0, s')
    ensures s'.cap == s.cap && s'.write == s'.maxRead == s'.read == s.write
    ensures s'.pcs == s.pcs[1 := Idle]
  {
    s' := FindOne(s0, s);
    s' := Onward(s0, s', 1, Go);
    s' := Onward(s0, s', 1, Go);
    s' := Onward(s0, s', 1, Go);
  }

  /** Thread 1 stores and takes an element, `n` times over. */
  lemma {:induction false} Cycle<T(!new)>(s0: State<T>, s: State<T>, v: T, n: nat) returns (s': State<T>)
    requires Init(s0) && Reaches(s0, s) && s.At(1).Idle?
    requires s.read == s.maxRead == s.write
    ensures Reaches(s0, s') && s'.cap == s.cap
    ensures s'.read == s'.maxRead == s'.write == s.write + n
    ensures s'.At(0) == s.At(0) && s'.At(1).Idle?
    decreases n
  {
    s' := s;
    if n > 0 {
      hide Reaches, Init, Exec, Step, Window;
      s' := StoreOne(s0, s, v);
      s' := TakeOne(s0, s');
      s' := Cycle(s0, s', v, n - 1);
    }
  }

  /**
   `Push` can answer false on an empty ring, whatever its capacity: thread 0 loads the write index, thread 1 stores
   and takes an element, and the stale index then looks full.
   */
  lemma SpuriousPushRefusal<T(!new)>(s0: State<T>, v: T) returns (s: State<T>)
    requires Init(s0)
    ensures Reaches(s0, s) && Window(s) && Contents(s) == [] && s.write == s.read
    ensures s.At(0).PushLoadRead? && Step(s, 0, Go).At(0).Idle?
  {
    assert Exec(s0, []) == s0;
    s := Onward(s0, s0, 0, Push(v));
    s := Onward(s0, s, 0, Go);
    s := StoreOne(s0, s, v);
    s := TakeOne(s0, s);
    var next := Onward(s0, s, 0, Go);
  }

  /**
   `Pop` can answer false with an element stored, whatever the capacity: a lap later the commit index coincides with
   the stale read index.
   */
  lemma SpuriousPopRefusal<T(!new)>(s0: State<T>, v: T) returns (s: State<T>)
    requires Init(s0)
    ensures Reaches(s0, s) && Window(s) && |Contents(s)| == 1
    ensures s.At(0).PopLoadMax? && Step(s, 0, Go).At(0).Idle?
  {
    assert Exec(s0, []) == s0;
    s := Onward(s0, s0, 0, Pop);
    s := Onward(s0, s, 0, Go);
    s := Cycle(s0, s, v, s0.cap - 1);
    s := StoreOne(s0, s, v);
    FullLap(0, s.cap);
    var next := Onward(s0, s, 0, Go);
  }
}
