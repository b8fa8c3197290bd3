/**
 The receiving half of one connection as a machine of its own, and the proof that every step of the relay
 is one of its moves.  What the moves keep therefore holds in every run, under any interleaving.
 */
module RelayConnection {
  import opened Prelude
  import opened FrameParser
  import opened Sessions
  import opened Relay
  import opened RelayInbound

  function Of(tasks: seq<Task>, k: int): seq<Task> {
    if tasks == [] then []
    else if Last(tasks).sock == k then Of(Front(tasks), k) + [Last(tasks)]
    else Of(Front(tasks), k)
  }

  function Frames(tasks: seq<Task>): (fs: seq<seq<byte>>)
    requires forall t :: t in tasks ==> t.len <= |t.memory|
    ensures |fs| == |tasks|
  {
    seq(|tasks|, i requires 0 <= i < |tasks| => tasks[i].memory[..tasks[i].len])
  }

  /** How far the first unfinished task is: not begun, a login between its two stores, or its command stored in full. */
  datatype Phase = Unbegun | Torn | Begun

  /** `parsing` is the parse in progress: frames found and not saved yet, and the number saved but not counted. */
  datatype Conn = Conn(
    log: Log, client: Option<Client>, carry: seq<byte>, flag: Option<bool>,
    parsing: Option<(seq<seq<byte>>, nat)>,
    unfinished: seq<Task>, phase: Phase)

  function Lookup<T>(m: map<int, T>, k: int): Option<T> {
    if k in m then Some(m[k]) else None
  }

  function CarryOf(s: State, k: int): seq<byte> {
    if k in s.carry then s.carry[k] else []
  }

  function View(s: State, k: int): Conn
    requires Staffed(s) && k >= 0 && k in s.logs
  {
    Conn(s.logs[k], Lookup(s.clients, k), CarryOf(s, k), Lookup(s.flags, k),
         ParsingOf(s.receivers[s.Home(k)], k),
         Of(s.workers[s.Home(k)].Unfinished(), k),
         PhaseOf(s.workers[s.Home(k)].work, k))
  }

  function ParsingOf(r: Receiver, k: int): Option<(seq<seq<byte>>, nat)> {
    if r.Parsing? && r.sock == k then Some((r.found, r.saved)) else None
  }

  function PhaseOf(work: Work, k: int): Phase {
    if work.Idle? || work.Running? || work.task.sock != k then Unbegun
    else if work.Storing? then Torn
    else Begun
  }

  datatype Move =
    | Stay
    | Admitted
    | Heard(chunk: seq<byte>)
    | Saved(task: Task)
    | Dropped
    | CountedUp
    | Obeyed
    | Stored
    | Completed
    | Left
    | Detached

  /** When a move can take place. */
  predicate Can(c: Conn, m: Move) {
    match m
    case Admitted => !c.log.admitted
    case Heard(_) => c.client.Some? && c.parsing.None?
    case Saved(task) => c.parsing.Some? && c.parsing.value.0 != [] && task.Valid()
                        && task.memory[..task.len] == c.parsing.value.0[0]
    case Dropped => c.parsing.Some? && c.parsing.value.0 != []
    case CountedUp => c.parsing.Some? && c.parsing.value.0 == []
    case Obeyed => c.phase.Unbegun? && c.unfinished != [] && c.unfinished[0].Valid()
    case Stored => c.phase.Torn? && c.unfinished != [] && c.unfinished[0].Valid()
    case Completed => c.phase.Begun? && c.unfinished != []
    case Left => !c.phase.Torn?
    case _ => true
  }

  function WithClient(c: Conn, client: Client): Conn {
    c.(client := Some(client), flag := if c.flag.Some? then Some(client.reading) else None)
  }

  function Apply(c: Conn, m: Move): Conn
    requires Can(c, m)
  {
    match m
    case Stay => c
    case Admitted => c.(log := c.log.(admitted := true), client := Some(NEWCOMER), carry := [])
    case Heard(chunk) =>
      var p := Parse(c.carry + chunk);
      c.(log := c.log.(received := c.log.received + chunk), carry := p.rest, parsing := Some((p.frames, 0)))
    case Saved(task) =>
      var (found, saved) := c.parsing.value;
      c.(log := c.log.(found := c.log.found + [found[0]], saved := c.log.saved + [task]),
         parsing := Some((found[1..], saved + 1)), unfinished := c.unfinished + [task])
    case Dropped =>
      var (found, saved) := c.parsing.value;
      c.(log := c.log.(found := c.log.found + [found[0]]), parsing := Some((found[1..], saved)))
    case CountedUp =>
      var c' := c.(parsing := None);
      if c.client.Some? then WithClient(c', Increase(c.client.value, c.parsing.value.1)) else c'
    case Obeyed =>
      var task := c.unfinished[0];
      var cmd, executed := Decode(task.memory), c.log.executed + [task];
      if c.client.Some? && cmd.Login? then
        c.(log := c.log.(executed := executed, stored := c.log.executed), phase := Torn,
           client := Some(FirstStored(c.client.value, cmd)))
      else
        var c' := c.(log := c.log.(executed := executed, stored := executed), phase := Begun);
        if c.client.None? then c'
        else if cmd.BadLogin? then c'.(client := None, carry := [])
        else c'.(client := Some(Settle(c.client.value, cmd)))
    case Stored =>
      var c' := c.(log := c.log.(stored := c.log.executed), phase := Begun);
      if c.client.None? then c' else c'.(client := Some(SecondStored(c.client.value, Decode(c.unfinished[0].memory))))
    case Completed =>
      var c' := c.(log := c.log.(done := c.log.done + [c.unfinished[0]]), unfinished := c.unfinished[1..],
                   phase := Unbegun);
      if c.client.Some? then WithClient(c', Decrease(c.client.value)) else c'
    case Left => c.(client := None, carry := [])
    case Detached => c.(flag := None)
  }

  // ----- the invariant of a connection -----

  ghost predicate TasksValid(tasks: seq<Task>) {
    forall t :: t in tasks ==> t.Valid()
  }

  /** The frames found, and those still to be saved, are what the parser makes of all bytes received. */
  ghost predicate Parses(c: Conn) {
    && c.log.found + (if c.parsing.Some? then c.parsing.value.0 else []) == Parse(c.log.received).frames
    && (c.client.Some? ==> c.carry == Parse(c.log.received).rest)
  }

  /** Saved tasks are executed and completed in the order they were saved, and come from the frames found, in order. */
  ghost predicate InOrder(c: Conn) {
    && c.log.saved == c.log.done + c.unfinished
    && TasksValid(c.log.saved) && Subseq(Frames(c.log.saved), c.log.found)
    && (!c.phase.Unbegun? ==> c.unfinished != [])
    && c.log.executed == c.log.done + (if c.phase.Unbegun? then [] else [c.unfinished[0]])
  }

  /** All executed commands are stored in full, but for a login between its two stores. */
  ghost predicate InStore(c: Conn) {
    if c.phase.Torn? then
      && c.log.executed != [] && c.log.stored == Front(c.log.executed)
      && Last(c.log.executed).Valid() && Decode(Last(c.log.executed).memory).Login?
    else c.log.stored == c.log.executed
  }

  /** The frame count is the work still to do, less what is saved but not yet counted. */
  ghost predicate FlowControlled(c: Conn) {
    c.client.Some? ==>
      && c.client.value.frameCount + (if c.parsing.Some? then c.parsing.value.1 else 0) == |c.unfinished|
      && Throttled(c.client.value)
      && (c.flag.Some? ==> c.flag.value == c.client.value.reading)
  }

  function Settled(c: Client, tasks: seq<Task>): Client
    requires forall t :: t in tasks ==> t.Valid()
  {
    if tasks == [] then c
    else
      assert Last(tasks) in tasks && Last(tasks).Valid();
      Settle(Settled(c, Front(tasks)), Decode(Last(tasks).memory))
  }

  /**
   A client's type is what the latest login executed made it, its camera what the latest login or reset stored in full
   did.
   */
  ghost predicate UpToDate(c: Conn) {
    c.client.Some? ==>
      && TasksValid(c.log.executed) && TasksValid(c.log.stored)
      && c.client.value.kind == Settled(NEWCOMER, c.log.executed).kind
      && c.client.value.camera == Settled(NEWCOMER, c.log.stored).camera
  }

  ghost predicate Fresh(c: Conn) {
    && c.log == EMPTY_LOG && c.client.None? && c.carry == [] && c.parsing.None? && c.unfinished == []
    && c.phase.Unbegun?
    && c.flag != Some(false)
  }

  ghost predicate Sound(c: Conn) {
    && (!c.log.admitted ==> Fresh(c))
    && Parses(c) && InOrder(c) && InStore(c) && FlowControlled(c) && UpToDate(c)
  }

  lemma FreshIsSound(c: Conn)
    requires Fresh(c)
    ensures Sound(c)
  {
    assert c.log.saved == c.log.done + c.unfinished;
  }

  // ----- the moves keep it -----

  lemma FramesSnoc(tasks: seq<Task>, t: Task)
    requires TasksValid(tasks) && t.Valid()
    ensures TasksValid(tasks + [t]) && Frames(tasks + [t]) == Frames(tasks) + [t.memory[..t.len]]
  {
  }

  lemma MoveKeepsParses(c: Conn, m: Move)
    requires Sound(c) && Can(c, m)
    ensures Parses(Apply(c, m))
  {
    match m
    case Heard(chunk) =>
      ParseAppend(c.log.received, chunk);
      assert c.log.found + [] == c.log.found;
    case Saved(_) =>
      assert c.log.found + c.parsing.value.0 == (c.log.found + [c.parsing.value.0[0]]) + c.parsing.value.0[1..];
    case Dropped =>
      assert c.log.found + c.parsing.value.0 == (c.log.found + [c.parsing.value.0[0]]) + c.parsing.value.0[1..];
    case _ =>
  }

  lemma MoveKeepsOrder(c: Conn, m: Move)
    requires Sound(c) && Can(c, m)
    ensures InOrder(Apply(c, m))
  {
    hide Parse, Decode, Settled, FlowControlled, Parses, InStore, UpToDate;
    match m
    case Saved(task) =>
      var f := c.parsing.value.0[0];
      FramesSnoc(c.log.saved, task);
      SubseqBoth(Frames(c.log.saved), c.log.found, f);
      assert (c.log.done + c.unfinished) + [task] == c.log.done + (c.unfinished + [task]);
    case Dropped =>
      SubseqSkip(Frames(c.log.saved), c.log.found, c.parsing.value.0[0]);
    case Completed =>
      assert c.log.done + c.unfinished == (c.log.done + [c.unfinished[0]]) + c.unfinished[1..];
      assert (c.log.done + [c.unfinished[0]]) + [] == c.log.done + [c.unfinished[0]];
    case Obeyed =>
      assert c.log.done + [] == c.log.done;
    case _ =>
  }

  lemma MoveKeepsFlow(c: Conn, m: Move)
    requires Sound(c) && Can(c, m)
    ensures FlowControlled(Apply(c, m))
  {
    hide Parse, Decode, Settled, Subseq, Frames, Parses, InOrder, InStore, UpToDate;
  }

  lemma SettledSnoc(c: Client, tasks: seq<Task>, t: Task)
    requires TasksValid(tasks) && t.Valid()
    ensures TasksValid(tasks + [t]) && Settled(c, tasks + [t]) == Settle(Settled(c, tasks), Decode(t.memory))
  {
    assert Front(tasks + [t]) == tasks && Last(tasks + [t]) == t;
  }

  lemma MoveKeepsStore(c: Conn, m: Move)
    requires Sound(c) && Can(c, m)
    ensures InStore(Apply(c, m))
  {
    hide Parse, Decode, Subseq, Frames, FlowControlled, Parses, UpToDate, Settled;
  }

  lemma ExecutedAreValid(c: Conn)
    requires InOrder(c)
    ensures TasksValid(c.log.executed)
  {
    forall t | t in c.log.executed ensures t.Valid() {
      assert t in c.log.saved;
    }
  }

  /** A command sets the same of all clients that are set alike. */
  lemma SettleAlike(x: Client, y: Client, cmd: Command)
    requires x.kind == y.kind && x.camera == y.camera
    ensures Settle(x, cmd).kind == Settle(y, cmd).kind && Settle(x, cmd).camera == Settle(y, cmd).camera
    ensures cmd.Login? ==> FirstStored(x, cmd).kind == Settle(y, cmd).kind && FirstStored(x, cmd).camera == x.camera
  {
  }

  lemma ObeyedKeepsUpToDate(c: Conn)
    requires Sound(c) && Can(c, Obeyed)
    ensures UpToDate(Apply(c, Obeyed))
  {
    ExecutedAreValid(c);
    SettledSnoc(NEWCOMER, c.log.executed, c.unfinished[0]);
    hide Parse, Decode, Subseq, Frames, FlowControlled, Parses, InOrder, Settled, TasksValid, Settle, FirstStored;
    if c.client.Some? {
      SettleAlike(c.client.value, Settled(NEWCOMER, c.log.executed), Decode(c.unfinished[0].memory));
    }
  }

  lemma StoredKeepsUpToDate(c: Conn)
    requires Sound(c) && Can(c, Stored)
    ensures UpToDate(Apply(c, Stored))
  {
    ExecutedAreValid(c);
    var executed := c.log.executed;
    assert executed == Front(executed) + [Last(executed)] && Last(executed) == c.unfinished[0];
    if c.client.Some? {
      SettledSnoc(NEWCOMER, Front(executed), Last(executed));
    }
    hide Parse, Decode, Subseq, Frames, FlowControlled, Parses, InOrder, Settled;
  }

  lemma MoveKeepsUpToDate(c: Conn, m: Move)
    requires Sound(c) && Can(c, m)
    ensures UpToDate(Apply(c, m))
  {
    assert Settled(NEWCOMER, []) == NEWCOMER;
    hide Parse, Decode, Subseq, Frames, FlowControlled, Parses, InOrder, InStore, Settled;
    match m
    case Obeyed => ObeyedKeepsUpToDate(c);
    case Stored => StoredKeepsUpToDate(c);
    case _ =>
  }

  lemma MoveKeepsSound(c: Conn, m: Move)
    requires Sound(c) && Can(c, m)
    ensures Sound(Apply(c, m))
  {
    MoveKeepsParses(c, m);
    MoveKeepsOrder(c, m);
    MoveKeepsStore(c, m);
    MoveKeepsFlow(c, m);
    MoveKeepsUpToDate(c, m);
  }

  // ----- every step of the relay is a move -----

  /** The move that a step is for connection `k`. */
  function MoveOf(s: State, e: Event, k: int): Move
    requires Staffed(s) && k >= 0 && k in s.logs
  {
    match e
    case Admit(j) => if j == k && !s.logs[k].admitted then Admitted else Stay
    case Read(j, chunk) =>
      if j == k && k in s.clients && k in s.carry && s.receivers[s.Home(k)].Waiting? then Heard(chunk) else Stay
    case Fetch(r, block) => if Fetching(s, r) && block.None? && s.receivers[r].sock == k then Dropped else Stay
    case Save(r, leftover) =>
      if Saving(s, r, leftover) && s.receivers[r].sock == k then Saved(Relay.Saved(s, r, leftover)) else Stay
    case CountUp(r) => if Tallying(s, r) && s.receivers[r].sock == k then CountedUp else Stay
    case Execute(w) => if Executing(s, w) && s.workers[w].work.task.sock == k then Obeyed else Stay
    case Store(w) => if StoringLogin(s, w) && s.workers[w].work.task.sock == k then Stored else Stay
    case CountDown(w) => if Completing(s, w) && s.workers[w].work.task.sock == k then Completed else Stay
    case Quit(j) => if j == k && !s.Torn(k) then Left else Stay
    case Unplug(j) => if j == k then Detached else Stay
    case _ => Stay
  }

  /** From `s` to `s'`, connection `k` makes move `m`. */
  ghost predicate Moves(s: State, s': State, m: Move, k: int)
    requires Staffed(s) && k >= 0 && k in s.logs
  {
    && Staffed(s') && k in s'.logs
    && Can(View(s, k), m) && View(s', k) == Apply(View(s, k), m)
  }

  lemma {:induction false} OfConcat(x: seq<Task>, y: seq<Task>, k: int)
    ensures Of(x + y, k) == Of(x, k) + Of(y, k)
    decreases |y|
  {
    if y == [] {
      assert x + y == x;
    } else {
      assert Front(x + y) == x + Front(y) && Last(x + y) == Last(y);
      OfConcat(x, Front(y), k);
    }
  }

  lemma OfOne(t: Task, k: int)
    ensures Of([t], k) == if t.sock == k then [t] else []
  {
    assert Front([t]) == [];
  }

  // ----- every step is a move -----

  /** The tables and the history are as before for connection `k`. */
  predicate SameTables(s: State, s': State, k: int)
    requires k in s.logs
  {
    && k in s'.logs && s'.logs[k] == s.logs[k]
    && Lookup(s'.clients, k) == Lookup(s.clients, k) && CarryOf(s', k) == CarryOf(s, k)
    && Lookup(s'.flags, k) == Lookup(s.flags, k)
  }

  /** The threads have the same work for connection `k`. */
  predicate SameThreads(s: State, s': State, k: int)
    requires Staffed(s) && Staffed(s') && SameStaff(s, s') && k >= 0
  {
    var h := s.Home(k);
    && ParsingOf(s'.receivers[h], k) == ParsingOf(s.receivers[h], k)
    && Of(s'.workers[h].Unfinished(), k) == Of(s.workers[h].Unfinished(), k)
    && PhaseOf(s'.workers[h].work, k) == PhaseOf(s.workers[h].work, k)
  }

  lemma Stays(s: State, s': State, k: int)
    requires Staffed(s) && k >= 0 && k in s.logs && SameStaff(s, s') && Staffed(s')
    requires SameTables(s, s', k) && SameThreads(s, s', k)
    ensures Moves(s, s', Stay, k)
  {
    hide Shard, Of;
  }

  /** Steps of a worker in the midst of a task. */
  predicate Midst(e: Event) {
    e.Take? || e.Visit? || e.Compare? || e.Grab? || e.Deliver? || e.EndPass? || e.Release?
  }

  lemma TakeNotBegun(s: State, w: int, v: int, k: int)
    requires 0 <= v < |s.workers|
    ensures PhaseOf(DoTake(s, w).workers[v].work, k) == PhaseOf(s.workers[v].work, k)
  {
  }

  lemma SameByFrame(s: State, s': State, k: int)
    requires k in s.logs
    requires s' == s.(receivers := s'.receivers, workers := s'.workers, recvHeld := s'.recvHeld,
               passes := s'.passes, out := s'.out)
    ensures SameTables(s, s', k)
  {
  }

  lemma SameByWork(s: State, s': State, k: int)
    requires Staffed(s) && Staffed(s') && k >= 0 && SameWork(s, s')
    requires PhaseOf(s'.workers[s.Home(k)].work, k) == PhaseOf(s.workers[s.Home(k)].work, k)
    ensures SameThreads(s, s', k)
  {
    hide Shard, Of;
  }

  lemma MidstTables(s: State, e: Event, k: int)
    requires Staffed(s) && k in s.logs && Midst(e)
    ensures SameTables(s, Step(s, e), k)
  {
    hide Shard, DoTake, DoVisit, DoStore, DoCompare, DoGrab, DoDeliver, DoEndPass, DoRelease;
    var s' := Step(s, e);
    assert s'.logs == s.logs && s'.clients == s.clients && s'.carry == s.carry && s'.flags == s.flags;
    hide Step;
  }

  lemma MidstThreads(s: State, e: Event, k: int)
    requires Wired(s) && k in s.logs && Midst(e)
    ensures SameThreads(s, Step(s, e), k)
  {
    hide Shard, Of, SameThreads, SameWork, DoTake, DoVisit, DoStore, DoCompare, DoGrab, DoDeliver, DoEndPass, DoRelease;
    BookkeepingSameWork(s, e);
    if e.Take? {
      TakeNotBegun(s, e.w, s.Home(k), k);
    }
    SameByWork(s, Step(s, e), k);
  }

  lemma MidstStays(s: State, e: Event, k: int)
    requires Wired(s) && k in s.logs && Midst(e)
    ensures Moves(s, Step(s, e), Stay, k)
  {
    hide Shard, Moves, SameTables, SameThreads, Step;
    MidstTables(s, e, k);
    MidstThreads(s, e, k);
    Stays(s, Step(s, e), k);
  }

  lemma OutputStays(s: State, e: Event, k: int)
    requires Wired(s) && k in s.logs && (e.Send? || e.Writable? || e.Reclaim?)
    ensures Moves(s, Step(s, e), Stay, k)
  {
    hide Shard, Of, Moves, SameTables, SameThreads, DoSend, DoWritable, DoReclaim;
    var s' := Step(s, e);
    SameByFrame(s, s', k);
    SameByWork(s, s', k);
    Stays(s, s', k);
  }

  lemma AcceptStays(s: State, j: int, k: int)
    requires Wired(s) && k in s.logs
    ensures Moves(s, DoAccept(s, j), Stay, k)
  {
    hide Shard, Of, Moves;
    Stays(s, DoAccept(s, j), k);
  }

  lemma AdmitMoves(s: State, j: int, k: int)
    requires Wired(s) && k in s.logs
    ensures Moves(s, DoAdmit(s, j), MoveOf(s, Admit(j), k), k)
  {
    hide Shard, Of;
  }

  lemma QuitMoves(s: State, j: int, k: int)
    requires Wired(s) && k in s.logs
    ensures Moves(s, DoQuit(s, j), MoveOf(s, Quit(j), k), k)
  {
    hide Shard, Of;
    if PhaseOf(s.workers[s.Home(k)].work, k).Torn? {
      assert s.Torn(k);
    }
  }

  lemma UnplugMoves(s: State, j: int, k: int)
    requires Wired(s) && k in s.logs
    ensures Moves(s, DoUnplug(s, j), MoveOf(s, Unplug(j), k), k)
  {
    hide Shard, Of;
  }

  lemma ReadElsewhere(s: State, j: int, chunk: seq<byte>, k: int)
    requires Wired(s) && k in s.logs && MoveOf(s, Read(j, chunk), k).Stay?
    ensures Moves(s, DoRead(s, j, chunk), Stay, k)
  {
    hide Shard, Of, Moves, Parse;
    Stays(s, DoRead(s, j, chunk), k);
  }

  lemma ReadHere(s: State, chunk: seq<byte>, k: int)
    requires Wired(s) && k in s.logs && MoveOf(s, Read(k, chunk), k).Heard?
    ensures Moves(s, DoRead(s, k, chunk), Heard(chunk), k)
  {
    hide Shard, Of, Parse;
  }

  /** The task in a worker's hands belongs to a connection that this worker serves. */
  lemma CurrentFits(s: State, w: int)
    requires Wired(s) && 0 <= w < |s.workers| && !s.workers[w].work.Idle?
    ensures TaskFits(s, w, s.workers[w].work.task)
  {
    assert s.workers[w].work.task in s.workers[w].Unfinished();
  }

  /** The current task heads the unfinished tasks of its connection. */
  lemma CurrentIsFirst(s: State, w: int, k: int)
    requires 0 <= w < |s.workers| && !s.workers[w].work.Idle?
    ensures var t, u := s.workers[w].work.task, s.workers[w].Unfinished();
            Of(u, k) == (if t.sock == k then [t] else []) + Of(u[1..], k)
  {
    var t, u := s.workers[w].work.task, s.workers[w].Unfinished();
    assert u == [t] + u[1..];
    OfConcat([t], u[1..], k);
    OfOne(t, k);
  }

  lemma FetchElsewhere(s: State, r: int, block: Option<nat>, k: int)
    requires Wired(s) && k in s.logs && MoveOf(s, Fetch(r, block), k).Stay?
    ensures Moves(s, DoFetch(s, r, block), Stay, k)
  {
    hide Shard, Of, Moves;
    Stays(s, DoFetch(s, r, block), k);
  }

  lemma FetchHere(s: State, r: int, k: int)
    requires Wired(s) && k in s.logs && MoveOf(s, Fetch(r, None), k).Dropped?
    ensures Moves(s, DoFetch(s, r, None), Dropped, k)
  {
    hide Shard, Of;
    assert ReceiverFits(s, r);
  }

  // A saved frame.

  lemma SaveQueues(s: State, r: int, leftover: seq<byte>, k: int)
    requires Wired(s) && k in s.logs && Saving(s, r, leftover)
    ensures var h, s' := s.Home(k), DoSave(s, r, leftover);
            && s'.workers[h].work == s.workers[h].work
            && Of(s'.workers[h].Unfinished(), k)
               == Of(s.workers[h].Unfinished(), k)
                  + (if s.receivers[r].sock == k then [Relay.Saved(s, r, leftover)] else [])
  {
    var h, u, j, t := s.Home(k), s.workers[s.Home(k)].Unfinished(), s.receivers[r].sock, Relay.Saved(s, r, leftover);
    SaveWork(s, r, leftover, h);
    assert t.sock == j;
    hide Shard, DoSave, Saving, Relay.Saved, Of;
    assert u + [] == u && Of(u, k) + [] == Of(u, k);
    OfConcat(u, [t], k);
    OfOne(t, k);
  }

  lemma SaveTables(s: State, r: int, leftover: seq<byte>, k: int)
    requires Staffed(s) && k >= 0 && k in s.logs && Saving(s, r, leftover) && s.receivers[r].sock != k
    ensures SameTables(s, DoSave(s, r, leftover), k)
    ensures ParsingOf(DoSave(s, r, leftover).receivers[s.Home(k)], k) == ParsingOf(s.receivers[s.Home(k)], k)
  {
    hide Shard;
  }

  lemma SaveElsewhere(s: State, r: int, leftover: seq<byte>, k: int)
    requires Wired(s) && k in s.logs && MoveOf(s, Save(r, leftover), k).Stay?
    ensures Moves(s, DoSave(s, r, leftover), Stay, k)
  {
    hide Shard, Of, Moves, DoSave;
    if Saving(s, r, leftover) {
      SaveQueues(s, r, leftover, k);
      SaveTables(s, r, leftover, k);
    } else {
      SaveIdle(s, r, leftover);
    }
    Stays(s, DoSave(s, r, leftover), k);
  }

  lemma SaveEffect(s: State, r: int, leftover: seq<byte>, k: int)
    requires Staffed(s) && k >= 0 && Saving(s, r, leftover) && s.receivers[r].sock == k && s.Home(k) == r
    ensures var (rcv, l, s') := (s.receivers[r], s.logs[k], DoSave(s, r, leftover));
            && k in s'.logs
            && s'.logs[k] == l.(found := l.found + [rcv.found[0]], saved := l.saved + [Relay.Saved(s, r, leftover)])
            && ParsingOf(s'.receivers[r], k) == Some((rcv.found[1..], rcv.saved + 1))
  {
    hide Shard;
  }

  lemma SaveHere(s: State, r: int, leftover: seq<byte>, k: int)
    requires Wired(s) && k in s.logs && MoveOf(s, Save(r, leftover), k).Saved?
    ensures Moves(s, DoSave(s, r, leftover), MoveOf(s, Save(r, leftover), k), k)
  {
    hide Shard, Of, DoSave;
    SavedTask(s, r, leftover);
    SaveQueues(s, r, leftover, k);
    SaveEffect(s, r, leftover, k);
    hide Relay.Saved;
  }

  // Counting and executing.

  lemma CountUpElsewhere(s: State, r: int, k: int)
    requires Wired(s) && k in s.logs && MoveOf(s, CountUp(r), k).Stay?
    ensures Moves(s, DoCountUp(s, r), Stay, k)
  {
    hide Shard, Of, Moves, Increase;
    Stays(s, DoCountUp(s, r), k);
  }

  lemma CountUpHere(s: State, r: int, k: int)
    requires Wired(s) && k in s.logs && MoveOf(s, CountUp(r), k).CountedUp?
    ensures Moves(s, DoCountUp(s, r), CountedUp, k)
  {
    hide Shard, Of, Increase;
    assert ReceiverFits(s, r);
  }

  lemma ExecuteTables(s: State, w: int, k: int)
    requires k in s.logs && (Executing(s, w) ==> s.workers[w].work.task.sock != k)
    ensures SameTables(s, DoExecute(s, w), k)
  {
    hide Decode, Remaining, Started;
  }

  lemma ExecuteBegun(s: State, w: int, v: int, k: int)
    requires 0 <= v < |s.workers| && (Executing(s, w) ==> s.workers[w].work.task.sock != k)
    ensures PhaseOf(DoExecute(s, w).workers[v].work, k) == PhaseOf(s.workers[v].work, k)
  {
    hide Decode, Started;
  }

  /** A worker that is not executing a task of connection `k` does not touch it. */
  lemma ExecuteElsewhere(s: State, w: int, k: int)
    requires Wired(s) && k in s.logs && MoveOf(s, Execute(w), k).Stay?
    ensures Moves(s, DoExecute(s, w), Stay, k)
  {
    hide Shard, Of, Moves, DoExecute;
    ExecuteTables(s, w, k);
    ExecuteBegun(s, w, s.Home(k), k);
    BookkeepingSameWork(s, Execute(w));
    Stays(s, DoExecute(s, w), k);
  }

  lemma ExecuteEffect(s: State, w: int, k: int)
    requires Executing(s, w) && s.workers[w].work.task.sock == k
    ensures var t, s' := s.workers[w].work.task, DoExecute(s, w);
            var login := k in s.clients && Decode(t.memory).Login?;
            && k in s'.logs && s'.logs[k] == Executed(s, t, Decode(t.memory))
            && s'.logs[k] == s.logs[k].(executed := s.logs[k].executed + [t],
                                        stored := s.logs[k].executed + if login then [] else [t])
            && PhaseOf(s.workers[w].work, k).Unbegun?
            && PhaseOf(s'.workers[w].work, k) == (if login then Torn else Begun)
            && Lookup(s'.clients, k) == Lookup(Begin(s.clients, k, Decode(t.memory)), k)
            && CarryOf(s', k) == if k in s.clients && Decode(t.memory).BadLogin? then [] else CarryOf(s, k)
  {
    hide Decode, Begin, Started;
    assert s.logs[k].executed + [] == s.logs[k].executed;
  }

  lemma ExecuteHere(s: State, w: int, k: int)
    requires Wired(s) && k in s.logs && MoveOf(s, Execute(w), k).Obeyed?
    ensures Moves(s, DoExecute(s, w), Obeyed, k)
  {
    hide Shard, Of, DoExecute, Decode, Settle;
    CurrentFits(s, w);
    CurrentIsFirst(s, w, k);
    BookkeepingSameWork(s, Execute(w));
    ExecuteEffect(s, w, k);
    assert View(s, k).unfinished[0] == s.workers[w].work.task;
  }

  // The second store of a login.

  lemma StoreTables(s: State, w: int, k: int)
    requires k in s.logs && (StoringLogin(s, w) ==> s.workers[w].work.task.sock != k)
    ensures SameTables(s, DoStore(s, w), k)
    ensures forall v :: 0 <= v < |s.workers| ==>
              PhaseOf(DoStore(s, w).workers[v].work, k) == PhaseOf(s.workers[v].work, k)
  {
    hide Decode, SecondStored;
  }

  lemma StoreElsewhere(s: State, w: int, k: int)
    requires Wired(s) && k in s.logs && MoveOf(s, Store(w), k).Stay?
    ensures Moves(s, DoStore(s, w), Stay, k)
  {
    hide Shard, Of, Moves, DoStore;
    StoreTables(s, w, k);
    BookkeepingSameWork(s, Store(w));
    Stays(s, DoStore(s, w), k);
  }

  lemma StoreEffect(s: State, w: int, k: int)
    requires StoringLogin(s, w) && s.workers[w].work.task.sock == k
    ensures var t, s' := s.workers[w].work.task, DoStore(s, w);
            && k in s'.logs && s'.logs[k] == s.logs[k].(stored := s.logs[k].executed)
            && PhaseOf(s.workers[w].work, k).Torn? && PhaseOf(s'.workers[w].work, k).Begun?
            && Lookup(s'.clients, k)
               == (if k in s.clients then Some(SecondStored(s.clients[k], Decode(t.memory))) else None)
  {
    hide Decode, SecondStored;
  }

  lemma StoreHere(s: State, w: int, k: int)
    requires Wired(s) && k in s.logs && MoveOf(s, Store(w), k).Stored?
    ensures Moves(s, DoStore(s, w), Stored, k)
  {
    hide Shard, Of, DoStore, Decode, SecondStored;
    CurrentFits(s, w);
    CurrentIsFirst(s, w, k);
    BookkeepingSameWork(s, Store(w));
    StoreEffect(s, w, k);
    assert View(s, k).unfinished[0] == s.workers[w].work.task;
  }

  // A completed task.

  lemma CompletedTables(s: State, w: int, k: int)
    requires Staffed(s) && k in s.logs && (Completing(s, w) ==> s.workers[w].work.task.sock != k)
    ensures SameTables(s, DoCountDown(s, w), k)
  {
    hide Decrease;
  }

  lemma CompletedBegun(s: State, w: int, v: int, k: int)
    requires 0 <= v < |s.workers| && (Completing(s, w) ==> s.workers[w].work.task.sock != k)
    ensures PhaseOf(DoCountDown(s, w).workers[v].work, k) == PhaseOf(s.workers[v].work, k)
  {
  }

  /** Taking a task of another connection off the front of a worker's work. */
  lemma OthersTask(u: seq<Task>, t: Task, k: int)
    requires u != [] && u[0] == t && t.sock != k
    ensures Of(u[1..], k) == Of(u, k)
  {
    assert u == [t] + u[1..];
    OfConcat([t], u[1..], k);
    OfOne(t, k);
    assert [] + Of(u[1..], k) == Of(u[1..], k);
  }

  lemma CompletedElsewhere(s: State, w: int, k: int)
    requires Wired(s) && k in s.logs && MoveOf(s, CountDown(w), k).Stay?
    ensures SameThreads(s, DoCountDown(s, w), k)
  {
    hide Shard, Of, DoCountDown, PhaseOf;
    var h := s.Home(k);
    CompletedBegun(s, w, h, k);
    CountDownWork(s, w, h);
    if Completing(s, h) && w == h {
      OthersTask(s.workers[h].Unfinished(), s.workers[h].work.task, k);
    }
  }

  lemma CountDownElsewhere(s: State, w: int, k: int)
    requires Wired(s) && k in s.logs && MoveOf(s, CountDown(w), k).Stay?
    ensures Moves(s, DoCountDown(s, w), Stay, k)
  {
    hide Shard, Of, Moves, DoCountDown;
    CompletedTables(s, w, k);
    CompletedElsewhere(s, w, k);
    Stays(s, DoCountDown(s, w), k);
  }

  lemma CompletedEffect(s: State, w: int, k: int)
    requires Completing(s, w) && s.workers[w].work.task.sock == k
    ensures var t, s' := s.workers[w].work.task, DoCountDown(s, w);
            && k in s'.logs && s'.logs[k] == s.logs[k].(done := s.logs[k].done + [t])
            && PhaseOf(s.workers[w].work, k).Begun? && PhaseOf(s'.workers[w].work, k).Unbegun?
            && Lookup(s'.clients, k) == (if k in s.clients then Some(Decrease(s.clients[k])) else None)
            && Lookup(s'.flags, k)
               == (if k in s.flags && k in s.clients then Some(Decrease(s.clients[k]).reading) else Lookup(s.flags, k))
  {
    hide Decrease;
  }

  lemma CountDownHere(s: State, w: int, k: int)
    requires Wired(s) && k in s.logs && MoveOf(s, CountDown(w), k).Completed?
    ensures Moves(s, DoCountDown(s, w), Completed, k)
  {
    hide Shard, Of, DoCountDown, Decrease;
    CountDownWork(s, w, w);
    CurrentFits(s, w);
    CurrentIsFirst(s, w, k);
    CompletedEffect(s, w, k);
    assert View(s, k).unfinished[0] == s.workers[w].work.task;
    assert ([s.workers[w].work.task] + Of(s.workers[w].Unfinished()[1..], k))[1..]
      == Of(s.workers[w].Unfinished()[1..], k);
  }

  lemma ThreadsMove(s: State, e: Event, k: int)
    requires Wired(s) && k in s.logs
    requires e.Fetch? || e.Save? || e.CountUp? || e.Execute? || e.Store? || e.CountDown? || e.Read?
    ensures Moves(s, Step(s, e), MoveOf(s, e, k), k)
  {
    hide Moves, Shard, DoRead, DoFetch, DoSave, DoCountUp, DoExecute, DoCountDown, Relay.Saved, Saving, Fetching;
    hide Executing, StoringLogin, DoStore;
    var stays := MoveOf(s, e, k).Stay?;
    match e
    case Read(j, chunk) => if stays { ReadElsewhere(s, j, chunk, k); } else { ReadHere(s, chunk, k); }
    case Fetch(r, block) => if stays { FetchElsewhere(s, r, block, k); } else { FetchHere(s, r, k); }
    case Save(r, leftover) => if stays { SaveElsewhere(s, r, leftover, k); } else { SaveHere(s, r, leftover, k); }
    case CountUp(r) => if stays { CountUpElsewhere(s, r, k); } else { CountUpHere(s, r, k); }
    case Execute(w) => if stays { ExecuteElsewhere(s, w, k); } else { ExecuteHere(s, w, k); }
    case Store(w) => if stays { StoreElsewhere(s, w, k); } else { StoreHere(s, w, k); }
    case CountDown(w) => if stays { CountDownElsewhere(s, w, k); } else { CountDownHere(s, w, k); }
  }

  /** Every step of the relay is one move of each connection, or leaves it alone. */
  lemma StepMoves(s: State, e: Event, k: int)
    requires Wired(s) && k in s.logs
    ensures Moves(s, Step(s, e), MoveOf(s, e, k), k)
  {
    hide Moves, Shard, DoAccept, DoAdmit, DoQuit, DoSend, DoWritable, DoUnplug, DoReclaim;
    hide DoTake, DoVisit, DoStore, DoCompare, DoGrab, DoDeliver, DoEndPass, DoRelease;
    if Midst(e) {
      MidstStays(s, e, k);
    } else if e.Send? || e.Writable? || e.Reclaim? {
      OutputStays(s, e, k);
    } else if e.Accept? {
      AcceptStays(s, e.k, k);
    } else if e.Admit? {
      AdmitMoves(s, e.k, k);
    } else if e.Quit? {
      QuitMoves(s, e.k, k);
    } else if e.Unplug? {
      UnplugMoves(s, e.k, k);
    } else {
      ThreadsMove(s, e, k);
    }
  }
}
