/**
 The running relay as a state machine: receiver threads, worker threads, send threads, the client and
 socket tables and the two block pools.  A section under one lock is one step, and so is each access to a pool,
 each `send` and each client that the picture relay looks at; steps of different threads interleave in any
 order.  A step that is not enabled leaves the state alone, so any sequence of steps is a run.

 `logs`, `passes` and `out.logs` are history: what every connection received, found, saved, executed and completed,
 whom its pictures were shown to, and what was queued, written and released for it.  The steps read of it only
 whether a connection was seen before and which picture pass a worker is in.  Socket ids are not reused within a run.
 */
module Relay {
  import opened Prelude
  import opened FrameParser
  import opened Outbound
  import opened Sessions

  /** A saved frame waiting for a worker: it lies at the front of a pool block. */
  datatype Task = Task(sock: int, block: nat, memory: seq<byte>, len: nat) {
    predicate Valid() {
      |memory| == BLOCK_SIZE && len <= BLOCK_SIZE && IsFrame(memory[..len])
    }

    function Frame(): seq<byte>
      requires len <= |memory|
    {
      memory[..len]
    }
  }

  /**
   How far a worker is with one client: between two clients, between reading a client's type and its camera, in a
   `SendData` call without a block yet, or with one in hand.
   */
  datatype Stage = Looking | Comparing | Wanting | Holding(block: nat)

  /** `Storing` is a login whose type is stored and whose camera is not. */
  datatype Work =
    | Idle
    | Running(task: Task)
    | Storing(task: Task)
    | Acking(task: Task, stage: Stage)
    | Relaying(task: Task, camera: int, last: int, stage: Stage)
    | Freeing(task: Task)
    | Counting(task: Task)
  {
    /** The send-pool block in the worker's hand. */
    function InHand(): Option<nat> {
      if (Acking? || Relaying?) && stage.Holding? then Some(stage.block) else None
    }
  }

  datatype Worker = Worker(queue: seq<Task>, work: Work) {
    /** Taken or queued, and not completed. */
    function Unfinished(): seq<Task> {
      (if work.Idle? then [] else [work.task]) + queue
    }

    /** Taken or queued, and still holding a pool block. */
    function Holding(): seq<Task> {
      (if work.Idle? || work.Counting? then [] else [work.task]) + queue
    }
  }

  /** `block` is fetched for the first of the frames found. */
  datatype Receiver = Waiting | Parsing(sock: int, found: seq<seq<byte>>, saved: nat, block: Option<nat>) {
    function InHand(): Option<nat> {
      if Parsing? then block else None
    }
  }

  datatype Socket = Socket(chain: seq<Node>, blocks: seq<nat>, stalled: bool)

  /** Who has a block that is out of its pool. */
  datatype Holder = WithReceiver(r: int) | WithWorker(w: int) | InLine(k: int)

  /** Why a buffer was queued; a relayed frame names its sender and which of the sender's pictures it is. */
  datatype Source = OwnAck | Relayed(sender: int, pass: nat)
  datatype Out = Out(source: Source, data: seq<byte>)

  /**
   What became of a picture when the relay looked at a client; `Vanished` is a client that left in the midst of it.
   */
  datatype Fate = Reading | Vanished | Pending | NotWatching | NoBlock | NoSocket | Accepted

  /**
   The relay looked at client `k`.  It read the type `kind`, which `heardKind` executed frames of the client had made,
   and later, from a PC other than the sender, the camera, which `heardCamera` of them had made.
   */
  datatype Look = Look(k: int, kind: int, heardKind: nat, camera: Option<int>, heardCamera: nat, fate: Fate)

  /**
   The relaying of one picture: the sender's frame number `index`, sent when the sender was set to `camera`; the
   clients connected at its start, each with the number of its own frames whose commands were stored by then, and, once
   it is over, those connected at its end, each with the number of its own frames executed; and the clients looked at in
   between.
   */
  datatype Pass = Pass(
    task: Task, index: nat, camera: int, present: map<int, nat>, looks: seq<Look>, stayed: Option<map<int, nat>>)

  /** `k` modulo `n`, which spreads connections over threads; see `WorkerPool.ShardIsRemainder`. */
  function Shard(k: nat, n: nat): (r: nat)
    requires n > 0
    ensures r < n
    decreases k
  {
    if k < n then k else Shard(k - n, n)
  }

  /** The history of what a connection sent; `stored` is the executed tasks whose command is stored in full. */
  datatype Log = Log(
    admitted: bool, received: seq<byte>, found: seq<seq<byte>>,
    saved: seq<Task>, executed: seq<Task>, stored: seq<Task>,
    done: seq<Task>)

  /** The history of what was sent to a connection. */
  datatype OutLog = OutLog(accepted: seq<Out>, wire: seq<byte>, codes: seq<int>)

  const EMPTY_LOG := Log(false, [], [], [], [], [], [])
  const EMPTY_OUT := OutLog([], [], [])

  // ----- the sending side -----

  /** Open lines, lines taken out of the table and not released yet, and who has which block of the send pool. */
  datatype Output = Output(
    lines: map<int, Socket>, leaving: map<int, Socket>, held: map<nat, Holder>, logs: map<int, OutLog>)

  function Opened(o: Output, k: int): Output {
    o.(lines := o.lines[k := Socket([], [], false)], logs := o.logs[k := EMPTY_OUT])
  }

  /** A block is taken from the pool. */
  function Lent(o: Output, w: int, block: nat): Output {
    o.(held := o.held[block := WithWorker(w)])
  }

  /** A block goes back to the pool. */
  function GivenBack(o: Output, block: nat): Output {
    o.(held := o.held - {block})
  }

  /** A filled block joins the end of a line. */
  function Queued(o: Output, k: int, out: Out, notify: bool, block: nat): Output
    requires k in o.lines && k in o.logs
  {
    var so, l := o.lines[k], o.logs[k];
    o.(lines := o.lines[k := so.(chain := so.chain + [Node(out.data, 0, notify)], blocks := so.blocks + [block])],
       held := o.held[block := InLine(k)],
       logs := o.logs[k := l.(accepted := l.accepted + [out])])
  }

  predicate Sendable(o: Output, k: int) {
    k in o.lines && k in o.logs && o.lines[k].chain != [] && o.lines[k].blocks != [] && Orderly(o.lines[k].chain)
  }

  /** What a `send` on a line leads to. */
  function Answered(o: Output, k: int, sent: Outcome): Output
    requires Sendable(o, k)
  {
    var so, l := o.lines[k], o.logs[k];
    match sent
    case Failed => o
    case Short(chain, wire) =>
      o.(lines := o.lines[k := so.(chain := chain, stalled := true)], logs := o.logs[k := l.(wire := l.wire + wire)])
    case Finished(chain, wire) =>
      o.(lines := o.lines[k := so.(chain := chain, blocks := so.blocks[1..])],
         held := o.held - {so.blocks[0]},
         logs := o.logs[k := l.(wire := l.wire + wire, codes := l.codes + [SEND_SUCCEED])])
  }

  function Woken(o: Output, k: int): Output {
    if k in o.lines then o.(lines := o.lines[k := o.lines[k].(stalled := false)]) else o
  }

  /** A line leaves the table. */
  function Unplugged(o: Output, k: int): Output {
    if k in o.lines then o.(lines := o.lines - {k}, leaving := o.leaving[k := o.lines[k]]) else o
  }

  /** Everything left in a line that was taken out is released as failed. */
  function Reclaimed(o: Output, k: int): Output {
    if k in o.leaving && k in o.logs then
      var so, l := o.leaving[k], o.logs[k];
      o.(leaving := o.leaving - {k}, held := o.held - (set b | b in so.blocks),
         logs := o.logs[k := l.(codes := l.codes + seq(|so.chain|, _ => SEND_FAILD))])
    else o
  }

  // ----- the whole -----

  /** `flags` is the read flag of every open socket. */
  datatype State = State(
    clients: map<int, Client>, carry: map<int, seq<byte>>, flags: map<int, bool>,
    receivers: seq<Receiver>, workers: seq<Worker>, recvHeld: map<nat, Holder>,
    logs: map<int, Log>, passes: map<int, seq<Pass>>, out: Output)
  {
    /** The thread that serves a connection. */
    function Home(k: int): (h: nat)
      requires k >= 0 && workers != []
      ensures h < |workers|
    {
      Shard(k, |workers|)
    }

    function WithLog(k: int, l: Log): State {
      this.(logs := logs[k := l])
    }

    function WithWork(w: int, work: Work): State
      requires 0 <= w < |workers|
    {
      this.(workers := workers[w := workers[w].(work := work)])
    }

    /** `ModifyRead`: the socket's read flag follows the client's. */
    function WithClient(k: int, c: Client): State {
      this.(clients := clients[k := c], flags := if k in flags then flags[k := c.reading] else flags)
    }

    /** The number of its own frames that each client has had executed. */
    function Heard(): map<int, nat> {
      map k | k in clients && k in logs :: |logs[k].executed|
    }

    /** The number of those whose command is stored in full. */
    function Stored(): map<int, nat> {
      map k | k in clients && k in logs :: |logs[k].stored|
    }

    /** A login of `k` is between its two stores, under the lock of the client table. */
    predicate Torn(k: int) {
      exists w :: 0 <= w < |workers| && workers[w].work.Storing? && workers[w].work.task.sock == k
    }

    function WithPasses(a: int, ps: seq<Pass>): State {
      this.(passes := passes[a := ps])
    }
  }

  datatype Event =
    | Accept(k: int)
    | Admit(k: int)
    | Read(k: int, chunk: seq<byte>)
    | Fetch(r: int, block: Option<nat>)
    | Save(r: int, leftover: seq<byte>)
    | CountUp(r: int)
    | Take(w: int)
    | Execute(w: int)
    | Store(w: int)
    | Visit(w: int, k: int)
    | Compare(w: int)
    | Grab(w: int, block: Option<nat>)
    | Deliver(w: int)
    | EndPass(w: int)
    | Release(w: int)
    | CountDown(w: int)
    | Send(k: int, answer: int)
    | Writable(k: int)
    | Quit(k: int)
    | Unplug(k: int)
    | Reclaim(k: int)

  predicate Staffed(s: State) {
    s.workers != [] && |s.receivers| == |s.workers|
  }

  /** Threads neither come nor go. */
  predicate SameStaff(s: State, s': State) {
    |s'.workers| == |s.workers| && |s'.receivers| == |s.receivers|
  }

  /** Nobody comes or is admitted. */
  predicate SameFolk(s: State, s': State) {
    && s'.logs.Keys == s.logs.Keys && s'.passes.Keys == s.passes.Keys && s'.out.logs.Keys == s.out.logs.Keys
    && forall k :: k in s.logs ==> s'.logs[k].admitted == s.logs[k].admitted
  }

  /** Only worker `w` does anything. */
  predicate OnlyWorker(s: State, s': State, w: int) {
    |s'.workers| == |s.workers| && forall v :: 0 <= v < |s.workers| && v != w ==> s'.workers[v] == s.workers[v]
  }

  /** Worker `w` has the same task in hand and the same queue. */
  predicate SameTask(s: State, s': State, w: int) {
    0 <= w < |s.workers| && w < |s'.workers| ==>
      && s'.workers[w].queue == s.workers[w].queue
      && (s'.workers[w].work.Idle? <==> s.workers[w].work.Idle?)
      && (!s.workers[w].work.Idle? ==> s'.workers[w].work.task == s.workers[w].work.task)
  }

  /** Worker `w` obeys no command. */
  predicate SameOrders(s: State, s': State, w: int) {
    0 <= w < |s.workers| && w < |s'.workers| ==>
      && (s'.workers[w].work.Running? <==> s.workers[w].work.Running?)
      && (s'.workers[w].work.Storing? <==> s.workers[w].work.Storing?)
  }

  /** Worker `w` releases nothing. */
  predicate SameDuty(s: State, s': State, w: int) {
    0 <= w < |s.workers| && w < |s'.workers| ==> (s'.workers[w].work.Counting? <==> s.workers[w].work.Counting?)
  }

  /** No task is executed and no command stored. */
  predicate SameDeeds(s: State, s': State) {
    forall k :: k in s.logs ==>
      k in s'.logs && s'.logs[k].executed == s.logs[k].executed && s'.logs[k].stored == s.logs[k].stored
  }

  // ----- the receiving side -----

  function DoAccept(s: State, k: int): (s': State)
    ensures SameStaff(s, s') && SameDeeds(s, s')
    ensures s' == s.(flags := s'.flags, logs := s'.logs, passes := s'.passes, out := s'.out)
  {
    if k < 0 || k in s.logs then s
    else s.(flags := s.flags[k := true], passes := s.passes[k := []], out := Opened(s.out, k)).WithLog(k, EMPTY_LOG)
  }

  function DoAdmit(s: State, k: int): (s': State)
    ensures SameStaff(s, s') && SameDeeds(s, s') && s' == s.(clients := s'.clients, carry := s'.carry, logs := s'.logs)
  {
    if k !in s.logs || s.logs[k].admitted then s
    else s.(clients := s.clients[k := NEWCOMER], carry := s.carry[k := []])
          .WithLog(k, s.logs[k].(admitted := true))
  }

  /** A chunk arrives and is parsed behind the connection's carry. */
  function DoRead(s: State, k: int, chunk: seq<byte>): (s': State)
    requires Staffed(s)
    ensures SameStaff(s, s') && SameDeeds(s, s') && SameFolk(s, s')
    ensures s' == s.(carry := s'.carry, receivers := s'.receivers, logs := s'.logs)
  {
    if k < 0 || k !in s.clients || k !in s.carry || k !in s.logs || !s.receivers[s.Home(k)].Waiting? then s
    else
      var p := Parse(s.carry[k] + chunk);
      s.(carry := s.carry[k := p.rest], receivers := s.receivers[s.Home(k) := Parsing(k, p.frames, 0, None)])
       .WithLog(k, s.logs[k].(received := s.logs[k].received + chunk))
  }

  /** A receiver with a frame to save and no block for it yet. */
  predicate Fetching(s: State, r: int) {
    0 <= r < |s.receivers| && s.receivers[r].Parsing? && s.receivers[r].found != [] && s.receivers[r].block.None?
    && s.receivers[r].sock in s.logs
  }

  /** The frame is lost, for want of a block. */
  function Dropped(s: State, r: int): State
    requires Fetching(s, r)
  {
    var Parsing(k, found, saved, block) := s.receivers[r];
    s.(receivers := s.receivers[r := Parsing(k, found[1..], saved, None)])
     .WithLog(k, s.logs[k].(found := s.logs[k].found + [found[0]]))
  }

  /** A block is taken from the pool for the next frame, or the frame is dropped when there is none. */
  function DoFetch(s: State, r: int, block: Option<nat>): (s': State)
    ensures SameStaff(s, s') && SameDeeds(s, s') && SameFolk(s, s')
    ensures s' == s.(receivers := s'.receivers, recvHeld := s'.recvHeld, logs := s'.logs)
  {
    if !Fetching(s, r) then s
    else if block.None? then Dropped(s, r)
    else if block.value in s.recvHeld then s
    else s.(receivers := s.receivers[r := s.receivers[r].(block := block)],
            recvHeld := s.recvHeld[block.value := WithReceiver(r)])
  }

  /** A receiver whose next frame was copied to the front of a block that held `leftover` behind it. */
  predicate Saving(s: State, r: int, leftover: seq<byte>) {
    && 0 <= r < |s.receivers| && s.receivers[r].Parsing? && s.receivers[r].found != [] && s.receivers[r].block.Some?
    && s.receivers[r].sock >= 0 && s.receivers[r].sock in s.logs
    && |s.receivers[r].found[0]| + |leftover| == BLOCK_SIZE
  }

  function Saved(s: State, r: int, leftover: seq<byte>): Task
    requires Saving(s, r, leftover)
  {
    var frame := s.receivers[r].found[0];
    Task(s.receivers[r].sock, s.receivers[r].block.value, frame + leftover, |frame|)
  }

  /** The saved frame joins the queue of its connection's worker. */
  function DoSave(s: State, r: int, leftover: seq<byte>): (s': State)
    requires Staffed(s)
    ensures SameStaff(s, s') && SameDeeds(s, s') && SameFolk(s, s')
    ensures s' == s.(receivers := s'.receivers, workers := s'.workers, recvHeld := s'.recvHeld, logs := s'.logs)
  {
    if !Saving(s, r, leftover) then s
    else
      var task := Saved(s, r, leftover);
      var Parsing(k, found, saved, block) := s.receivers[r];
      var w, l := s.Home(k), s.logs[k];
      s.(receivers := s.receivers[r := Parsing(k, found[1..], saved + 1, None)],
         workers := s.workers[w := s.workers[w].(queue := s.workers[w].queue + [task])],
         recvHeld := s.recvHeld[task.block := WithWorker(w)])
       .WithLog(k, l.(found := l.found + [found[0]], saved := l.saved + [task]))
  }

  /** A receiver that has saved all frames of its parse. */
  predicate Tallying(s: State, r: int) {
    0 <= r < |s.receivers| && s.receivers[r].Parsing? && s.receivers[r].found == [] && s.receivers[r].block.None?
  }

  function DoCountUp(s: State, r: int): (s': State)
    ensures SameStaff(s, s') && SameDeeds(s, s') && SameFolk(s, s') && s'.clients.Keys == s.clients.Keys
    ensures s' == s.(clients := s'.clients, flags := s'.flags, receivers := s'.receivers)
  {
    if !Tallying(s, r) then s
    else
      var Parsing(k, _, saved, _) := s.receivers[r];
      var idle := s.(receivers := s.receivers[r := Waiting]);
      if k in s.clients then idle.WithClient(k, Increase(s.clients[k], saved)) else idle
  }

  // ----- the workers -----

  function DoTake(s: State, w: int): (s': State)
    ensures SameStaff(s, s') && SameDeeds(s, s') && SameFolk(s, s') && OnlyWorker(s, s', w)
    ensures s' == s.(workers := s'.workers)
  {
    if !(0 <= w < |s.workers| && s.workers[w].work.Idle? && s.workers[w].queue != []) then s
    else s.(workers := s.workers[w := Worker(s.workers[w].queue[1..], Running(s.workers[w].queue[0]))])
  }

  /** The client leaves, but not between the two stores of a login of its own, which are made under the same lock. */
  function DoQuit(s: State, k: int): (s': State)
    ensures SameStaff(s, s') && SameDeeds(s, s') && SameFolk(s, s')
    ensures s' == s.(clients := s'.clients, carry := s'.carry)
  {
    if s.Torn(k) then s
    else s.(clients := s.clients - {k}, carry := s.carry - {k})
  }

  /** What remains to be done for a task once its command has stored what it stores first. */
  function Remaining(s: State, task: Task, cmd: Command): (work: Work)
    ensures !work.Idle? && !work.Running? && !work.Counting? && work.task == task && work.InHand() == None
  {
    if task.sock !in s.clients then Freeing(task)
    else match cmd
      case Login(_, _) => Storing(task)
      case Picture => Relaying(task, s.clients[task.sock].camera, -1, Looking)
      case _ => Freeing(task)
  }

  predicate Executing(s: State, w: int) {
    && 0 <= w < |s.workers| && s.workers[w].work.Running? && s.workers[w].work.task.Valid()
    && s.workers[w].work.task.sock in s.logs && s.workers[w].work.task.sock in s.passes
  }

  /** The passes of a sender once its next task was executed: a picture starts a new one. */
  function Started(s: State, task: Task, cmd: Command): seq<Pass>
    requires task.sock in s.logs && task.sock in s.passes
  {
    var a := task.sock;
    if Remaining(s, task, cmd).Relaying? then
      s.passes[a] + [Pass(task, |s.logs[a].executed|, s.clients[a].camera, s.Stored(), [], None)]
    else s.passes[a]
  }

  /** The sender's history once its next task was executed: a login of a client is not stored in full yet. */
  function Executed(s: State, task: Task, cmd: Command): Log
    requires task.sock in s.logs
  {
    var l := s.logs[task.sock];
    var executed := l.executed + [task];
    l.(executed := executed, stored := if Remaining(s, task, cmd).Storing? then l.executed else executed)
  }

  function DoExecute(s: State, w: int): (s': State)
    ensures SameStaff(s, s') && SameFolk(s, s') && OnlyWorker(s, s', w) && SameTask(s, s', w) && SameDuty(s, s', w)
    ensures s' == s.(clients := s'.clients, carry := s'.carry, workers := s'.workers,
                     logs := s'.logs, passes := s'.passes)
  {
    if !Executing(s, w) then s
    else
      var task := s.workers[w].work.task;
      var a, cmd := task.sock, Decode(task.memory);
      s.(clients := Begin(s.clients, a, cmd),
         carry := if a in s.clients && cmd.BadLogin? then s.carry - {a} else s.carry)
       .WithLog(a, Executed(s, task, cmd))
       .WithPasses(a, Started(s, task, cmd))
       .WithWork(w, Remaining(s, task, cmd))
  }

  predicate StoringLogin(s: State, w: int) {
    && 0 <= w < |s.workers| && s.workers[w].work.Storing? && s.workers[w].work.task.Valid()
    && s.workers[w].work.task.sock in s.logs
  }

  /** The second store of a login. */
  function DoStore(s: State, w: int): (s': State)
    ensures SameStaff(s, s') && SameFolk(s, s') && OnlyWorker(s, s', w) && SameTask(s, s', w) && SameDuty(s, s', w)
    ensures s'.clients.Keys == s.clients.Keys
    ensures forall k :: k in s.logs ==> s'.logs[k].executed == s.logs[k].executed
    ensures s' == s.(clients := s'.clients, workers := s'.workers, logs := s'.logs)
  {
    if !StoringLogin(s, w) then s
    else
      var task := s.workers[w].work.task;
      var a, l, cmd := task.sock, s.logs[task.sock], Decode(task.memory);
      s.(clients := if a in s.clients then s.clients[a := SecondStored(s.clients[a], cmd)] else s.clients)
       .WithLog(a, l.(stored := l.executed))
       .WithWork(w, Acking(task, Wanting))
  }

  /** The next client after `last` in the order of socket ids. */
  predicate Next(clients: map<int, Client>, last: int, k: int) {
    k in clients && k > last && forall j :: j in clients && j > last ==> k <= j
  }

  function WithLook(ps: seq<Pass>, l: Look): seq<Pass> {
    if ps == [] then ps else Front(ps) + [Last(ps).(looks := Last(ps).looks + [l])]
  }

  /** The last look, if there is one, becomes `l`. */
  function WithLast(ps: seq<Pass>, l: Look): seq<Pass> {
    if ps == [] || Last(ps).looks == [] then ps
    else Front(ps) + [Last(ps).(looks := Front(Last(ps).looks) + [l])]
  }

  function WithFate(ps: seq<Pass>, f: Fate): seq<Pass> {
    if ps == [] || Last(ps).looks == [] then ps else WithLast(ps, Last(Last(ps).looks).(fate := f))
  }

  function WithEnd(ps: seq<Pass>, heard: map<int, nat>): seq<Pass> {
    if ps == [] then ps else Front(ps) + [Last(ps).(stayed := Some(heard))]
  }

  /** A worker that relays a picture, in the given stage of it. */
  predicate Passing(s: State, w: int) {
    && 0 <= w < |s.workers| && s.workers[w].work.Relaying? && s.workers[w].work.task.Valid()
    && s.workers[w].work.task.sock in s.passes
  }

  predicate Visiting(s: State, w: int, k: int) {
    Passing(s, w) && s.workers[w].work.stage.Looking? && k in s.logs && Next(s.clients, s.workers[w].work.last, k)
  }

  /** The first half of a look: the type decides unless it is that of a PC other than the sender. */
  function LookAt(s: State, w: int, k: int): Look
    requires Visiting(s, w, k)
  {
    Look(k, s.clients[k].kind, |s.logs[k].executed|, None, 0,
         if k != s.workers[w].work.task.sock && s.clients[k].kind == PC then Reading else NotWatching)
  }

  /** The picture relay goes on to the next client and reads its type. */
  function DoVisit(s: State, w: int, k: int): (s': State)
    ensures SameStaff(s, s') && SameDeeds(s, s') && SameFolk(s, s') && OnlyWorker(s, s', w) && SameTask(s, s', w)
    ensures SameDuty(s, s', w) && SameOrders(s, s', w)
    ensures s' == s.(workers := s'.workers, passes := s'.passes)
  {
    if !Visiting(s, w, k) then s
    else
      var work, look := s.workers[w].work, LookAt(s, w, k);
      s.WithPasses(work.task.sock, WithLook(s.passes[work.task.sock], look))
       .WithWork(w, Relaying(work.task, work.camera, k, if look.fate.Reading? then Comparing else Looking))
  }

  /** A worker that has read the type of a PC and not its camera. */
  predicate Halfway(s: State, w: int) {
    && Passing(s, w) && s.workers[w].work.stage.Comparing? && s.workers[w].work.last in s.logs
    && s.passes[s.workers[w].work.task.sock] != [] && Last(s.passes[s.workers[w].work.task.sock]).looks != []
  }

  /** The second half of a look: the camera decides, if the client is still there. */
  function Compared(s: State, w: int): Look
    requires Halfway(s, w)
  {
    var work := s.workers[w].work;
    var k, l := work.last, Last(Last(s.passes[work.task.sock]).looks);
    if k !in s.clients then l.(fate := Vanished)
    else
      l.(camera := Some(s.clients[k].camera), heardCamera := |s.logs[k].stored|,
         fate := if s.clients[k].camera == work.camera then Pending else NotWatching)
  }

  /** The picture relay reads the client's camera, and calls `SendData` if it is the sender's. */
  function DoCompare(s: State, w: int): (s': State)
    ensures SameStaff(s, s') && SameDeeds(s, s') && SameFolk(s, s') && OnlyWorker(s, s', w) && SameTask(s, s', w)
    ensures SameDuty(s, s', w) && SameOrders(s, s', w)
    ensures s' == s.(workers := s'.workers, passes := s'.passes)
  {
    if !Halfway(s, w) then s
    else
      var work, look := s.workers[w].work, Compared(s, w);
      s.WithPasses(work.task.sock, WithLast(s.passes[work.task.sock], look))
       .WithWork(w, Relaying(work.task, work.camera, work.last, if look.fate.Pending? then Wanting else Looking))
  }

  /** A worker in a `SendData` call without a block. */
  predicate Grabbing(s: State, w: int) {
    && 0 <= w < |s.workers|
    && match s.workers[w].work
       case Acking(_, stage) => stage.Wanting?
       case Relaying(_, _, _, stage) => stage.Wanting? && Passing(s, w)
       case _ => false
  }

  /** The `SendData` call is over. */
  function CallOver(s: State, w: int, fate: Fate): (s': State)
    requires 0 <= w < |s.workers| && (s.workers[w].work.Acking? || Passing(s, w))
    ensures SameStaff(s, s') && SameDeeds(s, s') && SameFolk(s, s') && OnlyWorker(s, s', w) && SameTask(s, s', w)
    ensures SameDuty(s, s', w) && SameOrders(s, s', w)
    ensures s' == s.(workers := s'.workers, passes := s'.passes)
  {
    var work := s.workers[w].work;
    if work.Acking? then s.WithWork(w, Freeing(work.task))
    else
      s.WithPasses(work.task.sock, WithFate(s.passes[work.task.sock], fate))
       .WithWork(w, Relaying(work.task, work.camera, work.last, Looking))
  }

  /** `SendData` takes a block and fills it; without one it fails. */
  function DoGrab(s: State, w: int, block: Option<nat>): (s': State)
    ensures SameStaff(s, s') && SameDeeds(s, s') && SameFolk(s, s') && OnlyWorker(s, s', w) && SameTask(s, s', w)
    ensures SameDuty(s, s', w) && SameOrders(s, s', w)
    ensures s' == s.(workers := s'.workers, passes := s'.passes, out := s'.out)
  {
    if !Grabbing(s, w) then s
    else if block.None? then CallOver(s, w, NoBlock)
    else if block.value in s.out.held then s
    else
      s.(out := Lent(s.out, w, block.value)).WithWork(w, s.workers[w].work.(stage := Holding(block.value)))
  }

  /** A worker in a `SendData` call with a filled block in hand. */
  predicate Delivering(s: State, w: int) {
    && 0 <= w < |s.workers|
    && match s.workers[w].work
       case Acking(_, stage) => stage.Holding?
       case Relaying(_, _, _, stage) => stage.Holding? && Passing(s, w) && s.passes[s.workers[w].work.task.sock] != []
       case _ => false
  }

  /** The buffer that a worker is sending, and whom to. */
  function Target(s: State, w: int): int
    requires Delivering(s, w)
  {
    if s.workers[w].work.Acking? then s.workers[w].work.task.sock else s.workers[w].work.last
  }

  function Cargo(s: State, w: int): Out
    requires Delivering(s, w)
  {
    var work := s.workers[w].work;
    if work.Acking? then Out(OwnAck, ACK)
    else Out(Relayed(work.task.sock, |s.passes[work.task.sock]| - 1), work.task.Frame())
  }

  /** The block joins the receiver's line, or goes back to the pool when there is no such line. */
  function DoDeliver(s: State, w: int): (s': State)
    ensures SameStaff(s, s') && SameDeeds(s, s') && SameFolk(s, s') && OnlyWorker(s, s', w) && SameTask(s, s', w)
    ensures SameDuty(s, s', w) && SameOrders(s, s', w)
    ensures s' == s.(workers := s'.workers, passes := s'.passes, out := s'.out)
  {
    if !Delivering(s, w) then s
    else
      var work, k, block := s.workers[w].work, Target(s, w), s.workers[w].work.stage.block;
      if k in s.out.lines && k in s.out.logs then
        CallOver(s.(out := Queued(s.out, k, Cargo(s, w), work.Relaying?, block)), w, Accepted)
      else CallOver(s.(out := GivenBack(s.out, block)), w, NoSocket)
  }

  /** A worker that has looked at everybody. */
  predicate Finishing(s: State, w: int) {
    Passing(s, w) && s.workers[w].work.stage.Looking? && forall k :: k in s.clients ==> k <= s.workers[w].work.last
  }

  function DoEndPass(s: State, w: int): (s': State)
    ensures SameStaff(s, s') && SameDeeds(s, s') && SameFolk(s, s') && OnlyWorker(s, s', w) && SameTask(s, s', w)
    ensures SameDuty(s, s', w) && SameOrders(s, s', w)
    ensures s' == s.(workers := s'.workers, passes := s'.passes)
  {
    if !Finishing(s, w) then s
    else
      var task := s.workers[w].work.task;
      s.WithPasses(task.sock, WithEnd(s.passes[task.sock], s.Heard())).WithWork(w, Freeing(task))
  }

  function DoRelease(s: State, w: int): (s': State)
    ensures SameStaff(s, s') && SameDeeds(s, s') && SameFolk(s, s') && OnlyWorker(s, s', w) && SameTask(s, s', w)
    ensures SameOrders(s, s', w)
    ensures s' == s.(workers := s'.workers, recvHeld := s'.recvHeld)
  {
    if !(0 <= w < |s.workers| && s.workers[w].work.Freeing?) then s
    else
      var task := s.workers[w].work.task;
      s.(recvHeld := s.recvHeld - {task.block}).WithWork(w, Counting(task))
  }

  /** A worker whose task only has to be counted off. */
  predicate Completing(s: State, w: int) {
    0 <= w < |s.workers| && s.workers[w].work.Counting? && s.workers[w].work.task.sock in s.logs
  }

  /** The frame count goes down and the task is done. */
  function DoCountDown(s: State, w: int): (s': State)
    ensures SameStaff(s, s') && SameDeeds(s, s') && SameFolk(s, s') && OnlyWorker(s, s', w)
    ensures s'.clients.Keys == s.clients.Keys
    ensures s' == s.(clients := s'.clients, flags := s'.flags, workers := s'.workers, logs := s'.logs)
  {
    if !Completing(s, w) then s
    else
      var task := s.workers[w].work.task;
      var k := task.sock;
      var counted := if k in s.clients then s.WithClient(k, Decrease(s.clients[k])) else s;
      counted.WithLog(k, s.logs[k].(done := s.logs[k].done + [task])).WithWork(w, Idle)
  }

  // ----- the sockets -----

  function DoSend(s: State, k: int, answer: int): (s': State)
    ensures SameStaff(s, s') && SameDeeds(s, s') && SameFolk(s, s')
    ensures s' == s.(out := s'.out)
  {
    if Sendable(s.out, k) then s.(out := Answered(s.out, k, SendOnce(s.out.lines[k].chain, answer))) else s
  }

  function DoWritable(s: State, k: int): (s': State)
    ensures SameStaff(s, s') && SameDeeds(s, s') && SameFolk(s, s')
    ensures s' == s.(out := s'.out)
  {
    s.(out := Woken(s.out, k))
  }

  function DoUnplug(s: State, k: int): (s': State)
    ensures SameStaff(s, s') && SameDeeds(s, s') && SameFolk(s, s')
    ensures s' == s.(flags := s'.flags, out := s'.out)
  {
    s.(flags := s.flags - {k}, out := Unplugged(s.out, k))
  }

  function DoReclaim(s: State, k: int): (s': State)
    ensures SameStaff(s, s') && SameDeeds(s, s') && SameFolk(s, s')
    ensures s' == s.(out := s'.out)
  {
    s.(out := Reclaimed(s.out, k))
  }

  function Step(s: State, e: Event): (s': State)
    requires Staffed(s)
    ensures SameStaff(s, s')
  {
    match e
    case Accept(k) => DoAccept(s, k)
    case Admit(k) => DoAdmit(s, k)
    case Read(k, chunk) => DoRead(s, k, chunk)
    case Fetch(r, block) => DoFetch(s, r, block)
    case Save(r, leftover) => DoSave(s, r, leftover)
    case CountUp(r) => DoCountUp(s, r)
    case Take(w) => DoTake(s, w)
    case Execute(w) => DoExecute(s, w)
    case Store(w) => DoStore(s, w)
    case Visit(w, k) => DoVisit(s, w, k)
    case Compare(w) => DoCompare(s, w)
    case Grab(w, block) => DoGrab(s, w, block)
    case Deliver(w) => DoDeliver(s, w)
    case EndPass(w) => DoEndPass(s, w)
    case Release(w) => DoRelease(s, w)
    case CountDown(w) => DoCountDown(s, w)
    case Send(k, answer) => DoSend(s, k, answer)
    case Writable(k) => DoWritable(s, k)
    case Quit(k) => DoQuit(s, k)
    case Unplug(k) => DoUnplug(s, k)
    case Reclaim(k) => DoReclaim(s, k)
  }

  /** A relay with `n` receivers and workers that nobody has connected to. */
  function Start(n: nat): State {
    State(map[], map[], map[], seq(n, _ => Waiting), seq(n, _ => Worker([], Idle)), map[], map[], map[],
          Output(map[], map[], map[], map[]))
  }

  function Run(s: State, events: seq<Event>): (s': State)
    requires Staffed(s)
    ensures Staffed(s') && SameStaff(s, s')
    decreases events
  {
    if events == [] then s
    else Run(Step(s, events[0]), events[1..])
  }
}
