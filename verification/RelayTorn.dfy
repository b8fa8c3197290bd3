/**
 A run in which a client is given a picture that it never asked for: the picture loop reads its type between the two
 stores of its login, and then the camera that it was set to before.
 */
module RelayTorn {
  import opened Prelude
  import opened FrameParser
  import opened Sessions
  import opened Relay
  import opened RelayPasses
  import opened RelayTheorems
  import Connection = RelayConnection
  import Line = RelayLine
  import Logins = RelayLogins
  import Routing = RelayRouting

  /** A picture without data. */
  const PICTURE: seq<byte> := [0x7E, 0x00, 0x05, 0x10, 0xA5]

  /** A login as a PC that watches camera 5. */
  const LOGIN: seq<byte> := [0x7E, 0x00, 0x08, 0x00, 0x01, 0x00, 0x05, 0xA5]

  lemma BothAreFrames()
    ensures IsFrame(PICTURE) && IsFrame(LOGIN)
    ensures Parse([] + PICTURE) == Parsed([PICTURE], []) && Parse([] + LOGIN) == Parsed([LOGIN], [])
  {
    assert DeclaredLen(PICTURE) == 5 && DeclaredLen(LOGIN) == 8;
    ParseFrame(PICTURE, []);
    ParseFrame(LOGIN, []);
    assert [] + PICTURE == PICTURE + [] && [] + LOGIN == LOGIN + [];
    assert [PICTURE] + [] == [PICTURE] && [LOGIN] + [] == [LOGIN];
  }

  function Padding(frame: seq<byte>): (p: seq<byte>)
    requires |frame| <= BLOCK_SIZE
    ensures |frame| + |p| == BLOCK_SIZE
  {
    seq(BLOCK_SIZE - |frame|, _ => 0)
  }

  /** The task that a frame of connection `k` becomes. */
  function TaskOf(k: int, block: nat, frame: seq<byte>): Task
    requires |frame| <= BLOCK_SIZE
  {
    Task(k, block, frame + Padding(frame), |frame|)
  }

  function Sender(): Task {
    TaskOf(0, 0, PICTURE)
  }

  function Watcher(): Task {
    TaskOf(1, 1, LOGIN)
  }

  lemma TasksAre()
    ensures Sender().sock == 0 && Sender().Valid() && Decode(Sender().memory) == Picture
    ensures Watcher().sock == 1 && Watcher().Valid() && Decode(Watcher().memory) == Login(PC, 5)
  {
    BothAreFrames();
    assert (PICTURE + Padding(PICTURE))[..5] == PICTURE && (LOGIN + Padding(LOGIN))[..8] == LOGIN;
  }

  /** One more step. */
  lemma Onward(s: State, e: Event) returns (t: State)
    requires Reachable(s)
    ensures Staffed(s) && t == Step(s, e) && Reachable(t)
  {
    hide Inv, Step;
    EveryRun(s);
    var n: nat, events :| n > 0 && Run(Start(n), events) == s;
    StaffedInv(s);
    t := Step(s, e);
    RunSnoc(Start(n), events, e);
    assert Run(Start(n), events + [e]) == t;
  }

  lemma StaffedInv(s: State)
    requires Inv(s)
    ensures Staffed(s)
  {
  }

  // ----- the two connect and send -----

  /** Two threads of each kind, and nobody at work. */
  predicate Quiet(s: State) {
    |s.workers| == 2 && |s.receivers| == 2 && s.receivers == [Waiting, Waiting]
  }

  predicate Joined(s: State, k: int) {
    && k in s.clients && s.clients[k] == NEWCOMER && k in s.carry && s.carry[k] == [] && k in s.logs
    && s.logs[k].admitted && s.logs[k].executed == [] && s.logs[k].stored == []
    && k in s.passes && s.passes[k] == [] && k in s.out.lines && k in s.out.logs && s.out.logs[k].accepted == []
  }

  /** Neither threads nor blocks have to do with an arrival. */
  predicate Idly(s: State, t: State) {
    t.workers == s.workers && t.receivers == s.receivers && t.recvHeld == s.recvHeld && t.out.held == s.out.held
  }

  lemma JoinEffect(s: State, k: int)
    requires k >= 0 && k !in s.logs
    ensures var t := DoAdmit(DoAccept(s, k), k);
            && Idly(s, t) && Joined(t, k) && t.clients.Keys == s.clients.Keys + {k} && t.logs.Keys == s.logs.Keys + {k}
            && forall j :: Joined(s, j) && j != k ==> Joined(t, j)
  {
  }

  lemma Join(s: State, k: int) returns (t: State)
    requires Reachable(s) && Quiet(s) && k >= 0 && k !in s.logs
    ensures Reachable(t) && Quiet(t) && Idly(s, t)
    ensures Joined(t, k) && t.clients.Keys == s.clients.Keys + {k} && t.logs.Keys == s.logs.Keys + {k}
    ensures forall j :: Joined(s, j) && j != k ==> Joined(t, j)
  {
    hide Reachable, Joined, DoAccept, DoAdmit;
    JoinEffect(s, k);
    var u := Onward(s, Accept(k));
    assert u == DoAccept(s, k);
    t := Onward(u, Admit(k));
    assert t == DoAdmit(u, k);
  }

  /** What a frame on its way to a worker leaves alone. */
  predicate Hears(s: State, t: State, k: int) {
    && t.clients == s.clients && t.passes == s.passes && t.out == s.out && SameDeeds(s, t) && SameFolk(s, t)
    && t.carry.Keys == s.carry.Keys && forall j :: j in s.carry && j != k ==> t.carry[j] == s.carry[j]
  }

  /** One receiver changes. */
  predicate Hearing(s: State, t: State, k: int, r: Receiver)
    requires 0 <= k < |s.receivers|
  {
    t.receivers == s.receivers[k := r] && Hears(s, t, k)
  }

  lemma ReadArrives(s: State, k: int, frame: seq<byte>)
    requires Quiet(s) && 0 <= k < 2 && k in s.clients && k in s.carry && s.carry[k] == [] && k in s.logs
    requires Parse([] + frame) == Parsed([frame], [])
    ensures var t := DoRead(s, k, frame);
            Hearing(s, t, k, Parsing(k, [frame], 0, None)) && t.workers == s.workers && t.recvHeld == s.recvHeld
  {
    hide Parse;
    assert s.Home(k) == k;
  }

  lemma FetchArrives(s: State, k: int, block: nat, frame: seq<byte>)
    requires |s.receivers| == 2 && 0 <= k < 2 && k in s.logs && s.receivers[k] == Parsing(k, [frame], 0, None)
    requires block !in s.recvHeld
    ensures var t := DoFetch(s, k, Some(block));
            && Hearing(s, t, k, Parsing(k, [frame], 0, Some(block))) && t.workers == s.workers
            && t.recvHeld == s.recvHeld[block := WithReceiver(k)]
  {
  }

  lemma SaveArrives(s: State, k: int, block: nat, frame: seq<byte>)
    requires |s.workers| == |s.receivers| == 2 && 0 <= k < 2 && k in s.logs && |frame| <= BLOCK_SIZE
    requires s.receivers[k] == Parsing(k, [frame], 0, Some(block)) && s.workers[k] == Worker([], Idle)
    ensures var t := DoSave(s, k, Padding(frame));
            && Hearing(s, t, k, Parsing(k, [], 1, None))
            && t.workers == s.workers[k := Worker([TaskOf(k, block, frame)], Idle)]
            && t.recvHeld == s.recvHeld[block := WithWorker(k)]
  {
    hide Padding;
    assert s.Home(k) == k;
    assert [] + [TaskOf(k, block, frame)] == [TaskOf(k, block, frame)];
    assert [frame][1..] == [];
  }

  lemma CountArrives(s: State, k: int)
    requires |s.workers| == |s.receivers| == 2 && 0 <= k < 2
    requires k in s.clients && s.receivers[k] == Parsing(k, [], 1, None)
    ensures var t := DoCountUp(s, k);
            && t.receivers == s.receivers[k := Waiting] && t.workers == s.workers && t.recvHeld == s.recvHeld
            && t.clients == s.clients[k := Increase(s.clients[k], 1)] && t.carry == s.carry && t.passes == s.passes
            && t.out == s.out && t.logs == s.logs
  {
    hide Increase;
  }

  /** A frame of `k` is read and queued. */
  lemma Queue(s: State, k: int, block: nat, frame: seq<byte>) returns (t: State)
    requires Reachable(s) && Quiet(s) && 0 <= k < 2 && k in s.clients && k in s.carry && s.carry[k] == [] && k in s.logs
    requires s.workers[k] == Worker([], Idle) && block !in s.recvHeld
    requires |frame| <= BLOCK_SIZE && Parse([] + frame) == Parsed([frame], [])
    ensures Reachable(t) && |t.workers| == |t.receivers| == 2 && Hearing(s, t, k, Parsing(k, [], 1, None))
    ensures t.workers == s.workers[k := Worker([TaskOf(k, block, frame)], Idle)]
    ensures t.recvHeld.Keys == s.recvHeld.Keys + {block}
  {
    hide Reachable, TaskOf, DoRead, DoFetch, DoSave;
    ReadArrives(s, k, frame);
    var s1 := Onward(s, Read(k, frame));
    assert s1 == DoRead(s, k, frame);
    FetchArrives(s1, k, block, frame);
    var s2 := Onward(s1, Fetch(k, Some(block)));
    assert s2 == DoFetch(s1, k, Some(block));
    SaveArrives(s2, k, block, frame);
    t := Onward(s2, Save(k, Padding(frame)));
    assert t == DoSave(s2, k, Padding(frame));
  }

  /** A frame of `k` arrives and reaches its worker. */
  lemma Arrive(s: State, k: int, block: nat, frame: seq<byte>) returns (t: State)
    requires Reachable(s) && Quiet(s) && 0 <= k < 2 && k in s.clients && k in s.carry && s.carry[k] == [] && k in s.logs
    requires s.workers[k] == Worker([], Idle) && block !in s.recvHeld
    requires |frame| <= BLOCK_SIZE && Parse([] + frame) == Parsed([frame], [])
    ensures Reachable(t) && Quiet(t) && SameDeeds(s, t) && SameFolk(s, t)
    ensures t.workers == s.workers[k := Worker([], Running(TaskOf(k, block, frame)))]
    ensures t.clients == s.clients[k := Increase(s.clients[k], 1)] && t.passes == s.passes && t.out == s.out
    ensures t.recvHeld.Keys == s.recvHeld.Keys + {block}
    ensures t.carry.Keys == s.carry.Keys && forall j :: j in s.carry && j != k ==> t.carry[j] == s.carry[j]
  {
    hide Reachable, TaskOf, Increase, DoCountUp, Parse;
    var u := Queue(s, k, block, frame);
    CountArrives(u, k);
    var v := Onward(u, CountUp(k));
    assert v == DoCountUp(u, k);
    assert v.receivers == [Waiting, Waiting];
    t := Onward(v, Take(k));
    TakeArrives(v, k, TaskOf(k, block, frame));
    assert t == DoTake(v, k);
  }

  lemma TakeArrives(s: State, k: int, task: Task)
    requires 0 <= k < |s.workers| && s.workers[k] == Worker([task], Idle)
    ensures DoTake(s, k).workers == s.workers[k := Worker([], Running(task))]
  {
    assert [task][1..] == [];
  }

  // ----- the picture is relayed in the midst of the login -----

  /** Nothing was sent to client 1, whose camera is still the one that it was given when it came. */
  predicate Unserved(s: State) {
    && |s.workers| == |s.receivers| == 2 && s.clients.Keys == {0, 1} && s.clients[0].camera == s.clients[1].camera == 0
    && 0 in s.logs && 1 in s.logs && 0 in s.passes && 1 in s.passes
    && 1 in s.out.lines && 1 in s.out.logs && s.out.logs[1].accepted == [] && s.out.held == map[]
    && s.logs[1].stored == []
  }

  /** Both frames wait to be executed. */
  predicate BothRunning(s: State) {
    && Unserved(s) && s.workers == [Worker([], Running(Sender())), Worker([], Running(Watcher()))]
    && s.logs[0].executed == [] && s.logs[1].executed == [] && s.passes[0] == []
  }

  /** The picture's pass has begun and the login is between its two stores. */
  predicate BothBegun(s: State, work: Work, looks: seq<Look>) {
    && Unserved(s) && s.workers == [Worker([], work), Worker([], Storing(Watcher()))]
    && s.clients[1].kind == PC && s.logs[1].executed == [Watcher()]
    && |s.passes[0]| == 1 && s.passes[0][0].task == Sender() && s.passes[0][0].camera == 0
    && s.passes[0][0].looks == looks
  }

  lemma PictureBegins(s: State)
    requires BothRunning(s)
    ensures var t := DoExecute(s, 0);
            && Unserved(t)
            && t.workers == [Worker([], Relaying(Sender(), 0, -1, Looking)), Worker([], Running(Watcher()))]
            && t.logs[1] == s.logs[1] && t.clients == s.clients
            && |t.passes[0]| == 1 && t.passes[0][0].task == Sender() && t.passes[0][0].camera == 0
            && t.passes[0][0].looks == []
  {
    TasksAre();
    hide Decode, Sender, Watcher;
    assert Executing(s, 0);
    assert s.clients[0 := s.clients[0]] == s.clients;
  }

  lemma LoginBegins(s: State)
    requires Unserved(s) && s.logs[1].executed == []
    requires s.workers == [Worker([], Relaying(Sender(), 0, -1, Looking)), Worker([], Running(Watcher()))]
    requires |s.passes[0]| == 1 && s.passes[0][0].task == Sender() && s.passes[0][0].camera == 0
    requires s.passes[0][0].looks == []
    ensures BothBegun(DoExecute(s, 1), Relaying(Sender(), 0, -1, Looking), [])
  {
    TasksAre();
    hide Decode, Sender, Watcher;
    assert Executing(s, 1);
  }

  /** Client 1 is read to be a PC, as it is about to be, and then to be set to camera 0, as it was. */
  const HALF := Look(1, PC, 1, None, 0, Reading)
  const WHOLE := Look(1, PC, 1, Some(0), 0, Pending)

  lemma SelfIsVisited(s: State)
    requires BothBegun(s, Relaying(Sender(), 0, -1, Looking), [])
    ensures exists l: Look :: l.k == 0 && BothBegun(DoVisit(s, 0, 0), Relaying(Sender(), 0, 0, Looking), [l])
  {
    TasksAre();
    hide Decode, Sender, Watcher;
    assert Visiting(s, 0, 0);
    Routing.VisitEffect(s, 0, 0);
    var l := LookAt(s, 0, 0);
    assert [] + [l] == [l];
    assert BothBegun(DoVisit(s, 0, 0), Relaying(Sender(), 0, 0, Looking), [l]);
  }

  lemma WatcherIsVisited(s: State, l: Look)
    requires BothBegun(s, Relaying(Sender(), 0, 0, Looking), [l])
    ensures BothBegun(DoVisit(s, 0, 1), Relaying(Sender(), 0, 1, Comparing), [l, HALF])
  {
    TasksAre();
    hide Decode, Sender, Watcher;
    assert Visiting(s, 0, 1);
    Routing.VisitEffect(s, 0, 1);
    assert LookAt(s, 0, 1) == HALF;
    assert [l] + [HALF] == [l, HALF];
  }

  lemma WatcherIsCompared(s: State, l: Look)
    requires BothBegun(s, Relaying(Sender(), 0, 1, Comparing), [l, HALF])
    ensures BothBegun(DoCompare(s, 0), Relaying(Sender(), 0, 1, Wanting), [l, WHOLE])
  {
    TasksAre();
    hide Decode, Sender, Watcher;
    assert Halfway(s, 0);
    Routing.CompareEffect(s, 0);
    assert Compared(s, 0) == WHOLE;
    assert Front([l, HALF]) + [WHOLE] == [l, WHOLE];
  }

  lemma BlockIsGrabbed(s: State, l: Look)
    requires BothBegun(s, Relaying(Sender(), 0, 1, Wanting), [l, WHOLE])
    ensures var t := DoGrab(s, 0, Some(0));
            && t.workers[0].work == Relaying(Sender(), 0, 1, Holding(0))
            && t.passes == s.passes && t.logs == s.logs && t.out.lines == s.out.lines && t.out.logs == s.out.logs
  {
    TasksAre();
    hide Decode, Sender, Watcher;
    assert Grabbing(s, 0);
  }

  lemma PictureIsDelivered(s: State, l: Look)
    requires |s.workers| == 2 && s.workers[0].work == Relaying(Sender(), 0, 1, Holding(0)) && 0 in s.passes
    requires |s.passes[0]| == 1 && s.passes[0][0].looks == [l, WHOLE]
    requires 1 in s.out.lines && 1 in s.out.logs && s.out.logs[1].accepted == []
    ensures var t := DoDeliver(s, 0);
            && t.logs == s.logs && 0 in t.passes && |t.passes[0]| == 1 && t.passes[0][0].camera == s.passes[0][0].camera
            && t.passes[0][0].looks == [l, WHOLE.(fate := Accepted)]
            && 1 in t.out.logs && Taken(t.out.logs[1].accepted, 0) == [0]
  {
    TasksAre();
    hide Decode, Sender, Watcher;
    assert Delivering(s, 0) && Target(s, 0) == 1;
    Routing.DeliverEffect(s, 0);
    Line.DeliverQueues(s, 0);
    Routing.TakenOfOne(Cargo(s, 0), 0);
    assert [] + [Cargo(s, 0)] == [Cargo(s, 0)];
    assert Front([l, WHOLE]) + [WHOLE.(fate := Accepted)] == [l, WHOLE.(fate := Accepted)];
  }

  lemma BothJoin() returns (s: State)
    ensures Reachable(s) && Quiet(s) && Joined(s, 0) && Joined(s, 1) && s.clients.Keys == s.logs.Keys == {0, 1}
    ensures s.workers == [Worker([], Idle), Worker([], Idle)] && s.recvHeld == map[] && s.out.held == map[]
  {
    hide Reachable, Joined;
    var s0 := Start(2);
    StartIsReachable(2);
    assert s0.receivers == [Waiting, Waiting] && s0.workers == [Worker([], Idle), Worker([], Idle)];
    var s1 := Join(s0, 0);
    s := Join(s1, 1);
  }

  /** The state in which both frames wait to be executed can be reached. */
  lemma BothArrive() returns (s: State)
    ensures Reachable(s) && BothRunning(s)
  {
    BothAreFrames();
    hide Reachable, Parse, TaskOf, Increase;
    var s0 := BothJoin();
    var s1 := Arrive(s0, 0, 0, PICTURE);
    s := Arrive(s1, 1, 1, LOGIN);
    assert s.workers == [Worker([], Running(Sender())), Worker([], Running(Watcher()))];
    SameCameras(s0.clients[0], s0.clients[1]);
  }

  lemma SameCameras(c: Client, d: Client)
    ensures Increase(c, 1).camera == c.camera && Increase(d, 1).camera == d.camera
  {
  }

  lemma StartIsReachable(n: nat)
    requires n > 0
    ensures Reachable(Start(n))
  {
    assert Run(Start(n), []) == Start(n);
  }

  /** No time of client 1 has both: it was no PC before its login, and was set to camera 5 by it. */
  lemma NeverSetSo(l: Look, h: nat)
    requires l.kind == PC && l.camera == Some(0)
    ensures !Logins.RightAt(l, [Watcher()], h)
  {
    TasksAre();
    hide Decode, Watcher;
    if h == 1 {
      assert [Watcher()][..1] == [] + [Watcher()];
      Connection.SettledSnoc(NEWCOMER, [], Watcher());
    }
  }

  /**
   A client that has executed one login, as a PC that watches camera 5, is given a picture of a sender that is set to
   camera 0, although at no time it was set as a PC to that camera.
   */
  lemma TornLogin() returns (s: State, l: Look)
    ensures Reachable(s) && 0 in s.passes && |s.passes[0]| == 1 && s.passes[0][0].camera == 0
    ensures 1 in s.out.logs && Taken(s.out.logs[1].accepted, 0) == [0]
    ensures l in s.passes[0][0].looks && l.k == 1 && l.fate.Accepted? && l.camera.Some?
    ensures 1 in s.logs && |s.logs[1].executed| == 1 && s.logs[1].executed[0].Valid()
    ensures Decode(s.logs[1].executed[0].memory) == Login(PC, 5)
    ensures forall h: nat :: !Logins.RightAt(l, s.logs[1].executed, h)
  {
    TasksAre();
    hide Reachable, Sender, Watcher, Decode, Logins.RightAt, BothRunning, BothBegun;
    hide DoExecute, DoVisit, DoCompare, DoGrab, DoDeliver, Taken;
    var s0 := BothArrive();
    var self;
    s, self := HalfLogin(s0);
    WatcherIsCompared(s, self);
    var s1 := Onward(s, Compare(0));
    assert s1 == DoCompare(s, 0);
    BlockIsGrabbed(s1, self);
    var s2 := Onward(s1, Grab(0, Some(0)));
    assert s2 == DoGrab(s1, 0, Some(0));
    BegunIs(s1, Relaying(Sender(), 0, 1, Wanting), [self, WHOLE]);
    PictureIsDelivered(s2, self);
    s := Onward(s2, Deliver(0));
    assert s == DoDeliver(s2, 0);
    l := WHOLE.(fate := Accepted);
    forall h: nat ensures !Logins.RightAt(l, s.logs[1].executed, h) {
      NeverSetSo(l, h);
    }
  }

  /** The login has stored its type, and the picture loop has read it. */
  lemma HalfLogin(s: State) returns (t: State, self: Look)
    requires Reachable(s) && BothRunning(s)
    ensures Reachable(t) && BothBegun(t, Relaying(Sender(), 0, 1, Comparing), [self, HALF])
  {
    hide Reachable, Sender, Watcher, BothRunning, BothBegun, Unserved, DoExecute, DoVisit;
    PictureBegins(s);
    var s1 := Onward(s, Execute(0));
    assert s1 == DoExecute(s, 0);
    RunningLogs(s);
    LoginBegins(s1);
    var s2 := Onward(s1, Execute(1));
    assert s2 == DoExecute(s1, 1);
    SelfIsVisited(s2);
    self :| self.k == 0 && BothBegun(DoVisit(s2, 0, 0), Relaying(Sender(), 0, 0, Looking), [self]);
    var s3 := Onward(s2, Visit(0, 0));
    assert s3 == DoVisit(s2, 0, 0);
    WatcherIsVisited(s3, self);
    t := Onward(s3, Visit(0, 1));
    assert t == DoVisit(s3, 0, 1);
  }

  lemma RunningLogs(s: State)
    requires BothRunning(s)
    ensures 1 in s.logs && s.logs[1].executed == []
  {
  }

  lemma BegunIs(s: State, work: Work, looks: seq<Look>)
    requires BothBegun(s, work, looks)
    ensures |s.workers| == 2 && 0 in s.passes && |s.passes[0]| == 1 && s.passes[0][0].looks == looks
    ensures s.passes[0][0].camera == 0 && 1 in s.logs && s.logs[1].executed == [Watcher()]
    ensures 1 in s.out.lines && 1 in s.out.logs && s.out.logs[1].accepted == []
  {
  }
}
