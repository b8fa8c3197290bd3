/**
 Every step of the relay keeps the passes of every sender in order, right and complete, and gives nobody anything
 else.
 */
module RelayRouting {
  import opened Prelude
  import Outbound
  import opened Sessions
  import opened Relay
  import opened RelayInbound
  import opened RelayPasses
  import Connection = RelayConnection
  import Line = RelayLine

  /** The work of `a`'s worker, as far as it relays pictures of `a`. */
  function WorkFor(s: State, a: int): Work
    requires Staffed(s) && a >= 0
  {
    var work := s.workers[s.Home(a)].work;
    if work.Relaying? && work.task.sock == a then work else Idle
  }

  ghost predicate SenderFits(s: State, a: int)
    requires Staffed(s)
  {
    && a >= 0 && a in s.logs && a in s.passes
    && OneByOne(s.passes[a], WorkFor(s, a), s.clients.Keys)
    && AllRight(s.passes[a], a, s.logs)
    && Covers(s.passes[a], s.logs[a].executed, a in s.clients)
    && Latest(s.passes[a], WorkFor(s, a), s.logs[a].executed)
  }

  /** The pass in progress is that of the last task executed. */
  predicate Latest(ps: seq<Pass>, work: Work, executed: seq<Task>) {
    work.Relaying? ==> ps != [] && Last(ps).index == |executed| - 1
  }

  /** What `b` was given from `a` are exactly the looks of `a`'s passes that `b` accepted, in order. */
  ghost predicate PairFits(s: State, a: int, b: int)
    requires a in s.passes && b in s.out.logs
  {
    Taken(s.out.logs[b].accepted, a) == GivenTo(s.passes[a], b)
  }

  /** A relayed buffer is the frame of the pass that it names. */
  ghost predicate Genuine(o: Out, passes: map<int, seq<Pass>>) {
    o.source.Relayed? ==>
      && o.source.sender in passes && o.source.pass < |passes[o.source.sender]|
      && var t := passes[o.source.sender][o.source.pass].task; t.len <= |t.memory| && o.data == t.Frame()
  }

  ghost predicate AllGenuine(s: State) {
    forall b, o :: b in s.out.logs && o in s.out.logs[b].accepted ==> Genuine(o, s.passes)
  }

  ghost predicate Routed(s: State)
    requires Staffed(s) && TablesFit(s)
  {
    && (forall a :: a in s.logs ==> SenderFits(s, a))
    && (forall a, b :: a in s.logs && b in s.logs ==> PairFits(s, a, b))
    && (forall a :: a in s.logs ==> Gone(s.passes[a], s.out.lines.Keys))
    && AllGenuine(s)
  }

  /**
   Types and cameras are the latest, commands are stored as far as their workers are with them, and nobody has commanded
   anything before being admitted.
   */
  ghost predicate Current(s: State)
    requires Wired(s)
  {
    && (forall k :: k in s.clients ==>
          KindSetTo(s.clients[k].kind, s.logs[k].executed) && CameraSetTo(s.clients[k].camera, s.logs[k].stored))
    && (forall k :: k in s.logs ==> Connection.InStore(Connection.View(s, k)))
    && (forall k :: k in s.logs && !s.logs[k].admitted ==> s.logs[k].executed == [])
  }

  lemma StoredWithin(s: State, k: int)
    requires Wired(s) && Current(s) && k in s.logs
    ensures var l := s.logs[k];
            && |l.stored| <= |l.executed| <= |l.stored| + 1 && l.executed[..|l.stored|] == l.stored
            && (|l.executed| == |l.stored| + 1 ==> IsLogin(l.executed[|l.stored|]))
  {
    hide Shard, KindSetTo, CameraSetTo, Decode;
    assert Connection.InStore(Connection.View(s, k));
    assert s.logs[k].executed[..|s.logs[k].executed|] == s.logs[k].executed;
  }

  // ----- histories grow -----

  lemma StepGrows(s: State, e: Event)
    requires Wired(s) && Current(s)
    ensures Grown(s.logs, Step(s, e).logs)
  {
    forall k | k in s.logs ensures |s.logs[k].stored| <= |s.logs[k].executed| {
      StoredWithin(s, k);
    }
    hide Wired, Current, Step, Grown;
    LogsGrow(s, e);
  }

  lemma LogsGrow(s: State, e: Event)
    requires Staffed(s) && forall k :: k in s.logs ==> |s.logs[k].stored| <= |s.logs[k].executed|
    ensures Grown(s.logs, Step(s, e).logs)
  {
    hide Shard, DoAccept, DoRead, DoFetch, DoSave, DoCountUp, DoQuit, DoSend, DoWritable, DoUnplug, DoReclaim;
    hide DoTake, DoExecute, DoStore, DoVisit, DoCompare, DoGrab, DoDeliver, DoEndPass, DoRelease, DoCountDown;
    StepForward(s, e);
    if e.Execute? {
      ExecuteGrows(s, e.w);
    } else if e.Store? {
      StoreGrows(s, e.w);
    } else if e.Accept? {
      AcceptGrows(s, e.k);
    }
  }

  lemma AcceptGrows(s: State, k: int)
    ensures Grown(s.logs, DoAccept(s, k).logs)
  {
  }

  lemma ExecuteGrows(s: State, w: int)
    requires forall k :: k in s.logs ==> |s.logs[k].stored| <= |s.logs[k].executed|
    ensures Grown(s.logs, DoExecute(s, w).logs)
  {
    hide Decode, Begin, Started, Remaining;
  }

  lemma StoreGrows(s: State, w: int)
    requires forall k :: k in s.logs ==> |s.logs[k].stored| <= |s.logs[k].executed|
    ensures Grown(s.logs, DoStore(s, w).logs)
  {
    hide Decode, SecondStored;
  }

  /** Tasks of a pass stay, and passes only get more. */
  ghost predicate Lengthened(ps: seq<Pass>, ps': seq<Pass>) {
    |ps| <= |ps'| && forall i :: 0 <= i < |ps| ==> ps'[i].task == ps[i].task
  }

  lemma ChangesLengthen(ps: seq<Pass>, l: Look, f: Fate, heard: map<int, nat>)
    ensures Lengthened(ps, WithLast(ps, l))
    ensures Lengthened(ps, WithLook(ps, l)) && Lengthened(ps, WithFate(ps, f)) && Lengthened(ps, WithEnd(ps, heard))
  {
  }

  lemma StaysGenuine(o: Out, passes: map<int, seq<Pass>>, passes': map<int, seq<Pass>>)
    requires Genuine(o, passes) && forall a :: a in passes ==> a in passes' && Lengthened(passes[a], passes'[a])
    ensures Genuine(o, passes')
  {
  }

  // ----- a sender that a step does not concern -----

  lemma OtherSender(s: State, e: Event, a: int)
    requires Wired(s) && Current(s) && Wired(Step(s, e)) && SenderFits(s, a)
    requires a in Step(s, e).logs && a in Step(s, e).passes
    requires Step(s, e).passes[a] == s.passes[a] && WorkFor(Step(s, e), a) == WorkFor(s, a)
    requires Step(s, e).logs[a].executed == s.logs[a].executed
    requires a in Step(s, e).clients ==> a in s.clients || s.logs[a].executed == []
    ensures SenderFits(Step(s, e), a)
  {
    hide Shard, Step, PassRight;
    var s' := Step(s, e);
    StepGrows(s, e);
    StepForward(s, e);
    AllStayRight(s.passes[a], a, s.logs, s'.logs);
    var work := WorkFor(s, a);
    if work.Relaying? {
      forall k | k in s'.clients.Keys && k in Last(s.passes[a]).present ensures k in s.clients.Keys {
        assert PassRight(Last(s.passes[a]), a, s.logs);
        PresentAdmitted(Last(s.passes[a]), a, s.logs, k);
      }
      forall l | l in Last(s.passes[a]).looks && l.k in s'.clients.Keys ensures l.k in s.clients.Keys {
        assert PassRight(Last(s.passes[a]), a, s.logs);
        LookAdmitted(Last(s.passes[a]), a, s.logs, l);
      }
    }
    ClientsChange(s.passes[a], work, s.clients.Keys, s'.clients.Keys);
  }

  lemma PresentAdmitted(p: Pass, a: int, logs: map<int, Log>, k: int)
    requires a in logs && PassRight(p, a, logs) && k in p.present
    ensures k in logs && logs[k].admitted
  {
  }

  lemma LookAdmitted(p: Pass, a: int, logs: map<int, Log>, l: Look)
    requires a in logs && PassRight(p, a, logs) && l in p.looks
    ensures l.k in logs && logs[l.k].admitted
  {
  }

  // ----- the sender that a step concerns -----

  lemma AtHome(s: State, w: int)
    requires Wired(s) && 0 <= w < |s.workers| && !s.workers[w].work.Idle?
    ensures var a := s.workers[w].work.task.sock; a >= 0 && a in s.logs && a in s.passes && s.Home(a) == w
    ensures s.workers[w].work.task.Valid()
  {
    hide Shard;
    Connection.CurrentFits(s, w);
  }

  lemma ExecuteEffect(s: State, w: int)
    requires Executing(s, w)
    ensures var t, s' := s.workers[w].work.task, DoExecute(s, w);
            && s'.passes == s.passes[t.sock := Started(s, t, Decode(t.memory))]
            && s'.workers[w].work == Remaining(s, t, Decode(t.memory))
            && t.sock in s'.logs && s'.logs[t.sock].executed == s.logs[t.sock].executed + [t]
            && s'.clients.Keys <= s.clients.Keys
  {
    hide Decode, Started, Remaining;
  }

  lemma PictureAtSnoc(tasks: seq<Task>, t: Task)
    ensures PictureAt(tasks + [t]) == PictureAt(tasks) + if IsPicture(t) then [|tasks|] else []
  {
    assert Front(tasks + [t]) == tasks && Last(tasks + [t]) == t;
  }

  lemma StartedRight(s: State, w: int)
    requires Wired(s) && Current(s) && Executing(s, w)
    requires AllRight(s.passes[s.workers[w].work.task.sock], s.workers[w].work.task.sock, s.logs)
    ensures var t := s.workers[w].work.task;
            t.sock in DoExecute(s, w).logs
            && AllRight(Started(s, t, Decode(t.memory)), t.sock, DoExecute(s, w).logs)
  {
    hide Shard, Decode, Current, PassRight, Remaining, DoExecute;
    var t, s' := s.workers[w].work.task, DoExecute(s, w);
    var a, cmd := t.sock, Decode(t.memory);
    ExecuteEffect(s, w);
    StepGrows(s, Execute(w));
    AllStayRight(s.passes[a], a, s.logs, s'.logs);
    if Remaining(s, t, cmd).Relaying? {
      NewPassRight(s, w);
    }
  }

  /** A worker that executes has stored all earlier commands of the sender. */
  lemma SenderIsStored(s: State, w: int)
    requires Wired(s) && Current(s) && Executing(s, w) && s.workers[w].work.task.sock in s.clients
    ensures var a := s.workers[w].work.task.sock; CameraSetTo(s.clients[a].camera, s.logs[a].executed)
  {
    hide Shard, CameraSetTo, KindSetTo, Decode;
    var a := s.workers[w].work.task.sock;
    AtHome(s, w);
    assert Connection.View(s, a).phase.Unbegun?;
    assert Connection.InStore(Connection.View(s, a));
  }

  /** What was stored at the start of a pass stays stored. */
  lemma StoredStays(s: State, logs: map<int, Log>)
    requires TablesFit(s) && Grown(s.logs, logs)
    ensures forall k :: k in s.Stored() ==> k in logs && logs[k].admitted && s.Stored()[k] <= |logs[k].stored|
  {
  }

  lemma NewPassRight(s: State, w: int)
    requires Wired(s) && Current(s) && Executing(s, w)
    requires var t := s.workers[w].work.task; Remaining(s, t, Decode(t.memory)).Relaying?
    ensures var t := s.workers[w].work.task;
            t.sock in DoExecute(s, w).logs && t.sock in s.clients
            && PassRight(Pass(t, |s.logs[t.sock].executed|, s.clients[t.sock].camera, s.Stored(), [], None),
                         t.sock, DoExecute(s, w).logs)
  {
    hide Shard, DoExecute, CameraSetTo, Current, WorkersFit, ReceiversFit;
    var t, s' := s.workers[w].work.task, DoExecute(s, w);
    var executed := s.logs[t.sock].executed;
    SenderIsStored(s, w);
    ExecuteEffect(s, w);
    StepGrows(s, Execute(w));
    StoredStays(s, s'.logs);
    assert s'.logs[t.sock].executed[..|executed|] == executed;
  }

  lemma StartedCovers(s: State, t: Task, executed: seq<Task>)
    requires t.sock in s.logs && t.sock in s.passes && t.Valid() && executed == s.logs[t.sock].executed
    requires Covers(s.passes[t.sock], executed, t.sock in s.clients)
    ensures Covers(Started(s, t, Decode(t.memory)), executed + [t], t.sock in s.clients)
  {
    hide Decode;
    PictureAtSnoc(executed, t);
    hide PictureAt;
    var ps := s.passes[t.sock];
    assert Started(s, t, Decode(t.memory)) != ps ==>
      Indices(Started(s, t, Decode(t.memory))) == Indices(ps) + [|executed|];
  }

  lemma ExecuteKeepsSender(s: State, w: int)
    requires Wired(s) && Wired(DoExecute(s, w)) && Current(s) && Executing(s, w)
    requires SenderFits(s, s.workers[w].work.task.sock)
    ensures SenderFits(DoExecute(s, w), s.workers[w].work.task.sock)
  {
    hide Shard, Decode, AllRight, Covers, DoExecute, Wired;
    var t, s' := s.workers[w].work.task, DoExecute(s, w);
    AtHome(s, w);
    ExecuteEffect(s, w);
    StartedRight(s, w);
    StartedCovers(s, t, s.logs[t.sock].executed);
    StartedInOrder(s, w);
    FewerConnected(s'.passes[t.sock], s'.logs[t.sock].executed, t.sock in s.clients, t.sock in s'.clients);
  }

  lemma FewerConnected(ps: seq<Pass>, executed: seq<Task>, before: bool, after: bool)
    requires Covers(ps, executed, before) && (after ==> before)
    ensures Covers(ps, executed, after)
  {
  }

  lemma StartedInOrder(s: State, w: int)
    requires Wired(s) && Executing(s, w) && SenderFits(s, s.workers[w].work.task.sock)
    ensures var t := s.workers[w].work.task;
            var work := Remaining(s, t, Decode(t.memory));
            var now := if work.Relaying? then work else Idle;
            OneByOne(Started(s, t, Decode(t.memory)), now, DoExecute(s, w).clients.Keys)
  {
    hide Shard, Decode, AllRight, Covers, DoExecute;
    var t, s' := s.workers[w].work.task, DoExecute(s, w);
    var a, work := t.sock, Remaining(s, t, Decode(t.memory));
    AtHome(s, w);
    ExecuteEffect(s, w);
    assert WorkFor(s, a) == Idle;
    if work.Relaying? {
      var p := Last(Started(s, t, Decode(t.memory)));
      assert Started(s, t, Decode(t.memory)) == s.passes[a] + [p];
      PassStarts(s.passes[a], p, Idle, work, s.clients.Keys, s'.clients.Keys);
    }
  }

  /** A worker in a pass, and the pass. */
  lemma Underway(s: State, w: int)
    requires Wired(s) && 0 <= w < |s.workers| && s.workers[w].work.Relaying?
    requires SenderFits(s, s.workers[w].work.task.sock)
    ensures var work := s.workers[w].work;
            var ps := s.passes[work.task.sock];
            && OneByOne(ps, work, s.clients.Keys) && ps != [] && InProgress(Last(ps), work, s.clients.Keys)
  {
    hide Shard;
    AtHome(s, w);
  }

  /** The worker goes on with its pass, whose new record is in order, right and complete. */
  lemma PassGoesOn(s: State, s': State, w: int)
    requires Wired(s) && Wired(s') && 0 <= w < |s.workers| && s.workers[w].work.Relaying?
    requires SameStaff(s, s') && s'.logs == s.logs && s'.clients == s.clients
    requires s'.workers[w].work.Relaying? ==> s'.workers[w].work.task == s.workers[w].work.task
    requires var a, work' := s.workers[w].work.task.sock, s'.workers[w].work;
             && SenderFits(s, a) && a in s'.passes && AllRight(s'.passes[a], a, s.logs)
             && Indices(s'.passes[a]) == Indices(s.passes[a])
             && OneByOne(s'.passes[a], if work'.Relaying? then work' else Idle, s.clients.Keys)
    ensures SenderFits(s', s.workers[w].work.task.sock)
  {
    hide Shard, AllRight, OneByOne, Wired;
    AtHome(s, w);
    SameLatest(s.passes[s.workers[w].work.task.sock], s'.passes[s.workers[w].work.task.sock]);
  }

  lemma SameLatest(ps: seq<Pass>, ps': seq<Pass>)
    requires Indices(ps') == Indices(ps)
    ensures |ps'| == |ps| && (ps != [] ==> Last(ps').index == Last(ps).index)
  {
    assert |ps| == |Indices(ps)| == |ps'|;
    if ps != [] {
      assert Indices(ps)[|ps| - 1] == Last(ps).index && Indices(ps')[|ps| - 1] == Last(ps').index;
    }
  }

  lemma VisitEffect(s: State, w: int, k: int)
    requires Visiting(s, w, k)
    ensures var work, s', look := s.workers[w].work, DoVisit(s, w, k), LookAt(s, w, k);
            && s'.passes == s.passes[work.task.sock := WithLook(s.passes[work.task.sock], look)]
            && s'.workers[w].work
               == Relaying(work.task, work.camera, k, if look.fate.Reading? then Comparing else Looking)
  {
    hide LookAt;
  }

  lemma LookAtRight(s: State, w: int, k: int)
    requires Wired(s) && Current(s) && Visiting(s, w, k)
    ensures LookRight(LookAt(s, w, k), s.workers[w].work.task.sock, s.workers[w].work.camera, s.logs)
  {
    hide Shard, CameraSetTo;
    var executed := s.logs[k].executed;
    assert executed[..|executed|] == executed;
    assert KindSetTo(s.clients[k].kind, executed);
  }

  lemma LookAtTimely(s: State, w: int, k: int)
    requires Wired(s) && Current(s) && Visiting(s, w, k) && SenderFits(s, s.workers[w].work.task.sock)
    ensures var ps := s.passes[s.workers[w].work.task.sock]; ps != [] && Timely(Last(ps), LookAt(s, w, k))
  {
    StoredWithin(s, k);
    hide Shard, Current, LookRight, CameraSetTo, IsPicture;
    var a := s.workers[w].work.task.sock;
    AtHome(s, w);
    Underway(s, w);
    assert PassRight(Last(s.passes[a]), a, s.logs);
  }

  lemma VisitKeepsSender(s: State, w: int, k: int)
    requires Wired(s) && Wired(DoVisit(s, w, k)) && Current(s) && Visiting(s, w, k)
    requires SenderFits(s, s.workers[w].work.task.sock)
    ensures SenderFits(DoVisit(s, w, k), s.workers[w].work.task.sock)
  {
    hide Shard, DoVisit, DoStore, DoCompare, LookRight, AllRight, Covers, Wired;
    var work, look := s.workers[w].work, LookAt(s, w, k);
    var a := work.task.sock;
    AtHome(s, w);
    Underway(s, w);
    VisitEffect(s, w, k);
    LookAtRight(s, w, k);
    LookAtTimely(s, w, k);
    PassLooks(s.passes[a], work, s.clients, look, DoVisit(s, w, k).workers[w].work.stage);
    LookAdded(s.passes[a], look, a, s.logs);
    PassGoesOn(s, DoVisit(s, w, k), w);
  }

  lemma CompareEffect(s: State, w: int)
    requires Halfway(s, w)
    ensures var work, s', look := s.workers[w].work, DoCompare(s, w), Compared(s, w);
            && s'.passes == s.passes[work.task.sock := WithLast(s.passes[work.task.sock], look)]
            && s'.workers[w].work
               == Relaying(work.task, work.camera, work.last, if look.fate.Pending? then Wanting else Looking)
  {
    hide Compared, WithLast;
  }

  /** The look that a worker is in the midst of. */
  lemma LookInHand(s: State, w: int)
    requires Wired(s) && 0 <= w < |s.workers| && s.workers[w].work.Relaying? && !s.workers[w].work.stage.Looking?
    requires SenderFits(s, s.workers[w].work.task.sock)
    ensures var work := s.workers[w].work;
            var ps := s.passes[work.task.sock];
            && ps != [] && Last(ps).task == work.task && Last(ps).camera == work.camera && Last(ps).stayed.None?
            && Last(ps).looks != [] && Ascending(Last(ps).looks) && Last(Last(ps).looks).k == work.last
            && (if work.stage.Comparing? then Last(Last(ps).looks).fate.Reading?
                else Last(Last(ps).looks).fate.Pending?)
            && PassRight(Last(ps), work.task.sock, s.logs) && Last(Last(ps).looks) in Last(ps).looks
  {
    hide Shard, Wired, PassRight;
    Underway(s, w);
  }

  lemma ComparedRight(s: State, w: int)
    requires Wired(s) && Current(s) && Halfway(s, w) && SenderFits(s, s.workers[w].work.task.sock)
    ensures LookRight(Compared(s, w), s.workers[w].work.task.sock, s.workers[w].work.camera, s.logs)
    ensures Timely(Last(s.passes[s.workers[w].work.task.sock]), Compared(s, w))
  {
    var work := s.workers[w].work;
    var a, k := work.task.sock, work.last;
    LookInHand(s, w);
    var p := Last(s.passes[a]);
    var l := Last(p.looks);
    assert LookRight(l, a, work.camera, s.logs) && Timely(p, l);
    StoredWithin(s, k);
    assert k in s.clients ==> CameraSetTo(s.clients[k].camera, s.logs[k].stored);
    hide Shard, Wired, Current, SenderFits, KindSetTo, CameraSetTo, IsLogin;
  }

  lemma CompareKeepsSender(s: State, w: int)
    requires Wired(s) && Wired(DoCompare(s, w)) && Current(s) && Halfway(s, w)
    requires SenderFits(s, s.workers[w].work.task.sock)
    ensures SenderFits(DoCompare(s, w), s.workers[w].work.task.sock)
  {
    hide Shard, DoCompare, LookRight, AllRight, Covers, Wired, Current, Timely;
    var work, look := s.workers[w].work, Compared(s, w);
    var a := work.task.sock;
    AtHome(s, w);
    LookInHand(s, w);
    Underway(s, w);
    CompareEffect(s, w);
    ComparedRight(s, w);
    LastGoesOn(s.passes[a], work, s.clients.Keys, look, DoCompare(s, w).workers[w].work.stage);
    LookSet(s.passes[a], look, a, s.logs);
    hide OneByOne;
    PassGoesOn(s, DoCompare(s, w), w);
  }

  /** A `SendData` call of worker `w` has come to its fate. */
  predicate CallEnded(s: State, s': State, w: int, f: Fate)
    requires 0 <= w < |s.workers| && |s'.workers| == |s.workers| && (s.workers[w].work.Acking? || Passing(s, w))
  {
    var work := s.workers[w].work;
    if work.Acking? then s'.passes == s.passes && s'.workers[w].work == Freeing(work.task)
    else
      && s'.passes == s.passes[work.task.sock := WithFate(s.passes[work.task.sock], f)]
      && s'.workers[w].work == Relaying(work.task, work.camera, work.last, Looking)
  }

  lemma CallOverEffect(s: State, o: Output, w: int, f: Fate)
    requires 0 <= w < |s.workers| && (s.workers[w].work.Acking? || Passing(s, w))
    ensures CallEnded(s, CallOver(s.(out := o), w, f), w, f)
  {
    hide WithFate;
  }

  /** A `SendData` call of a pass ends. */
  lemma CallEndsInOrder(s: State, w: int, f: Fate)
    requires Wired(s) && Passing(s, w) && (s.workers[w].work.stage.Wanting? || s.workers[w].work.stage.Holding?)
    requires (f.NoBlock? || f.NoSocket? || f.Accepted?) && SenderFits(s, s.workers[w].work.task.sock)
    ensures var work := s.workers[w].work;
            var ps := s.passes[work.task.sock];
            && OneByOne(WithFate(ps, f), Relaying(work.task, work.camera, work.last, Looking), s.clients.Keys)
            && AllRight(WithFate(ps, f), work.task.sock, s.logs) && Indices(WithFate(ps, f)) == Indices(ps)
            && ps != [] && Ascending(Last(ps).looks) && Last(ps).looks != []
            && Last(Last(ps).looks).fate.Pending? && Last(Last(ps).looks).k == work.last && Last(ps).task == work.task
  {
    hide Shard, AllRight, Covers, Wired;
    var work := s.workers[w].work;
    var ps := s.passes[work.task.sock];
    AtHome(s, w);
    Underway(s, w);
    CallEnds(ps, work, s.clients.Keys, f);
    FateSet(ps, f, work.task.sock, s.logs);
  }

  /** What a step does to the passes of the sender it concerns, if it ends a `SendData` call. */
  lemma CallOverKeepsSender(s: State, s': State, w: int, f: Fate)
    requires Wired(s) && Wired(s') && Passing(s, w)
    requires s.workers[w].work.stage.Wanting? || s.workers[w].work.stage.Holding?
    requires (f.NoBlock? || f.NoSocket? || f.Accepted?) && SenderFits(s, s.workers[w].work.task.sock)
    requires SameStaff(s, s') && s'.logs == s.logs && s'.clients == s.clients
    requires var work := s.workers[w].work;
             && s'.passes == s.passes[work.task.sock := WithFate(s.passes[work.task.sock], f)]
             && s'.workers[w].work == Relaying(work.task, work.camera, work.last, Looking)
    ensures SenderFits(s', s.workers[w].work.task.sock)
  {
    hide Shard, AllRight, Covers, OneByOne, Wired;
    CallEndsInOrder(s, w, f);
    PassGoesOn(s, s', w);
  }

  lemma GrabEffect(s: State, w: int, block: Option<nat>)
    requires Grabbing(s, w)
    ensures block.None? ==> DoGrab(s, w, block) == CallOver(s, w, NoBlock)
    ensures block.Some? && block.value !in s.out.held ==>
              && DoGrab(s, w, block).passes == s.passes
              && DoGrab(s, w, block).workers[w].work == s.workers[w].work.(stage := Holding(block.value))
    ensures block.Some? && block.value in s.out.held ==> DoGrab(s, w, block) == s
  {
    hide CallOver;
  }

  lemma GrabKeepsSender(s: State, w: int, block: Option<nat>)
    requires Wired(s) && Wired(DoGrab(s, w, block)) && Grabbing(s, w) && s.workers[w].work.Relaying?
    requires SenderFits(s, s.workers[w].work.task.sock)
    ensures SenderFits(DoGrab(s, w, block), s.workers[w].work.task.sock)
  {
    hide Shard, AllRight, Covers, Wired, DoGrab, CallOver;
    GrabEffect(s, w, block);
    if block.None? {
      CallOverEffect(s, s.out, w, NoBlock);
      CallOverKeepsSender(s, DoGrab(s, w, block), w, NoBlock);
    } else if block.value !in s.out.held {
      var work := s.workers[w].work;
      AtHome(s, w);
      Underway(s, w);
      CallGoesOn(s.passes[work.task.sock], work, s.clients.Keys, block.value);
      hide OneByOne;
      PassGoesOn(s, DoGrab(s, w, block), w);
    }
  }

  /** Whether the line is there decides what becomes of the block. */
  function FateOf(s: State, w: int): Fate
    requires Delivering(s, w)
  {
    if Target(s, w) in s.out.lines && Target(s, w) in s.out.logs then Accepted else NoSocket
  }

  lemma DeliverEffect(s: State, w: int)
    requires Delivering(s, w)
    ensures CallEnded(s, DoDeliver(s, w), w, FateOf(s, w))
  {
    hide CallOver, CallEnded, Queued, Cargo, GivenBack, Target, WithFate;
    var k, block := Target(s, w), s.workers[w].work.stage.block;
    if k in s.out.lines && k in s.out.logs {
      CallOverEffect(s, Queued(s.out, k, Cargo(s, w), s.workers[w].work.Relaying?, block), w, Accepted);
    } else {
      CallOverEffect(s, GivenBack(s.out, block), w, NoSocket);
    }
  }

  lemma DeliverKeepsSender(s: State, w: int)
    requires Wired(s) && Wired(DoDeliver(s, w)) && Delivering(s, w) && s.workers[w].work.Relaying?
    requires SenderFits(s, s.workers[w].work.task.sock)
    ensures SenderFits(DoDeliver(s, w), s.workers[w].work.task.sock)
  {
    hide Shard, Wired, SenderFits, DoDeliver;
    DeliverEffect(s, w);
    CallOverKeepsSender(s, DoDeliver(s, w), w, FateOf(s, w));
  }

  lemma EndPassEffect(s: State, w: int)
    requires Finishing(s, w)
    ensures var t, s' := s.workers[w].work.task, DoEndPass(s, w);
            s'.passes == s.passes[t.sock := WithEnd(s.passes[t.sock], s.Heard())] && s'.workers[w].work == Freeing(t)
  {
  }

  lemma HeardOfClients(s: State)
    requires Wired(s)
    ensures s.Heard().Keys == s.clients.Keys
    ensures forall k :: k in s.Heard() ==> k in s.logs && s.Heard()[k] == |s.logs[k].executed|
  {
    hide Shard;
    assert forall k :: k in s.clients ==> k in s.logs;
  }

  lemma EndPassKeepsSender(s: State, w: int)
    requires Wired(s) && Wired(DoEndPass(s, w)) && Finishing(s, w) && SenderFits(s, s.workers[w].work.task.sock)
    ensures SenderFits(DoEndPass(s, w), s.workers[w].work.task.sock)
  {
    hide Shard, AllRight, Covers, Wired, DoEndPass;
    var work := s.workers[w].work;
    var a := work.task.sock;
    AtHome(s, w);
    Underway(s, w);
    EndPassEffect(s, w);
    HeardOfClients(s);
    PassEnds(s.passes[a], work, s.clients.Keys, s.Heard(), Idle);
    EndSet(s.passes[a], s.Heard(), a, s.logs);
    hide OneByOne;
    PassGoesOn(s, DoEndPass(s, w), w);
  }

  // ----- what a step does to passes and lines -----

  /** The passes of `a` after a step. */
  function PassesAfter(s: State, e: Event, a: int): seq<Pass>
    requires Staffed(s) && a in s.logs && a in s.passes
  {
    var ps := s.passes[a];
    match e
    case Execute(w) =>
      if Executing(s, w) && s.workers[w].work.task.sock == a
      then Started(s, s.workers[w].work.task, Decode(s.workers[w].work.task.memory)) else ps
    case Visit(w, k) =>
      if Visiting(s, w, k) && s.workers[w].work.task.sock == a then WithLook(ps, LookAt(s, w, k)) else ps
    case Compare(w) =>
      if Halfway(s, w) && s.workers[w].work.task.sock == a then WithLast(ps, Compared(s, w)) else ps
    case Grab(w, block) =>
      if Grabbing(s, w) && block.None? && s.workers[w].work.Relaying? && s.workers[w].work.task.sock == a
      then WithFate(ps, NoBlock) else ps
    case Deliver(w) =>
      if Delivering(s, w) && s.workers[w].work.Relaying? && s.workers[w].work.task.sock == a
      then WithFate(ps, FateOf(s, w)) else ps
    case EndPass(w) =>
      if Finishing(s, w) && s.workers[w].work.task.sock == a then WithEnd(ps, s.Heard()) else ps
    case _ => ps
  }

  lemma ExecutePasses(s: State, w: int, a: int)
    requires Staffed(s) && a in s.logs && a in s.passes
    ensures a in DoExecute(s, w).passes && DoExecute(s, w).passes[a] == PassesAfter(s, Execute(w), a)
  {
    hide Shard, Executing, Started, Remaining, Decode, Begin;
    if Executing(s, w) {
      ExecuteEffect(s, w);
    }
  }

  lemma VisitPasses(s: State, w: int, k: int, a: int)
    requires Staffed(s) && a in s.logs && a in s.passes
    ensures a in DoVisit(s, w, k).passes && DoVisit(s, w, k).passes[a] == PassesAfter(s, Visit(w, k), a)
  {
    hide Shard, Visiting, LookAt, WithLook;
    if Visiting(s, w, k) {
      VisitEffect(s, w, k);
    }
  }

  lemma ComparePasses(s: State, w: int, a: int)
    requires Staffed(s) && a in s.logs && a in s.passes
    ensures a in DoCompare(s, w).passes && DoCompare(s, w).passes[a] == PassesAfter(s, Compare(w), a)
  {
    hide Shard, Compared, WithLast;
    if Halfway(s, w) {
      CompareEffect(s, w);
    }
  }

  lemma GrabPasses(s: State, w: int, block: Option<nat>, a: int)
    requires Staffed(s) && a in s.logs && a in s.passes
    ensures a in DoGrab(s, w, block).passes && DoGrab(s, w, block).passes[a] == PassesAfter(s, Grab(w, block), a)
  {
    hide Shard, WithFate, CallOver;
    if Grabbing(s, w) && block.None? {
      CallOverEffect(s, s.out, w, NoBlock);
    }
  }

  lemma DeliverPasses(s: State, w: int, a: int)
    requires Staffed(s) && a in s.logs && a in s.passes
    ensures a in DoDeliver(s, w).passes && DoDeliver(s, w).passes[a] == PassesAfter(s, Deliver(w), a)
  {
    hide Shard, FateOf, Target, Cargo, WithFate, CallOver, Queued, GivenBack, DoDeliver;
    if Delivering(s, w) {
      DeliverEffect(s, w);
    } else {
      NoDelivery(s, w);
    }
  }

  lemma NoDelivery(s: State, w: int)
    requires !Delivering(s, w)
    ensures DoDeliver(s, w) == s
  {
    hide Delivering, CallOver, Queued, GivenBack, Cargo, Target;
  }

  lemma EndPassPasses(s: State, w: int, a: int)
    requires Staffed(s) && a in s.logs && a in s.passes
    ensures a in DoEndPass(s, w).passes && DoEndPass(s, w).passes[a] == PassesAfter(s, EndPass(w), a)
  {
    hide Shard, WithEnd;
    if Finishing(s, w) {
      EndPassEffect(s, w);
    }
  }

  lemma StepPasses(s: State, e: Event, a: int)
    requires Staffed(s) && a in s.logs && a in s.passes
    ensures a in Step(s, e).passes && Step(s, e).passes[a] == PassesAfter(s, e, a)
  {
    hide Shard, PassesAfter, DoExecute, DoVisit, DoStore, DoCompare, DoGrab, DoDeliver, DoEndPass;
    hide DoRead, DoFetch, DoSave, DoCountUp, DoQuit, DoSend, DoWritable, DoUnplug, DoReclaim, DoTake, DoRelease;
    hide DoCountDown, DoAdmit;
    if !e.Execute? && !e.Visit? && !e.Compare? && !e.Grab? && !e.Deliver? && !e.EndPass? {
      QuietPasses(s, e, a);
      hide Step;
    } else {
      match e
      case Execute(w) => ExecutePasses(s, w, a);
      case Visit(w, k) => VisitPasses(s, w, k, a);
      case Compare(w) => ComparePasses(s, w, a);
      case Grab(w, block) => GrabPasses(s, w, block, a);
      case Deliver(w) => DeliverPasses(s, w, a);
      case EndPass(w) => EndPassPasses(s, w, a);
    }
  }

  lemma QuietPasses(s: State, e: Event, a: int)
    requires Staffed(s) && a in s.logs && a in s.passes
    requires !e.Execute? && !e.Visit? && !e.Compare? && !e.Grab? && !e.Deliver?
    requires !e.EndPass?
    ensures a in Step(s, e).passes && Step(s, e).passes[a] == PassesAfter(s, e, a)
  {
    hide Shard, DoRead, DoFetch, DoSave, DoCountUp, DoQuit, DoSend, DoWritable, DoUnplug, DoReclaim, DoTake;
    hide DoRelease, DoCountDown, DoAdmit;
  }

  /** What a step adds to the line of `b`. */
  function Added(s: State, e: Event, b: int): seq<Out> {
    if e.Deliver? && Delivering(s, e.w) && FateOf(s, e.w).Accepted? && Target(s, e.w) == b then [Cargo(s, e.w)] else []
  }

  lemma StepAccepts(s: State, e: Event, b: int)
    requires Staffed(s) && b in s.out.logs && b in s.logs
    ensures b in Step(s, e).out.logs
    ensures Step(s, e).out.logs[b].accepted == s.out.logs[b].accepted + Added(s, e, b)
  {
    if e.Deliver? {
      hide Step, Added;
      DeliverIsStep(s, e.w);
      DeliverAccepts(s, e.w, b);
    } else {
      assert s.out.logs[b].accepted + [] == s.out.logs[b].accepted;
      hide Step;
      if e.Grab? || e.Send? || e.Writable? || e.Unplug? || e.Reclaim? {
        LineAccepts(s, e, b);
      } else {
        QuietAccepts(s, e, b);
      }
    }
  }

  lemma DeliverIsStep(s: State, w: int)
    requires Staffed(s)
    ensures Step(s, Deliver(w)) == DoDeliver(s, w)
  {
    hide DoDeliver;
  }

  lemma LineAccepts(s: State, e: Event, b: int)
    requires Staffed(s) && b in s.out.logs && (e.Grab? || e.Send? || e.Writable? || e.Unplug? || e.Reclaim?)
    ensures b in Step(s, e).out.logs && Step(s, e).out.logs[b].accepted == s.out.logs[b].accepted
  {
    LineStepIs(s, e);
    hide Step, DoGrab, DoSend, DoReclaim, DoUnplug, DoWritable;
    if e.Grab? {
      GrabAccepts(s, e.w, e.block);
    } else if e.Send? {
      SendAccepts(s, e.k, e.answer, b);
    } else if e.Reclaim? {
      ReclaimAccepts(s, e.k, b);
    } else {
      SocketLogs(s, e.k);
    }
  }

  lemma LineStepIs(s: State, e: Event)
    requires Staffed(s)
    ensures e.Grab? ==> Step(s, e) == DoGrab(s, e.w, e.block)
    ensures e.Send? ==> Step(s, e) == DoSend(s, e.k, e.answer)
    ensures e.Writable? ==> Step(s, e) == DoWritable(s, e.k)
    ensures e.Unplug? ==> Step(s, e) == DoUnplug(s, e.k)
    ensures e.Reclaim? ==> Step(s, e) == DoReclaim(s, e.k)
  {
    hide DoGrab, DoSend, DoReclaim, DoUnplug, DoWritable;
  }

  lemma QuietAccepts(s: State, e: Event, b: int)
    requires Staffed(s) && b in s.out.logs && b in s.logs
    requires !e.Deliver? && !e.Grab? && !e.Send? && !e.Writable? && !e.Unplug? && !e.Reclaim?
    ensures b in Step(s, e).out.logs && Step(s, e).out.logs[b] == s.out.logs[b]
  {
    hide Shard, DoRead, DoFetch, DoSave, DoCountUp, DoQuit, DoTake, DoExecute, DoVisit, DoStore, DoCompare, DoEndPass,
         DoRelease;
    hide DoCountDown, DoAdmit;
  }

  lemma DeliverAccepts(s: State, w: int, b: int)
    requires b in s.out.logs
    ensures b in DoDeliver(s, w).out.logs
    ensures DoDeliver(s, w).out.logs[b].accepted == s.out.logs[b].accepted + Added(s, Deliver(w), b)
  {
    hide Cargo, Target, DoDeliver, Delivering;
    assert s.out.logs[b].accepted + [] == s.out.logs[b].accepted;
    if !Delivering(s, w) {
      NoDelivery(s, w);
    } else if Target(s, w) in s.out.lines && Target(s, w) in s.out.logs {
      Line.DeliverQueues(s, w);
    } else {
      Line.DeliverReturns(s, w);
    }
  }

  lemma GrabAccepts(s: State, w: int, block: Option<nat>)
    ensures DoGrab(s, w, block).out.logs == s.out.logs
  {
    hide CallOver;
  }

  lemma SocketLogs(s: State, k: int)
    ensures DoWritable(s, k).out.logs == s.out.logs && DoUnplug(s, k).out.logs == s.out.logs
  {
  }

  lemma SendAccepts(s: State, k: int, answer: int, b: int)
    requires b in s.out.logs
    ensures var o := DoSend(s, k, answer).out; b in o.logs && o.logs[b].accepted == s.out.logs[b].accepted
  {
    hide Outbound.SendOnce;
  }

  lemma ReclaimAccepts(s: State, k: int, b: int)
    requires b in s.out.logs
    ensures var o := DoReclaim(s, k).out; b in o.logs && o.logs[b].accepted == s.out.logs[b].accepted
  {
  }

  // ----- every step keeps the routing -----

  /** The step is part of a pass of `a`, or starts one. */
  predicate Concerns(s: State, e: Event, a: int) {
    && (e.Execute? || e.Visit? || e.Compare? || e.Grab? || e.Deliver? || e.EndPass?)
    && 0 <= e.w < |s.workers| && !s.workers[e.w].work.Idle? && s.workers[e.w].work.task.sock == a
  }

  lemma ConcernedSender(s: State, e: Event, a: int)
    requires Wired(s) && Wired(Step(s, e)) && Current(s) && SenderFits(s, a) && Concerns(s, e, a)
    ensures SenderFits(Step(s, e), a)
  {
    hide Shard, SenderFits, Current, Wired, DoExecute, DoVisit, DoStore, DoCompare, DoGrab, DoDeliver, DoEndPass;
    match e
    case Execute(w) => ConcernedByExecute(s, w);
    case Visit(w, k) => ConcernedByVisit(s, w, k);
    case Compare(w) => ConcernedByCompare(s, w);
    case Grab(w, block) => ConcernedByGrab(s, w, block);
    case Deliver(w) => ConcernedByDeliver(s, w);
    case EndPass(w) => ConcernedByEndPass(s, w);
    case _ =>
  }

  lemma ConcernedByExecute(s: State, w: int)
    requires Wired(s) && Wired(DoExecute(s, w)) && Current(s)
    requires 0 <= w < |s.workers| && !s.workers[w].work.Idle? && SenderFits(s, s.workers[w].work.task.sock)
    ensures SenderFits(DoExecute(s, w), s.workers[w].work.task.sock)
  {
    hide Shard, SenderFits, Current, Wired;
    if Executing(s, w) {
      ExecuteKeepsSender(s, w);
    }
  }

  lemma ConcernedByVisit(s: State, w: int, k: int)
    requires Wired(s) && Wired(DoVisit(s, w, k)) && Current(s)
    requires 0 <= w < |s.workers| && !s.workers[w].work.Idle? && SenderFits(s, s.workers[w].work.task.sock)
    ensures SenderFits(DoVisit(s, w, k), s.workers[w].work.task.sock)
  {
    hide Shard, SenderFits, Current, Wired;
    if Visiting(s, w, k) {
      VisitKeepsSender(s, w, k);
    }
  }

  lemma ConcernedByCompare(s: State, w: int)
    requires Wired(s) && Wired(DoCompare(s, w)) && Current(s)
    requires 0 <= w < |s.workers| && !s.workers[w].work.Idle? && SenderFits(s, s.workers[w].work.task.sock)
    ensures SenderFits(DoCompare(s, w), s.workers[w].work.task.sock)
  {
    hide Shard, SenderFits, Current, Wired;
    if Halfway(s, w) {
      CompareKeepsSender(s, w);
    }
  }

  lemma ConcernedByGrab(s: State, w: int, block: Option<nat>)
    requires Wired(s) && Wired(DoGrab(s, w, block))
    requires 0 <= w < |s.workers| && !s.workers[w].work.Idle? && SenderFits(s, s.workers[w].work.task.sock)
    ensures SenderFits(DoGrab(s, w, block), s.workers[w].work.task.sock)
  {
    hide Shard, SenderFits, Wired;
    if Grabbing(s, w) && s.workers[w].work.Relaying? {
      GrabKeepsSender(s, w, block);
    } else {
      AckingGrab(s, w, block);
      AckingKeepsSender(s, DoGrab(s, w, block), w);
    }
  }

  lemma AckingGrab(s: State, w: int, block: Option<nat>)
    requires 0 <= w < |s.workers| && !(Grabbing(s, w) && s.workers[w].work.Relaying?)
    ensures DoGrab(s, w, block) == s || (s.workers[w].work.Acking? && !DoGrab(s, w, block).workers[w].work.Relaying?)
    ensures DoGrab(s, w, block).passes == s.passes
  {
  }

  lemma ConcernedByDeliver(s: State, w: int)
    requires Wired(s) && Wired(DoDeliver(s, w))
    requires 0 <= w < |s.workers| && !s.workers[w].work.Idle? && SenderFits(s, s.workers[w].work.task.sock)
    ensures SenderFits(DoDeliver(s, w), s.workers[w].work.task.sock)
  {
    hide Shard, SenderFits, Wired, DoDeliver;
    if !Delivering(s, w) {
      NoDelivery(s, w);
    } else if s.workers[w].work.Relaying? {
      DeliverKeepsSender(s, w);
    } else {
      DeliverEffect(s, w);
      AckingKeepsSender(s, DoDeliver(s, w), w);
    }
  }

  /** A step of a login acknowledgement. */
  lemma AckingKeepsSender(s: State, s': State, w: int)
    requires Wired(s) && Wired(s') && SameStaff(s, s') && 0 <= w < |s.workers| && !s.workers[w].work.Idle?
    requires SenderFits(s, s.workers[w].work.task.sock)
    requires s' == s || (s.workers[w].work.Acking? && !s'.workers[w].work.Relaying?)
    requires s'.passes == s.passes && s'.logs == s.logs && s'.clients == s.clients
    ensures SenderFits(s', s.workers[w].work.task.sock)
  {
    hide Shard, AllRight, OneByOne, Wired;
    AtHome(s, w);
  }

  lemma ConcernedByEndPass(s: State, w: int)
    requires Wired(s) && Wired(DoEndPass(s, w))
    requires 0 <= w < |s.workers| && !s.workers[w].work.Idle? && SenderFits(s, s.workers[w].work.task.sock)
    ensures SenderFits(DoEndPass(s, w), s.workers[w].work.task.sock)
  {
    hide Shard, SenderFits, Wired;
    if Finishing(s, w) {
      EndPassKeepsSender(s, w);
    }
  }

  lemma WorkForOther(s: State, e: Event, a: int)
    requires Wired(s) && a >= 0 && !Concerns(s, e, a)
    ensures WorkFor(Step(s, e), a) == WorkFor(s, a)
  {
    hide Shard, Step;
    var h := s.Home(a);
    if Actor(e) != Some(h) {
      OtherWork(s, e, h);
    } else {
      WorkForSelf(s, e, a);
    }
  }

  /** The worker's own step that is no part of a pass of `a`. */
  lemma WorkForSelf(s: State, e: Event, a: int)
    requires Wired(s) && a >= 0 && !Concerns(s, e, a) && Actor(e) == Some(s.Home(a))
    ensures WorkFor(Step(s, e), a) == WorkFor(s, a)
  {
    hide Shard, DoExecute, DoVisit, DoCompare, DoGrab, DoDeliver, DoEndPass;
  }

  lemma StepDeeds(s: State, e: Event, a: int)
    requires Staffed(s) && a in s.logs && !Concerns(s, e, a)
    ensures a in Step(s, e).logs && Step(s, e).logs[a].executed == s.logs[a].executed
  {
    hide Shard, DoAccept, DoAdmit, DoRead, DoFetch, DoSave, DoCountUp, DoQuit, DoSend, DoWritable, DoUnplug, DoReclaim;
    hide DoTake, DoVisit, DoStore, DoCompare, DoGrab, DoDeliver, DoEndPass, DoRelease, DoCountDown;
    hide Started, Remaining, Decode, Begin;
  }

  lemma UnconcernedPasses(s: State, e: Event, a: int)
    requires Staffed(s) && a in s.logs && a in s.passes && !Concerns(s, e, a)
    ensures PassesAfter(s, e, a) == s.passes[a]
  {
    hide Shard, Started, LookAt, WithLook, WithFate, WithEnd, FateOf;
  }

  /** A sender that is only now accepted. */
  lemma NewSender(s: State, e: Event, a: int)
    requires Wired(s) && Wired(Step(s, e)) && a in Step(s, e).logs && a !in s.logs
    ensures SenderFits(Step(s, e), a)
    ensures Step(s, e).passes[a] == [] && a in Step(s, e).out.logs && Step(s, e).out.logs[a].accepted == []
    ensures forall b :: b in s.out.logs ==> b in Step(s, e).out.logs && Step(s, e).out.logs[b] == s.out.logs[b]
  {
    hide Shard;
    KnownConnections(s, e);
    var h := s.Home(a);
    if !s.workers[h].work.Idle? {
      AtHome(s, h);
    }
  }

  lemma Unadmitted(s: State, a: int)
    requires Wired(s) && Current(s) && a in s.logs
    ensures !s.logs[a].admitted ==> s.logs[a].executed == []
  {
  }

  lemma StepKeepsSender(s: State, e: Event, a: int)
    requires Wired(s) && Wired(Step(s, e)) && Current(s) && Routed(s) && a in Step(s, e).logs
    ensures SenderFits(Step(s, e), a)
  {
    hide Shard, Step, SenderFits, PassesAfter, Current, PairFits, AllGenuine;
    if a !in s.logs {
      NewSender(s, e, a);
    } else if Concerns(s, e, a) {
      ConcernedSender(s, e, a);
    } else {
      StepPasses(s, e, a);
      UnconcernedPasses(s, e, a);
      StepDeeds(s, e, a);
      WorkForOther(s, e, a);
      StepForward(s, e);
      Unadmitted(s, a);
      OtherSender(s, e, a);
    }
  }

  // ----- every step keeps what the clients were given in step with the passes -----

  /** The pass whose buffer a worker is sending. */
  lemma PassInHand(s: State, w: int)
    requires Wired(s) && 0 <= w < |s.workers| && s.workers[w].work.Relaying?
    requires s.workers[w].work.stage.Wanting? || s.workers[w].work.stage.Holding?
    requires SenderFits(s, s.workers[w].work.task.sock)
    ensures var work := s.workers[w].work;
            var ps := s.passes[work.task.sock];
            && ps != [] && Last(ps).task == work.task && Last(ps).looks != [] && Ascending(Last(ps).looks)
            && Last(Last(ps).looks).fate.Pending? && Last(Last(ps).looks).k == work.last
  {
    hide Shard, Wired;
    Underway(s, w);
  }

  lemma GivenBySteps(s: State, e: Event, a: int, b: int)
    requires Wired(s) && a in s.logs && b in s.logs && SenderFits(s, a)
    ensures a in s.passes
    ensures GivenTo(PassesAfter(s, e, a), b) == GivenTo(s.passes[a], b) + Taken(Added(s, e, b), a)
  {
    assert a in s.passes && Taken([], a) == [];
    hide Shard, SenderFits, Wired, GivenTo, Taken, PassesAfter;
    assert GivenTo(s.passes[a], b) + [] == GivenTo(s.passes[a], b);
    match e
    case Execute(w) => ExecuteGives(s, w, a, b);
    case Visit(w, k) => VisitGives(s, w, k, a, b);
    case Compare(w) => CompareGives(s, w, a, b);
    case Grab(w, block) => GrabGives(s, w, block, a, b);
    case Deliver(w) => DeliveryGives(s, w, a, b);
    case EndPass(w) => EndPassGives(s, w, a, b);
    case _ => QuietGives(s, e, a);
  }

  lemma QuietGives(s: State, e: Event, a: int)
    requires Staffed(s) && a in s.logs && a in s.passes
    requires !e.Execute? && !e.Visit? && !e.Compare? && !e.Grab? && !e.Deliver?
    requires !e.EndPass?
    ensures PassesAfter(s, e, a) == s.passes[a]
  {
  }

  lemma ExecuteGives(s: State, w: int, a: int, b: int)
    requires Staffed(s) && a in s.logs && a in s.passes
    ensures GivenTo(PassesAfter(s, Execute(w), a), b) == GivenTo(s.passes[a], b)
  {
    hide Shard, Decode, Remaining, GivenTo, Started;
    if Executing(s, w) && s.workers[w].work.task.sock == a {
      StartGivesNothing(s, s.workers[w].work.task, b);
    }
  }

  lemma VisitGives(s: State, w: int, k: int, a: int, b: int)
    requires Staffed(s) && a in s.logs && a in s.passes
    ensures GivenTo(PassesAfter(s, Visit(w, k), a), b) == GivenTo(s.passes[a], b)
  {
    hide Shard, GivenTo, WithLook;
    if Visiting(s, w, k) {
      LookGivesNothing(s.passes[a], LookAt(s, w, k), b);
    }
  }

  lemma CompareGives(s: State, w: int, a: int, b: int)
    requires Wired(s) && a in s.logs && a in s.passes && SenderFits(s, a)
    ensures GivenTo(PassesAfter(s, Compare(w), a), b) == GivenTo(s.passes[a], b)
  {
    hide Shard, SenderFits, Wired, GivenTo, WithLast, PassRight;
    if Halfway(s, w) && s.workers[w].work.task.sock == a {
      LookInHand(s, w);
      LastGives(s.passes[a], Compared(s, w), b);
    }
  }

  lemma GrabGives(s: State, w: int, block: Option<nat>, a: int, b: int)
    requires Wired(s) && a in s.logs && a in s.passes && SenderFits(s, a)
    ensures GivenTo(PassesAfter(s, Grab(w, block), a), b) == GivenTo(s.passes[a], b)
  {
    hide Shard, SenderFits, Wired, GivenTo, WithFate;
    if Grabbing(s, w) && s.workers[w].work.Relaying? && s.workers[w].work.task.sock == a {
      PassInHand(s, w);
      FateGives(s.passes[a], NoBlock, b);
    }
  }

  lemma EndPassGives(s: State, w: int, a: int, b: int)
    requires Staffed(s) && a in s.logs && a in s.passes
    ensures GivenTo(PassesAfter(s, EndPass(w), a), b) == GivenTo(s.passes[a], b)
  {
    hide Shard, GivenTo, WithEnd;
    EndGivesNothing(s.passes[a], s.Heard(), b);
  }

  lemma StartGivesNothing(s: State, t: Task, b: int)
    requires t.sock in s.logs && t.sock in s.passes && t.Valid()
    ensures GivenTo(Started(s, t, Decode(t.memory)), b) == GivenTo(s.passes[t.sock], b)
  {
    hide Decode, Remaining;
    var ps := s.passes[t.sock];
    if Remaining(s, t, Decode(t.memory)).Relaying? {
      GivenSnoc(ps, Last(Started(s, t, Decode(t.memory))), b);
    }
  }

  lemma TakenOfOne(o: Out, a: int)
    ensures Taken([o], a) == if o.source.Relayed? && o.source.sender == a then [o.source.pass] else []
  {
    TakenSnoc([], o, a);
    assert [] + [o] == [o];
  }

  /** The worker delivers a picture of `a`. */
  predicate Shipping(s: State, w: int, a: int) {
    Delivering(s, w) && s.workers[w].work.Relaying? && s.workers[w].work.task.sock == a
  }

  lemma TakenByDelivery(s: State, w: int, a: int, b: int)
    ensures Taken(Added(s, Deliver(w), b), a)
         == if Shipping(s, w, a) && FateOf(s, w).Accepted? && Target(s, w) == b then [|s.passes[a]| - 1] else []
  {
    if Added(s, Deliver(w), b) == [] {
      hide Cargo;
      NothingDelivered(s, w, b);
    } else {
      hide Taken;
      TakenOfOne(Cargo(s, w), a);
    }
  }

  lemma NothingDelivered(s: State, w: int, b: int)
    requires Added(s, Deliver(w), b) == []
    ensures !(Delivering(s, w) && FateOf(s, w).Accepted? && Target(s, w) == b)
  {
  }

  lemma DeliveryGives(s: State, w: int, a: int, b: int)
    requires Wired(s) && a in s.logs && a in s.passes && SenderFits(s, a)
    ensures GivenTo(PassesAfter(s, Deliver(w), a), b) == GivenTo(s.passes[a], b) + Taken(Added(s, Deliver(w), b), a)
  {
    hide Shard, SenderFits, Wired, GivenTo, WithFate, Taken, Added, FateOf, Target;
    var ps := s.passes[a];
    assert GivenTo(ps, b) + [] == GivenTo(ps, b);
    TakenByDelivery(s, w, a, b);
    if Shipping(s, w, a) {
      PassInHand(s, w);
      TargetIsLast(s, w);
      FateGives(ps, FateOf(s, w), b);
    }
  }

  lemma TargetIsLast(s: State, w: int)
    requires Delivering(s, w) && s.workers[w].work.Relaying?
    ensures Target(s, w) == s.workers[w].work.last && !FateOf(s, w).Pending?
  {
  }

  lemma {:induction false} TakenConcat(x: seq<Out>, y: seq<Out>, a: int)
    ensures Taken(x + y, a) == Taken(x, a) + Taken(y, a)
    decreases |y|
  {
    if y == [] {
      assert x + y == x;
    } else {
      assert Front(x + y) == x + Front(y) && Last(x + y) == Last(y);
      TakenConcat(x, Front(y), a);
    }
  }

  lemma StepKeepsPair(s: State, e: Event, a: int, b: int)
    requires Wired(s) && Wired(Step(s, e)) && Routed(s) && a in Step(s, e).logs && b in Step(s, e).logs
    ensures PairFits(Step(s, e), a, b)
  {
    hide Shard, Step, SenderFits, PassesAfter, Added, GivenTo, Taken;
    if a in s.logs && b in s.logs {
      assert PairFits(s, a, b);
      StepPasses(s, e, a);
      StepAccepts(s, e, b);
      GivenBySteps(s, e, a, b);
      TakenConcat(s.out.logs[b].accepted, Added(s, e, b), a);
    } else {
      NewPair(s, e, a, b);
    }
  }

  lemma NewPair(s: State, e: Event, a: int, b: int)
    requires Wired(s) && Wired(Step(s, e)) && Routed(s) && a in Step(s, e).logs && b in Step(s, e).logs
    requires a !in s.logs || b !in s.logs
    ensures PairFits(Step(s, e), a, b)
  {
    hide Shard, Step, PassesAfter;
    KnownConnections(s, e);
    var s' := Step(s, e);
    if a !in s.logs {
      NewSender(s, e, a);
      if b in s.logs {
        forall o | o in s.out.logs[b].accepted && o.source.Relayed? ensures o.source.sender != a {
          assert Genuine(o, s.passes);
        }
        NothingTaken(s.out.logs[b].accepted, a);
      }
    } else {
      NewSender(s, e, b);
      StepPasses(s, e, a);
      UnconcernedPasses(s, e, a);
      assert SenderFits(s, a);
      forall p, l | p in s.passes[a] && l in p.looks ensures l.k != b {
        LooksKnown(s.passes[a], p, l, a, s.logs);
      }
      NobodyGiven(s.passes[a], b);
    }
  }

  lemma LooksKnown(ps: seq<Pass>, p: Pass, l: Look, a: int, logs: map<int, Log>)
    requires a in logs && AllRight(ps, a, logs) && p in ps && l in p.looks
    ensures l.k in logs
  {
    hide KindSetTo, CameraSetTo, IsPicture;
    var i :| 0 <= i < |ps| && ps[i] == p;
    assert PassRight(ps[i], a, logs);
  }

  lemma StepLengthens(s: State, e: Event, a: int)
    requires Staffed(s) && a in s.logs && a in s.passes
    ensures a in Step(s, e).passes && Lengthened(s.passes[a], Step(s, e).passes[a])
  {
    hide Shard, Step, WithLook, WithLast, WithFate, WithEnd, LookAt, Compared, FateOf, Remaining, Decode;
    StepPasses(s, e, a);
    match e
    case Visit(w, k) => if Visiting(s, w, k) { ChangesLengthen(s.passes[a], LookAt(s, w, k), NoBlock, map[]); }
    case Compare(w) => if Halfway(s, w) { ChangesLengthen(s.passes[a], Compared(s, w), NoBlock, map[]); }
    case Deliver(w) => if Delivering(s, w) { ChangesLengthen(s.passes[a], Look(0, 0, 0, None, 0, NoBlock), FateOf(s,
      w), map[]); }
    case _ => ChangesLengthen(s.passes[a], Look(0, 0, 0, None, 0, NoBlock), NoBlock, s.Heard());
  }

  /** The buffer being sent is the frame of the pass it names. */
  lemma CargoIsGenuine(s: State, w: int)
    requires Wired(s) && Routed(s) && Delivering(s, w)
    ensures Genuine(Cargo(s, w), s.passes)
  {
    hide Shard, AllGenuine, PairFits, AllRight, Covers, OneByOne;
    if s.workers[w].work.Relaying? {
      AtHome(s, w);
      PassInHand(s, w);
    }
  }

  lemma StepKeepsGenuine(s: State, e: Event)
    requires Wired(s) && Wired(Step(s, e)) && Routed(s)
    ensures AllGenuine(Step(s, e))
  {
    hide Shard, Step, SenderFits, PairFits, Genuine, Lengthened, Cargo;
    var s' := Step(s, e);
    KnownConnections(s, e);
    forall a | a in s.passes ensures a in s'.passes && Lengthened(s.passes[a], s'.passes[a]) {
      StepLengthens(s, e, a);
    }
    forall b, o | b in s'.out.logs && o in s'.out.logs[b].accepted ensures Genuine(o, s'.passes) {
      if b in s.logs {
        StepAccepts(s, e, b);
        if o !in s.out.logs[b].accepted {
          CargoIsGenuine(s, e.w);
        }
        StaysGenuine(o, s.passes, s'.passes);
      } else {
        NewSender(s, e, b);
      }
    }
  }

  // ----- who is gone stays gone -----

  lemma ChangesKeepAllGone(s: State, e: Event, a: int)
    requires Wired(s) && a in s.logs && SenderFits(s, a) && Gone(s.passes[a], s.out.lines.Keys)
    ensures Gone(PassesAfter(s, e, a), s.out.lines.Keys)
  {
    assert a in s.passes;
    hide Shard, SenderFits, Wired, Gone, PassesAfter;
    match e
    case Execute(w) => ExecuteKeepsGone(s, w, a);
    case Visit(w, k) => VisitKeepsGone(s, w, k, a);
    case Compare(w) => CompareKeepsGone(s, w, a);
    case Grab(w, block) => GrabKeepsGone(s, w, block, a);
    case Deliver(w) => DeliveryKeepsGone(s, w, a);
    case EndPass(w) => EndPassKeepsGone(s, w, a);
    case _ => QuietGives(s, e, a);
  }

  lemma ExecuteKeepsGone(s: State, w: int, a: int)
    requires Staffed(s) && a in s.logs && a in s.passes && Gone(s.passes[a], s.out.lines.Keys)
    ensures Gone(PassesAfter(s, Execute(w), a), s.out.lines.Keys)
  {
    hide Shard, Decode, Remaining;
  }

  lemma VisitKeepsGone(s: State, w: int, k: int, a: int)
    requires Staffed(s) && a in s.logs && a in s.passes && Gone(s.passes[a], s.out.lines.Keys)
    ensures Gone(PassesAfter(s, Visit(w, k), a), s.out.lines.Keys)
  {
    hide Shard, WithLook, Gone;
    if Visiting(s, w, k) {
      ChangesKeepGone(s.passes[a], LookAt(s, w, k), map[], s.out.lines.Keys);
    }
  }

  lemma CompareKeepsGone(s: State, w: int, a: int)
    requires Staffed(s) && a in s.logs && a in s.passes && Gone(s.passes[a], s.out.lines.Keys)
    requires SenderFits(s, a) && Wired(s)
    ensures Gone(PassesAfter(s, Compare(w), a), s.out.lines.Keys)
  {
    hide Shard, WithLast, Gone, SenderFits, Wired, PassRight;
    if Halfway(s, w) && s.workers[w].work.task.sock == a {
      LookInHand(s, w);
      LastKeepsGone(s.passes[a], Compared(s, w), s.out.lines.Keys);
    }
  }

  lemma GrabKeepsGone(s: State, w: int, block: Option<nat>, a: int)
    requires Staffed(s) && a in s.logs && a in s.passes && Gone(s.passes[a], s.out.lines.Keys)
    ensures Gone(PassesAfter(s, Grab(w, block), a), s.out.lines.Keys)
  {
    hide Shard, WithFate, Gone;
    FateKeepsGone(s.passes[a], NoBlock, s.out.lines.Keys);
  }

  lemma EndPassKeepsGone(s: State, w: int, a: int)
    requires Staffed(s) && a in s.logs && a in s.passes && Gone(s.passes[a], s.out.lines.Keys)
    ensures Gone(PassesAfter(s, EndPass(w), a), s.out.lines.Keys)
  {
    hide Shard, WithEnd, Gone;
    ChangesKeepGone(s.passes[a], Look(0, 0, 0, None, 0, NoBlock), s.Heard(), s.out.lines.Keys);
  }

  lemma DeliveryKeepsGone(s: State, w: int, a: int)
    requires Wired(s) && a in s.logs && a in s.passes && SenderFits(s, a) && Gone(s.passes[a], s.out.lines.Keys)
    ensures Gone(PassesAfter(s, Deliver(w), a), s.out.lines.Keys)
  {
    hide Shard, SenderFits, Wired, WithFate, FateOf, Gone;
    if Shipping(s, w, a) {
      DeliverKeepsGone(s, w);
    }
  }

  lemma DeliverKeepsGone(s: State, w: int)
    requires Wired(s) && Delivering(s, w) && s.workers[w].work.Relaying?
    requires var a := s.workers[w].work.task.sock; SenderFits(s, a) && Gone(s.passes[a], s.out.lines.Keys)
    ensures Gone(WithFate(s.passes[s.workers[w].work.task.sock], FateOf(s, w)), s.out.lines.Keys)
  {
    assert s.out.logs.Keys == s.logs.Keys;
    hide Shard, SenderFits, Wired, WithFate;
    PassInHand(s, w);
    TargetIsLast(s, w);
    TargetKnown(s, w);
    FateKeepsGone(s.passes[s.workers[w].work.task.sock], FateOf(s, w), s.out.lines.Keys);
  }

  lemma TargetKnown(s: State, w: int)
    requires Wired(s) && Delivering(s, w) && s.workers[w].work.Relaying? && SenderFits(s, s.workers[w].work.task.sock)
    ensures Target(s, w) in s.out.logs
  {
    hide Shard;
    AtHome(s, w);
    var a := s.workers[w].work.task.sock;
    var ps := s.passes[a];
    PassInHand(s, w);
    LooksKnown(ps, Last(ps), Last(Last(ps).looks), a, s.logs);
  }

  lemma LinesShrink(s: State, e: Event)
    requires Staffed(s)
    ensures Step(s, e).out.lines.Keys <= s.out.lines.Keys + if e.Accept? && e.k !in s.logs then {e.k} else {}
  {
    hide Shard, DoAdmit, DoRead, DoFetch, DoSave, DoCountUp, DoQuit, DoTake, DoExecute, DoVisit, DoStore, DoCompare,
         DoEndPass, DoRelease;
    hide DoCountDown;
    hide DoGrab, DoDeliver, DoSend, DoReclaim;
    if e.Grab? {
      GrabLines(s, e.w, e.block);
    } else if e.Deliver? {
      DeliverLines(s, e.w);
    } else if e.Send? || e.Reclaim? {
      SocketLines(s, e.k, if e.Send? then e.answer else 0);
    }
  }

  lemma GrabLines(s: State, w: int, block: Option<nat>)
    ensures DoGrab(s, w, block).out.lines == s.out.lines
  {
    hide CallOver;
  }

  lemma DeliverLines(s: State, w: int)
    ensures DoDeliver(s, w).out.lines.Keys == s.out.lines.Keys
  {
    hide CallOver, Cargo, DoDeliver, Delivering, Target;
    if !Delivering(s, w) {
      NoDelivery(s, w);
    } else if Target(s, w) in s.out.lines && Target(s, w) in s.out.logs {
      Line.DeliverQueues(s, w);
    } else {
      Line.DeliverReturns(s, w);
    }
  }

  lemma SocketLines(s: State, k: int, answer: int)
    ensures DoSend(s, k, answer).out.lines.Keys == s.out.lines.Keys && DoReclaim(s, k).out.lines == s.out.lines
  {
    hide Outbound.SendOnce;
  }

  lemma StepKeepsGone(s: State, e: Event, a: int)
    requires Wired(s) && Wired(Step(s, e)) && Routed(s) && a in Step(s, e).logs
    ensures Gone(Step(s, e).passes[a], Step(s, e).out.lines.Keys)
  {
    hide Shard, Step, SenderFits, PairFits, AllGenuine, PassesAfter;
    if a in s.logs {
      StepPasses(s, e, a);
      ChangesKeepAllGone(s, e, a);
      LinesShrink(s, e);
      if e.Accept? {
        AcceptKeepsGone(s, e.k, a);
      }
    } else {
      NewSender(s, e, a);
    }
  }

  lemma AcceptKeepsGone(s: State, k: int, a: int)
    requires Wired(s) && a in s.logs && SenderFits(s, a)
    ensures PassesAfter(s, Accept(k), a) == s.passes[a]
    ensures k !in s.logs ==> forall i, l :: 0 <= i < |s.passes[a]| && l in s.passes[a][i].looks ==> l.k != k
  {
    forall i, l | 0 <= i < |s.passes[a]| && l in s.passes[a][i].looks ensures l.k in s.logs {
      LooksKnown(s.passes[a], s.passes[a][i], l, a, s.logs);
    }
  }

  lemma StepKeepsRouted(s: State, e: Event)
    requires Wired(s) && Wired(Step(s, e)) && Current(s) && Routed(s)
    ensures Routed(Step(s, e))
  {
    hide Shard, Step, SenderFits, PairFits, AllGenuine, Gone;
    var s' := Step(s, e);
    forall a | a in s'.logs ensures SenderFits(s', a) {
      StepKeepsSender(s, e, a);
    }
    forall a, b | a in s'.logs && b in s'.logs ensures PairFits(s', a, b) {
      StepKeepsPair(s, e, a, b);
    }
    forall a | a in s'.logs ensures Gone(s'.passes[a], s'.out.lines.Keys) {
      StepKeepsGone(s, e, a);
    }
    StepKeepsGenuine(s, e);
  }
}
