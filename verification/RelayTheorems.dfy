/**
 What holds in every run of the relay, whatever the network delivers, however the kernel answers and
 however the threads interleave.
 */
module RelayTheorems {
  import opened Prelude
  import opened FrameParser
  import opened Outbound
  import opened Sessions
  import opened Relay
  import opened RelayInbound
  import opened RelayPasses
  import opened RelayPool
  import Connection = RelayConnection
  import Line = RelayLine
  import Routing = RelayRouting

  ghost predicate AllSound(s: State)
    requires Wired(s)
  {
    forall k :: k in s.logs ==> Connection.Sound(Connection.View(s, k))
  }

  ghost predicate Inv(s: State) {
    Wired(s) && AllSound(s) && Line.LinesConserved(s.out) && Line.HandsExact(s) && PoolExact(s) && Routing.Routed(s)
  }

  lemma StartHolds(n: nat)
    requires n > 0
    ensures Inv(Start(n))
  {
    var s := Start(n);
    forall w | 0 <= w < n ensures TasksHold(s, w) {
      assert Blocks(s.workers[w].Holding()) == [] && OutTo(s.recvHeld, WithWorker(w)) == {};
    }
    assert forall r :: 0 <= r < n ==> OutTo(s.recvHeld, WithReceiver(r)) == {};
    assert forall w :: 0 <= w < n ==> OutTo(s.out.held, WithWorker(w)) == {};
  }

  lemma {:induction false} NoneOf(tasks: seq<Task>, k: int)
    requires forall t :: t in tasks ==> t.sock != k
    ensures Connection.Of(tasks, k) == []
    decreases |tasks|
  {
    if tasks != [] {
      assert Last(tasks) in tasks;
      NoneOf(Front(tasks), k);
    }
  }

  lemma AcceptedIsFresh(s: State, k: int)
    requires Wired(s) && k !in s.logs && k in DoAccept(s, k).logs
    ensures Connection.Fresh(Connection.View(DoAccept(s, k), k))
  {
    hide Shard;
    var h := s.Home(k);
    assert DoAccept(s, k).workers == s.workers && DoAccept(s, k).receivers == s.receivers;
    assert ReceiverFits(s, h);
    forall t | t in s.workers[h].Unfinished() ensures t.sock != k {
      assert TaskFits(s, h, t);
    }
    NoneOf(s.workers[h].Unfinished(), k);
    if !s.workers[h].work.Idle? {
      assert s.workers[h].work.task in s.workers[h].Unfinished();
    }
  }

  lemma StepKeepsSound(s: State, e: Event)
    requires Wired(s) && AllSound(s) && Wired(Step(s, e))
    ensures AllSound(Step(s, e))
  {
    hide Shard, Step, Connection.Sound, Connection.View, Connection.Fresh, Connection.Apply;
    forall k | k in Step(s, e).logs ensures Connection.Sound(Connection.View(Step(s, e), k)) {
      if k in s.logs {
        Connection.StepMoves(s, e, k);
        Connection.MoveKeepsSound(Connection.View(s, k), Connection.MoveOf(s, e, k));
      } else {
        KnownConnections(s, e);
        AcceptIsStep(s, e);
        AcceptedIsFresh(s, k);
        Connection.FreshIsSound(Connection.View(Step(s, e), k));
      }
    }
  }

  lemma AcceptIsStep(s: State, e: Event)
    requires Staffed(s) && e.Accept?
    ensures Step(s, e) == DoAccept(s, e.k)
  {
  }

  lemma SoundIsCurrent(s: State)
    requires Wired(s) && AllSound(s)
    ensures Routing.Current(s)
  {
    hide Shard, Connection.Settled, Parse, Connection.Frames, Subseq;
    forall k | k in s.logs ensures !s.logs[k].admitted ==> s.logs[k].executed == [] {
      assert Connection.Sound(Connection.View(s, k));
    }
    forall k | k in s.clients
      ensures KindSetTo(s.clients[k].kind, s.logs[k].executed) && CameraSetTo(s.clients[k].camera, s.logs[k].stored)
    {
      assert Connection.UpToDate(Connection.View(s, k));
    }
    forall k | k in s.logs ensures Connection.InStore(Connection.View(s, k)) {
      assert Connection.Sound(Connection.View(s, k));
    }
  }

  lemma StepKeepsInv(s: State, e: Event)
    requires Inv(s)
    ensures Inv(Step(s, e))
  {
    assert s.out.logs.Keys == s.logs.Keys;
    hide Step, Wired, AllSound, Line.LinesConserved, Line.HandsExact, PoolExact, Routing.Routed, Routing.Current;
    StepKeepsWiring(s, e);
    StepKeepsSound(s, e);
    Line.StepKeepsLines(s, e);
    Line.StepKeepsHands(s, e);
    StepKeepsPool(s, e);
    SoundIsCurrent(s);
    Routing.StepKeepsRouted(s, e);
  }

  lemma {:induction false} RunKeepsInv(s: State, events: seq<Event>)
    requires Inv(s)
    ensures Inv(Run(s, events))
    decreases events
  {
    assert Staffed(s);
    hide Inv, Step;
    if events != [] {
      StepKeepsInv(s, events[0]);
      RunKeepsInv(Step(s, events[0]), events[1..]);
    }
  }

  /** One more step at the end of a run. */
  lemma {:induction false} RunSnoc(s: State, events: seq<Event>, e: Event)
    requires Staffed(s)
    ensures Run(s, events + [e]) == Step(Run(s, events), e)
    decreases events
  {
    hide Step;
    if events == [] {
      assert [] + [e] == [e];
      assert Run(Step(s, e), []) == Step(s, e);
    } else {
      assert (events + [e])[0] == events[0] && (events + [e])[1..] == events[1..] + [e];
      RunSnoc(Step(s, events[0]), events[1..], e);
    }
  }

  /** A state that some run of a relay with some positive number of threads reaches. */
  ghost predicate Reachable(s: State) {
    exists n: nat, events :: n > 0 && Run(Start(n), events) == s
  }

  lemma EveryRun(s: State)
    requires Reachable(s)
    ensures Inv(s)
  {
    var n: nat, events :| n > 0 && Run(Start(n), events) == s;
    StartHolds(n);
    RunKeepsInv(Start(n), events);
  }

  // ----- order, flow control, settings -----

  /**
   The tasks saved for a connection are those completed, then the one in process, then those queued, all with one
   worker.
   */
  lemma OrderIsKept(s: State, k: int)
    requires Reachable(s) && k in s.logs
    ensures Staffed(s) && k >= 0
    ensures s.logs[k].saved == s.logs[k].done + Connection.Of(s.workers[s.Home(k)].Unfinished(), k)
    ensures forall w :: 0 <= w < |s.workers| && w != s.Home(k) ==> Connection.Of(s.workers[w].Unfinished(), k) == []
  {
    hide Shard;
    EveryRun(s);
    assert Connection.Sound(Connection.View(s, k));
    forall w | 0 <= w < |s.workers| && w != s.Home(k) ensures Connection.Of(s.workers[w].Unfinished(), k) == [] {
      forall t | t in s.workers[w].Unfinished() ensures t.sock != k {
        assert TaskFits(s, w, t);
      }
      NoneOf(s.workers[w].Unfinished(), k);
    }
  }

  /** Two workers never have frames of one connection in process at the same time. */
  lemma OneAtATime(s: State, v: nat, w: nat)
    requires Reachable(s) && v < |s.workers| && w < |s.workers|
    requires !s.workers[v].work.Idle? && !s.workers[w].work.Idle?
    requires s.workers[v].work.task.sock == s.workers[w].work.task.sock
    ensures v == w
  {
    hide Shard;
    EveryRun(s);
    Connection.CurrentFits(s, v);
    Connection.CurrentFits(s, w);
  }

  /** Frames of `k` saved by a receiver that has not counted them yet. */
  function Uncounted(s: State, k: int): nat
    requires Staffed(s) && k >= 0
  {
    var r := s.receivers[s.Home(k)];
    if r.Parsing? && r.sock == k then r.saved else 0
  }

  /**
   Flow control: the frame count plus the frames saved but not counted yet are the frames queued or in process;
   a connection that is not read has at least `LOW` of them, and its socket's flag agrees.
   */
  lemma FlowControl(s: State, k: int)
    requires Reachable(s) && k in s.clients
    ensures Staffed(s) && k >= 0
    ensures s.clients[k].frameCount + Uncounted(s, k) == |Connection.Of(s.workers[s.Home(k)].Unfinished(), k)|
    ensures if s.clients[k].reading then s.clients[k].frameCount <= HIGH
            else s.clients[k].frameCount >= LOW && |Connection.Of(s.workers[s.Home(k)].Unfinished(), k)| >= LOW
    ensures k in s.flags ==> s.flags[k] == s.clients[k].reading
  {
    hide Shard;
    EveryRun(s);
    assert Connection.Sound(Connection.View(s, k));
  }

  /**
   A client's type is what the latest login among its executed frames said, and its camera what the latest login or
   reset among those stored in full did; these are all of them, except for a login between its two stores.
   */
  lemma SettingsAreLatest(s: State, k: int)
    requires Reachable(s) && k in s.clients
    ensures k in s.logs && KindSetTo(s.clients[k].kind, s.logs[k].executed)
    ensures CameraSetTo(s.clients[k].camera, s.logs[k].stored)
    ensures var l := s.logs[k];
            if s.Torn(k) then l.executed != [] && l.stored == Front(l.executed) && IsLogin(Last(l.executed))
            else l.stored == l.executed
  {
    hide Shard, KindSetTo, CameraSetTo;
    EveryRun(s);
    hide Line.LinesConserved, Line.HandsExact, PoolExact, Routing.Routed, Connection.Sound;
    SoundIsCurrent(s);
    assert Connection.InStore(Connection.View(s, k));
    TornAtHome(s, k);
  }

  lemma TornAtHome(s: State, k: int)
    requires Wired(s) && k in s.logs
    ensures s.Torn(k) <==> Connection.View(s, k).phase.Torn?
  {
    hide Shard;
    if s.Torn(k) {
      var w :| 0 <= w < |s.workers| && s.workers[w].work.Storing? && s.workers[w].work.task.sock == k;
      Connection.CurrentFits(s, w);
    }
  }

  /** Frames are executed once each, in the order saved. */
  lemma ExecutedInOrder(s: State, k: int)
    requires Reachable(s) && k in s.logs
    ensures s.logs[k].done <= s.logs[k].executed <= s.logs[k].saved && |s.logs[k].executed| <= |s.logs[k].done| + 1
    ensures Connection.TasksValid(s.logs[k].saved)
  {
    hide Shard, Connection.Frames, Subseq, Connection.Of, Line.LinesConserved, Line.HandsExact, PoolExact;
    hide Routing.Routed;
    EveryRun(s);
    assert Connection.InOrder(Connection.View(s, k));
  }

  /**
   Frames found so far, and those being saved, are what the parser makes of everything received, in whatever chunks.
   */
  lemma FramesAreParsed(s: State, k: int, chunks: seq<seq<byte>>)
    requires Reachable(s) && k in s.logs && Flatten(chunks) == s.logs[k].received
    ensures Staffed(s) && k >= 0
    ensures s.logs[k].found <= Feed([], chunks).frames
    ensures Connection.ParsingOf(s.receivers[s.Home(k)], k) == None ==> s.logs[k].found == Feed([], chunks).frames
    ensures k in s.clients ==> k in s.carry && s.carry[k] == Feed([], chunks).rest && |s.carry[k]| < LEN_MAX
  {
    hide Shard;
    EveryRun(s);
    assert Connection.Sound(Connection.View(s, k));
    ChunkingInvariance([], chunks);
    assert [] + Flatten(chunks) == s.logs[k].received;
    RestIsPending(s.logs[k].received);
  }

  // ----- the pools -----

  /**
   The blocks out of the receive pool are those of the unreleased tasks and those that a receiver is filling,
   each out once and for one of them.
   */
  lemma ReceivePoolExact(s: State)
    requires Reachable(s)
    ensures forall w :: 0 <= w < |s.workers| ==>
              multiset(Blocks(s.workers[w].Holding())) == multiset(OutTo(s.recvHeld, WithWorker(w)))
    ensures forall r :: 0 <= r < |s.receivers| ==> OutTo(s.recvHeld, WithReceiver(r)) == Hand(s.receivers[r].InHand())
    ensures forall b :: b in s.recvHeld ==>
              || (s.recvHeld[b].WithWorker? && 0 <= s.recvHeld[b].w < |s.workers|)
              || (s.recvHeld[b].WithReceiver? && 0 <= s.recvHeld[b].r < |s.receivers|)
  {
    EveryRun(s);
    hide Wired, AllSound, Line.LinesConserved, Line.HandsExact, Routing.Routed;
    forall w | 0 <= w < |s.workers|
      ensures multiset(Blocks(s.workers[w].Holding())) == multiset(OutTo(s.recvHeld, WithWorker(w)))
    {
      assert TasksHold(s, w);
    }
    forall r | 0 <= r < |s.receivers| ensures OutTo(s.recvHeld, WithReceiver(r)) == Hand(s.receivers[r].InHand()) {
      assert ReceiverHolds(s, r);
    }
  }

  /** A connection's line, in the table or taken out of it and not yet released. */
  predicate HasLine(s: State, k: int) {
    k in s.out.lines || k in s.out.leaving
  }

  /**
   The blocks out of the send pool are those in the lines, one per buffer, and those that workers are
   about to queue.
   */
  lemma SendPoolExact(s: State)
    requires Reachable(s)
    ensures s.out.lines.Keys !! s.out.leaving.Keys
    ensures forall k :: HasLine(s, k) ==>
              var so := if k in s.out.lines then s.out.lines[k] else s.out.leaving[k];
              |so.blocks| == |so.chain| && multiset(so.blocks) == multiset(OutTo(s.out.held, InLine(k)))
    ensures forall w :: 0 <= w < |s.workers| ==> OutTo(s.out.held, WithWorker(w)) == Hand(s.workers[w].work.InHand())
    ensures forall b :: b in s.out.held ==>
              || (s.out.held[b].WithWorker? && 0 <= s.out.held[b].w < |s.workers|)
              || (s.out.held[b].InLine? && HasLine(s, s.out.held[b].k))
  {
    EveryRun(s);
    forall k | HasLine(s, k)
      ensures var so := if k in s.out.lines then s.out.lines[k] else s.out.leaving[k];
              |so.blocks| == |so.chain| && multiset(so.blocks) == multiset(OutTo(s.out.held, InLine(k)))
    {
      assert Line.Conserved(Line.LineOf(s.out, k)) && Line.Flowing(Line.LineOf(s.out, k));
    }
    forall b | b in s.out.held && s.out.held[b].InLine? ensures HasLine(s, s.out.held[b].k) {
      var k := s.out.held[b].k;
      assert Line.Conserved(Line.LineOf(s.out, k)) && b in Line.LineOf(s.out, k).owned;
    }
  }

  // ----- what reaches the other side -----

  /**
   What a peer reads back: for the bytes written to any connection so far, cut into any chunks, the parser
   returns exactly the buffers that went out in full, in the order they were queued; each of those was
   released once as sent, and every other released one as failed.
   */
  lemma PeerReadsWhatWasSent(s: State, b: int, chunks: seq<seq<byte>>) returns (m: nat)
    requires Reachable(s) && b in s.out.logs && Flatten(chunks) == s.out.logs[b].wire
    ensures var l := s.out.logs[b];
            && m <= |l.codes| <= |l.accepted|
            && Feed([], chunks).frames == Line.OutDatas(l.accepted)[..m]
            && (forall i :: 0 <= i < |l.codes| ==> l.codes[i] == if i < m then SEND_SUCCEED else SEND_FAILD)
            && (!HasLine(s, b) ==> |l.codes| == |l.accepted|)
            && l.wire <= Flatten(Line.OutDatas(l.accepted))
            && AllFrames(Line.OutDatas(l.accepted))
            && (forall o :: o in l.accepted && o.source.OwnAck? ==> o.data == ACK)
  {
    EveryRun(s);
    hide Wired, AllSound, Line.HandsExact, PoolExact, Routing.Routed;
    var line := Line.LineOf(s.out, b);
    assert Line.Conserved(line);
    m := Line.SentInFull(line);
    ReadBack(line, m, chunks);
    assert |line.codes| <= |line.accepted|;
  }

  /** The wire of a line parses into the buffers sent in full. */
  lemma ReadBack(line: Line.Line, m: nat, chunks: seq<seq<byte>>)
    requires AllFrames(Line.OutDatas(line.accepted)) && Line.WroteFirst(Line.OutDatas(line.accepted), m, line.wire)
    requires Flatten(chunks) == line.wire
    ensures Feed([], chunks).frames == Line.OutDatas(line.accepted)[..m]
    ensures line.wire <= Flatten(Line.OutDatas(line.accepted))
  {
    var datas := Line.OutDatas(line.accepted);
    Line.WroteFirstIsPrefix(datas, m, line.wire);
    CutStream(datas, |line.wire|);
    assert Flatten(datas)[..|line.wire|] == line.wire;
    ChunkingInvariance([], chunks);
    assert [] + Flatten(chunks) == line.wire;
  }

  /** Bytes written followed by bytes queued are all bytes ever accepted, for every line. */
  lemma BytesConserved(s: State, b: int)
    requires Reachable(s) && HasLine(s, b)
    ensures var so := if b in s.out.lines then s.out.lines[b] else s.out.leaving[b];
            && b in s.out.logs && Orderly(so.chain)
            && s.out.logs[b].wire + Unsent(so.chain) == Flatten(Line.OutDatas(s.out.logs[b].accepted))
  {
    EveryRun(s);
    assert Line.Conserved(Line.LineOf(s.out, b));
    Line.OpenLineConservesBytes(Line.LineOf(s.out, b));
  }

  // ----- who gets which picture -----

  /** Exactly one of the looks is at `k`. */
  ghost predicate LookedOnce(looks: seq<Look>, k: int) {
    exists i :: 0 <= i < |looks| && looks[i].k == k && forall j :: 0 <= j < |looks| && looks[j].k == k ==> j == i
  }

  /**
   A pass is of a picture that its sender executed, with the camera that the sender's commands before it had set.
   Once it is over, it has looked, in the order of socket ids, exactly once at every client that was connected from its
   start to its end.  Every look read the type that the client's own commands had made at some time between the start
   and the end of the pass, and after it, of a PC other than the sender, the camera that they had made by then; how the
   two go together is the subject of `RelayLogins`.  A look found its client not watching exactly when it is the sender,
   no PC, or set to another camera.  If it was watching, the call has come to its fate, and a client that had no socket
   has none ever after.  A client that left between the two readings was not there at the end.
   */
  lemma PassesAreComplete(s: State, a: int, i: nat)
    requires Reachable(s) && a in s.passes && i < |s.passes[a]|
    ensures a in s.logs && PassRight(s.passes[a][i], a, s.logs)
    ensures var p := s.passes[a][i];
            p.stayed.Some? ==>
              && Ascending(p.looks)
              && (forall k :: k in p.present && k in p.stayed.value ==> LookedOnce(p.looks, k))
              && (forall l :: l in p.looks ==> !l.fate.Reading? && !l.fate.Pending?)
              && (forall l :: l in p.looks && l.fate.Vanished? ==> l.k !in p.stayed.value)
    ensures forall l :: l in s.passes[a][i].looks && l.fate.NoSocket? ==> l.k !in s.out.lines
  {
    hide Shard, PassRight;
    EveryRun(s);
    assert Routing.SenderFits(s, a) && Gone(s.passes[a], s.out.lines.Keys);
    var p := s.passes[a][i];
    if p.stayed.Some? {
      EndedPass(s, a, i);
      forall k | k in p.present && k in p.stayed.value ensures LookedOnce(p.looks, k) {
        OnlyLook(p, k);
      }
    }
  }

  lemma EndedPass(s: State, a: int, i: nat)
    requires Staffed(s) && a in s.passes && i < |s.passes[a]| && s.passes[a][i].stayed.Some? && Routing.SenderFits(s, a)
    ensures Ended(s.passes[a][i])
  {
    hide Shard, Ended;
    var ps := s.passes[a];
    if Routing.WorkFor(s, a).Relaying? {
      assert i < |Front(ps)| ==> Ended(Front(ps)[i]);
    }
  }

  lemma OnlyLook(p: Pass, k: int)
    requires Ended(p) && k in p.present && k in p.stayed.value
    ensures LookedOnce(p.looks, k)
  {
    assert Looked(p, k);
    var l :| l in p.looks && l.k == k;
    var i :| 0 <= i < |p.looks| && p.looks[i] == l;
    assert Ascending(p.looks);
    assert forall j :: 0 <= j < |p.looks| && p.looks[j].k == k ==> j == i;
  }

  /**
   Every picture that a connected client has had executed has exactly one pass, in order, which is over once the frame
   is done.
   */
  lemma PicturesHavePasses(s: State, a: int)
    requires Reachable(s) && a in s.clients
    ensures a in s.logs && a in s.passes && Indices(s.passes[a]) == PictureAt(s.logs[a].executed)
    ensures forall i :: 0 <= i < |s.passes[a]| && s.passes[a][i].index < |s.logs[a].done| ==>
              s.passes[a][i].stayed.Some?
  {
    hide Shard, PassRight, PictureAt, Indices;
    EveryRun(s);
    assert Routing.SenderFits(s, a) && Connection.Sound(Connection.View(s, a));
    forall i | 0 <= i < |s.passes[a]| && s.passes[a][i].index < |s.logs[a].done| ensures s.passes[a][i].stayed.Some? {
      OverOnceDone(s, a, i);
    }
  }

  lemma OverOnceDone(s: State, a: int, i: nat)
    requires Wired(s) && a in s.logs && a in s.passes && i < |s.passes[a]| && Routing.SenderFits(s, a)
    requires Connection.InOrder(Connection.View(s, a)) && s.passes[a][i].index < |s.logs[a].done|
    ensures s.passes[a][i].stayed.Some?
  {
    hide Shard, Connection.Frames, Subseq, Connection.Of;
    var ps, work := s.passes[a], Routing.WorkFor(s, a);
    if work.Relaying? {
      assert !Connection.View(s, a).phase.Unbegun? && |s.logs[a].executed| == |s.logs[a].done| + 1;
      assert i < |Front(ps)| ==> Ended(Front(ps)[i]);
    } else {
      assert Ended(ps[i]);
    }
  }

  /**
   What a client was given from others are exactly the passes that looked at it, found it watching and had a block and
   a socket for it, in the order of the passes; and each buffer is the frame of its pass.
   */
  lemma AcceptedAreGiven(s: State, a: int, b: int)
    requires Reachable(s) && a in s.passes && b in s.out.logs
    ensures Taken(s.out.logs[b].accepted, a) == GivenTo(s.passes[a], b)
    ensures forall o :: o in s.out.logs[b].accepted ==> Routing.Genuine(o, s.passes)
  {
    EveryRun(s);
    assert a in s.logs && b in s.logs && Routing.AllGenuine(s) && Routing.PairFits(s, a, b);
    hide Inv, Reachable, Taken, GivenTo, Routing.Genuine;
  }

  /** By this look `b` was given the picture of pass `n` of `a`. */
  ghost predicate ServedBy(s: State, a: int, b: int, n: nat, l: Look)
    requires a in s.passes && n < |s.passes[a]|
  {
    var p := s.passes[a][n];
    && l in p.looks && l.k == b && l.fate.Accepted? && Timely(p, l)
    && b != a && l.kind == PC && l.camera == Some(p.camera)
    && b in s.logs && KindRight(l, s.logs[b].executed) && CameraRight(l, s.logs[b].executed)
  }

  /**
   Only those are given a sender's pictures that were read to be a PC and to be set to the camera that the sender was.
   */
  lemma OnlyWatchersAreServed(s: State, a: int, b: int, n: nat)
    requires Reachable(s) && a in s.passes && b in s.out.logs && n in Taken(s.out.logs[b].accepted, a)
    ensures n < |s.passes[a]|
    ensures exists l :: ServedBy(s, a, b, n, l)
  {
    hide Taken;
    AcceptedAreGiven(s, a, b);
    GivenIsAccepted(s.passes[a], b, n);
    var l :| l in s.passes[a][n].looks && l.k == b && l.fate.Accepted?;
    PassesAreComplete(s, a, n);
    assert LookRight(l, a, s.passes[a][n].camera, s.logs);
    assert ServedBy(s, a, b, n, l);
  }

  lemma {:induction false} GivenIsAccepted(ps: seq<Pass>, b: int, n: nat)
    ensures n in GivenTo(ps, b) <==> n < |ps| && Accepts(ps[n], b)
    decreases |ps|
  {
    hide Accepts;
    if ps != [] {
      GivenIsAccepted(Front(ps), b, n);
    }
  }

  // ----- end to end -----

  /** The frames of `a` among these buffers. */
  function From(outs: seq<Out>, a: int): seq<seq<byte>> {
    if outs == [] then []
    else if Last(outs).source.Relayed? && Last(outs).source.sender == a then From(Front(outs), a) + [Last(outs).data]
    else From(Front(outs), a)
  }

  lemma {:induction false} FromPrefix(outs: seq<Out>, m: nat, a: int)
    requires m <= |outs|
    ensures Subseq(From(outs[..m], a), From(outs, a))
    decreases |outs|
  {
    if m == |outs| {
      assert outs[..m] == outs;
      SubseqRefl(From(outs, a));
    } else {
      assert Front(outs)[..m] == outs[..m];
      FromPrefix(Front(outs), m, a);
      SubseqSkip(From(outs[..m], a), From(Front(outs), a), Last(outs).data);
    }
  }

  predicate FrameOf(f: seq<byte>, n: nat, ps: seq<Pass>) {
    n < |ps| && ps[n].task.len <= |ps[n].task.memory| && f == ps[n].task.Frame()
  }

  /** Each of them is the frame of the pass it names. */
  lemma {:induction false} FromIsTaken(outs: seq<Out>, a: int, passes: map<int, seq<Pass>>)
    requires forall o :: o in outs ==> Routing.Genuine(o, passes)
    ensures |From(outs, a)| == |Taken(outs, a)|
    ensures Taken(outs, a) != [] ==> a in passes
    ensures forall j :: 0 <= j < |Taken(outs, a)| ==> FrameOf(From(outs, a)[j], Taken(outs, a)[j], passes[a])
    decreases |outs|
  {
    if outs != [] {
      var front, o := Front(outs), Last(outs);
      assert o in outs && Routing.Genuine(o, passes);
      FromIsTaken(front, a, passes);
      if o.source.Relayed? && o.source.sender == a {
        assert From(outs, a) == From(front, a) + [o.data] && Taken(outs, a) == Taken(front, a) + [o.source.pass];
        assert FrameOf(o.data, o.source.pass, passes[a]);
      }
    }
  }

  lemma {:induction false} GivenAscend(ps: seq<Pass>, b: int)
    ensures forall j :: 0 <= j < |GivenTo(ps, b)| ==> GivenTo(ps, b)[j] < |ps|
    ensures forall i, j :: 0 <= i < j < |GivenTo(ps, b)| ==> GivenTo(ps, b)[i] < GivenTo(ps, b)[j]
    decreases |ps|
  {
    hide Accepts;
    if ps != [] {
      GivenAscend(Front(ps), b);
    }
  }

  lemma {:induction false} PicturesAscend(tasks: seq<Task>)
    ensures forall i, j :: 0 <= i < j < |PictureAt(tasks)| ==> PictureAt(tasks)[i] < PictureAt(tasks)[j]
    decreases |tasks|
  {
    hide IsPicture;
    if tasks != [] {
      PicturesAscend(Front(tasks));
      assert forall i :: 0 <= i < |PictureAt(Front(tasks))| ==> PictureAt(Front(tasks))[i] in PictureAt(Front(tasks));
    }
  }

  /** The passes of a sender are of ever later frames. */
  lemma PassesAscend(s: State, a: int)
    requires Staffed(s) && Routing.SenderFits(s, a)
    ensures forall i, j :: 0 <= i < j < |s.passes[a]| ==> s.passes[a][i].index < s.passes[a][j].index
  {
    hide Shard, OneByOne, AllRight, PictureAt;
    var ps, at := s.passes[a], PictureAt(s.logs[a].executed);
    PicturesAscend(s.logs[a].executed);
    forall i, j | 0 <= i < j < |ps| ensures ps[i].index < ps[j].index {
      assert Indices(ps)[i] == at[i] && Indices(ps)[j] == at[j];
    }
  }

  /** Frames given by ever later passes, which are of ever later tasks, keep the order of the tasks. */
  lemma GivenInOrder(outs: seq<Out>, a: int, b: int, passes: map<int, seq<Pass>>, saved: seq<Task>)
    requires forall o :: o in outs ==> Routing.Genuine(o, passes)
    requires a in passes && Taken(outs, a) == GivenTo(passes[a], b)
    requires forall i, j :: 0 <= i < j < |passes[a]| ==> passes[a][i].index < passes[a][j].index
    requires forall i :: 0 <= i < |passes[a]| ==> PassSaved(passes[a][i], saved)
    requires Connection.TasksValid(saved)
    ensures Subseq(From(outs, a), Connection.Frames(saved))
  {
    hide Subseq, From, Taken, GivenTo, Routing.Genuine;
    GivenAscend(passes[a], b);
    FromIsTaken(outs, a, passes);
    var given, taken := From(outs, a), Taken(outs, a);
    var at := seq(|taken|, j requires 0 <= j < |taken| => passes[a][taken[j]].index);
    forall j | 0 <= j < |given| ensures at[j] < |saved| && Connection.Frames(saved)[at[j]] == given[j] {
      assert PassSaved(passes[a][taken[j]], saved) && FrameOf(given[j], taken[j], passes[a]);
    }
    InOrderIsSubseq(given, Connection.Frames(saved), at);
  }

  predicate PassSaved(p: Pass, saved: seq<Task>) {
    p.index < |saved| && saved[p.index] == p.task
  }

  lemma PassIsSaved(s: State, a: int, i: nat)
    requires Reachable(s) && a in s.logs && a in s.passes && i < |s.passes[a]|
    ensures PassSaved(s.passes[a][i], s.logs[a].saved)
  {
    hide Reachable, LookRight, CameraSetTo, IsPicture;
    ExecutedInOrder(s, a);
    PassesAreComplete(s, a, i);
    assert PassRight(s.passes[a][i], a, s.logs);
    assert s.logs[a].executed[s.passes[a][i].index] == s.logs[a].saved[s.passes[a][i].index];
  }

  /** The pictures of `a` that `b` was given are among the frames saved for `a`, in order. */
  lemma GivenWereSaved(s: State, a: int, b: int)
    requires Reachable(s) && a in s.passes && b in s.out.logs
    ensures a in s.logs && Connection.TasksValid(s.logs[a].saved)
    ensures Subseq(From(s.out.logs[b].accepted, a), Connection.Frames(s.logs[a].saved))
  {
    EveryRun(s);
    assert a in s.logs && Routing.SenderFits(s, a) && Routing.AllGenuine(s);
    hide Inv, Reachable, Routing.SenderFits, Shard, Subseq, From, Taken, GivenTo, Routing.Genuine;
    ExecutedInOrder(s, a);
    AcceptedAreGiven(s, a, b);
    PassesAscend(s, a);
    forall i | 0 <= i < |s.passes[a]| ensures PassSaved(s.passes[a][i], s.logs[a].saved) {
      PassIsSaved(s, a, i);
    }
    GivenInOrder(s.out.logs[b].accepted, a, b, s.passes, s.logs[a].saved);
  }

  /**
   End to end: the frames of `a` among those that `b`'s peer reads off the wire are, in order, frames that
   the parser finds in the bytes `a`'s peer sent; everything else on the wire is login acknowledgements and frames of
   other senders.
   */
  lemma EndToEnd(s: State, a: int, b: int, chunks: seq<seq<byte>>) returns (m: nat, at: seq<nat>)
    requires Reachable(s) && a in s.logs && b in s.out.logs && Flatten(chunks) == s.out.logs[b].wire
    ensures m <= |s.out.logs[b].accepted|
    ensures Feed([], chunks).frames == Line.OutDatas(s.out.logs[b].accepted[..m])
    ensures var given, frames := From(s.out.logs[b].accepted[..m], a), Parse(s.logs[a].received).frames;
            && |at| == |given| && (forall i :: 0 <= i < |at| ==> at[i] < |frames| && given[i] == frames[at[i]])
            && forall i, j :: 0 <= i < j < |at| ==> at[i] < at[j]
    ensures forall o :: o in s.out.logs[b].accepted[..m] && o.source.OwnAck? ==> o.data == ACK
  {
    hide Parse, Subseq, From, Feed, Flatten, Shard;
    EveryRun(s);
    assert a in s.passes;
    hide Line.LinesConserved, Line.HandsExact, PoolExact, Routing.Routed;
    var outs, found := s.out.logs[b].accepted, s.logs[a].found;
    m := PeerReadsWhatWasSent(s, b, chunks);
    assert Line.OutDatas(outs)[..m] == Line.OutDatas(outs[..m]);
    assert Connection.Sound(Connection.View(s, a));
    GivenWereSaved(s, a, b);
    var given, saved, all := From(outs[..m], a), Connection.Frames(s.logs[a].saved), Parse(s.logs[a].received).frames;
    FromPrefix(outs, m, a);
    SubseqTrans(given, From(outs, a), saved);
    SubseqTrans(given, saved, found);
    SubseqPrefix(all, |found|);
    assert all[..|found|] == found;
    SubseqTrans(given, found, all);
    at := SubseqKeepsOrder(given, all);
  }
}
