/**
 Who gets which picture.  Every executed picture of a connected sender starts a pass, every pass looks at each client
 that is there from its start to its end exactly once, and what a client is given are exactly the looks that found it
 watching and had a block and a socket for it.
 */
module RelayPasses {
  import opened Prelude
  import opened Sessions
  import opened Relay
  import Connection = RelayConnection

  predicate IsPicture(t: Task) {
    t.Valid() && Decode(t.memory).Picture?
  }

  // ----- the shape of a pass -----

  ghost predicate Ascending(looks: seq<Look>) {
    forall i, j :: 0 <= i < j < |looks| ==> looks[i].k < looks[j].k
  }

  ghost predicate Looked(p: Pass, k: int) {
    exists l :: l in p.looks && l.k == k
  }

  /** A pass that is over looked once at every client that was there at its start and at its end. */
  ghost predicate Ended(p: Pass) {
    && p.stayed.Some? && Ascending(p.looks)
    && (forall l :: l in p.looks ==> !l.fate.Reading? && !l.fate.Pending?)
    && (forall l :: l in p.looks && l.fate.Vanished? ==> l.k !in p.stayed.value)
    && forall k :: k in p.present && k in p.stayed.value ==> Looked(p, k)
  }

  ghost predicate AllEnded(ps: seq<Pass>) {
    forall i :: 0 <= i < |ps| ==> Ended(ps[i])
  }

  /** The pass that a worker is making: it has looked at everybody that is still there up to `last`. */
  ghost predicate InProgress(p: Pass, work: Work, clients: set<int>)
    requires work.Relaying?
  {
    && p.stayed.None? && p.task == work.task && p.camera == work.camera && work.last >= -1
    && Ascending(p.looks)
    && (forall l :: l in p.looks ==> l.k <= work.last)
    && (forall i :: 0 <= i < |p.looks| ==>
          && (p.looks[i].fate.Reading? <==> i == |p.looks| - 1 && work.stage.Comparing?)
          && (p.looks[i].fate.Pending? <==> i == |p.looks| - 1 && (work.stage.Wanting? || work.stage.Holding?)))
    && (forall l :: l in p.looks && l.fate.Vanished? ==> l.k !in clients)
    && (!work.stage.Looking? ==> p.looks != [] && Last(p.looks).k == work.last)
    && forall k :: k in clients && k in p.present && k <= work.last ==> Looked(p, k)
  }

  /** All passes are over but the one in progress, if there is one. */
  ghost predicate OneByOne(ps: seq<Pass>, work: Work, clients: set<int>) {
    if work.Relaying? then ps != [] && AllEnded(Front(ps)) && InProgress(Last(ps), work, clients)
    else AllEnded(ps)
  }

  lemma PassStarts(ps: seq<Pass>, p: Pass, before: Work, work: Work, clients: set<int>, clients': set<int>)
    requires OneByOne(ps, before, clients) && !before.Relaying? && work.Relaying? && work.last == -1
    requires work.stage.Looking?
    requires p.task == work.task && p.camera == work.camera && p.looks == [] && p.stayed.None?
    requires forall k :: k in clients' ==> k >= 0
    ensures OneByOne(ps + [p], work, clients')
  {
  }

  lemma PassLooks(ps: seq<Pass>, work: Work, clients: map<int, Client>, l: Look, stage: Stage)
    requires OneByOne(ps, work, clients.Keys) && work.Relaying? && work.stage.Looking? && Next(clients, work.last, l.k)
    requires if l.fate.Reading? then stage.Comparing? else stage.Looking? && l.fate.NotWatching?
    ensures OneByOne(WithLook(ps, l), Relaying(work.task, work.camera, l.k, stage), clients.Keys)
  {
    var p, work' := Last(ps), Relaying(work.task, work.camera, l.k, stage);
    var p' := p.(looks := p.looks + [l]);
    assert WithLook(ps, l) == Front(ps) + [p'];
    forall k | k in clients.Keys && k in p.present && k <= l.k ensures Looked(p', k) {
      if k == l.k {
        assert l in p'.looks;
      } else {
        assert Looked(p, k);
        var m :| m in p.looks && m.k == k;
        assert m in p'.looks;
      }
    }
    assert InProgress(p', work', clients.Keys);
  }

  /** The last look is gone on with. */
  lemma LastGoesOn(ps: seq<Pass>, work: Work, clients: set<int>, l: Look, stage: Stage)
    requires OneByOne(ps, work, clients) && work.Relaying? && !work.stage.Looking?
    requires ps != [] && Last(ps).looks != [] && l.k == Last(Last(ps).looks).k
    requires !l.fate.Reading? && (l.fate.Vanished? ==> l.k !in clients)
    requires if l.fate.Pending? then stage.Wanting? else stage.Looking?
    ensures OneByOne(WithLast(ps, l), Relaying(work.task, work.camera, work.last, stage), clients)
  {
    var p, work' := Last(ps), Relaying(work.task, work.camera, work.last, stage);
    var p' := p.(looks := Front(p.looks) + [l]);
    assert WithLast(ps, l) == Front(ps) + [p'];
    forall k | k in clients && k in p.present && k <= work.last ensures Looked(p', k) {
      assert Looked(p, k);
      var i :| 0 <= i < |p.looks| && p.looks[i].k == k;
      assert p'.looks[i].k == k && p'.looks[i] in p'.looks;
    }
    forall m | m in p'.looks ensures m.k <= work.last && (m.fate.Vanished? ==> m.k !in clients) {
      var i :| 0 <= i < |p'.looks| && p'.looks[i] == m;
      assert p.looks[i] in p.looks && p.looks[i].k == m.k;
    }
    assert InProgress(p', work', clients);
  }

  lemma CallGoesOn(ps: seq<Pass>, work: Work, clients: set<int>, block: nat)
    requires OneByOne(ps, work, clients) && work.Relaying? && work.stage.Wanting?
    ensures OneByOne(ps, work.(stage := Holding(block)), clients)
  {
  }

  lemma CallEnds(ps: seq<Pass>, work: Work, clients: set<int>, f: Fate)
    requires OneByOne(ps, work, clients) && work.Relaying? && (work.stage.Wanting? || work.stage.Holding?)
    requires !f.Reading? && !f.Pending? && !f.Vanished?
    ensures OneByOne(WithFate(ps, f), Relaying(work.task, work.camera, work.last, Looking), clients)
  {
    LastGoesOn(ps, work, clients, Last(Last(ps).looks).(fate := f), Looking);
  }

  lemma PassEnds(ps: seq<Pass>, work: Work, clients: set<int>, heard: map<int, nat>, work': Work)
    requires heard.Keys == clients
    requires OneByOne(ps, work, clients) && work.Relaying? && work.stage.Looking? && !work'.Relaying?
    requires forall k :: k in clients ==> k <= work.last
    ensures OneByOne(WithEnd(ps, heard), work', clients)
  {
    var p := Last(ps);
    var p' := p.(stayed := Some(heard));
    assert WithEnd(ps, heard) == Front(ps) + [p'];
    forall k | k in p'.present && k in clients ensures Looked(p', k) {
      assert Looked(p, k);
    }
    forall l | l in p'.looks ensures !l.fate.Reading? && !l.fate.Pending? {
      var i :| 0 <= i < |p.looks| && p.looks[i] == l;
    }
    assert Ended(p');
  }

  /** Clients go, and those that come were not there at the start of the pass. */
  lemma ClientsChange(ps: seq<Pass>, work: Work, clients: set<int>, clients': set<int>)
    requires OneByOne(ps, work, clients)
    requires work.Relaying? ==> forall k :: k in clients' && k in Last(ps).present ==> k in clients
    requires work.Relaying? ==> forall l :: l in Last(ps).looks && l.k in clients' ==> l.k in clients
    ensures OneByOne(ps, work, clients')
  {
  }

  // ----- what a pass says about its sender and the clients -----

  /** The positions of the pictures among these tasks. */
  function PictureAt(tasks: seq<Task>): (at: seq<nat>)
    ensures forall i :: i in at ==> i < |tasks| && IsPicture(tasks[i])
  {
    if tasks == [] then [] else PictureAt(Front(tasks)) + if IsPicture(Last(tasks)) then [|tasks| - 1] else []
  }

  function Indices(ps: seq<Pass>): (ns: seq<nat>)
    ensures |ns| == |ps|
  {
    seq(|ps|, i requires 0 <= i < |ps| => ps[i].index)
  }

  ghost predicate KindSetTo(kind: int, tasks: seq<Task>) {
    Connection.TasksValid(tasks) && kind == Connection.Settled(NEWCOMER, tasks).kind
  }

  ghost predicate CameraSetTo(camera: int, tasks: seq<Task>) {
    Connection.TasksValid(tasks) && camera == Connection.Settled(NEWCOMER, tasks).camera
  }

  predicate IsLogin(t: Task) {
    t.Valid() && Decode(t.memory).Login?
  }

  /** The type was read, as the client's own commands had made it. */
  ghost predicate KindRight(l: Look, executed: seq<Task>) {
    l.heardKind <= |executed| && KindSetTo(l.kind, executed[..l.heardKind])
  }

  /**
   The camera was read after it, as the client's own commands had made it by then; it can be older than the type only by
   a login between its two stores.
   */
  ghost predicate CameraRight(l: Look, executed: seq<Task>)
    requires l.camera.Some?
  {
    && l.heardCamera <= |executed| && CameraSetTo(l.camera.value, executed[..l.heardCamera])
    && l.heardKind <= l.heardCamera + 1
    && (l.heardKind == l.heardCamera + 1 ==> l.heardCamera < |executed| && IsLogin(executed[l.heardCamera]))
  }

  /** What was read of the client decides. */
  predicate Judged(l: Look, a: int, camera: int) {
    && (l.camera.None? <==> l.k == a || l.kind != PC || l.fate.Reading? || l.fate.Vanished?)
    && (l.fate.NotWatching? <==> l.k == a || l.kind != PC || (l.camera.Some? && l.camera.value != camera))
  }

  ghost predicate LookRight(l: Look, a: int, camera: int, logs: map<int, Log>) {
    && l.k in logs && logs[l.k].admitted && KindRight(l, logs[l.k].executed)
    && (l.camera.Some? ==> CameraRight(l, logs[l.k].executed))
    && Judged(l, a, camera)
  }

  /** The client's type and camera are taken from between the start and the end of the pass. */
  predicate Timely(p: Pass, l: Look) {
    && (l.k in p.present ==> p.present[l.k] <= l.heardKind && (l.camera.Some? ==> p.present[l.k] <= l.heardCamera))
    && (p.stayed.Some? && l.k in p.stayed.value ==>
          l.heardKind <= p.stayed.value[l.k] && (l.camera.Some? ==> l.heardCamera <= p.stayed.value[l.k]))
  }

  /** The picture is the one that was executed, the camera the sender's at that time, the looks right. */
  ghost predicate PassRight(p: Pass, a: int, logs: map<int, Log>)
    requires a in logs
  {
    && p.index < |logs[a].executed| && p.task == logs[a].executed[p.index] && IsPicture(p.task)
    && CameraSetTo(p.camera, logs[a].executed[..p.index])
    && (forall k :: k in p.present ==> k in logs && logs[k].admitted && p.present[k] <= |logs[k].stored|)
    && forall l :: l in p.looks ==> LookRight(l, a, p.camera, logs) && Timely(p, l)
  }

  ghost predicate AllRight(ps: seq<Pass>, a: int, logs: map<int, Log>)
    requires a in logs
  {
    forall i :: 0 <= i < |ps| ==> PassRight(ps[i], a, logs)
  }

  /** The passes are those of the first pictures executed, and of all of them while the sender is connected. */
  ghost predicate Covers(ps: seq<Pass>, executed: seq<Task>, connected: bool) {
    Indices(ps) <= PictureAt(executed) && (connected ==> Indices(ps) == PictureAt(executed))
  }

  /** Histories only grow. */
  ghost predicate Grown(logs: map<int, Log>, logs': map<int, Log>) {
    forall k :: k in logs ==>
      && k in logs' && logs[k].executed <= logs'[k].executed && |logs[k].stored| <= |logs'[k].stored|
      && (logs[k].admitted ==> logs'[k].admitted)
  }

  lemma EarlierTasks(x: seq<Task>, y: seq<Task>, n: nat)
    requires x <= y && n <= |x|
    ensures y[..n] == x[..n]
  {
  }

  lemma LookStaysRight(l: Look, a: int, camera: int, logs: map<int, Log>, logs': map<int, Log>)
    requires LookRight(l, a, camera, logs) && Grown(logs, logs')
    ensures LookRight(l, a, camera, logs')
  {
    hide KindSetTo, CameraSetTo, IsLogin, Judged;
    var x, y := logs[l.k].executed, logs'[l.k].executed;
    EarlierTasks(x, y, l.heardKind);
    if l.camera.Some? {
      EarlierTasks(x, y, l.heardCamera);
      assert l.heardCamera < |x| ==> y[l.heardCamera] == x[l.heardCamera];
    }
  }

  lemma PassStaysRight(p: Pass, a: int, logs: map<int, Log>, logs': map<int, Log>)
    requires a in logs && PassRight(p, a, logs) && Grown(logs, logs')
    ensures a in logs' && PassRight(p, a, logs')
  {
    hide IsPicture, CameraSetTo, LookRight;
    EarlierTasks(logs[a].executed, logs'[a].executed, p.index);
    forall l | l in p.looks ensures LookRight(l, a, p.camera, logs') {
      LookStaysRight(l, a, p.camera, logs, logs');
    }
  }

  lemma AllStayRight(ps: seq<Pass>, a: int, logs: map<int, Log>, logs': map<int, Log>)
    requires a in logs && AllRight(ps, a, logs) && Grown(logs, logs')
    ensures a in logs' && AllRight(ps, a, logs')
  {
    hide PassRight;
    forall i | 0 <= i < |ps| ensures PassRight(ps[i], a, logs') {
      PassStaysRight(ps[i], a, logs, logs');
    }
  }

  /** The last pass is replaced by a right one of the same frame. */
  lemma LastReplaced(ps: seq<Pass>, p: Pass, a: int, logs: map<int, Log>)
    requires a in logs && ps != [] && AllRight(ps, a, logs) && PassRight(p, a, logs) && p.index == Last(ps).index
    ensures AllRight(Front(ps) + [p], a, logs) && Indices(Front(ps) + [p]) == Indices(ps)
  {
    hide PassRight;
  }

  lemma LookAdded(ps: seq<Pass>, l: Look, a: int, logs: map<int, Log>)
    requires a in logs && ps != [] && AllRight(ps, a, logs) && LookRight(l, a, Last(ps).camera, logs)
    requires Timely(Last(ps), l)
    ensures AllRight(WithLook(ps, l), a, logs) && Indices(WithLook(ps, l)) == Indices(ps)
  {
    hide IsPicture, CameraSetTo, LookRight;
    assert PassRight(Last(ps), a, logs);
    LastReplaced(ps, Last(ps).(looks := Last(ps).looks + [l]), a, logs);
  }

  /** The last look is replaced by a right one of the same client. */
  lemma LookSet(ps: seq<Pass>, l: Look, a: int, logs: map<int, Log>)
    requires a in logs && AllRight(ps, a, logs) && ps != [] && Last(ps).looks != []
    requires LookRight(l, a, Last(ps).camera, logs) && Timely(Last(ps), l)
    ensures AllRight(WithLast(ps, l), a, logs) && Indices(WithLast(ps, l)) == Indices(ps)
  {
    hide PassRight, LookRight, Timely;
    LastLookSet(Last(ps), l, a, logs);
    LastReplaced(ps, Last(ps).(looks := Front(Last(ps).looks) + [l]), a, logs);
  }

  lemma LastLookSet(p: Pass, l: Look, a: int, logs: map<int, Log>)
    requires a in logs && p.looks != [] && LookRight(l, a, p.camera, logs) && Timely(p, l)
    requires PassRight(p, a, logs)
    ensures PassRight(p.(looks := Front(p.looks) + [l]), a, logs)
  {
    hide IsPicture, CameraSetTo, LookRight;
    assert forall m :: m in Front(p.looks) ==> m in p.looks;
  }

  lemma FateSet(ps: seq<Pass>, f: Fate, a: int, logs: map<int, Log>)
    requires a in logs && AllRight(ps, a, logs) && (f.NoBlock? || f.NoSocket? || f.Accepted?)
    requires ps != [] && Last(ps).looks != [] ==> Last(Last(ps).looks).fate.Pending?
    ensures AllRight(WithFate(ps, f), a, logs) && Indices(WithFate(ps, f)) == Indices(ps)
  {
    if ps != [] && Last(ps).looks != [] {
      var p := Last(ps);
      assert PassRight(p, a, logs) && Last(p.looks) in p.looks;
      hide PassRight, KindRight, CameraRight;
      LookSet(ps, Last(p.looks).(fate := f), a, logs);
    }
  }

  lemma EndSet(ps: seq<Pass>, heard: map<int, nat>, a: int, logs: map<int, Log>)
    requires a in logs && AllRight(ps, a, logs)
    requires forall k :: k in heard && k in logs ==> heard[k] == |logs[k].executed|
    ensures AllRight(WithEnd(ps, heard), a, logs) && Indices(WithEnd(ps, heard)) == Indices(ps)
  {
    hide IsPicture, CameraSetTo, KindSetTo, IsLogin, Judged;
    if ps != [] {
      assert PassRight(Last(ps), a, logs);
      LastReplaced(ps, Last(ps).(stayed := Some(heard)), a, logs);
    }
  }

  /** A client that had no socket when it was to be given a picture has none ever after. */
  ghost predicate Gone(ps: seq<Pass>, lines: set<int>) {
    forall i, l :: 0 <= i < |ps| && l in ps[i].looks && l.fate.NoSocket? ==> l.k !in lines
  }

  lemma ChangesKeepGone(ps: seq<Pass>, l: Look, heard: map<int, nat>, lines: set<int>)
    requires Gone(ps, lines) && !l.fate.NoSocket?
    ensures Gone(WithLook(ps, l), lines) && Gone(WithEnd(ps, heard), lines)
  {
  }

  lemma FateKeepsGone(ps: seq<Pass>, f: Fate, lines: set<int>)
    requires Gone(ps, lines)
    requires f.NoSocket? && ps != [] && Last(ps).looks != [] ==> Last(Last(ps).looks).k !in lines
    ensures Gone(WithFate(ps, f), lines)
  {
    if ps != [] && Last(ps).looks != [] {
      LastKeepsGone(ps, Last(Last(ps).looks).(fate := f), lines);
    }
  }

  lemma LastKeepsGone(ps: seq<Pass>, l: Look, lines: set<int>)
    requires Gone(ps, lines) && (l.fate.NoSocket? ==> l.k !in lines)
    ensures Gone(WithLast(ps, l), lines)
  {
    if ps != [] && Last(ps).looks != [] {
      assert forall l :: l in Front(Last(ps).looks) ==> l in Last(ps).looks;
    }
  }

  // ----- what the clients were given -----

  /** The numbers of the pictures of `a` among these buffers. */
  function Taken(outs: seq<Out>, a: int): seq<nat> {
    if outs == [] then []
    else if Last(outs).source.Relayed?
      && Last(outs).source.sender == a then Taken(Front(outs), a) + [Last(outs).source.pass]
    else Taken(Front(outs), a)
  }

  ghost predicate Accepts(p: Pass, b: int) {
    exists l :: l in p.looks && l.k == b && l.fate.Accepted?
  }

  /** The numbers of the passes by which `b` was given the picture. */
  ghost function GivenTo(ps: seq<Pass>, b: int): seq<nat> {
    if ps == [] then [] else GivenTo(Front(ps), b) + if Accepts(Last(ps), b) then [|ps| - 1] else []
  }

  lemma TakenSnoc(outs: seq<Out>, o: Out, a: int)
    ensures Taken(outs + [o], a) == Taken(outs, a) + if o.source.Relayed?
              && o.source.sender == a then [o.source.pass] else []
  {
    assert Front(outs + [o]) == outs && Last(outs + [o]) == o;
  }

  lemma GivenSnoc(ps: seq<Pass>, p: Pass, b: int)
    ensures GivenTo(ps + [p], b) == GivenTo(ps, b) + if Accepts(p, b) then [|ps|] else []
  {
    assert Front(ps + [p]) == ps && Last(ps + [p]) == p;
  }

  lemma GivenLast(ps: seq<Pass>, p: Pass, b: int)
    requires ps != [] && (Accepts(p, b) <==> Accepts(Last(ps), b))
    ensures GivenTo(Front(ps) + [p], b) == GivenTo(ps, b)
  {
    GivenSnoc(Front(ps), p, b);
  }

  lemma LookGivesNothing(ps: seq<Pass>, l: Look, b: int)
    requires !l.fate.Accepted?
    ensures GivenTo(WithLook(ps, l), b) == GivenTo(ps, b)
  {
    if ps != [] {
      var p := Last(ps);
      var p' := p.(looks := p.looks + [l]);
      assert Accepts(p, b) ==> Accepts(p', b) by {
        if Accepts(p, b) {
          var m :| m in p.looks && m.k == b && m.fate.Accepted?;
          assert m in p'.looks;
        }
      }
      GivenLast(ps, p', b);
    }
  }

  lemma EndGivesNothing(ps: seq<Pass>, heard: map<int, nat>, b: int)
    ensures GivenTo(WithEnd(ps, heard), b) == GivenTo(ps, b)
  {
    if ps != [] {
      GivenLast(ps, Last(ps).(stayed := Some(heard)), b);
    }
  }

  lemma NotYetGiven(p: Pass, b: int)
    requires Ascending(p.looks) && p.looks != [] && !Last(p.looks).fate.Accepted? && Last(p.looks).k == b
    ensures !Accepts(p, b)
  {
    forall l | l in p.looks && l.k == b ensures l == Last(p.looks) {
      var i :| 0 <= i < |p.looks| && p.looks[i] == l;
    }
  }

  /** The last look, which has given nothing yet, is gone on with. */
  lemma LastGives(ps: seq<Pass>, l: Look, b: int)
    requires ps != [] && Last(ps).looks != [] && Ascending(Last(ps).looks) && !Last(Last(ps).looks).fate.Accepted?
    requires l.k == Last(Last(ps).looks).k
    ensures GivenTo(WithLast(ps, l), b) == GivenTo(ps, b) + if l.fate.Accepted? && l.k == b then [|ps| - 1] else []
  {
    var p := Last(ps);
    var last := Last(p.looks);
    var p' := p.(looks := Front(p.looks) + [l]);
    GivenSnoc(Front(ps), p', b);
    if l.fate.Accepted? && l.k == b {
      assert l in p'.looks && Accepts(p', b);
      NotYetGiven(p, b);
    } else {
      assert Accepts(p', b) <==> Accepts(p, b) by {
        if Accepts(p, b) {
          var m :| m in p.looks && m.k == b && m.fate.Accepted?;
          assert m != last && m in Front(p.looks) && m in p'.looks;
        }
        if Accepts(p', b) {
          var m :| m in p'.looks && m.k == b && m.fate.Accepted?;
          assert m in Front(p.looks) && m in p.looks;
        }
      }
    }
  }

  /** The pending look comes to its fate. */
  lemma FateGives(ps: seq<Pass>, f: Fate, b: int)
    requires ps != [] && Last(ps).looks != [] && Ascending(Last(ps).looks) && Last(Last(ps).looks).fate.Pending?
    ensures GivenTo(WithFate(ps, f), b)
         == GivenTo(ps, b) + if f.Accepted? && Last(Last(ps).looks).k == b then [|ps| - 1] else []
  {
    hide GivenTo, WithLast;
    LastGives(ps, Last(Last(ps).looks).(fate := f), b);
  }

  lemma {:induction false} NobodyGiven(ps: seq<Pass>, b: int)
    requires forall p, l :: p in ps && l in p.looks ==> l.k != b
    ensures GivenTo(ps, b) == []
    decreases |ps|
  {
    if ps != [] {
      assert Last(ps) in ps && !Accepts(Last(ps), b);
      NobodyGiven(Front(ps), b);
    }
  }

  lemma {:induction false} NothingTaken(outs: seq<Out>, a: int)
    requires forall o :: o in outs && o.source.Relayed? ==> o.source.sender != a
    ensures Taken(outs, a) == []
    decreases |outs|
  {
    if outs != [] {
      assert Last(outs) in outs;
      NothingTaken(Front(outs), a);
    }
  }
}
