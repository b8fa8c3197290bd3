/**
 What the imperative code does in one call, as steps of the relay: the specifications of the send task, of the receive
 task and of the picture relay agree with runs of the state machine.
 */
module RelayTasks {
  import opened FrameParser
  import opened Outbound
  import opened Prelude
  import RecvDataProc
  import opened Relay
  import RelayPasses
  import RelayTheorems
  import opened Sessions

  // ----- the send task -----

  /** A connection's line as a send task finds it. */
  predicate Open(o: Output, k: int) {
    && k in o.lines && k in o.logs
    && Orderly(o.lines[k].chain) && |o.lines[k].blocks| == |o.lines[k].chain|
  }

  function Sent(n: nat): seq<int> {
    seq(n, _ => SEND_SUCCEED)
  }

  /** `p` is `o` after a send task that left `d`. */
  predicate After(o: Output, p: Output, k: int, d: Drained)
    requires Open(o, k)
  {
    && Open(p, k) && |d.finished| <= |o.lines[k].blocks|
    && p.lines[k].chain == d.chain
    && p.lines[k].stalled == (o.lines[k].stalled || d.stalled)
    && p.lines[k].blocks == o.lines[k].blocks[|d.finished|..]
    && p.logs[k].wire == o.logs[k].wire + d.wire
    && p.logs[k].codes == o.logs[k].codes + Sent(|d.finished|)
  }

  /** One answer of the kernel. */
  lemma OneSend(s: State, k: int, kernel: nat -> int, call: nat)
    requires Staffed(s) && Open(s.out, k) && s.out.lines[k].chain != []
    ensures var so, l := s.out.lines[k], s.out.logs[k];
            var o: Outcome, p := SendOnce(so.chain, kernel(call)), DoSend(s, k, kernel(call)).out;
            && (!o.Finished? ==> After(s.out, p, k, Drain(so.chain, kernel, call)))
            && (o.Finished? ==>
                  && Open(p, k) && p.lines[k].chain == so.chain[1..]
                  && p.lines[k].stalled == so.stalled && p.lines[k].blocks == so.blocks[1..]
                  && p.logs[k].wire == l.wire + o.wire
                  && p.logs[k].codes == l.codes + [SEND_SUCCEED])
  {
    SendConserves(s.out.lines[k].chain, kernel(call));
    assert Sent(0) == [];
  }

  lemma Onward(s: State, t: State, p: Output, k: int, kernel: nat -> int, call: nat)
    requires Staffed(s) && Open(s.out, k) && s.out.lines[k].chain != [] && t == DoSend(s, k, kernel(call))
    requires SendOnce(s.out.lines[k].chain, kernel(call)).Finished?
    requires Open(t.out, k) && t.out.lines[k].chain == s.out.lines[k].chain[1..]
    requires After(t.out, p, k, Drain(t.out.lines[k].chain, kernel, call + 1))
    ensures After(s.out, p, k, Drain(s.out.lines[k].chain, kernel, call))
  {
    var so, l := s.out.lines[k], s.out.logs[k];
    OneSend(s, k, kernel, call);
    hide DoSend, SendOnce, Orderly, Sent;
    var d := Drain(t.out.lines[k].chain, kernel, call + 1);
    var o: Outcome := SendOnce(so.chain, kernel(call));
    Rejoin(l.wire, o.wire, d.wire, l.codes, so.blocks, |d.finished|);
  }

  lemma Rejoin(wire: seq<byte>, x: seq<byte>, y: seq<byte>, codes: seq<int>, blocks: seq<nat>, n: nat)
    requires n < |blocks|
    ensures wire + x + y == wire + (x + y)
    ensures codes + [SEND_SUCCEED] + Sent(n) == codes + Sent(1 + n)
    ensures blocks[1..][n..] == blocks[1 + n..]
  {
    assert [SEND_SUCCEED] + Sent(n) == Sent(1 + n);
  }

  /** A whole send task, with any answers of the kernel, is a run of send steps on its connection. */
  lemma {:induction false} SendTaskIsSteps(s: State, k: int, kernel: nat -> int, call: nat) returns (events: seq<Event>)
    requires Staffed(s) && Open(s.out, k)
    ensures forall e :: e in events ==> e.Send? && e.k == k
    ensures After(s.out, Run(s, events).out, k, Drain(s.out.lines[k].chain, kernel, call))
    decreases |s.out.lines[k].chain|
  {
    hide DoSend;
    if s.out.lines[k].chain == [] {
      events := [];
      assert Sent(0) == [];
    } else {
      var e := Send(k, kernel(call));
      var t := Step(s, e);
      assert t == DoSend(s, k, kernel(call));
      OneSend(s, k, kernel, call);
      if SendOnce(s.out.lines[k].chain, kernel(call)).Finished? {
        var rest := SendTaskIsSteps(t, k, kernel, call + 1);
        Onward(s, t, Run(t, rest).out, k, kernel, call);
        events := [e] + rest;
        RunCons(s, e, rest);
      } else {
        events := [e];
        assert Run(t, []) == t;
        RunCons(s, e, []);
      }
    }
  }

  lemma RunCons(s: State, e: Event, rest: seq<Event>)
    requires Staffed(s)
    ensures Run(s, [e] + rest) == Run(Step(s, e), rest)
  {
    hide Step;
    assert ([e] + rest)[0] == e && ([e] + rest)[1..] == rest;
  }

  lemma {:induction false} RunConcat(s: State, x: seq<Event>, y: seq<Event>)
    requires Staffed(s)
    ensures Run(s, x + y) == Run(Run(s, x), y)
    decreases x
  {
    hide Step;
    if x == [] {
      assert x + y == y;
    } else {
      assert (x + y)[0] == x[0] && (x + y)[1..] == x[1..] + y;
      RunConcat(Step(s, x[0]), x[1..], y);
    }
  }

  lemma RunOne(s: State, e: Event)
    requires Staffed(s)
    ensures Run(s, [e]) == Step(s, e)
  {
    hide Step;
    assert Run(Step(s, e), []) == Step(s, e);
  }

  // ----- the receive task -----

  /**
   The receiver of `k` has queued these tasks, and no other thread and neither the passes nor the lines have changed.
   */
  predicate Served(s: State, t: State, k: int, tasks: seq<Task>)
    requires Staffed(s) && k >= 0
  {
    var h := s.Home(k);
    && SameStaff(s, t)
    && (forall r :: 0 <= r < |s.receivers| && r != h ==> t.receivers[r] == s.receivers[r])
    && t.workers == s.workers[h := s.workers[h].(queue := s.workers[h].queue + tasks)]
    && t.passes == s.passes && t.out == s.out
  }

  /** Tasks for these frames, in blocks that nobody has. */
  predicate Fresh(tasks: seq<Task>, k: int, frames: seq<seq<byte>>, held: map<nat, Holder>) {
    && |tasks| <= |frames|
    && (forall i :: 0 <= i < |tasks| ==>
          && tasks[i].sock == k && |tasks[i].memory| == BLOCK_SIZE && tasks[i].len <= BLOCK_SIZE
          && tasks[i].Frame() == frames[i] && tasks[i].block !in held)
    && forall i, j :: 0 <= i < j < |tasks| ==> tasks[i].block != tasks[j].block
  }

  /** The receiver is at work on these frames of `k`, of which it has saved some. */
  predicate AtWork(s: State, k: int, found: seq<seq<byte>>, saved: nat)
    requires Staffed(s) && k >= 0
  {
    s.receivers[s.Home(k)] == Parsing(k, found, saved, None) && k in s.logs
  }

  /** From `s` to `t` the receiver has saved these tasks and gone on to the frames left. */
  predicate Went(s: State, t: State, k: int, found: seq<seq<byte>>, saved: nat, tasks: seq<Task>)
    requires Staffed(s) && k >= 0
  {
    Staffed(t) && AtWork(t, k, found, saved) && Served(s, t, k, tasks) && t.clients == s.clients && t.carry == s.carry
  }

  lemma SaveOne(s: State, k: int, found: seq<seq<byte>>, saved: nat, task: Task)
    requires Staffed(s) && k >= 0 && AtWork(s, k, found, saved) && found != []
    requires task.sock == k && |task.memory| == BLOCK_SIZE && task.len <= BLOCK_SIZE
    requires task.Frame() == found[0] && task.block !in s.recvHeld
    ensures var h := s.Home(k);
            var u := DoFetch(s, h, Some(task.block));
            && Staffed(u)
            && var t := DoSave(u, h, task.memory[task.len..]);
            && Went(s, t, k, found[1..], saved + 1, [task])
            && t.recvHeld == s.recvHeld[task.block := WithWorker(h)]
  {
    hide Shard;
    var h := s.Home(k);
    var u, leftover := DoFetch(s, h, Some(task.block)), task.memory[task.len..];
    assert u.Home(k) == h;
    assert Saving(u, h, leftover);
    assert task.memory == task.Frame() + leftover;
    assert Saved(u, h, leftover) == task;
  }

  /** The two steps of saving a frame. */
  lemma SaveOneRun(s: State, k: int, found: seq<seq<byte>>, saved: nat, tasks: seq<Task>) returns (events: seq<Event>)
    requires Staffed(s) && k >= 0 && AtWork(s, k, found, saved) && Fresh(tasks, k, found, s.recvHeld) && tasks != []
    ensures forall e :: e in events ==> (e.Fetch? || e.Save?) && e.r == s.Home(k)
    ensures var t := Run(s, events);
            && Went(s, t, k, found[1..], saved + 1, [tasks[0]])
            && AtWork(t, k, found[1..], saved + 1) && Fresh(tasks[1..], k, found[1..], t.recvHeld)
  {
    hide Shard, DoFetch, DoSave;
    var h, task := s.Home(k), tasks[0];
    var e, f := Fetch(h, Some(task.block)), Save(h, task.memory[task.len..]);
    SaveOne(s, k, found, saved, task);
    events := [e, f];
    assert events == [e] + [f];
    RunCons(s, e, [f]);
    RunOne(DoFetch(s, h, Some(task.block)), f);
    FreshRest(tasks, k, found, s.recvHeld, h);
  }

  /** The step of dropping one. */
  lemma DropOneRun(s: State, k: int, found: seq<seq<byte>>, saved: nat) returns (events: seq<Event>)
    requires Staffed(s) && k >= 0 && AtWork(s, k, found, saved) && found != []
    ensures forall e :: e in events ==> (e.Fetch? || e.Save?) && e.r == s.Home(k)
    ensures Went(s, Run(s, events), k, found[1..], saved, []) && AtWork(Run(s, events), k, found[1..], saved)
    ensures Fresh([], k, found[1..], Run(s, events).recvHeld)
  {
    hide Shard, Run;
    events := [Fetch(s.Home(k), None)];
    RunOne(s, Fetch(s.Home(k), None));
    ServedNothing(s, k);
  }

  lemma WentOn(
    s: State, t: State, u: State, k: int, found: seq<seq<byte>>, saved: nat, all: nat, x: seq<Task>, y: seq<Task>)
    requires Staffed(s) && k >= 0 && Went(s, t, k, found, saved, x) && Went(t, u, k, [], all, y)
    ensures Went(s, u, k, [], all, x + y)
  {
    hide Shard;
    var q := s.workers[s.Home(k)].queue;
    assert q + x + y == q + (x + y);
  }

  lemma Together(
    s: State, first: seq<Event>, rest: seq<Event>, k: int, found: seq<seq<byte>>, saved: nat, all: nat,
    x: seq<Task>, y: seq<Task>)
    requires Staffed(s) && k >= 0 && Went(s, Run(s, first), k, found, saved, x)
    requires Went(Run(s, first), Run(Run(s, first), rest), k, [], all, y)
    ensures Went(s, Run(s, first + rest), k, [], all, x + y)
  {
    hide Shard, Run, Went;
    RunConcat(s, first, rest);
    WentOn(s, Run(s, first), Run(s, first + rest), k, found, saved, all, x, y);
  }

  /** Frames are saved as long as there are tasks for them, and dropped after that. */
  lemma {:induction false} SaveAll(s: State, k: int, found: seq<seq<byte>>, saved: nat, tasks: seq<Task>)
    returns (events: seq<Event>)
    requires Staffed(s) && k >= 0 && AtWork(s, k, found, saved) && Fresh(tasks, k, found, s.recvHeld)
    ensures forall e :: e in events ==> (e.Fetch? || e.Save?) && e.r == s.Home(k)
    ensures Went(s, Run(s, events), k, [], saved + |tasks|, tasks)
    decreases |found|
  {
    assert |tasks| <= |found|;
    hide Shard, Run, AtWork, Served, Went, Fresh;
    if found == [] {
      events := [];
      NothingToSave(s, k, saved);
      assert tasks == [];
    } else if tasks == [] {
      var first := DropOneRun(s, k, found, saved);
      var rest := SaveAll(Run(s, first), k, found[1..], saved, tasks);
      events := first + rest;
      Together(s, first, rest, k, found[1..], saved, saved, [], tasks);
      assert [] + tasks == tasks;
    } else {
      var first := SaveOneRun(s, k, found, saved, tasks);
      var rest := SaveAll(Run(s, first), k, found[1..], saved + 1, tasks[1..]);
      events := first + rest;
      Together(s, first, rest, k, found[1..], saved + 1, saved + |tasks|, [tasks[0]], tasks[1..]);
      assert [tasks[0]] + tasks[1..] == tasks;
    }
  }

  lemma NothingToSave(s: State, k: int, saved: nat)
    requires Staffed(s) && k >= 0 && AtWork(s, k, [], saved)
    ensures Went(s, Run(s, []), k, [], saved, [])
  {
    hide Shard;
    ServedNothing(s, k);
  }

  lemma ServedNothing(s: State, k: int)
    requires Staffed(s) && k >= 0
    ensures Served(s, s, k, [])
  {
    hide Shard;
    var w := s.workers[s.Home(k)];
    assert w.(queue := w.queue + []) == w;
  }

  lemma ServedTwice(s: State, t: State, u: State, k: int, x: seq<Task>, y: seq<Task>)
    requires Staffed(s) && Staffed(t) && k >= 0 && Served(s, t, k, x) && Served(t, u, k, y)
    ensures Served(s, u, k, x + y)
  {
    hide Shard;
    var q := s.workers[s.Home(k)].queue;
    assert q + x + y == q + (x + y);
  }

  lemma SameReceivers(s: State, t: State, k: int, tasks: seq<Task>)
    requires Staffed(s) && k >= 0 && Served(s, t, k, tasks) && t.receivers[s.Home(k)] == s.receivers[s.Home(k)]
    ensures t.receivers == s.receivers
  {
    hide Shard;
  }

  lemma FreshRest(tasks: seq<Task>, k: int, found: seq<seq<byte>>, held: map<nat, Holder>, h: int)
    requires Fresh(tasks, k, found, held) && tasks != []
    ensures Fresh(tasks[1..], k, found[1..], held[tasks[0].block := WithWorker(h)]) && [tasks[0]] + tasks[1..] == tasks
  {
  }

  /**
   One call of the receive task is a run of its receiver: the chunk is read, the frames found are saved as far as there
   are blocks, and what was saved is counted.
   */
  lemma ReceiveTaskIsSteps(s: State, k: int, chunk: seq<byte>, tasks: seq<Task>) returns (events: seq<Event>)
    requires Staffed(s) && k >= 0 && k in s.clients && k in s.carry && k in s.logs && s.receivers[s.Home(k)].Waiting?
    requires Fresh(tasks, k, Parse(s.carry[k] + chunk).frames, s.recvHeld)
    ensures forall e :: e in events ==>
              if e.Read? then e.k == k else (e.Fetch? || e.Save? || e.CountUp?) && e.r == s.Home(k)
    ensures var t, p := Run(s, events), Parse(s.carry[k] + chunk);
            && t.clients == s.clients[k := Increase(s.clients[k], |tasks|)]
            && t.carry == s.carry[k := p.rest] && t.receivers == s.receivers && Served(s, t, k, tasks)
  {
    hide Shard, Parse, Increase, Fresh, DoFetch, DoSave, DoRead, DoCountUp;
    var h := s.Home(k);
    var t := DoRead(s, k, chunk);
    ReadOne(s, k, chunk);
    var rest := SaveAll(t, k, Parse(s.carry[k] + chunk).frames, 0, tasks);
    var u := Run(t, rest);
    CountOne(u, k, |tasks|);
    events := [Read(k, chunk)] + (rest + [CountUp(h)]);
    RunCons(s, Read(k, chunk), rest + [CountUp(h)]);
    RelayTheorems.RunSnoc(t, rest, CountUp(h));
    var v := DoCountUp(u, h);
    assert [] + tasks == tasks && tasks + [] == tasks;
    hide Served;
    ServedTwice(s, t, u, k, [], tasks);
    ServedTwice(s, u, v, k, tasks, []);
    SameReceivers(s, v, k, tasks);
  }

  lemma ReadOne(s: State, k: int, chunk: seq<byte>)
    requires Staffed(s) && k >= 0 && k in s.clients && k in s.carry && k in s.logs && s.receivers[s.Home(k)].Waiting?
    ensures var t, p := DoRead(s, k, chunk), Parse(s.carry[k] + chunk);
            && Staffed(t) && AtWork(t, k, p.frames, 0) && t.recvHeld == s.recvHeld
            && t.clients == s.clients && t.carry == s.carry[k := p.rest] && Served(s, t, k, [])
  {
    hide Shard, Parse;
    ServedNothing(s, k);
  }

  lemma CountOne(s: State, k: int, saved: nat)
    requires Staffed(s) && k >= 0 && AtWork(s, k, [], saved) && k in s.clients
    ensures var t := DoCountUp(s, s.Home(k));
            && t.clients == s.clients[k := Increase(s.clients[k], saved)] && t.carry == s.carry
            && Staffed(t) && t.receivers[s.Home(k)].Waiting? && Served(s, t, k, [])
  {
    hide Shard, Increase;
    ServedNothing(s, k);
  }

  // ----- commands and pictures -----

  /**
   The command dispatcher changes the client table as the execution step does, and what it asks to send is what the
   worker goes on to do.
   */
  lemma CommandIsStep(s: State, w: int, sendings: seq<RecvDataProc.Sending>, closed: bool)
    requires Executing(s, w)
    requires var t := s.workers[w].work.task;
             RecvDataProc.Answered(s.clients, t.sock, t.memory, t.len, sendings, closed)
    ensures var t, s' := s.workers[w].work.task, DoExecute(s, w);
            var work, after := s'.workers[w].work, Obey(s.clients, t.sock, Decode(t.memory));
            && (work.Storing? || work.Relaying? || work.Freeing?)
            && (work.Storing? ==>
                  && DoStore(s', w).clients == after && DoStore(s', w).workers[w].work == Acking(t, Wanting)
                  && sendings == [RecvDataProc.Sending(t.sock, ACK, false)])
            && (work.Relaying? ==>
                  && s'.clients == after && work.stage.Looking? && work.last == -1
                  && t.sock in s'.passes && s'.passes[t.sock] != []
                  && Last(s'.passes[t.sock]).present == s.Stored() && Last(s'.passes[t.sock]).looks == []
                  && RecvDataProc.Offers(sendings, RecvDataProc.Watchers(s.clients, t.sock, work.camera), t.Frame()))
            && (work.Freeing? ==> s'.clients == after && sendings == [])
  {
    var t, s' := s.workers[w].work.task, DoExecute(s, w);
    if s'.workers[w].work.Storing? {
      LoginIsTwoSteps(s, w);
    }
    hide Decode, RecvDataProc.Offers, Begin, Obey, DoStore;
  }

  /** The two stores of a login together obey it. */
  lemma LoginIsTwoSteps(s: State, w: int)
    requires Executing(s, w) && DoExecute(s, w).workers[w].work.Storing?
    ensures var t, s' := s.workers[w].work.task, DoStore(DoExecute(s, w), w);
            s'.clients == Obey(s.clients, t.sock, Decode(t.memory)) && s'.workers[w].work == Acking(t, Wanting)
  {
    hide Decode;
    var t := s.workers[w].work.task;
    SettledByBoth(s.clients[t.sock], Decode(t.memory));
  }

  /** The look led to a call of `SendData`. */
  predicate Calls(l: Look) {
    !l.fate.NotWatching? && !l.fate.Reading? && !l.fate.Vanished?
  }

  /** Whom a pass has called `SendData` for. */
  function Called(looks: seq<Look>): (ks: seq<int>) {
    if looks == [] then []
    else Called(Front(looks)) + if Calls(Last(looks)) then [Last(looks).k] else []
  }

  function Socks(sendings: seq<RecvDataProc.Sending>): (ks: seq<int>)
    ensures |ks| == |sendings|
  {
    seq(|sendings|, i requires 0 <= i < |sendings| => sendings[i].sock)
  }

  ghost predicate Increasing(ks: seq<int>) {
    forall i, j :: 0 <= i < j < |ks| ==> ks[i] < ks[j]
  }

  lemma SomethingIn(x: seq<int>)
    ensures x == [] || exists k :: k in x
  {
    if x != [] {
      var k := x[0];
      assert k in x;
    }
  }

  /** Two increasing sequences of the same numbers are equal. */
  lemma {:induction false} SameIncreasing(x: seq<int>, y: seq<int>)
    requires Increasing(x) && Increasing(y) && forall k :: k in x <==> k in y
    ensures x == y
    decreases |x|
  {
    SomethingIn(x);
    SomethingIn(y);
    if x != [] {
      NoLater(x, Last(y));
      NoLater(y, Last(x));
      forall k ensures k in Front(x) <==> k in Front(y) {
        EarlierThanLast(x, k);
        EarlierThanLast(y, k);
      }
      SameIncreasing(Front(x), Front(y));
    }
  }

  lemma NoLater(x: seq<int>, k: int)
    requires Increasing(x) && x != []
    ensures Last(x) in x && (k in x ==> k <= Last(x))
  {
  }

  lemma EarlierThanLast(x: seq<int>, k: int)
    requires Increasing(x) && x != []
    ensures k in Front(x) <==> k in x && k != Last(x)
  {
    if k in x && k != Last(x) {
      var i :| 0 <= i < |x| && x[i] == k;
      assert Front(x)[i] == k;
    }
  }

  /** `k` was looked at and found watching. */
  ghost predicate FoundWatching(looks: seq<Look>, k: int) {
    exists i :: 0 <= i < |looks| && looks[i].k == k && Calls(looks[i])
  }

  lemma {:induction false} CalledAre(looks: seq<Look>, k: int)
    ensures k in Called(looks) <==> FoundWatching(looks, k)
    decreases |looks|
  {
    if looks != [] {
      var front, last := Front(looks), Last(looks);
      CalledAre(front, k);
      if FoundWatching(front, k) {
        var i :| 0 <= i < |front| && front[i].k == k && Calls(front[i]);
        assert looks[i].k == k;
      }
      if FoundWatching(looks, k) && !(last.k == k && Calls(last)) {
        var i :| 0 <= i < |looks| && looks[i].k == k && Calls(looks[i]);
        assert front[i].k == k;
      }
    }
  }

  lemma {:induction false} CalledInOrder(looks: seq<Look>)
    requires RelayPasses.Ascending(looks)
    ensures Increasing(Called(looks))
    decreases |looks|
  {
    if looks != [] {
      var front, last := Front(looks), Last(looks);
      CalledInOrder(front);
      forall k | k in Called(front) ensures k < last.k {
        CalledAre(front, k);
        var i :| 0 <= i < |front| && front[i].k == k && Calls(front[i]);
        assert looks[i].k == k;
      }
      var ks := Called(looks);
      forall i, j | 0 <= i < j < |ks| ensures ks[i] < ks[j] {
        assert Called(front)[i] in Called(front);
      }
    }
  }

  /**
   While the client table does not change, a pass calls `SendData` for exactly those, in that order, that
   `PicDataRecv` does.
   */
  lemma PictureRelayIsPass(
    s: State, a: int, i: nat, clients: map<int, Client>, sendings: seq<RecvDataProc.Sending>, data: seq<byte>)
    requires RelayTheorems.Reachable(s) && a in s.passes && i < |s.passes[a]| && s.passes[a][i].stayed.Some?
    requires s.passes[a][i].present.Keys == s.passes[a][i].stayed.value.Keys == clients.Keys
    requires forall l :: l in s.passes[a][i].looks ==>
               && l.k in clients && l.kind == clients[l.k].kind
               && (l.camera.Some? ==> l.camera.value == clients[l.k].camera)
    requires RecvDataProc.Offers(sendings, RecvDataProc.Watchers(clients, a, s.passes[a][i].camera), data)
    ensures Called(s.passes[a][i].looks) == Socks(sendings)
  {
    hide RelayTheorems.Reachable;
    var p := s.passes[a][i];
    RelayTheorems.PassesAreComplete(s, a, i);
    forall l | l in p.looks ensures Calls(l) <==> Watches(clients, l.k, a, p.camera) {
      assert RelayPasses.LookRight(l, a, p.camera, s.logs);
    }
    LooksAreOffers(p, a, clients, sendings, data);
  }

  lemma LooksAreOffers(p: Pass, a: int, clients: map<int, Client>, sendings: seq<RecvDataProc.Sending>, data: seq<byte>)
    requires RelayPasses.Ascending(p.looks)
    requires forall k :: k in clients ==> RelayTheorems.LookedOnce(p.looks, k)
    requires forall l :: l in p.looks ==>
               l.k in clients && (Calls(l) <==> Watches(clients, l.k, a, p.camera))
    requires RecvDataProc.Offers(sendings, RecvDataProc.Watchers(clients, a, p.camera), data)
    ensures Called(p.looks) == Socks(sendings)
  {
    CalledInOrder(p.looks);
    forall k ensures k in Called(p.looks) <==> k in Socks(sendings) {
      hide RecvDataProc.Offers, RelayTheorems.LookedOnce, Called, Socks, Increasing;
      CalledWatch(p, a, clients, k);
      WatchersAreSocks(sendings, RecvDataProc.Watchers(clients, a, p.camera), data, k);
    }
    WatchersAreSocks(sendings, RecvDataProc.Watchers(clients, a, p.camera), data, 0);
    SameIncreasing(Called(p.looks), Socks(sendings));
  }

  lemma CalledWatch(p: Pass, a: int, clients: map<int, Client>, k: int)
    requires k in clients ==> RelayTheorems.LookedOnce(p.looks, k)
    requires forall l :: l in p.looks ==>
               l.k in clients && (Calls(l) <==> Watches(clients, l.k, a, p.camera))
    ensures k in Called(p.looks) <==> k in clients && Watches(clients, k, a, p.camera)
  {
    hide Called, Watches;
    CalledAre(p.looks, k);
    if k in clients && Watches(clients, k, a, p.camera) {
      assert RelayTheorems.LookedOnce(p.looks, k);
      var i :| 0 <= i < |p.looks| && p.looks[i].k == k;
      assert p.looks[i] in p.looks && FoundWatching(p.looks, k);
    }
    if FoundWatching(p.looks, k) {
      var i :| 0 <= i < |p.looks| && p.looks[i].k == k && Calls(p.looks[i]);
      assert p.looks[i] in p.looks;
    }
  }

  lemma WatchersAreSocks(sendings: seq<RecvDataProc.Sending>, ks: set<int>, data: seq<byte>, k: int)
    requires RecvDataProc.Offers(sendings, ks, data)
    ensures Increasing(Socks(sendings)) && (k in Socks(sendings) <==> k in ks)
  {
    if k in ks {
      var i :| 0 <= i < |sendings| && sendings[i].sock == k;
      assert Socks(sendings)[i] == k;
    }
  }
}
