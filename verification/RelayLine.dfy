/**
 The sending half of one connection: buffers accepted, blocks held for them, bytes written and release codes.
 Every step of the relay moves it in one of a few ways, all of which conserve bytes and blocks.
 */
module RelayLine {
  import opened Prelude
  import opened FrameParser
  import opened Outbound
  import opened Sessions
  import opened Relay
  import opened RelayInbound

  function OutDatas(outs: seq<Out>): (ds: seq<seq<byte>>)
    ensures |ds| == |outs|
  {
    seq(|outs|, i requires 0 <= i < |outs| => outs[i].data)
  }

  /** `owned` are the send-pool blocks handed out for this connection. */
  datatype Line = Line(
    accepted: seq<Out>, wire: seq<byte>, codes: seq<int>,
    open: bool, chain: seq<Node>, blocks: seq<nat>, owned: set<nat>)

  /** A line, in the table or taken out of it and not released yet. */
  function SocketOf(o: Output, k: int): Option<Socket> {
    if k in o.lines then Some(o.lines[k]) else if k in o.leaving then Some(o.leaving[k]) else None
  }

  function LineOf(o: Output, k: int): Line
    requires k in o.logs
  {
    var so, log := SocketOf(o, k), o.logs[k];
    Line(log.accepted, log.wire, log.codes, so.Some?,
         if so.Some? then so.value.chain else [], if so.Some? then so.value.blocks else [], OutTo(o.held, InLine(k)))
  }

  /** `wire` is the first `n` buffers in full, and a proper part of the next one, if there is one. */
  ghost predicate WroteFirst(datas: seq<seq<byte>>, n: nat, wire: seq<byte>) {
    && n <= |datas|
    && Flatten(datas[..n]) <= wire
    && var part := wire[|Flatten(datas[..n])|..];
       if n == |datas| then part == [] else part < datas[n]
  }

  function Begun(chain: seq<Node>): seq<byte>
    requires Orderly(chain)
  {
    if chain == [] then [] else chain[0].data[..chain[0].begin]
  }

  /**
   Until the line is released as a whole: released buffers went out in full, the rest wait in the chain, one block
   each.
   */
  ghost predicate Flowing(l: Line) {
    && |l.codes| <= |l.accepted| && (forall c :: c in l.codes ==> c == SEND_SUCCEED)
    && Orderly(l.chain) && Datas(l.chain) == OutDatas(l.accepted)[|l.codes|..]
    && l.wire == Flatten(OutDatas(l.accepted)[..|l.codes|]) + Begun(l.chain)
    && |l.blocks| == |l.chain| && multiset(l.blocks) == multiset(l.owned)
  }

  /** Once it is: every buffer was released once, first those sent in full, then those given up. */
  ghost predicate Settled(l: Line) {
    && |l.codes| == |l.accepted| && l.owned == {} && l.chain == [] && l.blocks == []
    && exists n: nat :: n <= |l.codes| && WroteFirst(OutDatas(l.accepted), n, l.wire)
         && forall i :: 0 <= i < |l.codes| ==> l.codes[i] == if i < n then SEND_SUCCEED else SEND_FAILD
  }

  ghost predicate Conserved(l: Line) {
    && AllFrames(OutDatas(l.accepted))
    && (forall o :: o in l.accepted && o.source.OwnAck? ==> o.data == ACK)
    && if l.open then Flowing(l) else Settled(l)
  }

  // ----- the moves -----

  function Extended(l: Line, out: Out, notify: bool, block: nat): Line {
    l.(accepted := l.accepted + [out], chain := l.chain + [Node(out.data, 0, notify)],
       blocks := l.blocks + [block], owned := l.owned + {block})
  }

  function AfterSend(l: Line, o: Outcome): Line
    requires l.blocks != []
  {
    match o
    case Failed => l
    case Short(chain, wire) => l.(chain := chain, wire := l.wire + wire)
    case Finished(chain, wire) =>
      l.(chain := chain, wire := l.wire + wire, codes := l.codes + [SEND_SUCCEED],
         blocks := l.blocks[1..], owned := l.owned - {l.blocks[0]})
  }

  function Closed(l: Line): Line {
    l.(open := false, chain := [], blocks := [], owned := {}, codes := l.codes + seq(|l.chain|, _ => SEND_FAILD))
  }

  lemma {:induction false} FlattenConcat(x: seq<seq<byte>>, y: seq<seq<byte>>)
    ensures Flatten(x + y) == Flatten(x) + Flatten(y)
    decreases |x|
  {
    if x == [] {
      assert x + y == y;
    } else {
      assert (x + y)[0] == x[0] && (x + y)[1..] == x[1..] + y;
      FlattenConcat(x[1..], y);
    }
  }

  lemma FlattenOne(d: seq<byte>)
    ensures Flatten([d]) == d
  {
    assert Flatten([d]) == d + Flatten([]);
  }

  lemma QueueingConserves(l: Line, out: Out, notify: bool, block: nat)
    requires Conserved(l) && l.open && IsFrame(out.data) && (out.source.OwnAck? ==>
               out.data == ACK) && block !in l.owned
    ensures Conserved(Extended(l, out, notify, block))
  {
    var l' := Extended(l, out, notify, block);
    var d, d' := OutDatas(l.accepted), OutDatas(l'.accepted);
    assert d' == d + [out.data];
    assert d'[..|l.codes|] == d[..|l.codes|] && d'[|l.codes|..] == d[|l.codes|..] + [out.data];
    assert Datas(l'.chain) == Datas(l.chain) + [out.data];
    assert AllFrames(d') by {
      forall f | f in d' ensures IsFrame(f) {
        assert f in d || f == out.data;
      }
    }
    assert Begun(l'.chain) == Begun(l.chain);
    assert multiset(l'.blocks) == multiset(l.blocks) + multiset{block};
  }

  lemma AnsweringConserves(l: Line, answer: int)
    requires Conserved(l) && l.open && l.chain != []
    ensures Conserved(AfterSend(l, SendOnce(l.chain, answer)))
  {
    var l' := AfterSend(l, SendOnce(l.chain, answer));
    var d := OutDatas(l.accepted);
    SendConserves(l.chain, answer);
    match SendOnce(l.chain, answer)
    case Failed =>
    case Short(chain, wire) => ShortConserves(l, chain, wire, answer);
    case Finished(chain, wire) => FinishedConserves(l, chain, wire, answer);
  }

  lemma ShortConserves(l: Line, chain: seq<Node>, wire: seq<byte>, answer: int)
    requires Conserved(l) && l.open && l.chain != [] && SendOnce(l.chain, answer) == Short(chain, wire)
    ensures Conserved(AfterSend(l, Short(chain, wire)))
  {
    hide Flatten, Unsent, IsFrame;
    SendConserves(l.chain, answer);
    var head, sent := l.chain[0], Flatten(OutDatas(l.accepted)[..|l.codes|]);
    assert chain[0].data == head.data && Datas(chain) == Datas(l.chain);
    assert Begun(chain) == head.data[..head.begin + |wire|] == Begun(l.chain) + wire;
    assert l.wire + wire == sent + (Begun(l.chain) + wire);
  }

  lemma FinishedConserves(l: Line, chain: seq<Node>, wire: seq<byte>, answer: int)
    requires Conserved(l) && l.open && l.chain != [] && SendOnce(l.chain, answer) == Finished(chain, wire)
    ensures Conserved(AfterSend(l, Finished(chain, wire)))
  {
    hide Flatten, Unsent, IsFrame;
    SendConserves(l.chain, answer);
    TakeFirst(l.blocks, l.owned);
    var d, n := OutDatas(l.accepted), |l.codes|;
    DatasCons(l.chain[0], chain);
    assert l.chain == [l.chain[0]] + chain;
    assert d[n] == d[n..][0] == l.chain[0].data && d[n + 1..] == d[n..][1..] == Datas(chain);
    NextSent(d, n, Begun(l.chain), wire);
    assert Begun(chain) == [];
  }

  lemma NextSent(d: seq<seq<byte>>, n: nat, begun: seq<byte>, wire: seq<byte>)
    requires n < |d| && begun + wire == d[n]
    ensures (Flatten(d[..n]) + begun) + wire == Flatten(d[..n + 1]) + []
  {
    assert d[..n + 1] == d[..n] + [d[n]];
    FlattenConcat(d[..n], [d[n]]);
    FlattenOne(d[n]);
  }

  lemma ClosingConserves(l: Line)
    requires Conserved(l) && l.open
    ensures Conserved(Closed(l))
  {
    var d, n := OutDatas(l.accepted), |l.codes|;
    assert |Datas(l.chain)| == |d| - n;
    if l.chain != [] {
      assert d[n] == Datas(l.chain)[0] == l.chain[0].data;
    }
    assert l.wire[|Flatten(d[..n])|..] == Begun(l.chain);
    assert WroteFirst(d, n, l.wire);
    assert Closed(l).codes[..n] == l.codes;
    assert forall i :: 0 <= i < n ==> l.codes[i] in l.codes;
  }

  // ----- what it means on the wire -----

  /** Dropping the first buffer, which went out in full. */
  lemma WroteRest(datas: seq<seq<byte>>, n: nat, wire: seq<byte>)
    requires WroteFirst(datas, n, wire) && n > 0
    ensures datas[0] <= wire && WroteFirst(datas[1..], n - 1, wire[|datas[0]|..])
  {
    var d, sent := datas[0], Flatten(datas[1..][..n - 1]);
    assert datas[..n] == [d] + datas[1..][..n - 1];
    FlattenCons(d, datas[1..][..n - 1]);
    assert Flatten(datas[..n]) == d + sent;
    assert wire[..|d|] == d;
    assert wire[|d|..][..|sent|] == sent;
    assert wire[|d|..][|sent|..] == wire[|d + sent|..];
  }

  lemma {:induction false} WroteFirstIsPrefix(datas: seq<seq<byte>>, n: nat, wire: seq<byte>)
    requires WroteFirst(datas, n, wire)
    ensures wire <= Flatten(datas) && Whole(datas, |wire|) == n
    decreases |datas|
  {
    if n == 0 {
      assert datas[..0] == [] && wire[0..] == wire;
    } else {
      var d := datas[0];
      WroteRest(datas, n, wire);
      WroteFirstIsPrefix(datas[1..], n - 1, wire[|d|..]);
      assert wire == d + wire[|d|..];
    }
  }

  /** In both phases there is one number of buffers that went out in full. */
  lemma SentInFull(l: Line) returns (n: nat)
    requires Conserved(l)
    ensures WroteFirst(OutDatas(l.accepted), n, l.wire)
    ensures n <= |l.codes| && forall i :: 0 <= i < |l.codes| ==>
              l.codes[i] == if i < n then SEND_SUCCEED else SEND_FAILD
  {
    if l.open {
      n := |l.codes|;
      ClosingConserves(l);
      var d := OutDatas(l.accepted);
      if l.chain != [] {
        assert d[n] == Datas(l.chain)[0] == l.chain[0].data;
      } else {
        assert |Datas(l.chain)| == |d| - n;
      }
      assert l.wire[|Flatten(d[..n])|..] == Begun(l.chain);
      assert forall i :: 0 <= i < n ==> l.codes[i] in l.codes;
    } else {
      n :| n <= |l.codes| && WroteFirst(OutDatas(l.accepted), n, l.wire)
           && forall i :: 0 <= i < |l.codes| ==> l.codes[i] == if i < n then SEND_SUCCEED else SEND_FAILD;
    }
  }

  /** Bytes written, then bytes still queued, are the bytes of every buffer ever accepted. */
  lemma OpenLineConservesBytes(l: Line)
    requires Conserved(l) && l.open
    ensures l.wire + Unsent(l.chain) == Flatten(OutDatas(l.accepted))
  {
    var d, n := OutDatas(l.accepted), |l.codes|;
    BegunThenUnsent(l.chain);
    FlattenConcat(d[..n], d[n..]);
    assert d[..n] + d[n..] == d;
    assert l.wire + Unsent(l.chain) == Flatten(d[..n]) + (Begun(l.chain) + Unsent(l.chain));
  }

  lemma {:induction false} FreshUnsent(chain: seq<Node>)
    requires Orderly(chain) && (chain != [] ==> chain[0].begin == 0)
    ensures Unsent(chain) == Flatten(Datas(chain))
    decreases chain
  {
    if chain != [] {
      FreshUnsent(chain[1..]);
      DatasCons(chain[0], chain[1..]);
      assert chain == [chain[0]] + chain[1..];
      FlattenCons(chain[0].data, Datas(chain[1..]));
    }
  }

  lemma Rejoin(a: seq<byte>, i: nat, rest: seq<byte>)
    requires i <= |a|
    ensures a[..i] + (a[i..] + rest) == a + rest
  {
    assert a[..i] + (a[i..] + rest) == (a[..i] + a[i..]) + rest;
    assert a[..i] + a[i..] == a;
  }

  lemma FlattenCons(d: seq<byte>, ds: seq<seq<byte>>)
    ensures Flatten([d] + ds) == d + Flatten(ds)
  {
    assert ([d] + ds)[1..] == ds;
  }

  lemma BegunThenUnsent(chain: seq<Node>)
    requires Orderly(chain)
    ensures Begun(chain) + Unsent(chain) == Flatten(Datas(chain))
  {
    if chain != [] {
      var head, rest := chain[0], chain[1..];
      FreshUnsent(rest);
      DatasCons(head, rest);
      assert chain == [head] + rest;
      FlattenCons(head.data, Datas(rest));
      Rejoin(head.data, head.begin, Unsent(rest));
    }
  }

  // ----- every step of the relay keeps every line -----

  ghost predicate LinesConserved(o: Output) {
    && o.lines.Keys !! o.leaving.Keys
    && o.lines.Keys + o.leaving.Keys <= o.logs.Keys
    && (forall b :: b in o.held && o.held[b].InLine? ==> o.held[b].k in o.logs)
    && (forall k :: k in o.logs ==> Conserved(LineOf(o, k)))
  }

  lemma BlocksAreOwned(o: Output, k: int, b: nat)
    requires LinesConserved(o) && k in o.logs && b in LineOf(o, k).blocks
    ensures b in o.held && o.held[b] == InLine(k)
  {
    var l := LineOf(o, k);
    assert Conserved(l) && b in multiset(l.blocks);
  }

  /** A change that leaves a line, its history and its blocks alone. */
  lemma SameLine(o: Output, o': Output, k: int)
    requires k in o.logs && k in o'.logs && o'.logs[k] == o.logs[k]
    requires OutTo(o'.held, InLine(k)) == OutTo(o.held, InLine(k))
    requires SocketOf(o, k) == SocketOf(o', k)
             || (SocketOf(o, k).Some? && SocketOf(o', k).Some?
                 && SocketOf(o', k).value.chain == SocketOf(o, k).value.chain
                 && SocketOf(o', k).value.blocks == SocketOf(o, k).value.blocks)
    ensures LineOf(o', k) == LineOf(o, k)
  {
  }

  lemma OpenedKeepsLines(o: Output, j: int)
    requires LinesConserved(o) && j !in o.logs
    ensures LinesConserved(Opened(o, j))
  {
    var o' := Opened(o, j);
    forall k | k in o'.logs ensures Conserved(LineOf(o', k)) {
      if k in o.logs {
        SameLine(o, o', k);
      } else {
        var l := LineOf(o', k);
        assert l.owned == {} && OutDatas(l.accepted) == [] && Datas(l.chain) == [];
        assert Flatten([]) == [];
      }
    }
  }

  /** A block that is in no line comes or goes. */
  lemma InHandKeepsLines(o: Output, block: nat, w: int)
    requires LinesConserved(o) && (block in o.held ==> !o.held[block].InLine?)
    ensures LinesConserved(Lent(o, w, block)) && LinesConserved(GivenBack(o, block))
  {
    hide Conserved;
    forall k | k in o.logs
      ensures LineOf(Lent(o, w, block), k) == LineOf(o, k) && LineOf(GivenBack(o, block), k) == LineOf(o, k)
    {
      assert OutTo(Lent(o, w, block).held, InLine(k)) == OutTo(o.held, InLine(k));
      assert OutTo(GivenBack(o, block).held, InLine(k)) == OutTo(o.held, InLine(k));
      SameLine(o, Lent(o, w, block), k);
      SameLine(o, GivenBack(o, block), k);
    }
  }

  lemma QueuedLine(o: Output, j: int, out: Out, notify: bool, block: nat, k: int)
    requires j in o.lines && j in o.logs && k in o.logs && (block in o.held ==> !o.held[block].InLine?)
    ensures LineOf(Queued(o, j, out, notify, block), k)
         == if k == j then Extended(LineOf(o, k), out, notify, block) else LineOf(o, k)
  {
    var o' := Queued(o, j, out, notify, block);
    assert OutTo(o'.held, InLine(k)) == OutTo(o.held, InLine(k)) + if k == j then {block} else {};
  }

  lemma QueuedKeepsLines(o: Output, j: int, out: Out, notify: bool, block: nat)
    requires LinesConserved(o) && j in o.lines && (block in o.held ==> !o.held[block].InLine?)
    requires IsFrame(out.data) && (out.source.OwnAck? ==> out.data == ACK)
    ensures LinesConserved(Queued(o, j, out, notify, block))
  {
    hide Conserved, IsFrame;
    var o' := Queued(o, j, out, notify, block);
    forall k | k in o'.logs ensures Conserved(LineOf(o', k)) {
      QueuedLine(o, j, out, notify, block, k);
      if k == j {
        QueueingConserves(LineOf(o, k), out, notify, block);
      }
    }
  }

  lemma AnsweredLine(o: Output, j: int, sent: Outcome, k: int)
    requires LinesConserved(o) && Sendable(o, j) && k in o.logs
    ensures LineOf(Answered(o, j, sent), k) == if k == j then AfterSend(LineOf(o, k), sent) else LineOf(o, k)
  {
    hide Conserved, Orderly;
    var o', b := Answered(o, j, sent), o.lines[j].blocks[0];
    BlocksAreOwned(o, j, b);
    if sent.Finished? {
      assert OutTo(o'.held, InLine(k)) == OutTo(o.held, InLine(k)) - if k == j then {b} else {};
    }
  }

  lemma AnsweredKeepsLines(o: Output, j: int, answer: int)
    requires LinesConserved(o) && Sendable(o, j)
    ensures LinesConserved(Answered(o, j, SendOnce(o.lines[j].chain, answer)))
  {
    hide Conserved, Orderly, SendOnce;
    var sent := SendOnce(o.lines[j].chain, answer);
    var o' := Answered(o, j, sent);
    forall k | k in o'.logs ensures Conserved(LineOf(o', k)) {
      AnsweredLine(o, j, sent, k);
      if k == j {
        AnsweringConserves(LineOf(o, k), answer);
      }
    }
  }

  lemma WokenKeepsLines(o: Output, j: int)
    requires LinesConserved(o)
    ensures LinesConserved(Woken(o, j))
  {
    hide Conserved;
    var o' := Woken(o, j);
    forall k | k in o'.logs ensures Conserved(LineOf(o', k)) {
      SameLine(o, o', k);
    }
  }

  lemma UnpluggedKeepsLines(o: Output, j: int)
    requires LinesConserved(o)
    ensures LinesConserved(Unplugged(o, j))
  {
    hide Conserved;
    var o' := Unplugged(o, j);
    forall k | k in o'.logs ensures Conserved(LineOf(o', k)) {
      SameLine(o, o', k);
    }
  }

  lemma ReclaimedLine(o: Output, j: int, k: int)
    requires LinesConserved(o) && j in o.leaving && k in o.logs
    ensures LineOf(Reclaimed(o, j), k) == if k == j then Closed(LineOf(o, k)) else LineOf(o, k)
  {
    hide Conserved;
    var o', l := Reclaimed(o, j), LineOf(o, j);
    assert l.blocks == o.leaving[j].blocks;
    OpenLineBlocks(l);
    if k == j {
      assert OutTo(o'.held, InLine(k)) == {};
    } else {
      assert OutTo(o'.held, InLine(k)) == OutTo(o.held, InLine(k));
    }
  }

  lemma OpenLineBlocks(l: Line)
    requires Conserved(l) && l.open
    ensures forall b :: b in l.blocks <==> b in l.owned
  {
    forall b ensures b in l.blocks <==> b in l.owned {
      assert b in multiset(l.blocks) <==> b in multiset(l.owned);
    }
  }

  lemma ReclaimedKeepsLines(o: Output, j: int)
    requires LinesConserved(o)
    ensures LinesConserved(Reclaimed(o, j))
  {
    hide Conserved;
    if j in o.leaving {
      var o' := Reclaimed(o, j);
      forall k | k in o'.logs ensures Conserved(LineOf(o', k)) {
        ReclaimedLine(o, j, k);
        if k == j {
          ClosingConserves(LineOf(o, j));
        }
      }
    }
  }

  // ----- the blocks on their way into a line -----

  /** A worker has the one send-pool block that its `SendData` call is filling, and no other. */
  ghost predicate HandsExact(s: State) {
    && (forall w :: 0 <= w < |s.workers| ==> OutTo(s.out.held, WithWorker(w)) == Hand(s.workers[w].work.InHand()))
    && (forall b :: b in s.out.held ==>
          && !s.out.held[b].WithReceiver?
          && (s.out.held[b].WithWorker? ==> 0 <= s.out.held[b].w < |s.workers|))
  }

  lemma InHandIsOut(s: State, w: int)
    requires HandsExact(s) && 0 <= w < |s.workers| && s.workers[w].work.InHand().Some?
    ensures var b := s.workers[w].work.InHand().value; b in s.out.held && s.out.held[b] == WithWorker(w)
  {
    assert s.workers[w].work.InHand().value in OutTo(s.out.held, WithWorker(w));
  }

  lemma CargoIsGood(s: State, w: int)
    requires Delivering(s, w)
    ensures IsFrame(Cargo(s, w).data) && (Cargo(s, w).source.OwnAck? ==> Cargo(s, w).data == ACK)
    ensures s.workers[w].work.InHand() == Some(s.workers[w].work.stage.block)
  {
    AckIsFrame();
  }

  lemma DeliverKeepsLines(s: State, w: int)
    requires LinesConserved(s.out) && HandsExact(s)
    ensures LinesConserved(DoDeliver(s, w).out)
  {
    hide LinesConserved, HandsExact, Cargo, IsFrame, Queued, GivenBack;
    if Delivering(s, w) {
      hide DoDeliver;
      var block := s.workers[w].work.stage.block;
      CargoIsGood(s, w);
      InHandIsOut(s, w);
      if Target(s, w) in s.out.lines && Target(s, w) in s.out.logs {
        DeliverQueues(s, w);
        QueuedKeepsLines(s.out, Target(s, w), Cargo(s, w), s.workers[w].work.Relaying?, block);
      } else {
        DeliverReturns(s, w);
        InHandKeepsLines(s.out, block, w);
      }
    }
  }

  lemma GrabKeepsLines(s: State, w: int, block: Option<nat>)
    requires LinesConserved(s.out)
    ensures LinesConserved(DoGrab(s, w, block).out)
  {
    hide LinesConserved;
    if block.Some? && block.value !in s.out.held {
      InHandKeepsLines(s.out, block.value, w);
    }
  }

  lemma StepKeepsLines(s: State, e: Event)
    requires Staffed(s) && s.out.logs.Keys == s.logs.Keys && LinesConserved(s.out) && HandsExact(s)
    ensures LinesConserved(Step(s, e).out)
  {
    hide LinesConserved, HandsExact, Shard, DoAdmit, DoRead, DoFetch, DoSave, DoCountUp, DoQuit, DoTake, DoExecute;
    hide DoVisit, DoStore, DoCompare;
    hide DoGrab, DoDeliver, DoEndPass, DoRelease, DoCountDown, DoSend, DoWritable, DoUnplug, DoReclaim, Opened;
    if e.Accept? {
      if e.k !in s.logs { OpenedKeepsLines(s.out, e.k); }
    } else if e.Grab? {
      GrabKeepsLines(s, e.w, e.block);
    } else if e.Deliver? {
      DeliverKeepsLines(s, e.w);
    } else if e.Send? || e.Writable? || e.Unplug? || e.Reclaim? {
      SocketKeepsLines(s, e);
    }
  }

  lemma SocketKeepsLines(s: State, e: Event)
    requires LinesConserved(s.out) && Staffed(s) && (e.Send? || e.Writable? || e.Unplug? || e.Reclaim?)
    ensures LinesConserved(Step(s, e).out)
  {
    hide LinesConserved, Answered, SendOnce, Orderly, Woken, Unplugged, Reclaimed;
    if e.Send? {
      if Sendable(s.out, e.k) { AnsweredKeepsLines(s.out, e.k, e.answer); }
    } else if e.Writable? {
      WokenKeepsLines(s.out, e.k);
    } else if e.Unplug? {
      UnpluggedKeepsLines(s.out, e.k);
    } else {
      ReclaimedKeepsLines(s.out, e.k);
    }
  }

  // ----- hands -----

  /** A change of the send pool or of one worker's hand that go together. */
  lemma GrabbedHand(s: State, w: int, block: nat)
    requires HandsExact(s) && Grabbing(s, w) && block !in s.out.held
    ensures HandsExact(DoGrab(s, w, Some(block)))
  {
    var s' := DoGrab(s, w, Some(block));
    forall v | 0 <= v < |s'.workers| ensures OutTo(s'.out.held, WithWorker(v)) == Hand(s'.workers[v].work.InHand()) {
      assert OutTo(s'.out.held, WithWorker(v)) == OutTo(s.out.held, WithWorker(v)) + if v == w then {block} else {};
    }
  }

  lemma CallOverHand(s: State, w: int, fate: Fate)
    requires 0 <= w < |s.workers| && (s.workers[w].work.Acking? || Passing(s, w))
    ensures CallOver(s, w, fate).workers[w].work.InHand() == None
  {
  }

  /** The two ends of a `SendData` call. */
  lemma DeliverQueues(s: State, w: int)
    requires Delivering(s, w) && Target(s, w) in s.out.lines && Target(s, w) in s.out.logs
    ensures DoDeliver(s, w).workers[w].work.InHand() == None
    ensures DoDeliver(s, w).out
              == Queued(s.out, Target(s, w), Cargo(s, w), s.workers[w].work.Relaying?, s.workers[w].work.stage.block)
  {
    hide CallOver, Cargo, Queued;
    var o := Queued(s.out, Target(s, w), Cargo(s, w), s.workers[w].work.Relaying?, s.workers[w].work.stage.block);
    CallOverHand(s.(out := o), w, Accepted);
  }

  lemma DeliverReturns(s: State, w: int)
    requires Delivering(s, w) && !(Target(s, w) in s.out.lines && Target(s, w) in s.out.logs)
    ensures DoDeliver(s, w).workers[w].work.InHand() == None
    ensures DoDeliver(s, w).out == GivenBack(s.out, s.workers[w].work.stage.block)
  {
    hide CallOver, Cargo, Queued, GivenBack;
    CallOverHand(s.(out := GivenBack(s.out, s.workers[w].work.stage.block)), w, NoSocket);
  }

  lemma DeliveredHeld(s: State, w: int)
    requires Delivering(s, w)
    ensures var s', block := DoDeliver(s, w), s.workers[w].work.stage.block;
            && s'.workers[w].work.InHand() == None
            && (s'.out.held == s.out.held - {block} || s'.out.held == s.out.held[block := InLine(Target(s, w))])
  {
    hide DoDeliver, Cargo, Delivering;
    if Target(s, w) in s.out.lines && Target(s, w) in s.out.logs {
      DeliverQueues(s, w);
    } else {
      DeliverReturns(s, w);
    }
  }

  lemma DeliveredHand(s: State, w: int)
    requires HandsExact(s) && Delivering(s, w)
    ensures HandsExact(DoDeliver(s, w))
  {
    hide DoDeliver;
    var s', block := DoDeliver(s, w), s.workers[w].work.stage.block;
    DeliveredHeld(s, w);
    assert s.workers[w].work.InHand() == Some(block);
    InHandIsOut(s, w);
    forall v | 0 <= v < |s'.workers| ensures OutTo(s'.out.held, WithWorker(v)) == Hand(s'.workers[v].work.InHand()) {
      LeftHand(s.out.held, s'.out.held, block, Target(s, w), v);
      assert v != w ==> block !in OutTo(s.out.held, WithWorker(v));
    }
  }

  lemma LeftHand(held: map<nat, Holder>, held': map<nat, Holder>, block: nat, k: int, v: int)
    requires held' == held - {block} || held' == held[block := InLine(k)]
    ensures OutTo(held', WithWorker(v)) == OutTo(held, WithWorker(v)) - {block}
  {
  }

  /** Blocks leave lines, and nothing happens to hands. */
  lemma SameHands(s: State, s': State)
    requires HandsExact(s) && |s'.workers| == |s.workers|
    requires forall w :: 0 <= w < |s.workers| ==> s'.workers[w].work.InHand() == s.workers[w].work.InHand()
    requires s'.out.held.Keys <= s.out.held.Keys && forall b :: b in s'.out.held ==> s'.out.held[b] == s.out.held[b]
    requires forall b :: b in s.out.held && b !in s'.out.held ==> s.out.held[b].InLine?
    ensures HandsExact(s')
  {
    forall w | 0 <= w < |s'.workers| ensures OutTo(s'.out.held, WithWorker(w)) == Hand(s'.workers[w].work.InHand()) {
      assert OutTo(s'.out.held, WithWorker(w)) == OutTo(s.out.held, WithWorker(w));
    }
  }

  lemma AnsweredHeld(o: Output, j: int, sent: Outcome)
    requires LinesConserved(o) && Sendable(o, j)
    ensures var o' := Answered(o, j, sent);
            && o'.held.Keys <= o.held.Keys && (forall b :: b in o'.held ==> o'.held[b] == o.held[b])
            && (forall b :: b in o.held && b !in o'.held ==> o.held[b].InLine?)
  {
    BlocksAreOwned(o, j, o.lines[j].blocks[0]);
  }

  lemma ReclaimedHeld(o: Output, j: int)
    requires LinesConserved(o)
    ensures var o' := Reclaimed(o, j);
            && o'.held.Keys <= o.held.Keys && (forall b :: b in o'.held ==> o'.held[b] == o.held[b])
            && (forall b :: b in o.held && b !in o'.held ==> o.held[b].InLine?)
  {
    if j in o.leaving {
      assert LineOf(o, j).blocks == o.leaving[j].blocks;
      forall b | b in o.leaving[j].blocks ensures b in o.held && o.held[b].InLine? {
        BlocksAreOwned(o, j, b);
      }
    }
  }

  lemma QuietHands(s: State, e: Event, w: int)
    requires Staffed(s) && 0 <= w < |s.workers| && Actor(e) == Some(w)
    requires !(e.Grab? && Grabbing(s, w) && e.block.Some? && e.block.value !in s.out.held)
    requires !(e.Deliver? && Delivering(s, w))
    ensures Step(s, e).workers[w].work.InHand() == s.workers[w].work.InHand()
    ensures Step(s, e).out == s.out
  {
    hide Shard, DoAccept, DoAdmit, DoRead, DoFetch, DoSave, DoCountUp, DoQuit, DoSend, DoWritable, DoUnplug, DoReclaim;
    hide CallOver, Started, Decode, WithLook, WithEnd, LookAt;
    if e.Grab? && Grabbing(s, w) && e.block.None? {
      CallOverHand(s, w, NoBlock);
    }
  }

  lemma StepKeepsHands(s: State, e: Event)
    requires Staffed(s) && LinesConserved(s.out) && HandsExact(s)
    ensures HandsExact(Step(s, e))
  {
    hide LinesConserved, HandsExact, Shard, DoAccept, DoAdmit, DoRead, DoFetch, DoSave, DoCountUp, DoQuit, DoTake;
    hide DoExecute, DoVisit, DoStore, DoCompare;
    hide DoGrab, DoDeliver, DoEndPass, DoRelease, DoCountDown, Answered, SendOnce, Sendable, Opened, Reclaimed;
    hide Grabbing, Delivering;
    if e.Grab? && Grabbing(s, e.w) && e.block.Some? && e.block.value !in s.out.held {
      GrabbedHand(s, e.w, e.block.value);
    } else if e.Deliver? && Delivering(s, e.w) {
      DeliveredHand(s, e.w);
    } else {
      forall w | 0 <= w < |s.workers| ensures Step(s, e).workers[w].work.InHand() == s.workers[w].work.InHand() {
        if Actor(e) == Some(w) {
          QuietHands(s, e, w);
        } else {
          OtherWork(s, e, w);
        }
      }
      QuietHeld(s, e);
      SameHands(s, Step(s, e));
    }
  }

  lemma QuietHeld(s: State, e: Event)
    requires Staffed(s) && LinesConserved(s.out)
    requires !(e.Grab? && Grabbing(s, e.w) && e.block.Some? && e.block.value !in s.out.held)
    requires !(e.Deliver? && Delivering(s, e.w))
    ensures var o, o' := s.out, Step(s, e).out;
            && o'.held.Keys <= o.held.Keys && (forall b :: b in o'.held ==> o'.held[b] == o.held[b])
            && (forall b :: b in o.held && b !in o'.held ==> o.held[b].InLine?)
  {
    hide LinesConserved, Shard, DoAdmit, DoRead, DoFetch, DoSave, DoCountUp, DoQuit, DoTake, DoExecute, DoVisit,
         DoStore, DoCompare;
    hide DoEndPass, DoRelease, DoCountDown, Answered, SendOnce, Orderly, Reclaimed, CallOver;
    if e.Send? && Sendable(s.out, e.k) {
      AnsweredHeld(s.out, e.k, SendOnce(s.out.lines[e.k].chain, e.answer));
    } else if e.Reclaim? {
      ReclaimedHeld(s.out, e.k);
    }
  }
}
