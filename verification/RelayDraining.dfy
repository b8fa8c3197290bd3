/**
 A connection that is not read is read again after as many completions as its backlog, whatever the other threads do
 in the meantime.
 */
module RelayDraining {
  import opened Sessions
  import opened Relay
  import opened RelayInbound
  import opened RelayTheorems
  import Connection = RelayConnection

  /** The frames of `k` that a step counts off. */
  function CountedOff(s: State, e: Event, k: int): (n: nat)
    requires Staffed(s) && k >= 0
    ensures n <= 1
  {
    if k in s.logs && Connection.MoveOf(s, e, k).Completed? then 1 else 0
  }

  /** The frames of `k` that a step counts up. */
  function CountedUp(s: State, e: Event, k: int): nat
    requires Staffed(s) && k >= 0
  {
    if k in s.logs && Connection.MoveOf(s, e, k).CountedUp? then Uncounted(s, k) else 0
  }

  function Completions(s: State, events: seq<Event>, k: int): nat
    requires Staffed(s) && k >= 0
    decreases events
  {
    if events == [] then 0
    else CountedOff(s, events[0], k) + Completions(Step(s, events[0]), events[1..], k)
  }

  function Arrivals(s: State, events: seq<Event>, k: int): nat
    requires Staffed(s) && k >= 0
    decreases events
  {
    if events == [] then 0
    else CountedUp(s, events[0], k) + Arrivals(Step(s, events[0]), events[1..], k)
  }

  /** `k` is a client all along a run. */
  predicate StaysClient(s: State, events: seq<Event>, k: int)
    requires Staffed(s)
    decreases events
  {
    k in s.clients && (events != [] ==> StaysClient(Step(s, events[0]), events[1..], k))
  }

  /** `k` is a client that is not read all along a run. */
  predicate StaysOff(s: State, events: seq<Event>, k: int)
    requires Staffed(s)
    decreases events
  {
    k in s.clients && !s.clients[k].reading && (events != [] ==> StaysOff(Step(s, events[0]), events[1..], k))
  }

  // ----- one step -----

  lemma ClientAfterMove(c: Connection.Conn, m: Connection.Move)
    requires Connection.Can(c, m) && c.client.Some? && c.log.admitted && Connection.Apply(c, m).client.Some?
    ensures var x, y := c.client.value, Connection.Apply(c, m).client.value;
            match m
            case CountedUp => y == Increase(x, c.parsing.value.1)
            case Completed => y == Decrease(x)
            case _ => y.frameCount == x.frameCount && y.reading == x.reading
  {
  }

  lemma ClientIsThrottled(s: State, k: int)
    requires Inv(s) && k in s.clients
    ensures Wired(s) && k >= 0 && k in s.logs && s.logs[k].admitted && Throttled(s.clients[k])
  {
    hide Shard;
    assert Connection.Sound(Connection.View(s, k));
  }

  /** The count changes by the frames counted, and reading stops or goes on only by counting. */
  lemma StepCounts(s: State, e: Event, k: int)
    requires Inv(s) && k in s.clients && k in Step(s, e).clients
    ensures k >= 0
    ensures var c, c', up, off := s.clients[k], Step(s, e).clients[k], CountedUp(s, e, k), CountedOff(s, e, k);
            && c'.frameCount == c.frameCount + up - off
            && c'.reading == ((c.reading && (up == 0 || c'.frameCount <= HIGH)) || (off == 1 && c'.frameCount < LOW))
  {
    hide Inv, Wired, Shard, Step, Connection.Of, Connection.CarryOf;
    ClientIsThrottled(s, k);
    Connection.StepMoves(s, e, k);
    ClientAfterMove(Connection.View(s, k), Connection.MoveOf(s, e, k));
  }

  // ----- runs -----

  lemma {:induction false} RunCounts(s: State, events: seq<Event>, k: int)
    requires Inv(s) && StaysClient(s, events, k)
    ensures k >= 0 && Inv(Run(s, events)) && k in Run(s, events).clients
    ensures Run(s, events).clients[k].frameCount
              == s.clients[k].frameCount + Arrivals(s, events, k) - Completions(s, events, k)
    decreases events
  {
    assert k >= 0 && Staffed(s);
    hide Inv, Step, CountedUp, CountedOff;
    if events != [] {
      StepCounts(s, events[0], k);
      StepKeepsInv(s, events[0]);
      RunCounts(Step(s, events[0]), events[1..], k);
    }
  }

  lemma {:induction false} OffStaysClient(s: State, events: seq<Event>, k: int)
    requires Staffed(s) && StaysOff(s, events, k)
    ensures StaysClient(s, events, k)
    ensures k in Run(s, events).clients && !Run(s, events).clients[k].reading
    decreases events
  {
    hide Step;
    if events != [] {
      OffStaysClient(Step(s, events[0]), events[1..], k);
    }
  }

  /**
   As long as `k` is not read, no more of its frames are completed than its backlog above the low mark and what is
   added to it.
   */
  lemma DrainingIsBounded(s: State, events: seq<Event>, k: int)
    requires Reachable(s) && Staffed(s) && k in s.clients && StaysOff(s, events, k)
    ensures k >= 0
    ensures Completions(s, events, k) <= s.clients[k].frameCount - LOW + Arrivals(s, events, k)
  {
    hide Inv, Reachable;
    EveryRun(s);
    OffStaysClient(s, events, k);
    RunCounts(s, events, k);
    ClientIsThrottled(Run(s, events), k);
  }

  lemma StepOffUntilLow(s: State, e: Event, k: int)
    requires Inv(s) && k in s.clients && (s.clients[k].reading <==> s.clients[k].frameCount < LOW)
    requires k in Step(s, e).clients && k >= 0 && CountedUp(s, e, k) == 0
    ensures Step(s, e).clients[k].reading <==> Step(s, e).clients[k].frameCount < LOW
  {
    hide Inv, Step, CountedUp, CountedOff;
    StepCounts(s, e, k);
  }

  /** The first step of a run with a client. */
  lemma FirstCounts(s: State, events: seq<Event>, k: int)
    requires Staffed(s) && StaysClient(s, events, k) && k >= 0
    ensures k in s.clients
    ensures events != [] ==>
              var s', rest := Step(s, events[0]), events[1..];
              && StaysClient(s', rest, k) && k in s'.clients
              && Arrivals(s, events, k) == CountedUp(s, events[0], k) + Arrivals(s', rest, k)
  {
    hide Step, CountedUp;
  }

  /** With nothing added, a client is read exactly below the low mark once it has been stopped. */
  lemma {:induction false} OffUntilLow(s: State, events: seq<Event>, k: int)
    requires Inv(s) && StaysClient(s, events, k) && (s.clients[k].reading <==> s.clients[k].frameCount < LOW)
    requires k >= 0 && Arrivals(s, events, k) == 0
    ensures k in Run(s, events).clients
    ensures Run(s, events).clients[k].reading <==> Run(s, events).clients[k].frameCount < LOW
    decreases events
  {
    assert Staffed(s);
    FirstCounts(s, events, k);
    hide Inv, Step, CountedUp, CountedOff, StaysClient, Arrivals;
    if events != [] {
      StepOffUntilLow(s, events[0], k);
      StepKeepsInv(s, events[0]);
      OffUntilLow(Step(s, events[0]), events[1..], k);
    }
  }

  /** With nothing added, reading goes on after exactly `frameCount - LOW + 1` completions, not sooner and not later. */
  lemma DrainingResumes(s: State, events: seq<Event>, k: int)
    requires Reachable(s) && Staffed(s) && k in s.clients && !s.clients[k].reading && StaysClient(s, events, k)
    requires k >= 0 && Arrivals(s, events, k) == 0
    ensures k in Run(s, events).clients
    ensures Run(s, events).clients[k].reading <==> Completions(s, events, k) >= s.clients[k].frameCount - LOW + 1
  {
    hide Inv, Reachable;
    EveryRun(s);
    ClientIsThrottled(s, k);
    OffUntilLow(s, events, k);
    RunCounts(s, events, k);
  }
}
