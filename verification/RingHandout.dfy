/**
 The block pool as its threads use it at the same time: free blocks wait in the concurrent ring, a thread has the
 blocks that it made or took, and it pushes only what it has.  In every run each block is in exactly one place.
 */
module RingHandout {
  import opened Prelude
  import R = RingProtocol

  type Block = nat

  /** `made` is the blocks ever allocated. */
  datatype Pool = Pool(ring: R.State<Block>, hands: map<R.Tid, set<Block>>, made: set<Block>) {
    function Hand(t: R.Tid): set<Block> {
      if t in hands then hands[t] else {}
    }

    function Gets(t: R.Tid, b: Block): Pool {
      this.(hands := hands[t := Hand(t) + {b}])
    }

    function Loses(t: R.Tid, b: Block): Pool {
      this.(hands := hands[t := Hand(t) - {b}])
    }
  }

  /**
   `Make` is an allocation, `Give` the start of a `Push` of a block in hand, `Want` the start of a `Pop`, `Go` the next
   step of either, and `Pass` hands a block to another thread.
   */
  datatype Event =
    | Make(t: R.Tid, b: Block)
    | Give(t: R.Tid, b: Block)
    | Want(t: R.Tid)
    | Go(t: R.Tid)
    | Pass(t: R.Tid, u: R.Tid, b: Block)

  /** The block that a step leaves with its thread: one that was refused, or one that was taken. */
  function Won(r: R.State<Block>, t: R.Tid): Option<Block>
    requires r.cap > 0
  {
    match r.At(t)
    case PushLoadRead(v, w) => if (w + 1) % r.cap == r.read % r.cap then Some(v) else None
    case PopAdvance(i, v) => if r.read == i then Some(v) else None
    case _ => None
  }

  function Step(p: Pool, e: Event): Pool
    requires p.ring.cap > 0 && |p.ring.slots| == p.ring.cap
  {
    match e
    case Make(t, b) => if b in p.made then p else p.(made := p.made + {b}).Gets(t, b)
    case Give(t, b) =>
      if p.ring.At(t).Idle? && b in p.Hand(t) then p.(ring := R.Step(p.ring, t, R.Push(b))).Loses(t, b) else p
    case Want(t) => if p.ring.At(t).Idle? then p.(ring := R.Step(p.ring, t, R.Pop)) else p
    case Go(t) =>
      var p' := p.(ring := R.Step(p.ring, t, R.Go));
      if Won(p.ring, t).Some? then p'.Gets(t, Won(p.ring, t).value) else p'
    case Pass(t, u, b) => if b in p.Hand(t) && t != u then p.Loses(t, b).Gets(u, b) else p
  }

  /** In a thread's hand, on the way into the ring, or in the ring under a ticket. */
  datatype Place = InHand(t: R.Tid) | Offered(t: R.Tid) | Ticket(k: nat)

  predicate Offering(pc: R.Pc<Block>) {
    pc.PushLoadWrite? || pc.PushLoadRead? || pc.PushReserve?
  }

  predicate Lies(p: Pool, b: Block, x: Place) {
    match x
    case InHand(t) => b in p.Hand(t)
    case Offered(t) => Offering(p.ring.At(t)) && p.ring.At(t).v == b
    case Ticket(k) => p.ring.read <= k < p.ring.write <= |p.ring.tickets| && p.ring.tickets[k] == b
  }

  /** Every block made is in exactly one place, and nothing else is anywhere. */
  ghost predicate Exclusive(p: Pool) {
    && (forall b, x, y :: Lies(p, b, x) && Lies(p, b, y) ==> x == y)
    && (forall b, x :: Lies(p, b, x) ==> b in p.made)
    && (forall b :: b in p.made ==> exists x :: Lies(p, b, x))
  }

  ghost predicate Inv(p: Pool) {
    R.Inv(p.ring) && Exclusive(p)
  }

  // ----- moving one block -----

  /** Block `b` goes from one place to another, and no other block moves. */
  ghost predicate Moved(p: Pool, p': Pool, b: Block, x: Place, y: Place) {
    && x != y && Lies(p, b, x) && p'.made == p.made
    && forall c, z :: Lies(p', c, z) <==> if c == b then z == y else Lies(p, c, z)
  }

  ghost predicate SamePlaces(p: Pool, p': Pool) {
    p'.made == p.made && forall c, z :: Lies(p', c, z) <==> Lies(p, c, z)
  }

  lemma MovedKeepsExclusive(p: Pool, p': Pool, b: Block, x: Place, y: Place)
    requires Exclusive(p) && Moved(p, p', b, x, y)
    ensures Exclusive(p')
  {
    hide Lies;
    forall c | c in p'.made ensures exists z :: Lies(p', c, z) {
      if c == b {
        assert Lies(p', c, y);
      } else {
        var z :| Lies(p, c, z);
        assert Lies(p', c, z);
      }
    }
  }

  lemma SamePlacesKeepExclusive(p: Pool, p': Pool)
    requires Exclusive(p) && SamePlaces(p, p')
    ensures Exclusive(p')
  {
    hide Lies;
    forall c | c in p'.made ensures exists z :: Lies(p', c, z) {
      var z :| Lies(p, c, z);
      assert Lies(p', c, z);
    }
  }

  lemma MakeKeepsExclusive(p: Pool, t: R.Tid, b: Block)
    requires Exclusive(p) && b !in p.made
    ensures Exclusive(p.(made := p.made + {b}).Gets(t, b))
  {
    var p' := p.(made := p.made + {b}).Gets(t, b);
    forall c, z ensures Lies(p', c, z) <==> Lies(p, c, z) || (c == b && z == InHand(t)) {}
    hide Lies;
    forall c | c in p'.made ensures exists z :: Lies(p', c, z) {
      if c == b {
        assert Lies(p', c, InHand(t));
      } else {
        var z :| Lies(p, c, z);
        assert Lies(p', c, z);
      }
    }
  }

  // ----- every step moves at most one block -----

  lemma GiveMoves(p: Pool, t: R.Tid, b: Block)
    requires Inv(p) && p.ring.At(t).Idle? && b in p.Hand(t)
    ensures Moved(p, Step(p, Give(t, b)), b, InHand(t), Offered(t))
  {
    var p' := Step(p, Give(t, b));
    assert Lies(p, b, InHand(t));
    forall c, z ensures Lies(p', c, z) <==> if c == b then z == Offered(t) else Lies(p, c, z) {
      assert Lies(p, c, z) && c == b ==> z == InHand(t);
    }
  }

  lemma PassMoves(p: Pool, t: R.Tid, u: R.Tid, b: Block)
    requires Inv(p) && b in p.Hand(t) && t != u
    ensures Moved(p, Step(p, Pass(t, u, b)), b, InHand(t), InHand(u))
  {
    var p' := Step(p, Pass(t, u, b));
    assert Lies(p, b, InHand(t));
    forall c, z ensures Lies(p', c, z) <==> if c == b then z == InHand(u) else Lies(p, c, z) {
      assert Lies(p, c, z) && c == b ==> z == InHand(t);
    }
  }

  /** A refused block stays with its thread. */
  lemma RefusalMoves(p: Pool, t: R.Tid)
    requires Inv(p) && p.ring.At(t).PushLoadRead? && Won(p.ring, t).Some?
    ensures Moved(p, Step(p, Go(t)), p.ring.At(t).v, Offered(t), InHand(t))
  {
    var p', b := Step(p, Go(t)), p.ring.At(t).v;
    assert Lies(p, b, Offered(t));
    forall c, z ensures Lies(p', c, z) <==> if c == b then z == InHand(t) else Lies(p, c, z) {
      assert Lies(p, c, z) && c == b ==> z == Offered(t);
    }
  }

  /** A block pushed joins the ring when its slot is reserved. */
  lemma ReserveMoves(p: Pool, t: R.Tid)
    requires Inv(p) && p.ring.At(t).PushReserve? && p.ring.write == p.ring.At(t).w
    ensures Moved(p, Step(p, Go(t)), p.ring.At(t).v, Offered(t), Ticket(p.ring.write))
  {
    var p', b := Step(p, Go(t)), p.ring.At(t).v;
    assert Lies(p, b, Offered(t));
    forall c, z ensures Lies(p', c, z) <==> if c == b then z == Ticket(p.ring.write) else Lies(p, c, z) {
      assert Lies(p, c, z) && c == b ==> z == Offered(t);
    }
  }

  /** A block taken leaves the ring with the read CAS. */
  lemma TakeMoves(p: Pool, t: R.Tid)
    requires Inv(p) && p.ring.At(t).PopAdvance? && p.ring.read == p.ring.At(t).r
    ensures Moved(p, Step(p, Go(t)), p.ring.At(t).v, Ticket(p.ring.read), InHand(t))
  {
    var p', b := Step(p, Go(t)), p.ring.At(t).v;
    assert R.Locals(p.ring, p.ring.At(t));
    assert Lies(p, b, Ticket(p.ring.read));
    forall c, z ensures Lies(p', c, z) <==> if c == b then z == InHand(t) else Lies(p, c, z) {
      assert Lies(p, c, z) && c == b ==> z == Ticket(p.ring.read);
    }
  }

  predicate Moves(p: Pool, t: R.Tid) {
    var pc := p.ring.At(t);
    || (pc.PushLoadRead? && p.ring.cap > 0 && Won(p.ring, t).Some?)
    || (pc.PushReserve? && p.ring.write == pc.w)
    || (pc.PopAdvance? && p.ring.read == pc.r)
  }

  lemma OtherGoMovesNothing(p: Pool, t: R.Tid)
    requires Inv(p) && !Moves(p, t)
    ensures SamePlaces(p, Step(p, Go(t)))
  {
    var p' := Step(p, Go(t));
    assert p'.hands == p.hands && p'.made == p.made;
    assert p'.ring.read == p.ring.read && p'.ring.write == p.ring.write && p'.ring.tickets == p.ring.tickets;
    forall u ensures Offering(p'.ring.At(u)) <==> Offering(p.ring.At(u)) {}
    forall u ensures Offering(p.ring.At(u)) ==> p'.ring.At(u).v == p.ring.At(u).v {}
  }

  lemma WantMovesNothing(p: Pool, t: R.Tid)
    requires Inv(p)
    ensures SamePlaces(p, Step(p, Want(t)))
  {
    var p' := Step(p, Want(t));
    forall u ensures Offering(p'.ring.At(u)) <==> Offering(p.ring.At(u)) {}
    forall u ensures Offering(p.ring.At(u)) ==> p'.ring.At(u).v == p.ring.At(u).v {}
  }

  /** What a step of the pool is for the ring. */
  lemma RingSteps(p: Pool, e: Event)
    requires R.Inv(p.ring)
    ensures R.Inv(Step(p, e).ring)
  {
    hide R.Inv;
    match e
    case Give(t, b) => R.StepKeepsInv(p.ring, t, R.Push(b));
    case Want(t) => R.StepKeepsInv(p.ring, t, R.Pop);
    case Go(t) => R.StepKeepsInv(p.ring, t, R.Go);
    case _ =>
  }

  lemma GoKeepsExclusive(p: Pool, t: R.Tid)
    requires Inv(p)
    ensures Exclusive(Step(p, Go(t)))
  {
    hide Exclusive, Moved, SamePlaces, Step;
    var pc := p.ring.At(t);
    if !Moves(p, t) {
      OtherGoMovesNothing(p, t);
      SamePlacesKeepExclusive(p, Step(p, Go(t)));
    } else if pc.PushLoadRead? {
      RefusalMoves(p, t);
      MovedKeepsExclusive(p, Step(p, Go(t)), pc.v, Offered(t), InHand(t));
    } else if pc.PushReserve? {
      ReserveMoves(p, t);
      MovedKeepsExclusive(p, Step(p, Go(t)), pc.v, Offered(t), Ticket(p.ring.write));
    } else {
      TakeMoves(p, t);
      MovedKeepsExclusive(p, Step(p, Go(t)), pc.v, Ticket(p.ring.read), InHand(t));
    }
  }

  lemma StepKeepsInv(p: Pool, e: Event)
    requires Inv(p)
    ensures Inv(Step(p, e))
  {
    RingSteps(p, e);
    hide Exclusive, Moved, SamePlaces, R.Inv, Lies;
    match e
    case Make(t, b) => if b !in p.made { MakeKeepsExclusive(p, t, b); }
    case Give(t, b) =>
      if p.ring.At(t).Idle? && b in p.Hand(t) {
        GiveMoves(p, t, b);
        MovedKeepsExclusive(p, Step(p, e), b, InHand(t), Offered(t));
      }
    case Want(t) =>
      WantMovesNothing(p, t);
      SamePlacesKeepExclusive(p, Step(p, e));
    case Go(t) => GoKeepsExclusive(p, t);
    case Pass(t, u, b) =>
      if b in p.Hand(t) && t != u {
        PassMoves(p, t, u, b);
        MovedKeepsExclusive(p, Step(p, e), b, InHand(t), InHand(u));
      }
  }

  // ----- runs -----

  /** A pool over an empty ring, with no block yet. */
  predicate Init(p: Pool) {
    R.Init(p.ring) && p.hands == map[] && p.made == {}
  }

  function Run(p: Pool, events: seq<Event>): Pool
    requires p.ring.cap > 0 && |p.ring.slots| == p.ring.cap
    decreases events
  {
    if events == [] then p else Run(Step(p, events[0]), events[1..])
  }

  lemma {:induction false} RunKeepsInv(p: Pool, events: seq<Event>)
    requires Inv(p)
    ensures Inv(Run(p, events))
    decreases events
  {
    hide Exclusive, Step, R.Stored, R.Stale, R.Counted, R.Ownership;
    if events != [] {
      StepKeepsInv(p, events[0]);
      RunKeepsInv(Step(p, events[0]), events[1..]);
    }
  }

  /**
   Safe hand-out, in every run of any number of threads: no block is in two hands, or in a hand and in the ring, or in
   the ring twice; and no block is lost: whatever was made is in a hand, on its way into the ring, or in it.
   */
  lemma BlocksAreExclusive(p0: Pool, events: seq<Event>)
    requires Init(p0)
    ensures var p := Run(p0, events);
            && R.Window(p.ring)
            && (forall b, x, y :: Lies(p, b, x) && Lies(p, b, y) ==> x == y)
            && (forall t, u :: t != u ==> p.Hand(t) !! p.Hand(u))
            && (forall t, i :: 0 <= i < |R.Contents(p.ring)| ==> R.Contents(p.ring)[i] !in p.Hand(t))
            && (forall i, j :: 0 <= i < j < |R.Contents(p.ring)| ==> R.Contents(p.ring)[i] != R.Contents(p.ring)[j])
            && (forall b :: b in p.made <==> exists x :: Lies(p, b, x))
  {
    R.InitHolds(p0.ring);
    RunKeepsInv(p0, events);
    var p := Run(p0, events);
    forall t, u, b | b in p.Hand(t) && b in p.Hand(u) ensures t == u {
      assert Lies(p, b, InHand(t)) && Lies(p, b, InHand(u));
    }
    forall i | 0 <= i < |R.Contents(p.ring)| ensures Lies(p, R.Contents(p.ring)[i], Ticket(p.ring.read + i)) {}
    forall t, i | 0 <= i < |R.Contents(p.ring)| ensures R.Contents(p.ring)[i] !in p.Hand(t) {
      assert R.Contents(p.ring)[i] in p.Hand(t) ==> Lies(p, R.Contents(p.ring)[i], InHand(t));
    }
  }
}
