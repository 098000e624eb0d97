/** What every run of the deque protocol guarantees. */
module DequeTheorems {
  import opened Options
  import opened RingIndex
  import opened DequeProtocol
  import opened DequeProof

  /** One step, by any thread at any moment, is a stutter or one operation of the atomic deque. */
  lemma {:induction false} StepRefines(s: State, m: Move)
    requires Inv(s)
    ensures var (s', e) := Step(s, m); Inv(s') && AtomicStep(Queue(s), e, Queue(s'))
  {
    match m
    case ByOwner(call) =>
      OwnerLayout(s, call);
      OwnerOwned(s, call);
    case ByThief(k) =>
      if k < |s.thieves| {
        ThiefLayout(s, k);
        ThiefOwned(s, k);
      }
  }

  lemma {:induction false} InitialInv(capacity: nat, thieves: nat)
    requires IsPow2(capacity)
    ensures Inv(Initial(capacity, thieves)) && Queue(Initial(capacity, thieves)) == []
  {
  }

  /** A run of the atomic deque producing a trace. */
  ghost predicate AtomicRun(q: seq<Box>, es: seq<Event>, q': seq<Box>)
    decreases |es|
  {
    if es == [] then q' == q
    else exists q1 :: AtomicStep(q, es[0], q1) && AtomicRun(q1, es[1..], q')
  }

  /** Every run refines a run of the atomic deque with the same trace. */
  lemma {:induction false} RunRefines(s: State, moves: seq<Move>)
    requires Inv(s)
    ensures var (s', es) := Run(s, moves); Inv(s') && AtomicRun(Queue(s), es, Queue(s'))
    decreases |moves|
  {
    if moves != [] {
      var (s1, e) := Step(s, moves[0]);
      StepRefines(s, moves[0]);
      RunRefines(s1, moves[1..]);
      var (s', es) := Run(s, moves);
      assert es[0] == e && es[1..] == Run(s1, moves[1..]).1;
    }
  }

  // Exactly once

  function PushOf(e: Event): seq<Box> { if e.Pushed? then [e.box] else [] }
  function PopOf(e: Event): seq<Box> { if e.Popped? then [e.box] else [] }
  function StealOf(e: Event): seq<Box> { if e.Stole? then [e.box] else [] }

  function PushesOf(es: seq<Event>): seq<Box>
  {
    if es == [] then [] else PushOf(es[0]) + PushesOf(es[1..])
  }

  function PopsOf(es: seq<Event>): seq<Box>
  {
    if es == [] then [] else PopOf(es[0]) + PopsOf(es[1..])
  }

  function StealsOf(es: seq<Event>): seq<Box>
  {
    if es == [] then [] else StealOf(es[0]) + StealsOf(es[1..])
  }

  lemma {:induction false} StepConserves(q: seq<Box>, e: Event, q': seq<Box>)
    requires AtomicStep(q, e, q')
    ensures multiset(q) + multiset(PushOf(e)) == multiset(PopOf(e)) + multiset(StealOf(e)) + multiset(q')
  {
  }

  lemma {:induction false} Rearrange(
      q: multiset<Box>, p: multiset<Box>, o: multiset<Box>, t: multiset<Box>, q1: multiset<Box>,
      p1: multiset<Box>, o1: multiset<Box>, t1: multiset<Box>, q': multiset<Box>)
    requires q + p == o + t + q1 && q1 + p1 == o1 + t1 + q'
    ensures q + (p + p1) == (o + o1) + (t + t1) + q'
  {
    forall x ensures (q + (p + p1))[x] == ((o + o1) + (t + t1) + q')[x] {
      assert q[x] + p[x] == (q + p)[x] == o[x] + t[x] + q1[x];
      assert q1[x] + p1[x] == (q1 + p1)[x] == o1[x] + t1[x] + q'[x];
    }
  }

  /** The atomic deque neither loses nor invents items. */
  lemma {:induction false} AtomicConserves(q: seq<Box>, es: seq<Event>, q': seq<Box>)
    requires AtomicRun(q, es, q')
    ensures multiset(q) + multiset(PushesOf(es)) == multiset(PopsOf(es)) + multiset(StealsOf(es)) + multiset(q')
    decreases |es|
  {
    if es != [] {
      var e, rest := es[0], es[1..];
      var q1 :| AtomicStep(q, e, q1) && AtomicRun(q1, rest, q');
      StepConserves(q, e, q1);
      AtomicConserves(q1, rest, q');
      Rearrange(multiset(q), multiset(PushOf(e)), multiset(PopOf(e)), multiset(StealOf(e)), multiset(q1),
                multiset(PushesOf(rest)), multiset(PopsOf(rest)), multiset(StealsOf(rest)), multiset(q'));
    }
  }

  predicate Increasing(xs: seq<Box>, low: int)
  {
    forall i :: 0 <= i < |xs| ==> low <= xs[i] && (i > 0 ==> xs[i - 1] < xs[i])
  }

  /** The box the owner is about to publish, or else the next one it can allocate. */
  function NextBox(s: State): int
  {
    if s.owner.PushRaiseBottom? then s.owner.box else s.count
  }

  lemma {:induction false} NextBoxStep(s: State, m: Move)
    requires Inv(s)
    ensures var (s', e) := Step(s, m);
      if e.Pushed? then e.box == NextBox(s) && NextBox(s') == NextBox(s) + 1 else NextBox(s') == NextBox(s)
  {
    match m
    case ByOwner(call) =>
    case ByThief(k) =>
      if k < |s.thieves| {
        ThiefTop(s, k);
        assert Step(s, m) == ThiefStep(s, k);
      }
  }

  lemma {:induction false} IncreasingCons(e: Event, rest: seq<Box>, low: int)
    requires Increasing(rest, if e.Pushed? then low + 1 else low)
    requires e.Pushed? ==> e.box == low
    ensures Increasing(PushOf(e) + rest, low)
  {
    var all := PushOf(e) + rest;
    if e.Pushed? {
      assert forall i :: 0 < i < |all| ==> all[i] == rest[i - 1];
    } else {
      assert all == rest;
    }
  }

  lemma {:induction false} PushesIncrease(s: State, moves: seq<Move>)
    requires Inv(s)
    ensures Increasing(PushesOf(Run(s, moves).1), NextBox(s))
    decreases |moves|
  {
    if moves != [] {
      var (s1, e) := Step(s, moves[0]);
      StepRefines(s, moves[0]);
      NextBoxStep(s, moves[0]);
      PushesIncrease(s1, moves[1..]);
      var es := Run(s, moves).1;
      assert es[0] == e && es[1..] == Run(s1, moves[1..]).1;
      IncreasingCons(e, PushesOf(es[1..]), NextBox(s));
    }
  }

  /**
   Exactly once. Along every run of a new deque the pushed boxes are pairwise different, and they are
   precisely the boxes taken by `pop`, those taken by `steal` and those still queued. No step has
   used or freed a freed box, dereferenced null or computed a negative index.
   */
  lemma {:induction false} ExactlyOnce(capacity: nat, thieves: nat, moves: seq<Move>)
    requires IsPow2(capacity)
    ensures var (s, es) := Run(Initial(capacity, thieves), moves);
      && multiset(PushesOf(es)) == multiset(PopsOf(es)) + multiset(StealsOf(es)) + multiset(Queue(s))
      && Increasing(PushesOf(es), 0) && !s.fault
  {
    var s0 := Initial(capacity, thieves);
    var (s, es) := Run(s0, moves);
    InitialInv(capacity, thieves);
    RunRefines(s0, moves);
    AtomicConserves([], es, Queue(s));
    PushesIncrease(s0, moves);
  }

  // What a call returns

  /**
   A thread that linearised a pop or a steal of `x` keeps `x` claimed until it frees the box and
   returns it; a steal that won its race never meets a null slot, however old the buffer it read.
   */
  lemma {:induction false} ClaimIsReturned(s: State, m: Move)
    requires Inv(s)
    ensures var (s', e) := Step(s, m);
      match m
      case ByOwner(_) =>
        && (e.Popped? ==> OwnerClaim(s') == Some(e.box))
        && (e.FoundEmpty? ==> s'.owner.PopUndo? || s'.owner == Resting(None))
        && (s.owner.PopUndo? ==> s'.owner == Resting(None))
        && (OwnerClaim(s).Some? && !Pushing(s.owner) ==>
              var x := OwnerClaim(s).value;
              if s'.owner.Resting? then s'.owner.result == Some(x) && x in s.live && s'.live == s.live - {x}
              else OwnerClaim(s') == Some(x))
      case ByThief(k) => k < |s.thieves| ==>
        && (e.Stole? ==> s'.thieves[k] == Take(Some(e.box)))
        && (e.GaveUp? ==> s'.thieves[k] == Idle(None))
        && (s.thieves[k].Take? ==>
              && s.thieves[k].ptr.Some? && s.thieves[k].ptr.value in s.live
              && s'.thieves[k] == Idle(s.thieves[k].ptr) && s'.live == s.live - {s.thieves[k].ptr.value})
  {
    match m
    case ByOwner(call) =>
      OwnerClaimChange(s, call);
      assert Claims(s)[0] == OwnerClaim(s);
    case ByThief(k) =>
      if k < |s.thieves| {
        assert ThiefOk(s, s.thieves[k]);
        assert Claims(s)[k + 1] == ThiefClaim(s.thieves[k]);
      }
  }

  lemma {:induction false} QueueHead(s: State)
    requires Window(s) && s.top < LogicalBottom(s)
    ensures Queue(s) != [] && Load(s.current, s.top) == Some(Queue(s)[0])
    ensures |Queue(s)| == LogicalBottom(s) - s.top
  {
    ItemsEnds(s.current, s.top, LogicalBottom(s));
    assert Load(s.current, s.top).Some?;
    assert Queue(s)[0] == Unbox(Load(s.current, s.top));
  }

  /**
   The pointer a thief is about to compare-exchange for is, if the exchange can still succeed, the
   oldest queued box: growing and slot reuse since its reads do not matter.
   */
  lemma {:induction false} StaleReadIsExact(s: State, k: nat)
    requires Inv(s) && k < |s.thieves| && s.thieves[k].Cas? && s.thieves[k].t == s.top
    ensures Queue(s) != [] && s.thieves[k].ptr == Some(Queue(s)[0])
  {
    assert ThiefOk(s, s.thieves[k]);
    QueueHead(s);
  }

  /** The same for the owner's last-item exchange: then the queue is that one item. */
  lemma {:induction false} LastItemIsExact(s: State)
    requires Inv(s) && s.owner.PopCas? && s.owner.t == s.top
    ensures s.owner.ptr.Some? && Queue(s) == [s.owner.ptr.value]
  {
    QueueHead(s);
  }

  /** While any other thread steps, a claim stays with its thread and its box stays allocated. */
  lemma {:induction false} ClaimIsSafe(s: State, m: Move, h: nat)
    requires Inv(s) && h < |Claims(s)| && Claims(s)[h].Some?
    requires h != match m case ByOwner(_) => 0 case ByThief(k) => k + 1
    ensures var s' := Step(s, m).0;
      |Claims(s')| == |Claims(s)| && Claims(s')[h] == Claims(s)[h] && Claims(s)[h].value in s'.live
  {
    StepRefines(s, m);
    var s' := Step(s, m).0;
    match m {
      case ByOwner(call) =>
        assert s'.thieves == s.thieves;
        OwnerClaims(s, s');
      case ByThief(k) =>
        if k < |s.thieves| { ThiefAccounts(s, k); }
    }
  }

  // What a steal that returns nothing means

  /** A pop has lowered `bottom` onto the only item and has not decided whose it is. */
  predicate Contested(s: State)
  {
    match s.owner
    case PopReadTop(b, _) => s.top == b
    case PopReadSlot(b, t, _) => t == b && s.top == b
    case PopRestore(b, _, _) => s.top == b
    case _ => false
  }

  /**
   Exactly when a steal gives up on a queue that is not empty. If it gives up on the indices it read, that
   is when a pop is contesting the one item; if it lost its exchange, somebody else's has won since it
   began, and the queue may hold anything.
   */
  lemma {:induction false} GivingUpOnAnItem(s: State, k: nat)
    requires Inv(s) && k < |s.thieves| && Step(s, ByThief(k)).1 == GaveUp
    ensures Queue(s) != [] <==> s.top < s.bottom || Contested(s)
    ensures s.thieves[k].ReadBottom? ==> s.top >= s.bottom && |Queue(s)| <= 1
    ensures s.thieves[k].Cas? ==> s.thieves[k].t < s.top
    ensures s.thieves[k].ReadBottom? || s.thieves[k].Cas?
  {
    assert ThiefOk(s, s.thieves[k]);
    assert s.thieves[k].ReadBottom? ==> s.bottom <= s.thieves[k].t <= s.top;
  }

  lemma {:induction false} RunSplits(s: State, first: seq<Move>, rest: seq<Move>)
    ensures var (s1, es1) := Run(s, first); var (s2, es2) := Run(s1, rest);
      Run(s, first + rest) == (s2, es1 + es2)
    decreases |first|
  {
    if first == [] {
      assert [] + rest == rest;
      assert [] + Run(s, rest).1 == Run(s, rest).1;
    } else {
      var (s0, e) := Step(s, first[0]);
      RunSplits(s0, first[1..], rest);
      assert (first + rest)[1..] == first[1..] + rest;
      assert [e] + (Run(s0, first[1..]).1 + Run(Run(s0, first[1..]).0, rest).1) ==
             [e] + Run(s0, first[1..]).1 + Run(Run(s0, first[1..]).0, rest).1;
    }
  }

  predicate StepAt(h: seq<State>, moves: seq<Move>, es: seq<Event>, i: nat)
    requires i < |moves| == |es| && |h| == |moves| + 1
  {
    Step(h[i], moves[i]) == (h[i + 1], es[i])
  }

  /** A run spelt out state by state. */
  lemma {:induction false} RunThrough(h: seq<State>, moves: seq<Move>, es: seq<Event>)
    requires |moves| == |es| && |h| == |moves| + 1
    requires forall i :: 0 <= i < |moves| ==> StepAt(h, moves, es, i)
    ensures Run(h[0], moves) == (h[|moves|], es)
    decreases |moves|
  {
    if moves != [] {
      assert StepAt(h, moves, es, 0);
      forall i | 0 <= i < |moves| - 1 ensures StepAt(h[1..], moves[1..], es[1..], i) {
        assert StepAt(h, moves, es, i + 1);
      }
      RunThrough(h[1..], moves[1..], es[1..]);
      assert [es[0]] + es[1..] == es;
    }
  }

  const PUSH := ByOwner(DoPush)
  const POP := ByOwner(DoPop)

  /** A one-slot deque with two thieves, holding box 0, the owner at `owner` and the thieves as given. */
  function Holding(bottom: int, owner: Owner, thieves: seq<Thief>): State
  {
    State(0, bottom, [], RawBuffer(1, [Some(0)]), {0}, 1, owner, thieves, false, 0, 0, 1)
  }

  lemma {:induction false} PushOne()
    ensures Run(Initial(1, 2), [PUSH, PUSH, PUSH, PUSH, PUSH]) ==
            (Holding(1, Resting(None), [Idle(None), Idle(None)]), [Tau, Tau, Tau, Tau, Pushed(0)])
  {
    var s0 := Initial(1, 2);
    assert s0 == State(0, 0, [], RawBuffer(1, [None]), {}, 0, Resting(None), [Idle(None), Idle(None)], false, 0, 0, 0);
    assert Index(0, 1) == 0;
    var s1 := s0.(owner := PushReadTop(0));
    var s2 := s0.(owner := PushReadBuffer(0, 0));
    var s3 := s0.(owner := PushWriteSlot(0, 0));
    var s4 := s0.(owner := PushRaiseBottom(0, 0), current := RawBuffer(1, [Some(0)]), live := {0}, count := 1);
    assert Step(s0, PUSH) == (s1, Tau) && Step(s1, PUSH) == (s2, Tau) && Step(s2, PUSH) == (s3, Tau);
    assert Step(s3, PUSH).0.current.slots == s4.current.slots && Step(s3, PUSH).0.live == s4.live;
    assert Step(s3, PUSH) == (s4, Tau);
    var s5 := Holding(1, Resting(None), [Idle(None), Idle(None)]);
    assert Step(s4, PUSH) == (s5, Pushed(0));
    RunThrough([s0, s1, s2, s3, s4, s5], [PUSH, PUSH, PUSH, PUSH, PUSH], [Tau, Tau, Tau, Tau, Pushed(0)]);
  }

  /** Thief 0 reads `top`, the owner lowers `bottom`, thief 0 gives up. */
  lemma {:induction false} FirstThief()
    ensures Run(Holding(1, Resting(None), [Idle(None), Idle(None)]), [ByThief(0), POP, POP, POP, ByThief(0)]) ==
            (Holding(0, PopReadTop(0, 0), [Idle(None), Idle(None)]), [Tau, Tau, Tau, Tau, GaveUp])
  {
    var idle, t := Idle(None), ByThief(0);
    var s0 := Holding(1, Resting(None), [idle, idle]);
    var s1 := Holding(1, Resting(None), [ReadBottom(0), idle]);
    var s2 := Holding(1, PopReadBuffer(0), [ReadBottom(0), idle]);
    var s3 := Holding(1, PopLowerBottom(0, 0), [ReadBottom(0), idle]);
    var s4 := Holding(0, PopReadTop(0, 0), [ReadBottom(0), idle]);
    var s5 := Holding(0, PopReadTop(0, 0), [idle, idle]);
    assert [idle, idle][0 := ReadBottom(0)] == [ReadBottom(0), idle] && [ReadBottom(0), idle][0 := idle] == [idle, idle];
    assert Step(s0, t) == (s1, Tau) && Step(s1, POP) == (s2, Tau) && Step(s2, POP) == (s3, Tau);
    assert Step(s3, POP) == (s4, Tau) && Step(s4, t) == (s5, GaveUp);
    RunThrough([s0, s1, s2, s3, s4, s5], [t, POP, POP, POP, t], [Tau, Tau, Tau, Tau, GaveUp]);
  }

  /** The owner reads `top` and its slot and restores `bottom`. */
  lemma {:induction false} OwnerRestores()
    ensures Run(Holding(0, PopReadTop(0, 0), [Idle(None), Idle(None)]), [POP, POP, POP]) ==
            (Holding(1, PopCas(0, 0, Some(0)), [Idle(None), Idle(None)]), [Tau, Tau, Tau])
  {
    var idle := [Idle(None), Idle(None)];
    assert Index(0, 1) == 0;
    var s0 := Holding(0, PopReadTop(0, 0), idle);
    var s1 := Holding(0, PopReadSlot(0, 0, 0), idle);
    var s2 := Holding(0, PopRestore(0, 0, Some(0)), idle);
    var s3 := Holding(1, PopCas(0, 0, Some(0)), idle);
    assert Step(s0, POP) == (s1, Tau) && Step(s1, POP) == (s2, Tau) && Step(s2, POP) == (s3, Tau);
    RunThrough([s0, s1, s2, s3], [POP, POP, POP], [Tau, Tau, Tau]);
  }

  /** Thief 1 begins only now; it wins the item and the owner's exchange fails. */
  lemma {:induction false} SecondThief()
    ensures var t := ByThief(1);
      var (s, es) := Run(Holding(1, PopCas(0, 0, Some(0)), [Idle(None), Idle(None)]), [t, t, t, t, t, POP]);
      && es == [Tau, Tau, Tau, Tau, Stole(0), FoundEmpty]
      && s.owner == Resting(None) && s.thieves == [Idle(None), Take(Some(0))]
  {
    var idle, t, o := Idle(None), ByThief(1), PopCas(0, 0, Some(0));
    assert Index(0, 1) == 0;
    var s0 := Holding(1, o, [idle, idle]);
    var s1 := Holding(1, o, [idle, ReadBottom(0)]);
    var s2 := Holding(1, o, [idle, ReadBuffer(0)]);
    var s3 := Holding(1, o, [idle, ReadSlot(0, 0)]);
    var s4 := Holding(1, o, [idle, Cas(0, Some(0))]);
    var s5 := Holding(1, o, [idle, Take(Some(0))]).(top := 1, won := 1);
    var s6 := s5.(owner := Resting(None), lost := 1);
    forall a: Thief, b ensures [idle, a][1 := b] == [idle, b] {}
    assert Step(s0, t) == (s1, Tau) && Step(s1, t) == (s2, Tau) && Step(s2, t) == (s3, Tau);
    assert Step(s3, t) == (s4, Tau) && Step(s4, t) == (s5, Stole(0)) && Step(s5, POP) == (s6, FoundEmpty);
    RunThrough([s0, s1, s2, s3, s4, s5, s6], [t, t, t, t, t, POP], [Tau, Tau, Tau, Tau, Stole(0), FoundEmpty]);
  }

  /**
   A run of a new deque: box 0 is pushed; thief 0's steal returns nothing; then thief 1's steal, begun after
   that return, takes box 0, and the owner's pop comes away empty.
   */
  lemma {:induction false} GivingUpOnAnItemHappens()
    ensures var t0, t1 := ByThief(0), ByThief(1);
      Run(Initial(1, 2), [PUSH, PUSH, PUSH, PUSH, PUSH] + [t0, POP, POP, POP, t0] + [POP, POP, POP] + [t1, t1, t1, t1, t1, POP]).1
      == [Tau, Tau, Tau, Tau, Pushed(0)] + [Tau, Tau, Tau, Tau, GaveUp] + [Tau, Tau, Tau] + [Tau, Tau, Tau, Tau, Stole(0), FoundEmpty]
  {
    var t0, t1, s0 := ByThief(0), ByThief(1), Initial(1, 2);
    var m1, m2, m3, m4 := [PUSH, PUSH, PUSH, PUSH, PUSH], [t0, POP, POP, POP, t0], [POP, POP, POP], [t1, t1, t1, t1, t1, POP];
    PushOne();
    FirstThief();
    OwnerRestores();
    SecondThief();
    RunSplits(s0, m1, m2);
    RunSplits(s0, m1 + m2, m3);
    RunSplits(s0, m1 + m2 + m3, m4);
  }

  /** The deque that `steal` would implement if it returned nothing only when the deque is empty. */
  predicate StrictStep(q: seq<Box>, e: Event, q': seq<Box>)
  {
    AtomicStep(q, e, q') && (e.GaveUp? ==> q == [])
  }

  ghost predicate StrictRun(q: seq<Box>, es: seq<Event>, q': seq<Box>)
    decreases |es|
  {
    if es == [] then q' == q
    else exists q1 :: StrictStep(q, es[0], q1) && StrictRun(q1, es[1..], q')
  }

  lemma {:induction false} AbsentIsNotStolen(q: seq<Box>, es: seq<Event>, q': seq<Box>, x: Box, k: nat)
    requires StrictRun(q, es, q') && x !in q && k < |es|
    requires forall i :: 0 <= i < k ==> es[i] != Pushed(x)
    ensures es[k] != Stole(x)
    decreases |es|
  {
    var q1 :| StrictStep(q, es[0], q1) && StrictRun(q1, es[1..], q');
    if k > 0 {
      assert x !in q1;
      AbsentIsNotStolen(q1, es[1..], q', x, k - 1);
    }
  }

  /**
   No linearisation of such a run obeys that stricter deque: wherever the operations are taken to happen, the
   push of `x` precedes the steal that gave up, and that one the steal that took `x`.
   */
  lemma {:induction false} NothingIsNotEmpty(q: seq<Box>, es: seq<Event>, q': seq<Box>, x: Box, j: nat, k: nat)
    requires j < k < |es| && es[j] == GaveUp && es[k] == Stole(x)
    requires forall i :: j < i < k ==> es[i] != Pushed(x)
    ensures !StrictRun(q, es, q')
    decreases |es|
  {
    if StrictRun(q, es, q') {
      var q1 :| StrictStep(q, es[0], q1) && StrictRun(q1, es[1..], q');
      if j > 0 {
        NothingIsNotEmpty(q1, es[1..], q', x, j - 1, k - 1);
      } else {
        AbsentIsNotStolen(q1, es[1..], q', x, k - 1);
      }
    }
  }
}
