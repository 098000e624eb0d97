/** Counting arguments about the deque protocol: failed exchanges, retained memory, destruction. */
module DequeBounds {
  import opened Options
  import opened RingIndex
  import opened Sums
  import opened DequeProtocol
  import opened DequeProof
  import opened DequeTheorems

  // Failed compare-exchanges

  /** The owner holds a value of `top` it will compare against, and it is out of date. */
  predicate OwnerDoomed(o: Owner, top: int)
  {
    match o
    case PopReadSlot(b, t, _) => t == b && t != top
    case PopRestore(_, t, _) => t != top
    case PopCas(_, t, _) => t != top
    case _ => false
  }

  predicate ThiefDoomed(pc: Thief, top: int)
  {
    !pc.Idle? && !pc.Take? && pc.t != top
  }

  /** Which threads are in an attempt that has already lost; the owner is number 0. */
  function Doomed(s: State): seq<bool>
  {
    [OwnerDoomed(s.owner, s.top)] +
    seq(|s.thieves|, k requires 0 <= k < |s.thieves| => ThiefDoomed(s.thieves[k], s.top))
  }

  /** Each won exchange can have spoilt at most one attempt of every other thread. */
  predicate LossesPaid(s: State)
  {
    s.lost + Tally(Doomed(s)) <= |s.thieves| * s.won
  }

  /**
   One step of thread `h`: an attempt becomes doomed only when another thread's exchange succeeds in
   its window, and an exchange fails only if the attempt was doomed.
   */
  predicate AttemptStep(s: State, s': State, h: nat)
    requires h <= |s.thieves| == |s'.thieves|
  {
    if s'.won > s.won then s'.won == s.won + 1 && s'.lost == s.lost && !Doomed(s')[h]
    else
      && s'.won == s.won && Doomed(s') == Doomed(s)[h := Doomed(s')[h]]
      && (if s'.lost == s.lost then Doomed(s')[h] ==> Doomed(s)[h]
          else s'.lost == s.lost + 1 && Doomed(s)[h] && !Doomed(s')[h])
  }

  lemma {:induction false} OwnerAttempt(s: State, call: Call)
    ensures var s' := OwnerStep(s, call).0; s'.thieves == s.thieves && AttemptStep(s, s', 0)
  {
    var s' := OwnerStep(s, call).0;
    OwnerKeepsTop(s, call);
    if s'.won == s.won {
      assert Doomed(s')[1..] == Doomed(s)[1..];
      OwnerDooms(s, call);
    }
  }

  lemma {:induction false} OwnerKeepsTop(s: State, call: Call)
    ensures var s' := OwnerStep(s, call).0;
      && s'.thieves == s.thieves && (s'.won == s.won || (s'.won == s.won + 1 && s'.lost == s.lost && s'.owner.PopTake?))
      && (s'.won == s.won ==> s'.top == s.top)
  {
  }

  /** While `top` stands still, only the read of `top` decides whether the owner's exchange can win. */
  lemma {:induction false} OwnerDooms(s: State, call: Call)
    requires OwnerStep(s, call).0.won == s.won
    ensures var s' := OwnerStep(s, call).0;
      if s'.lost == s.lost then OwnerDoomed(s'.owner, s.top) ==> OwnerDoomed(s.owner, s.top)
      else s'.lost == s.lost + 1 && OwnerDoomed(s.owner, s.top) && !OwnerDoomed(s'.owner, s.top)
  {
  }

  lemma {:induction false} ThiefAttempt(s: State, k: nat)
    requires k < |s.thieves|
    ensures var s' := ThiefStep(s, k).0; |s'.thieves| == |s.thieves| && AttemptStep(s, s', k + 1)
  {
    var s' := ThiefStep(s, k).0;
    if s'.won == s.won {
      assert s'.top == s.top && s'.owner == s.owner;
      assert forall j :: 0 <= j < |s.thieves| && j != k ==> s'.thieves[j] == s.thieves[j];
    }
  }

  lemma {:induction false} AttemptPaid(s: State, s': State, h: nat)
    requires LossesPaid(s) && h <= |s.thieves| == |s'.thieves| && AttemptStep(s, s', h)
    ensures LossesPaid(s')
  {
    var n := |s.thieves|;
    if s'.won > s.won {
      TallyBound(Doomed(s'));
      assert Tally(Doomed(s')) <= n;
      assert n * s'.won == n * s.won + n;
    } else {
      TallyUpdate(Doomed(s), h, Doomed(s')[h]);
    }
  }

  lemma {:induction false} LossesPaidStep(s: State, m: Move)
    requires LossesPaid(s)
    ensures LossesPaid(Step(s, m).0) && |Step(s, m).0.thieves| == |s.thieves|
  {
    match m
    case ByOwner(call) =>
      OwnerAttempt(s, call);
      AttemptPaid(s, OwnerStep(s, call).0, 0);
    case ByThief(k) =>
      if k < |s.thieves| {
        ThiefAttempt(s, k);
        AttemptPaid(s, ThiefStep(s, k).0, k + 1);
      }
  }

  lemma {:induction false} LossesPaidRun(s: State, moves: seq<Move>)
    requires LossesPaid(s)
    ensures LossesPaid(Run(s, moves).0) && |Run(s, moves).0.thieves| == |s.thieves|
    decreases |moves|
  {
    if moves != [] {
      LossesPaidStep(s, moves[0]);
      LossesPaidRun(Step(s, moves[0]).0, moves[1..]);
    }
  }

  /** Over any run, failed exchanges number at most (threads - 1) times the successful ones. */
  lemma {:induction false} FailuresBounded(capacity: nat, thieves: nat, moves: seq<Move>)
    requires IsPow2(capacity)
    ensures var s := Run(Initial(capacity, thieves), moves).0; s.lost <= thieves * s.won
  {
    var s0 := Initial(capacity, thieves);
    TallyNone(Doomed(s0));
    LossesPaidRun(s0, moves);
  }

  // Retained memory

  function Total(bufs: seq<Buffer>): nat
  {
    if bufs == [] then 0 else bufs[0].capacity + Total(bufs[1..])
  }

  lemma {:induction false} TotalSnoc(bufs: seq<Buffer>, buf: Buffer)
    ensures Total(bufs + [buf]) == Total(bufs) + buf.capacity
  {
    if bufs == [] {
      assert [] + [buf] == [buf];
    } else {
      assert (bufs + [buf])[1..] == bufs[1..] + [buf];
      TotalSnoc(bufs[1..], buf);
    }
  }

  /** Capacities double, and only for a deque that was once full. */
  predicate MemoryOk(s: State, first: nat)
  {
    && Total(s.retired) + first == s.current.capacity
    && s.current.capacity <= Max(first, 2 * s.peak)
  }

  lemma {:induction false} MemoryStep(s: State, m: Move, first: nat)
    requires Inv(s) && MemoryOk(s, first)
    ensures MemoryOk(Step(s, m).0, first)
  {
    match m
    case ByOwner(call) =>
      if s.owner.Growing? {
        TotalSnoc(s.retired, s.current);
      }
    case ByThief(k) =>
      if k < |s.thieves| {
        ThiefTop(s, k);
        assert Step(s, m).0 == ThiefStep(s, k).0;
      }
  }

  /** `peak` is the largest size the queue has had. */
  lemma {:induction false} PeakIsLargestSize(s: State, m: Move)
    requires Inv(s) && |Queue(s)| <= s.peak
    ensures var s' := Step(s, m).0; s'.peak == Max(s.peak, |Queue(s')|)
  {
    StepRefines(s, m);
    match m
    case ByOwner(call) =>
    case ByThief(k) =>
      if k < |s.thieves| {
        ThiefTop(s, k);
        assert Step(s, m) == ThiefStep(s, k);
      }
  }

  lemma {:induction false} MemoryRun(s: State, moves: seq<Move>, first: nat)
    requires Inv(s) && MemoryOk(s, first)
    ensures MemoryOk(Run(s, moves).0, first)
    decreases |moves|
  {
    if moves != [] {
      MemoryStep(s, moves[0], first);
      StepRefines(s, moves[0]);
      MemoryRun(Step(s, moves[0]).0, moves[1..], first);
    }
  }

  /**
   All buffers ever allocated add up to less than twice the current one, which is at most the larger
   of the initial capacity and twice the largest number of items the deque has held.
   */
  lemma {:induction false} MemoryBounded(capacity: nat, thieves: nat, moves: seq<Move>)
    requires IsPow2(capacity)
    ensures var s := Run(Initial(capacity, thieves), moves).0;
      && Total(s.retired) + s.current.capacity < 2 * s.current.capacity
      && s.current.capacity <= Max(capacity, 2 * s.peak)
  {
    InitialInv(capacity, thieves);
    MemoryRun(Initial(capacity, thieves), moves, capacity);
  }

  lemma {:induction false} TotalPositive(bufs: seq<Buffer>)
    ensures Total(bufs) >= |bufs|
  {
    if bufs != [] {
      assert bufs[0].capacity >= 1;
      TotalPositive(bufs[1..]);
    }
  }

  /** A deque that has never been more than half full has never grown. */
  lemma {:induction false} HalfFullNeverGrows(capacity: nat, thieves: nat, moves: seq<Move>)
    requires IsPow2(capacity) && 2 * Run(Initial(capacity, thieves), moves).0.peak <= capacity
    ensures Run(Initial(capacity, thieves), moves).0.retired == []
  {
    InitialInv(capacity, thieves);
    MemoryRun(Initial(capacity, thieves), moves, capacity);
    TotalPositive(Run(Initial(capacity, thieves), moves).0.retired);
  }

  // Destruction

  /** The destructor's loop: frees the boxes at indices `[i, b)`; the flag reports a bad free. */
  function FreeAll(live: set<Box>, buf: Buffer, i: int, b: int): (set<Box>, bool)
    decreases b - i
  {
    if i >= b then (live, true)
    else
      match Load(buf, i)
      case None => FreeAll(live, buf, i + 1, b)
      case Some(x) =>
        var (rest, ok) := FreeAll(live - {x}, buf, i + 1, b);
        (rest, ok && x in live)
  }

  lemma {:induction false} FreeAllItems(live: set<Box>, buf: Buffer, i: int, b: int)
    requires forall j :: i <= j < b ==> Load(buf, j).Some?
    requires Distinct(Items(buf, i, b)) && forall x :: x in Items(buf, i, b) <==> x in live
    ensures FreeAll(live, buf, i, b) == ({}, true)
    decreases b - i
  {
    if i < b {
      var q, rest, x := Items(buf, i, b), Items(buf, i + 1, b), Load(buf, i).value;
      ItemsEnds(buf, i, b);
      RemoveEnd(q, rest, x);
      FreeAllItems(live - {x}, buf, i + 1, b);
    } else {
      forall y ensures y !in live {
        assert y in Items(buf, i, b) <==> y in live;
      }
      assert live == {};
    }
  }

  /** Destroying a deque that no thread is using frees every remaining box exactly once. */
  lemma {:induction false} DestructorFreesAll(s: State)
    requires Inv(s) && s.owner.Resting? && forall k :: 0 <= k < |s.thieves| ==> s.thieves[k].Idle?
    ensures FreeAll(s.live, s.current, s.top, s.bottom) == ({}, true)
  {
    var q := Queue(s);
    assert forall h :: 0 <= h < |Claims(s)| ==> Claims(s)[h] == None;
    FreeAllItems(s.live, s.current, s.top, s.bottom);
  }
}
