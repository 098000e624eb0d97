/**
 The pool's local deques are the atomic deques of the Chase-Lev protocol: what a step of the pool does to
 one of them is a stutter or one atomic operation, called only by a thread that may call it.
 */
module PoolDeques {
  import opened Options
  import opened Sums
  import D = DequeProtocol
  import opened Pool
  import opened PoolProof
  import opened PoolJobs
  import opened PoolTheorems

  /** The deque operation that a step of thread `k` performs on worker `w`'s deque of priority `p`. */
  function DequeEvent(s: State, k: nat, c: Choice, w: nat, p: nat): D.Event
    requires Shape(s) && w < |s.deques| && p < PRIORITIES
  {
    if k >= |s.threads| then D.Tau
    else
      var q := s.deques[w][p];
      match s.threads[k]
      case Local(_, r) =>
        if w != k || r != p then D.Tau else if q == [] then D.FoundEmpty else D.Popped(q[|q| - 1])
      case Pulling(r, _, moved) =>
        if w != k || r != p || moved >= BATCH_SIZE || s.injectors[p] == [] then D.Tau else D.Pushed(s.injectors[p][0])
      case Stealing(_, r, peer) =>
        if w == k || r != p || peer != w then D.Tau else if q == [] || c.givesUp then D.GaveUp else D.Stole(q[0])
      case _ => D.Tau
  }

  lemma {:induction false} CountMember(q: seq<Job>, x: Job)
    requires x in q
    ensures Count(q, x) > 0
  {
    CountEnds(q, x);
    if q[0] != x {
      CountMember(q[1..], x);
    }
  }

  lemma {:induction false} CountInMember(queues: seq<seq<Job>>, p: nat, x: Job)
    requires |queues| == PRIORITIES && p < PRIORITIES && x in queues[p]
    ensures CountIn(queues, x) > 0
  {
    CountMember(queues[p], x);
  }

  /** A job waiting in an injector is in no local deque. */
  lemma {:induction false} InjectedIsNotLocal(s: State, w: nat, p: nat)
    requires Inv(s) && w < |s.deques| && p < PRIORITIES && s.injectors[p] != []
    ensures s.injectors[p][0] !in s.deques[w][p]
  {
    var x := s.injectors[p][0];
    assert Placed(s, x);
    CountInMember(s.injectors, p, x);
    SumNonNegative(Hands(s.threads, x));
    SumAtLeast(Locals(s.deques, x), w);
    if x in s.deques[w][p] {
      CountInMember(s.deques[w], p, x);
    }
  }

  lemma {:induction false} SearchEvent(s: State, k: nat, c: Choice, w: nat, p: nat)
    requires Shape(s) && k < |s.deques| && Searching(s.threads[k]) && w < |s.deques| && p < PRIORITIES
    requires s.injectors[p] != [] ==> s.injectors[p][0] !in s.deques[w][p]
    ensures |SearchStep(s, k, c).deques| == |s.deques| && |SearchStep(s, k, c).deques[w]| == PRIORITIES
    ensures D.AtomicStep(s.deques[w][p], DequeEvent(s, k, c, w, p), SearchStep(s, k, c).deques[w][p])
  {
    assert PcShape(s.threads[k]);
  }

  /**
   Each local deque moves by atomic deque operations; only its owner pushes to it or pops from it, and
   the outcome of a pop or a theft decides where the search goes on.
   */
  lemma {:induction false} LocalDequesAreAtomic(s: State, k: nat, c: Choice, w: nat, p: nat)
    requires Reachable(s) && w < |s.deques| && p < PRIORITIES
    ensures Shape(s) && |Step(s, k, c).deques[w]| == PRIORITIES
    ensures D.AtomicStep(s.deques[w][p], DequeEvent(s, k, c, w, p), Step(s, k, c).deques[w][p])
    ensures var e := DequeEvent(s, k, c, w, p);
      && (e.Pushed? || e.Popped? || e.FoundEmpty? ==> k == w)
      && (e.Stole? || e.GaveUp? ==> k != w && k < |s.deques|)
      && (e.Popped? || e.Stole? ==> Step(s, k, c).threads[k] == Found(e.box, p))
  {
    ReachableInv(s);
    if k < |s.threads| {
      if Searching(s.threads[k]) {
        SearchKeeps(s, k, c);
        if s.injectors[p] != [] { InjectedIsNotLocal(s, w, p); }
        SearchEvent(s, k, c, w, p);
      } else {
        OthersLeaveDeques(s, k, c);
      }
    }
  }
}
