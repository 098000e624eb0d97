/** What the refinement gives: the pool on Chase-Lev deques has every property of the pool, and its deques never grow. */
module PoolBacked {
  import opened Options
  import opened RingIndex
  import D = DequeProtocol
  import DP = DequeProof
  import DT = DequeTheorems
  import DB = DequeBounds
  import opened Sums
  import opened Pool
  import opened PoolProof
  import opened PoolJobs
  import opened PoolTheorems
  import opened PoolOnDeques
  import opened PoolRefinement

  /** The deque has its first buffer still, having never held more than 31 items. */
  predicate Small(b: Backed)
  {
    DB.MemoryOk(b.deque, D.DEFAULT_CAPACITY) && |D.Queue(b.deque)| <= b.deque.peak < BATCH_SIZE
  }

  predicate AllSmall(c: Concrete)
    requires Fits(c)
  {
    forall w, p :: 0 <= w < |c.own| && 0 <= p < PRIORITIES ==> Small(c.own[w][p])
  }

  ghost predicate CInv(c: Concrete)
  {
    Fits(c) && AllFit(c) && AllSmall(c) && Inv(Abs(c))
  }

  // Where the operations are

  /** An injector being pulled from keeps its contents in every step of another thread. */
  lemma {:induction false} PulledInjectorKept(c: Concrete, k: nat, choice: Choice, w: nat)
    requires Fits(c) && Inv(Abs(c)) && k < |c.pool.threads| && w < |c.own| && w != k && c.pool.threads[w].Pulling?
    ensures c.pool.threads[w].p < PRIORITIES && |Step(Abs(c), k, choice).injectors| == PRIORITIES
    ensures Step(Abs(c), k, choice).injectors[c.pool.threads[w].p] == c.pool.injectors[c.pool.threads[w].p]
  {
    assert PcShape(c.pool.threads[w]);
    assert Abs(c).threads[w] == c.pool.threads[w];
    PullIsExclusive(Abs(c), w, k, choice);
  }

  /** Two workers never pull from one injector. */
  lemma {:induction false} OnePuller(c: Concrete, k: nat, w: nat)
    requires Fits(c) && Inv(Abs(c)) && k < |c.own| && w < |c.own| && w != k
    requires c.pool.threads[w].Pulling? && c.pool.threads[k].Pulling?
    ensures c.pool.threads[w].p != c.pool.threads[k].p
  {
    assert Abs(c).threads[w] == c.pool.threads[w] && Abs(c).threads[k] == c.pool.threads[k];
  }

  /** Deques that an access does not touch still fit. */
  lemma {:induction false} UntouchedFits(c: Concrete, c': Concrete, k: nat, w0: nat, p0: nat, w: nat, p: nat)
    requires Fits(c) && AllFit(c) && Inv(Abs(c)) && Fits(c') && k < |c.own| && w0 < |c.own| && p0 < PRIORITIES
    requires Differs(c, c', k, w0, p0) && w < |c.own| && p < PRIORITIES && (w != w0 || p != p0)
    requires match c.pool.threads[k]
      case Local(_, r) => w0 == k && r == p0
      case Pulling(r, _, _) => w0 == k && r == p0
      case Stealing(_, r, peer) => w0 == peer && r == p0
      case _ => false
    requires c'.pool.injectors == c.pool.injectors ||
             (c.pool.threads[k].Pulling? && |c'.pool.injectors| == PRIORITIES
              && forall q :: 0 <= q < PRIORITIES && q != p0 ==> c'.pool.injectors[q] == c.pool.injectors[q])
    ensures DequeFits(c', w, p)
  {
    assert DequeFits(c, w, p);
    assert c'.own[w][p] == c.own[w][p];
    var b := c.own[w][p];
    if w != k && c.pool.threads[w].Pulling? && c.pool.threads[k].Pulling? {
      OnePuller(c, k, w);
    }
    forall j | 0 <= j < |c.own| ensures ThiefFits(b, c'.pool.threads[j], j, w, p) {
      assert ThiefFits(b, c.pool.threads[j], j, w, p);
    }
  }

  lemma {:induction false} PopKeepsFit(c: Concrete, k: nat, gen: nat, p: nat)
    requires Fits(c) && AllFit(c) && Inv(Abs(c)) && k < |c.own| && c.pool.threads[k] == Local(gen, p) && p < PRIORITIES
    ensures Fits(PopStep(c, k, gen, p)) && AllFit(PopStep(c, k, gen, p))
  {
    var c', b := PopStep(c, k, gen, p), c.own[k][p];
    var e := PopAccess(c, k, gen, p);
    forall w, q | 0 <= w < |c'.own| && 0 <= q < PRIORITIES ensures DequeFits(c', w, q) {
      if w == k && q == p {
        assert DequeFits(c, k, p);
        PopMoves(b.deque);
        forall j | 0 <= j < |c.own| ensures ThiefFits(c'.own[k][p], c'.pool.threads[j], j, k, p) {
          assert ThiefFits(b, c.pool.threads[j], j, k, p);
        }
      } else {
        UntouchedFits(c, c', k, k, p, w, q);
      }
    }
  }

  lemma {:induction false} PushKeepsFit(c: Concrete, k: nat, p: nat, first: Job, moved: nat)
    requires Fits(c) && AllFit(c) && Inv(Abs(c)) && k < |c.own| && c.pool.threads[k] == Pulling(p, first, moved)
    requires p < PRIORITIES && moved < BATCH_SIZE && c.pool.injectors[p] != []
    ensures Fits(PushStep(c, k, p, first, moved)) && AllFit(PushStep(c, k, p, first, moved))
  {
    var c', b := PushStep(c, k, p, first, moved), c.own[k][p];
    var e := PushAccess(c, k, p, first, moved);
    forall w, q | 0 <= w < |c'.own| && 0 <= q < PRIORITIES ensures DequeFits(c', w, q) {
      if w == k && q == p {
        PushedFits(c, k, p, first, moved);
      } else {
        UntouchedFits(c, c', k, k, p, w, q);
      }
    }
  }

  lemma {:induction false} PushedFits(c: Concrete, k: nat, p: nat, first: Job, moved: nat)
    requires Fits(c) && AllFit(c) && k < |c.own| && c.pool.threads[k] == Pulling(p, first, moved)
    requires p < PRIORITIES && moved < BATCH_SIZE && c.pool.injectors[p] != []
    ensures Fits(PushStep(c, k, p, first, moved)) && DequeFits(PushStep(c, k, p, first, moved), k, p)
  {
    var c', b := PushStep(c, k, p, first, moved), c.own[k][p];
    var e := PushAccess(c, k, p, first, moved);
    assert DequeFits(c, k, p);
    PushMoves(b.deque);
    var b' := c'.own[k][p];
    forall j | 0 <= j < |c.own| ensures ThiefFits(b', c'.pool.threads[j], j, k, p) {
      assert ThiefFits(b, c.pool.threads[j], j, k, p);
    }
  }

  lemma {:induction false} StealKeepsFit(c: Concrete, k: nat, gen: nat, p: nat, peer: nat)
    requires Fits(c) && AllFit(c) && Inv(Abs(c)) && k < |c.own| && c.pool.threads[k] == Stealing(gen, p, peer)
    requires p < PRIORITIES && peer < |c.own| && peer != k
    ensures Fits(StealStep(c, k, gen, p, peer)) && AllFit(StealStep(c, k, gen, p, peer))
  {
    var c', b := StealStep(c, k, gen, p, peer), c.own[peer][p];
    var e := StealAccess(c, k, gen, p, peer);
    forall w, q | 0 <= w < |c'.own| && 0 <= q < PRIORITIES ensures DequeFits(c', w, q) {
      if w == peer && q == p {
        assert DequeFits(c, peer, p);
        ThiefMoves(b.deque, k);
        forall j | 0 <= j < |c.own| ensures ThiefFits(c'.own[peer][p], c'.pool.threads[j], j, peer, p) {
          assert ThiefFits(b, c.pool.threads[j], j, peer, p);
        }
      } else {
        UntouchedFits(c, c', k, peer, p, w, q);
      }
    }
  }

  /** A deque, while a thread steps off the deques. */
  lemma {:induction false} OffDequeFits(c: Concrete, s': State, k: nat, w: nat, p: nat)
    requires Fits(c) && AllFit(c) && k < |c.pool.threads| && !OnDeque(c, k) && w < |c.own| && p < PRIORITIES
    requires OthersKept(c.pool, s', k) && Fits(c.(pool := s'))
    requires w != k && c.pool.threads[w].Pulling? && c.pool.threads[w].p == p ==> s'.injectors[p] == c.pool.injectors[p]
    ensures DequeFits(c.(pool := s'), w, p)
  {
    assert DequeFits(c, w, p);
    var b := c.own[w][p];
    forall j | 0 <= j < |c.own| ensures ThiefFits(b, s'.threads[j], j, w, p) {
      assert ThiefFits(b, c.pool.threads[j], j, w, p);
    }
  }

  lemma {:induction false} OffKeepsFit(c: Concrete, k: nat, choice: Choice)
    requires Fits(c) && AllFit(c) && Inv(Abs(c)) && k < |c.pool.threads| && !OnDeque(c, k)
    ensures Fits(CStep(c, k, choice)) && AllFit(CStep(c, k, choice))
  {
    OffFits(c, k, choice);
    OffAgrees(c, k, choice);
    var s' := Step(c.pool, k, choice);
    StepKeepsOthers(c.pool, k, choice);
    forall w, p | 0 <= w < |c.own| && 0 <= p < PRIORITIES ensures DequeFits(c.(pool := s'), w, p) {
      if w != k && c.pool.threads[w].Pulling? {
        PulledInjectorKept(c, k, choice, w);
      }
      OffDequeFits(c, s', k, w, p);
    }
  }

  /** Refinement, one step: a step on the deques is a step of the pool or none, and keeps everything in its place. */
  lemma {:induction false} CStepRefines(c: Concrete, k: nat, choice: Choice)
    requires Fits(c) && AllFit(c) && Inv(Abs(c)) && k < |c.pool.threads|
    ensures Fits(CStep(c, k, choice)) && AllFit(CStep(c, k, choice))
    ensures var a, a' := Abs(c), Abs(CStep(c, k, choice));
      a' == a || exists choice' :: a' == Step(a, k, choice')
  {
    if !OnDeque(c, k) {
      OffKeepsFit(c, k, choice);
      OffRefines(c, k, choice);
    } else {
      WorkersSearch(c, k);
      assert PcShape(c.pool.threads[k]);
      match c.pool.threads[k]
      case Local(gen, p) =>
        PopKeepsFit(c, k, gen, p);
        PopRefines(c, k, gen, p);
      case Pulling(p, first, moved) =>
        PushKeepsFit(c, k, p, first, moved);
        PushRefines(c, k, p, first, moved);
      case Stealing(gen, p, peer) =>
        StealKeepsFit(c, k, gen, p, peer);
        StealRefines(c, k, gen, p, peer);
    }
  }

  // Deques stay small

  lemma {:induction false} PoolIsSmall(s: State, w: nat, p: nat)
    requires Inv(s) && w < |s.deques| && p < PRIORITIES
    ensures |s.deques[w][p]| < BATCH_SIZE
  {
    assert OwnOk(s.deques[w], s.threads[w]);
    assert PcShape(s.threads[w]);
  }

  lemma {:induction false} MoveKeepsSmall(b: Backed, b': Backed, m: D.Move)
    requires DP.Inv(b.deque) && Small(b) && b'.deque == D.Step(b.deque, m).0 && |D.Queue(b'.deque)| < BATCH_SIZE
    ensures Small(b')
  {
    DB.MemoryStep(b.deque, m, D.DEFAULT_CAPACITY);
    DB.PeakIsLargestSize(b.deque, m);
  }

  lemma {:induction false} StepKeepsSmall(c: Concrete, k: nat, choice: Choice)
    requires CInv(c) && k < |c.pool.threads| && Fits(CStep(c, k, choice)) && Inv(Abs(CStep(c, k, choice)))
    ensures AllSmall(CStep(c, k, choice))
  {
    var c' := CStep(c, k, choice);
    forall w, p | 0 <= w < |c'.own| && 0 <= p < PRIORITIES ensures Small(c'.own[w][p]) {
      var m := OnlyMoves(c, k, choice, w, p);
      QueueIsShort(c', w, p);
      assert Small(c.own[w][p]) && DequeFits(c, w, p);
      if c'.own[w][p].deque != c.own[w][p].deque {
        MoveKeepsSmall(c.own[w][p], c'.own[w][p], m);
      }
    }
  }

  lemma {:induction false} QueueIsShort(c: Concrete, w: nat, p: nat)
    requires Fits(c) && Inv(Abs(c)) && w < |c.own| && p < PRIORITIES
    ensures |D.Queue(c.own[w][p].deque)| < BATCH_SIZE
  {
    PoolIsSmall(Abs(c), w, p);
    AbsDequeAt(c, w, p);
  }

  /** A step of the pool is at most one move of each deque. */
  lemma {:induction false} OnlyMoves(c: Concrete, k: nat, choice: Choice, w: nat, p: nat) returns (m: D.Move)
    requires Fits(c) && k < |c.pool.threads| && w < |c.own| && p < PRIORITIES
    ensures var c' := CStep(c, k, choice);
      && |c'.own| == |c.own| && |c'.own[w]| == PRIORITIES
      && (c'.own[w][p].deque == c.own[w][p].deque || c'.own[w][p].deque == D.Step(c.own[w][p].deque, m).0)
  {
    if OnDeque(c, k) {
      WorkersSearch(c, k);
      assert PcShape(c.pool.threads[k]);
    }
    m := match c.pool.threads[k]
      case Local(_, _) => D.ByOwner(D.DoPop)
      case Pulling(_, _, _) => D.ByOwner(D.DoPush)
      case _ => D.ByThief(k);
  }

  lemma {:induction false} StepCInv(c: Concrete, k: nat, choice: Choice)
    requires CInv(c)
    ensures CInv(CStep(c, k, choice))
  {
    if k < |c.pool.threads| {
      CStepRefines(c, k, choice);
      var a, a' := Abs(c), Abs(CStep(c, k, choice));
      if a' != a {
        var choice' :| a' == Step(a, k, choice');
        StepInv(a, k, choice');
      }
      StepKeepsSmall(c, k, choice);
    }
  }

  // Whole runs

  predicate CStepAt(h: seq<Concrete>, schedule: seq<(nat, Choice)>, i: nat)
    requires i < |schedule| && |h| == |schedule| + 1
  {
    Fits(h[i]) && h[i + 1] == CStep(h[i], schedule[i].0, schedule[i].1)
  }

  ghost predicate CHistory(h: seq<Concrete>, schedule: seq<(nat, Choice)>)
  {
    && |h| == |schedule| + 1
    && (exists workers: nat, clients: nat, stoppers: nat :: h[0] == CInitial(workers, clients, stoppers))
    && forall i :: 0 <= i < |schedule| ==> CStepAt(h, schedule, i)
  }

  ghost predicate CReachable(c: Concrete)
  {
    exists h, schedule :: CHistory(h, schedule) && h[|schedule|] == c
  }

  lemma {:induction false} InitialBacked(workers: nat)
    requires IsPow2(D.DEFAULT_CAPACITY)
    ensures var b := Backed(D.Initial(D.DEFAULT_CAPACITY, workers), []);
      Good(b) && Small(b) && Jobs(b) == [] && b.deque.owner.Resting? && |b.deque.thieves| == workers
  {
    DT.InitialInv(D.DEFAULT_CAPACITY, workers);
  }

  lemma {:induction false} InitialCInv(workers: nat, clients: nat, stoppers: nat)
    ensures CInv(CInitial(workers, clients, stoppers))
    ensures Abs(CInitial(workers, clients, stoppers)) == Initial(workers, clients, stoppers)
  {
    var c := CInitial(workers, clients, stoppers);
    InitialInv(workers, clients, stoppers);
    InitialBacked(workers);
    forall w, p | 0 <= w < |c.own| && 0 <= p < PRIORITIES ensures DequeFits(c, w, p) && Small(c.own[w][p]) {
    }
    assert Abs(c).deques == c.pool.deques;
    assert Abs(c).threads == c.pool.threads;
  }

  lemma {:induction false} StartRefines(c: Concrete)
    requires exists workers: nat, clients: nat, stoppers: nat :: c == CInitial(workers, clients, stoppers)
    ensures CInv(c) && Reachable(Abs(c))
  {
    var workers: nat, clients: nat, stoppers: nat :| c == CInitial(workers, clients, stoppers);
    InitialCInv(workers, clients, stoppers);
    InitialReachable(workers, clients, stoppers);
  }

  /** The state stands for one that the pool reaches. */
  ghost predicate Refined(c: Concrete)
  {
    CInv(c) && Reachable(Abs(c))
  }

  lemma {:induction false} StepReaches(c: Concrete, k: nat, choice: Choice)
    requires CInv(c) && Reachable(Abs(c))
    ensures CInv(CStep(c, k, choice)) && Reachable(Abs(CStep(c, k, choice)))
  {
    StepCInv(c, k, choice);
    if k < |c.pool.threads| {
      CStepRefines(c, k, choice);
      var a, a' := Abs(c), Abs(CStep(c, k, choice));
      if a' != a {
        var choice' :| a' == Step(a, k, choice');
        ReachableStep(a, k, choice');
      }
    }
  }

  ghost predicate AllRefined(cs: seq<Concrete>)
  {
    forall i {:trigger Refined(cs[i])} :: 0 <= i < |cs| ==> Refined(cs[i])
  }

  lemma {:induction false} StepRefined(c: Concrete, k: nat, choice: Choice)
    requires AllRefined([c]) && Fits(c)
    ensures AllRefined([CStep(c, k, choice)])
  {
    assert Refined([c][0]);
    StepReaches(c, k, choice);
  }

  lemma {:induction false} HistoryStep(h: seq<Concrete>, schedule: seq<(nat, Choice)>, i: nat)
    requires i < |schedule| && |h| == |schedule| + 1 && CStepAt(h, schedule, i) && AllRefined([h[i]])
    ensures AllRefined([h[i + 1]])
  {
    StepRefined(h[i], schedule[i].0, schedule[i].1);
  }

  lemma {:induction false} HistoryRefines(h: seq<Concrete>, schedule: seq<(nat, Choice)>, i: nat)
    requires |h| == |schedule| + 1 && AllRefined([h[0]]) && i <= |schedule|
    requires forall j :: 0 <= j < |schedule| ==> CStepAt(h, schedule, j)
    ensures AllRefined([h[i]])
  {
    if i > 0 {
      HistoryRefines(h, schedule, i - 1);
      HistoryStep(h, schedule, i - 1);
    }
  }

  /**
   Refinement: whatever state the pool on Chase-Lev deques gets to, at any moment of any of their operations,
   stands for a state that the pool on atomic deques gets to.
   */
  lemma {:induction false} BackedPoolRefinesPool(c: Concrete)
    requires CReachable(c)
    ensures CInv(c) && Reachable(Abs(c))
  {
    var h, schedule :| CHistory(h, schedule) && h[|schedule|] == c;
    StartRefines(h[0]);
    HistoryRefines(h, schedule, |schedule|);
    assert Refined([c][0]);
  }

  /**
   A deque of the default capacity never grows inside the pool: at every moment it has its first buffer and
   has retired none; and none of its steps has gone wrong.
   */
  lemma {:induction false} LocalDequesNeverGrow(c: Concrete, w: nat, p: nat)
    requires CReachable(c) && w < |c.own| && p < PRIORITIES
    ensures |c.own[w]| == PRIORITIES
    ensures var d := c.own[w][p].deque; d.retired == [] && d.current.capacity == 256 && !d.fault
  {
    BackedPoolRefinesPool(c);
    assert DequeFits(c, w, p) && Small(c.own[w][p]);
    DB.TotalPositive(c.own[w][p].deque.retired);
  }

  /** And so the pool's theorems hold of the real deques: a worker leaves only when every job has finished, once. */
  lemma {:induction false} BackedShutdownDrains(c: Concrete, w: nat)
    requires CReachable(c) && w < |c.pool.threads| && c.pool.threads[w].Exited?
    ensures c.pool.finished == Tickets(c.pool.submitted) && c.pool.pending == 0
    ensures forall v, p :: 0 <= v < |c.own| && 0 <= p < PRIORITIES ==> |c.own[v]| == PRIORITIES && Jobs(c.own[v][p]) == []
  {
    BackedPoolRefinesPool(c);
    ShutdownDrains(Abs(c), w);
    forall v, p | 0 <= v < |c.own| && 0 <= p < PRIORITIES ensures |c.own[v]| == PRIORITIES && Jobs(c.own[v][p]) == [] {
      AbsDequeAt(c, v, p);
    }
  }
}
