/**
 Progress of the pool on Chase-Lev deques: no schedule goes on for ever without new submissions, and one in which
 nobody can take another access has finished every job.
 */
module PoolBackedProgress {
  import opened Options
  import opened Doorbell
  import opened Sums
  import D = DequeProtocol
  import DP = DequeProof
  import opened Pool
  import opened PoolProof
  import opened PoolBell
  import opened PoolJobs
  import opened PoolTheorems
  import opened PoolOnDeques
  import opened PoolRefinement
  import opened PoolBacked
  import opened PoolAccess
  import opened PoolProgress

  // The rank: first of the pool, then of the accesses left

  const MOST_LEFT := 22

  lemma {:induction false} LeftBound(c: Concrete, k: nat)
    requires Fits(c) && k < |c.pool.threads|
    ensures 0 <= Left(c, k) <= MOST_LEFT
  {
  }

  function Lefts(c: Concrete): seq<int>
    requires Fits(c)
  {
    seq(|c.pool.threads|, k requires 0 <= k < |c.pool.threads| && Fits(c) => Left(c, k))
  }

  lemma {:induction false} LeftsBound(c: Concrete)
    requires Fits(c)
    ensures 0 <= Sum(Lefts(c)) <= MOST_LEFT * |c.pool.threads|
  {
    forall k | 0 <= k < |c.pool.threads| ensures 0 <= Lefts(c)[k] <= MOST_LEFT { LeftBound(c, k); }
    SumBounds(Lefts(c), 0, MOST_LEFT);
  }

  /** More than the accesses that can be taken between two changes of the pool's state. */
  function PerChange(c: Concrete): nat
  {
    MOST_LEFT * |c.pool.threads| + 1
  }

  function AccessRank(c: Concrete): nat
    requires Fits(c) && Shape(Abs(c))
  {
    LeftsBound(c);
    TwoLevel(Rank(Abs(c)), PerChange(c), Sum(Lefts(c)))
  }

  lemma {:induction false} RankBelow(c: Concrete, r: nat, m: nat, l: nat)
    requires Fits(c) && Shape(Abs(c)) && PerChange(c) == m
    requires Rank(Abs(c)) < r || (Rank(Abs(c)) == r && Sum(Lefts(c)) < l)
    ensures AccessRank(c) < TwoLevel(r, m, l)
  {
    LeftsBound(c);
    if Rank(Abs(c)) < r {
      TwoLevelDrops(r, Rank(Abs(c)), m, l, Sum(Lefts(c)));
    } else {
      LowDrops(r, m, l, Sum(Lefts(c)));
    }
  }

  lemma {:induction false} ChangeLowers(c: Concrete, c': Concrete)
    requires Fits(c) && Shape(Abs(c)) && Fits(c') && Shape(Abs(c')) && |c'.pool.threads| == |c.pool.threads|
    requires Rank(Abs(c')) < Rank(Abs(c))
    ensures AccessRank(c') < AccessRank(c)
  {
    LeftsBound(c);
    RankBelow(c', Rank(Abs(c)), PerChange(c), Sum(Lefts(c)));
  }

  lemma {:induction false} FewerLeftLowers(c: Concrete, c': Concrete)
    requires Fits(c) && Shape(Abs(c)) && Fits(c') && Abs(c') == Abs(c) && |c'.pool.threads| == |c.pool.threads|
    requires Sum(Lefts(c')) < Sum(Lefts(c))
    ensures AccessRank(c') < AccessRank(c)
  {
    LeftsBound(c);
    RankBelow(c', Rank(Abs(c)), PerChange(c), Sum(Lefts(c)));
  }

  // What an access leaves to the others

  lemma {:induction false} PopLeavesOthers(c: Concrete, k: nat, gen: nat, p: nat, j: nat)
    requires Fits(c) && AllFit(c) && k < |c.own| && c.pool.threads[k] == Local(gen, p) && p < PRIORITIES
    requires j < |c.pool.threads| && j != k
    ensures Fits(PopStep(c, k, gen, p)) && |PopStep(c, k, gen, p).pool.threads| == |c.pool.threads|
    ensures Left(PopStep(c, k, gen, p), j) == Left(c, j)
  {
    var e := PopAccess(c, k, gen, p);
    assert DequeFits(c, k, p);
    PopMoves(c.own[k][p].deque);
  }

  lemma {:induction false} PushLeavesOthers(c: Concrete, k: nat, p: nat, first: Job, moved: nat, j: nat)
    requires Fits(c) && AllFit(c) && k < |c.own| && c.pool.threads[k] == Pulling(p, first, moved)
    requires p < PRIORITIES && moved < BATCH_SIZE && c.pool.injectors[p] != []
    requires Fits(PushStep(c, k, p, first, moved)) && PushStep(c, k, p, first, moved).pool == c.pool
    requires j < |c.pool.threads| && j != k
    ensures Left(PushStep(c, k, p, first, moved), j) == Left(c, j)
  {
    assert DequeFits(c, k, p);
    PushMoves(c.own[k][p].deque);
  }

  lemma {:induction false} StealLeavesOthers(c: Concrete, k: nat, gen: nat, p: nat, peer: nat, j: nat)
    requires Fits(c) && AllFit(c) && k < |c.own| && c.pool.threads[k] == Stealing(gen, p, peer)
    requires p < PRIORITIES && peer < |c.own| && peer != k && j < |c.pool.threads| && j != k
    ensures Fits(StealStep(c, k, gen, p, peer)) && |StealStep(c, k, gen, p, peer).pool.threads| == |c.pool.threads|
    ensures Left(StealStep(c, k, gen, p, peer), j) == Left(c, j)
  {
    var e := StealAccess(c, k, gen, p, peer);
    assert DequeFits(c, peer, p);
    ThiefMoves(c.own[peer][p].deque, k);
  }

  lemma {:induction false} AccessLeavesOthers(c: Concrete, k: nat, choice: Choice, j: nat)
    requires Fits(c) && AllFit(c) && Shape(Abs(c)) && k < |c.pool.threads| && OnDeque(c, k)
    requires Fits(CStep(c, k, choice)) && |CStep(c, k, choice).pool.threads| == |c.pool.threads| && Abs(CStep(c, k, choice)) == Abs(c)
    requires j < |c.pool.threads| && j != k
    ensures Left(CStep(c, k, choice), j) == Left(c, j)
  {
    CStepIs(c, k, choice);
    match c.pool.threads[k]
    case Local(gen, p) => PopLeavesOthers(c, k, gen, p, j);
    case Pulling(p, first, moved) =>
      PushUnfinished(c, k, p, first, moved);
      PushLeavesOthers(c, k, p, first, moved, j);
    case Stealing(gen, p, peer) => StealLeavesOthers(c, k, gen, p, peer, j);
  }

  /** A push that has not changed the pool's state has not returned. */
  lemma {:induction false} PushUnfinished(c: Concrete, k: nat, p: nat, first: Job, moved: nat)
    requires Fits(c) && AllFit(c) && k < |c.own| && c.pool.threads[k] == Pulling(p, first, moved)
    requires p < PRIORITIES && moved < BATCH_SIZE && c.pool.injectors[p] != []
    requires Fits(PushStep(c, k, p, first, moved)) && Abs(PushStep(c, k, p, first, moved)) == Abs(c)
    ensures PushStep(c, k, p, first, moved).pool == c.pool
  {
    assert DequeFits(c, k, p);
    PushMoves(c.own[k][p].deque);
    assert Abs(c).injectors == c.pool.injectors && Abs(PushStep(c, k, p, first, moved)).injectors == PushStep(c, k, p, first, moved).pool.injectors;
  }

  /** An access that changes nothing in the pool's state brings its own operation nearer and leaves the others' alone. */
  lemma {:induction false} AccessLowers(c: Concrete, k: nat, choice: Choice)
    requires CInv(c) && k < |c.pool.threads| && OnDeque(c, k)
    requires Fits(CStep(c, k, choice)) && |CStep(c, k, choice).pool.threads| == |c.pool.threads|
    requires Abs(CStep(c, k, choice)) == Abs(c) && Left(CStep(c, k, choice), k) < Left(c, k)
    ensures AccessRank(CStep(c, k, choice)) < AccessRank(c)
  {
    var c' := CStep(c, k, choice);
    forall j | 0 <= j < |c.pool.threads| && j != k ensures Lefts(c')[j] <= Lefts(c)[j] {
      AccessLeavesOthers(c, k, choice, j);
    }
    SumDrops(Lefts(c), Lefts(c'), k, 1);
    FewerLeftLowers(c, c');
  }

  lemma {:induction false} PoolStepLowers(c: Concrete, c': Concrete, k: nat, choice: Choice)
    requires CInv(c) && k < |c.pool.threads| && NoNewSubmission(Abs(c), k, choice)
    requires Fits(c') && |c'.pool.threads| == |c.pool.threads| && Abs(c') == Step(Abs(c), k, choice) && Abs(c') != Abs(c)
    ensures Shape(Abs(c')) && AccessRank(c') < AccessRank(c)
  {
    StepLowersRank(Abs(c), k, choice);
    ChangeLowers(c, c');
  }

  /** A step that is not on a deque changes nothing but by changing the pool's state. */
  lemma {:induction false} OffStill(c: Concrete, k: nat, choice: Choice)
    requires Fits(c) && AllFit(c) && Shape(Abs(c)) && k < |c.pool.threads| && !OnDeque(c, k)
    ensures Fits(CStep(c, k, choice)) && (Abs(CStep(c, k, choice)) == Abs(c) ==> CStep(c, k, choice) == c)
  {
    var c' := CStep(c, k, choice);
    OffFits(c, k, choice);
    if Abs(c') == Abs(c) {
      forall j | 0 <= j < |c.pool.threads| ensures c'.pool.threads[j] == c.pool.threads[j] {
        OffStillPc(c, k, choice, j);
      }
      assert c'.pool.threads == c.pool.threads;
      assert c'.pool == Abs(c').(deques := c'.pool.deques, threads := c'.pool.threads);
      assert c.pool == Abs(c).(deques := c.pool.deques, threads := c.pool.threads);
    }
  }

  lemma {:induction false} OffStillPc(c: Concrete, k: nat, choice: Choice, j: nat)
    requires Fits(c) && AllFit(c) && Shape(Abs(c)) && k < |c.pool.threads| && !OnDeque(c, k) && j < |c.pool.threads|
    requires Fits(CStep(c, k, choice)) && |CStep(c, k, choice).pool.threads| == |c.pool.threads| && Abs(CStep(c, k, choice)) == Abs(c)
    ensures CStep(c, k, choice).pool.threads[j] == c.pool.threads[j]
  {
    OffPc(c, k);
    OffNextPc(c, k, choice);
    StepThreads(c.pool, k, choice);
    assert Abs(CStep(c, k, choice)).threads[j] == AbsPc(CStep(c, k, choice), j) && Abs(c).threads[j] == AbsPc(c, j);
  }

  lemma {:induction false} OffLowers(c: Concrete, k: nat, choice: Choice)
    requires CInv(c) && k < |c.pool.threads| && !OnDeque(c, k) && NoNewSubmission(c.pool, k, choice) && CStep(c, k, choice) != c
    ensures Fits(CStep(c, k, choice)) && Shape(Abs(CStep(c, k, choice))) && AccessRank(CStep(c, k, choice)) < AccessRank(c)
  {
    OffStill(c, k, choice);
    OffRefines(c, k, choice);
    OffPc(c, k);
    assert Abs(c).threads[k] == AbsPc(c, k);
    PoolStepLowers(c, CStep(c, k, choice), k, choice);
  }

  lemma {:induction false} OnLowers(c: Concrete, k: nat, choice: Choice)
    requires CInv(c) && k < |c.pool.threads| && OnDeque(c, k)
    ensures Fits(CStep(c, k, choice)) && Shape(Abs(CStep(c, k, choice))) && AccessRank(CStep(c, k, choice)) < AccessRank(c)
  {
    var c' := CStep(c, k, choice);
    AccessComes(c, k, choice);
    if Abs(c') == Abs(c) {
      AccessLowers(c, k, choice);
    } else {
      WorkersSearch(c, k);
      SearcherAbsPc(c, k);
      PoolStepLowers(c, c', k, if Abs(c') == Step(Abs(c), k, ALONE) then ALONE else GIVING_UP);
    }
  }

  lemma {:induction false} SearcherAbsPc(c: Concrete, k: nat)
    requires Fits(c) && k < |c.own| && Searching(c.pool.threads[k])
    ensures Searching(Abs(c).threads[k]) || Abs(c).threads[k].Found?
  {
    assert Abs(c).threads[k] == AbsPc(c, k);
  }

  /** Ranking: every access or step that changes anything, and begins no submission, lowers the rank. */
  lemma {:induction false} CStepLowersRank(c: Concrete, k: nat, choice: Choice)
    requires CInv(c) && NoNewSubmission(c.pool, k, choice) && CStep(c, k, choice) != c
    ensures CInv(CStep(c, k, choice)) && AccessRank(CStep(c, k, choice)) < AccessRank(c)
  {
    StepCInv(c, k, choice);
    if OnDeque(c, k) { OnLowers(c, k, choice); } else { OffLowers(c, k, choice); }
  }

  // Whole runs

  predicate QuietAt(h: seq<Concrete>, schedule: seq<(nat, Choice)>, i: nat)
    requires i < |schedule| && |h| == |schedule| + 1
  {
    CStepAt(h, schedule, i) && NoNewSubmission(h[i].pool, schedule[i].0, schedule[i].1)
  }

  /** A run, from anywhere, in which nobody begins a submission. */
  predicate QuietRun(h: seq<Concrete>, schedule: seq<(nat, Choice)>)
  {
    |h| == |schedule| + 1 && forall i :: 0 <= i < |schedule| ==> QuietAt(h, schedule, i)
  }

  /** How many of the first `n` steps change anything. */
  function Changes(h: seq<Concrete>, n: nat): nat
    requires n < |h|
  {
    if n == 0 then 0 else Changes(h, n - 1) + One(h[n] != h[n - 1])
  }

  /** A state of a run, and its rank. */
  datatype Mark = Mark(c: Concrete, rank: nat)

  ghost predicate RankIs(m: Mark)
  {
    CInv(m.c) && AccessRank(m.c) == m.rank
  }

  ghost predicate AllRanked(ms: seq<Mark>)
  {
    forall i {:trigger RankIs(ms[i])} :: 0 <= i < |ms| ==> RankIs(ms[i])
  }

  lemma {:induction false} QuietStepRank(ms: seq<Mark>, c': Concrete, k: nat, choice: Choice) returns (next: seq<Mark>)
    requires |ms| == 1 && AllRanked(ms) && Fits(ms[0].c) && c' == CStep(ms[0].c, k, choice)
    requires NoNewSubmission(ms[0].c.pool, k, choice)
    ensures |next| == 1 && AllRanked(next) && next[0].c == c' && next[0].rank + One(c' != ms[0].c) <= ms[0].rank
  {
    assert RankIs(ms[0]);
    StepCInv(ms[0].c, k, choice);
    if c' != ms[0].c { CStepLowersRank(ms[0].c, k, choice); }
    next := [Mark(c', AccessRank(c'))];
  }

  lemma {:induction false} RanksFall(h: seq<Concrete>, schedule: seq<(nat, Choice)>, n: nat, first: seq<Mark>) returns (last: seq<Mark>)
    requires QuietRun(h, schedule) && n <= |schedule| && |first| == 1 && AllRanked(first) && first[0].c == h[0]
    ensures |last| == 1 && AllRanked(last) && last[0].c == h[n] && Changes(h, n) + last[0].rank <= first[0].rank
  {
    if n == 0 {
      last := first;
    } else {
      var ms := RanksFall(h, schedule, n - 1, first);
      assert QuietAt(h, schedule, n - 1);
      last := QuietStepRank(ms, h[n], schedule[n - 1].0, schedule[n - 1].1);
    }
  }

  /**
   No livelock on the deques: in any run without new submissions at most `AccessRank` steps, the accesses of lost races
   and of thefts that give up included, change anything.
   */
  lemma {:induction false} EffectiveAccessesBounded(h: seq<Concrete>, schedule: seq<(nat, Choice)>) returns (rest: nat)
    requires QuietRun(h, schedule) && CInv(h[0])
    ensures Changes(h, |schedule|) + rest <= AccessRank(h[0])
    ensures CInv(h[|schedule|]) && rest == AccessRank(h[|schedule|])
  {
    var first := Mark(h[0], AccessRank(h[0]));
    assert RankIs(first);
    var last := RanksFall(h, schedule, |schedule|, [first]);
    assert RankIs(last[0]);
    rest := last[0].rank;
  }

  // A pool at rest

  predicate CStuck(c: Concrete)
    requires Fits(c)
  {
    forall k :: 0 <= k < |c.pool.threads| && c.pool.threads[k] != Client(Quiet) ==> CStep(c, k, ALONE) == c
  }

  lemma {:induction false} StuckIsOff(c: Concrete, k: nat)
    requires CInv(c) && k < |c.pool.threads| && CStep(c, k, ALONE) == c
    ensures !OnDeque(c, k) && Step(Abs(c), k, ALONE) == Abs(c)
  {
    if OnDeque(c, k) { AccessComes(c, k, ALONE); } else { OffRefines(c, k, ALONE); }
  }

  lemma {:induction false} CStuckIsStuck(c: Concrete)
    requires CInv(c) && CStuck(c)
    ensures Stuck(Abs(c)) && forall k :: 0 <= k < |c.pool.threads| ==> Abs(c).threads[k] == c.pool.threads[k]
  {
    forall k | 0 <= k < |c.pool.threads|
      ensures Abs(c).threads[k] == c.pool.threads[k] && (c.pool.threads[k] != Client(Quiet) ==> Step(Abs(c), k, ALONE) == Abs(c))
    {
      if c.pool.threads[k] != Client(Quiet) { StuckIsOff(c, k); }
      OffPc(c, k);
    }
  }

  /** Every job has finished, once; nothing is queued; and if anybody has called shutdown, the workers have left. */
  predicate AllDone(c: Concrete)
    requires Fits(c)
  {
    && c.pool.finished == Tickets(c.pool.submitted) && c.pool.pending == 0 && AllEmpty(c.pool.injectors)
    && (forall w, p :: 0 <= w < |c.own| && 0 <= p < PRIORITIES ==> Jobs(c.own[w][p]) == [])
    && (forall w :: 0 <= w < |c.own| ==> AtRest(c.pool.threads[w]) && (c.pool.shutdown ==> c.pool.threads[w].Exited?))
    && (forall k :: 0 <= k < |c.pool.threads| && c.pool.threads[k].Stopper? ==> c.pool.threads[k] == Stopper(Joining) && c.pool.shutdown)
  }

  /** No deadlock on the deques: a pool in which no access or step changes anything is done. */
  lemma {:induction false} CStuckIsDone(c: Concrete)
    requires CInv(c) && CStuck(c) && |c.own| > 0
    ensures AllDone(c)
  {
    CStuckIsStuck(c);
    StuckIsDone(Abs(c));
    forall w, p | 0 <= w < |c.own| && 0 <= p < PRIORITIES ensures Jobs(c.own[w][p]) == [] {
      AbsDequeAt(c, w, p);
    }
  }

  // Completion

  lemma {:induction false} AccessKeepsCall(c: Concrete, k: nat, choice: Choice)
    requires Fits(c) && k < |c.pool.threads| && OnDeque(c, k)
    ensures SameKinds(c.pool, CStep(c, k, choice).pool) && CStep(c, k, choice).pool.shutdown == c.pool.shutdown
  {
    CStepIs(c, k, choice);
  }

  lemma CallStays(s: State, s': State)
    requires ShutdownComes(s) && SameKinds(s, s') && (s.shutdown ==> s'.shutdown)
    ensures ShutdownComes(s')
  {
    if !s.shutdown {
      var j :| 0 <= j < |s.threads| && s.threads[j].Stopper?;
      assert s'.threads[j].Stopper?;
    }
  }

  lemma {:induction false} StaysCalled(c: Concrete, k: nat, choice: Choice)
    requires Fits(c) && Shape(Abs(c)) && ShutdownComes(c.pool)
    ensures ShutdownComes(CStep(c, k, choice).pool)
  {
    if k < |c.pool.threads| && OnDeque(c, k) {
      AccessKeepsCall(c, k, choice);
    } else {
      ShutdownStays(c.pool, k, choice);
      StopperStays(c.pool, k, choice);
    }
    CallStays(c.pool, CStep(c, k, choice).pool);
  }

  /** Every worker has left, every call of shutdown is at its joins, and all jobs have finished, once. */
  predicate Completed(t: Concrete)
  {
    && Fits(t) && AllDone(t) && (forall w :: 0 <= w < |t.own| ==> t.pool.threads[w].Exited?)
  }

  lemma {:induction false} RestCompletes(ms: seq<Mark>)
    requires |ms| == 1 && AllRanked(ms) && Fits(ms[0].c) && CStuck(ms[0].c) && ShutdownComes(ms[0].c.pool) && |ms[0].c.own| > 0
    ensures Completed(ms[0].c)
  {
    assert RankIs(ms[0]);
    CStuckIsDone(ms[0].c);
  }

  lemma SomeoneCan(c: Concrete) returns (k: nat)
    requires Fits(c) && !CStuck(c)
    ensures NoNewSubmission(c.pool, k, ALONE) && CStep(c, k, ALONE) != c
  {
    k :| 0 <= k < |c.pool.threads| && c.pool.threads[k] != Client(Quiet) && CStep(c, k, ALONE) != c;
  }

  lemma OneQuietStep(c: Concrete, k: nat)
    requires Fits(c) && NoNewSubmission(c.pool, k, ALONE)
    ensures QuietRun([c, CStep(c, k, ALONE)], [(k, ALONE)])
  {
    assert QuietAt([c, CStep(c, k, ALONE)], [(k, ALONE)], 0);
  }

  lemma RankedFits(ms: seq<Mark>)
    requires |ms| == 1 && AllRanked(ms)
    ensures Fits(ms[0].c) && Shape(Abs(ms[0].c))
  {
    assert RankIs(ms[0]);
  }

  lemma {:induction false} CallSurvives(c: Concrete, k: nat)
    requires Fits(c) && Shape(Abs(c)) && ShutdownComes(c.pool) && |c.own| > 0
    ensures ShutdownComes(CStep(c, k, ALONE).pool) && |CStep(c, k, ALONE).own| > 0
  {
    StaysCalled(c, k, ALONE);
    if k < |c.pool.threads| && OnDeque(c, k) { CStepIs(c, k, ALONE); }
  }

  /** One step on the way, unless it has ended. */
  lemma {:induction false} NextMark(ms: seq<Mark>) returns (k: nat, next: seq<Mark>)
    requires |ms| == 1 && AllRanked(ms) && ShutdownComes(ms[0].c.pool) && |ms[0].c.own| > 0
    ensures if next == [] then Completed(ms[0].c)
      else
        && |next| == 1 && AllRanked(next) && ShutdownComes(next[0].c.pool) && |next[0].c.own| > 0
        && QuietRun([ms[0].c, next[0].c], [(k, ALONE)]) && next[0].rank < ms[0].rank
  {
    RankedFits(ms);
    if CStuck(ms[0].c) {
      RestCompletes(ms);
      k, next := 0, [];
    } else {
      k := SomeoneCan(ms[0].c);
      next := QuietStepRank(ms, CStep(ms[0].c, k, ALONE), k, ALONE);
      CallSurvives(ms[0].c, k);
      OneQuietStep(ms[0].c, k);
    }
  }

  lemma SameQuiet(h: seq<Concrete>, schedule: seq<(nat, Choice)>, i: nat, g: seq<Concrete>, other: seq<(nat, Choice)>, j: nat)
    requires i < |schedule| && |h| == |schedule| + 1 && j < |other| && |g| == |other| + 1
    requires h[i] == g[j] && h[i + 1] == g[j + 1] && schedule[i] == other[j] && QuietAt(h, schedule, i)
    ensures QuietAt(g, other, j)
  {
  }

  lemma {:induction false} QuietPrepend(c: Concrete, step: (nat, Choice), h: seq<Concrete>, schedule: seq<(nat, Choice)>)
    requires QuietRun(h, schedule) && QuietRun([c, h[0]], [step])
    ensures QuietRun([c] + h, [step] + schedule)
  {
    var g, longer := [c] + h, [step] + schedule;
    assert QuietAt([c, h[0]], [step], 0);
    forall j | 0 <= j < |longer| ensures QuietAt(g, longer, j) {
      if j > 0 { SameQuiet(h, schedule, j - 1, g, longer, j); } else { SameQuiet([c, h[0]], [step], 0, g, longer, 0); }
    }
  }

  lemma {:induction false} MarksEnd(ms: seq<Mark>) returns (h: seq<Concrete>, schedule: seq<(nat, Choice)>)
    requires |ms| == 1 && AllRanked(ms) && ShutdownComes(ms[0].c.pool) && |ms[0].c.own| > 0
    ensures QuietRun(h, schedule) && |schedule| <= ms[0].rank && h[0] == ms[0].c && Completed(h[|schedule|])
    decreases ms[0].rank
  {
    var k, next := NextMark(ms);
    if next == [] {
      h, schedule := [ms[0].c], [];
    } else {
      h, schedule := MarksEnd(next);
      QuietPrepend(ms[0].c, (k, ALONE), h, schedule);
      h, schedule := [ms[0].c] + h, [(k, ALONE)] + schedule;
    }
  }

  /**
   Shutdown completes on the deques: from every state that the pool on Chase-Lev deques reaches, in the middle of whatever
   operations, if somebody shuts it down, there is a way on without new submissions, of at most `AccessRank`
   accesses and steps, to a state in which every worker has left and every job ever submitted has finished once.
   */
  lemma {:induction false} BackedShutdownCompletes(c: Concrete) returns (h: seq<Concrete>, schedule: seq<(nat, Choice)>)
    requires CReachable(c) && ShutdownComes(c.pool) && |c.own| > 0
    ensures CInv(c) && |schedule| <= AccessRank(c)
    ensures QuietRun(h, schedule) && h[0] == c && Completed(h[|schedule|])
  {
    BackedPoolRefinesPool(c);
    var m := Mark(c, AccessRank(c));
    assert RankIs(m);
    h, schedule := MarksEnd([m]);
  }
}
