/**
 Progress of the work-stealing pool: once nobody starts another submission, every schedule comes to rest after
 a bounded number of effective steps, and a pool at rest has run every job and, after shutdown, has
 no worker left.
 */
module PoolProgress {
  import opened Doorbell
  import opened Options
  import opened Sums
  import opened Pool
  import opened PoolProof
  import opened PoolBell
  import opened PoolJobs
  import opened PoolTheorems

  /** The step does not begin a call of `submit`; calls already begun go on. */
  predicate NoNewSubmission(s: State, k: nat, c: Choice)
  {
    k < |s.threads| ==> s.threads[k] != Client(Quiet) && (s.threads[k].Body? && s.threads[k].sub.Quiet? ==> !c.submits)
  }

  // How often the doorbell can still ring

  /** Rings due from a call in progress, counting the end of the job it brings. */
  function CallRings(sub: Submitter): nat
  {
    match sub
    case Quiet => 0
    case Adding => 2
    case Inserting(_, _) => 2
    case Ringing => 1
    case Waking => 0
  }

  function Rings(pc: Thread): nat
  {
    match pc
    case Pulling(_, _, _) => 1
    case Found(_, _) => 1
    case Body(_, sub) => 1 + CallRings(sub)
    case BodyRinging => 1
    case Client(sub) => CallRings(sub)
    case Stopper(phase) => if phase.Open? || phase.FlagRinging? then 1 else 0
    case _ => 0
  }

  function ThreadRings(threads: seq<Thread>): seq<int>
  {
    seq(|threads|, k requires 0 <= k < |threads| => Rings(threads[k]))
  }

  function Sizes(deques: seq<seq<seq<Job>>>): seq<int>
    requires Threes(deques)
  {
    seq(|deques|, w requires 0 <= w < |deques| && Threes(deques) => Size(deques[w]))
  }

  /** One ring for every job not yet finished, and those due from calls and from the shutdown. */
  function Budget(s: State): int
    requires Shape(s)
  {
    Sum(ThreadRings(s.threads)) + Sum(Sizes(s.deques)) + Size(s.injectors)
  }

  /** What a step of thread `k` does to the budget, the deques it touches being worker `w`'s. */
  predicate Spends(s: State, s': State, k: nat, w: nat)
    requires Shape(s) && k < |s.threads| == |s'.threads| && |s'.deques| == |s.deques| && |s'.injectors| == PRIORITIES
  {
    && (w < |s.deques| ==> |s'.deques[w]| == PRIORITIES && s'.deques == s.deques[w := s'.deques[w]])
    && (w >= |s.deques| ==> s'.deques == s.deques)
    && s.gen <= s'.gen
    && Rings(s'.threads[k]) + (if w < |s.deques| then Size(s'.deques[w]) else 0) + Size(s'.injectors) + s'.gen ==
       Rings(s.threads[k]) + (if w < |s.deques| then Size(s.deques[w]) else 0) + Size(s.injectors) + s.gen
  }

  /** The same for a step of a search. */
  predicate SearchPays(s: State, s': State, k: nat)
    requires Shape(s) && k < |s.threads|
  {
    |s'.threads| == |s.threads| && |s'.deques| == |s.deques| && |s'.injectors| == PRIORITIES && Spends(s, s', k, Touched(s, k))
  }

  lemma SizeAfter(own: seq<seq<Job>>, p: nat, jobs: seq<Job>)
    requires |own| == PRIORITIES && p < PRIORITIES
    ensures Size(own[p := jobs]) == Size(own) - |own[p]| + |jobs|
  {
  }

  lemma {:induction false} LocalSpends(s: State, k: nat, c: Choice)
    requires Shape(s) && k < |s.deques| && s.threads[k].Local?
    ensures SearchPays(s, SearchStep(s, k, c), k)
  {
    var p := s.threads[k].p;
    if p < PRIORITIES && s.deques[k][p] != [] {
      SizeAfter(s.deques[k], p, s.deques[k][p][..|s.deques[k][p]| - 1]);
    } else {
      assert s.deques[k := s.deques[k]] == s.deques;
    }
  }

  lemma {:induction false} InjectSpends(s: State, k: nat, c: Choice)
    requires Shape(s) && k < |s.deques| && s.threads[k].Inject?
    ensures SearchPays(s, SearchStep(s, k, c), k)
  {
    var p := s.threads[k].p;
    assert s.deques[k := s.deques[k]] == s.deques;
    if p < PRIORITIES && s.injectors[p] != [] {
      SizeAfter(s.injectors, p, s.injectors[p][1..]);
    }
  }

  lemma {:induction false} PullSpends(s: State, k: nat, c: Choice)
    requires Shape(s) && k < |s.deques| && s.threads[k].Pulling?
    ensures SearchPays(s, SearchStep(s, k, c), k)
  {
    assert PcShape(s.threads[k]);
    var p, moved := s.threads[k].p, s.threads[k].moved;
    if moved < BATCH_SIZE && s.injectors[p] != [] {
      SizeAfter(s.injectors, p, s.injectors[p][1..]);
      SizeAfter(s.deques[k], p, s.deques[k][p] + [s.injectors[p][0]]);
    } else {
      assert s.deques[k := s.deques[k]] == s.deques;
    }
  }

  lemma {:induction false} StealSpends(s: State, k: nat, c: Choice)
    requires Shape(s) && k < |s.deques| && s.threads[k].Stealing?
    ensures SearchPays(s, SearchStep(s, k, c), k)
  {
    assert PcShape(s.threads[k]);
    var p, peer := s.threads[k].p, s.threads[k].peer;
    if peer < |s.deques| { assert s.deques[peer := s.deques[peer]] == s.deques; }
    if p < PRIORITIES && peer < |s.deques| && s.deques[peer][p] != [] {
      SizeAfter(s.deques[peer], p, s.deques[peer][p][1..]);
    }
  }

  lemma {:induction false} SearchSpends(s: State, k: nat, c: Choice)
    requires Shape(s) && k < |s.deques| && Searching(s.threads[k])
    ensures SearchPays(s, SearchStep(s, k, c), k)
  {
    match s.threads[k]
    case Local(_, _) => LocalSpends(s, k, c);
    case Inject(_, _) => InjectSpends(s, k, c);
    case Pulling(_, _, _) => PullSpends(s, k, c);
    case Stealing(_, _, _) => StealSpends(s, k, c);
  }

  lemma {:induction false} InserterSpends(s: State, k: nat, c: Choice)
    requires Shape(s) && k < |s.threads| && Submits(s.threads[k]) && s.threads[k].sub.Inserting?
    ensures |Step(s, k, c).injectors| == PRIORITIES && Spends(s, Step(s, k, c), k, k)
  {
    InserterMoves(s, k, c);
    var sub := s.threads[k].sub;
    if k < |s.deques| { assert s.deques[k := s.deques[k]] == s.deques; }
    SizeAfter(s.injectors, sub.p, s.injectors[sub.p] + [sub.job]);
  }

  lemma {:induction false} SubmitterSpends(s: State, k: nat, c: Choice)
    requires Shape(s) && k < |s.threads| && Submits(s.threads[k]) && NoNewSubmission(s, k, c)
    ensures |Step(s, k, c).injectors| == PRIORITIES && Spends(s, Step(s, k, c), k, k)
  {
    if s.threads[k].sub.Inserting? {
      InserterSpends(s, k, c);
    } else {
      OthersLeaveDeques(s, k, c);
      if k < |s.deques| { assert s.deques[k := s.deques[k]] == s.deques; }
    }
  }

  lemma {:induction false} IdlerSpends(s: State, k: nat, c: Choice)
    requires Shape(s) && k < |s.threads| && !Submits(s.threads[k]) && !Searching(s.threads[k])
    ensures |Step(s, k, c).injectors| == PRIORITIES && Spends(s, Step(s, k, c), k, k)
  {
    OthersLeaveDeques(s, k, c);
    if k < |s.deques| { assert s.deques[k := s.deques[k]] == s.deques; }
  }

  lemma {:induction false} StepSpends(s: State, k: nat, c: Choice)
    requires Shape(s) && k < |s.threads| && NoNewSubmission(s, k, c)
    ensures |Step(s, k, c).injectors| == PRIORITIES && Spends(s, Step(s, k, c), k, Touched(s, k))
  {
    if Searching(s.threads[k]) {
      SearchKeeps(s, k, c);
      SearchSpends(s, k, c);
    } else if Submits(s.threads[k]) {
      SubmitterSpends(s, k, c);
    } else {
      IdlerSpends(s, k, c);
    }
  }

  /** Every ring is paid out of the budget, and nothing else changes it. */
  lemma {:induction false} BudgetPaysRings(s: State, k: nat, c: Choice)
    requires Shape(s) && k < |s.threads| && NoNewSubmission(s, k, c)
    ensures Shape(Step(s, k, c)) && s.gen <= Step(s, k, c).gen
    ensures Budget(Step(s, k, c)) == Budget(s) - (Step(s, k, c).gen - s.gen)
  {
    var s', w := Step(s, k, c), Touched(s, k);
    StepShape(s, k, c);
    StepKeepsOthers(s, k, c);
    StepSpends(s, k, c);
    SumUpdate(ThreadRings(s.threads), k, Rings(s'.threads[k]));
    assert ThreadRings(s'.threads) == ThreadRings(s.threads)[k := Rings(s'.threads[k])];
    if w < |s.deques| {
      SumUpdate(Sizes(s.deques), w, Size(s'.deques[w]));
      assert Sizes(s'.deques) == Sizes(s.deques)[w := Size(s'.deques[w])];
    }
  }

  lemma {:induction false} BudgetIsNat(s: State)
    requires Shape(s)
    ensures Budget(s) >= 0
  {
    SumNonNegative(ThreadRings(s.threads));
    SumNonNegative(Sizes(s.deques));
  }

  // How far a thread is from rest, as long as the doorbell does not ring again

  /** The length of one round of a worker's loop, for `n` workers. */
  function Round(n: nat): nat
  {
    4 * n + 55
  }

  function StealFar(n: nat, p: nat, peer: nat): nat
  {
    40 + (if p == 0 then 3 * (n + 2) else if p == 1 then 2 * (n + 2) else if p == 2 then n + 2 else 0)
    + (if peer < n then n - peer else 0)
  }

  /** A worker with an old snapshot may have to go round once more. */
  function Stale(g: nat, gen: nat, n: nat): nat
  {
    if g < gen then Round(n) + 1 else 0
  }

  function CallFar(sub: Submitter): nat
  {
    match sub
    case Quiet => 0
    case Adding => 4
    case Inserting(_, _) => 3
    case Ringing => 2
    case Waking => 1
  }

  /** A bound on the steps a thread can take before the next ring. */
  function Far(pc: Thread, n: nat, gen: nat): nat
  {
    match pc
    case Top => Round(n)
    case Local(g, p) => Stale(g, gen, n) + Round(n) - 1 - (if p < 4 then p else 4)
    case Inject(g, p) => Stale(g, gen, n) + Round(n) - 5 - (if p < 4 then p else 4)
    case Pulling(_, _, moved) => 4 + (if moved < BATCH_SIZE then BATCH_SIZE - moved else 0)
    case Stealing(g, p, peer) => Stale(g, gen, n) + StealFar(n, p, peer)
    case CheckFlag(g) => Stale(g, gen, n) + 3
    case CheckPending(g) => Stale(g, gen, n) + 2
    case Waiting(g) => Stale(g, gen, n) + 1
    case Asleep(g) => Stale(g, gen, n)
    case Exited => 0
    case Found(_, _) => 3
    case Body(_, sub) => 2 + CallFar(sub)
    case BodyRinging => 1
    case BodyWaking => Round(n) + 1
    case Client(sub) => CallFar(sub)
    case Stopper(phase) => if phase.Open? then 3 else if phase.FlagRinging? then 2 else if phase.FlagWaking? then 1 else 0
  }

  function Fars(s: State): seq<int>
  {
    seq(|s.threads|, k requires 0 <= k < |s.threads| => Far(s.threads[k], |s.deques|, s.gen))
  }

  predicate SnapshotOk(pc: Thread, gen: nat)
  {
    Observing(pc) ==> pc.gen <= gen
  }

  predicate Nearer(s: State, s': State, k: nat)
    requires k < |s.threads|
  {
    s' == s || (|s'.threads| == |s.threads| && Far(s'.threads[k], |s.deques|, s.gen) < Far(s.threads[k], |s.deques|, s.gen))
  }

  lemma {:induction false} ThiefNears(s: State, k: nat, c: Choice)
    requires Shape(s) && k < |s.deques| && s.threads[k].Stealing?
    ensures Nearer(s, SearchStep(s, k, c), k)
  {
    assert PcShape(s.threads[k]);
  }

  lemma {:induction false} PullerNears(s: State, k: nat, c: Choice)
    requires Shape(s) && k < |s.deques| && (s.threads[k].Inject? || s.threads[k].Pulling?)
    ensures Nearer(s, SearchStep(s, k, c), k)
  {
    assert PcShape(s.threads[k]);
  }

  lemma {:induction false} SearcherNears(s: State, k: nat, c: Choice)
    requires Shape(s) && k < |s.deques| && Searching(s.threads[k])
    ensures Nearer(s, SearchStep(s, k, c), k)
  {
    if s.threads[k].Stealing? {
      ThiefNears(s, k, c);
    } else if !s.threads[k].Local? {
      PullerNears(s, k, c);
    } else {
      assert PcShape(s.threads[k]);
    }
  }

  lemma {:induction false} SubmitterNears(s: State, k: nat, c: Choice)
    requires Shape(s) && k < |s.threads| && Submits(s.threads[k]) && NoNewSubmission(s, k, c)
    ensures var s' := Step(s, k, c);
      s' == s || Far(s'.threads[k], |s.deques|, s.gen) < Far(s.threads[k], |s.deques|, s.gen)
  {
    if s.threads[k].sub.Inserting? { InserterMoves(s, k, c); }
  }

  lemma {:induction false} IdlerNears(s: State, k: nat, c: Choice)
    requires Shape(s) && k < |s.threads| && !Submits(s.threads[k]) && !Searching(s.threads[k])
    requires SnapshotOk(s.threads[k], s.gen) && Step(s, k, c).gen == s.gen
    ensures var s' := Step(s, k, c);
      s' == s || Far(s'.threads[k], |s.deques|, s.gen) < Far(s.threads[k], |s.deques|, s.gen)
  {
  }

  /** A step that changes anything without ringing brings its thread nearer to rest, and nobody further. */
  lemma {:induction false} StepNears(s: State, k: nat, c: Choice)
    requires Inv(s) && k < |s.threads| && NoNewSubmission(s, k, c)
    requires Step(s, k, c) != s && Step(s, k, c).gen == s.gen
    ensures Sum(Fars(Step(s, k, c))) < Sum(Fars(s))
  {
    var s', f := Step(s, k, c), Fars(s);
    var f' := Fars(s');
    StepKeepsOthers(s, k, c);
    assert BellOk(s, s.threads[k]);
    assert f'[k] < f[k] by {
      if Searching(s.threads[k]) {
        SearchKeeps(s, k, c);
        SearcherNears(s, k, c);
      } else if Submits(s.threads[k]) {
        SubmitterNears(s, k, c);
      } else {
        IdlerNears(s, k, c);
      }
    }
    forall j | 0 <= j < |f| && j != k ensures f'[j] <= f[j] {
      assert BellOk(s, s.threads[j]);
      WokenNears(s, k, c, j);
    }
    SumDrops(f, f', k, 1);
  }

  /** Only a sleeper with an old snapshot is ever woken. */
  lemma {:induction false} WokenNears(s: State, k: nat, c: Choice, j: nat)
    requires Shape(s) && k < |s.threads| && j < |s.threads| && j != k && SnapshotOk(s.threads[j], s.gen)
    ensures Far(Step(s, k, c).threads[j], |s.deques|, s.gen) <= Far(s.threads[j], |s.deques|, s.gen)
  {
    StepKeepsOthers(s, k, c);
    var s' := Step(s, k, c);
    if s'.threads[j] != s.threads[j] {
      WakerWakesOld(s, k, c, j);
    }
  }

  lemma {:induction false} WakerWakesOld(s: State, k: nat, c: Choice, j: nat)
    requires Shape(s) && k < |s.threads| && j < |s.threads| && j != k && Step(s, k, c).threads[j] != s.threads[j]
    ensures s.threads[j].Asleep? && s.threads[j].gen != s.gen && Step(s, k, c).threads[j] == Top
  {
    StepKeepsOthers(s, k, c);
    if Searching(s.threads[k]) { SearchKeeps(s, k, c); }
  }

  // The rank

  lemma {:induction false} FarsBound(s: State)
    requires Shape(s)
    ensures 0 <= Sum(Fars(s)) <= (2 * Round(|s.deques|) + 1) * |s.threads|
  {
    SumBounds(Fars(s), 0, 2 * Round(|s.deques|) + 1);
  }

  /** More than the effective steps any schedule can take between two rings. */
  function PerRing(s: State): nat
  {
    (2 * Round(|s.deques|) + 1) * |s.threads| + 1
  }

  function Rank(s: State): (r: nat)
    requires Shape(s)
  {
    BudgetIsNat(s);
    FarsBound(s);
    TwoLevel(Budget(s), PerRing(s), Sum(Fars(s)))
  }

  lemma {:induction false} RingLowersRank(s: State, s': State)
    requires Shape(s) && Shape(s') && |s'.threads| == |s.threads| && |s'.deques| == |s.deques| && Budget(s') < Budget(s)
    ensures Rank(s') < Rank(s)
  {
    FarsBound(s);
    FarsBound(s');
    BudgetIsNat(s');
    TwoLevelDrops(Budget(s), Budget(s'), PerRing(s), Sum(Fars(s)), Sum(Fars(s')));
  }

  lemma {:induction false} NearLowersRank(s: State, s': State)
    requires Shape(s) && Shape(s') && |s'.threads| == |s.threads| && |s'.deques| == |s.deques|
    requires Budget(s') == Budget(s) && Sum(Fars(s')) < Sum(Fars(s))
    ensures Rank(s') < Rank(s)
  {
    FarsBound(s');
    BudgetIsNat(s);
    LowDrops(Budget(s), PerRing(s), Sum(Fars(s)), Sum(Fars(s')));
  }

  /** Ranking: every effective step of a pool in which no new submission begins lowers the rank. */
  lemma {:induction false} StepLowersRank(s: State, k: nat, c: Choice)
    requires Inv(s) && NoNewSubmission(s, k, c) && Step(s, k, c) != s
    ensures Shape(Step(s, k, c)) && Rank(Step(s, k, c)) < Rank(s)
  {
    BudgetPaysRings(s, k, c);
    if Step(s, k, c).gen == s.gen {
      StepNears(s, k, c);
      NearLowersRank(s, Step(s, k, c));
    } else {
      RingLowersRank(s, Step(s, k, c));
    }
  }

  ghost predicate NoneSubmits(s: State, schedule: seq<(nat, Choice)>)
    requires Inv(s)
    decreases |schedule|
  {
    schedule == [] ||
    (var (k, c) := schedule[0];
     NoNewSubmission(s, k, c) && (StepInv(s, k, c); NoneSubmits(Step(s, k, c), schedule[1..])))
  }

  /** How many steps of the schedule change the state. */
  ghost function Effective(s: State, schedule: seq<(nat, Choice)>): nat
    requires Inv(s)
    decreases |schedule|
  {
    if schedule == [] then 0
    else
      var (k, c) := schedule[0];
      StepInv(s, k, c);
      (if Step(s, k, c) == s then 0 else 1) + Effective(Step(s, k, c), schedule[1..])
  }

  /** No livelock: whatever the schedule, without new submissions at most `Rank(s)` of its steps change anything. */
  lemma {:induction false} EffectiveStepsBounded(s: State, schedule: seq<(nat, Choice)>)
    requires Inv(s) && NoneSubmits(s, schedule)
    ensures Effective(s, schedule) + Rank(Run(s, schedule)) <= Rank(s)
    decreases |schedule|
  {
    if schedule != [] {
      var (k, c) := schedule[0];
      StepInv(s, k, c);
      if Step(s, k, c) != s { StepLowersRank(s, k, c); }
      EffectiveStepsBounded(Step(s, k, c), schedule[1..]);
    }
  }

  // A pool at rest

  /** Nobody can change anything but by a new submission. */
  predicate Stuck(s: State)
    requires Shape(s)
  {
    forall k :: 0 <= k < |s.threads| && s.threads[k] != Client(Quiet) ==> Step(s, k, ALONE) == s
  }

  /** The points at which a thread can be while nobody can move. */
  predicate Resting(pc: Thread)
  {
    AtRest(pc) || pc == Client(Quiet) || pc == Stopper(Joining)
  }

  lemma {:induction false} HolderMoves(s: State, p: nat)
    requires Shape(s) && HoldersOk(s) && Stuck(s) && p < PRIORITIES
    ensures s.holder[p] == None
  {
    if s.holder[p].Some? {
      var j := s.holder[p].value;
      assert s.threads[j].Pulling?;
      assert IsWorker(s.threads[j]);
      PullerMoves(s, j);
    }
  }

  lemma {:induction false} PullerMoves(s: State, k: nat)
    requires Shape(s) && k < |s.deques| && s.threads[k].Pulling?
    ensures Step(s, k, ALONE) != s
  {
    assert PcShape(s.threads[k]);
    assert Step(s, k, ALONE).threads[k] != s.threads[k];
  }

  lemma {:induction false} SearcherMoves(s: State, k: nat)
    requires Shape(s) && k < |s.deques| && Searching(s.threads[k]) && forall p :: 0 <= p < PRIORITIES ==> s.holder[p] == None
    ensures Step(s, k, ALONE) != s
  {
    assert PcShape(s.threads[k]);
    assert Step(s, k, ALONE).threads[k] != s.threads[k];
  }

  lemma {:induction false} SubmitterMoves(s: State, k: nat)
    requires Shape(s) && k < |s.threads| && Submits(s.threads[k]) && s.threads[k] != Client(Quiet)
    requires forall p :: 0 <= p < PRIORITIES ==> s.holder[p] == None
    ensures Step(s, k, ALONE) != s
  {
    assert PcShape(s.threads[k]);
    assert Step(s, k, ALONE).threads[k] != s.threads[k];
  }

  lemma {:induction false} IdlerMoves(s: State, k: nat)
    requires Shape(s) && k < |s.threads| && !Searching(s.threads[k]) && !Submits(s.threads[k]) && !Resting(s.threads[k])
    requires s.threads[k] == Stopper(Open) ==> ClientsQuiet(s)
    ensures Step(s, k, ALONE) != s
  {
    assert Step(s, k, ALONE).threads[k] != s.threads[k];
  }

  lemma {:induction false} StuckRests(s: State)
    requires Inv(s) && Stuck(s)
    ensures forall k :: 0 <= k < |s.threads| ==> Resting(s.threads[k])
  {
    forall p | 0 <= p < PRIORITIES ensures s.holder[p] == None {
      HolderMoves(s, p);
    }
    forall k | 0 <= k < |s.threads| && (Searching(s.threads[k]) || Submits(s.threads[k])) ensures Resting(s.threads[k]) {
      if Searching(s.threads[k]) {
        assert IsWorker(s.threads[k]);
        SearcherMoves(s, k);
      } else if s.threads[k] != Client(Quiet) {
        SubmitterMoves(s, k);
      }
    }
    assert ClientsQuiet(s);
    forall k | 0 <= k < |s.threads| ensures Resting(s.threads[k]) {
      if !Resting(s.threads[k]) {
        IdlerMoves(s, k);
      }
    }
  }

  lemma {:induction false} RestHoldsNothing(s: State, x: Job)
    requires Inv(s) && AllEmpty(s.injectors) && forall w :: 0 <= w < |s.deques| ==> AllEmpty(s.deques[w])
    requires forall k :: 0 <= k < |s.threads| ==> Resting(s.threads[k])
    ensures s.finished[x] == One(x < s.submitted)
  {
    assert Placed(s, x);
    SumZero(Hands(s.threads, x));
    SumZero(Locals(s.deques, x));
  }

  /**
   No deadlock: a pool with at least one worker in which nobody can move has finished every job, once; all
   queues are empty; its workers sleep or have left. If anybody has called shutdown, the call has come to its
   joins and the workers have all left.
   */
  lemma {:induction false} StuckIsDone(s: State)
    requires Inv(s) && Stuck(s) && |s.deques| > 0
    ensures s.finished == Tickets(s.submitted) && s.pending == 0
    ensures AllEmpty(s.injectors) && forall w :: 0 <= w < |s.deques| ==> AllEmpty(s.deques[w])
    ensures forall w :: 0 <= w < |s.deques| ==> AtRest(s.threads[w]) && (s.shutdown ==> s.threads[w].Exited?)
    ensures forall k :: 0 <= k < |s.threads| && s.threads[k].Stopper? ==> s.threads[k] == Stopper(Joining) && s.shutdown
  {
    StuckRests(s);
    assert !SomeNewsRingDue(s) && !SomeNewsWakeDue(s) && !SomeRingDue(s) && !SomeWakeDue(s);
    forall w | 0 <= w < |s.deques| ensures AtRest(s.threads[w]) && AllEmpty(s.deques[w]) {
      assert Resting(s.threads[w]) && IsWorker(s.threads[w]);
      assert OwnOk(s.deques[w], s.threads[w]);
    }
    assert AtRest(s.threads[0]);
    RestingSawAll(s, 0);
    forall x: Job ensures s.finished[x] == One(x < s.submitted) {
      RestHoldsNothing(s, x);
    }
    TicketsOnce(s.submitted);
    assert s.finished == Tickets(s.submitted);
    forall w | 0 <= w < |s.deques| ensures s.shutdown ==> s.threads[w].Exited? {
      assert AtRest(s.threads[w]) && BellOk(s, s.threads[w]);
    }
  }

  lemma {:induction false} RestingSawAll(s: State, w: nat)
    requires Inv(s) && w < |s.threads| && AtRest(s.threads[w]) && NewsAtRest(s)
    ensures AllEmpty(s.injectors)
  {
    assert BellOk(s, s.threads[w]);
    if s.threads[w].Exited? { PendingZero(s); }
  }

  lemma {:induction false} ScheduleCons(s: State, k: nat, c: Choice, rest: seq<(nat, Choice)>)
    requires Inv(s) && Inv(Step(s, k, c)) && NoNewSubmission(s, k, c) && NoneSubmits(Step(s, k, c), rest)
    ensures NoneSubmits(s, [(k, c)] + rest) && Run(s, [(k, c)] + rest) == Run(Step(s, k, c), rest)
  {
    assert ([(k, c)] + rest)[1..] == rest;
  }

  lemma {:induction false} ShutdownStays(s: State, k: nat, c: Choice)
    requires Shape(s)
    ensures s.shutdown ==> Step(s, k, c).shutdown
  {
    if k < |s.threads| && Searching(s.threads[k]) { SearchKeeps(s, k, c); }
  }

  predicate SameKinds(s: State, s': State)
  {
    |s'.threads| == |s.threads| && forall j :: 0 <= j < |s.threads| ==> s'.threads[j].Stopper? == s.threads[j].Stopper?
  }

  lemma {:induction false} StopperStays(s: State, k: nat, c: Choice)
    requires Shape(s)
    ensures SameKinds(s, Step(s, k, c))
  {
    if k < |s.threads| {
      StepKeepsOthers(s, k, c);
      StepPcShape(s, k, c);
      if Searching(s.threads[k]) { SearchKeeps(s, k, c); }
    }
  }

  /** The schedule brings the pool to rest without new submissions, and not by undoing a shutdown. */
  ghost predicate Settles(s: State, schedule: seq<(nat, Choice)>)
    requires Inv(s)
  {
    && NoneSubmits(s, schedule) && Stuck(Run(s, schedule))
    && (s.shutdown ==> Run(s, schedule).shutdown) && SameKinds(s, Run(s, schedule))
  }

  lemma {:induction false} SettlesAtOnce(s: State)
    requires Inv(s) && Stuck(s)
    ensures Settles(s, [])
  {
  }

  lemma {:induction false} SettlesLater(s: State, k: nat, c: Choice, rest: seq<(nat, Choice)>)
    requires Inv(s) && Inv(Step(s, k, c)) && NoNewSubmission(s, k, c) && Settles(Step(s, k, c), rest)
    ensures Settles(s, [(k, c)] + rest)
  {
    ScheduleCons(s, k, c, rest);
    ShutdownStays(s, k, c);
    StopperStays(s, k, c);
  }

  lemma {:induction false} SomeoneMoves(s: State) returns (k: nat, s1: State)
    requires Inv(s) && !Stuck(s)
    ensures NoNewSubmission(s, k, ALONE) && s1 == Step(s, k, ALONE) && Inv(s1) && Rank(s1) < Rank(s)
  {
    k :| 0 <= k < |s.threads| && s.threads[k] != Client(Quiet) && Step(s, k, ALONE) != s;
    StepInv(s, k, ALONE);
    StepLowersRank(s, k, ALONE);
    s1 := Step(s, k, ALONE);
  }

  /** A way to rest: while the pool is not stuck some thread can move, and lowers the rank. */
  lemma {:induction false} ComesToRest(s: State) returns (schedule: seq<(nat, Choice)>)
    requires Inv(s)
    ensures Settles(s, schedule) && |schedule| <= Rank(s)
    decreases Rank(s)
  {
    if Stuck(s) {
      SettlesAtOnce(s);
      schedule := [];
    } else {
      var k, s1 := SomeoneMoves(s);
      var rest := ComesToRest(s1);
      SettlesLater(s, k, ALONE, rest);
      schedule := [(k, ALONE)] + rest;
    }
  }

  /** The call of shutdown has been made, or will be by a thread that is there to make it. */
  predicate ShutdownComes(s: State)
  {
    s.shutdown || exists k :: 0 <= k < |s.threads| && s.threads[k].Stopper?
  }

  /**
   Shutdown completes: from every reachable state of a pool that somebody shuts down there is a way on, of at most
   `Rank(s)` steps and without new submissions, to a state in which every worker has left its loop, every
   call of shutdown is at its joins, and every job ever submitted has finished exactly once.
   */
  lemma {:induction false} ShutdownCompletes(s: State) returns (schedule: seq<(nat, Choice)>)
    requires Reachable(s) && ShutdownComes(s) && |s.deques| > 0
    ensures Inv(s) && NoneSubmits(s, schedule) && |schedule| <= Rank(s)
    ensures var t := Run(s, schedule);
      && |t.deques| == |s.deques| && t.finished == Tickets(t.submitted)
      && (forall w :: 0 <= w < |t.deques| ==> w < |t.threads| && t.threads[w].Exited?)
      && (forall k :: 0 <= k < |t.threads| && t.threads[k].Stopper? ==> t.threads[k] == Stopper(Joining))
  {
    ReachableInv(s);
    schedule := ComesToRest(s);
    var t := Run(s, schedule);
    StuckIsDone(t);
    if !s.shutdown {
      var k :| 0 <= k < |s.threads| && s.threads[k].Stopper?;
      assert t.threads[k].Stopper?;
    }
  }
}
