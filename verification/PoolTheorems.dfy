/** What every run of the work-stealing pool guarantees. */
module PoolTheorems {
  import opened Doorbell
  import opened Options
  import opened Sums
  import opened Pool
  import opened PoolProof
  import opened PoolBell
  import opened PoolJobs

  /** A shutdown call that has made its first step has set the flag. */
  predicate CallsHaveBegun(s: State)
  {
    forall k :: 0 <= k < |s.threads| && s.threads[k].Stopper? && !s.threads[k].phase.Open? ==> s.shutdown
  }

  ghost predicate Inv(s: State)
  {
    && Shape(s) && Threes(s.deques) && DequesOk(s) && HoldersOk(s) && Counted(s)
    && (s.shutdown ==> ClientsQuiet(s)) && CallsHaveBegun(s)
    && forall k :: 0 <= k < |s.threads| ==> BellOk(s, s.threads[k])
  }

  lemma {:induction false} StepClients(s: State, k: nat, c: Choice)
    requires Shape(s) && (s.shutdown ==> ClientsQuiet(s)) && k < |s.threads|
    ensures Step(s, k, c).shutdown ==> ClientsQuiet(Step(s, k, c))
  {
    StepKeepsOthers(s, k, c);
    if Searching(s.threads[k]) {
      SearchKeeps(s, k, c);
      StepPcShape(s, k, c);
    } else if s.shutdown {
      assert s.threads[k].Client? ==> Step(s, k, c) == s;
      StepPcShape(s, k, c);
    }
  }

  lemma {:induction false} StepCalls(s: State, k: nat, c: Choice)
    requires Shape(s) && CallsHaveBegun(s) && k < |s.threads|
    ensures CallsHaveBegun(Step(s, k, c))
  {
    StepKeepsOthers(s, k, c);
    StepPcShape(s, k, c);
    if Searching(s.threads[k]) {
      SearchKeeps(s, k, c);
    }
  }

  lemma {:induction false} StepInv(s: State, k: nat, c: Choice)
    requires Inv(s)
    ensures Inv(Step(s, k, c))
  {
    if k < |s.threads| {
      StepDequesOk(s, k, c);
      StepHoldersOk(s, k, c);
      StepCounted(s, k, c);
      StepClients(s, k, c);
      StepCalls(s, k, c);
      PendingZero(s);
      assert s.pending == 0 ==> EmptyHanded(s.threads[k]);
      StepBell(s, k, c);
    }
  }

  lemma {:induction false} InitialCounted(workers: nat, clients: nat, stoppers: nat)
    ensures Threes(Initial(workers, clients, stoppers).deques) && Counted(Initial(workers, clients, stoppers))
  {
    var s := Initial(workers, clients, stoppers);
    forall x: Job ensures Placed(s, x) {
      SumZero(Hands(s.threads, x));
      SumZero(Locals(s.deques, x));
    }
  }

  lemma {:induction false} InitialInv(workers: nat, clients: nat, stoppers: nat)
    ensures Inv(Initial(workers, clients, stoppers))
  {
    InitialCounted(workers, clients, stoppers);
  }

  /** A schedule says which thread takes each step and what it chooses. */
  ghost function Run(s: State, schedule: seq<(nat, Choice)>): (r: State)
    requires Inv(s)
    ensures Inv(r) && |r.deques| == |s.deques|
    decreases |schedule|
  {
    if schedule == [] then s
    else
      StepInv(s, schedule[0].0, schedule[0].1);
      Run(Step(s, schedule[0].0, schedule[0].1), schedule[1..])
  }

  predicate StepAt(h: seq<State>, schedule: seq<(nat, Choice)>, i: nat)
    requires i < |schedule| && |h| == |schedule| + 1
  {
    Shape(h[i]) && h[i + 1] == Step(h[i], schedule[i].0, schedule[i].1)
  }

  /** The states that a schedule goes through from the start of a pool. */
  ghost predicate History(h: seq<State>, schedule: seq<(nat, Choice)>)
  {
    && |h| == |schedule| + 1
    && (exists workers: nat, clients: nat, stoppers: nat :: h[0] == Initial(workers, clients, stoppers))
    && forall i :: 0 <= i < |schedule| ==> StepAt(h, schedule, i)
  }

  ghost predicate Reachable(s: State)
  {
    exists h, schedule :: History(h, schedule) && h[|schedule|] == s
  }

  lemma {:induction false} HistoryInv(h: seq<State>, schedule: seq<(nat, Choice)>, i: nat)
    requires History(h, schedule) && i <= |schedule|
    ensures Inv(h[i])
  {
    if i == 0 {
      var workers: nat, clients: nat, stoppers: nat :| h[0] == Initial(workers, clients, stoppers);
      InitialInv(workers, clients, stoppers);
    } else {
      HistoryInv(h, schedule, i - 1);
      assert StepAt(h, schedule, i - 1);
      StepInv(h[i - 1], schedule[i - 1].0, schedule[i - 1].1);
    }
  }

  lemma {:induction false} ReachableInv(s: State)
    requires Reachable(s)
    ensures Inv(s)
  {
    var h, schedule :| History(h, schedule) && h[|schedule|] == s;
    HistoryInv(h, schedule, |schedule|);
  }

  lemma InitialReachable(workers: nat, clients: nat, stoppers: nat)
    ensures Reachable(Initial(workers, clients, stoppers))
  {
    assert History([Initial(workers, clients, stoppers)], []);
  }

  lemma SameStep(h: seq<State>, schedule: seq<(nat, Choice)>, g: seq<State>, longer: seq<(nat, Choice)>, i: nat)
    requires i < |schedule| <= |longer| && |h| == |schedule| + 1 && |g| == |longer| + 1
    requires h[i] == g[i] && h[i + 1] == g[i + 1] && schedule[i] == longer[i] && StepAt(h, schedule, i)
    ensures StepAt(g, longer, i)
  {
  }

  lemma {:induction false} ReachableStep(s: State, k: nat, c: Choice)
    requires Reachable(s) && Shape(s)
    ensures Reachable(Step(s, k, c))
  {
    var h, schedule :| History(h, schedule) && h[|schedule|] == s;
    var g, longer := h + [Step(s, k, c)], schedule + [(k, c)];
    forall i | 0 <= i < |longer| ensures StepAt(g, longer, i) {
      if i < |schedule| { SameStep(h, schedule, g, longer, i); }
    }
    assert g[0] == h[0];
    assert History(g, longer) && g[|longer|] == Step(s, k, c);
  }

  // Wakeups

  /** No submitter is between its insertion and the end of its notification. */
  predicate NewsAtRest(s: State)
  {
    !SomeNewsRingDue(s) && !SomeNewsWakeDue(s)
  }

  /** Nobody is between a state change and the end of its announcement. */
  predicate BellAtRest(s: State)
  {
    !SomeRingDue(s) && !SomeWakeDue(s)
  }

  predicate AtRest(pc: Thread) { pc.Asleep? || pc.Exited? }

  /**
   The doorbell: in every reachable state a sleeper whose snapshot a notification has overtaken has its
   waking still to come, so when no waking is under way every sleeper's snapshot is the present one.
   */
  lemma {:induction false} SleepersAreCurrent(s: State, w: nat)
    requires Reachable(s) && w < |s.threads| && s.threads[w].Asleep?
    ensures s.threads[w].gen <= s.gen && (s.threads[w].gen < s.gen ==> SomeWakeDue(s))
  {
    ReachableInv(s);
    assert BellOk(s, s.threads[w]);
  }

  /** And the second half of a notification leaves nobody asleep on an earlier snapshot. */
  lemma {:induction false} WakingWakesAll(s: State, k: nat, c: Choice, w: nat)
    requires Reachable(s) && k < |s.threads| && WakeDue(s.threads[k]) && w < |s.threads| && s.threads[w].Asleep?
    ensures Shape(s) && Step(s, k, c).gen == s.gen && w < |Step(s, k, c).threads|
    ensures Step(s, k, c).threads[w] == if s.threads[w].gen < s.gen then Top else s.threads[w]
  {
    ReachableInv(s);
    assert BellOk(s, s.threads[w]);
  }

  /**
   One worker at rest is enough to know that the injectors are empty, whatever the others do, as long as
   no submitter is between its insertion and the end of its notification.
   */
  lemma {:induction false} SleeperSawAll(s: State, w: nat)
    requires Reachable(s) && NewsAtRest(s) && w < |s.threads| && AtRest(s.threads[w])
    ensures |s.injectors| == PRIORITIES && AllEmpty(s.injectors)
  {
    ReachableInv(s);
    var pc := s.threads[w];
    assert BellOk(s, pc);
    if pc.Exited? {
      PendingZero(s);
    } else {
      forall p | 0 <= p < PRIORITIES ensures s.injectors[p] == [] {
        assert pc.Asleep?;
      }
    }
  }

  /**
   No lost wakeup: in a reachable state with no submission being announced, if every worker sleeps or has
   left, then all injectors and all local deques are empty; and if no announcement of any kind is
   under way and one sleeps, it is not the case that shutdown has begun and nothing is pending.
   */
  lemma {:induction false} NoLostWakeup(s: State)
    requires Reachable(s) && NewsAtRest(s) && |s.deques| > 0
    requires |s.deques| <= |s.threads| && forall w :: 0 <= w < |s.deques| ==> AtRest(s.threads[w])
    ensures |s.injectors| == PRIORITIES && AllEmpty(s.injectors)
    ensures forall w :: 0 <= w < |s.deques| ==> |s.deques[w]| == PRIORITIES && AllEmpty(s.deques[w])
    ensures BellAtRest(s) && (exists w :: 0 <= w < |s.deques| && s.threads[w].Asleep?) ==> !(s.shutdown && s.pending == 0)
  {
    ReachableInv(s);
    forall w | 0 <= w < |s.deques| ensures AllEmpty(s.deques[w]) {
      assert OwnOk(s.deques[w], s.threads[w]);
    }
    assert AtRest(s.threads[0]);
    SleeperSawAll(s, 0);
    if BellAtRest(s) {
      forall w | 0 <= w < |s.deques| && s.threads[w].Asleep? ensures !(s.shutdown && s.pending == 0) {
        assert BellOk(s, s.threads[w]);
      }
    }
  }

  // Shutdown

  /** The call sets the flag, and nothing clears it: from the call's first step on, shutdown has begun. */
  lemma {:induction false} CallSetsFlag(s: State, k: nat)
    requires Reachable(s) && k < |s.threads| && s.threads[k].Stopper? && !s.threads[k].phase.Open?
    ensures s.shutdown
  {
    ReachableInv(s);
  }

  /**
   Shutdown drains: whenever some worker has left its loop, every job ever submitted, by clients or by
   other jobs, has finished exactly once, and no job is anywhere.
   */
  lemma {:induction false} ShutdownDrains(s: State, w: nat)
    requires Reachable(s) && w < |s.threads| && s.threads[w].Exited?
    ensures s.finished == Tickets(s.submitted) && s.pending == 0
    ensures |s.injectors| == PRIORITIES && AllEmpty(s.injectors)
    ensures forall v :: 0 <= v < |s.deques| ==> |s.deques[v]| == PRIORITIES && AllEmpty(s.deques[v])
    ensures forall k :: 0 <= k < |s.threads| ==> EmptyHanded(s.threads[k])
  {
    ReachableInv(s);
    assert BellOk(s, s.threads[w]);
    PendingZero(s);
  }

  /** No job has finished twice, and `pending` counts the jobs that have not finished. */
  lemma {:induction false} AtMostOnce(s: State)
    requires Reachable(s)
    ensures s.pending == s.submitted - |s.finished| >= 0
    ensures forall x: Job :: s.finished[x] <= (if x < s.submitted then 1 else 0)
  {
    ReachableInv(s);
    PendingZero(s);
    forall x: Job ensures s.finished[x] <= (if x < s.submitted then 1 else 0) {
      assert Placed(s, x);
      PlacedParts(s, x);
    }
  }

  /**
   A worker's three deques together never hold more than 31 jobs, all of one priority.
   */
  lemma {:induction false} DequesStaySmall(s: State, w: nat)
    requires Reachable(s) && w < |s.deques|
    ensures |s.deques[w]| == PRIORITIES && Light(s.deques[w])
    ensures forall p :: 0 <= p < PRIORITIES ==> |s.deques[w][p]| < BATCH_SIZE
  {
    ReachableInv(s);
    assert OwnOk(s.deques[w], s.threads[w]);
    assert PcShape(s.threads[w]);
  }

  // Priority inversion

  /** Jobs of the two lower priorities. */
  function Low(own: seq<seq<Job>>): nat
    requires |own| == PRIORITIES
  {
    |own[1]| + |own[2]|
  }

  /** How many lower-priority jobs a worker may still start while the high injector stays non-empty. */
  function Potential(own: seq<seq<Job>>, pc: Thread): int
    requires |own| == PRIORITIES
  {
    match pc
    case Inject(_, p) => if p == 0 then 0 else BATCH_SIZE
    case Pulling(p, _, moved) => if p == 0 then 0 else 1 + Low(own) + BATCH_SIZE - moved
    case Stealing(_, _, _) => 1
    case Found(_, p) => Low(own) + (if p > 0 then 1 else 0)
    case _ => Low(own)
  }

  function Potentials(s: State): seq<int>
    requires Shape(s)
  {
    seq(|s.deques|, w requires 0 <= w < |s.deques| && Shape(s) => Potential(s.deques[w], s.threads[w]))
  }

  lemma {:induction false} PotentialBounds(own: seq<seq<Job>>, pc: Thread)
    requires |own| == PRIORITIES && OwnOk(own, pc)
    ensures 0 <= Potential(own, pc) <= BATCH_SIZE
  {
  }

  /** Being robbed or woken never raises a worker's potential. */
  lemma {:induction false} RobbedPotential(own: seq<seq<Job>>, own': seq<seq<Job>>, pc: Thread, pc': Thread)
    requires |own| == |own'| == PRIORITIES && OwnOk(own, pc)
    requires own' == own || Stolen(own, own')
    requires pc' == pc || (pc.Asleep? && pc'.Top?)
    ensures Potential(own', pc') <= Potential(own, pc)
  {
  }

  lemma {:induction false} SearchPotential(s: State, k: nat, c: Choice)
    requires Shape(s) && k < |s.deques| && Searching(s.threads[k]) && OwnOk(s.deques[k], s.threads[k])
    requires s.injectors[0] != []
    ensures |SearchStep(s, k, c).deques| == |s.deques| && |SearchStep(s, k, c).deques[k]| == PRIORITIES
    ensures Potential(SearchStep(s, k, c).deques[k], SearchStep(s, k, c).threads[k]) <= Potential(s.deques[k], s.threads[k])
  {
    assert PcShape(s.threads[k]);
  }

  lemma {:induction false} OtherPotential(s: State, k: nat, c: Choice)
    requires Shape(s) && k < |s.deques| && !Searching(s.threads[k]) && OwnOk(s.deques[k], s.threads[k])
    ensures var s' := Step(s, k, c);
      && s'.deques[k] == s.deques[k]
      && s'.startedLow >= s.startedLow
      && Potential(s'.deques[k], s'.threads[k]) + s'.startedLow - s.startedLow <= Potential(s.deques[k], s.threads[k])
  {
    OthersLeaveDeques(s, k, c);
    assert PcShape(s.threads[k]) && IsWorker(s.threads[k]);
  }

  lemma {:induction false} NonWorkerStartsNothing(s: State, k: nat, c: Choice)
    requires Shape(s) && |s.deques| <= k
    ensures Step(s, k, c).startedLow == s.startedLow
  {
    if k < |s.threads| {
      assert !IsWorker(s.threads[k]);
    }
  }

  lemma {:induction false} OwnPotential(s: State, k: nat, c: Choice)
    requires Shape(s) && DequesOk(s) && s.injectors[0] != [] && k < |s.deques|
    ensures var s' := Step(s, k, c);
      && |s'.deques[k]| == PRIORITIES && s'.startedLow >= s.startedLow
      && Potential(s'.deques[k], s'.threads[k]) + s'.startedLow - s.startedLow <= Potential(s.deques[k], s.threads[k])
  {
    assert OwnOk(s.deques[k], s.threads[k]);
    if Searching(s.threads[k]) {
      SearchKeeps(s, k, c);
      SearchPotential(s, k, c);
    } else {
      OtherPotential(s, k, c);
    }
  }

  lemma {:induction false} BystanderPotential(s: State, k: nat, c: Choice, w: nat)
    requires Shape(s) && DequesOk(s) && k < |s.threads| && w < |s.deques| && w != k
    ensures |Step(s, k, c).deques[w]| == PRIORITIES
    ensures Potential(Step(s, k, c).deques[w], Step(s, k, c).threads[w]) <= Potential(s.deques[w], s.threads[w])
  {
    assert OwnOk(s.deques[w], s.threads[w]);
    StepKeepsOthers(s, k, c);
    OthersOnlySteal(s, k, c, w);
    RobbedPotential(s.deques[w], Step(s, k, c).deques[w], s.threads[w], Step(s, k, c).threads[w]);
  }

  lemma {:induction false} StepPotential(s: State, k: nat, c: Choice)
    requires Shape(s) && DequesOk(s) && s.injectors[0] != []
    ensures Shape(Step(s, k, c))
    ensures Step(s, k, c).startedLow + Sum(Potentials(Step(s, k, c))) <= s.startedLow + Sum(Potentials(s))
  {
    var s', f := Step(s, k, c), Potentials(s);
    StepShape(s, k, c);
    var f' := Potentials(s');
    if k < |s.threads| {
      forall w | 0 <= w < |s.deques| && w != k ensures f'[w] <= f[w] {
        BystanderPotential(s, k, c, w);
      }
      if k < |s.deques| {
        OwnPotential(s, k, c);
        SumDrops(f, f', k, s'.startedLow - s.startedLow);
      } else {
        NonWorkerStartsNothing(s, k, c);
        SumMonotone(f', f);
      }
    }
  }

  /** In this step a worker begins the body of a job that it found below the highest priority. */
  predicate StartsLow(s: State, k: nat, c: Choice)
    requires Shape(s)
  {
    k < |s.threads| && s.threads[k].Found? && s.threads[k].p > 0 && Step(s, k, c).threads[k] == Body(s.threads[k].job, Quiet)
  }

  lemma {:induction false} StartCounted(s: State, k: nat, c: Choice)
    requires Shape(s)
    ensures Step(s, k, c).startedLow == s.startedLow + One(StartsLow(s, k, c))
  {
    if k < |s.threads| && Searching(s.threads[k]) {
      assert IsWorker(s.threads[k]);
      SearchKeeps(s, k, c);
    }
  }

  /** The bodies of jobs below the highest priority that begin along the run. */
  ghost function LowStarts(s: State, schedule: seq<(nat, Choice)>): nat
    requires Inv(s)
    decreases |schedule|
  {
    if schedule == [] then 0
    else
      var (k, c) := schedule[0];
      StepInv(s, k, c);
      One(StartsLow(s, k, c)) + LowStarts(Step(s, k, c), schedule[1..])
  }

  lemma {:induction false} StartsCounted(s: State, schedule: seq<(nat, Choice)>)
    requires Inv(s)
    ensures Run(s, schedule).startedLow == s.startedLow + LowStarts(s, schedule)
    decreases |schedule|
  {
    if schedule != [] {
      var (k, c) := schedule[0];
      StepInv(s, k, c);
      StartCounted(s, k, c);
      StartsCounted(Step(s, k, c), schedule[1..]);
    }
  }

  /** The injector of the highest priority is never empty along the run. */
  ghost predicate HighWaits(s: State, schedule: seq<(nat, Choice)>)
    requires Inv(s)
    decreases |schedule|
  {
    schedule == [] ||
    (s.injectors[0] != [] &&
     (StepInv(s, schedule[0].0, schedule[0].1); HighWaits(Step(s, schedule[0].0, schedule[0].1), schedule[1..])))
  }

  lemma {:induction false} StartsArePaid(s: State, schedule: seq<(nat, Choice)>)
    requires Inv(s) && HighWaits(s, schedule)
    ensures Run(s, schedule).startedLow + Sum(Potentials(Run(s, schedule))) <= s.startedLow + Sum(Potentials(s))
    decreases |schedule|
  {
    if schedule != [] {
      StepInv(s, schedule[0].0, schedule[0].1);
      StepPotential(s, schedule[0].0, schedule[0].1);
      StartsArePaid(Step(s, schedule[0].0, schedule[0].1), schedule[1..]);
    }
  }

  lemma {:induction false} PotentialsBound(s: State)
    requires Inv(s)
    ensures 0 <= Sum(Potentials(s)) <= BATCH_SIZE * |s.deques|
  {
    forall w | 0 <= w < |s.deques| ensures 0 <= Potentials(s)[w] <= BATCH_SIZE {
      assert OwnOk(s.deques[w], s.threads[w]);
      PotentialBounds(s.deques[w], s.threads[w]);
    }
    SumBounds(Potentials(s), 0, BATCH_SIZE);
  }

  /**
   Bounded priority inversion: from any state that satisfies the invariant, as every reachable one does,
   while the high-priority injector stays non-empty, N workers start at most 32 N jobs of lower
   priority in total, whatever each was doing at the beginning.
   */
  lemma {:induction false} BoundedInversion(s: State, schedule: seq<(nat, Choice)>)
    requires Inv(s) && HighWaits(s, schedule)
    ensures LowStarts(s, schedule) <= 32 * |s.deques|
  {
    StartsCounted(s, schedule);
    StartsArePaid(s, schedule);
    PotentialsBound(s);
    PotentialsBound(Run(s, schedule));
  }
}
