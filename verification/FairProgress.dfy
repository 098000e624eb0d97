/**
 Progress of the fair scheduler's threads: once nobody starts another submission, every schedule comes to rest
 after a bounded number of effective steps, and a scheduler at rest has run every job and, after a call of
 shutdown, has no worker left.
 */
module FairProgress {
  import opened Doorbell
  import opened Options
  import opened Sums
  import opened FairState
  import opened FairAgreement
  import opened FairContents
  import opened FairLoop
  import opened FairLoopProof

  /** Nobody begins a submission, and jobs take no time. */
  const ALONE := Choice(false, "", 1.0, 0.0)

  /** The step does not begin a call of `submit`; calls already begun go on. */
  predicate NoNewSubmission(s: Loop, k: nat, c: Choice)
  {
    k < |s.threads| ==> s.threads[k] != Client(Quiet) && (s.threads[k].Body? && s.threads[k].sub.Quiet? ==> !c.submits)
  }

  // How often the doorbell can still ring

  /** Rings due from a call in progress, counting the end of the job it brings. */
  function CallRings(sub: Submitter): nat
  {
    match sub
    case Quiet => 0
    case Adding => 2
    case Inserting(_) => 2
    case Ringing => 1
    case Waking => 0
  }

  function Rings(pc: Thread): nat
  {
    match pc
    case Body(_, sub) => 1 + CallRings(sub)
    case BodyRinging => 1
    case Client(sub) => CallRings(sub)
    case Stopper(phase) => if phase.Open? || phase.FlagRinging? then 1 else 0
    case _ => 0
  }

  function ThreadRings(threads: seq<Thread>): seq<int>
  {
    seq(|threads|, k requires 0 <= k < |threads| => Rings(threads[k]))
  }

  function Lengths(classes: seq<Class>): seq<int>
  {
    seq(|classes|, id requires 0 <= id < |classes| => |classes[id].runnable|)
  }

  function Waiting(core: Fair): int
  {
    Sum(Lengths(core.classes))
  }

  /** One ring for every job not yet finished, and those due from calls and from the shutdown. */
  function Budget(s: Loop): int
  {
    Sum(ThreadRings(s.threads)) + Waiting(s.core)
  }

  lemma {:induction false} SubmitWaiting(core: Fair, job: Job, className: string, weight: real)
    requires Agree(core)
    ensures Waiting(Submit(core, job, className, weight)) == Waiting(core) + 1
  {
    var core', name := Submit(core, job, className, weight), if className == "" then "default" else className;
    SubmitOutcome(core, job, className, weight);
    if Known(core, name) {
      KnownByTable(core, name);
      var id := core.names[name];
      SumUpdate(Lengths(core.classes), id, |core'.classes[id].runnable|);
      forall j | 0 <= j < |core.classes| && j != id ensures core'.classes[j] == core.classes[j] {
        NamesDiffer(core, j, name);
      }
      assert Lengths(core'.classes) == Lengths(core.classes)[id := |core'.classes[id].runnable|];
    } else {
      SumSnoc(Lengths(core.classes), 1);
      assert Lengths(core'.classes) == Lengths(core.classes) + [1];
    }
  }

  lemma {:induction false} DispatchWaiting(core: Fair, w: nat)
    requires Agree(core) && core.ready != [] && w < |core.running|
    ensures Waiting(Dispatch(core, w)) == Waiting(core) - 1
  {
    var core', id := Dispatch(core, w), core.ready[0].id;
    MentionedHasWork(core, core.ready[0]);
    SumUpdate(Lengths(core.classes), id, |core'.classes[id].runnable|);
    assert Lengths(core'.classes) == Lengths(core.classes)[id := |core'.classes[id].runnable|];
  }

  lemma {:induction false} ChargeWaiting(core: Fair, w: nat, elapsed: real)
    requires Agree(core) && w < |core.running| && core.running[w].Some?
    ensures Waiting(Charge(core, w, elapsed)) == Waiting(core)
  {
    assert Lengths(Charge(core, w, elapsed).classes) == Lengths(core.classes);
  }

  /** What a step of thread `k` does to the budget. */
  predicate Spends(s: Loop, s': Loop, k: nat)
    requires k < |s.threads| == |s'.threads|
  {
    s.gen <= s'.gen && Rings(s'.threads[k]) + Waiting(s'.core) + s'.gen == Rings(s.threads[k]) + Waiting(s.core) + s.gen
  }

  lemma {:induction false} InserterSpends(s: Loop, k: nat, c: Choice)
    requires Shape(s) && k < |s.threads| && (s.threads[k].Body? || s.threads[k].Client?) && s.threads[k].sub.Inserting?
    ensures Spends(s, FairLoop.Step(s, k, c), k)
  {
    InserterMoves(s, k, c);
    SubmitWaiting(s.core, s.threads[k].sub.job, c.className, c.weight);
  }

  lemma {:induction false} SubmitterSpends(s: Loop, k: nat, c: Choice)
    requires Shape(s) && k < |s.threads| && (s.threads[k].Body? || s.threads[k].Client?) && NoNewSubmission(s, k, c)
    ensures Spends(s, FairLoop.Step(s, k, c), k)
  {
    if s.threads[k].sub.Inserting? {
      InserterSpends(s, k, c);
    } else {
      assert FairLoop.Step(s, k, c).core == s.core;
    }
  }

  lemma {:induction false} TakerSpends(s: Loop, k: nat, c: Choice)
    requires Shape(s) && k < |s.threads| && (s.threads[k].Look? || s.threads[k].Charging?)
    ensures Spends(s, FairLoop.Step(s, k, c), k)
  {
    assert IsWorker(s.threads[k]) <==> k < |s.core.running|;
    if s.threads[k].Look? && s.core.ready != [] {
      DispatchWaiting(s.core, k);
    } else if s.threads[k].Charging? && c.elapsed >= 0.0 {
      ChargeWaiting(s.core, k, c.elapsed);
    }
  }

  lemma {:induction false} IdlerSpends(s: Loop, k: nat, c: Choice)
    requires Shape(s) && k < |s.threads|
    requires !s.threads[k].Body? && !s.threads[k].Client? && !s.threads[k].Look? && !s.threads[k].Charging?
    ensures Spends(s, FairLoop.Step(s, k, c), k)
  {
    assert FairLoop.Step(s, k, c).core == s.core;
  }

  lemma {:induction false} StepSpends(s: Loop, k: nat, c: Choice)
    requires Shape(s) && k < |s.threads| && NoNewSubmission(s, k, c)
    ensures Spends(s, FairLoop.Step(s, k, c), k)
  {
    if s.threads[k].Body? || s.threads[k].Client? {
      SubmitterSpends(s, k, c);
    } else if s.threads[k].Look? || s.threads[k].Charging? {
      TakerSpends(s, k, c);
    } else {
      IdlerSpends(s, k, c);
    }
  }

  /** Every ring is paid out of the budget, and nothing else changes it. */
  lemma {:induction false} BudgetPaysRings(s: Loop, k: nat, c: Choice)
    requires Shape(s) && k < |s.threads| && NoNewSubmission(s, k, c)
    ensures s.gen <= FairLoop.Step(s, k, c).gen
    ensures Budget(FairLoop.Step(s, k, c)) == Budget(s) - (FairLoop.Step(s, k, c).gen - s.gen)
  {
    var s' := FairLoop.Step(s, k, c);
    StepKeepsOthers(s, k, c);
    StepSpends(s, k, c);
    SumUpdate(ThreadRings(s.threads), k, Rings(s'.threads[k]));
    assert ThreadRings(s'.threads) == ThreadRings(s.threads)[k := Rings(s'.threads[k])];
  }

  lemma {:induction false} BudgetIsNat(s: Loop)
    ensures Budget(s) >= 0
  {
    SumNonNegative(ThreadRings(s.threads));
    SumNonNegative(Lengths(s.core.classes));
  }

  // How far a thread is from rest, as long as the doorbell does not ring again

  const ROUND := 7

  /** A worker with an old snapshot may have to go round once more. */
  function Stale(g: nat, gen: nat): nat
  {
    if g < gen then ROUND + 1 else 0
  }

  function CallFar(sub: Submitter): nat
  {
    match sub
    case Quiet => 0
    case Adding => 4
    case Inserting(_) => 3
    case Ringing => 2
    case Waking => 1
  }

  /** A bound on the steps a thread can take before the next ring. */
  function Far(pc: Thread, gen: nat): nat
  {
    match pc
    case Top => ROUND
    case Look(g) => Stale(g, gen) + 6
    case Body(_, sub) => 2 + CallFar(sub)
    case BodyRinging => 1
    case BodyWaking => ROUND + 2
    case Charging => ROUND + 1
    case CheckFlag(g) => Stale(g, gen) + 3
    case CheckPending(g) => Stale(g, gen) + 2
    case Waiting(g) => Stale(g, gen) + 1
    case Asleep(g) => Stale(g, gen)
    case Exited => 0
    case Client(sub) => CallFar(sub)
    case Stopper(phase) => if phase.Open? then 3 else if phase.FlagRinging? then 2 else if phase.FlagWaking? then 1 else 0
  }

  function Fars(s: Loop): seq<int>
  {
    seq(|s.threads|, k requires 0 <= k < |s.threads| => Far(s.threads[k], s.gen))
  }

  predicate SnapshotOk(pc: Thread, gen: nat)
  {
    pc.Look? || SawNothing(pc) ==> pc.gen <= gen
  }

  lemma {:induction false} SubmitterNears(s: Loop, k: nat, c: Choice)
    requires Shape(s) && k < |s.threads| && (s.threads[k].Body? || s.threads[k].Client?) && NoNewSubmission(s, k, c)
    ensures Far(FairLoop.Step(s, k, c).threads[k], s.gen) < Far(s.threads[k], s.gen) || FairLoop.Step(s, k, c).gen > s.gen
  {
  }

  lemma {:induction false} OtherNears(s: Loop, k: nat, c: Choice)
    requires Shape(s) && k < |s.threads| && !s.threads[k].Body? && !s.threads[k].Client? && SnapshotOk(s.threads[k], s.gen)
    requires FairLoop.Step(s, k, c) != s
    ensures Far(FairLoop.Step(s, k, c).threads[k], s.gen) < Far(s.threads[k], s.gen) || FairLoop.Step(s, k, c).gen > s.gen
  {
  }

  /** Only a sleeper with an old snapshot is ever woken. */
  lemma {:induction false} WokenNears(s: Loop, k: nat, c: Choice, j: nat)
    requires Shape(s) && k < |s.threads| && j < |s.threads| && j != k && SnapshotOk(s.threads[j], s.gen)
    ensures Far(FairLoop.Step(s, k, c).threads[j], s.gen) <= Far(s.threads[j], s.gen)
  {
    StepWakesOld(s, k, c, j);
  }

  lemma {:induction false} StepWakesOld(s: Loop, k: nat, c: Choice, j: nat)
    requires Shape(s) && k < |s.threads| && j < |s.threads| && j != k
    ensures var pc, pc' := s.threads[j], FairLoop.Step(s, k, c).threads[j];
      pc' == pc || (pc.Asleep? && pc.gen != s.gen && pc' == Top)
  {
    if !WakeDue(s.threads[k]) { WakesNobody(s, k, c); }
  }

  lemma {:induction false} WakesNobody(s: Loop, k: nat, c: Choice)
    requires Shape(s) && k < |s.threads| && !WakeDue(s.threads[k])
    ensures FairLoop.Step(s, k, c).threads == s.threads[k := FairLoop.Step(s, k, c).threads[k]]
  {
  }

  /** A step that changes anything without ringing brings its thread nearer to rest, and nobody further. */
  lemma {:induction false} StepNears(s: Loop, k: nat, c: Choice)
    requires Inv(s) && k < |s.threads| && NoNewSubmission(s, k, c)
    requires FairLoop.Step(s, k, c) != s && FairLoop.Step(s, k, c).gen == s.gen
    ensures Sum(Fars(FairLoop.Step(s, k, c))) < Sum(Fars(s))
  {
    var s', f := FairLoop.Step(s, k, c), Fars(s);
    var f' := Fars(s');
    assert BellOk(s, s.threads[k]);
    if s.threads[k].Body? || s.threads[k].Client? {
      SubmitterNears(s, k, c);
    } else {
      OtherNears(s, k, c);
    }
    forall j | 0 <= j < |f| && j != k ensures f'[j] <= f[j] {
      assert BellOk(s, s.threads[j]);
      WokenNears(s, k, c, j);
    }
    SumDrops(f, f', k, 1);
  }

  // The rank

  const FARTHEST := 2 * ROUND + 8

  lemma {:induction false} FarsBound(s: Loop)
    ensures 0 <= Sum(Fars(s)) <= FARTHEST * |s.threads|
  {
    SumBounds(Fars(s), 0, FARTHEST);
  }

  function Rank(s: Loop): (r: nat)
  {
    BudgetIsNat(s);
    FarsBound(s);
    TwoLevel(Budget(s), FARTHEST * |s.threads| + 1, Sum(Fars(s)))
  }

  lemma {:induction false} RingLowersRank(s: Loop, s': Loop)
    requires |s'.threads| == |s.threads| && Budget(s') < Budget(s)
    ensures Rank(s') < Rank(s)
  {
    FarsBound(s);
    FarsBound(s');
    BudgetIsNat(s');
    TwoLevelDrops(Budget(s), Budget(s'), FARTHEST * |s.threads| + 1, Sum(Fars(s)), Sum(Fars(s')));
  }

  lemma {:induction false} NearLowersRank(s: Loop, s': Loop)
    requires |s'.threads| == |s.threads| && Budget(s') == Budget(s) && Sum(Fars(s')) < Sum(Fars(s))
    ensures Rank(s') < Rank(s)
  {
    FarsBound(s');
    BudgetIsNat(s);
    LowDrops(Budget(s), FARTHEST * |s.threads| + 1, Sum(Fars(s)), Sum(Fars(s')));
  }

  /** Ranking: every effective step of a scheduler in which no new submission begins lowers the rank. */
  lemma {:induction false} StepLowersRank(s: Loop, k: nat, c: Choice)
    requires Inv(s) && NoNewSubmission(s, k, c) && FairLoop.Step(s, k, c) != s
    ensures Rank(FairLoop.Step(s, k, c)) < Rank(s)
  {
    BudgetPaysRings(s, k, c);
    if FairLoop.Step(s, k, c).gen == s.gen {
      StepNears(s, k, c);
      NearLowersRank(s, FairLoop.Step(s, k, c));
    } else {
      RingLowersRank(s, FairLoop.Step(s, k, c));
    }
  }

  // A scheduler at rest

  /** Nobody can change anything but by a new submission. */
  predicate Stuck(s: Loop)
    requires Shape(s)
  {
    forall k :: 0 <= k < |s.threads| && s.threads[k] != Client(Quiet) ==> FairLoop.Step(s, k, ALONE) == s
  }

  predicate Resting(pc: Thread)
  {
    pc.Asleep? || pc.Exited? || pc == Client(Quiet) || pc == Stopper(Joining)
  }

  lemma {:induction false} OthersMove(s: Loop, k: nat)
    requires Shape(s) && k < |s.threads| && !Resting(s.threads[k])
    requires s.threads[k] == Stopper(Open) ==> ClientsQuiet(s)
    ensures FairLoop.Step(s, k, ALONE).threads[k] != s.threads[k]
  {
    assert IsWorker(s.threads[k]) <==> k < |s.core.running|;
  }

  lemma {:induction false} StuckRests(s: Loop)
    requires Inv(s) && Stuck(s)
    ensures forall k :: 0 <= k < |s.threads| ==> Resting(s.threads[k])
  {
    forall k | 0 <= k < |s.threads| && s.threads[k].Client? ensures s.threads[k].sub.Quiet? {
      if !s.threads[k].sub.Quiet? { OthersMove(s, k); }
    }
    forall k | 0 <= k < |s.threads| ensures Resting(s.threads[k]) {
      if !Resting(s.threads[k]) { OthersMove(s, k); }
    }
  }

  lemma {:induction false} NothingReady(core: Fair, x: Job)
    requires Agree(core) && core.ready == []
    ensures Queued(core, x) == 0
  {
    forall id | 0 <= id < |core.classes| ensures Queues(core.classes, x)[id] == 0 {
      assert ClassOk(core.classes[id], Mentions(core.ready, id));
    }
    SumZero(Queues(core.classes, x));
  }

  lemma {:induction false} RestHoldsNothing(s: Loop, x: Job)
    requires Counted(s) && Queued(s.core, x) == 0 && forall k :: 0 <= k < |s.threads| ==> Resting(s.threads[k])
    ensures s.finished[x] == One(x < s.submitted)
  {
    assert Placed(s, x);
    SumZero(Hands(s.threads, x));
  }

  /** A worker at rest, with nothing being announced, has left nothing queued. */
  lemma {:induction false} RestLeftNothing(s: Loop, w: nat, x: Job)
    requires Inv(s) && w < |s.threads| && (s.threads[w].Asleep? || s.threads[w].Exited?)
    requires !SomeNewsRingDue(s) && !SomeNewsWakeDue(s)
    ensures Queued(s.core, x) == 0
  {
    assert BellOk(s, s.threads[w]);
    if s.threads[w].Exited? { PendingZero(s); } else { NothingReady(s.core, x); }
  }

  /**
   No deadlock: a scheduler with at least one worker in which nobody can move has finished every job, once, and
   has none queued; its workers sleep or have left. If anybody has called shutdown, the call has come to
   its joins and the workers have all left.
   */
  lemma {:induction false} StuckIsDone(s: Loop)
    requires Inv(s) && Stuck(s) && |s.core.running| > 0
    ensures s.finished == Tickets(s.submitted) && s.pending == 0 && forall x: Job :: Queued(s.core, x) == 0
    ensures forall w :: 0 <= w < |s.core.running| ==>
        w < |s.threads| && (s.threads[w].Asleep? || s.threads[w].Exited?) && (s.shutdown ==> s.threads[w].Exited?)
    ensures forall k :: 0 <= k < |s.threads| && s.threads[k].Stopper? ==> s.threads[k] == Stopper(Joining) && s.shutdown
  {
    StuckRests(s);
    assert !SomeNewsRingDue(s) && !SomeNewsWakeDue(s) && !SomeRingDue(s) && !SomeWakeDue(s);
    assert Resting(s.threads[0]) && IsWorker(s.threads[0]);
    forall x: Job ensures Queued(s.core, x) == 0 && s.finished[x] == One(x < s.submitted) {
      RestLeftNothing(s, 0, x);
      RestHoldsNothing(s, x);
    }
    TicketsOnce(s.submitted);
    assert s.finished == Tickets(s.submitted);
    forall w | 0 <= w < |s.core.running|
      ensures (s.threads[w].Asleep? || s.threads[w].Exited?) && (s.shutdown ==> s.threads[w].Exited?)
    {
      assert Resting(s.threads[w]) && IsWorker(s.threads[w]) && BellOk(s, s.threads[w]);
    }
  }

  ghost predicate NoneSubmits(s: Loop, schedule: seq<(nat, Choice)>)
    requires Inv(s)
    decreases |schedule|
  {
    schedule == [] ||
    (var (k, c) := schedule[0];
     NoNewSubmission(s, k, c) && (StepInv(s, k, c); NoneSubmits(FairLoop.Step(s, k, c), schedule[1..])))
  }

  ghost function Effective(s: Loop, schedule: seq<(nat, Choice)>): nat
    requires Inv(s)
    decreases |schedule|
  {
    if schedule == [] then 0
    else
      var (k, c) := schedule[0];
      StepInv(s, k, c);
      (if FairLoop.Step(s, k, c) == s then 0 else 1) + Effective(FairLoop.Step(s, k, c), schedule[1..])
  }

  /** No livelock: whatever the schedule, without new submissions at most `Rank(s)` of its steps change anything. */
  lemma {:induction false} EffectiveStepsBounded(s: Loop, schedule: seq<(nat, Choice)>)
    requires Inv(s) && NoneSubmits(s, schedule)
    ensures Effective(s, schedule) + Rank(Run(s, schedule)) <= Rank(s)
    decreases |schedule|
  {
    if schedule != [] {
      var (k, c) := schedule[0];
      StepInv(s, k, c);
      if FairLoop.Step(s, k, c) != s { StepLowersRank(s, k, c); }
      EffectiveStepsBounded(FairLoop.Step(s, k, c), schedule[1..]);
    }
  }

  predicate SameKinds(s: Loop, s': Loop)
  {
    && |s'.threads| == |s.threads| && |s'.core.running| == |s.core.running|
    && (forall j :: 0 <= j < |s.threads| ==> s'.threads[j].Stopper? == s.threads[j].Stopper?)
    && (s.shutdown ==> s'.shutdown)
  }

  lemma {:induction false} KindsStay(s: Loop, k: nat, c: Choice)
    requires Shape(s)
    ensures SameKinds(s, FairLoop.Step(s, k, c))
  {
    if k < |s.threads| {
      StepKeepsOthers(s, k, c);
      StopperSteps(s, k, c);
      StepJobs(s, k, c);
    }
  }

  /** The schedule brings the scheduler to rest without new submissions. */
  ghost predicate Settles(s: Loop, schedule: seq<(nat, Choice)>)
    requires Inv(s)
  {
    NoneSubmits(s, schedule) && Stuck(Run(s, schedule)) && SameKinds(s, Run(s, schedule))
  }

  lemma {:induction false} SettlesAtOnce(s: Loop)
    requires Inv(s) && Stuck(s)
    ensures Settles(s, [])
  {
  }

  lemma {:induction false} ScheduleCons(s: Loop, k: nat, c: Choice, rest: seq<(nat, Choice)>)
    requires Inv(s) && Inv(FairLoop.Step(s, k, c)) && NoNewSubmission(s, k, c) && NoneSubmits(FairLoop.Step(s, k, c), rest)
    ensures NoneSubmits(s, [(k, c)] + rest) && Run(s, [(k, c)] + rest) == Run(FairLoop.Step(s, k, c), rest)
  {
    assert ([(k, c)] + rest)[1..] == rest;
  }

  lemma {:induction false} SettlesLater(s: Loop, k: nat, c: Choice, rest: seq<(nat, Choice)>)
    requires Inv(s) && Inv(FairLoop.Step(s, k, c)) && NoNewSubmission(s, k, c) && Settles(FairLoop.Step(s, k, c), rest)
    ensures Settles(s, [(k, c)] + rest)
  {
    ScheduleCons(s, k, c, rest);
    KindsStay(s, k, c);
  }

  lemma {:induction false} SomeoneMoves(s: Loop) returns (k: nat, s1: Loop)
    requires Inv(s) && !Stuck(s)
    ensures NoNewSubmission(s, k, ALONE) && s1 == FairLoop.Step(s, k, ALONE) && Inv(s1) && Rank(s1) < Rank(s)
  {
    k :| 0 <= k < |s.threads| && s.threads[k] != Client(Quiet) && FairLoop.Step(s, k, ALONE) != s;
    StepInv(s, k, ALONE);
    StepLowersRank(s, k, ALONE);
    s1 := FairLoop.Step(s, k, ALONE);
  }

  lemma {:induction false} ComesToRest(s: Loop) returns (schedule: seq<(nat, Choice)>)
    requires Inv(s)
    ensures Settles(s, schedule) && |schedule| <= Rank(s)
    decreases Rank(s)
  {
    if Stuck(s) {
      SettlesAtOnce(s);
      schedule := [];
    } else {
      var k, s1 := SomeoneMoves(s);
      var rest := ComesToRest(s1);
      SettlesLater(s, k, ALONE, rest);
      schedule := [(k, ALONE)] + rest;
    }
  }

  /**
   Shutdown completes: from every state of a scheduler that somebody shuts down there is a way on, of at most
   `Rank(s)` steps and without new submissions, to a state in which every worker has left its loop, every
   call of shutdown is at its joins, and every job ever submitted has finished exactly once.
   */
  lemma {:induction false} ShutdownCompletes(s: Loop, k: nat) returns (schedule: seq<(nat, Choice)>)
    requires Inv(s) && k < |s.threads| && s.threads[k].Stopper? && |s.core.running| > 0
    ensures NoneSubmits(s, schedule) && |schedule| <= Rank(s)
    ensures var t := Run(s, schedule);
      && |t.core.running| == |s.core.running| && t.finished == Tickets(t.submitted)
      && (forall w :: 0 <= w < |t.core.running| ==> w < |t.threads| && t.threads[w].Exited?)
      && (forall j :: 0 <= j < |t.threads| && t.threads[j].Stopper? ==> t.threads[j] == Stopper(Joining))
  {
    schedule := ComesToRest(s);
    var t := Run(s, schedule);
    StuckIsDone(t);
    assert t.threads[k].Stopper?;
  }
}
