/** Work conservation, wakeups and draining of the fair scheduler's threads. */
module FairLoopProof {
  import opened Doorbell
  import opened Options
  import opened Sums
  import opened FairState
  import opened FairAgreement
  import FairOrder
  import opened FairLoop

  /** A step of thread `k` can change another thread only by waking it. */
  predicate OthersKept(s: Loop, s': Loop, k: nat)
  {
    && |s'.threads| == |s.threads|
    && forall j :: 0 <= j < |s.threads| && j != k ==>
         s'.threads[j] == s.threads[j] || (s.threads[j].Asleep? && s'.threads[j] == Top)
  }

  lemma {:induction false} WakeKeepsOthers(s: Loop, k: nat, pc: Thread)
    requires k < |s.threads|
    ensures OthersKept(s, s.(threads := WakeAll(s.threads, s.gen)[k := pc]), k)
  {
  }

  lemma {:induction false} StepKeepsOthers(s: Loop, k: nat, c: Choice)
    requires Shape(s) && k < |s.threads|
    ensures OthersKept(s, FairLoop.Step(s, k, c), k)
  {
    var s', pc := FairLoop.Step(s, k, c), s.threads[k];
    if WakeDue(pc) {
      WakeKeepsOthers(s, k, s'.threads[k]);
    } else {
      assert s'.threads == s.threads[k := s'.threads[k]];
    }
  }

  lemma {:induction false} StepKeepsKind(s: Loop, k: nat, c: Choice)
    requires Shape(s) && k < |s.threads|
    ensures IsWorker(FairLoop.Step(s, k, c).threads[k]) == IsWorker(s.threads[k])
  {
  }

  lemma {:induction false} StepCore(s: Loop, k: nat, c: Choice)
    requires Shape(s)
    ensures FairLoop.Step(s, k, c).core == match CoreMove(s, k, c) case Some(m) => FairState.Step(s.core, m) case None => s.core
  {
    if k < |s.threads| {
      assert IsWorker(s.threads[k]) <==> k < |s.core.running|;
    }
  }

  predicate JobsKept(s: Loop, s': Loop, k: nat)
    requires k < |s'.threads|
  {
    && |s'.core.running| == |s.core.running|
    && (k < |s.core.running| ==> (HasJob(s'.threads[k]) <==> s'.core.running[k].Some?))
    && (forall j :: 0 <= j < |s.core.running| && j != k ==> s'.core.running[j] == s.core.running[j])
  }

  lemma {:induction false} InserterMoves(s: Loop, k: nat, c: Choice)
    requires Shape(s) && k < |s.threads| && (s.threads[k].Body? || s.threads[k].Client?) && s.threads[k].sub.Inserting?
    ensures var pc := s.threads[k];
      FairLoop.Step(s, k, c) == Move1(s.(core := Submit(s.core, pc.sub.job, c.className, c.weight)), k,
                                      if pc.Body? then Body(pc.job, Ringing) else Client(Ringing))
  {
  }

  lemma {:induction false} SubmitKeepsRunning(s: Fair, job: Job, className: string, weight: real)
    requires Agree(s)
    ensures Submit(s, job, className, weight).running == s.running
  {
    SubmitAgrees(s, job, className, weight);
  }

  lemma {:induction false} SubmitterJobs(s: Loop, k: nat, c: Choice)
    requires Shape(s) && k < |s.threads| && (s.threads[k].Body? || s.threads[k].Client?)
    ensures JobsKept(s, FairLoop.Step(s, k, c), k)
  {
    assert IsWorker(s.threads[k]) <==> k < |s.core.running|;
    if s.threads[k].sub.Inserting? {
      InserterMoves(s, k, c);
      SubmitKeepsRunning(s.core, s.threads[k].sub.job, c.className, c.weight);
    } else {
      var s' := FairLoop.Step(s, k, c);
      assert s'.core == s.core && HasJob(s'.threads[k]) == HasJob(s.threads[k]);
    }
  }

  /** A worker holds a job exactly while the core counts it as running one. */
  lemma {:induction false} StepJobs(s: Loop, k: nat, c: Choice)
    requires Shape(s) && k < |s.threads|
    ensures JobsKept(s, FairLoop.Step(s, k, c), k)
  {
    if s.threads[k].Body? || s.threads[k].Client? {
      SubmitterJobs(s, k, c);
    } else {
      assert IsWorker(s.threads[k]) <==> k < |s.core.running|;
    }
  }

  /**
   The threads only ever move the core by its own moves, so every bound proved of the core's runs
   holds of the running scheduler.
   */
  lemma {:induction false} StepMovesCore(s: Loop, k: nat, c: Choice)
    requires Shape(s)
    ensures FairLoop.Step(s, k, c).core == match CoreMove(s, k, c) case Some(m) => FairState.Step(s.core, m) case None => s.core
    ensures Shape(FairLoop.Step(s, k, c))
  {
    var s' := FairLoop.Step(s, k, c);
    StepCore(s, k, c);
    if k < |s.threads| {
      StepKeepsOthers(s, k, c);
      StepKeepsKind(s, k, c);
      StepJobs(s, k, c);
      match CoreMove(s, k, c) {
        case Some(m) => StepAgrees(s.core, m);
        case None =>
      }
      forall j | 0 <= j < |s.threads| ensures IsWorker(s'.threads[j]) <==> j < |s'.core.running| {
        assert IsWorker(s.threads[j]) <==> j < |s.core.running|;
      }
      forall j | 0 <= j < |s.core.running| ensures HasJob(s'.threads[j]) <==> s'.core.running[j].Some? {
        assert HasJob(s.threads[j]) <==> s.core.running[j].Some?;
      }
    }
  }

  // Every job is somewhere

  function Carried(sub: Submitter, x: Job): nat
  {
    One(sub.Inserting? && sub.job == x)
  }

  /** How often a thread holds job `x`: running it, or having counted but not yet enqueued it. */
  function Held(pc: Thread, x: Job): nat
  {
    match pc
    case Body(job, sub) => One(job == x) + Carried(sub, x)
    case Client(sub) => Carried(sub, x)
    case _ => 0
  }

  /** The thread holds no job at all. */
  predicate EmptyHanded(pc: Thread)
  {
    !pc.Body? && (pc.Client? ==> !pc.sub.Inserting?)
  }

  function Hands(threads: seq<Thread>, x: Job): seq<int>
  {
    seq(|threads|, k requires 0 <= k < |threads| => Held(threads[k], x))
  }

  function Queues(classes: seq<Class>, x: Job): seq<int>
  {
    seq(|classes|, i requires 0 <= i < |classes| => multiset(classes[i].runnable)[x])
  }

  function Queued(core: Fair, x: Job): int
  {
    Sum(Queues(core.classes, x))
  }

  /** Every job counted so far is held, queued or finished, in one place, once. */
  predicate Placed(s: Loop, x: Job)
  {
    Sum(Hands(s.threads, x)) + Queued(s.core, x) + s.finished[x] == One(x < s.submitted)
  }

  /** `pending` counts the jobs that are not finished. */
  ghost predicate Counted(s: Loop)
  {
    s.pending + |s.finished| == s.submitted && forall x: Job :: Placed(s, x)
  }

  lemma {:induction false} QueueUpdate(core: Fair, core': Fair, id: ClassId, x: Job)
    requires id < |core.classes| == |core'.classes| && core'.classes == core.classes[id := core'.classes[id]]
    ensures Queued(core', x) == Queued(core, x) - multiset(core.classes[id].runnable)[x] + multiset(core'.classes[id].runnable)[x]
  {
    SumUpdate(Queues(core.classes, x), id, multiset(core'.classes[id].runnable)[x]);
    assert Queues(core'.classes, x) == Queues(core.classes, x)[id := multiset(core'.classes[id].runnable)[x]];
  }

  lemma {:induction false} CreateQueued(core: Fair, name: string, weight: real, x: Job)
    requires FindOrCreate(core, name, weight).Ok?
    ensures Queued(FindOrCreate(core, name, weight).value.0, x) == Queued(core, x)
  {
    var core' := FindOrCreate(core, name, weight).value.0;
    if core' != core {
      SumSnoc(Queues(core.classes, x), 0);
      assert Queues(core'.classes, x) == Queues(core.classes, x) + [0];
    }
  }

  lemma {:induction false} SubmitQueued(core: Fair, job: Job, className: string, weight: real, x: Job)
    requires Agree(core)
    ensures Queued(Submit(core, job, className, weight), x) == Queued(core, x) + One(job == x)
  {
    var name, wt := if className == "" then DEFAULT_CLASS else className, if weight > 0.0 then weight else 1.0;
    CreateAgrees(core, name, wt);
    CreateQueued(core, name, wt, x);
    var p := FindOrCreate(core, name, wt).value;
    QueueUpdate(p.0, Submit(core, job, className, weight), p.1, x);
  }

  lemma {:induction false} DispatchQueued(core: Fair, w: nat, x: Job)
    requires Agree(core) && core.ready != [] && w < |core.running|
    ensures core.classes[core.ready[0].id].runnable != []
    ensures Queued(core, x) == Queued(Dispatch(core, w), x) + One(core.classes[core.ready[0].id].runnable[0] == x)
  {
    var id := core.ready[0].id;
    MentionedHasWork(core, core.ready[0]);
    var q := core.classes[id].runnable;
    assert q == [q[0]] + q[1..];
    QueueUpdate(core, Dispatch(core, w), id, x);
  }

  lemma {:induction false} ChargeQueued(core: Fair, w: nat, elapsed: real, x: Job)
    requires Agree(core) && w < |core.running| && core.running[w].Some?
    ensures Queued(Charge(core, w, elapsed), x) == Queued(core, x)
  {
    QueueUpdate(core, Charge(core, w, elapsed), core.running[w].value, x);
  }

  /** A step moves job `x` from place to place, and creates it only by counting it. */
  predicate Conserves(s: Loop, s': Loop, k: nat, x: Job)
    requires k < |s.threads| == |s'.threads|
  {
    && Held(s'.threads[k], x) + Queued(s'.core, x) + s'.finished[x] - One(x < s'.submitted) ==
       Held(s.threads[k], x) + Queued(s.core, x) + s.finished[x] - One(x < s.submitted)
    && s'.pending + |s'.finished| - s'.submitted == s.pending + |s.finished| - s.submitted
  }

  lemma {:induction false} FinisherConserves(s: Loop, k: nat, c: Choice, x: Job)
    requires Shape(s) && k < |s.threads| && s.threads[k].Body? && s.threads[k].sub.Quiet? && !c.submits
    ensures Conserves(s, FairLoop.Step(s, k, c), k, x)
  {
    var s', job := FairLoop.Step(s, k, c), s.threads[k].job;
    assert s'.core == s.core && s'.threads[k] == BodyRinging;
    assert s'.finished == s.finished + multiset{job};
  }

  lemma {:induction false} BodyConserves(s: Loop, k: nat, c: Choice, x: Job)
    requires Shape(s) && k < |s.threads| && s.threads[k].Body? && !s.threads[k].sub.Inserting?
    ensures Conserves(s, FairLoop.Step(s, k, c), k, x)
  {
    var s', sub := FairLoop.Step(s, k, c), s.threads[k].sub;
    if sub.Quiet? && !c.submits {
      FinisherConserves(s, k, c, x);
    } else {
      assert s'.core == s.core && s'.finished == s.finished;
    }
  }

  lemma {:induction false} ClientConserves(s: Loop, k: nat, c: Choice, x: Job)
    requires Shape(s) && k < |s.threads| && s.threads[k].Client? && !s.threads[k].sub.Inserting?
    ensures Conserves(s, FairLoop.Step(s, k, c), k, x)
  {
    var s' := FairLoop.Step(s, k, c);
    assert s'.core == s.core;
  }

  lemma {:induction false} InserterConserves(s: Loop, k: nat, c: Choice, x: Job)
    requires Shape(s) && k < |s.threads| && (s.threads[k].Body? || s.threads[k].Client?) && s.threads[k].sub.Inserting?
    ensures Conserves(s, FairLoop.Step(s, k, c), k, x)
  {
    InserterMoves(s, k, c);
    SubmitQueued(s.core, s.threads[k].sub.job, c.className, c.weight, x);
  }

  lemma {:induction false} TakerConserves(s: Loop, k: nat, c: Choice, x: Job)
    requires Shape(s) && k < |s.threads| && (s.threads[k].Look? || s.threads[k].Charging?)
    ensures Conserves(s, FairLoop.Step(s, k, c), k, x)
  {
    assert IsWorker(s.threads[k]) <==> k < |s.core.running|;
    if s.threads[k].Look? && s.core.ready != [] {
      DispatchQueued(s.core, k, x);
    } else if s.threads[k].Charging? && c.elapsed >= 0.0 {
      ChargeQueued(s.core, k, c.elapsed, x);
    }
  }

  lemma {:induction false} IdlerConserves(s: Loop, k: nat, c: Choice, x: Job)
    requires Shape(s) && k < |s.threads|
    requires !s.threads[k].Body? && !s.threads[k].Client? && !s.threads[k].Look? && !s.threads[k].Charging?
    ensures Conserves(s, FairLoop.Step(s, k, c), k, x)
  {
    var s' := FairLoop.Step(s, k, c);
    assert s'.core == s.core && s'.finished == s.finished && s'.submitted == s.submitted && s'.pending == s.pending;
    assert Held(s'.threads[k], x) == Held(s.threads[k], x) == 0;
  }

  lemma {:induction false} StepConserves(s: Loop, k: nat, c: Choice, x: Job)
    requires Shape(s) && k < |s.threads|
    ensures Conserves(s, FairLoop.Step(s, k, c), k, x)
  {
    var pc := s.threads[k];
    if pc.Body? || pc.Client? {
      if pc.sub.Inserting? {
        InserterConserves(s, k, c, x);
      } else if pc.Body? {
        BodyConserves(s, k, c, x);
      } else {
        ClientConserves(s, k, c, x);
      }
    } else if pc.Look? || pc.Charging? {
      TakerConserves(s, k, c, x);
    } else {
      IdlerConserves(s, k, c, x);
    }
  }

  lemma {:induction false} StepPlaced(s: Loop, s': Loop, k: nat, x: Job)
    requires k < |s.threads| && OthersKept(s, s', k) && Conserves(s, s', k, x) && Placed(s, x)
    ensures Placed(s', x)
  {
    SumUpdate(Hands(s.threads, x), k, Held(s'.threads[k], x));
    assert Hands(s'.threads, x) == Hands(s.threads, x)[k := Held(s'.threads[k], x)];
  }

  lemma {:induction false} StepCounted(s: Loop, k: nat, c: Choice)
    requires Shape(s) && Counted(s) && k < |s.threads|
    ensures Counted(FairLoop.Step(s, k, c))
  {
    var s' := FairLoop.Step(s, k, c);
    StepKeepsOthers(s, k, c);
    forall x: Job ensures Conserves(s, s', k, x) && Placed(s', x) {
      StepConserves(s, k, c, x);
      assert Placed(s, x);
      StepPlaced(s, s', k, x);
    }
    assert Conserves(s, s', k, 0);
  }

  lemma {:induction false} PlacedParts(s: Loop, x: Job)
    requires Placed(s, x)
    ensures 0 <= Queued(s.core, x) && 0 <= s.finished[x] <= One(x < s.submitted)
    ensures s.finished[x] == One(x < s.submitted) ==>
        Queued(s.core, x) == 0 && forall k :: 0 <= k < |s.threads| ==> Held(s.threads[k], x) == 0
  {
    SumNonNegative(Hands(s.threads, x));
    SumNonNegative(Queues(s.core.classes, x));
    forall k | 0 <= k < |s.threads| ensures Held(s.threads[k], x) <= Sum(Hands(s.threads, x)) {
      SumAtLeast(Hands(s.threads, x), k);
    }
  }

  /** `pending` is never negative, and zero only when every job counted has finished, once. */
  lemma {:induction false} PendingZero(s: Loop)
    requires Counted(s)
    ensures s.pending >= 0
    ensures s.pending == 0 ==> s.finished == Tickets(s.submitted)
    ensures s.pending == 0 ==> forall x: Job :: Queued(s.core, x) == 0
    ensures s.pending == 0 ==> forall k :: 0 <= k < |s.threads| ==> EmptyHanded(s.threads[k])
  {
    forall x: Job ensures s.finished[x] <= One(x < s.submitted) {
      assert Placed(s, x);
      PlacedParts(s, x);
    }
    AllTickets(s.finished, s.submitted);
    if s.pending == 0 {
      TicketsOnce(s.submitted);
      forall x: Job ensures Queued(s.core, x) == 0 {
        assert Placed(s, x);
        PlacedParts(s, x);
      }
      forall k | 0 <= k < |s.threads| ensures EmptyHanded(s.threads[k]) {
        var pc := s.threads[k];
        var x := if pc.Body? then pc.job else if pc.Client? && pc.sub.Inserting? then pc.sub.job else 0;
        assert Placed(s, x);
        PlacedParts(s, x);
        assert Held(pc, x) == 0;
      }
    }
  }

  // The doorbell

  /** A submitter that has inserted a job and not yet rung. */
  predicate NewsRingDue(pc: Thread)
  {
    (pc.Body? && pc.sub.Ringing?) || pc == Client(Ringing)
  }

  /** A submitter that has rung and not yet woken the sleepers. */
  predicate NewsWakeDue(pc: Thread)
  {
    (pc.Body? && pc.sub.Waking?) || pc == Client(Waking)
  }

  /** Between a state change and the increment that announces it. */
  predicate RingDue(pc: Thread)
  {
    NewsRingDue(pc) || pc.BodyRinging? || pc == Stopper(FlagRinging)
  }

  /** Between the increment and waking the sleepers. */
  predicate WakeDue(pc: Thread)
  {
    NewsWakeDue(pc) || pc.BodyWaking? || pc == Stopper(FlagWaking)
  }

  predicate SomeNewsRingDue(s: Loop) { Somewhere(s.threads, NewsRingDue) }
  predicate SomeNewsWakeDue(s: Loop) { Somewhere(s.threads, NewsWakeDue) }
  predicate SomeRingDue(s: Loop) { Somewhere(s.threads, RingDue) }
  predicate SomeWakeDue(s: Loop) { Somewhere(s.threads, WakeDue) }

  lemma {:induction false} DuesKept(s: Loop, s': Loop, k: nat)
    requires k < |s.threads| && OthersKept(s, s', k)
    ensures SomeNewsRingDue(s) ==> SomeNewsRingDue(s') || NewsRingDue(s.threads[k])
    ensures SomeNewsWakeDue(s) ==> SomeNewsWakeDue(s') || NewsWakeDue(s.threads[k])
    ensures SomeRingDue(s) ==> SomeRingDue(s') || RingDue(s.threads[k])
    ensures SomeWakeDue(s) ==> SomeWakeDue(s') || WakeDue(s.threads[k])
    ensures NewsRingDue(s'.threads[k]) ==> SomeNewsRingDue(s')
    ensures NewsWakeDue(s'.threads[k]) ==> SomeNewsWakeDue(s')
    ensures RingDue(s'.threads[k]) ==> SomeRingDue(s')
    ensures WakeDue(s'.threads[k]) ==> SomeWakeDue(s')
  {
    SomewhereKept(s.threads, s'.threads, k, NewsRingDue);
    SomewhereKept(s.threads, s'.threads, k, NewsWakeDue);
    SomewhereKept(s.threads, s'.threads, k, RingDue);
    SomewhereKept(s.threads, s'.threads, k, WakeDue);
  }

  /** The worker has seen the ready map empty since it took its snapshot. */
  predicate SawNothing(pc: Thread)
  {
    pc.CheckFlag? || pc.CheckPending? || pc.Waiting? || pc.Asleep?
  }

  /** The state changes that a thread on its way to sleep has missed are announced, or about to be. */
  predicate BellOk(s: Loop, pc: Thread)
  {
    && (pc.Look? || SawNothing(pc) ==> pc.gen <= s.gen)
    && (SawNothing(pc) && s.core.ready != [] ==> pc.gen < s.gen || SomeNewsRingDue(s))
    && (pc.Asleep? && s.core.ready != [] ==> SomeNewsRingDue(s) || SomeNewsWakeDue(s))
    && (pc.CheckPending? ==> s.shutdown)
    && ((pc.Waiting? || pc.Asleep?) && s.shutdown && s.pending == 0 ==> pc.gen < s.gen || SomeRingDue(s))
    && (pc.Asleep? && pc.gen < s.gen ==> SomeWakeDue(s))
    && (pc.Exited? ==> s.shutdown && s.pending == 0)
  }

  /** A shutdown call that has made its first step has set the flag. */
  predicate CallsHaveBegun(s: Loop)
  {
    forall k :: 0 <= k < |s.threads| && s.threads[k].Stopper? && !s.threads[k].phase.Open? ==> s.shutdown
  }

  ghost predicate Inv(s: Loop)
  {
    && Shape(s) && Counted(s) && (s.shutdown ==> ClientsQuiet(s)) && CallsHaveBegun(s)
    && forall k :: 0 <= k < |s.threads| ==> BellOk(s, s.threads[k])
  }

  /** What a step does to the state the doorbell announces, and how it announces it. */
  predicate Announces(s: Loop, s': Loop, k: nat)
    requires k < |s.threads| == |s'.threads|
  {
    && s.gen <= s'.gen
    && (s'.gen > s.gen ==> RingDue(s.threads[k]) && WakeDue(s'.threads[k]))
    && (RingDue(s.threads[k]) ==> s'.gen > s.gen)
    && (WakeDue(s.threads[k]) ==> forall j :: 0 <= j < |s'.threads| && s'.threads[j].Asleep? ==> s'.threads[j].gen == s'.gen)
    && (s.core.ready == [] && s'.core.ready != [] ==> NewsRingDue(s'.threads[k]))
    && (NewsRingDue(s.threads[k]) ==> NewsWakeDue(s'.threads[k]))
    && (!s.shutdown && s'.shutdown ==> RingDue(s'.threads[k]))
    && (s.pending != 0 && s'.pending == 0 ==> RingDue(s'.threads[k]))
    && (s.shutdown ==> s'.shutdown)
    && (s.shutdown && s.pending == 0 ==> s'.pending == 0)
  }

  /** Once shutdown has begun and nothing is pending, nobody can submit. */
  predicate NothingLeft(s: Loop, pc: Thread)
  {
    s.shutdown && s.pending == 0 ==> !pc.Body? && (pc.Client? ==> pc.sub.Quiet?)
  }

  lemma {:induction false} SubmitterAnnounces(s: Loop, k: nat, c: Choice)
    requires Shape(s) && k < |s.threads| && s.pending >= 0 && NothingLeft(s, s.threads[k])
    requires s.threads[k].Body? || s.threads[k].Client?
    ensures Announces(s, FairLoop.Step(s, k, c), k)
  {
  }

  lemma {:induction false} OtherAnnounces(s: Loop, k: nat, c: Choice)
    requires Shape(s) && k < |s.threads| && !s.threads[k].Body? && !s.threads[k].Client?
    ensures Announces(s, FairLoop.Step(s, k, c), k)
  {
  }

  lemma {:induction false} StepAnnounces(s: Loop, k: nat, c: Choice)
    requires Shape(s) && k < |s.threads| && s.pending >= 0 && NothingLeft(s, s.threads[k])
    ensures Announces(s, FairLoop.Step(s, k, c), k)
  {
    if s.threads[k].Body? || s.threads[k].Client? {
      SubmitterAnnounces(s, k, c);
    } else {
      OtherAnnounces(s, k, c);
    }
  }

  lemma {:induction false} StepClients(s: Loop, k: nat, c: Choice)
    requires Shape(s) && (s.shutdown ==> ClientsQuiet(s)) && k < |s.threads|
    ensures FairLoop.Step(s, k, c).shutdown ==> ClientsQuiet(FairLoop.Step(s, k, c))
  {
    StepKeepsOthers(s, k, c);
    if s.shutdown {
      assert s.threads[k].Client? ==> FairLoop.Step(s, k, c) == s;
    }
  }

  lemma {:induction false} StepCalls(s: Loop, k: nat, c: Choice)
    requires Shape(s) && CallsHaveBegun(s) && k < |s.threads|
    ensures CallsHaveBegun(FairLoop.Step(s, k, c))
  {
    StepKeepsOthers(s, k, c);
    StopperSteps(s, k, c);
  }

  lemma {:induction false} StopperSteps(s: Loop, k: nat, c: Choice)
    requires Shape(s) && k < |s.threads|
    ensures var s', pc := FairLoop.Step(s, k, c), FairLoop.Step(s, k, c).threads[k];
      && (pc.Stopper? <==> s.threads[k].Stopper?) && (s.shutdown ==> s'.shutdown)
      && (pc.Stopper? && !pc.phase.Open? ==> s'.shutdown || !s.threads[k].phase.Open?)
  {
  }

  lemma {:induction false} BystanderBell(s: Loop, s': Loop, k: nat, j: nat)
    requires k < |s.threads| && j < |s.threads| && j != k && OthersKept(s, s', k) && Announces(s, s', k)
    requires BellOk(s, s.threads[j])
    ensures BellOk(s', s'.threads[j])
  {
    DuesKept(s, s', k);
  }

  lemma {:induction false} OwnBellIdle(s: Loop, k: nat, c: Choice)
    requires Shape(s) && k < |s.threads| && BellOk(s, s.threads[k]) && SawNothing(s.threads[k])
    ensures BellOk(FairLoop.Step(s, k, c), FairLoop.Step(s, k, c).threads[k])
  {
    var s', pc := FairLoop.Step(s, k, c), s.threads[k];
    assert s' == s.(threads := s.threads[k := s'.threads[k]]);
    if pc.Asleep? {
      assert s'.threads == s.threads;
    } else {
      DuesKept(s, s', k);
    }
  }

  /** A thread that has not found the ready map empty cannot go to sleep or leave, and looks afresh. */
  predicate StaysBusy(s': Loop, pc': Thread)
  {
    !SawNothing(pc') && !pc'.Exited? && (pc'.Look? ==> pc' == Look(s'.gen))
  }

  lemma {:induction false} SubmitterStaysBusy(s: Loop, k: nat, c: Choice)
    requires Shape(s) && k < |s.threads| && (s.threads[k].Body? || s.threads[k].Client?)
    ensures StaysBusy(FairLoop.Step(s, k, c), FairLoop.Step(s, k, c).threads[k])
  {
  }

  lemma {:induction false} BusyMoves(s: Loop, k: nat, c: Choice)
    requires Shape(s) && k < |s.threads| && !SawNothing(s.threads[k]) && !s.threads[k].Exited? && !s.threads[k].Look?
    ensures StaysBusy(FairLoop.Step(s, k, c), FairLoop.Step(s, k, c).threads[k])
  {
    if s.threads[k].Body? || s.threads[k].Client? {
      SubmitterStaysBusy(s, k, c);
    }
  }

  lemma {:induction false} OwnBellBusy(s: Loop, k: nat, c: Choice)
    requires Shape(s) && k < |s.threads| && BellOk(s, s.threads[k]) && !SawNothing(s.threads[k])
    ensures BellOk(FairLoop.Step(s, k, c), FairLoop.Step(s, k, c).threads[k])
  {
    var s', pc := FairLoop.Step(s, k, c), s.threads[k];
    if pc.Exited? {
      assert s' == s;
    } else if pc.Look? {
      assert s'.gen == s.gen;
    } else {
      BusyMoves(s, k, c);
    }
  }

  lemma {:induction false} StepInv(s: Loop, k: nat, c: Choice)
    requires Inv(s)
    ensures Inv(FairLoop.Step(s, k, c))
  {
    var s' := FairLoop.Step(s, k, c);
    StepMovesCore(s, k, c);
    if k < |s.threads| {
      StepKeepsOthers(s, k, c);
      PendingZero(s);
      assert s.pending == 0 ==> EmptyHanded(s.threads[k]);
      StepAnnounces(s, k, c);
      StepCounted(s, k, c);
      StepClients(s, k, c);
      StepCalls(s, k, c);
      assert BellOk(s, s.threads[k]);
      if SawNothing(s.threads[k]) { OwnBellIdle(s, k, c); } else { OwnBellBusy(s, k, c); }
      forall j | 0 <= j < |s'.threads| ensures BellOk(s', s'.threads[j]) {
        if j != k {
          assert BellOk(s, s.threads[j]);
          BystanderBell(s, s', k, j);
        }
      }
    }
  }

  lemma {:induction false} InitialInv(workers: nat, clients: nat, stoppers: nat)
    ensures Inv(FairLoop.Initial(workers, clients, stoppers))
  {
    var s := FairLoop.Initial(workers, clients, stoppers);
    forall x: Job ensures Placed(s, x) {
      SumZero(Hands(s.threads, x));
    }
  }

  /** A schedule says which thread takes each step and what it chooses. */
  ghost function Run(s: Loop, schedule: seq<(nat, Choice)>): Loop
    requires Inv(s)
    ensures Inv(Run(s, schedule))
    decreases |schedule|
  {
    if schedule == [] then s
    else
      StepInv(s, schedule[0].0, schedule[0].1);
      Run(FairLoop.Step(s, schedule[0].0, schedule[0].1), schedule[1..])
  }

  /** The moves of the core that a schedule makes. */
  ghost function CoreMoves(s: Loop, schedule: seq<(nat, Choice)>): seq<Move>
    requires Inv(s)
    decreases |schedule|
  {
    if schedule == [] then []
    else
      var (k, c) := schedule[0];
      StepInv(s, k, c);
      (match CoreMove(s, k, c) case Some(m) => [m] case None => []) + CoreMoves(FairLoop.Step(s, k, c), schedule[1..])
  }

  /**
   Whatever the threads do, the accounting goes through a run of the model, so that the bounds on
   staleness, shares and waiting hold of it.
   */
  lemma {:induction false} ScheduleRunsCore(s: Loop, schedule: seq<(nat, Choice)>)
    requires Inv(s)
    ensures Run(s, schedule).core == FairOrder.Run(s.core, CoreMoves(s, schedule))
    decreases |schedule|
  {
    if schedule != [] {
      var (k, c) := schedule[0];
      var s1 := FairLoop.Step(s, k, c);
      StepInv(s, k, c);
      StepCore(s, k, c);
      ScheduleRunsCore(s1, schedule[1..]);
      var later := CoreMoves(s1, schedule[1..]);
      match CoreMove(s, k, c) {
        case Some(m) => assert ([m] + later)[1..] == later;
        case None => assert [] + later == later;
      }
    }
  }

  /**
   Work conservation: in every reachable state in which no submitter is between its insertion and the end
   of its notification, a sleeping worker means that no class is ready. Workers may be anywhere else:
   running jobs, announcing finished ones, re-entering classes without a notification.
   */
  lemma {:induction false} SleepersMissNoWork(
      workers: nat, clients: nat, stoppers: nat, schedule: seq<(nat, Choice)>, w: nat)
    requires var s := Run((InitialInv(workers, clients, stoppers); FairLoop.Initial(workers, clients, stoppers)), schedule);
      !SomeNewsRingDue(s) && !SomeNewsWakeDue(s) && w < |s.threads| && s.threads[w].Asleep?
    ensures var s := Run((InitialInv(workers, clients, stoppers); FairLoop.Initial(workers, clients, stoppers)), schedule);
      s.core.ready == []
  {
    InitialInv(workers, clients, stoppers);
    var s := Run(FairLoop.Initial(workers, clients, stoppers), schedule);
    assert BellOk(s, s.threads[w]);
  }

  /**
   No lost shutdown: in every reachable state in which no thread is in the middle of announcing a change, a
   sleeping worker means that it is not the case that shutdown has begun and nothing is pending.
   */
  lemma {:induction false} SleepersMissNoShutdown(
      workers: nat, clients: nat, stoppers: nat, schedule: seq<(nat, Choice)>, w: nat)
    requires var s := Run((InitialInv(workers, clients, stoppers); FairLoop.Initial(workers, clients, stoppers)), schedule);
      !SomeRingDue(s) && !SomeWakeDue(s) && w < |s.threads| && s.threads[w].Asleep?
    ensures var s := Run((InitialInv(workers, clients, stoppers); FairLoop.Initial(workers, clients, stoppers)), schedule);
      !(s.shutdown && s.pending == 0)
  {
    InitialInv(workers, clients, stoppers);
    var s := Run(FairLoop.Initial(workers, clients, stoppers), schedule);
    assert BellOk(s, s.threads[w]);
  }

  /** The call sets the flag, and nothing clears it: from the call's first step on, shutdown has begun. */
  lemma {:induction false} CallSetsFlag(
      workers: nat, clients: nat, stoppers: nat, schedule: seq<(nat, Choice)>, k: nat)
    requires var s := Run((InitialInv(workers, clients, stoppers); FairLoop.Initial(workers, clients, stoppers)), schedule);
      k < |s.threads| && s.threads[k].Stopper? && !s.threads[k].phase.Open?
    ensures Run((InitialInv(workers, clients, stoppers); FairLoop.Initial(workers, clients, stoppers)), schedule).shutdown
  {
    InitialInv(workers, clients, stoppers);
  }

  /**
   Shutdown drains: whenever some worker has left its loop, every job ever submitted, by clients or by
   other jobs, has finished exactly once, and no class has work.
   */
  lemma {:induction false} ShutdownDrains(
      workers: nat, clients: nat, stoppers: nat, schedule: seq<(nat, Choice)>, w: nat)
    requires var s := Run((InitialInv(workers, clients, stoppers); FairLoop.Initial(workers, clients, stoppers)), schedule);
      w < |s.threads| && s.threads[w].Exited?
    ensures var s := Run((InitialInv(workers, clients, stoppers); FairLoop.Initial(workers, clients, stoppers)), schedule);
      && s.finished == Tickets(s.submitted)
      && (forall x: Job :: Queued(s.core, x) == 0)
      && (forall k :: 0 <= k < |s.threads| ==> EmptyHanded(s.threads[k]))
  {
    InitialInv(workers, clients, stoppers);
    var s := Run(FairLoop.Initial(workers, clients, stoppers), schedule);
    assert BellOk(s, s.threads[w]);
    PendingZero(s);
  }
}
