/** Where the jobs of the work-stealing pool are: every job counted is in exactly one place. */
module PoolJobs {
  import opened Options
  import opened Sums
  import opened Pool
  import opened PoolProof

  /** How often `x` occurs in a queue. */
  function Count(q: seq<Job>, x: Job): nat
  {
    multiset(q)[x]
  }

  lemma {:induction false} CountEnds(q: seq<Job>, x: Job)
    ensures q != [] ==> Count(q, x) == Count(q[1..], x) + One(q[0] == x)
    ensures q != [] ==> Count(q, x) == Count(q[..|q| - 1], x) + One(q[|q| - 1] == x)
  {
    if q != [] {
      assert q == [q[0]] + q[1..];
      assert q == q[..|q| - 1] + [q[|q| - 1]];
    }
  }

  lemma {:induction false} CountSnoc(q: seq<Job>, job: Job, x: Job)
    ensures Count(q + [job], x) == Count(q, x) + One(job == x)
  {
  }

  /** How often three queues, one of each priority, hold `x` together. */
  function CountIn(queues: seq<seq<Job>>, x: Job): int
    requires |queues| == PRIORITIES
  {
    Count(queues[0], x) + Count(queues[1], x) + Count(queues[2], x)
  }

  lemma {:induction false} CountInUpdate(queues: seq<seq<Job>>, p: nat, q: seq<Job>, x: Job)
    requires |queues| == PRIORITIES && p < PRIORITIES
    ensures CountIn(queues[p := q], x) == CountIn(queues, x) - Count(queues[p], x) + Count(q, x)
  {
  }

  function Carried(sub: Submitter, x: Job): nat
  {
    One(sub.Inserting? && sub.job == x)
  }

  /** How often a thread holds job `x`: about to run it, running it, or having counted but not yet pushed it. */
  function Held(pc: Thread, x: Job): nat
  {
    match pc
    case Pulling(_, first, _) => One(first == x)
    case Found(job, _) => One(job == x)
    case Body(job, sub) => One(job == x) + Carried(sub, x)
    case Client(sub) => Carried(sub, x)
    case _ => 0
  }

  function Hands(threads: seq<Thread>, x: Job): seq<int>
  {
    seq(|threads|, k requires 0 <= k < |threads| => Held(threads[k], x))
  }

  predicate Threes(deques: seq<seq<seq<Job>>>)
  {
    forall w :: 0 <= w < |deques| ==> |deques[w]| == PRIORITIES
  }

  function Locals(deques: seq<seq<seq<Job>>>, x: Job): seq<int>
    requires Threes(deques)
  {
    seq(|deques|, w requires 0 <= w < |deques| && Threes(deques) => CountIn(deques[w], x))
  }

  predicate Placed(s: State, x: Job)
    requires |s.injectors| == PRIORITIES && Threes(s.deques)
  {
    Sum(Hands(s.threads, x)) + Sum(Locals(s.deques, x)) + CountIn(s.injectors, x) + s.finished[x] == One(x < s.submitted)
  }

  /**
   Every job counted is held, in one local deque, in one injector or finished, once; `pending` counts
   those that are not finished: the queued, the unfinished and the ones in mid-submit.
   */
  ghost predicate Counted(s: State)
    requires |s.injectors| == PRIORITIES && Threes(s.deques)
  {
    s.pending + |s.finished| == s.submitted && forall x: Job :: Placed(s, x)
  }

  /** The effect of a step of thread `k` on job `x`, the local deque it touches being worker `w`'s. */
  predicate Conserves(s: State, s': State, k: nat, w: nat, x: Job)
    requires k < |s.threads| == |s'.threads| && |s.injectors| == |s'.injectors| == PRIORITIES
    requires |s'.deques| == |s.deques| && Threes(s.deques)
  {
    && (w < |s.deques| ==> |s'.deques[w]| == PRIORITIES && s'.deques == s.deques[w := s'.deques[w]])
    && (w >= |s.deques| ==> s'.deques == s.deques)
    && Held(s'.threads[k], x) + (if w < |s.deques| then CountIn(s'.deques[w], x) else 0) + CountIn(s'.injectors, x)
       + s'.finished[x] - One(x < s'.submitted) ==
       Held(s.threads[k], x) + (if w < |s.deques| then CountIn(s.deques[w], x) else 0) + CountIn(s.injectors, x)
       + s.finished[x] - One(x < s.submitted)
    && s'.pending + |s'.finished| - s'.submitted == s.pending + |s.finished| - s.submitted
  }

  /** The worker whose deques a step of thread `k` touches. */
  function Touched(s: State, k: nat): nat
    requires k < |s.threads|
  {
    if s.threads[k].Stealing? then s.threads[k].peer else k
  }

  lemma {:induction false} LocalConserves(s: State, k: nat, c: Choice, x: Job)
    requires Shape(s) && k < |s.deques| && s.threads[k].Local?
    ensures Conserves(s, SearchStep(s, k, c), k, k, x)
  {
    var p := s.threads[k].p;
    if p < PRIORITIES && s.deques[k][p] != [] {
      PopConserves(s, k, c, x);
    } else {
      assert s.deques[k := s.deques[k]] == s.deques;
    }
  }

  lemma {:induction false} PopConserves(s: State, k: nat, c: Choice, x: Job)
    requires Shape(s) && k < |s.deques| && s.threads[k].Local? && s.threads[k].p < PRIORITIES
    requires s.deques[k][s.threads[k].p] != []
    ensures Conserves(s, SearchStep(s, k, c), k, k, x)
  {
    var p := s.threads[k].p;
    var q := s.deques[k][p];
    assert SearchStep(s, k, c) == Go(SetDeque(s, k, p, q[..|q| - 1]), k, Found(q[|q| - 1], p));
    CountEnds(q, x);
    CountInUpdate(s.deques[k], p, q[..|q| - 1], x);
  }

  lemma {:induction false} TakeConserves(s: State, k: nat, c: Choice, x: Job)
    requires Shape(s) && k < |s.deques| && s.threads[k].Inject? && s.threads[k].p < PRIORITIES
    requires s.holder[s.threads[k].p].None? && s.injectors[s.threads[k].p] != []
    ensures Conserves(s, SearchStep(s, k, c), k, k, x)
  {
    var p, q := s.threads[k].p, s.injectors[s.threads[k].p];
    assert SearchStep(s, k, c) ==
      Go(s.(injectors := s.injectors[p := q[1..]], holder := s.holder[p := Some(k)]), k, Pulling(p, q[0], 1));
    assert s.deques[k := s.deques[k]] == s.deques;
    CountEnds(q, x);
    CountInUpdate(s.injectors, p, q[1..], x);
  }

  lemma {:induction false} InjectConserves(s: State, k: nat, c: Choice, x: Job)
    requires Shape(s) && k < |s.deques| && s.threads[k].Inject?
    ensures Conserves(s, SearchStep(s, k, c), k, k, x)
  {
    var p := s.threads[k].p;
    if p < PRIORITIES && s.holder[p].None? && s.injectors[p] != [] {
      TakeConserves(s, k, c, x);
    } else {
      assert s.deques[k := s.deques[k]] == s.deques;
    }
  }

  lemma {:induction false} PullConserves(s: State, k: nat, c: Choice, x: Job)
    requires Shape(s) && k < |s.deques| && s.threads[k].Pulling?
    ensures Conserves(s, SearchStep(s, k, c), k, k, x)
  {
    assert PcShape(s.threads[k]);
    var p, own := s.threads[k].p, s.deques[k];
    var q := s.injectors[p];
    if s.threads[k].moved < BATCH_SIZE && q != [] {
      CountEnds(q, x);
      CountInUpdate(s.injectors, p, q[1..], x);
      CountSnoc(own[p], q[0], x);
      CountInUpdate(own, p, own[p] + [q[0]], x);
    } else {
      assert s.deques[k := s.deques[k]] == s.deques;
    }
  }

  lemma {:induction false} StealConserves(s: State, k: nat, c: Choice, x: Job)
    requires Shape(s) && k < |s.deques| && s.threads[k].Stealing?
    ensures Conserves(s, SearchStep(s, k, c), k, s.threads[k].peer, x)
  {
    var p, peer := s.threads[k].p, s.threads[k].peer;
    if peer < |s.deques| {
      if p < PRIORITIES && peer != k && s.deques[peer][p] != [] && !c.givesUp {
        CountEnds(s.deques[peer][p], x);
        CountInUpdate(s.deques[peer], p, s.deques[peer][p][1..], x);
      } else {
        assert s.deques[peer := s.deques[peer]] == s.deques;
      }
    }
  }

  lemma {:induction false} SearchConserves(s: State, k: nat, c: Choice, x: Job)
    requires Shape(s) && k < |s.threads| && Searching(s.threads[k])
    ensures |Step(s, k, c).injectors| == PRIORITIES && Conserves(s, Step(s, k, c), k, Touched(s, k), x)
  {
    SearchKeeps(s, k, c);
    match s.threads[k]
    case Local(_, _) => LocalConserves(s, k, c, x);
    case Inject(_, _) => InjectConserves(s, k, c, x);
    case Pulling(_, _, _) => PullConserves(s, k, c, x);
    case Stealing(_, _, _) => StealConserves(s, k, c, x);
  }

  /** An insertion waits for the mutex or appends the job. */
  lemma {:induction false} InserterMoves(s: State, k: nat, c: Choice)
    requires Shape(s) && k < |s.threads| && Submits(s.threads[k]) && s.threads[k].sub.Inserting?
    ensures var s', pc := Step(s, k, c), s.threads[k];
      && s'.deques == s.deques && pc.sub.p < PRIORITIES
      && (s' == s || s' == Go(s.(injectors := s.injectors[pc.sub.p := s.injectors[pc.sub.p] + [pc.sub.job]]), k,
                              if pc.Body? then Body(pc.job, Ringing) else Client(Ringing)))
  {
    assert PcShape(s.threads[k]) && SubShape(s.threads[k].sub);
  }

  lemma {:induction false} InserterConserves(s: State, k: nat, c: Choice, x: Job)
    requires Shape(s) && k < |s.threads| && Submits(s.threads[k]) && s.threads[k].sub.Inserting?
    ensures |Step(s, k, c).injectors| == PRIORITIES && Conserves(s, Step(s, k, c), k, k, x)
  {
    InserterMoves(s, k, c);
    var sub := s.threads[k].sub;
    if k < |s.deques| { assert s.deques[k := s.deques[k]] == s.deques; }
    CountSnoc(s.injectors[sub.p], sub.job, x);
    CountInUpdate(s.injectors, sub.p, s.injectors[sub.p] + [sub.job], x);
  }

  lemma {:induction false} SubmitterConserves(s: State, k: nat, c: Choice, x: Job)
    requires Shape(s) && k < |s.threads| && Submits(s.threads[k]) && !s.threads[k].sub.Inserting?
    requires !(s.threads[k].Body? && s.threads[k].sub.Quiet?)
    ensures |Step(s, k, c).injectors| == PRIORITIES && Conserves(s, Step(s, k, c), k, k, x)
  {
    OthersLeaveDeques(s, k, c);
    var s' := Step(s, k, c);
    if k < |s.deques| { assert s.deques[k := s.deques[k]] == s.deques; }
    assert s'.finished == s.finished && s'.injectors == s.injectors;
  }

  lemma {:induction false} BodyConserves(s: State, k: nat, c: Choice, x: Job)
    requires Shape(s) && k < |s.threads| && s.threads[k].Body? && s.threads[k].sub.Quiet?
    ensures |Step(s, k, c).injectors| == PRIORITIES && Conserves(s, Step(s, k, c), k, k, x)
  {
    var s', job := Step(s, k, c), s.threads[k].job;
    if k < |s.deques| { assert s.deques[k := s.deques[k]] == s.deques; }
    assert s'.injectors == s.injectors && s'.deques == s.deques && s'.submitted == s.submitted;
    assert c.submits ==> s'.finished == s.finished;
    assert !c.submits ==> s'.finished == s.finished + multiset{job};
  }

  lemma {:induction false} IdlerConserves(s: State, k: nat, c: Choice, x: Job)
    requires Shape(s) && k < |s.threads| && !Submits(s.threads[k]) && !Searching(s.threads[k])
    ensures |Step(s, k, c).injectors| == PRIORITIES && Conserves(s, Step(s, k, c), k, k, x)
  {
    var s' := Step(s, k, c);
    OthersLeaveDeques(s, k, c);
    if k < |s.deques| { assert s.deques[k := s.deques[k]] == s.deques; }
    assert s'.finished == s.finished && s'.submitted == s.submitted && s'.pending == s.pending;
    assert Held(s'.threads[k], x) == Held(s.threads[k], x);
  }

  lemma {:induction false} StepConserves(s: State, k: nat, c: Choice, x: Job)
    requires Shape(s) && k < |s.threads|
    ensures |Step(s, k, c).injectors| == PRIORITIES && Conserves(s, Step(s, k, c), k, Touched(s, k), x)
  {
    var pc := s.threads[k];
    if Searching(pc) {
      SearchConserves(s, k, c, x);
    } else if pc.Body? && pc.sub.Quiet? {
      BodyConserves(s, k, c, x);
    } else if Submits(pc) {
      if pc.sub.Inserting? { InserterConserves(s, k, c, x); } else { SubmitterConserves(s, k, c, x); }
    } else {
      IdlerConserves(s, k, c, x);
    }
  }

  lemma {:induction false} StepPlaced(s: State, s': State, k: nat, w: nat, x: Job)
    requires k < |s.threads| && OthersKept(s, s', k) && |s.injectors| == |s'.injectors| == PRIORITIES
    requires |s'.deques| == |s.deques| && Threes(s.deques) && Conserves(s, s', k, w, x) && Placed(s, x)
    ensures Threes(s'.deques) && Placed(s', x)
  {
    SumUpdate(Hands(s.threads, x), k, Held(s'.threads[k], x));
    assert Hands(s'.threads, x) == Hands(s.threads, x)[k := Held(s'.threads[k], x)];
    if w < |s.deques| {
      SumUpdate(Locals(s.deques, x), w, CountIn(s'.deques[w], x));
      assert Locals(s'.deques, x) == Locals(s.deques, x)[w := CountIn(s'.deques[w], x)];
    }
  }

  lemma {:induction false} StepCounted(s: State, k: nat, c: Choice)
    requires Shape(s) && Threes(s.deques) && Counted(s) && k < |s.threads|
    ensures Shape(Step(s, k, c)) && Threes(Step(s, k, c).deques) && Counted(Step(s, k, c))
  {
    var s' := Step(s, k, c);
    StepShape(s, k, c);
    StepKeepsOthers(s, k, c);
    forall x: Job ensures Conserves(s, s', k, Touched(s, k), x) && Placed(s', x) {
      StepConserves(s, k, c, x);
      assert Placed(s, x);
      StepPlaced(s, s', k, Touched(s, k), x);
    }
    assert Conserves(s, s', k, Touched(s, k), 0);
  }

  /** The thread holds no job at all. */
  predicate EmptyHanded(pc: Thread)
  {
    !pc.Pulling? && !pc.Found? && !pc.Body? && (pc.Client? ==> !pc.sub.Inserting?)
  }

  predicate AllEmpty(queues: seq<seq<Job>>)
    requires |queues| == PRIORITIES
  {
    forall p :: 0 <= p < PRIORITIES ==> queues[p] == []
  }

  lemma {:induction false} PlacedParts(s: State, x: Job)
    requires |s.injectors| == PRIORITIES && Threes(s.deques) && Placed(s, x)
    ensures 0 <= s.finished[x] <= One(x < s.submitted)
    ensures s.finished[x] == One(x < s.submitted) ==>
        && CountIn(s.injectors, x) == 0
        && (forall w :: 0 <= w < |s.deques| ==> CountIn(s.deques[w], x) == 0)
        && (forall k :: 0 <= k < |s.threads| ==> Held(s.threads[k], x) == 0)
  {
    SumNonNegative(Hands(s.threads, x));
    SumNonNegative(Locals(s.deques, x));
    forall k | 0 <= k < |s.threads| ensures Held(s.threads[k], x) <= Sum(Hands(s.threads, x)) {
      SumAtLeast(Hands(s.threads, x), k);
    }
    forall w | 0 <= w < |s.deques| ensures CountIn(s.deques[w], x) <= Sum(Locals(s.deques, x)) {
      SumAtLeast(Locals(s.deques, x), w);
    }
  }

  lemma {:induction false} SomethingCounted(queues: seq<seq<Job>>, p: nat)
    requires |queues| == PRIORITIES && p < PRIORITIES && queues[p] != []
    ensures CountIn(queues, queues[p][0]) > 0
  {
    CountEnds(queues[p], queues[p][0]);
  }

  lemma {:induction false} NothingCounted(queues: seq<seq<Job>>)
    requires |queues| == PRIORITIES && forall x: Job :: CountIn(queues, x) == 0
    ensures AllEmpty(queues)
  {
    forall p | 0 <= p < PRIORITIES ensures queues[p] == [] {
      if queues[p] != [] {
        SomethingCounted(queues, p);
      }
    }
  }

  /** `pending` is never negative; when it is zero every job counted has finished, once, and nothing is left anywhere. */
  lemma {:induction false} PendingZero(s: State)
    requires |s.injectors| == PRIORITIES && Threes(s.deques) && Counted(s)
    ensures s.pending >= 0
    ensures s.pending == 0 ==>
        && s.finished == Tickets(s.submitted) && AllEmpty(s.injectors)
        && (forall w :: 0 <= w < |s.deques| ==> AllEmpty(s.deques[w]))
        && (forall k :: 0 <= k < |s.threads| ==> EmptyHanded(s.threads[k]))
  {
    forall x: Job ensures s.finished[x] <= One(x < s.submitted) {
      assert Placed(s, x);
      PlacedParts(s, x);
    }
    AllTickets(s.finished, s.submitted);
    if s.pending == 0 {
      NothingPlaced(s);
    }
  }

  lemma {:induction false} NothingPlaced(s: State)
    requires |s.injectors| == PRIORITIES && Threes(s.deques) && s.finished == Tickets(s.submitted)
    requires forall x: Job :: Placed(s, x)
    ensures AllEmpty(s.injectors)
    ensures forall w :: 0 <= w < |s.deques| ==> AllEmpty(s.deques[w])
    ensures forall k :: 0 <= k < |s.threads| ==> EmptyHanded(s.threads[k])
  {
    TicketsOnce(s.submitted);
    forall x: Job ensures CountIn(s.injectors, x) == 0 {
      assert Placed(s, x);
      PlacedParts(s, x);
    }
    NothingCounted(s.injectors);
    forall w | 0 <= w < |s.deques| ensures AllEmpty(s.deques[w]) {
      forall x: Job ensures CountIn(s.deques[w], x) == 0 {
        assert Placed(s, x);
        PlacedParts(s, x);
      }
      NothingCounted(s.deques[w]);
    }
    forall k | 0 <= k < |s.threads| ensures EmptyHanded(s.threads[k]) {
      var pc := s.threads[k];
      var x := match pc
        case Pulling(_, first, _) => first
        case Found(job, _) => job
        case Body(job, _) => job
        case Client(sub) => if sub.Inserting? then sub.job else 0
        case _ => 0;
      assert Placed(s, x);
      PlacedParts(s, x);
      assert Held(pc, x) == 0;
    }
  }
}
