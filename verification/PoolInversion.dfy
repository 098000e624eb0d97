/** A run of the pool in which a job of normal priority goes before a waiting one of high priority. */
module PoolInversion {
  import opened Options
  import opened Pool
  import opened PoolProof
  import opened PoolTheorems

  const FREE: seq<Option<nat>> := [None, None, None]

  lemma {:induction false} Goes(s: State, k: nat, c: Choice, s': State)
    requires Reachable(s) && Shape(s) && Step(s, k, c) == s'
    ensures Reachable(s') && Shape(s')
  {
    ReachableStep(s, k, c);
    StepShape(s, k, c);
  }

  /** One worker, at `pc`, and one client between its calls. */
  function Crew(pc: Thread): seq<Thread>
  {
    [pc, Client(Quiet)]
  }

  lemma WorkerGoes(s: State, pc: Thread, pc': Thread)
    requires s.threads == Crew(pc)
    ensures Go(s, 0, pc') == s.(threads := Crew(pc'))
  {
    assert Crew(pc)[0 := pc'] == Crew(pc');
  }

  ghost predicate Scene(s: State, pc: Thread)
  {
    Reachable(s) && Shape(s) && s.threads == Crew(pc) && |s.deques| == 1 && !s.shutdown
  }

  /** The client's next step in a call of `submit`. */
  lemma {:induction false} ClientGoes(s: State, sub: Submitter, c: Choice, s': State)
    requires Reachable(s) && Shape(s) && s.threads == [Top, Client(sub)] && |s.deques| == 1
    requires SubShape(sub) && (sub.Quiet? ==> !s.shutdown)
    requires s' == SubmitStep(s, 1, sub, c, x => Client(x))
    ensures Reachable(s') && Shape(s')
  {
    Goes(s, 1, c, s');
  }

  lemma Client2(sub: Submitter, sub': Submitter)
    ensures [Top, Client(sub)][1 := Client(sub')] == [Top, Client(sub')]
  {
  }

  /** The client enters `submit` and counts the job. */
  lemma {:induction false} ClientCounts(s: State, p: nat)
    requires Scene(s, Top) && p < PRIORITIES
    ensures var s' := s.(threads := [Top, Client(Inserting(s.submitted, p))], pending := s.pending + 1, submitted := s.submitted + 1);
      Reachable(s') && Shape(s')
  {
    var c := Choice(true, p, false);
    var s1 := s.(threads := [Top, Client(Adding)]);
    Client2(Quiet, Adding);
    ClientGoes(s, Quiet, c, s1);
    Client2(Adding, Inserting(s.submitted, p));
    assert p % PRIORITIES == p;
    ClientGoes(s1, Adding, c,
               s.(threads := [Top, Client(Inserting(s.submitted, p))], pending := s.pending + 1, submitted := s.submitted + 1));
  }

  /** The client inserts the job, rings and wakes nobody. */
  lemma {:induction false} ClientInserts(s: State, job: Job, p: nat)
    requires Reachable(s) && Shape(s) && s.threads == [Top, Client(Inserting(job, p))] && |s.deques| == 1
    requires s.holder == FREE && p < PRIORITIES
    ensures var s' := s.(threads := Crew(Top), gen := s.gen + 1, injectors := s.injectors[p := s.injectors[p] + [job]]);
      Reachable(s') && Shape(s')
  {
    var s1 := s.(threads := [Top, Client(Ringing)], injectors := s.injectors[p := s.injectors[p] + [job]]);
    var s2 := s1.(threads := [Top, Client(Waking)], gen := s.gen + 1);
    assert s.holder[p] == None;
    Client2(Inserting(job, p), Ringing);
    ClientGoes(s, Inserting(job, p), ALONE, s1);
    Client2(Ringing, Waking);
    ClientGoes(s1, Ringing, ALONE, s2);
    assert WakeAll(s2.threads, s2.gen)[1 := Client(Quiet)] == Crew(Top);
    ClientGoes(s2, Waking, ALONE, s2.(threads := Crew(Top)));
  }

  /** The client submits a job of priority `p` while the worker is at the top of its loop. */
  lemma {:induction false} ClientSubmits(s: State, p: nat)
    requires Scene(s, Top) && s.holder == FREE && p < PRIORITIES
    ensures Scene(s.(pending := s.pending + 1, submitted := s.submitted + 1, gen := s.gen + 1,
                     injectors := s.injectors[p := s.injectors[p] + [s.submitted]]), Top)
  {
    ClientCounts(s, p);
    var s' := s.(threads := [Top, Client(Inserting(s.submitted, p))], pending := s.pending + 1, submitted := s.submitted + 1);
    ClientInserts(s', s.submitted, p);
    assert s'.(threads := Crew(Top), gen := s.gen + 1, injectors := s.injectors[p := s.injectors[p] + [s.submitted]]) ==
           s.(pending := s.pending + 1, submitted := s.submitted + 1, gen := s.gen + 1,
              injectors := s.injectors[p := s.injectors[p] + [s.submitted]]);
  }

  /** The worker looks at the generation and begins its search. */
  lemma {:induction false} WorkerBegins(s: State)
    requires Scene(s, Top)
    ensures Step(s, 0, ALONE) == s.(threads := Crew(Local(s.gen, 0))) && Scene(Step(s, 0, ALONE), Local(s.gen, 0))
  {
    WorkerGoes(s, Top, Local(s.gen, 0));
    Goes(s, 0, ALONE, s.(threads := Crew(Local(s.gen, 0))));
  }

  /** An own deque is empty, or the own deques are all looked at. */
  lemma {:induction false} WorkerSkips(s: State, g: nat, p: nat)
    requires Scene(s, Local(g, p)) && p <= PRIORITIES && (p < PRIORITIES ==> s.deques[0][p] == [])
    ensures var pc := if p < PRIORITIES then Local(g, p + 1) else Inject(g, 0);
      Step(s, 0, ALONE) == s.(threads := Crew(pc)) && Scene(Step(s, 0, ALONE), pc)
  {
    var pc := if p < PRIORITIES then Local(g, p + 1) else Inject(g, 0);
    WorkerGoes(s, Local(g, p), pc);
    Goes(s, 0, ALONE, s.(threads := Crew(pc)));
  }

  /** An injector is empty. */
  lemma {:induction false} WorkerPasses(s: State, g: nat, p: nat)
    requires Scene(s, Inject(g, p)) && p < PRIORITIES && s.injectors[p] == [] && s.holder == FREE
    ensures Scene(s.(threads := Crew(Inject(g, p + 1))), Inject(g, p + 1))
  {
    assert s.holder[p] == None;
    WorkerGoes(s, Inject(g, p), Inject(g, p + 1));
    Goes(s, 0, ALONE, s.(threads := Crew(Inject(g, p + 1))));
  }

  /** A pull of two jobs takes the first and moves the second. */
  lemma {:induction false} WorkerPulls(s: State, g: nat, p: nat, a: Job, b: Job)
    requires Scene(s, Inject(g, p)) && p < PRIORITIES && s.holder == FREE
    requires s.injectors[p] == [a, b] && s.deques[0][p] == []
    ensures Scene(s.(injectors := s.injectors[p := []], deques := [s.deques[0][p := [b]]], threads := Crew(Found(a, p))), Found(a, p))
  {
    var s1 := s.(injectors := s.injectors[p := [b]], holder := FREE[p := Some(0)], threads := Crew(Pulling(p, a, 1)));
    var s2 := s.(injectors := s.injectors[p := []], deques := [s.deques[0][p := [b]]], holder := FREE[p := Some(0)],
                 threads := Crew(Pulling(p, a, 2)));
    var s3 := s2.(holder := FREE, threads := Crew(Found(a, p)));
    PullsFirst(s, g, p, a, b);
    PullsSecond(s1, p, a, b);
    assert s1.injectors[p := []] == s.injectors[p := []];
    PullsLast(s2, p, a);
    assert FREE[p := Some(0)][p := None] == FREE;
    assert s3 == s.(injectors := s.injectors[p := []], deques := [s.deques[0][p := [b]]], threads := Crew(Found(a, p)));
  }

  lemma {:induction false} PullsFirst(s: State, g: nat, p: nat, a: Job, b: Job)
    requires Scene(s, Inject(g, p)) && p < PRIORITIES && s.holder == FREE && s.injectors[p] == [a, b]
    ensures Scene(s.(injectors := s.injectors[p := [b]], holder := FREE[p := Some(0)], threads := Crew(Pulling(p, a, 1))),
                  Pulling(p, a, 1))
  {
    assert s.holder[p] == None && [a, b][1..] == [b];
    assert Crew(Inject(g, p))[0 := Pulling(p, a, 1)] == Crew(Pulling(p, a, 1));
    Goes(s, 0, ALONE, s.(injectors := s.injectors[p := [b]], holder := FREE[p := Some(0)], threads := Crew(Pulling(p, a, 1))));
  }

  lemma {:induction false} PullsSecond(s: State, p: nat, a: Job, b: Job)
    requires Scene(s, Pulling(p, a, 1)) && p < PRIORITIES && s.injectors[p] == [b] && s.deques[0][p] == []
    ensures Scene(s.(injectors := s.injectors[p := []], deques := [s.deques[0][p := [b]]], threads := Crew(Pulling(p, a, 2))),
                  Pulling(p, a, 2))
  {
    var s' := s.(injectors := s.injectors[p := []], deques := [s.deques[0][p := [b]]], threads := Crew(Pulling(p, a, 2)));
    assert [b][1..] == [] && s.deques[0][p] + [b] == [b];
    assert s.deques[0 := s.deques[0][p := [b]]] == [s.deques[0][p := [b]]];
    assert Crew(Pulling(p, a, 1))[0 := Pulling(p, a, 2)] == Crew(Pulling(p, a, 2));
    Goes(s, 0, ALONE, s');
  }

  lemma {:induction false} PullsLast(s: State, p: nat, a: Job)
    requires Scene(s, Pulling(p, a, 2)) && p < PRIORITIES && s.injectors[p] == []
    ensures Scene(s.(holder := s.holder[p := None], threads := Crew(Found(a, p))), Found(a, p))
  {
    assert Crew(Pulling(p, a, 2))[0 := Found(a, p)] == Crew(Found(a, p));
    Goes(s, 0, ALONE, s.(holder := s.holder[p := None], threads := Crew(Found(a, p))));
  }

  /** The worker starts a job of lower priority and finishes it. */
  lemma {:induction false} WorkerRuns(s: State, a: Job, p: nat)
    requires Scene(s, Found(a, p)) && p > 0
    ensures Scene(s.(startedLow := s.startedLow + 1, pending := s.pending - 1, finished := s.finished + multiset{a},
                     threads := Crew(BodyRinging)), BodyRinging)
  {
    var s1 := s.(startedLow := s.startedLow + 1, threads := Crew(Body(a, Quiet)));
    WorkerGoes(s.(startedLow := s.startedLow + 1), Found(a, p), Body(a, Quiet));
    Goes(s, 0, ALONE, s1);
    var s2 := s1.(pending := s.pending - 1, finished := s.finished + multiset{a});
    WorkerGoes(s2, Body(a, Quiet), BodyRinging);
    Goes(s1, 0, ALONE, s2.(threads := Crew(BodyRinging)));
  }

  /** It announces it and comes back to the top of its loop. */
  lemma {:induction false} WorkerAnnounces(s: State)
    requires Scene(s, BodyRinging)
    ensures Scene(s.(gen := s.gen + 1, threads := Crew(Top)), Top)
  {
    WorkerGoes(s.(gen := s.gen + 1), BodyRinging, BodyWaking);
    Goes(s, 0, ALONE, s.(gen := s.gen + 1, threads := Crew(BodyWaking)));
    WorkerWakes(s.(gen := s.gen + 1, threads := Crew(BodyWaking)));
  }

  lemma {:induction false} WorkerWakes(s: State)
    requires Scene(s, BodyWaking)
    ensures Scene(s.(threads := Crew(Top)), Top)
  {
    assert WakeAll(s.threads, s.gen)[0 := Top] == Crew(Top);
    Goes(s, 0, ALONE, s.(threads := Crew(Top)));
  }

  /** A search of empty own deques comes to the injectors. */
  lemma {:induction false} WorkerSkipsAll(s: State)
    requires Scene(s, Top) && s.deques[0] == [[], [], []]
    ensures Scene(s.(threads := Crew(Inject(s.gen, 0))), Inject(s.gen, 0))
  {
    WorkerBegins(s);
    for p: nat := 0 to PRIORITIES
      invariant Scene(s.(threads := Crew(Local(s.gen, p))), Local(s.gen, p))
    {
      WorkerSkips(s.(threads := Crew(Local(s.gen, p))), s.gen, p);
    }
    WorkerSkips(s.(threads := Crew(Local(s.gen, PRIORITIES))), s.gen, PRIORITIES);
  }

  /** A normal job is submitted to a new pool. */
  lemma {:induction false} OneSubmitted() returns (s: State)
    ensures Scene(s, Top) && s.holder == FREE && s.deques[0] == [[], [], []] && s.submitted == 1
    ensures s.injectors[0] == [] && s.injectors[1] == [0]
  {
    s := Initial(1, 1, 0);
    InitialReachable(1, 1, 0);
    assert s.threads == Crew(Top) && |s.deques| == 1;
    ClientSubmits(s, 1);
    s := s.(pending := s.pending + 1, submitted := s.submitted + 1, gen := s.gen + 1,
            injectors := s.injectors[1 := s.injectors[1] + [s.submitted]]);
  }

  lemma {:induction false} TwoSubmitted() returns (s: State)
    ensures Scene(s, Top) && s.holder == FREE && s.deques[0] == [[], [], []] && s.submitted == 2
    ensures s.injectors[0] == [] && s.injectors[1] == [0, 1]
  {
    s := OneSubmitted();
    ClientSubmits(s, 1);
    s := s.(pending := s.pending + 1, submitted := s.submitted + 1, gen := s.gen + 1,
            injectors := s.injectors[1 := s.injectors[1] + [s.submitted]]);
  }

  /** Two normal jobs are submitted and pulled, and the first is run. */
  lemma {:induction false} NormalIsLocal() returns (s: State)
    ensures Scene(s, Top) && s.holder == FREE && s.deques[0] == [[], [1], []] && s.injectors[0] == [] && s.submitted == 2
  {
    s := TwoSubmitted();
    WorkerSkipsAll(s);
    s := s.(threads := Crew(Inject(s.gen, 0)));
    var g := s.gen;
    WorkerPasses(s, g, 0);
    s := s.(threads := Crew(Inject(g, 1)));
    WorkerPulls(s, g, 1, 0, 1);
    s := s.(injectors := s.injectors[1 := []], deques := [s.deques[0][1 := [1]]], threads := Crew(Found(0, 1)));
    WorkerRuns(s, 0, 1);
    s := s.(startedLow := s.startedLow + 1, pending := s.pending - 1, finished := s.finished + multiset{0 as nat},
            threads := Crew(BodyRinging));
    WorkerAnnounces(s);
    s := s.(gen := s.gen + 1, threads := Crew(Top));
  }

  /**
   High priority does not always go first: in this reachable state a high-priority job waits in its injector
   while the worker begins its search, and in three steps of its own it has found one of normal priority.
   */
  lemma {:induction false} NormalGoesFirst() returns (s: State, s1: State, s2: State, t: State)
    ensures Reachable(s) && Shape(s) && Shape(s1) && Shape(s2)
    ensures s1 == Step(s, 0, ALONE) && s2 == Step(s1, 0, ALONE) && t == Step(s2, 0, ALONE)
    ensures s.threads == [Top, Client(Quiet)] && s.injectors[0] == [2]
    ensures |t.threads| == 2 && t.threads[0] == Found(1, 1) && |t.injectors| == PRIORITIES && t.injectors[0] == [2]
  {
    s := NormalIsLocal();
    ClientSubmits(s, 0);
    s := s.(pending := s.pending + 1, submitted := s.submitted + 1, gen := s.gen + 1,
            injectors := s.injectors[0 := s.injectors[0] + [s.submitted]]);
    WorkerBegins(s);
    s1 := Step(s, 0, ALONE);
    WorkerSkips(s1, s.gen, 0);
    s2 := Step(s1, 0, ALONE);
    t := Step(s2, 0, ALONE);
  }
}
