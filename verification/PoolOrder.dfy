/** The order in which an injector hands out its jobs: that of their insertion, through pulls by any workers. */
module PoolOrder {
  import opened Options
  import opened Sequences
  import opened Pool
  import opened PoolProof
  import opened PoolJobs
  import opened PoolTheorems

  /**
   The job that a step brings a worker from injector `p`: the first of its batch, which it is going to run, or a further one,
   which joins its deque.
   */
  function PulledBy(s: State, k: nat, c: Choice, p: nat): seq<Job>
    requires Shape(s)
  {
    var s' := Step(s, k, c);
    if k >= |s.threads| || !s'.threads[k].Pulling? || s'.threads[k].p != p then []
    else if s.threads[k].Inject? then [s'.threads[k].first]
    else if k < |s.deques| && p < |s'.deques[k]| && s'.deques[k][p] != [] then [s'.deques[k][p][|s'.deques[k][p]| - 1]]
    else []
  }

  function CallOf(pc: Thread): Submitter
  {
    match pc
    case Body(_, sub) => sub
    case Client(sub) => sub
    case _ => Quiet
  }

  /** The job that a call of `submit` has added to injector `p` in this step. */
  function InsertedBy(s: State, k: nat, c: Choice, p: nat): seq<Job>
    requires Shape(s)
  {
    if k >= |s.threads| then []
    else
      match CallOf(s.threads[k])
      case Inserting(job, q) => if q == p && CallOf(Step(s, k, c).threads[k]).Ringing? then [job] else []
      case _ => []
  }

  predicate KeepsOrder(s: State, k: nat, c: Choice, p: nat)
    requires Shape(s) && p < PRIORITIES
  {
    |Step(s, k, c).injectors| == PRIORITIES &&
    PulledBy(s, k, c, p) + Step(s, k, c).injectors[p] == s.injectors[p] + InsertedBy(s, k, c, p)
  }

  lemma {:induction false} SearchKeepsOrder(s: State, k: nat, c: Choice, p: nat)
    requires Shape(s) && k < |s.threads| && Searching(s.threads[k]) && p < PRIORITIES
    ensures KeepsOrder(s, k, c, p)
  {
    SearchKeeps(s, k, c);
    assert PcShape(s.threads[k]);
    var q := s.injectors[p];
    if q != [] { assert [q[0]] + q[1..] == q; }
    assert q + [] == q && [] + q == q;
  }

  lemma {:induction false} InserterKeepsOrder(s: State, k: nat, c: Choice, p: nat)
    requires Shape(s) && k < |s.threads| && Submits(s.threads[k]) && s.threads[k].sub.Inserting? && p < PRIORITIES
    ensures KeepsOrder(s, k, c, p)
  {
    InserterMoves(s, k, c);
    assert PulledBy(s, k, c, p) == [];
    assert s.injectors[p] + [] == s.injectors[p];
    assert [] + Step(s, k, c).injectors[p] == Step(s, k, c).injectors[p];
  }

  lemma {:induction false} OthersKeepOrder(s: State, k: nat, c: Choice, p: nat)
    requires Shape(s) && k < |s.threads| && !Searching(s.threads[k]) && p < PRIORITIES
    requires Submits(s.threads[k]) ==> !s.threads[k].sub.Inserting?
    ensures KeepsOrder(s, k, c, p)
  {
    OthersLeaveDeques(s, k, c);
    assert PulledBy(s, k, c, p) == [];
    assert s.injectors[p] + [] == s.injectors[p] && [] + s.injectors[p] == s.injectors[p];
  }

  lemma {:induction false} StepKeepsOrder(s: State, k: nat, c: Choice, p: nat)
    requires Shape(s) && p < PRIORITIES
    ensures KeepsOrder(s, k, c, p)
  {
    if k >= |s.threads| {
      assert s.injectors[p] + [] == s.injectors[p] && [] + s.injectors[p] == s.injectors[p];
    } else if Searching(s.threads[k]) {
      SearchKeepsOrder(s, k, c, p);
    } else if Submits(s.threads[k]) && s.threads[k].sub.Inserting? {
      InserterKeepsOrder(s, k, c, p);
    } else {
      OthersKeepOrder(s, k, c, p);
    }
  }

  ghost function Pulled(s: State, schedule: seq<(nat, Choice)>, p: nat): seq<Job>
    requires Inv(s)
    decreases |schedule|
  {
    if schedule == [] then []
    else
      var (k, c) := schedule[0];
      StepInv(s, k, c);
      PulledBy(s, k, c, p) + Pulled(Step(s, k, c), schedule[1..], p)
  }

  ghost function Inserted(s: State, schedule: seq<(nat, Choice)>, p: nat): seq<Job>
    requires Inv(s)
    decreases |schedule|
  {
    if schedule == [] then []
    else
      var (k, c) := schedule[0];
      StepInv(s, k, c);
      InsertedBy(s, k, c, p) + Inserted(Step(s, k, c), schedule[1..], p)
  }

  /**
   First in, first out: over every run, the jobs that workers get from an injector, in order, and then those still in it
   are those it held at the start and then those submitted at its priority, in the order of their insertion.
   */
  lemma {:induction false} InjectorIsFifo(s: State, schedule: seq<(nat, Choice)>, p: nat)
    requires Inv(s) && p < PRIORITIES
    ensures Pulled(s, schedule, p) + Run(s, schedule).injectors[p] == s.injectors[p] + Inserted(s, schedule, p)
    decreases |schedule|
  {
    if schedule == [] {
      assert s.injectors[p] + [] == s.injectors[p] && [] + s.injectors[p] == s.injectors[p];
    } else {
      var (k, c) := schedule[0];
      StepInv(s, k, c);
      StepKeepsOrder(s, k, c, p);
      InjectorIsFifo(Step(s, k, c), schedule[1..], p);
      Regroup(PulledBy(s, k, c, p), Pulled(Step(s, k, c), schedule[1..], p), Run(s, schedule).injectors[p], s.injectors[p],
              InsertedBy(s, k, c, p), Inserted(Step(s, k, c), schedule[1..], p), Step(s, k, c).injectors[p]);
    }
  }
}
