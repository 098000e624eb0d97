/**
 The search of the work-stealing pool: `find_task` as loops over mutable queues, the outcome it is proved to
 compute, what that outcome is, and why it is where the steps of the pool's model end.
 */
module PoolSearch {
  import opened Options
  import opened Pool
  import opened PoolProof

  /** A pull takes from an injector but fills the own deque, so it counts as local too. */
  datatype FoundKind = Own | FromPeer

  /** What the workers search. */
  datatype Queues = Queues(deques: seq<seq<seq<Job>>>, injectors: seq<seq<Job>>)

  datatype Outcome = Outcome(found: Option<(Job, nat, FoundKind)>, queues: Queues)

  predicate Sized(q: Queues)
  {
    |q.injectors| == PRIORITIES && forall v :: 0 <= v < |q.deques| ==> |q.deques[v]| == PRIORITIES
  }

  function WithDeque(q: Queues, w: nat, p: nat, jobs: seq<Job>): (r: Queues)
    requires Sized(q) && w < |q.deques| && p < PRIORITIES
    ensures Sized(r) && |r.deques| == |q.deques|
  {
    q.(deques := q.deques[w := q.deques[w][p := jobs]])
  }

  function WithInjector(q: Queues, p: nat, jobs: seq<Job>): (r: Queues)
    requires Sized(q) && p < PRIORITIES
    ensures Sized(r) && |r.deques| == |q.deques|
  {
    q.(injectors := q.injectors[p := jobs])
  }

  /** The first stage from priority `p` on, and all that follows it. */
  function LocalFrom(q: Queues, w: nat, p: nat): Outcome
    requires Sized(q) && w < |q.deques| && p <= PRIORITIES
    decreases PRIORITIES - p
  {
    if p == PRIORITIES then InjectFrom(q, w, 0)
    else
      var own := q.deques[w][p];
      if own == [] then LocalFrom(q, w, p + 1)
      else Outcome(Some((own[|own| - 1], p, Own)), WithDeque(q, w, p, own[..|own| - 1]))
  }

  /** The queues after a pull that has moved `moved` jobs and goes on. */
  function PullFrom(q: Queues, w: nat, p: nat, moved: nat): (r: Queues)
    requires Sized(q) && w < |q.deques| && p < PRIORITIES
    ensures Sized(r) && |r.deques| == |q.deques|
    decreases BATCH_SIZE - moved
  {
    var rest := q.injectors[p];
    if moved < BATCH_SIZE && rest != [] then
      PullFrom(WithDeque(WithInjector(q, p, rest[1..]), w, p, q.deques[w][p] + [rest[0]]), w, p, moved + 1)
    else q
  }

  function InjectFrom(q: Queues, w: nat, p: nat): Outcome
    requires Sized(q) && w < |q.deques| && p <= PRIORITIES
    decreases PRIORITIES - p
  {
    if p == PRIORITIES then StealFrom(q, w, 0, 0)
    else if q.injectors[p] == [] then InjectFrom(q, w, p + 1)
    else
      Outcome(Some((q.injectors[p][0], p, Own)), PullFrom(WithInjector(q, p, q.injectors[p][1..]), w, p, 1))
  }

  function StealFrom(q: Queues, w: nat, p: nat, peer: nat): Outcome
    requires Sized(q) && w < |q.deques| && p <= PRIORITIES && peer <= |q.deques|
    decreases PRIORITIES - p, |q.deques| - peer
  {
    if p == PRIORITIES then Outcome(None, q)
    else if peer == |q.deques| then StealFrom(q, w, p + 1, 0)
    else if peer == w || q.deques[peer][p] == [] then StealFrom(q, w, p, peer + 1)
    else
      var theirs := q.deques[peer][p];
      Outcome(Some((theirs[0], p, FromPeer)), WithDeque(q, peer, p, theirs[1..]))
  }

  /** How many jobs a pull moves after the first, of `n` that are there: a batch is 32 jobs with the first. */
  function Batch(n: nat, moved: nat): nat
  {
    if moved >= 32 then 0 else if n < 32 - moved then n else 32 - moved
  }

  function PutBoth(q: Queues, w: nat, p: nat, injector: seq<Job>, own: seq<Job>): Queues
    requires Sized(q) && w < |q.deques| && p < PRIORITIES
  {
    WithDeque(WithInjector(q, p, injector), w, p, own)
  }

  lemma PutTwice(q: Queues, w: nat, p: nat, i1: seq<Job>, o1: seq<Job>, i2: seq<Job>, o2: seq<Job>)
    requires Sized(q) && w < |q.deques| && p < PRIORITIES
    ensures PutBoth(PutBoth(q, w, p, i1, o1), w, p, i2, o2) == PutBoth(q, w, p, i2, o2)
  {
    assert q.injectors[p := i1][p := i2] == q.injectors[p := i2];
    assert q.deques[w][p := o1][p := o2] == q.deques[w][p := o2];
    assert q.deques[w := q.deques[w][p := o1]][w := q.deques[w][p := o2]] == q.deques[w := q.deques[w][p := o2]];
  }

  /** A pull moves the next jobs of its batch, in order, to the end of the deque, and leaves the rest in the injector. */
  lemma {:induction false} PullTakes(q: Queues, w: nat, p: nat, moved: nat)
    requires Sized(q) && w < |q.deques| && p < PRIORITIES
    ensures var inj, n := q.injectors[p], Batch(|q.injectors[p]|, moved);
      PullFrom(q, w, p, moved) == PutBoth(q, w, p, inj[n..], q.deques[w][p] + inj[..n])
    decreases BATCH_SIZE - moved
  {
    var inj, own := q.injectors[p], q.deques[w][p];
    if moved < BATCH_SIZE && inj != [] {
      var q1 := PutBoth(q, w, p, inj[1..], own + [inj[0]]);
      PullTakes(q1, w, p, moved + 1);
      var n := Batch(|inj|, moved);
      PutTwice(q, w, p, inj[1..], own + [inj[0]], inj[1..][n - 1..], (own + [inj[0]]) + inj[1..][..n - 1]);
      assert inj[1..][n - 1..] == inj[n..];
      assert (own + [inj[0]]) + inj[1..][..n - 1] == own + inj[..n];
    } else {
      assert own + inj[..0] == own && inj[0..] == inj;
      assert q.deques[w][p := own] == q.deques[w] && q.deques[w := q.deques[w]] == q.deques;
      assert q.injectors[p := inj] == q.injectors;
    }
  }

  // What the search finds

  /** The highest priority with anything queued is `p`. */
  predicate FirstNonEmpty(queues: seq<seq<Job>>, p: nat)
  {
    p < |queues| && AllEmptyBelow(queues, p) && queues[p] != []
  }

  predicate AllEmptyBelow(queues: seq<seq<Job>>, n: nat)
  {
    forall p :: 0 <= p < n && p < |queues| ==> queues[p] == []
  }

  /** Of the first `n` workers none but `w` holds a job of priority `p`. */
  predicate PeersEmpty(deques: seq<seq<seq<Job>>>, w: nat, p: nat, n: nat)
  {
    forall v :: 0 <= v < n && v < |deques| && v != w && p < |deques[v]| ==> deques[v][p] == []
  }

  /** Worker `v` is the first other than `w` with a job of priority `p`, and `job` is its oldest. */
  predicate FirstPeer(deques: seq<seq<seq<Job>>>, w: nat, p: nat, v: nat, job: Job)
  {
    && v < |deques| && v != w && PeersEmpty(deques, w, p, v)
    && p < |deques[v]| && deques[v][p] != [] && deques[v][p][0] == job
  }

  /** No peer holds a job of priority below `n` in number, that is, of a higher one. */
  predicate HigherEmpty(deques: seq<seq<seq<Job>>>, w: nat, n: nat)
  {
    forall p :: 0 <= p < n ==> PeersEmpty(deques, w, p, |deques|)
  }

  /** The outcome of the search, by the queues it starts from. */
  ghost predicate Finds(q: Queues, w: nat, found: Option<(Job, nat, FoundKind)>)
    requires Sized(q) && w < |q.deques|
  {
    var own, inj := q.deques[w], q.injectors;
    match found
    case Some((job, p, Own)) =>
      if AllEmptyBelow(own, PRIORITIES) then FirstNonEmpty(inj, p) && job == inj[p][0]
      else FirstNonEmpty(own, p) && job == own[p][|own[p]| - 1]
    case Some((job, p, FromPeer)) =>
      && AllEmptyBelow(own, PRIORITIES) && AllEmptyBelow(inj, PRIORITIES)
      && p < PRIORITIES && HigherEmpty(q.deques, w, p) && exists v :: FirstPeer(q.deques, w, p, v, job)
    case None => AllEmptyBelow(own, PRIORITIES) && AllEmptyBelow(inj, PRIORITIES) && HigherEmpty(q.deques, w, PRIORITIES)
  }

  lemma {:induction false} StealFinds(q: Queues, w: nat, p: nat, peer: nat)
    requires Sized(q) && w < |q.deques| && p <= PRIORITIES && peer <= |q.deques|
    requires AllEmptyBelow(q.deques[w], PRIORITIES) && AllEmptyBelow(q.injectors, PRIORITIES)
    requires HigherEmpty(q.deques, w, p) && PeersEmpty(q.deques, w, p, peer)
    ensures Finds(q, w, StealFrom(q, w, p, peer).found)
    decreases PRIORITIES - p, |q.deques| - peer
  {
    if p < PRIORITIES {
      if peer == |q.deques| {
        StealFinds(q, w, p + 1, 0);
      } else if peer == w || q.deques[peer][p] == [] {
        StealFinds(q, w, p, peer + 1);
      } else {
        assert FirstPeer(q.deques, w, p, peer, q.deques[peer][p][0]);
      }
    }
  }

  lemma {:induction false} InjectFinds(q: Queues, w: nat, p: nat)
    requires Sized(q) && w < |q.deques| && p <= PRIORITIES
    requires AllEmptyBelow(q.deques[w], PRIORITIES) && AllEmptyBelow(q.injectors, p)
    ensures Finds(q, w, InjectFrom(q, w, p).found)
    decreases PRIORITIES - p
  {
    if p == PRIORITIES {
      StealFinds(q, w, 0, 0);
    } else if q.injectors[p] == [] {
      InjectFinds(q, w, p + 1);
    }
  }

  lemma {:induction false} LocalFinds(q: Queues, w: nat, p: nat)
    requires Sized(q) && w < |q.deques| && p <= PRIORITIES && AllEmptyBelow(q.deques[w], p)
    ensures Finds(q, w, LocalFrom(q, w, p).found)
    decreases PRIORITIES - p
  {
    if p == PRIORITIES {
      InjectFinds(q, w, 0);
    } else if q.deques[w][p] == [] {
      LocalFinds(q, w, p + 1);
    } else {
      assert !AllEmptyBelow(q.deques[w], PRIORITIES);
    }
  }

  /**
   The stages come before the priorities: with a high-priority job in the injector the search finds one of
   high priority exactly when no lower one is first in the own deques.
   */
  lemma {:induction false} HighIsPassedOver(q: Queues, w: nat)
    requires Sized(q) && w < |q.deques| && q.injectors[0] != []
    ensures var found := LocalFrom(q, w, 0).found;
      found.Some? && (found.value.1 == 0 <==> AllEmptyBelow(q.deques[w], PRIORITIES) || q.deques[w][0] != [])
  {
    LocalFinds(q, w, 0);
    assert FirstNonEmpty(q.injectors, 0);
  }

  // The search as steps of the pool's model

  function QueuesOf(s: State): Queues
  {
    Queues(s.deques, s.injectors)
  }

  predicate StepAt(h: seq<State>, i: nat, w: nat)
    requires i + 1 < |h|
  {
    Shape(h[i]) && h[i + 1] == Step(h[i], w, ALONE)
  }

  /** The states of a run of worker `w` with nobody else moving and no theft giving up. */
  predicate History(h: seq<State>, w: nat)
  {
    |h| > 0 && forall i :: 0 <= i < |h| - 1 ==> StepAt(h, i, w)
  }

  /** No injector's mutex is held but perhaps that of `p`. */
  predicate FreeBut(s: State, p: nat)
    requires |s.holder| == PRIORITIES
  {
    forall q :: 0 <= q < PRIORITIES && q != p ==> s.holder[q].None?
  }

  /** `w` stands at `pc` of its search and no mutex is held. */
  predicate At(s: State, w: nat, pc: Thread)
  {
    Shape(s) && w < |s.deques| && s.threads[w] == pc && FreeBut(s, PRIORITIES)
  }

  /** `w` holds the mutex of injector `p` and has moved `moved` jobs. */
  predicate AtPull(s: State, w: nat, p: nat, first: Job, moved: nat)
  {
    && Shape(s) && w < |s.deques| && p < PRIORITIES
    && s.threads[w] == Pulling(p, first, moved) && FreeBut(s, p) && s.holder[p] == Some(w)
  }

  /** The search is over, with this outcome. */
  predicate Ended(t: State, w: nat, gen: nat, o: Outcome)
  {
    && QueuesOf(t) == o.queues && w < |t.threads|
    && t.threads[w] == if o.found.Some? then Found(o.found.value.0, o.found.value.1) else CheckFlag(gen)
  }

  lemma SameStep(h: seq<State>, i: nat, g: seq<State>, j: nat, w: nat)
    requires i + 1 < |h| && j + 1 < |g| && h[i] == g[j] && h[i + 1] == g[j + 1] && StepAt(h, i, w)
    ensures StepAt(g, j, w)
  {
  }

  lemma {:induction false} Prepend(s: State, h: seq<State>, w: nat)
    requires History(h, w) && History([s, h[0]], w)
    ensures History([s] + h, w)
  {
    var g := [s] + h;
    assert StepAt([s, h[0]], 0, w);
    forall j | 0 <= j < |g| - 1 ensures StepAt(g, j, w) {
      if j > 0 { SameStep(h, j - 1, g, j, w); } else { SameStep([s, h[0]], 0, g, 0, w); }
    }
  }

  lemma OneStep(s: State, w: nat)
    requires Shape(s)
    ensures History([s, Step(s, w, ALONE)], w) && Shape(Step(s, w, ALONE))
  {
    StepShape(s, w, ALONE);
  }

  lemma LocalAlone(s: State, w: nat, gen: nat, p: nat) returns (s1: State)
    requires At(s, w, Local(gen, p)) && p <= PRIORITIES
    ensures History([s, s1], w)
    ensures if p == PRIORITIES then At(s1, w, Inject(gen, 0)) && QueuesOf(s1) == QueuesOf(s)
      else
        var own := s.deques[w][p];
        if own == [] then At(s1, w, Local(gen, p + 1)) && QueuesOf(s1) == QueuesOf(s)
        else
          && At(s1, w, Found(own[|own| - 1], p))
          && QueuesOf(s1) == WithDeque(QueuesOf(s), w, p, own[..|own| - 1])
  {
    OneStep(s, w);
    s1 := Step(s, w, ALONE);
  }

  lemma InjectAlone(s: State, w: nat, gen: nat, p: nat) returns (s1: State)
    requires At(s, w, Inject(gen, p)) && p <= PRIORITIES
    ensures History([s, s1], w)
    ensures if p == PRIORITIES then At(s1, w, Stealing(gen, 0, 0)) && QueuesOf(s1) == QueuesOf(s)
      else if s.injectors[p] == [] then At(s1, w, Inject(gen, p + 1)) && QueuesOf(s1) == QueuesOf(s)
      else
        && AtPull(s1, w, p, s.injectors[p][0], 1)
        && QueuesOf(s1) == WithInjector(QueuesOf(s), p, s.injectors[p][1..])
  {
    OneStep(s, w);
    s1 := Step(s, w, ALONE);
  }

  lemma PullAlone(s: State, w: nat, p: nat, first: Job, moved: nat) returns (s1: State)
    requires AtPull(s, w, p, first, moved)
    ensures History([s, s1], w)
    ensures var rest := s.injectors[p];
      if moved < BATCH_SIZE && rest != [] then
        && AtPull(s1, w, p, first, moved + 1)
        && QueuesOf(s1) == WithDeque(WithInjector(QueuesOf(s), p, rest[1..]), w, p, s.deques[w][p] + [rest[0]])
      else At(s1, w, Found(first, p)) && QueuesOf(s1) == QueuesOf(s)
  {
    OneStep(s, w);
    s1 := Step(s, w, ALONE);
  }

  lemma StealAlone(s: State, w: nat, gen: nat, p: nat, peer: nat) returns (s1: State)
    requires At(s, w, Stealing(gen, p, peer)) && p <= PRIORITIES && peer <= |s.deques|
    ensures History([s, s1], w)
    ensures if p == PRIORITIES then At(s1, w, CheckFlag(gen)) && QueuesOf(s1) == QueuesOf(s)
      else if peer == |s.deques| then At(s1, w, Stealing(gen, p + 1, 0)) && QueuesOf(s1) == QueuesOf(s)
      else
        var theirs := s.deques[peer][p];
        if peer == w || theirs == [] then At(s1, w, Stealing(gen, p, peer + 1)) && QueuesOf(s1) == QueuesOf(s)
        else At(s1, w, Found(theirs[0], p)) && QueuesOf(s1) == WithDeque(QueuesOf(s), peer, p, theirs[1..])
  {
    OneStep(s, w);
    s1 := Step(s, w, ALONE);
  }

  lemma {:induction false} PullRuns(s: State, w: nat, p: nat, first: Job, moved: nat) returns (h: seq<State>)
    requires AtPull(s, w, p, first, moved)
    ensures History(h, w) && h[0] == s
    ensures var t := h[|h| - 1];
      w < |t.threads| && t.threads[w] == Found(first, p) && QueuesOf(t) == PullFrom(QueuesOf(s), w, p, moved)
    decreases BATCH_SIZE - moved
  {
    var s1 := PullAlone(s, w, p, first, moved);
    if moved < BATCH_SIZE && s.injectors[p] != [] {
      h := PullRuns(s1, w, p, first, moved + 1);
    } else {
      h := [s1];
    }
    Prepend(s, h, w);
    h := [s] + h;
  }

  lemma {:induction false} StealRuns(s: State, w: nat, gen: nat, p: nat, peer: nat) returns (h: seq<State>)
    requires At(s, w, Stealing(gen, p, peer)) && p <= PRIORITIES && peer <= |s.deques|
    ensures History(h, w) && h[0] == s
    ensures var t := h[|h| - 1]; Ended(t, w, gen, StealFrom(QueuesOf(s), w, p, peer))
    decreases PRIORITIES - p, |s.deques| - peer
  {
    var s1 := StealAlone(s, w, gen, p, peer);
    if p == PRIORITIES {
      h := [s1];
    } else if peer == |s.deques| {
      h := StealRuns(s1, w, gen, p + 1, 0);
    } else if peer == w || s.deques[peer][p] == [] {
      h := StealRuns(s1, w, gen, p, peer + 1);
    } else {
      h := [s1];
    }
    Prepend(s, h, w);
    h := [s] + h;
  }

  lemma {:induction false} InjectRuns(s: State, w: nat, gen: nat, p: nat) returns (h: seq<State>)
    requires At(s, w, Inject(gen, p)) && p <= PRIORITIES
    ensures History(h, w) && h[0] == s
    ensures var t := h[|h| - 1]; Ended(t, w, gen, InjectFrom(QueuesOf(s), w, p))
    decreases PRIORITIES - p
  {
    var s1 := InjectAlone(s, w, gen, p);
    if p == PRIORITIES {
      h := StealRuns(s1, w, gen, 0, 0);
    } else if s.injectors[p] == [] {
      h := InjectRuns(s1, w, gen, p + 1);
    } else {
      h := PullRuns(s1, w, p, s.injectors[p][0], 1);
    }
    Prepend(s, h, w);
    h := [s] + h;
  }

  /** Undisturbed, the model's worker ends its search with the outcome the functions above compute. */
  lemma {:induction false} LocalRuns(s: State, w: nat, gen: nat, p: nat) returns (h: seq<State>)
    requires At(s, w, Local(gen, p)) && p <= PRIORITIES
    ensures History(h, w) && h[0] == s
    ensures var t := h[|h| - 1]; Ended(t, w, gen, LocalFrom(QueuesOf(s), w, p))
    decreases PRIORITIES - p
  {
    var s1 := LocalAlone(s, w, gen, p);
    if p == PRIORITIES {
      h := InjectRuns(s1, w, gen, 0);
    } else if s.deques[w][p] == [] {
      h := LocalRuns(s1, w, gen, p + 1);
    } else {
      h := [s1];
    }
    Prepend(s, h, w);
    h := [s] + h;
  }

  class Shared {
    var localDeques: seq<seq<seq<Job>>>
    var injectors: seq<seq<Job>>

    ghost function Contents(): Queues
      reads this
    {
      Queues(localDeques, injectors)
    }

    constructor (workers: nat)
      ensures Contents() == QueuesOf(Initial(workers, 0, 0)) && Sized(Contents())
    {
      localDeques := seq(workers, _ => [[], [], []]);
      injectors := [[], [], []];
    }

    /** A pop of an owner's deque: the last job in, first out. */
    method Pop(w: nat, p: nat) returns (job: Option<Job>)
      requires Sized(Contents()) && w < |localDeques| && p < PRIORITIES
      modifies this`localDeques
      ensures var q := old(localDeques)[w][p];
        if q == [] then job == None && Contents() == old(Contents())
        else job == Some(q[|q| - 1]) && Contents() == WithDeque(old(Contents()), w, p, q[..|q| - 1])
    {
      var q := localDeques[w][p];
      if q == [] {
        return None;
      }
      localDeques := localDeques[w := localDeques[w][p := q[..|q| - 1]]];
      job := Some(q[|q| - 1]);
    }

    /** A theft that does not give up: the first job in, first out. */
    method Steal(w: nat, p: nat) returns (job: Option<Job>)
      requires Sized(Contents()) && w < |localDeques| && p < PRIORITIES
      modifies this`localDeques
      ensures var q := old(localDeques)[w][p];
        if q == [] then job == None && Contents() == old(Contents())
        else job == Some(q[0]) && Contents() == WithDeque(old(Contents()), w, p, q[1..])
    {
      var q := localDeques[w][p];
      if q == [] {
        return None;
      }
      localDeques := localDeques[w := localDeques[w][p := q[1..]]];
      job := Some(q[0]);
    }

    method PopBatchInto(w: nat, p: nat) returns (job: Option<Job>)
      requires Sized(Contents()) && w < |localDeques| && p < PRIORITIES
      modifies this
      ensures var q := old(injectors)[p];
        if q == [] then job == None && Contents() == old(Contents())
        else job == Some(q[0]) && Contents() == PullFrom(WithInjector(old(Contents()), p, q[1..]), w, p, 1)
      ensures old(injectors)[p] != [] ==>
        var rest, own := old(injectors)[p][1..], old(localDeques)[w][p];
        var n := Batch(|rest|, 1);
        Contents() == PutBoth(old(Contents()), w, p, rest[n..], own + rest[..n])
    {
      if injectors[p] == [] {
        return None;
      }
      ghost var start := WithInjector(Contents(), p, injectors[p][1..]);
      PullTakes(start, w, p, 1);
      job := Some(injectors[p][0]);
      injectors := injectors[p := injectors[p][1..]];
      var moved := 1;
      while moved < BATCH_SIZE && injectors[p] != []
        invariant Sized(Contents()) && w < |localDeques|
        invariant PullFrom(Contents(), w, p, moved) == PullFrom(start, w, p, 1)
        decreases BATCH_SIZE - moved
      {
        localDeques := localDeques[w := localDeques[w][p := localDeques[w][p] + [injectors[p][0]]]];
        injectors := injectors[p := injectors[p][1..]];
        moved := moved + 1;
      }
    }

    /** The third stage. */
    method StealTask(w: nat) returns (found: Option<(Job, nat, FoundKind)>)
      requires Sized(Contents()) && w < |localDeques|
      modifies this`localDeques
      ensures Outcome(found, Contents()) == StealFrom(old(Contents()), w, 0, 0)
    {
      ghost var q := Contents();
      for p := 0 to PRIORITIES
        invariant Contents() == q && StealFrom(q, w, p, 0) == StealFrom(q, w, 0, 0)
      {
        for peer := 0 to |localDeques|
          invariant Contents() == q && StealFrom(q, w, p, peer) == StealFrom(q, w, 0, 0)
        {
          if peer == w {
            continue;
          }
          var job := Steal(peer, p);
          if job.Some? {
            return Some((job.value, p, FromPeer));
          }
        }
      }
      found := None;
    }

    /** The three-stage search, by the queues it found. */
    method FindTask(w: nat) returns (found: Option<(Job, nat, FoundKind)>)
      requires Sized(Contents()) && w < |localDeques|
      modifies this
      ensures Outcome(found, Contents()) == LocalFrom(old(Contents()), w, 0)
      ensures Finds(old(Contents()), w, found)
    {
      ghost var q := Contents();
      LocalFinds(q, w, 0);
      for p := 0 to PRIORITIES
        invariant Contents() == q && LocalFrom(q, w, p) == LocalFrom(q, w, 0)
      {
        var job := Pop(w, p);
        if job.Some? {
          return Some((job.value, p, Own));
        }
      }
      for p := 0 to PRIORITIES
        invariant Contents() == q && InjectFrom(q, w, p) == LocalFrom(q, w, 0)
      {
        var job := PopBatchInto(w, p);
        if job.Some? {
          return Some((job.value, p, Own));
        }
      }
      found := StealTask(w);
    }
  }
}
