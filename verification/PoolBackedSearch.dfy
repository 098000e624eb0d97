/** The undisturbed search on Chase-Lev deques: it finds what `find_task` finds. */
module PoolBackedSearch {
  import opened Options
  import opened RingIndex
  import D = DequeProtocol
  import DP = DequeProof
  import DT = DequeTheorems
  import opened Pool
  import opened PoolProof
  import opened PoolTheorems
  import opened PoolSearch
  import opened PoolOnDeques
  import opened PoolRefinement
  import opened PoolBacked
  import opened PoolAccess
  import PP = PoolProgress

  // Undisturbed thefts

  /** What thief `k` has read of `top`, if anything, still holds. */
  predicate Fresh(d: D.State, k: nat)
    requires k < |d.thieves|
  {
    d.thieves[k].Idle? || d.thieves[k].Take? || d.thieves[k].t == d.top
  }

  /** An undisturbed theft gives up only on an empty queue. */
  lemma {:induction false} TheftFailsOnEmpty(d: D.State, k: nat)
    requires DP.Inv(d) && k < |d.thieves| && !DT.Contested(d) && Fresh(d, k) && D.ThiefStep(d, k).1 == D.GaveUp
    ensures D.Queue(d) == []
  {
    DT.GivingUpOnAnItem(d, k);
  }

  lemma {:induction false} TheftStaysFresh(d: D.State, k: nat)
    requires k < |d.thieves| && Fresh(d, k)
    ensures var d' := D.ThiefStep(d, k).0;
      k < |d'.thieves| && Fresh(d', k) && (DT.Contested(d') ==> DT.Contested(d) || d'.thieves[k].Take? || d.thieves[k].Take?)
  {
  }

  /** No pop contests the one item of the deque, unless worker `k` has its job from it already. */
  predicate DequeClear(c: Concrete, k: nat, w: nat, p: nat)
    requires Fits(c) && k < |c.own| && w < |c.own| && p < PRIORITIES
  {
    var d := c.own[w][p].deque;
    (w != k ==> !DT.Contested(d) || d.thieves[k].Take?) && Fresh(d, k)
  }

  /** No mutex is held, but perhaps by worker `k` for its pull. */
  predicate MutexesClear(s: State, k: nat)
    requires Shape(s) && k < |s.threads|
  {
    forall p :: 0 <= p < PRIORITIES ==> s.holder[p] == None || (s.threads[k].Pulling? && s.threads[k].p == p)
  }

  /** Nobody is in worker `k`'s way. */
  predicate Clear(c: Concrete, k: nat)
    requires Fits(c) && k < |c.own|
  {
    && MutexesClear(c.pool, k)
    && (forall w, p :: 0 <= w < |c.own| && 0 <= p < PRIORITIES ==> DequeClear(c, k, w, p))
  }

  lemma {:induction false} ClearAfter(c: Concrete, c': Concrete, k: nat, w: nat, p: nat)
    requires Fits(c) && Fits(c') && k < |c.own| && w < |c.own| && p < PRIORITIES && Differs(c, c', k, w, p) && Clear(c, k)
    requires DequeClear(c', k, w, p) && MutexesClear(c'.pool, k)
    ensures Clear(c', k)
  {
    forall v, q | 0 <= v < |c'.own| && 0 <= q < PRIORITIES ensures DequeClear(c', k, v, q) {
      assert DequeClear(c, k, v, q);
    }
  }

  lemma {:induction false} PopStaysClear(c: Concrete, k: nat, gen: nat, p: nat)
    requires Fits(c) && AllFit(c) && k < |c.own| && Clear(c, k) && c.pool.threads[k] == Local(gen, p) && p < PRIORITIES
    ensures Fits(PopStep(c, k, gen, p)) && Clear(PopStep(c, k, gen, p), k)
  {
    var e := PopAccess(c, k, gen, p);
    assert DequeFits(c, k, p) && ThiefFits(c.own[k][p], c.pool.threads[k], k, k, p);
    PopMoves(c.own[k][p].deque);
    ClearAfter(c, PopStep(c, k, gen, p), k, k, p);
  }

  lemma {:induction false} PushStaysClear(c: Concrete, k: nat, p: nat, first: Job, moved: nat)
    requires Fits(c) && AllFit(c) && k < |c.own| && Clear(c, k) && c.pool.threads[k] == Pulling(p, first, moved)
    requires p < PRIORITIES && moved < BATCH_SIZE && c.pool.injectors[p] != []
    ensures Fits(PushStep(c, k, p, first, moved)) && Clear(PushStep(c, k, p, first, moved), k)
  {
    var e := PushAccess(c, k, p, first, moved);
    assert DequeFits(c, k, p) && ThiefFits(c.own[k][p], c.pool.threads[k], k, k, p);
    PushMoves(c.own[k][p].deque);
    PushFits(c, k, p, first, moved);
    ClearAfter(c, PushStep(c, k, p, first, moved), k, k, p);
  }

  lemma {:induction false} StealStaysClear(c: Concrete, k: nat, gen: nat, p: nat, peer: nat)
    requires Fits(c) && AllFit(c) && k < |c.own| && Clear(c, k) && c.pool.threads[k] == Stealing(gen, p, peer)
    requires p < PRIORITIES && peer < |c.own| && peer != k
    ensures Fits(StealStep(c, k, gen, p, peer)) && k < |StealStep(c, k, gen, p, peer).pool.threads|
    ensures Searching(StealStep(c, k, gen, p, peer).pool.threads[k]) ==> Clear(StealStep(c, k, gen, p, peer), k)
  {
    var c' := StealStep(c, k, gen, p, peer);
    var e := StealAccess(c, k, gen, p, peer);
    assert DequeClear(c, k, peer, p) && DequeFits(c, peer, p);
    TheftStaysFresh(c.own[peer][p].deque, k);
    ThiefMoves(c.own[peer][p].deque, k);
    if Searching(c'.pool.threads[k]) { ClearAfter(c, c', k, peer, p); }
  }

  lemma {:induction false} OffStaysClear(c: Concrete, k: nat, choice: Choice)
    requires Fits(c) && Shape(Abs(c)) && k < |c.own| && Clear(c, k) && !OnDeque(c, k) && Searching(c.pool.threads[k])
    ensures Fits(CStep(c, k, choice)) && Clear(CStep(c, k, choice), k)
  {
    OffFits(c, k, choice);
    SearchKeeps(c.pool, k, choice);
    SearchHolder(c.pool, k, choice);
    var c' := CStep(c, k, choice);
    forall v, q | 0 <= v < |c'.own| && 0 <= q < PRIORITIES ensures DequeClear(c', k, v, q) {
      assert DequeClear(c, k, v, q);
    }
  }

  // The undisturbed worker takes no step of `Pool` but the one it would take there alone

  lemma PoolPasses(a: State, k: nat, gen: nat, p: nat, peer: nat)
    requires Shape(a) && k < |a.deques| && a.threads[k] == Stealing(gen, p, peer) && p < PRIORITIES
    requires peer < |a.deques| && peer != k && a.deques[peer][p] == []
    ensures Step(a, k, GIVING_UP) == Step(a, k, ALONE)
  {
  }

  /** One access or step of a search, undisturbed: nothing in `Pool` yet, or what `Pool`'s worker does alone. */
  predicate GoesOn(c: Concrete, c': Concrete, k: nat)
    requires Fits(c) && Fits(c') && k < |c.own| && Shape(Abs(c))
  {
    && |c'.pool.threads| == |c.pool.threads| && |c'.own| == |c.own| && (Searching(c'.pool.threads[k]) ==> Clear(c', k))
    && ((Abs(c') == Abs(c) && Left(c', k) < Left(c, k)) || (Abs(c') != Abs(c) && Abs(c') == Step(Abs(c), k, ALONE)))
  }

  lemma {:induction false} StealGoesOn(c: Concrete, k: nat, gen: nat, p: nat, peer: nat)
    requires Fits(c) && AllFit(c) && Shape(Abs(c)) && k < |c.own| && Clear(c, k) && c.pool.threads[k] == Stealing(gen, p, peer)
    requires p < PRIORITIES && peer < |c.own| && peer != k
    ensures Fits(StealStep(c, k, gen, p, peer)) && GoesOn(c, StealStep(c, k, gen, p, peer), k)
  {
    StealStaysClear(c, k, gen, p, peer);
    StealComes(c, k, gen, p, peer);
    StealRefines(c, k, gen, p, peer);
    StealPc(c, k, gen, p, peer);
    StealIsPlain(c, k, gen, p, peer);
  }

  /** Its giving up is the passing-by of an empty deque. */
  lemma {:induction false} StealIsPlain(c: Concrete, k: nat, gen: nat, p: nat, peer: nat)
    requires Fits(c) && AllFit(c) && Shape(Abs(c)) && k < |c.own| && Clear(c, k) && c.pool.threads[k] == Stealing(gen, p, peer)
    requires p < PRIORITIES && peer < |c.own| && peer != k && Fits(StealStep(c, k, gen, p, peer))
    ensures var a' := Abs(StealStep(c, k, gen, p, peer));
      a' == Step(Abs(c), k, GIVING_UP) && a' != Abs(c) ==> a' == Step(Abs(c), k, ALONE)
  {
    var e := D.ThiefStep(c.own[peer][p].deque, k).1;
    if e == D.GaveUp {
      EmptyIsPassed(c, k, gen, p, peer);
    } else if e.Stole? {
      StolenIsNotPassed(c, k, gen, p, peer);
    } else {
      StealSame(c, k, gen, p, peer);
    }
  }

  lemma {:induction false} EmptyIsPassed(c: Concrete, k: nat, gen: nat, p: nat, peer: nat)
    requires Fits(c) && AllFit(c) && Shape(Abs(c)) && k < |c.own| && Clear(c, k) && c.pool.threads[k] == Stealing(gen, p, peer)
    requires p < PRIORITIES && peer < |c.own| && peer != k && D.ThiefStep(c.own[peer][p].deque, k).1 == D.GaveUp
    ensures Step(Abs(c), k, GIVING_UP) == Step(Abs(c), k, ALONE)
  {
    assert DequeFits(c, peer, p) && DequeClear(c, k, peer, p);
    AbsDequeAt(c, peer, p);
    ThiefMoves(c.own[peer][p].deque, k);
    TheftFailsOnEmpty(c.own[peer][p].deque, k);
    assert Abs(c).threads[k] == AbsPc(c, k);
    PoolPasses(Abs(c), k, gen, p, peer);
  }

  lemma {:induction false} StolenIsNotPassed(c: Concrete, k: nat, gen: nat, p: nat, peer: nat)
    requires Fits(c) && AllFit(c) && Shape(Abs(c)) && k < |c.own| && c.pool.threads[k] == Stealing(gen, p, peer)
    requires p < PRIORITIES && peer < |c.own| && peer != k && D.ThiefStep(c.own[peer][p].deque, k).1.Stole?
    requires Fits(StealStep(c, k, gen, p, peer))
    ensures Abs(StealStep(c, k, gen, p, peer)) != Step(Abs(c), k, GIVING_UP)
  {
    StealPc(c, k, gen, p, peer);
    assert DequeFits(c, peer, p);
    ThiefMoves(c.own[peer][p].deque, k);
    assert Abs(StealStep(c, k, gen, p, peer)).threads[k] == AbsPc(StealStep(c, k, gen, p, peer), k);
    assert Abs(c).threads[k] == AbsPc(c, k);
    PoolGivesUp(Abs(c), k, gen, p, peer);
  }

  lemma {:induction false} PopIsPlain(a: State, k: nat, choice: Choice)
    requires Shape(a) && k < |a.deques| && !a.threads[k].Stealing? && Searching(a.threads[k])
    ensures Step(a, k, choice) == Step(a, k, ALONE)
  {
    SearchKeeps(a, k, choice);
    SearchKeeps(a, k, ALONE);
  }

  lemma {:induction false} PopGoesOn(c: Concrete, k: nat, gen: nat, p: nat)
    requires Fits(c) && AllFit(c) && Shape(Abs(c)) && k < |c.own| && Clear(c, k) && c.pool.threads[k] == Local(gen, p)
    requires p < PRIORITIES
    ensures Fits(PopStep(c, k, gen, p)) && GoesOn(c, PopStep(c, k, gen, p), k)
  {
    PopStaysClear(c, k, gen, p);
    PopComes(c, k, gen, p);
    PopPc(c, k, gen, p);
    assert Abs(c).threads[k] == AbsPc(c, k);
    if AbsPc(c, k).Local? {
      PopIsPlain(Abs(c), k, GIVING_UP);
    } else {
      PopSame(c, k, gen, p);
    }
  }

  lemma {:induction false} PushGoesOn(c: Concrete, k: nat, p: nat, first: Job, moved: nat)
    requires Fits(c) && AllFit(c) && Shape(Abs(c)) && k < |c.own| && Clear(c, k) && c.pool.threads[k] == Pulling(p, first, moved)
    requires p < PRIORITIES && moved < BATCH_SIZE && c.pool.injectors[p] != [] && Small(c.own[k][p])
    ensures Fits(PushStep(c, k, p, first, moved)) && GoesOn(c, PushStep(c, k, p, first, moved), k)
  {
    PushStaysClear(c, k, p, first, moved);
    PushComes(c, k, p, first, moved);
    assert Abs(c).threads[k] == AbsPc(c, k);
    PopIsPlain(Abs(c), k, GIVING_UP);
  }

  lemma {:induction false} OffGoesOn(c: Concrete, k: nat)
    requires Fits(c) && AllFit(c) && Shape(Abs(c)) && k < |c.own| && Clear(c, k) && !OnDeque(c, k) && Searching(c.pool.threads[k])
    ensures Fits(CStep(c, k, ALONE)) && GoesOn(c, CStep(c, k, ALONE), k)
  {
    OffStaysClear(c, k, ALONE);
    OffRefines(c, k, ALONE);
    OffPc(c, k);
    assert Abs(c).threads[k] == c.pool.threads[k];
    SearcherGoes(Abs(c), k);
    StepThreads(c.pool, k, ALONE);
  }

  lemma {:induction false} SearcherGoes(a: State, k: nat)
    requires Shape(a) && k < |a.deques| && Searching(a.threads[k])
    requires MutexesClear(a, k)
    ensures Step(a, k, ALONE) != a
  {
    SearchKeeps(a, k, ALONE);
    assert PcShape(a.threads[k]);
    assert SearchStep(a, k, ALONE).threads[k] != a.threads[k];
  }

  lemma {:induction false} SearchGoesOn(c: Concrete, k: nat)
    requires Fits(c) && AllFit(c) && AllSmall(c) && Shape(Abs(c)) && k < |c.own| && Clear(c, k) && Searching(c.pool.threads[k])
    ensures Fits(CStep(c, k, ALONE)) && GoesOn(c, CStep(c, k, ALONE), k)
  {
    if !OnDeque(c, k) {
      OffGoesOn(c, k);
    } else {
      CStepIs(c, k, ALONE);
      match c.pool.threads[k]
      case Local(gen, p) => PopGoesOn(c, k, gen, p);
      case Pulling(p, first, moved) =>
        assert Small(c.own[k][p]);
        PushGoesOn(c, k, p, first, moved);
      case Stealing(gen, p, peer) => StealGoesOn(c, k, gen, p, peer);
    }
  }

  // What the search is bound to find

  /** A job and its priority, or none, and the queues then. */
  datatype Verdict = Verdict(found: Option<(Job, nat)>, queues: Queues)

  function VerdictOf(o: Outcome): Verdict
  {
    Verdict(match o.found case Some(f) => Some((f.0, f.1)) case None => None, o.queues)
  }

  /** Where a worker's search ends that goes on undisturbed from here. */
  function Bound(a: State, k: nat): Verdict
    requires Shape(a) && k < |a.deques|
  {
    assert PcShape(a.threads[k]);
    var q := QueuesOf(a);
    match a.threads[k]
    case Local(_, p) => VerdictOf(LocalFrom(q, k, p))
    case Inject(_, p) => VerdictOf(InjectFrom(q, k, p))
    case Pulling(p, first, moved) => Verdict(Some((first, p)), PullFrom(q, k, p, moved))
    case Stealing(_, p, peer) => VerdictOf(StealFrom(q, k, p, if peer < |a.deques| then peer else |a.deques|))
    case Found(job, p) => Verdict(Some((job, p)), q)
    case _ => Verdict(None, q)
  }

  lemma {:induction false} LocalBound(a: State, k: nat)
    requires Shape(a) && k < |a.deques| && a.threads[k].Local?
    ensures Shape(Step(a, k, ALONE)) && Bound(Step(a, k, ALONE), k) == Bound(a, k)
  {
    StepShape(a, k, ALONE);
    assert PcShape(a.threads[k]);
  }

  lemma {:induction false} InjectBound(a: State, k: nat)
    requires Shape(a) && k < |a.deques| && a.threads[k].Inject? && MutexesClear(a, k)
    ensures Shape(Step(a, k, ALONE)) && Bound(Step(a, k, ALONE), k) == Bound(a, k)
  {
    StepShape(a, k, ALONE);
    assert PcShape(a.threads[k]);
  }

  lemma {:induction false} PullBound(a: State, k: nat)
    requires Shape(a) && k < |a.deques| && a.threads[k].Pulling?
    ensures Shape(Step(a, k, ALONE)) && Bound(Step(a, k, ALONE), k) == Bound(a, k)
  {
    StepShape(a, k, ALONE);
    assert PcShape(a.threads[k]);
  }

  lemma {:induction false} StealBound(a: State, k: nat)
    requires Shape(a) && k < |a.deques| && a.threads[k].Stealing?
    ensures Shape(Step(a, k, ALONE)) && Bound(Step(a, k, ALONE), k) == Bound(a, k)
  {
    StepShape(a, k, ALONE);
    assert PcShape(a.threads[k]);
  }

  lemma {:induction false} BoundKept(a: State, k: nat)
    requires Shape(a) && k < |a.deques| && Searching(a.threads[k]) && MutexesClear(a, k)
    ensures Shape(Step(a, k, ALONE)) && Bound(Step(a, k, ALONE), k) == Bound(a, k)
  {
    match a.threads[k]
    case Local(_, _) => LocalBound(a, k);
    case Inject(_, _) => InjectBound(a, k);
    case Pulling(_, _, _) => PullBound(a, k);
    case Stealing(_, _, _) => StealBound(a, k);
  }

  // The search, to its end

  predicate AloneAt(h: seq<Concrete>, i: nat, k: nat)
    requires i + 1 < |h|
  {
    Fits(h[i]) && h[i + 1] == CStep(h[i], k, ALONE)
  }

  /** The states of a run of worker `k` by itself. */
  predicate Alone(h: seq<Concrete>, k: nat)
  {
    |h| > 0 && forall i :: 0 <= i < |h| - 1 ==> AloneAt(h, i, k)
  }

  lemma SameAlone(h: seq<Concrete>, i: nat, g: seq<Concrete>, j: nat, k: nat)
    requires i + 1 < |h| && j + 1 < |g| && h[i] == g[j] && h[i + 1] == g[j + 1] && AloneAt(h, i, k)
    ensures AloneAt(g, j, k)
  {
  }

  lemma {:induction false} AlonePrepend(c: Concrete, h: seq<Concrete>, k: nat)
    requires Alone(h, k) && Alone([c, h[0]], k)
    ensures Alone([c] + h, k)
  {
    var g := [c] + h;
    assert AloneAt([c, h[0]], 0, k);
    forall j | 0 <= j < |g| - 1 ensures AloneAt(g, j, k) {
      if j > 0 { SameAlone(h, j - 1, g, j, k); } else { SameAlone([c, h[0]], 0, g, 0, k); }
    }
  }

  /** The place in `Pool` of a worker that is searching: it may have found what it has yet to return. */
  predicate AbsSearches(c: Concrete, k: nat)
    requires Fits(c) && k < |c.own|
  {
    Searching(AbsPc(c, k)) || AbsPc(c, k).Found?
  }

  lemma {:induction false} SearcherAbs(c: Concrete, k: nat)
    requires Fits(c) && k < |c.own| && Searching(c.pool.threads[k])
    ensures AbsSearches(c, k)
  {
  }

  /** How far the end is: first in `Pool`, then in accesses. */
  function Distance(c: Concrete, k: nat): nat
    requires Fits(c) && k < |c.own|
  {
    PP.Far(AbsPc(c, k), |c.own|, c.pool.gen)
  }

  /** A search that has found its job in `Pool` only returns it. */
  lemma {:induction false} FoundReturns(c: Concrete, k: nat)
    requires CInv(c) && k < |c.own| && Searching(c.pool.threads[k]) && AbsPc(c, k).Found?
    ensures Fits(CStep(c, k, ALONE)) && Abs(CStep(c, k, ALONE)) == Abs(c)
  {
    if !OnDeque(c, k) { OffPc(c, k); }
    CStepIs(c, k, ALONE);
    match c.pool.threads[k]
    case Local(gen, p) =>
      PopRefines(c, k, gen, p);
      PopPc(c, k, gen, p);
      PopSame(c, k, gen, p);
    case Stealing(gen, p, peer) =>
      StealRefines(c, k, gen, p, peer);
      StealPc(c, k, gen, p, peer);
      StealSame(c, k, gen, p, peer);
    case _ =>
  }

  /** The search is over, with the job that was bound to be found, or with none. */
  predicate EndsWith(t: Concrete, k: nat, v: Verdict)
    requires Fits(t)
  {
    && k < |t.pool.threads| && QueuesOf(Abs(t)) == v.queues
    && match v.found case Some(f) => t.pool.threads[k] == Found(f.0, f.1) case None => t.pool.threads[k].CheckFlag?
  }

  lemma {:induction false} EndIsBound(c: Concrete, k: nat)
    requires CInv(c) && k < |c.own| && (c.pool.threads[k].Found? || c.pool.threads[k].CheckFlag?)
    ensures EndsWith(c, k, Bound(Abs(c), k))
  {
    OffPc(c, k);
    assert Abs(c).threads[k] == c.pool.threads[k];
  }

  lemma {:induction false} SearchLeadsOn(c: Concrete, k: nat)
    requires Fits(c) && k < |c.own| && Searching(c.pool.threads[k])
    ensures k < |CStep(c, k, ALONE).pool.threads|
    ensures var pc := CStep(c, k, ALONE).pool.threads[k]; Searching(pc) || pc.Found? || pc.CheckFlag?
  {
    if OnDeque(c, k) { CStepIs(c, k, ALONE); } else { SearchKeeps(c.pool, k, ALONE); }
  }

  /** What one step of an undisturbed search that changes `Pool`'s state brings nearer. */
  lemma {:induction false} AbsStepsOn(c: Concrete, c': Concrete, k: nat)
    requires CInv(c) && k < |c.own| && Clear(c, k) && Searching(AbsPc(c, k))
    requires Fits(c') && |c'.own| == |c.own| && Shape(Abs(c')) && Abs(c') == Step(Abs(c), k, ALONE) && Abs(c') != Abs(c)
    ensures Bound(Abs(c'), k) == Bound(Abs(c), k) && Distance(c', k) < Distance(c, k)
  {
    var a := Abs(c);
    assert a.threads[k] == AbsPc(c, k) && Abs(c').threads[k] == AbsPc(c', k);
    HoldersAlike(c, k);
    BoundKept(a, k);
    SearchKeeps(a, k, ALONE);
    PP.SearcherNears(a, k, ALONE);
  }

  lemma HoldersAlike(c: Concrete, k: nat)
    requires Fits(c) && Shape(Abs(c)) && k < |c.own| && Clear(c, k)
    ensures MutexesClear(Abs(c), k)
  {
    assert Abs(c).threads[k] == AbsPc(c, k);
  }

  lemma OneAlone(c: Concrete, k: nat)
    requires Fits(c)
    ensures Alone([c, CStep(c, k, ALONE)], k)
  {
    assert AloneAt([c, CStep(c, k, ALONE)], 0, k);
  }

  /** One step of an undisturbed search. */
  lemma {:induction false} StepOnTheWay(c: Concrete, k: nat)
    requires CInv(c) && k < |c.own| && Clear(c, k) && Searching(c.pool.threads[k])
    ensures var c' := CStep(c, k, ALONE); Fits(c') && GoesOn(c, c', k) && (AbsPc(c, k).Found? ==> Abs(c') == Abs(c))
  {
    SearchGoesOn(c, k);
    if AbsPc(c, k).Found? { FoundReturns(c, k); }
  }

  /** What it keeps and what it brings nearer. */
  lemma {:induction false} NearerTheEnd(c: Concrete, c': Concrete, k: nat)
    requires CInv(c) && CInv(c') && k < |c.own| && Clear(c, k) && Searching(c.pool.threads[k]) && GoesOn(c, c', k)
    requires AbsPc(c, k).Found? ==> Abs(c') == Abs(c)
    ensures Bound(Abs(c'), k) == Bound(Abs(c), k)
    ensures Distance(c', k) < Distance(c, k) || (Distance(c', k) == Distance(c, k) && Left(c', k) < Left(c, k))
  {
    var a, a' := Abs(c), Abs(c');
    assert a.threads[k] == AbsPc(c, k) && a'.threads[k] == AbsPc(c', k);
    if a' == a {
      assert c'.pool.gen == a'.gen == a.gen == c.pool.gen;
    } else {
      SearcherAbs(c, k);
      AbsStepsOn(c, c', k);
    }
  }

  /** A state on the way, with what is to come of it and how far that is. */
  datatype Stage = Stage(c: Concrete, far: nat, left: nat)

  ghost predicate OnTheWay(g: Stage, k: nat, v: Verdict)
  {
    && CInv(g.c) && k < |g.c.own| && Clear(g.c, k) && Searching(g.c.pool.threads[k])
    && Bound(Abs(g.c), k) == v && Distance(g.c, k) == g.far && Left(g.c, k) == g.left
  }

  ghost predicate AllOnTheWay(gs: seq<Stage>, k: nat, v: Verdict)
  {
    forall i {:trigger OnTheWay(gs[i], k, v)} :: 0 <= i < |gs| ==> OnTheWay(gs[i], k, v)
  }

  predicate Done(t: Concrete, k: nat, v: Verdict)
  {
    Fits(t) && EndsWith(t, k, v)
  }

  /** One step of the search from `c` has led to `t`. */
  predicate Follows(c: Concrete, t: Concrete, k: nat)
  {
    && Fits(c) && Fits(t) && k < |c.own| && Shape(Abs(c)) && GoesOn(c, t, k) && (AbsPc(c, k).Found? ==> Abs(t) == Abs(c))
  }

  predicate AllFollow(gs: seq<Stage>, ts: seq<Concrete>, k: nat)
    requires |gs| == |ts|
  {
    forall i {:trigger Follows(gs[i].c, ts[i], k)} :: 0 <= i < |gs| ==> Follows(gs[i].c, ts[i], k)
  }

  ghost predicate AllInv(ts: seq<Concrete>)
  {
    forall i {:trigger CInv(ts[i])} :: 0 <= i < |ts| ==> CInv(ts[i])
  }

  lemma {:induction false} StageNears(gs: seq<Stage>, ts: seq<Concrete>, k: nat, v: Verdict)
    requires |gs| == |ts| == 1 && AllOnTheWay(gs, k, v) && AllInv(ts) && AllFollow(gs, ts, k)
    ensures var t := ts[0];
      && Fits(t) && Shape(Abs(t)) && k < |t.own| && Bound(Abs(t), k) == v && (Searching(t.pool.threads[k]) ==> Clear(t, k))
      && (Distance(t, k) < gs[0].far || (Distance(t, k) == gs[0].far && Left(t, k) < gs[0].left))
  {
    assert OnTheWay(gs[0], k, v) && CInv(ts[0]) && Follows(gs[0].c, ts[0], k);
    NearerTheEnd(gs[0].c, ts[0], k);
  }

  lemma {:induction false} NearerStage(gs: seq<Stage>, ts: seq<Concrete>, k: nat, v: Verdict) returns (next: seq<Stage>)
    requires |gs| == |ts| == 1 && AllOnTheWay(gs, k, v) && AllInv(ts) && AllFollow(gs, ts, k)
    requires k < |ts[0].pool.threads| && Searching(ts[0].pool.threads[k])
    ensures |next| == 1 && AllOnTheWay(next, k, v) && next[0].c == ts[0]
    ensures next[0].far < gs[0].far || (next[0].far == gs[0].far && next[0].left < gs[0].left)
  {
    StageNears(gs, ts, k, v);
    assert CInv(ts[0]);
    next := [Stage(ts[0], Distance(ts[0], k), Left(ts[0], k))];
  }

  lemma {:induction false} LastStage(gs: seq<Stage>, ts: seq<Concrete>, k: nat, v: Verdict)
    requires |gs| == |ts| == 1 && AllOnTheWay(gs, k, v) && AllInv(ts) && AllFollow(gs, ts, k)
    requires k < |ts[0].pool.threads| && (ts[0].pool.threads[k].Found? || ts[0].pool.threads[k].CheckFlag?)
    ensures Done(ts[0], k, v)
  {
    StageNears(gs, ts, k, v);
    assert CInv(ts[0]);
    EndIsBound(ts[0], k);
  }

  lemma StageFits(gs: seq<Stage>, k: nat, v: Verdict)
    requires |gs| == 1 && AllOnTheWay(gs, k, v)
    ensures Fits(gs[0].c)
  {
    assert OnTheWay(gs[0], k, v);
  }

  lemma {:induction false} StageKeepsInv(gs: seq<Stage>, ts: seq<Concrete>, k: nat, v: Verdict)
    requires |gs| == 1 && AllOnTheWay(gs, k, v) && Fits(gs[0].c) && ts == [CStep(gs[0].c, k, ALONE)]
    ensures AllInv(ts)
  {
    assert OnTheWay(gs[0], k, v);
    StepCInv(gs[0].c, k, ALONE);
  }

  lemma {:induction false} StageFollows(gs: seq<Stage>, ts: seq<Concrete>, k: nat, v: Verdict)
    requires |gs| == 1 && AllOnTheWay(gs, k, v) && Fits(gs[0].c) && ts == [CStep(gs[0].c, k, ALONE)]
    ensures AllFollow(gs, ts, k)
  {
    assert OnTheWay(gs[0], k, v);
    StepOnTheWay(gs[0].c, k);
  }

  lemma {:induction false} StageLeadsOn(gs: seq<Stage>, ts: seq<Concrete>, k: nat, v: Verdict)
    requires |gs| == 1 && AllOnTheWay(gs, k, v) && Fits(gs[0].c) && ts == [CStep(gs[0].c, k, ALONE)]
    ensures k < |ts[0].pool.threads|
    ensures var pc := ts[0].pool.threads[k]; Searching(pc) || pc.Found? || pc.CheckFlag?
  {
    assert OnTheWay(gs[0], k, v);
    SearchLeadsOn(gs[0].c, k);
  }

  lemma {:induction false} StageSteps(gs: seq<Stage>, k: nat, v: Verdict) returns (ts: seq<Concrete>)
    requires |gs| == 1 && AllOnTheWay(gs, k, v)
    ensures |ts| == 1 && Alone([gs[0].c, ts[0]], k) && AllInv(ts) && AllFollow(gs, ts, k) && k < |ts[0].pool.threads|
    ensures var pc := ts[0].pool.threads[k]; Searching(pc) || pc.Found? || pc.CheckFlag?
  {
    StageFits(gs, k, v);
    ts := [CStep(gs[0].c, k, ALONE)];
    StageKeepsInv(gs, ts, k, v);
    StageFollows(gs, ts, k, v);
    StageLeadsOn(gs, ts, k, v);
    OneAlone(gs[0].c, k);
  }

  /** One step on the way: to the end, or to a stage nearer to it. */
  lemma {:induction false} NextStage(gs: seq<Stage>, k: nat, v: Verdict) returns (t: Concrete, next: seq<Stage>)
    requires |gs| == 1 && AllOnTheWay(gs, k, v)
    ensures Alone([gs[0].c, t], k)
    ensures if next == [] then Done(t, k, v)
      else
        && |next| == 1 && AllOnTheWay(next, k, v) && next[0].c == t
        && (next[0].far < gs[0].far || (next[0].far == gs[0].far && next[0].left < gs[0].left))
  {
    var ts := StageSteps(gs, k, v);
    t := ts[0];
    if Searching(t.pool.threads[k]) {
      next := NearerStage(gs, ts, k, v);
    } else {
      LastStage(gs, ts, k, v);
      next := [];
    }
  }

  lemma {:induction false} StagesEnd(gs: seq<Stage>, k: nat, v: Verdict) returns (h: seq<Concrete>)
    requires |gs| == 1 && AllOnTheWay(gs, k, v)
    ensures Alone(h, k) && h[0] == gs[0].c && Done(h[|h| - 1], k, v)
    decreases gs[0].far, gs[0].left
  {
    var t, next := NextStage(gs, k, v);
    if next == [] {
      h := [t];
    } else {
      h := StagesEnd(next, k, v);
    }
    AlonePrepend(gs[0].c, h, k);
    h := [gs[0].c] + h;
  }

  /**
   The undisturbed search on Chase-Lev deques ends, in a number of the worker's own accesses, with the job and the queues
   that were bound to come of it, wherever in the search, and in whichever operation, it starts.
   */
  lemma {:induction false} SearchEnds(c: Concrete, k: nat) returns (h: seq<Concrete>)
    requires CInv(c) && k < |c.own| && Clear(c, k) && Searching(c.pool.threads[k])
    ensures Alone(h, k) && h[0] == c && Done(h[|h| - 1], k, Bound(Abs(c), k))
  {
    var v, g := Bound(Abs(c), k), Stage(c, Distance(c, k), Left(c, k));
    assert OnTheWay(g, k, v);
    h := StagesEnd([g], k, v);
  }

  /** From the beginning of the search: what `find_task` finds in the same queues. */
  lemma {:induction false} BackedSearchFinds(c: Concrete, k: nat, gen: nat) returns (h: seq<Concrete>)
    requires CReachable(c) && Fits(c) && k < |c.own| && Clear(c, k)
    requires c.pool.threads[k] == Local(gen, 0) && c.own[k][0].deque.owner.Resting?
    ensures Alone(h, k) && h[0] == c && Sized(QueuesOf(Abs(c))) && k < |Abs(c).deques|
    ensures Done(h[|h| - 1], k, VerdictOf(LocalFrom(QueuesOf(Abs(c)), k, 0)))
    ensures Finds(QueuesOf(Abs(c)), k, LocalFrom(QueuesOf(Abs(c)), k, 0).found)
  {
    BackedPoolRefinesPool(c);
    assert Abs(c).threads[k] == AbsPc(c, k) == Local(gen, 0);
    LocalFinds(QueuesOf(Abs(c)), k, 0);
    h := SearchEnds(c, k);
  }

  /**
   A theft succeeds: a worker about to steal from a peer that has a job, and that is not contesting it as its last one,
   comes by its own accesses alone to have found the peer's oldest job; the peer's deque has lost that job, and
   no queue has changed otherwise.
   */
  lemma {:induction false} TheftSucceeds(c: Concrete, k: nat, gen: nat, p: nat, peer: nat, x: Job, rest: seq<Job>)
      returns (h: seq<Concrete>)
    requires CReachable(c) && Fits(c) && k < |c.own| && Clear(c, k) && c.pool.threads[k] == Stealing(gen, p, peer)
    requires p < PRIORITIES && peer < |c.own| && peer != k && c.own[peer][p].deque.thieves[k].Idle?
    requires Jobs(c.own[peer][p]) == [x] + rest
    ensures Alone(h, k) && h[0] == c
    ensures var t := h[|h| - 1];
      && Fits(t) && |t.own| == |c.own| && k < |t.pool.threads| && t.pool.threads[k] == Found(x, p)
      && Jobs(t.own[peer][p]) == rest && t.pool.injectors == c.pool.injectors
      && forall w, q :: 0 <= w < |c.own| && 0 <= q < PRIORITIES && (w != peer || q != p) ==> Jobs(t.own[w][q]) == Jobs(c.own[w][q])
  {
    BackedPoolRefinesPool(c);
    TheftIsBound(c, k, gen, p, peer, x, rest);
    h := SearchEnds(c, k);
    TheftOutcome(c, h[|h| - 1], k, p, peer, x, rest);
  }

  lemma {:induction false} TheftIsBound(c: Concrete, k: nat, gen: nat, p: nat, peer: nat, x: Job, rest: seq<Job>)
    requires Fits(c) && Shape(Abs(c)) && k < |c.own| && c.pool.threads[k] == Stealing(gen, p, peer)
    requires p < PRIORITIES && peer < |c.own| && peer != k && c.own[peer][p].deque.thieves[k].Idle?
    requires Jobs(c.own[peer][p]) == [x] + rest
    ensures Sized(QueuesOf(Abs(c))) && peer < |Abs(c).deques|
    ensures Bound(Abs(c), k) == Verdict(Some((x, p)), WithDeque(QueuesOf(Abs(c)), peer, p, rest))
  {
    AbsDequeAt(c, peer, p);
    assert Abs(c).threads[k] == AbsPc(c, k) == Stealing(gen, p, peer);
    assert ([x] + rest)[1..] == rest;
  }

  lemma {:induction false} TheftOutcome(c: Concrete, t: Concrete, k: nat, p: nat, peer: nat, x: Job, rest: seq<Job>)
    requires Fits(c) && Fits(t) && Sized(QueuesOf(Abs(c))) && p < PRIORITIES && peer < |c.own|
    requires QueuesOf(Abs(t)) == WithDeque(QueuesOf(Abs(c)), peer, p, rest)
    ensures |t.own| == |c.own| && Jobs(t.own[peer][p]) == rest && t.pool.injectors == c.pool.injectors
    ensures forall w, q :: 0 <= w < |c.own| && 0 <= q < PRIORITIES && (w != peer || q != p) ==> Jobs(t.own[w][q]) == Jobs(c.own[w][q])
  {
    assert |Abs(t).deques| == |t.own| && |Abs(c).deques| == |c.own|;
    forall w, q | 0 <= w < |c.own| && 0 <= q < PRIORITIES
      ensures Jobs(t.own[w][q]) == if w == peer && q == p then rest else Jobs(c.own[w][q])
    {
      AbsDequeAt(c, w, q);
      AbsDequeAt(t, w, q);
    }
  }
}
