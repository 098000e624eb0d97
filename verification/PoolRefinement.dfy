/** The pool on Chase-Lev deques refines the pool on atomic deques. */
module PoolRefinement {
  import opened Options
  import opened RingIndex
  import D = DequeProtocol
  import DP = DequeProof
  import DT = DequeTheorems
  import opened Pool
  import opened PoolProof
  import opened PoolTheorems
  import opened PoolOnDeques

  // One access of a deque operation

  predicate Popping(o: D.Owner)
  {
    o.PopReadBuffer? || o.PopLowerBottom? || o.PopReadTop? || o.PopUndo? || o.PopReadSlot? || o.PopRestore? || o.PopCas? || o.PopTake?
  }

  /** A pop returns what it took, or nothing; and between taking effect and returning it holds on to that. */
  lemma {:induction false} PopMoves(s: D.State)
    requires DP.Inv(s) && (s.owner.Resting? || Popping(s.owner))
    ensures var (s', e) := D.OwnerStep(s, D.DoPop);
      && s'.thieves == s.thieves && s'.count == s.count && (s'.owner.Resting? || Popping(s'.owner))
      && match e
         case Popped(x) =>
           DP.OwnerClaim(s) == None && !s.owner.PopUndo? && DP.OwnerClaim(s') == Some(x) && Popping(s'.owner)
         case FoundEmpty =>
           DP.OwnerClaim(s) == DP.OwnerClaim(s') == None && !s.owner.PopUndo? && (s'.owner.PopUndo? || s'.owner == D.Resting(None))
         case Tau =>
           if s'.owner.Resting? then
             s'.owner.result == DP.OwnerClaim(s) && (s.owner.PopUndo? || DP.OwnerClaim(s).Some?)
           else DP.OwnerClaim(s') == DP.OwnerClaim(s) && !s.owner.PopUndo? && !s'.owner.PopUndo?
         case _ => false
  {
    DP.OwnerClaimChange(s, D.DoPop);
  }

  /** A push takes effect as it returns; the box it then publishes is the one it allocated. */
  lemma {:induction false} PushMoves(s: D.State)
    requires DP.Inv(s) && (s.owner.Resting? || DP.Pushing(s.owner))
    ensures var (s', e) := D.OwnerStep(s, D.DoPush);
      && s'.thieves == s.thieves && (s'.owner.Resting? || DP.Pushing(s'.owner))
      && s'.count == s.count + (if s.owner.PushWriteSlot? then 1 else 0)
      && (e == D.Tau || (e.Pushed? && s.owner.PushRaiseBottom? && e.box == s.owner.box))
      && (e.Pushed? <==> s'.owner.Resting?)
      && (s'.owner.PushRaiseBottom? <==> s.owner.PushWriteSlot?) && (s'.owner.PushRaiseBottom? ==> s'.owner.box == s.count)
  {
  }

  lemma {:induction false} ThiefMoves(s: D.State, k: nat)
    requires DP.Inv(s) && k < |s.thieves|
    ensures var (s', e) := D.ThiefStep(s, k);
      && s'.owner == s.owner && s'.count == s.count && |s'.thieves| == |s.thieves|
      && s'.thieves == s.thieves[k := s'.thieves[k]] && DP.OwnerClaim(s') == DP.OwnerClaim(s)
      && match e
         case Stole(x) => DP.ThiefClaim(s.thieves[k]) == None && s'.thieves[k] == D.Take(Some(x))
         case GaveUp => DP.ThiefClaim(s.thieves[k]) == None && s'.thieves[k] == D.Idle(None)
         case Tau =>
           if s'.thieves[k].Idle? then s'.thieves[k].result == DP.ThiefClaim(s.thieves[k]) && DP.ThiefClaim(s.thieves[k]).Some?
           else DP.ThiefClaim(s'.thieves[k]) == DP.ThiefClaim(s.thieves[k])
         case _ => false
  {
    DP.ThiefTop(s, k);
    assert DP.ThiefOk(s, s.thieves[k]);
  }

  // One deque and its jobs

  predicate Good(b: Backed)
  {
    DP.Inv(b.deque) && |b.items| == b.deque.count
  }

  /** `b'` knows the job of every box that `b` knows. */
  predicate ItemsGrow(b: Backed, b': Backed)
  {
    |b.items| <= |b'.items| && b'.items[..|b.items|] == b.items
  }

  lemma {:induction false} ItemKept(b: Backed, b': Backed, x: D.Box)
    requires ItemsGrow(b, b') && x < |b.items|
    ensures Item(b', x) == Item(b, x)
  {
    assert b'.items[..|b.items|][x] == b'.items[x];
  }

  /** Queued and claimed boxes are known. */
  lemma {:induction false} BoxesKnown(b: Backed, k: nat)
    requires Good(b) && k < |b.deque.thieves|
    ensures forall i :: 0 <= i < |D.Queue(b.deque)| ==> D.Queue(b.deque)[i] < |b.items|
    ensures DP.OwnerClaim(b.deque).Some? ==> DP.OwnerClaim(b.deque).value < |b.items|
    ensures DP.ThiefClaim(b.deque.thieves[k]).Some? ==> DP.ThiefClaim(b.deque.thieves[k]).value < |b.items|
  {
    var claims := DP.Claims(b.deque);
    assert claims[0] == DP.OwnerClaim(b.deque) && claims[k + 1] == DP.ThiefClaim(b.deque.thieves[k]);
  }

  lemma {:induction false} JobsPrefix(b: Backed, b': Backed, q: seq<D.Box>, x: D.Box)
    requires Good(b) && ItemsGrow(b, b')
    requires D.Queue(b.deque) == q + [x] && D.Queue(b'.deque) == q
    requires forall i :: 0 <= i < |q + [x]| ==> (q + [x])[i] < |b.items|
    ensures Jobs(b) == Jobs(b') + [Item(b, x)]
  {
    forall i | 0 <= i < |q| ensures Item(b', q[i]) == Item(b, q[i]) {
      assert (q + [x])[i] == q[i];
      ItemKept(b, b', q[i]);
    }
  }

  lemma {:induction false} JobsSuffix(b: Backed, b': Backed, q: seq<D.Box>, x: D.Box)
    requires Good(b) && ItemsGrow(b, b')
    requires D.Queue(b.deque) == [x] + q && D.Queue(b'.deque) == q
    requires forall i :: 0 <= i < |[x] + q| ==> ([x] + q)[i] < |b.items|
    ensures Jobs(b) == [Item(b, x)] + Jobs(b')
  {
    forall i | 0 <= i < |q| ensures Item(b', q[i]) == Item(b, q[i]) {
      assert ([x] + q)[i + 1] == q[i];
      ItemKept(b, b', q[i]);
    }
  }

  lemma {:induction false} JobsExtend(b: Backed, b': Backed, q: seq<D.Box>, x: D.Box)
    requires ItemsGrow(b, b') && D.Queue(b.deque) == q && D.Queue(b'.deque) == q + [x]
    requires forall i :: 0 <= i < |q| ==> q[i] < |b.items|
    ensures Jobs(b') == Jobs(b) + [Item(b', x)]
  {
    forall i | 0 <= i < |q| ensures Item(b', q[i]) == Item(b, q[i]) && (q + [x])[i] == q[i] {
      ItemKept(b, b', q[i]);
    }
  }

  lemma {:induction false} JobsSame(b: Backed, b': Backed, q: seq<D.Box>)
    requires ItemsGrow(b, b') && D.Queue(b.deque) == q && D.Queue(b'.deque) == q
    requires forall i :: 0 <= i < |q| ==> q[i] < |b.items|
    ensures Jobs(b') == Jobs(b)
  {
    forall i | 0 <= i < |q| ensures Item(b', q[i]) == Item(b, q[i]) {
      ItemKept(b, b', q[i]);
    }
  }

  /** What an atomic operation does to the jobs. */
  predicate JobsMove(b: Backed, e: D.Event, b': Backed)
  {
    match e
    case Tau => Jobs(b') == Jobs(b)
    case Pushed(x) => Jobs(b') == Jobs(b) + [Item(b', x)]
    case Popped(x) => Jobs(b) == Jobs(b') + [Item(b, x)]
    case FoundEmpty => Jobs(b) == [] && Jobs(b') == Jobs(b)
    case Stole(x) => Jobs(b) == [Item(b, x)] + Jobs(b')
    case GaveUp => Jobs(b') == Jobs(b)
  }

  lemma {:induction false} AtomicMovesJobs(b: Backed, e: D.Event, b': Backed)
    requires Good(b) && |b.deque.thieves| > 0 && ItemsGrow(b, b')
    requires D.AtomicStep(D.Queue(b.deque), e, D.Queue(b'.deque))
    ensures JobsMove(b, e, b')
  {
    BoxesKnown(b, 0);
    var q, q' := D.Queue(b.deque), D.Queue(b'.deque);
    match e
    case Pushed(x) => JobsExtend(b, b', q, x);
    case Popped(x) => JobsPrefix(b, b', q', x);
    case Stole(x) => JobsSuffix(b, b', q', x);
    case _ => JobsSame(b, b', q);
  }

  // The invariant

  /** An owner is inside an operation on its deque only where its search is. */
  predicate OwnerFits(b: Backed, pc: Thread, p: nat, injector: seq<Job>)
  {
    var o := b.deque.owner;
    || o.Resting?
    || (pc.Local? && pc.p == p && Popping(o))
    || (pc.Pulling? && pc.p == p && DP.Pushing(o) && pc.moved < BATCH_SIZE && injector != []
        && (o.PushRaiseBottom? ==> Item(b, o.box) == injector[0]))
  }

  /** And so is a thief. */
  predicate ThiefFits(b: Backed, pc: Thread, k: nat, w: nat, p: nat)
    requires k < |b.deque.thieves|
  {
    b.deque.thieves[k].Idle? || (k != w && pc.Stealing? && pc.p == p && pc.peer == w)
  }

  predicate DequeFits(c: Concrete, w: nat, p: nat)
    requires Fits(c) && w < |c.own| && p < PRIORITIES
  {
    var b := c.own[w][p];
    && Good(b) && OwnerFits(b, c.pool.threads[w], p, c.pool.injectors[p])
    && forall k :: 0 <= k < |c.own| ==> ThiefFits(b, c.pool.threads[k], k, w, p)
  }

  predicate AllFit(c: Concrete)
    requires Fits(c)
  {
    forall w, p :: 0 <= w < |c.own| && 0 <= p < PRIORITIES ==> DequeFits(c, w, p)
  }

  // The abstraction after a change of one deque and one program counter

  lemma AbsDequeAt(c: Concrete, w: nat, p: nat)
    requires Fits(c) && w < |c.own| && p < PRIORITIES
    ensures |Abs(c).deques| == |c.own| && |Abs(c).deques[w]| == PRIORITIES && Abs(c).deques[w][p] == Jobs(c.own[w][p])
  {
  }

  /** `c'` differs from `c` at most in `w`'s deque `p`, in thread `k` and in the injectors. */
  predicate Differs(c: Concrete, c': Concrete, k: nat, w: nat, p: nat)
    requires Fits(c) && Fits(c') && k < |c.pool.threads| && w < |c.own| && p < PRIORITIES
  {
    && |c'.own| == |c.own| && c'.own == c.own[w := c.own[w][p := c'.own[w][p]]]
    && |c'.pool.threads| == |c.pool.threads| && (forall j :: 0 <= j < |c.pool.threads| && j != k ==> c'.pool.threads[j] == c.pool.threads[j])
    && c'.pool == c.pool.(threads := c'.pool.threads, injectors := c'.pool.injectors)
  }

  lemma {:induction false} AbsDiffers(c: Concrete, c': Concrete, k: nat, w: nat, p: nat)
    requires Fits(c) && Fits(c') && k < |c.pool.threads| && w < |c.own| && p < PRIORITIES && Differs(c, c', k, w, p)
    requires forall j :: 0 <= j < |c.pool.threads| && j != k ==> AbsPc(c', j) == AbsPc(c, j)
    ensures w < |Abs(c).deques| && |Abs(c).deques[w]| == PRIORITIES
    ensures Abs(c') == Changed(Abs(c), w, p, Jobs(c'.own[w][p]), k, AbsPc(c', k), c'.pool.injectors)
  {
    AbsDequeAt(c, w, p);
    assert Abs(c').threads == Abs(c).threads[k := AbsPc(c', k)];
    var row := Abs(c).deques[w][p := Jobs(c'.own[w][p])];
    assert Abs(c').deques[w] == row;
    assert Abs(c').deques == Abs(c).deques[w := row];
  }

  /** The access of one deque leaves every other thread's place in `Pool` alone. */
  predicate ClaimsKept(b: Backed, b': Backed, own: bool, j: nat)
    requires j < |b.deque.thieves| && j < |b'.deque.thieves|
  {
    && ItemsGrow(b, b') && b'.deque.thieves[j] == b.deque.thieves[j]
    && (own ==> DP.OwnerClaim(b'.deque) == DP.OwnerClaim(b.deque) && b'.deque.owner == b.deque.owner)
  }

  lemma {:induction false} OtherPcKept(c: Concrete, c': Concrete, k: nat, w: nat, p: nat, j: nat)
    requires Fits(c) && Fits(c') && k < |c.pool.threads| && w < |c.own| && p < PRIORITIES && Differs(c, c', k, w, p)
    requires j < |c.pool.threads| && j != k && Good(c.own[w][p])
    requires j < |c.own| ==> ClaimsKept(c.own[w][p], c'.own[w][p], j == w, j)
    ensures AbsPc(c', j) == AbsPc(c, j)
  {
    var b, b', pc := c.own[w][p], c'.own[w][p], c.pool.threads[j];
    if j < |c.own| {
      BoxesKnown(b, j);
      if j == w && DP.OwnerClaim(b.deque).Some? {
        ItemKept(b, b', DP.OwnerClaim(b.deque).value);
      }
      if DP.ThiefClaim(b.deque.thieves[j]).Some? {
        ItemKept(b, b', DP.ThiefClaim(b.deque.thieves[j]).value);
      }
    }
  }

  // The steps of `Pool` that take effect

  lemma PoolPops(a: State, k: nat, gen: nat, p: nat, rest: seq<Job>, job: Job)
    requires Shape(a) && k < |a.deques| && a.threads[k] == Local(gen, p) && p < PRIORITIES && a.deques[k][p] == rest + [job]
    ensures Step(a, k, ALONE) == a.(deques := a.deques[k := a.deques[k][p := rest]], threads := a.threads[k := Found(job, p)])
  {
    assert (rest + [job])[..|rest|] == rest;
  }

  lemma PoolMisses(a: State, k: nat, gen: nat, p: nat)
    requires Shape(a) && k < |a.deques| && a.threads[k] == Local(gen, p) && p < PRIORITIES && a.deques[k][p] == []
    ensures Step(a, k, ALONE) == a.(threads := a.threads[k := Local(gen, p + 1)])
  {
  }

  lemma PoolMoves(a: State, k: nat, p: nat, first: Job, moved: nat)
    requires Shape(a) && k < |a.deques| && a.threads[k] == Pulling(p, first, moved) && p < PRIORITIES
    requires moved < BATCH_SIZE && a.injectors[p] != []
    ensures Step(a, k, ALONE) ==
      a.(injectors := a.injectors[p := a.injectors[p][1..]],
         deques := a.deques[k := a.deques[k][p := a.deques[k][p] + [a.injectors[p][0]]]],
         threads := a.threads[k := Pulling(p, first, moved + 1)])
  {
  }

  lemma PoolSteals(a: State, k: nat, gen: nat, p: nat, peer: nat, job: Job, rest: seq<Job>)
    requires Shape(a) && k < |a.deques| && a.threads[k] == Stealing(gen, p, peer) && p < PRIORITIES
    requires peer < |a.deques| && peer != k && a.deques[peer][p] == [job] + rest
    ensures Step(a, k, ALONE) ==
      a.(deques := a.deques[peer := a.deques[peer][p := rest]], threads := a.threads[k := Found(job, p)])
  {
    assert ([job] + rest)[1..] == rest;
  }

  const GIVING_UP := Choice(false, 0, true)

  lemma PoolGivesUp(a: State, k: nat, gen: nat, p: nat, peer: nat)
    requires Shape(a) && k < |a.deques| && a.threads[k] == Stealing(gen, p, peer) && p < PRIORITIES
    requires peer < |a.deques| && peer != k
    ensures Step(a, k, GIVING_UP) == a.(threads := a.threads[k := Stealing(gen, p, peer + 1)])
  {
  }

  /** A step that takes no effect in `Pool`, or one that does. */
  predicate Refines(a: State, k: nat, a': State)
    requires Shape(a)
  {
    a' == a || a' == Step(a, k, ALONE) || a' == Step(a, k, GIVING_UP)
  }

  // Deque operations

  lemma SamePut(deques: seq<seq<seq<Job>>>, w: nat, p: nat)
    requires w < |deques| && p < |deques[w]|
    ensures deques[w := deques[w][p := deques[w][p]]] == deques
  {
    assert deques[w][p := deques[w][p]] == deques[w];
  }

  lemma SamePc(threads: seq<Thread>, k: nat)
    requires k < |threads|
    ensures threads[k := threads[k]] == threads
  {
  }

  /** `Pool`'s state with one deque, one program counter and one injector changed. */
  function Changed(a: State, w: nat, p: nat, jobs: seq<Job>, k: nat, pc: Thread, injectors: seq<seq<Job>>): State
    requires w < |a.deques| && p < |a.deques[w]| && k < |a.threads|
  {
    a.(deques := a.deques[w := a.deques[w][p := jobs]], threads := a.threads[k := pc], injectors := injectors)
  }

  lemma NoEffect(a: State, k: nat, w: nat, p: nat)
    requires Shape(a) && w < |a.deques| && p < PRIORITIES && k < |a.threads|
    ensures Refines(a, k, Changed(a, w, p, a.deques[w][p], k, a.threads[k], a.injectors))
  {
    SamePut(a.deques, w, p);
    SamePc(a.threads, k);
  }

  lemma PopsEffect(a: State, k: nat, gen: nat, p: nat, rest: seq<Job>, job: Job)
    requires Shape(a) && k < |a.deques| && a.threads[k] == Local(gen, p) && p < PRIORITIES && a.deques[k][p] == rest + [job]
    ensures Refines(a, k, Changed(a, k, p, rest, k, Found(job, p), a.injectors))
  {
    PoolPops(a, k, gen, p, rest, job);
  }

  lemma MissesEffect(a: State, k: nat, gen: nat, p: nat)
    requires Shape(a) && k < |a.deques| && a.threads[k] == Local(gen, p) && p < PRIORITIES && a.deques[k][p] == []
    ensures Refines(a, k, Changed(a, k, p, [], k, Local(gen, p + 1), a.injectors))
  {
    PoolMisses(a, k, gen, p);
    SamePut(a.deques, k, p);
  }

  lemma MovesEffect(a: State, k: nat, p: nat, first: Job, moved: nat)
    requires Shape(a) && k < |a.deques| && a.threads[k] == Pulling(p, first, moved) && p < PRIORITIES
    requires moved < BATCH_SIZE && a.injectors[p] != []
    ensures Refines(a, k, Changed(a, k, p, a.deques[k][p] + [a.injectors[p][0]], k, Pulling(p, first, moved + 1),
                                  a.injectors[p := a.injectors[p][1..]]))
  {
    PoolMoves(a, k, p, first, moved);
  }

  lemma StealsEffect(a: State, k: nat, gen: nat, p: nat, peer: nat, job: Job, rest: seq<Job>)
    requires Shape(a) && k < |a.deques| && a.threads[k] == Stealing(gen, p, peer) && p < PRIORITIES
    requires peer < |a.deques| && peer != k && a.deques[peer][p] == [job] + rest
    ensures Refines(a, k, Changed(a, peer, p, rest, k, Found(job, p), a.injectors))
  {
    PoolSteals(a, k, gen, p, peer, job, rest);
  }

  lemma GivesUpEffect(a: State, k: nat, gen: nat, p: nat, peer: nat)
    requires Shape(a) && k < |a.deques| && a.threads[k] == Stealing(gen, p, peer) && p < PRIORITIES
    requires peer < |a.deques| && peer != k
    ensures Refines(a, k, Changed(a, peer, p, a.deques[peer][p], k, Stealing(gen, p, peer + 1), a.injectors))
  {
    PoolGivesUp(a, k, gen, p, peer);
    SamePut(a.deques, peer, p);
  }

  /** One access of a pop, by itself. */
  lemma {:induction false} PopAccess(c: Concrete, k: nat, gen: nat, p: nat) returns (e: D.Event)
    requires Fits(c) && AllFit(c) && k < |c.own| && c.pool.threads[k] == Local(gen, p) && p < PRIORITIES
    ensures e == D.OwnerStep(c.own[k][p].deque, D.DoPop).1
    ensures var c' := PopStep(c, k, gen, p);
      && Fits(c') && Differs(c, c', k, k, p) && c'.pool.injectors == c.pool.injectors
      && c'.own[k][p] == c.own[k][p].(deque := D.OwnerStep(c.own[k][p].deque, D.DoPop).0)
      && Good(c'.own[k][p]) && JobsMove(c.own[k][p], e, c'.own[k][p])
      && (forall j :: 0 <= j < |c.pool.threads| && j != k ==> AbsPc(c', j) == AbsPc(c, j))
  {
    var b, c' := c.own[k][p], PopStep(c, k, gen, p);
    var b' := c'.own[k][p];
    assert DequeFits(c, k, p);
    e := D.OwnerStep(b.deque, D.DoPop).1;
    DT.StepRefines(b.deque, D.ByOwner(D.DoPop));
    PopMoves(b.deque);
    assert b'.items[..|b.items|] == b.items;
    AtomicMovesJobs(b, e, b');
    PopFits(c, k, gen, p);
    forall j | 0 <= j < |c.pool.threads| && j != k ensures AbsPc(c', j) == AbsPc(c, j) {
      OtherPcKept(c, c', k, k, p, j);
    }
  }

  lemma {:induction false} PopFits(c: Concrete, k: nat, gen: nat, p: nat)
    requires Fits(c) && k < |c.own| && c.pool.threads[k] == Local(gen, p) && p < PRIORITIES
    requires |D.OwnerStep(c.own[k][p].deque, D.DoPop).0.thieves| == |c.own|
    ensures var c' := PopStep(c, k, gen, p);
      && Fits(c') && Differs(c, c', k, k, p)
      && c'.own[k][p] == c.own[k][p].(deque := D.OwnerStep(c.own[k][p].deque, D.DoPop).0)
  {
    assert IsWorker(c.pool.threads[k]);
  }

  /** Where an access of a pop takes its worker in `Pool`. */
  lemma {:induction false} PopPc(c: Concrete, k: nat, gen: nat, p: nat)
    requires Fits(c) && AllFit(c) && k < |c.own| && c.pool.threads[k] == Local(gen, p) && p < PRIORITIES
    requires Fits(PopStep(c, k, gen, p))
    ensures var e, c' := D.OwnerStep(c.own[k][p].deque, D.DoPop).1, PopStep(c, k, gen, p);
      match e
      case Popped(x) => AbsPc(c, k) == Local(gen, p) && AbsPc(c', k) == Found(Item(c.own[k][p], x), p)
      case FoundEmpty => AbsPc(c, k) == Local(gen, p) && AbsPc(c', k) == Local(gen, p + 1)
      case Tau => AbsPc(c', k) == AbsPc(c, k)
      case _ => false
  {
    var b := c.own[k][p];
    assert DequeFits(c, k, p);
    PopMoves(b.deque);
    if p + 1 < PRIORITIES { assert DequeFits(c, k, p + 1); }
  }

  lemma {:induction false} PopRefines(c: Concrete, k: nat, gen: nat, p: nat)
    requires Fits(c) && AllFit(c) && Shape(Abs(c)) && k < |c.own| && c.pool.threads[k] == Local(gen, p) && p < PRIORITIES
    ensures Fits(PopStep(c, k, gen, p)) && Refines(Abs(c), k, Abs(PopStep(c, k, gen, p)))
  {
    var e := PopAccess(c, k, gen, p);
    var c', a := PopStep(c, k, gen, p), Abs(c);
    var b, b' := c.own[k][p], c'.own[k][p];
    AbsDiffers(c, c', k, k, p);
    AbsDequeAt(c, k, p);
    PopPc(c, k, gen, p);
    match e
    case Popped(x) => PopsEffect(a, k, gen, p, Jobs(b'), Item(b, x));
    case FoundEmpty => MissesEffect(a, k, gen, p);
    case Tau => NoEffect(a, k, k, p);
  }

  lemma {:induction false} PushFits(c: Concrete, k: nat, p: nat, first: Job, moved: nat)
    requires Fits(c) && k < |c.own| && c.pool.threads[k] == Pulling(p, first, moved) && p < PRIORITIES
    requires c.pool.injectors[p] != []
    requires |D.OwnerStep(c.own[k][p].deque, D.DoPush).0.thieves| == |c.own|
    ensures var c', b := PushStep(c, k, p, first, moved), c.own[k][p];
      && Fits(c') && Differs(c, c', k, k, p)
      && c'.own[k][p] == Backed(D.OwnerStep(b.deque, D.DoPush).0,
                                if b.deque.owner.PushWriteSlot? then b.items + [c.pool.injectors[p][0]] else b.items)
  {
    assert IsWorker(c.pool.threads[k]);
  }

  lemma {:induction false} PushAccess(c: Concrete, k: nat, p: nat, first: Job, moved: nat) returns (e: D.Event)
    requires Fits(c) && AllFit(c) && k < |c.own| && c.pool.threads[k] == Pulling(p, first, moved) && p < PRIORITIES
    requires c.pool.injectors[p] != []
    ensures e == D.OwnerStep(c.own[k][p].deque, D.DoPush).1
    ensures var c' := PushStep(c, k, p, first, moved);
      && Fits(c') && Differs(c, c', k, k, p)
      && Good(c'.own[k][p]) && ItemsGrow(c.own[k][p], c'.own[k][p]) && JobsMove(c.own[k][p], e, c'.own[k][p])
      && (forall j :: 0 <= j < |c.pool.threads| && j != k ==> AbsPc(c', j) == AbsPc(c, j))
  {
    var b, c' := c.own[k][p], PushStep(c, k, p, first, moved);
    assert DequeFits(c, k, p);
    e := D.OwnerStep(b.deque, D.DoPush).1;
    DT.StepRefines(b.deque, D.ByOwner(D.DoPush));
    PushMoves(b.deque);
    PushFits(c, k, p, first, moved);
    var b' := c'.own[k][p];
    assert b'.items[..|b.items|] == b.items;
    AtomicMovesJobs(b, e, b');
    forall j | 0 <= j < |c.pool.threads| && j != k ensures AbsPc(c', j) == AbsPc(c, j) {
      OtherPcKept(c, c', k, k, p, j);
    }
  }

  lemma {:induction false} PushRefines(c: Concrete, k: nat, p: nat, first: Job, moved: nat)
    requires Fits(c) && AllFit(c) && Shape(Abs(c)) && k < |c.own| && c.pool.threads[k] == Pulling(p, first, moved)
    requires p < PRIORITIES && moved < BATCH_SIZE && c.pool.injectors[p] != []
    ensures Fits(PushStep(c, k, p, first, moved)) && Refines(Abs(c), k, Abs(PushStep(c, k, p, first, moved)))
  {
    var e := PushAccess(c, k, p, first, moved);
    var c', a := PushStep(c, k, p, first, moved), Abs(c);
    var b, b' := c.own[k][p], c'.own[k][p];
    AbsDiffers(c, c', k, k, p);
    AbsDequeAt(c, k, p);
    assert DequeFits(c, k, p);
    PushMoves(b.deque);
    if e.Pushed? {
      assert Item(b', e.box) == c.pool.injectors[p][0];
      MovesEffect(a, k, p, first, moved);
    } else {
      NoEffect(a, k, k, p);
    }
  }

  lemma {:induction false} StealFits(c: Concrete, k: nat, gen: nat, p: nat, peer: nat)
    requires Fits(c) && k < |c.own| && c.pool.threads[k] == Stealing(gen, p, peer) && p < PRIORITIES && peer < |c.own|
    requires |D.ThiefStep(c.own[peer][p].deque, k).0.thieves| == |c.own|
    ensures var c' := StealStep(c, k, gen, p, peer);
      && Fits(c') && Differs(c, c', k, peer, p)
      && c'.own[peer][p] == c.own[peer][p].(deque := D.ThiefStep(c.own[peer][p].deque, k).0)
  {
    assert IsWorker(c.pool.threads[k]);
  }

  lemma {:induction false} StealAccess(c: Concrete, k: nat, gen: nat, p: nat, peer: nat) returns (e: D.Event)
    requires Fits(c) && AllFit(c) && k < |c.own| && c.pool.threads[k] == Stealing(gen, p, peer) && p < PRIORITIES
    requires peer < |c.own| && peer != k
    ensures e == D.ThiefStep(c.own[peer][p].deque, k).1
    ensures var c' := StealStep(c, k, gen, p, peer);
      && Fits(c') && Differs(c, c', k, peer, p) && c'.pool.injectors == c.pool.injectors
      && c'.own[peer][p] == c.own[peer][p].(deque := D.ThiefStep(c.own[peer][p].deque, k).0)
      && Good(c'.own[peer][p]) && JobsMove(c.own[peer][p], e, c'.own[peer][p])
      && (forall j :: 0 <= j < |c.pool.threads| && j != k ==> AbsPc(c', j) == AbsPc(c, j))
  {
    var b, c' := c.own[peer][p], StealStep(c, k, gen, p, peer);
    assert DequeFits(c, peer, p);
    e := D.ThiefStep(b.deque, k).1;
    DT.StepRefines(b.deque, D.ByThief(k));
    ThiefMoves(b.deque, k);
    StealFits(c, k, gen, p, peer);
    var b' := c'.own[peer][p];
    assert b'.items[..|b.items|] == b.items;
    AtomicMovesJobs(b, e, b');
    forall j | 0 <= j < |c.pool.threads| && j != k ensures AbsPc(c', j) == AbsPc(c, j) {
      OtherPcKept(c, c', k, peer, p, j);
    }
  }

  lemma {:induction false} StealPc(c: Concrete, k: nat, gen: nat, p: nat, peer: nat)
    requires Fits(c) && AllFit(c) && k < |c.own| && c.pool.threads[k] == Stealing(gen, p, peer)
    requires p < PRIORITIES && peer < |c.own| && peer != k && Fits(StealStep(c, k, gen, p, peer))
    ensures var e, c' := D.ThiefStep(c.own[peer][p].deque, k).1, StealStep(c, k, gen, p, peer);
      match e
      case Stole(x) => AbsPc(c, k) == Stealing(gen, p, peer) && AbsPc(c', k) == Found(Item(c.own[peer][p], x), p)
      case GaveUp => AbsPc(c, k) == Stealing(gen, p, peer) && AbsPc(c', k) == Stealing(gen, p, peer + 1)
      case Tau => AbsPc(c', k) == AbsPc(c, k)
      case _ => false
  {
    var b := c.own[peer][p];
    assert DequeFits(c, peer, p);
    ThiefMoves(b.deque, k);
    if peer + 1 < |c.own| { assert DequeFits(c, peer + 1, p) && ThiefFits(c.own[peer + 1][p], c.pool.threads[k], k, peer + 1, p); }
  }

  lemma {:induction false} StealRefines(c: Concrete, k: nat, gen: nat, p: nat, peer: nat)
    requires Fits(c) && AllFit(c) && Shape(Abs(c)) && k < |c.own| && c.pool.threads[k] == Stealing(gen, p, peer)
    requires p < PRIORITIES && peer < |c.own| && peer != k
    ensures Fits(StealStep(c, k, gen, p, peer)) && Refines(Abs(c), k, Abs(StealStep(c, k, gen, p, peer)))
  {
    var e := StealAccess(c, k, gen, p, peer);
    var c', a := StealStep(c, k, gen, p, peer), Abs(c);
    var b, b' := c.own[peer][p], c'.own[peer][p];
    AbsDiffers(c, c', k, peer, p);
    AbsDequeAt(c, peer, p);
    StealPc(c, k, gen, p, peer);
    match e
    case Stole(x) => StealsEffect(a, k, gen, p, peer, Item(b, x), Jobs(b'));
    case GaveUp => GivesUpEffect(a, k, gen, p, peer);
    case Tau => NoEffect(a, k, peer, p);
  }

  // Steps off the deques

  /** Two states of `Pool` that agree on all but deques and threads still do, and on thread `k`. */
  predicate Agree(a: State, a': State, s: State, s': State, k: nat)
  {
    && a' == s'.(deques := a.deques, threads := a'.threads) && s'.deques == s.deques
    && k < |a'.threads| == |s'.threads| && a'.threads[k] == s'.threads[k]
  }

  lemma {:induction false} BodyIsIndependent(a: State, s: State, k: nat, choice: Choice)
    requires Shape(a) && Shape(s) && k < |s.threads| == |a.threads| && s.threads[k].Body? && a.threads[k] == s.threads[k]
    requires a == s.(deques := a.deques, threads := a.threads)
    ensures Agree(a, Step(a, k, choice), s, Step(s, k, choice), k)
  {
    assert PcShape(s.threads[k]);
  }

  lemma {:induction false} ClientIsIndependent(a: State, s: State, k: nat, choice: Choice)
    requires Shape(a) && Shape(s) && k < |s.threads| == |a.threads| && s.threads[k].Client? && a.threads[k] == s.threads[k]
    requires a == s.(deques := a.deques, threads := a.threads)
    ensures Agree(a, Step(a, k, choice), s, Step(s, k, choice), k)
  {
    assert PcShape(s.threads[k]);
  }

  lemma {:induction false} StopperIsIndependent(a: State, s: State, k: nat, choice: Choice)
    requires Shape(a) && Shape(s) && k < |s.threads| == |a.threads| && a.threads[k] == s.threads[k] && s.threads[k].Stopper?
    requires ClientsQuiet(a) == ClientsQuiet(s) && a == s.(deques := a.deques, threads := a.threads)
    ensures Agree(a, Step(a, k, choice), s, Step(s, k, choice), k)
  {
  }

  lemma {:induction false} IdlerIsIndependent(a: State, s: State, k: nat, choice: Choice)
    requires Shape(a) && Shape(s) && k < |s.threads| == |a.threads| && a.threads[k] == s.threads[k]
    requires !Submits(s.threads[k]) && !Searching(s.threads[k]) && !s.threads[k].Stopper?
    requires a == s.(deques := a.deques, threads := a.threads)
    ensures Agree(a, Step(a, k, choice), s, Step(s, k, choice), k)
  {
  }

  lemma {:induction false} SearcherIsIndependent(c: Concrete, a: State, k: nat, choice: Choice)
    requires Fits(c) && k < |c.own| && Searching(c.pool.threads[k]) && !OnDeque(c, k)
    requires Shape(a) && |a.threads| == |c.pool.threads| && |a.deques| == |c.own| && a.threads[k] == c.pool.threads[k]
    requires a == c.pool.(deques := a.deques, threads := a.threads)
    ensures Agree(a, SearchStep(a, k, choice), c.pool, SearchStep(c.pool, k, choice), k)
  {
    assert PcShape(c.pool.threads[k]);
  }

  /** Off the deques a thread stands in `Pool` where it stands. */
  lemma {:induction false} OffPc(c: Concrete, k: nat)
    requires Fits(c) && k < |c.pool.threads| && !OnDeque(c, k)
    ensures AbsPc(c, k) == c.pool.threads[k]
  {
  }

  lemma {:induction false} QuietAlike(c: Concrete)
    requires Fits(c)
    ensures ClientsQuiet(Abs(c)) == ClientsQuiet(c.pool)
  {
    forall j | 0 <= j < |c.pool.threads|
      ensures Abs(c).threads[j].Client? == c.pool.threads[j].Client?
      ensures c.pool.threads[j].Client? ==> Abs(c).threads[j] == c.pool.threads[j]
    {
    }
    if ClientsQuiet(c.pool) {
      forall j | 0 <= j < |Abs(c).threads| && Abs(c).threads[j].Client? ensures Abs(c).threads[j].sub.Quiet? {
        assert c.pool.threads[j].Client?;
      }
    } else {
      var j :| 0 <= j < |c.pool.threads| && c.pool.threads[j].Client? && !c.pool.threads[j].sub.Quiet?;
      assert Abs(c).threads[j].Client? && !Abs(c).threads[j].sub.Quiet?;
    }
  }

  lemma {:induction false} OffAgrees(c: Concrete, k: nat, choice: Choice)
    requires Fits(c) && Shape(Abs(c)) && k < |c.pool.threads| && !OnDeque(c, k)
    ensures Agree(Abs(c), Step(Abs(c), k, choice), c.pool, Step(c.pool, k, choice), k)
  {
    var a, pc := Abs(c), c.pool.threads[k];
    OffPc(c, k);
    if Searching(pc) {
      assert IsWorker(pc);
      SearchKeeps(a, k, choice);
      SearchKeeps(c.pool, k, choice);
      SearcherIsIndependent(c, a, k, choice);
    } else if pc.Body? {
      BodyIsIndependent(a, c.pool, k, choice);
    } else if pc.Client? {
      ClientIsIndependent(a, c.pool, k, choice);
    } else if pc.Stopper? {
      QuietAlike(c);
      StopperIsIndependent(a, c.pool, k, choice);
    } else {
      IdlerIsIndependent(a, c.pool, k, choice);
    }
  }

  /** A step wakes all the sleepers with old snapshots, or none. */
  lemma {:induction false} StepThreads(s: State, k: nat, choice: Choice)
    requires Shape(s) && k < |s.threads|
    ensures var s' := Step(s, k, choice);
      s'.threads == (if WakeDue(s.threads[k]) then WakeAll(s.threads, s.gen) else s.threads)[k := s'.threads[k]]
  {
    if Searching(s.threads[k]) { SearchKeeps(s, k, choice); }
  }

  lemma {:induction false} OffFits(c: Concrete, k: nat, choice: Choice)
    requires Fits(c) && Shape(Abs(c)) && k < |c.pool.threads| && !OnDeque(c, k)
    ensures Fits(CStep(c, k, choice)) && CStep(c, k, choice) == c.(pool := Step(c.pool, k, choice))
    ensures Step(c.pool, k, choice).deques == c.pool.deques
  {
    StepShape(c.pool, k, choice);
    OffAgrees(c, k, choice);
  }

  /** Where its next program counter leaves it. */
  lemma {:induction false} OffNextPc(c: Concrete, k: nat, choice: Choice)
    requires Fits(c) && AllFit(c) && Shape(Abs(c)) && k < |c.pool.threads| && !OnDeque(c, k)
    ensures Fits(CStep(c, k, choice)) && k < |CStep(c, k, choice).pool.threads|
    ensures AbsPc(CStep(c, k, choice), k) == CStep(c, k, choice).pool.threads[k]
  {
    OffFits(c, k, choice);
    var c' := CStep(c, k, choice);
    if k < |c.own| {
      forall p | 0 <= p < PRIORITIES ensures c.own[k][p].deque.owner.Resting? {
        assert DequeFits(c, k, p);
      }
      forall w, p | 0 <= w < |c.own| && 0 <= p < PRIORITIES ensures c.own[w][p].deque.thieves[k].Idle? {
        assert DequeFits(c, w, p) && ThiefFits(c.own[w][p], c.pool.threads[k], k, w, p);
      }
    }
  }

  /** `notify_all` treats a thread alike in the pool and in what it stands for. */
  lemma OthersWake(threads: seq<Thread>, abs: seq<Thread>, gen: nat, j: nat)
    requires j < |threads| == |abs| && abs[j].Asleep? == threads[j].Asleep? && (threads[j].Asleep? ==> abs[j] == threads[j])
    ensures WakeAll(abs, gen)[j] == if WakeAll(threads, gen)[j] == threads[j] then abs[j] else Top
    ensures WakeAll(threads, gen)[j] == threads[j] || (threads[j].Asleep? && WakeAll(threads, gen)[j] == Top)
  {
  }

  /** A thread that is only woken, or not even that, stands where it stood, or at the top of its loop. */
  lemma {:induction false} BystanderPc(c: Concrete, s': State, j: nat)
    requires Fits(c) && Fits(c.(pool := s')) && j < |c.pool.threads| && j < |s'.threads|
    requires s'.threads[j] == c.pool.threads[j] || (c.pool.threads[j].Asleep? && s'.threads[j] == Top)
    ensures AbsPc(c.(pool := s'), j) == if s'.threads[j] == c.pool.threads[j] then AbsPc(c, j) else Top
  {
  }

  lemma {:induction false} OffOtherPc(c: Concrete, k: nat, choice: Choice, j: nat)
    requires Fits(c) && Shape(Abs(c)) && k < |c.pool.threads| && !OnDeque(c, k) && j < |c.pool.threads| && j != k
    ensures Fits(CStep(c, k, choice)) && j < |CStep(c, k, choice).pool.threads|
    ensures j < |Step(Abs(c), k, choice).threads| && AbsPc(CStep(c, k, choice), j) == Step(Abs(c), k, choice).threads[j]
  {
    OffFits(c, k, choice);
    OffPc(c, k);
    StepThreads(c.pool, k, choice);
    StepThreads(Abs(c), k, choice);
    OthersWake(c.pool.threads, Abs(c).threads, c.pool.gen, j);
    BystanderPc(c, Step(c.pool, k, choice), j);
  }

  lemma {:induction false} OffRefines(c: Concrete, k: nat, choice: Choice)
    requires Fits(c) && AllFit(c) && Shape(Abs(c)) && k < |c.pool.threads| && !OnDeque(c, k)
    ensures Fits(CStep(c, k, choice)) && Abs(CStep(c, k, choice)) == Step(Abs(c), k, choice)
  {
    OffFits(c, k, choice);
    OffAgrees(c, k, choice);
    var c', a' := CStep(c, k, choice), Step(Abs(c), k, choice);
    OffNextPc(c, k, choice);
    forall j | 0 <= j < |c'.pool.threads| ensures AbsPc(c', j) == a'.threads[j] {
      if j != k { OffOtherPc(c, k, choice, j); }
    }
    assert Abs(c').threads == a'.threads;
    assert Abs(c').deques == a'.deques;
  }
}
