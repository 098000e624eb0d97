/**
 The work-stealing pool on Chase-Lev deques: the machine of `Pool` with every local deque replaced by a state of
 the deque protocol, so that a pop, a push or a theft is as many steps as it has atomic accesses.
 */
module PoolOnDeques {
  import opened Options
  import opened RingIndex
  import D = DequeProtocol
  import DP = DequeProof
  import opened Pool
  import opened PoolProof

  /** A local deque: the protocol's state, and the job in every box allocated so far. */
  datatype Backed = Backed(deque: D.State, items: seq<Job>)

  /** The pool's own state, whose field `deques` is not used, and the workers' deques. */
  datatype Concrete = Concrete(pool: State, own: seq<seq<Backed>>)

  function Item(b: Backed, x: D.Box): Job
  {
    if x < |b.items| then b.items[x] else 0
  }

  predicate Fits(c: Concrete)
  {
    && Shape(c.pool) && |c.own| == |c.pool.deques|
    && (forall w :: 0 <= w < |c.own| ==> |c.own[w]| == PRIORITIES)
    && (forall w, p :: 0 <= w < |c.own| && 0 <= p < PRIORITIES ==> |c.own[w][p].deque.thieves| == |c.own|)
  }

  function Put(c: Concrete, w: nat, p: nat, b: Backed): Concrete
    requires w < |c.own| && p < |c.own[w]|
  {
    c.(own := c.own[w := c.own[w][p := b]])
  }

  function Sends(c: Concrete, k: nat, pc: Thread): Concrete
    requires k < |c.pool.threads|
  {
    c.(pool := Go(c.pool, k, pc))
  }

  /** One access of worker `k`'s pop of its own deque; the last one returns the result. */
  function PopStep(c: Concrete, k: nat, gen: nat, p: nat): Concrete
    requires Fits(c) && k < |c.own| && p < PRIORITIES
  {
    var b := c.own[k][p];
    var d := D.OwnerStep(b.deque, D.DoPop).0;
    var c1 := Put(c, k, p, b.(deque := d));
    if d.owner.Resting? then
      Sends(c1, k, match d.owner.result case Some(x) => Found(Item(b, x), p) case None => Local(gen, p + 1))
    else c1
  }

  /** One access of the push of an injector's front job, which leaves the injector when the push returns. */
  function PushStep(c: Concrete, k: nat, p: nat, first: Job, moved: nat): Concrete
    requires Fits(c) && k < |c.own| && p < PRIORITIES && c.pool.injectors[p] != []
  {
    var b, front := c.own[k][p], c.pool.injectors[p][0];
    var d := D.OwnerStep(b.deque, D.DoPush).0;
    var c1 := Put(c, k, p, Backed(d, if b.deque.owner.PushWriteSlot? then b.items + [front] else b.items));
    if d.owner.Resting? then
      c1.(pool := Go(c.pool.(injectors := c.pool.injectors[p := c.pool.injectors[p][1..]]), k, Pulling(p, first, moved + 1)))
    else c1
  }

  /** One access of worker `k`'s theft from worker `peer`. */
  function StealStep(c: Concrete, k: nat, gen: nat, p: nat, peer: nat): Concrete
    requires Fits(c) && k < |c.own| && p < PRIORITIES && peer < |c.own|
  {
    var b := c.own[peer][p];
    var d := D.ThiefStep(b.deque, k).0;
    var c1 := Put(c, peer, p, b.(deque := d));
    if k < |d.thieves| && d.thieves[k].Idle? then
      Sends(c1, k, match d.thieves[k].result case Some(x) => Found(Item(b, x), p) case None => Stealing(gen, p, peer + 1))
    else c1
  }

  /** The thread is in a deque operation, or about to begin one. */
  predicate OnDeque(c: Concrete, k: nat)
    requires Fits(c) && k < |c.pool.threads|
  {
    match c.pool.threads[k]
    case Local(_, p) => p < PRIORITIES
    case Pulling(p, _, moved) => moved < BATCH_SIZE && c.pool.injectors[p] != []
    case Stealing(_, p, peer) => p < PRIORITIES && peer < |c.own| && peer != k
    case _ => false
  }

  /** One atomic access of thread `k`; whatever is not on a deque is as in `Pool`. */
  function CStep(c: Concrete, k: nat, choice: Choice): Concrete
    requires Fits(c)
  {
    if k >= |c.pool.threads| then c
    else if !OnDeque(c, k) then c.(pool := Step(c.pool, k, choice))
    else
      WorkersSearch(c, k);
      match c.pool.threads[k]
      case Local(gen, p) => PopStep(c, k, gen, p)
      case Pulling(p, first, moved) => PushStep(c, k, p, first, moved)
      case Stealing(gen, p, peer) => StealStep(c, k, gen, p, peer)
  }

  lemma WorkersSearch(c: Concrete, k: nat)
    requires Fits(c) && k < |c.pool.threads| && OnDeque(c, k)
    ensures k < |c.own| && Searching(c.pool.threads[k])
  {
    assert IsWorker(c.pool.threads[k]) && PcShape(c.pool.threads[k]);
  }

  function CInitial(workers: nat, clients: nat, stoppers: nat): Concrete
  {
    Concrete(Initial(workers, clients, stoppers),
             seq(workers, _ => seq(PRIORITIES, _ => Backed(D.Initial(D.DEFAULT_CAPACITY, workers), []))))
  }

  // The abstraction

  /** The jobs in the queue that the protocol's state stands for. */
  function Jobs(b: Backed): seq<Job>
  {
    var q := D.Queue(b.deque);
    seq(|q|, i requires 0 <= i < |q| => Item(b, q[i]))
  }

  /**
   Where a thread stands in `Pool`: past a pop or a theft as soon as that has taken effect, though it has not
   returned yet.
   */
  function AbsPc(c: Concrete, k: nat): Thread
    requires Fits(c) && k < |c.pool.threads|
  {
    match c.pool.threads[k]
    case Local(gen, p) =>
      if p < PRIORITIES && k < |c.own| then
        var b := c.own[k][p];
        match DP.OwnerClaim(b.deque)
        case Some(x) => Found(Item(b, x), p)
        case None => if b.deque.owner.PopUndo? then Local(gen, p + 1) else Local(gen, p)
      else Local(gen, p)
    case Stealing(gen, p, peer) =>
      if p < PRIORITIES && k < |c.own| && peer < |c.own| && peer != k then
        var b := c.own[peer][p];
        match DP.ThiefClaim(b.deque.thieves[k])
        case Some(x) => Found(Item(b, x), p)
        case None => Stealing(gen, p, peer)
      else Stealing(gen, p, peer)
    case pc => pc
  }

  function AbsDeques(own: seq<seq<Backed>>): seq<seq<seq<Job>>>
    requires forall w :: 0 <= w < |own| ==> |own[w]| == PRIORITIES
  {
    seq(|own|, w requires 0 <= w < |own| && (forall v :: 0 <= v < |own| ==> |own[v]| == PRIORITIES) =>
      [Jobs(own[w][0]), Jobs(own[w][1]), Jobs(own[w][2])])
  }

  function AbsThreads(c: Concrete): seq<Thread>
    requires Fits(c)
  {
    seq(|c.pool.threads|, k requires 0 <= k < |c.pool.threads| && Fits(c) => AbsPc(c, k))
  }

  function Abs(c: Concrete): State
    requires Fits(c)
  {
    c.pool.(deques := AbsDeques(c.own), threads := AbsThreads(c))
  }
}
