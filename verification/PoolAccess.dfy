/** How many accesses a deque operation of the pool still takes, and what an undisturbed one comes to. */
module PoolAccess {
  import opened Options
  import opened RingIndex
  import D = DequeProtocol
  import DP = DequeProof
  import DT = DequeTheorems
  import DB = DequeBounds
  import opened Pool
  import opened PoolProof
  import opened PoolTheorems
  import opened PoolOnDeques
  import opened PoolRefinement
  import opened PoolBacked

  // Accesses left. An operation that has taken effect and only returns counts for more than any that is to begin.

  function PopLeft(o: D.Owner): nat
  {
    match o
    case Resting(_) => 9
    case PopReadBuffer(_) => 8
    case PopLowerBottom(_, _) => 7
    case PopReadTop(_, _) => 6
    case PopReadSlot(b, t, _) => if t == b then 5 else 22
    case PopRestore(_, _, _) => 4
    case PopCas(_, _, _) => 3
    case PopUndo(_) => 20
    case PopTake(_) => 21
    case _ => 0
  }

  function PushLeft(o: D.Owner): nat
  {
    match o
    case Resting(_) => 6
    case PushReadTop(_) => 5
    case PushReadBuffer(_, _) => 4
    case PushWriteSlot(_, _) => 2
    case PushRaiseBottom(_, _) => 1
    case _ => 0
  }

  function TheftLeft(pc: D.Thief): nat
  {
    match pc
    case Idle(_) => 6
    case ReadBottom(_) => 5
    case ReadBuffer(_) => 4
    case ReadSlot(_, _) => 3
    case Cas(_, _) => 2
    case Take(_) => 20
  }

  function Left(c: Concrete, k: nat): nat
    requires Fits(c) && k < |c.pool.threads|
  {
    if !OnDeque(c, k) then 0
    else
      WorkersSearch(c, k);
      match c.pool.threads[k]
      case Local(_, p) => PopLeft(c.own[k][p].deque.owner)
      case Pulling(p, _, _) => PullerOk(c, k); PushLeft(c.own[k][p].deque.owner)
      case Stealing(_, p, peer) => TheftLeft(c.own[peer][p].deque.thieves[k])
  }

  lemma PullerOk(c: Concrete, k: nat)
    requires Fits(c) && k < |c.pool.threads| && c.pool.threads[k].Pulling?
    ensures k < |c.own| && c.pool.threads[k].p < PRIORITIES
  {
    assert IsWorker(c.pool.threads[k]) && PcShape(c.pool.threads[k]);
  }

  /** An access of a pop that takes no effect leaves fewer to come. */
  lemma {:induction false} PopNears(s: D.State)
    requires DP.Inv(s) && (s.owner.Resting? || Popping(s.owner)) && D.OwnerStep(s, D.DoPop).1 == D.Tau
    ensures var o := D.OwnerStep(s, D.DoPop).0.owner;
      if o.Resting? then PopLeft(s.owner) >= 20 else PopLeft(o) < PopLeft(s.owner)
  {
  }

  /** In a deque this small a push never has to grow the buffer. */
  lemma {:induction false} PushNears(b: Backed)
    requires DP.Inv(b.deque) && Small(b) && (b.deque.owner.Resting? || DP.Pushing(b.deque.owner))
    ensures var (d, e) := D.OwnerStep(b.deque, D.DoPush); e == D.Tau ==> PushLeft(d.owner) < PushLeft(b.deque.owner)
  {
    assert b.deque.current.capacity >= D.DEFAULT_CAPACITY;
    assert DP.OwnerOk(b.deque);
  }

  lemma {:induction false} TheftNears(s: D.State, k: nat)
    requires DP.Inv(s) && k < |s.thieves| && D.ThiefStep(s, k).1 == D.Tau
    ensures var pc := D.ThiefStep(s, k).0.thieves[k];
      if pc.Idle? then TheftLeft(s.thieves[k]) >= 20 else TheftLeft(pc) < TheftLeft(s.thieves[k])
  {
  }

  /** What an access comes to: nothing in `Pool`, with fewer to come, or one step of it that changes it. */
  predicate Comes(c: Concrete, c': Concrete, k: nat)
    requires Fits(c) && Fits(c') && k < |c.pool.threads| == |c'.pool.threads| && Shape(Abs(c))
  {
    (Abs(c') == Abs(c) && Left(c', k) < Left(c, k)) || (Abs(c') != Abs(c) && Refines(Abs(c), k, Abs(c')))
  }

  lemma AbsPcsDiffer(c: Concrete, c': Concrete, k: nat)
    requires Fits(c) && Fits(c') && k < |c.pool.threads| == |c'.pool.threads| && AbsPc(c', k) != AbsPc(c, k)
    ensures Abs(c') != Abs(c)
  {
    assert Abs(c).threads[k] == AbsPc(c, k) && Abs(c').threads[k] == AbsPc(c', k);
  }

  lemma {:induction false} PopSame(c: Concrete, k: nat, gen: nat, p: nat)
    requires Fits(c) && AllFit(c) && Shape(Abs(c)) && k < |c.own| && c.pool.threads[k] == Local(gen, p) && p < PRIORITIES
    requires D.OwnerStep(c.own[k][p].deque, D.DoPop).1 == D.Tau
    ensures Fits(PopStep(c, k, gen, p)) && Abs(PopStep(c, k, gen, p)) == Abs(c)
  {
    var e := PopAccess(c, k, gen, p);
    AbsDiffers(c, PopStep(c, k, gen, p), k, k, p);
    AbsDequeAt(c, k, p);
    PopPc(c, k, gen, p);
    SamePut(Abs(c).deques, k, p);
    SamePc(Abs(c).threads, k);
  }

  lemma {:induction false} PopComes(c: Concrete, k: nat, gen: nat, p: nat)
    requires Fits(c) && AllFit(c) && Shape(Abs(c)) && k < |c.own| && c.pool.threads[k] == Local(gen, p) && p < PRIORITIES
    ensures Fits(PopStep(c, k, gen, p)) && Comes(c, PopStep(c, k, gen, p), k)
  {
    var c' := PopStep(c, k, gen, p);
    PopRefines(c, k, gen, p);
    PopPc(c, k, gen, p);
    assert DequeFits(c, k, p);
    if D.OwnerStep(c.own[k][p].deque, D.DoPop).1 == D.Tau {
      PopSame(c, k, gen, p);
      PopNears(c.own[k][p].deque);
      PopLeftAfter(c, k, gen, p);
    } else {
      AbsPcsDiffer(c, c', k);
    }
  }

  lemma {:induction false} PopLeftAfter(c: Concrete, k: nat, gen: nat, p: nat)
    requires Fits(c) && AllFit(c) && k < |c.own| && c.pool.threads[k] == Local(gen, p) && p < PRIORITIES
    requires Fits(PopStep(c, k, gen, p))
    ensures var o := D.OwnerStep(c.own[k][p].deque, D.DoPop).0.owner;
      if o.Resting? then Left(PopStep(c, k, gen, p), k) <= 9 else Left(PopStep(c, k, gen, p), k) == PopLeft(o)
  {
    if p + 1 < PRIORITIES { assert DequeFits(c, k, p + 1); }
  }

  lemma {:induction false} PushSame(c: Concrete, k: nat, p: nat, first: Job, moved: nat)
    requires Fits(c) && AllFit(c) && Shape(Abs(c)) && k < |c.own| && c.pool.threads[k] == Pulling(p, first, moved)
    requires p < PRIORITIES && c.pool.injectors[p] != [] && D.OwnerStep(c.own[k][p].deque, D.DoPush).1 == D.Tau
    ensures var c' := PushStep(c, k, p, first, moved);
      Fits(c') && Abs(c') == Abs(c) && c'.pool == c.pool
  {
    var e := PushAccess(c, k, p, first, moved);
    assert DequeFits(c, k, p);
    PushMoves(c.own[k][p].deque);
    AbsDiffers(c, PushStep(c, k, p, first, moved), k, k, p);
    AbsDequeAt(c, k, p);
    SamePut(Abs(c).deques, k, p);
    SamePc(Abs(c).threads, k);
  }

  lemma {:induction false} PushComes(c: Concrete, k: nat, p: nat, first: Job, moved: nat)
    requires Fits(c) && AllFit(c) && Shape(Abs(c)) && k < |c.own| && c.pool.threads[k] == Pulling(p, first, moved)
    requires p < PRIORITIES && moved < BATCH_SIZE && c.pool.injectors[p] != [] && Small(c.own[k][p])
    ensures Fits(PushStep(c, k, p, first, moved)) && Comes(c, PushStep(c, k, p, first, moved), k)
  {
    PushRefines(c, k, p, first, moved);
    assert DequeFits(c, k, p);
    PushMoves(c.own[k][p].deque);
    if D.OwnerStep(c.own[k][p].deque, D.DoPush).1 == D.Tau {
      PushSame(c, k, p, first, moved);
      PushNears(c.own[k][p]);
    } else {
      AbsPcsDiffer(c, PushStep(c, k, p, first, moved), k);
    }
  }

  lemma {:induction false} StealSame(c: Concrete, k: nat, gen: nat, p: nat, peer: nat)
    requires Fits(c) && AllFit(c) && Shape(Abs(c)) && k < |c.own| && c.pool.threads[k] == Stealing(gen, p, peer)
    requires p < PRIORITIES && peer < |c.own| && peer != k && D.ThiefStep(c.own[peer][p].deque, k).1 == D.Tau
    ensures Fits(StealStep(c, k, gen, p, peer)) && Abs(StealStep(c, k, gen, p, peer)) == Abs(c)
  {
    var e := StealAccess(c, k, gen, p, peer);
    AbsDiffers(c, StealStep(c, k, gen, p, peer), k, peer, p);
    AbsDequeAt(c, peer, p);
    StealPc(c, k, gen, p, peer);
    SamePut(Abs(c).deques, peer, p);
    SamePc(Abs(c).threads, k);
  }

  lemma {:induction false} StealComes(c: Concrete, k: nat, gen: nat, p: nat, peer: nat)
    requires Fits(c) && AllFit(c) && Shape(Abs(c)) && k < |c.own| && c.pool.threads[k] == Stealing(gen, p, peer)
    requires p < PRIORITIES && peer < |c.own| && peer != k
    ensures Fits(StealStep(c, k, gen, p, peer)) && Comes(c, StealStep(c, k, gen, p, peer), k)
  {
    var c' := StealStep(c, k, gen, p, peer);
    StealRefines(c, k, gen, p, peer);
    StealPc(c, k, gen, p, peer);
    assert DequeFits(c, peer, p);
    ThiefMoves(c.own[peer][p].deque, k);
    if D.ThiefStep(c.own[peer][p].deque, k).1 == D.Tau {
      StealSame(c, k, gen, p, peer);
      TheftNears(c.own[peer][p].deque, k);
    } else {
      AbsPcsDiffer(c, c', k);
    }
  }

  /** Which access a step on a deque is. */
  lemma {:induction false} CStepIs(c: Concrete, k: nat, choice: Choice)
    requires Fits(c) && k < |c.pool.threads| && OnDeque(c, k)
    ensures k < |c.own| && PcShape(c.pool.threads[k])
    ensures match c.pool.threads[k]
      case Local(gen, p) => CStep(c, k, choice) == PopStep(c, k, gen, p)
      case Pulling(p, first, moved) => p < PRIORITIES && CStep(c, k, choice) == PushStep(c, k, p, first, moved)
      case Stealing(gen, p, peer) => CStep(c, k, choice) == StealStep(c, k, gen, p, peer)
      case _ => false
  {
    WorkersSearch(c, k);
    assert PcShape(c.pool.threads[k]);
  }

  /** No access is for nothing. */
  lemma {:induction false} AccessComes(c: Concrete, k: nat, choice: Choice)
    requires Fits(c) && AllFit(c) && AllSmall(c) && Shape(Abs(c)) && k < |c.pool.threads| && OnDeque(c, k)
    ensures Fits(CStep(c, k, choice)) && |CStep(c, k, choice).pool.threads| == |c.pool.threads|
    ensures Comes(c, CStep(c, k, choice), k)
  {
    CStepIs(c, k, choice);
    match c.pool.threads[k]
    case Local(gen, p) => PopComes(c, k, gen, p);
    case Pulling(p, first, moved) =>
      assert Small(c.own[k][p]);
      PushComes(c, k, p, first, moved);
    case Stealing(gen, p, peer) => StealComes(c, k, gen, p, peer);
  }
}
