/** The injector and the doorbell as objects. */
module InjectorHeap {
  import opened Options
  import opened DequeHeap

  function Min(a: int, b: int): int { if a < b then a else b }

  /** How many jobs beyond the first a pull of at most `maxBatch` moves out of a queue of `n`. */
  function Moves(n: nat, maxBatch: nat): nat
  {
    if n == 0 || maxBatch == 0 then 0 else Min(n, maxBatch) - 1
  }

  class Injector<T> {
    var queue: seq<T>

    constructor ()
      ensures queue == []
    {
      queue := [];
    }

    method Push(job: T)
      modifies this
      ensures queue == old(queue) + [job]
    {
      queue := queue + [job];
    }

    /** Moves the front job to the end of `dest`, which replaces its buffer only if that is full. */
    method MoveFront(dest: ChaseLevDeque<T>)
      requires dest.Valid() && queue != []
      modifies this, dest, dest.buffer.slots
      ensures dest.Valid() && queue == old(queue)[1..] && dest.Contents() == old(dest.Contents()) + [old(queue)[0]]
      ensures dest.buffer == old(dest.buffer) || (fresh(dest.buffer) && fresh(dest.buffer.slots))
      ensures |old(dest.Contents())| < old(dest.buffer.capacity) ==> dest.buffer == old(dest.buffer)
    {
      dest.Push(queue[0]);
      queue := queue[1..];
    }

    /**
     Takes the oldest job for the caller and moves the next ones, at most `maxBatch` in all, to the end
     of `dest` in their order; the rest stay queued in theirs.
     */
    method PopBatchInto(dest: ChaseLevDeque<T>, maxBatch: nat) returns (first: Option<T>)
      requires dest.Valid()
      modifies this, dest, dest.buffer.slots
      ensures dest.Valid()
      ensures var q, k := old(queue), Moves(|old(queue)|, maxBatch);
        if q == [] then first == None && queue == [] && dest.Contents() == old(dest.Contents())
        else
          && first == Some(q[0])
          && dest.Contents() == old(dest.Contents()) + q[1..1 + k]
          && queue == q[1 + k..]
      ensures |old(dest.Contents())| + Moves(|old(queue)|, maxBatch) <= old(dest.buffer.capacity) ==> dest.buffer == old(dest.buffer)
    {
      if queue == [] {
        return None;
      }
      ghost var q, held, roomy := queue, dest.Contents(), dest.buffer;
      first := Some(queue[0]);
      queue := queue[1..];
      var moved := 1;
      while moved < maxBatch && queue != []
        invariant 1 <= moved <= |q| && (moved > 1 ==> moved <= maxBatch)
        invariant queue == q[moved..]
        invariant dest.Valid() && dest.Contents() == held + q[1..moved]
        invariant dest.buffer.slots == old(dest.buffer.slots) || fresh(dest.buffer.slots)
        invariant |held| + moved - 1 <= roomy.capacity ==> dest.buffer == roomy
        decreases |queue|
      {
        assert q[1..moved] + [queue[0]] == q[1..moved + 1];
        MoveFront(dest);
        moved := moved + 1;
      }
    }
  }

  /** The generation doorbell. A waiter blocks only while the generation it observed is the present one. */
  class IdleSignal {
    var gen: nat

    constructor ()
      ensures gen == 0
    {
      gen := 0;
    }

    ghost predicate Blocks(observed: nat)
      reads this
    {
      gen == observed
    }

    /** After a notification no earlier snapshot blocks. */
    method Notify()
      modifies this
      ensures gen == old(gen) + 1
      ensures forall g: nat :: g <= old(gen) ==> !Blocks(g)
    {
      gen := gen + 1;
    }

    /** The one snapshot that blocks now. */
    method Current() returns (g: nat)
      ensures forall observed: nat :: Blocks(observed) <==> observed == g
    {
      g := gen;
    }
  }
}
