/** A fact about concatenations that runs of first-in-first-out queues come down to. */
module Sequences {

  /** `ts` was taken after `t`, and `bs` brought after `b`: the two stretches of a run make one. */
  lemma Regroup<T>(t: seq<T>, ts: seq<T>, end: seq<T>, q: seq<T>, b: seq<T>, bs: seq<T>, q1: seq<T>)
    requires t + q1 == q + b && ts + end == q1 + bs
    ensures (t + ts) + end == q + (b + bs)
  {
    assert (t + ts) + end == t + (ts + end);
    assert t + (q1 + bs) == (t + q1) + bs;
    assert (q + b) + bs == q + (b + bs);
  }
}
