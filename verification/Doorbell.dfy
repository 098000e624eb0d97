/** What the two schedulers' doorbells share: the phases of a shutdown, and which threads owe an announcement. */
module Doorbell {

  datatype Phase = Open | FlagRinging | FlagWaking | Joining

  /** Some thread is at a point where something is due of it. */
  predicate Somewhere<T>(threads: seq<T>, due: T -> bool)
  {
    exists k :: 0 <= k < |threads| && due(threads[k])
  }

  /** A step of thread `k` that leaves the duties of the others alone. */
  lemma {:induction false} SomewhereKept<T>(threads: seq<T>, threads': seq<T>, k: nat, due: T -> bool)
    requires k < |threads| == |threads'|
    requires forall j :: 0 <= j < |threads| && j != k && due(threads[j]) ==> due(threads'[j])
    ensures Somewhere(threads, due) ==> Somewhere(threads', due) || due(threads[k])
    ensures due(threads'[k]) ==> Somewhere(threads', due)
  {
    if Somewhere(threads, due) {
      var j :| 0 <= j < |threads| && due(threads[j]);
      assert j != k ==> due(threads'[j]);
    }
  }
}
