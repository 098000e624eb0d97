/** What the threads' locked blocks do to the classes, said of the threads that run them. */
module FairBlocks {
  import opened Options
  import opened FairState
  import opened FairAgreement
  import opened FairContents
  import opened FairLoop
  import opened FairLoopProof

  /** A call of `submit` leaves its job with the class, and under the weight, that it was given. */
  lemma {:induction false} CallSubmits(s: Loop, k: nat, c: Choice)
    requires Shape(s) && k < |s.threads| && (s.threads[k].Body? || s.threads[k].Client?) && s.threads[k].sub.Inserting?
    ensures Submitted(s.core, FairLoop.Step(s, k, c).core, s.threads[k].sub.job, c.className, c.weight)
  {
    InserterMoves(s, k, c);
    SubmitOutcome(s.core, s.threads[k].sub.job, c.className, c.weight);
  }

  /** The class with the smallest key, among those with an entry. */
  ghost predicate Smallest(s: Fair, id: ClassId)
  {
    exists own :: own in s.ready && own.id == id && forall e :: e in s.ready ==> own.key <= e.key
  }

  /**
   A worker that looks while anything is ready goes on to run the oldest job of a class whose key nobody undercuts, and that
   class loses just this job; if nothing is ready it goes on to look at the shutdown flag.
   */
  lemma {:induction false} WorkerTakes(s: Loop, k: nat, c: Choice)
    requires Shape(s) && k < |s.threads| && s.threads[k].Look?
    ensures var s' := FairLoop.Step(s, k, c);
      if s.core.ready == [] then s' == s.(threads := s.threads[k := CheckFlag(s.threads[k].gen)])
      else
        && k < |s'.core.running| && s'.core.running[k].Some? && |s'.core.classes| == |s.core.classes|
        && var id := s'.core.running[k].value;
           && Smallest(s.core, id) && id < |s.core.classes| && s'.threads[k].Body? && s'.threads[k].sub == Quiet
           && s.core.classes[id].runnable == [s'.threads[k].job] + s'.core.classes[id].runnable
           && (forall j :: 0 <= j < |s.core.classes| && j != id ==> s'.core.classes[j] == s.core.classes[j])
  {
    assert IsWorker(s.threads[k]);
    if s.core.ready != [] {
      var e := s.core.ready[0];
      MentionedHasWork(s.core, e);
      assert e in s.core.ready && forall d :: d in s.core.ready ==> e.key <= d.key;
      assert s.core.classes[e.id].runnable == [s.core.classes[e.id].runnable[0]] + s.core.classes[e.id].runnable[1..];
    }
  }

  /** A worker whose body has ended charges the time it took to the class it took the job from. */
  lemma {:induction false} WorkerCharges(s: Loop, k: nat, c: Choice)
    requires Shape(s) && k < |s.threads| && s.threads[k].Charging? && c.elapsed >= 0.0
    ensures k < |s.core.running| && s.core.running[k].Some? && s.core.running[k].value < |s.core.classes|
    ensures var s', id := FairLoop.Step(s, k, c), s.core.running[k].value;
      && |s'.core.classes| == |s.core.classes| && s'.core.running == s.core.running[k := None]
      && var old', new' := s.core.classes[id], s'.core.classes[id];
         && new'.completed == old'.completed + 1 && new'.busy == old'.busy + c.elapsed
         && (new'.vruntime - old'.vruntime) * old'.weight == c.elapsed && new'.runnable == old'.runnable
         && (forall j :: 0 <= j < |s.core.classes| && j != id ==> s'.core.classes[j] == s.core.classes[j])
  {
    assert IsWorker(s.threads[k]) && HasJob(s.threads[k]);
    var id := s.core.running[k].value;
    assert ClassOk(s.core.classes[id], Mentions(s.core.ready, id));
  }
}
