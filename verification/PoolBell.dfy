/** The doorbell of the work-stealing pool: what a worker on its way to sleep can have missed. */
module PoolBell {
  import opened Doorbell
  import opened Options
  import opened Pool
  import opened PoolProof

  predicate SomeNewsRingDue(s: State) { Somewhere(s.threads, NewsRingDue) }
  predicate SomeNewsWakeDue(s: State) { Somewhere(s.threads, NewsWakeDue) }
  predicate SomeRingDue(s: State) { Somewhere(s.threads, RingDue) }
  predicate SomeWakeDue(s: State) { Somewhere(s.threads, WakeDue) }

  lemma {:induction false} DuesKept(s: State, s': State, k: nat)
    requires k < |s.threads| && OthersKept(s, s', k)
    ensures SomeNewsRingDue(s) ==> SomeNewsRingDue(s') || NewsRingDue(s.threads[k])
    ensures SomeNewsWakeDue(s) ==> SomeNewsWakeDue(s') || NewsWakeDue(s.threads[k])
    ensures SomeRingDue(s) ==> SomeRingDue(s') || RingDue(s.threads[k])
    ensures SomeWakeDue(s) ==> SomeWakeDue(s') || WakeDue(s.threads[k])
    ensures NewsRingDue(s'.threads[k]) ==> SomeNewsRingDue(s')
    ensures NewsWakeDue(s'.threads[k]) ==> SomeNewsWakeDue(s')
    ensures RingDue(s'.threads[k]) ==> SomeRingDue(s')
    ensures WakeDue(s'.threads[k]) ==> SomeWakeDue(s')
  {
    SomewhereKept(s.threads, s'.threads, k, NewsRingDue);
    SomewhereKept(s.threads, s'.threads, k, NewsWakeDue);
    SomewhereKept(s.threads, s'.threads, k, RingDue);
    SomewhereKept(s.threads, s'.threads, k, WakeDue);
  }

  /** The worker is between its snapshot of the generation and the end of its search or sleep. */
  predicate Observing(pc: Thread)
  {
    pc.Local? || pc.Inject? || pc.Stealing? || Settling(pc)
  }

  predicate Settling(pc: Thread)
  {
    pc.CheckFlag? || pc.CheckPending? || pc.Waiting? || pc.Asleep?
  }

  /** The worker has found injector `p` empty since its snapshot. */
  predicate SawEmpty(pc: Thread, p: nat)
  {
    (pc.Inject? && p < pc.p) || pc.Stealing? || Settling(pc)
  }

  /** The state changes that a thread on its way to sleep has missed are announced, or about to be. */
  predicate BellOk(s: State, pc: Thread)
    requires |s.injectors| == PRIORITIES
  {
    && (Observing(pc) ==> pc.gen <= s.gen)
    && (forall p :: 0 <= p < PRIORITIES && SawEmpty(pc, p) && s.injectors[p] != [] ==> pc.gen < s.gen || SomeNewsRingDue(s))
    && (forall p :: 0 <= p < PRIORITIES && pc.Asleep? && s.injectors[p] != [] ==> SomeNewsRingDue(s) || SomeNewsWakeDue(s))
    && (pc.CheckPending? ==> s.shutdown)
    && ((pc.Waiting? || pc.Asleep?) && s.shutdown && s.pending == 0 ==> pc.gen < s.gen || SomeRingDue(s))
    && (pc.Asleep? && pc.gen < s.gen ==> SomeWakeDue(s))
    && (pc.Exited? ==> s.shutdown && s.pending == 0)
  }

  /** What a step does to the state the doorbell announces, and how it announces it. */
  predicate Announces(s: State, s': State, k: nat)
    requires k < |s.threads| == |s'.threads| && |s.injectors| == |s'.injectors| == PRIORITIES
  {
    && s.gen <= s'.gen
    && (s'.gen > s.gen ==> RingDue(s.threads[k]) && WakeDue(s'.threads[k]))
    && (RingDue(s.threads[k]) ==> s'.gen > s.gen)
    && (WakeDue(s.threads[k]) ==> forall j :: 0 <= j < |s'.threads| && s'.threads[j].Asleep? ==> s'.threads[j].gen == s'.gen)
    && (forall p :: 0 <= p < PRIORITIES && s.injectors[p] == [] && s'.injectors[p] != [] ==> NewsRingDue(s'.threads[k]))
    && (NewsRingDue(s.threads[k]) ==> NewsWakeDue(s'.threads[k]))
    && (!s.shutdown && s'.shutdown ==> RingDue(s'.threads[k]))
    && (s.pending != 0 && s'.pending == 0 ==> RingDue(s'.threads[k]))
    && (s.shutdown ==> s'.shutdown)
    && (s.shutdown && s.pending == 0 ==> s'.pending == 0)
  }

  /** Once shutdown has begun and nothing is pending, nobody can submit. */
  predicate NothingLeft(s: State, pc: Thread)
  {
    s.shutdown && s.pending == 0 ==> !pc.Body? && (pc.Client? ==> pc.sub.Quiet?)
  }

  lemma {:induction false} SearchAnnounces(s: State, k: nat, c: Choice)
    requires Shape(s) && k < |s.threads| && Searching(s.threads[k])
    ensures |Step(s, k, c).injectors| == PRIORITIES && Announces(s, Step(s, k, c), k)
  {
    SearchKeeps(s, k, c);
    assert PcShape(s.threads[k]);
  }

  lemma {:induction false} SubmitterAnnounces(s: State, k: nat, c: Choice)
    requires Shape(s) && k < |s.threads| && s.pending >= 0 && NothingLeft(s, s.threads[k]) && Submits(s.threads[k])
    ensures |Step(s, k, c).injectors| == PRIORITIES && Announces(s, Step(s, k, c), k)
  {
    OthersLeaveDeques(s, k, c);
  }

  lemma {:induction false} OtherAnnounces(s: State, k: nat, c: Choice)
    requires Shape(s) && k < |s.threads| && !Submits(s.threads[k]) && !Searching(s.threads[k])
    ensures |Step(s, k, c).injectors| == PRIORITIES && Announces(s, Step(s, k, c), k)
  {
    OthersLeaveDeques(s, k, c);
  }

  lemma {:induction false} StepAnnounces(s: State, k: nat, c: Choice)
    requires Shape(s) && k < |s.threads| && s.pending >= 0 && NothingLeft(s, s.threads[k])
    ensures |Step(s, k, c).injectors| == PRIORITIES && Announces(s, Step(s, k, c), k)
  {
    if Searching(s.threads[k]) {
      SearchAnnounces(s, k, c);
    } else if Submits(s.threads[k]) {
      SubmitterAnnounces(s, k, c);
    } else {
      OtherAnnounces(s, k, c);
    }
  }

  lemma {:induction false} BystanderBell(s: State, s': State, k: nat, j: nat)
    requires |s.injectors| == |s'.injectors| == PRIORITIES
    requires k < |s.threads| && j < |s.threads| && j != k && OthersKept(s, s', k) && Announces(s, s', k)
    requires BellOk(s, s.threads[j])
    ensures BellOk(s', s'.threads[j])
  {
    DuesKept(s, s', k);
  }

  /** A searching worker moves on from an injector only when it is empty. */
  lemma {:induction false} OwnBellSearch(s: State, k: nat, c: Choice)
    requires Shape(s) && k < |s.threads| && BellOk(s, s.threads[k]) && Searching(s.threads[k])
    ensures |Step(s, k, c).injectors| == PRIORITIES
    ensures BellOk(Step(s, k, c), Step(s, k, c).threads[k])
  {
    var s', pc := Step(s, k, c), s.threads[k];
    SearchKeeps(s, k, c);
    SearchAnnounces(s, k, c);
    StepKeepsOthers(s, k, c);
    DuesKept(s, s', k);
    SearchMoves(s, k, c);
  }

  lemma {:induction false} SearchMoves(s: State, k: nat, c: Choice)
    requires Shape(s) && k < |s.deques| && Searching(s.threads[k])
    ensures var s', pc, pc' := SearchStep(s, k, c), s.threads[k], SearchStep(s, k, c).threads[k];
      && (Observing(pc') ==> Observing(pc) && pc'.gen == pc.gen)
      && !pc'.CheckPending? && !pc'.Waiting? && !pc'.Asleep? && !pc'.Exited?
      && (forall p :: 0 <= p < PRIORITIES && SawEmpty(pc', p) ==> SawEmpty(pc, p) || s.injectors[p] == [])
      && (forall p :: 0 <= p < PRIORITIES && SawEmpty(pc', p) ==> s'.injectors == s.injectors)
  {
    assert PcShape(s.threads[k]);
  }

  lemma {:induction false} OwnBellSettling(s: State, k: nat, c: Choice)
    requires Shape(s) && k < |s.threads| && BellOk(s, s.threads[k]) && Settling(s.threads[k])
    ensures |Step(s, k, c).injectors| == PRIORITIES
    ensures BellOk(Step(s, k, c), Step(s, k, c).threads[k])
  {
    var s', pc := Step(s, k, c), s.threads[k];
    assert s' == s.(threads := s.threads[k := s'.threads[k]]);
    if pc.Asleep? {
      assert s'.threads == s.threads;
    } else {
      DuesKept(s, s', k);
    }
  }

  lemma {:induction false} OwnBellBusy(s: State, k: nat, c: Choice)
    requires Shape(s) && k < |s.threads| && BellOk(s, s.threads[k]) && !Settling(s.threads[k]) && !Searching(s.threads[k])
    ensures |Step(s, k, c).injectors| == PRIORITIES
    ensures BellOk(Step(s, k, c), Step(s, k, c).threads[k])
  {
    var s', pc := Step(s, k, c), s.threads[k];
    OthersLeaveDeques(s, k, c);
    if pc.Exited? {
      assert s' == s;
    } else {
      var pc' := s'.threads[k];
      assert !Settling(pc') && !pc'.Exited? && !pc'.Inject? && !pc'.Stealing?;
      assert pc'.Local? ==> pc' == Local(s'.gen, 0);
    }
  }

  /** Every step keeps the doorbell's promise to every thread. */
  lemma {:induction false} StepBell(s: State, k: nat, c: Choice)
    requires Shape(s) && k < |s.threads| && s.pending >= 0 && NothingLeft(s, s.threads[k])
    requires forall j :: 0 <= j < |s.threads| ==> BellOk(s, s.threads[j])
    ensures var s' := Step(s, k, c);
      |s'.injectors| == PRIORITIES && forall j :: 0 <= j < |s'.threads| ==> BellOk(s', s'.threads[j])
  {
    var s' := Step(s, k, c);
    StepAnnounces(s, k, c);
    StepKeepsOthers(s, k, c);
    assert BellOk(s, s.threads[k]);
    forall j | 0 <= j < |s'.threads| ensures BellOk(s', s'.threads[j]) {
      if j != k {
        assert BellOk(s, s.threads[j]);
        BystanderBell(s, s', k, j);
      } else if Searching(s.threads[k]) {
        OwnBellSearch(s, k, c);
      } else if Settling(s.threads[k]) {
        OwnBellSettling(s, k, c);
      } else {
        OwnBellBusy(s, k, c);
      }
    }
  }
}
