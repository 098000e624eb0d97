/** The inductive invariant of the work-stealing pool. */
module PoolProof {
  import opened Doorbell
  import opened Options
  import opened Pool

  // What one step can change

  /** A step of thread `k` can change another thread only by waking it. */
  predicate OthersKept(s: State, s': State, k: nat)
  {
    && |s'.threads| == |s.threads|
    && forall j :: 0 <= j < |s.threads| && j != k ==>
         s'.threads[j] == s.threads[j] || (s.threads[j].Asleep? && s'.threads[j] == Top)
  }

  /** A submitter that has inserted a job and not yet rung. */
  predicate NewsRingDue(pc: Thread)
  {
    (pc.Body? && pc.sub.Ringing?) || (pc.Client? && pc.sub.Ringing?)
  }

  /** A submitter that has rung and not yet woken the sleepers. */
  predicate NewsWakeDue(pc: Thread)
  {
    (pc.Body? && pc.sub.Waking?) || (pc.Client? && pc.sub.Waking?)
  }

  /** Between a state change and the increment that announces it. */
  predicate RingDue(pc: Thread)
  {
    NewsRingDue(pc) || pc.BodyRinging? || pc == Stopper(FlagRinging)
  }

  /** Between the increment and waking the sleepers. */
  predicate WakeDue(pc: Thread)
  {
    NewsWakeDue(pc) || pc.BodyWaking? || pc == Stopper(FlagWaking)
  }

  predicate Submits(pc: Thread) { pc.Body? || pc.Client? }

  lemma {:induction false} WakeKeepsOthers(s: State, k: nat, pc: Thread)
    requires k < |s.threads|
    ensures OthersKept(s, Wake(s, k, pc), k)
  {
  }

  lemma {:induction false} StepKeepsOthers(s: State, k: nat, c: Choice)
    requires Shape(s) && k < |s.threads|
    ensures OthersKept(s, Step(s, k, c), k)
  {
    var s', pc := Step(s, k, c), s.threads[k];
    if WakeDue(pc) {
      WakeKeepsOthers(s, k, s'.threads[k]);
    } else if Searching(pc) {
      assert IsWorker(pc);
      assert s'.threads == s.threads[k := s'.threads[k]];
    } else {
      WakesNobody(s, k, c);
    }
  }

  lemma {:induction false} WakesNobody(s: State, k: nat, c: Choice)
    requires Shape(s) && k < |s.threads| && !WakeDue(s.threads[k]) && !Searching(s.threads[k])
    ensures Step(s, k, c).threads == s.threads[k := Step(s, k, c).threads[k]]
  {
  }

  /** A search moves jobs between deques and injectors and changes nothing else that is shared. */
  lemma {:induction false} SearchKeeps(s: State, k: nat, c: Choice)
    requires Shape(s) && k < |s.threads| && Searching(s.threads[k])
    ensures k < |s.deques| && Step(s, k, c) == SearchStep(s, k, c)
    ensures var s' := Step(s, k, c);
      && s'.gen == s.gen && s'.pending == s.pending && s'.shutdown == s.shutdown && s'.submitted == s.submitted
      && s'.finished == s.finished && s'.startedLow == s.startedLow && s'.threads == s.threads[k := s'.threads[k]]
      && |s'.injectors| == |s'.holder| == PRIORITIES
  {
    assert IsWorker(s.threads[k]);
  }

  /** A thread that is not searching leaves every deque alone; only a submitter adds to an injector. */
  lemma {:induction false} OthersLeaveDeques(s: State, k: nat, c: Choice)
    requires Shape(s) && k < |s.threads| && !Searching(s.threads[k])
    ensures var s' := Step(s, k, c);
      && s'.deques == s.deques && s'.holder == s.holder
      && |s'.injectors| == PRIORITIES
      && (s'.injectors != s.injectors ==>
            && Submits(s.threads[k]) && s.threads[k].sub.Inserting? && NewsRingDue(s'.threads[k])
            && s.holder[s.threads[k].sub.p] == None)
  {
  }

  lemma {:induction false} SearchPcShape(s: State, k: nat, c: Choice)
    requires Shape(s) && k < |s.deques| && Searching(s.threads[k])
    ensures k < |SearchStep(s, k, c).threads| && PcShape(SearchStep(s, k, c).threads[k]) && IsWorker(SearchStep(s, k, c).threads[k])
  {
    assert PcShape(s.threads[k]);
  }

  lemma {:induction false} SubmitPcShape(s: State, k: nat, c: Choice)
    requires Shape(s) && k < |s.threads| && Submits(s.threads[k])
    ensures PcShape(Step(s, k, c).threads[k]) && (IsWorker(Step(s, k, c).threads[k]) <==> IsWorker(s.threads[k]))
  {
    assert PcShape(s.threads[k]);
  }

  lemma {:induction false} StepPcShape(s: State, k: nat, c: Choice)
    requires Shape(s) && k < |s.threads|
    ensures PcShape(Step(s, k, c).threads[k]) && (IsWorker(Step(s, k, c).threads[k]) <==> IsWorker(s.threads[k]))
  {
    if Searching(s.threads[k]) {
      SearchKeeps(s, k, c);
      SearchPcShape(s, k, c);
    } else if Submits(s.threads[k]) {
      SubmitPcShape(s, k, c);
    } else {
      assert PcShape(s.threads[k]);
    }
  }

  lemma {:induction false} StepShape(s: State, k: nat, c: Choice)
    requires Shape(s)
    ensures Shape(Step(s, k, c))
  {
    if k < |s.threads| {
      var s' := Step(s, k, c);
      StepKeepsOthers(s, k, c);
      StepPcShape(s, k, c);
      if Searching(s.threads[k]) { SearchKeeps(s, k, c); } else { OthersLeaveDeques(s, k, c); }
      forall j | 0 <= j < |s'.threads| ensures (IsWorker(s'.threads[j]) <==> j < |s'.deques|) && PcShape(s'.threads[j]) {
        assert (IsWorker(s.threads[j]) <==> j < |s.deques|) && PcShape(s.threads[j]);
      }
    }
  }

  // Local deques

  function Size(own: seq<seq<Job>>): nat
    requires |own| == PRIORITIES
  {
    |own[0]| + |own[1]| + |own[2]|
  }

  /** At most 31 jobs, all of one priority. */
  predicate Light(own: seq<seq<Job>>)
    requires |own| == PRIORITIES
  {
    Size(own) < BATCH_SIZE && (Size(own) == |own[0]| || Size(own) == |own[1]| || Size(own) == |own[2]|)
  }

  /** What a worker's deques can hold where it stands. */
  predicate OwnOk(own: seq<seq<Job>>, pc: Thread)
    requires |own| == PRIORITIES
  {
    match pc
    case Local(_, p) => Light(own) && forall q :: 0 <= q < p && q < PRIORITIES ==> own[q] == []
    case Pulling(p, _, moved) => p < PRIORITIES && moved <= BATCH_SIZE && |own[p]| < moved && Size(own) == |own[p]|
    case Top => Light(own)
    case Found(_, _) => Light(own)
    case Body(_, _) => Light(own)
    case BodyRinging => Light(own)
    case BodyWaking => Light(own)
    case _ => Size(own) == 0
  }

  /** A theft from the front of a deque. */
  predicate Stolen(own: seq<seq<Job>>, own': seq<seq<Job>>)
    requires |own| == |own'| == PRIORITIES
  {
    exists p :: 0 <= p < PRIORITIES && own[p] != [] && own' == own[p := own[p][1..]]
  }

  lemma {:induction false} StolenOk(own: seq<seq<Job>>, own': seq<seq<Job>>, pc: Thread)
    requires |own| == |own'| == PRIORITIES && OwnOk(own, pc) && Stolen(own, own')
    ensures OwnOk(own', pc) && Size(own') == Size(own) - 1
  {
  }

  /**
   Owner discipline: a step by thread `k` changes worker `w`'s deques only at the front if `w` is
   another worker.
   */
  lemma {:induction false} OthersOnlySteal(s: State, k: nat, c: Choice, w: nat)
    requires Shape(s) && w < |s.deques| && w != k
    ensures |Step(s, k, c).deques[w]| == PRIORITIES
    ensures Step(s, k, c).deques[w] == s.deques[w] || Stolen(s.deques[w], Step(s, k, c).deques[w])
  {
    if k < |s.threads| {
      if Searching(s.threads[k]) {
        SearchKeeps(s, k, c);
      } else {
        OthersLeaveDeques(s, k, c);
      }
    }
  }

  predicate DequesOk(s: State)
    requires Shape(s)
  {
    forall w :: 0 <= w < |s.deques| ==> OwnOk(s.deques[w], s.threads[w])
  }

  lemma PopOk(own: seq<seq<Job>>, p: nat, q: seq<Job>)
    requires |own| == PRIORITIES && Light(own) && p < PRIORITIES && |q| < |own[p]|
    ensures Light(own[p := q])
  {
  }

  lemma MoveOk(own: seq<seq<Job>>, p: nat, first: Job, moved: nat, q: seq<Job>)
    requires |own| == PRIORITIES && OwnOk(own, Pulling(p, first, moved)) && moved < BATCH_SIZE && |q| == |own[p]| + 1
    ensures OwnOk(own[p := q], Pulling(p, first, moved + 1))
  {
  }

  /** The searcher's own deques after its step. */
  predicate OwnNext(s: State, k: nat, c: Choice)
    requires Shape(s) && k < |s.deques|
  {
    var s' := SearchStep(s, k, c);
    k < |s'.deques| && |s'.deques[k]| == PRIORITIES && k < |s'.threads| && OwnOk(s'.deques[k], s'.threads[k])
  }

  lemma {:induction false} OwnLocalOk(s: State, k: nat, c: Choice)
    requires Shape(s) && k < |s.deques| && s.threads[k].Local? && OwnOk(s.deques[k], s.threads[k])
    ensures OwnNext(s, k, c)
  {
    var own, p := s.deques[k], s.threads[k].p;
    if p < PRIORITIES && own[p] != [] {
      PopOk(own, p, own[p][..|own[p]| - 1]);
    }
  }

  lemma {:induction false} OwnPullOk(s: State, k: nat, c: Choice)
    requires Shape(s) && k < |s.deques| && s.threads[k].Pulling? && OwnOk(s.deques[k], s.threads[k])
    ensures OwnNext(s, k, c)
  {
    var own, pc := s.deques[k], s.threads[k];
    if pc.moved < BATCH_SIZE && s.injectors[pc.p] != [] {
      MoveOk(own, pc.p, pc.first, pc.moved, own[pc.p] + [s.injectors[pc.p][0]]);
    }
  }

  lemma {:induction false} OwnSearchOk(s: State, k: nat, c: Choice)
    requires Shape(s) && k < |s.deques| && Searching(s.threads[k]) && OwnOk(s.deques[k], s.threads[k])
    ensures OwnNext(s, k, c)
  {
    if s.threads[k].Local? {
      OwnLocalOk(s, k, c);
    } else if s.threads[k].Pulling? {
      OwnPullOk(s, k, c);
    } else {
      assert PcShape(s.threads[k]);
    }
  }

  lemma {:induction false} OwnStepOk(s: State, k: nat, c: Choice)
    requires Shape(s) && k < |s.deques| && OwnOk(s.deques[k], s.threads[k])
    ensures |Step(s, k, c).deques[k]| == PRIORITIES && OwnOk(Step(s, k, c).deques[k], Step(s, k, c).threads[k])
  {
    assert IsWorker(s.threads[k]);
    if Searching(s.threads[k]) {
      OwnSearchOk(s, k, c);
    } else {
      OthersLeaveDeques(s, k, c);
    }
  }

  lemma {:induction false} StepDequesOk(s: State, k: nat, c: Choice)
    requires Shape(s) && DequesOk(s)
    ensures Shape(Step(s, k, c)) && DequesOk(Step(s, k, c))
  {
    var s' := Step(s, k, c);
    StepShape(s, k, c);
    if k < |s.threads| {
      StepKeepsOthers(s, k, c);
      forall w | 0 <= w < |s'.deques| ensures OwnOk(s'.deques[w], s'.threads[w]) {
        assert OwnOk(s.deques[w], s.threads[w]);
        if w == k {
          OwnStepOk(s, k, c);
        } else {
          OthersOnlySteal(s, k, c, w);
          if s'.deques[w] != s.deques[w] {
            StolenOk(s.deques[w], s'.deques[w], s.threads[w]);
          }
        }
      }
    }
  }

  // Injector mutexes

  /** The holder of an injector's mutex is the one worker pulling from it. */
  predicate HoldersOk(s: State)
    requires Shape(s)
  {
    && (forall k :: 0 <= k < |s.threads| && s.threads[k].Pulling? ==> s.holder[s.threads[k].p] == Some(k))
    && (forall p :: 0 <= p < PRIORITIES && s.holder[p].Some? ==>
          var k := s.holder[p].value; k < |s.threads| && s.threads[k].Pulling? && s.threads[k].p == p)
  }

  /** A search step takes, keeps or releases one mutex. */
  lemma {:induction false} SearchHolder(s: State, k: nat, c: Choice)
    requires Shape(s) && k < |s.deques| && Searching(s.threads[k])
    ensures var s', pc, pc' := SearchStep(s, k, c), s.threads[k], SearchStep(s, k, c).threads[k];
      || (s'.holder == s.holder && pc'.Pulling? == pc.Pulling? && (pc.Pulling? ==> pc'.p == pc.p))
      || (pc.Inject? && pc.p < PRIORITIES && s.holder[pc.p] == None && pc'.Pulling? && pc'.p == pc.p
          && s'.holder == s.holder[pc.p := Some(k)])
      || (pc.Pulling? && pc.p < PRIORITIES && !pc'.Pulling? && s'.holder == s.holder[pc.p := None])
  {
    assert PcShape(s.threads[k]);
  }

  lemma {:induction false} StepHoldersOk(s: State, k: nat, c: Choice)
    requires Shape(s) && HoldersOk(s)
    ensures Shape(Step(s, k, c)) && HoldersOk(Step(s, k, c))
  {
    var s' := Step(s, k, c);
    StepShape(s, k, c);
    if k < |s.threads| {
      StepKeepsOthers(s, k, c);
      if Searching(s.threads[k]) {
        SearchKeeps(s, k, c);
        SearchHolder(s, k, c);
      } else {
        OthersLeaveDeques(s, k, c);
        assert !s'.threads[k].Pulling?;
      }
    }
  }

  /** While a worker pulls a batch, nobody else changes the injector it pulls from. */
  lemma {:induction false} PullIsExclusive(s: State, k: nat, j: nat, c: Choice)
    requires Shape(s) && HoldersOk(s) && k < |s.threads| && s.threads[k].Pulling? && j != k
    ensures |Step(s, j, c).injectors| == PRIORITIES
    ensures Step(s, j, c).injectors[s.threads[k].p] == s.injectors[s.threads[k].p]
  {
    if j < |s.threads| {
      if Searching(s.threads[j]) { SearchKeeps(s, j, c); } else { OthersLeaveDeques(s, j, c); }
    }
  }
}
