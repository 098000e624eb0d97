/** Start-time fair queuing bounds of the fair scheduler, for any interleaving of its critical sections. */
module FairShare {
  import opened Options
  import opened Sums
  import opened FairState
  import opened FairAgreement

  // Arithmetic

  /** `n` times `u`, as a repeated sum. */
  function Times(n: nat, u: real): real
  {
    if n == 0 then 0.0 else Times(n - 1, u) + u
  }

  lemma {:induction false} TimesIsProduct(n: nat, u: real)
    ensures Times(n, u) == n as real * u
  {
    if n > 0 {
      TimesIsProduct(n - 1, u);
    }
  }

  lemma {:induction false} TimesMonotone(m: nat, n: nat, u: real)
    requires m <= n && u >= 0.0
    ensures Times(m, u) <= Times(n, u)
    decreases n - m
  {
    if m < n {
      TimesMonotone(m, n - 1, u);
    }
  }

  lemma {:induction false} QuotientMonotone(a: real, b: real, w: real)
    requires a <= b && w > 0.0
    ensures a / w <= b / w
  {
  }

  // Jobs in flight

  function FlightMarks(running: seq<Option<ClassId>>, id: ClassId): seq<bool>
  {
    seq(|running|, w requires 0 <= w < |running| => running[w] == Some(id))
  }

  /** How many workers are running a job of the class, counting it until it is charged. */
  function InFlight(s: Fair, id: ClassId): nat
  {
    Tally(FlightMarks(s.running, id))
  }

  lemma {:induction false} InFlightBound(s: Fair, id: ClassId)
    ensures InFlight(s, id) <= |s.running|
  {
    TallyBound(FlightMarks(s.running, id));
  }

  lemma {:induction false} InFlightUpdate(s: Fair, s': Fair, w: nat, x: Option<ClassId>, id: ClassId)
    requires w < |s.running| && s'.running == s.running[w := x]
    ensures InFlight(s', id) == InFlight(s, id) - (if s.running[w] == Some(id) then 1 else 0) + (if x == Some(id) then 1 else 0)
  {
    TallyUpdate(FlightMarks(s.running, id), w, x == Some(id));
    assert FlightMarks(s'.running, id) == FlightMarks(s.running, id)[w := x == Some(id)];
  }

  lemma {:induction false} NothingInFlight(s: Fair, id: ClassId)
    requires forall w :: 0 <= w < |s.running| ==> s.running[w] != Some(id)
    ensures InFlight(s, id) == 0
  {
    TallyNone(FlightMarks(s.running, id));
  }

  // The invariant

  /** The vruntime the class will have if every job it has in flight costs the maximum `D`. */
  function Projected(s: Fair, id: ClassId, D: real): real
    requires id < |s.classes| && s.classes[id].weight > 0.0
  {
    s.classes[id].vruntime + Times(InFlight(s, id), D / s.classes[id].weight)
  }

  /** A ready key lies between the floor and the vruntime, and is at most N jobs behind. */
  predicate KeyOk(s: Fair, e: Entry, D: real)
    requires e.id < |s.classes| && s.classes[e.id].weight > 0.0
  {
    && s.floor <= e.key <= s.classes[e.id].vruntime
    && Projected(s, e.id, D) <= e.key + Times(|s.running|, D / s.classes[e.id].weight)
  }

  /** No class runs ahead of the floor by more than N + 1 jobs, charged or not. */
  predicate LagOk(s: Fair, id: ClassId, D: real)
    requires id < |s.classes| && s.classes[id].weight > 0.0
  {
    Projected(s, id, D) <= s.floor + Times(|s.running| + 1, D / s.classes[id].weight)
  }

  predicate FairInv(s: Fair, D: real)
  {
    && Agree(s) && D >= 0.0
    && (forall id :: 0 <= id < |s.classes| ==> ClassOk(s.classes[id], Mentions(s.ready, id)) && LagOk(s, id, D))
    && (forall e :: e in s.ready ==> KeyOk(s, e, D))
  }

  lemma {:induction false} CreateFair(s: Fair, name: string, weight: real, D: real)
    requires FairInv(s, D) && FindOrCreate(s, name, weight).Ok?
    ensures FairInv(FindOrCreate(s, name, weight).value.0, D)
  {
    CreateAgrees(s, name, weight);
    var s' := FindOrCreate(s, name, weight).value.0;
    if s' != s {
      var id := |s.classes|;
      NothingInFlight(s', id);
      TimesMonotone(0, |s.running| + 1, D / weight);
      forall j | 0 <= j < |s'.classes| ensures ClassOk(s'.classes[j], Mentions(s'.ready, j)) && LagOk(s', j, D) {
        assert ClassOk(s'.classes[j], Mentions(s'.ready, j));
        if j < id {
          assert LagOk(s, j, D);
          assert Projected(s', j, D) == Projected(s, j, D);
        }
      }
      forall e | e in s'.ready ensures KeyOk(s', e, D) {
        assert KeyOk(s, e, D);
        assert Projected(s', e.id, D) == Projected(s, e.id, D);
      }
    }
  }

  lemma {:induction false} EnqueueFair(s: Fair, id: ClassId, job: Job, D: real)
    requires FairInv(s, D) && id < |s.classes|
    ensures FairInv(Enqueue(s, id, job), D)
  {
    var s' := Enqueue(s, id, job);
    EnqueueAgrees(s, id, job);
    assert ClassOk(s.classes[id], Mentions(s.ready, id)) && LagOk(s, id, D);
    var u := D / s.classes[id].weight;
    InFlightBound(s, id);
    TimesMonotone(InFlight(s, id), |s.running|, u);
    forall j | 0 <= j < |s'.classes| ensures ClassOk(s'.classes[j], Mentions(s'.ready, j)) && LagOk(s', j, D) {
      assert ClassOk(s'.classes[j], Mentions(s'.ready, j));
      assert LagOk(s, j, D);
    }
    if !s.classes[id].hasEntry {
      InsertMembers(s.ready, Entry(s'.classes[id].vruntime, id));
    }
    forall e | e in s'.ready ensures KeyOk(s', e, D) {
      if e in s.ready {
        assert KeyOk(s, e, D);
        MentionedHasWork(s, e);
      }
    }
  }

  /** Dispatching puts one more job of the class in flight, and of no other. */
  lemma {:induction false} DispatchProjects(s: Fair, w: nat, D: real, j: ClassId)
    requires Agree(s) && s.ready != [] && w < |s.running| && s.running[w].None?
    requires j < |s.classes| && s.classes[j].weight > 0.0
    ensures var s', id := Dispatch(s, w), s.ready[0].id;
      && s'.classes[j].weight == s.classes[j].weight && s'.classes[j].vruntime == s.classes[j].vruntime
      && Projected(s', j, D) == Projected(s, j, D) + (if j == id then D / s.classes[j].weight else 0.0)
  {
    InFlightUpdate(s, Dispatch(s, w), w, Some(s.ready[0].id), j);
  }

  /** The dispatched class stays within N + 1 jobs of the floor, its key, and within N of its new key. */
  lemma {:induction false} DispatchedFair(s: Fair, w: nat, D: real)
    requires FairInv(s, D) && s.ready != [] && w < |s.running| && s.running[w].None?
    ensures var s', id := Dispatch(s, w), s.ready[0].id;
      && id < |s.classes| && s.classes[id].weight > 0.0 && s'.classes[id].weight == s.classes[id].weight
      && s.floor <= s'.floor == s.ready[0].key <= s.classes[id].vruntime
      && LagOk(s', id, D) && KeyOk(s', Entry(s.classes[id].vruntime, id), D)
  {
    var s', e := Dispatch(s, w), s.ready[0];
    MentionedHasWork(s, e);
    assert KeyOk(s, e, D);
    DispatchProjects(s, w, D, e.id);
    InFlightBound(s', e.id);
    TimesMonotone(InFlight(s', e.id), |s.running|, D / s.classes[e.id].weight);
  }

  lemma {:induction false} DispatchFair(s: Fair, w: nat, D: real)
    requires FairInv(s, D) && s.ready != [] && w < |s.running| && s.running[w].None?
    ensures FairInv(Dispatch(s, w), D)
  {
    var s', e, rest := Dispatch(s, w), s.ready[0], s.ready[1..];
    DispatchAgrees(s, w);
    DispatchedFair(s, w, D);
    forall j | 0 <= j < |s'.classes| ensures ClassOk(s'.classes[j], Mentions(s'.ready, j)) && LagOk(s', j, D) {
      assert ClassOk(s'.classes[j], Mentions(s'.ready, j)) && ClassOk(s.classes[j], Mentions(s.ready, j)) && LagOk(s, j, D);
      DispatchProjects(s, w, D, j);
    }
    InsertMembers(rest, Entry(s.classes[e.id].vruntime, e.id));
    forall x | x in s'.ready ensures KeyOk(s', x, D) {
      if x in rest {
        OtherEntry(s, x);
        assert x in s.ready && KeyOk(s, x, D);
        assert s.ready[0].key <= x.key;
        DispatchProjects(s, w, D, x.id);
      }
    }
  }

  /** Charging a job raises its class's vruntime by no more than the class's projection already allowed. */
  lemma {:induction false} ChargeProjects(s: Fair, w: nat, elapsed: real, D: real, j: ClassId)
    requires Agree(s) && w < |s.running| && s.running[w].Some? && 0.0 <= elapsed <= D
    requires j < |s.classes| && s.classes[j].weight > 0.0
    ensures var s' := Charge(s, w, elapsed);
      && s'.classes[j].weight == s.classes[j].weight && s'.classes[j].vruntime >= s.classes[j].vruntime
      && Projected(s', j, D) <= Projected(s, j, D)
  {
    var s', id, weight := Charge(s, w, elapsed), s.running[w].value, s.classes[j].weight;
    InFlightUpdate(s, s', w, None, j);
    QuotientMonotone(elapsed, D, weight);
    QuotientMonotone(0.0, elapsed, weight);
    if j == id {
      assert Times(InFlight(s, j), D / weight) == Times(InFlight(s', j), D / weight) + D / weight;
    }
  }

  lemma {:induction false} ChargeFair(s: Fair, w: nat, elapsed: real, D: real)
    requires FairInv(s, D) && w < |s.running| && s.running[w].Some? && 0.0 <= elapsed <= D
    ensures FairInv(Charge(s, w, elapsed), D)
  {
    var s' := Charge(s, w, elapsed);
    ChargeAgrees(s, w, elapsed);
    forall j | 0 <= j < |s'.classes| ensures ClassOk(s'.classes[j], Mentions(s'.ready, j)) && LagOk(s', j, D) {
      assert ClassOk(s.classes[j], Mentions(s.ready, j)) && ClassOk(s'.classes[j], Mentions(s'.ready, j)) && LagOk(s, j, D);
      ChargeProjects(s, w, elapsed, D, j);
    }
    forall e | e in s'.ready ensures KeyOk(s', e, D) {
      assert KeyOk(s, e, D);
      ChargeProjects(s, w, elapsed, D, e.id);
    }
  }

  /** Jobs cost at most `D`. */
  predicate Costs(m: Move, D: real)
  {
    m.DoCharge? ==> m.elapsed <= D
  }

  lemma {:induction false} StepFair(s: Fair, m: Move, D: real)
    requires FairInv(s, D) && Costs(m, D)
    ensures FairInv(Step(s, m), D)
  {
    match m
    case DoRegister(name, weight) =>
      if Step(s, m) != s { CreateFair(s, name, weight, D); }
    case DoSubmit(job, className, weight) =>
      var name, wt := if className == "" then DEFAULT_CLASS else className, if weight > 0.0 then weight else 1.0;
      CreateAgrees(s, name, wt);
      CreateFair(s, name, wt, D);
      var p := FindOrCreate(s, name, wt).value;
      EnqueueFair(p.0, p.1, job, D);
    case DoDispatch(w) =>
      if Step(s, m) != s { DispatchFair(s, w, D); }
    case DoCharge(w, elapsed) =>
      if Step(s, m) != s { ChargeFair(s, w, elapsed, D); }
  }
}
