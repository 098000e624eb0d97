/** How long a ready class can be passed over. */
module FairStarvation {
  import opened Options
  import opened FairState
  import opened FairAgreement
  import opened FairOrder
  import opened FairShare

  // A history lists the states of a run, one more than its moves.

  predicate StepAt(h: seq<Fair>, moves: seq<Move>, k: nat)
    requires k < |moves| && |h| == |moves| + 1
  {
    Agree(h[k]) && h[k + 1] == Step(h[k], moves[k])
  }

  predicate History(h: seq<Fair>, moves: seq<Move>)
  {
    |h| == |moves| + 1 && forall k :: 0 <= k < |moves| ==> StepAt(h, moves, k)
  }

  /** The entry stays in the ready map throughout. */
  predicate Waits(h: seq<Fair>, e: Entry)
  {
    forall k :: 0 <= k < |h| ==> e in h[k].ready
  }

  function Turn(s: Fair, m: Move, id: ClassId): nat
  {
    match Dispatched(s, m)
    case Some(e) => if e.id == id then 1 else 0
    case None => 0
  }

  /** How many of the first `k` moves dispatch a job of the class. */
  function Turns(h: seq<Fair>, moves: seq<Move>, id: ClassId, k: nat): nat
    requires k <= |moves| && |h| == |moves| + 1
  {
    if k == 0 then 0 else Turns(h, moves, id, k - 1) + Turn(h[k - 1], moves[k - 1], id)
  }

  /** Every job costs at least `d`. */
  predicate CostsAtLeast(m: Move, d: real)
  {
    m.DoCharge? ==> d <= m.elapsed
  }

  predicate AllCostAtLeast(moves: seq<Move>, d: real)
  {
    forall k :: 0 <= k < |moves| ==> CostsAtLeast(moves[k], d)
  }

  /** The class, once it exists, has weight `w`. */
  predicate Weighs(s: Fair, id: ClassId, w: real)
  {
    id < |s.classes| ==> s.classes[id].weight == w
  }

  /**
   After `c` dispatches of the class since the floor was `m`, its vruntime has been charged `u` for all
   of them but those in flight; and its waiting key, taken from the vruntime, for all but N.
   */
  predicate Paid(s: Fair, id: ClassId, c: nat, m: real, u: real)
  {
    && m <= s.floor && u >= 0.0
    && (id >= |s.classes| ==> c == 0)
    && (id < |s.classes| && (c > 0 || s.classes[id].hasEntry) ==>
          m + Times(c, u) <= s.classes[id].vruntime + Times(InFlight(s, id), u))
    && (forall x :: x in s.ready && x.id == id ==> m + Times(c, u) <= x.key + Times(|s.running|, u))
  }

  lemma {:induction false} SortedHead(ready: seq<Entry>, e: Entry)
    requires Sorted(ready) && e in ready
    ensures ready[0].key <= e.key
  {
  }

  lemma {:induction false} CreatePaid(s: Fair, name: string, weight: real, id: ClassId, c: nat, m: real, u: real)
    requires Agree(s) && Paid(s, id, c, m, u) && FindOrCreate(s, name, weight).Ok?
    ensures Paid(FindOrCreate(s, name, weight).value.0, id, c, m, u)
  {
  }

  lemma {:induction false} EnqueuePaid(s: Fair, at: ClassId, job: Job, id: ClassId, c: nat, m: real, u: real)
    requires Agree(s) && Paid(s, id, c, m, u) && at < |s.classes|
    ensures Paid(Enqueue(s, at, job), id, c, m, u)
  {
    var s' := Enqueue(s, at, job);
    InFlightBound(s, id);
    TimesMonotone(InFlight(s, id), |s.running|, u);
    TimesMonotone(0, InFlight(s, id), u);
    if !s.classes[at].hasEntry {
      InsertMembers(s.ready, Entry(s'.classes[at].vruntime, at));
    }
  }

  lemma {:induction false} DispatchPaid(s: Fair, w: nat, id: ClassId, c: nat, m: real, u: real, e: Entry)
    requires Ordered(s) && Paid(s, id, c, m, u)
    requires s.ready != [] && w < |s.running| && s.running[w].None? && e in s.ready
    ensures var c' := c + (if s.ready[0].id == id then 1 else 0);
      Paid(Dispatch(s, w), id, c', m, u) && (c' > c ==> m + Times(c', u) <= e.key + Times(|s.running| + 1, u))
  {
    var s', h, rest := Dispatch(s, w), s.ready[0], s.ready[1..];
    MentionedHasWork(s, h);
    SortedHead(s.ready, e);
    assert InRange(s, h);
    InFlightUpdate(s, s', w, Some(h.id), id);
    InFlightBound(s', id);
    TimesMonotone(InFlight(s', id), |s.running|, u);
    InsertMembers(rest, Entry(s.classes[h.id].vruntime, h.id));
    forall x | x in s'.ready && x.id == id
      ensures m + Times(c + (if h.id == id then 1 else 0), u) <= x.key + Times(|s.running|, u)
    {
      if x in rest {
        OtherEntry(s, x);
        assert x in s.ready;
      }
    }
  }

  lemma {:induction false} ChargePaid(s: Fair, w: nat, elapsed: real, id: ClassId, c: nat, m: real, u: real)
    requires Agree(s) && Paid(s, id, c, m, u)
    requires w < |s.running| && s.running[w].Some?
    requires s.running[w] == Some(id) ==> s.classes[id].weight > 0.0 && u <= elapsed / s.classes[id].weight
    ensures Paid(Charge(s, w, elapsed), id, c, m, u)
  {
    InFlightUpdate(s, Charge(s, w, elapsed), w, None, id);
  }

  /** A charge pays at least `u` for each unit of the weight `w`. */
  predicate Pays(m: Move, w: real, u: real)
    requires w > 0.0
  {
    m.DoCharge? ==> u <= m.elapsed / w
  }

  lemma {:induction false} SubmitPaid(
      s: Fair, job: Job, className: string, weight: real, id: ClassId, c: nat, low: real, u: real)
    requires Agree(s) && Paid(s, id, c, low, u)
    ensures Paid(Submit(s, job, className, weight), id, c, low, u)
  {
    var name, wt := if className == "" then DEFAULT_CLASS else className, if weight > 0.0 then weight else 1.0;
    CreateAgrees(s, name, wt);
    CreatePaid(s, name, wt, id, c, low, u);
    var p := FindOrCreate(s, name, wt).value;
    EnqueuePaid(p.0, p.1, job, id, c, low, u);
  }

  predicate AllPay(moves: seq<Move>, w: real, u: real)
    requires w > 0.0
  {
    forall k :: 0 <= k < |moves| ==> Pays(moves[k], w, u)
  }

  lemma {:induction false} StepPaid(
      s: Fair, m: Move, id: ClassId, c: nat, low: real, w: real, u: real, e: Entry)
    requires Ordered(s) && w > 0.0 && Paid(s, id, c, low, u) && Weighs(s, id, w)
    requires Pays(m, w, u) && e in s.ready
    ensures var c' := c + Turn(s, m, id);
      Paid(Step(s, m), id, c', low, u) && (c' > c ==> low + Times(c', u) <= e.key + Times(|s.running| + 1, u))
  {
    match m
    case DoRegister(name, weight) =>
      if Step(s, m) != s { CreatePaid(s, name, weight, id, c, low, u); }
    case DoSubmit(job, className, weight) =>
      SubmitPaid(s, job, className, weight, id, c, low, u);
    case DoDispatch(k) =>
      if Dispatched(s, m).Some? { DispatchPaid(s, k, id, c, low, u, e); }
    case DoCharge(k, elapsed) =>
      if Step(s, m) != s { ChargePaid(s, k, elapsed, id, c, low, u); }
  }

  /** `c` dispatches keep within the key and N + 1 jobs more. */
  predicate Within(c: nat, low: real, u: real, key: real, workers: nat)
  {
    low + Times(c, u) <= key + Times(workers + 1, u)
  }

  /** The account of a wait that began at floor `low`, after `c` dispatches of the class. */
  predicate Account(s: Fair, id: ClassId, c: nat, low: real, u: real, key: real, workers: nat)
  {
    Ordered(s) && |s.running| == workers && Paid(s, id, c, low, u) && (c > 0 ==> Within(c, low, u, key, workers))
  }

  lemma {:induction false} StepOfWait(
      s: Fair, m: Move, id: ClassId, c: nat, low: real, w: real, u: real, e: Entry, workers: nat)
    requires Account(s, id, c, low, u, e.key, workers) && w > 0.0 && Weighs(s, id, w) && Pays(m, w, u) && e in s.ready
    ensures Account(Step(s, m), id, c + Turn(s, m, id), low, u, e.key, workers)
  {
    StepPaid(s, m, id, c, low, w, u, e);
    StepOrdered(s, m);
    StepAgrees(s, m);
  }

  /** A weight the class has at the end it has had since it was created. */
  lemma {:induction false} WeightIsFixed(h: seq<Fair>, moves: seq<Move>, id: ClassId, w: real, k: nat)
    requires History(h, moves) && k <= |moves| && Weighs(h[|moves|], id, w)
    ensures Weighs(h[k], id, w)
    decreases |moves| - k
  {
    if k < |moves| {
      WeightIsFixed(h, moves, id, w, k + 1);
      assert StepAt(h, moves, k);
      StepAgrees(h[k], moves[k]);
    }
  }

  /** The state of the account after `k` moves of a wait. */
  lemma {:induction false} TurnsPaid(h: seq<Fair>, moves: seq<Move>, id: ClassId, w: real, u: real, e: Entry, k: nat)
    requires History(h, moves) && Ordered(h[0]) && Waits(h, e) && k <= |moves|
    requires w > 0.0 && u >= 0.0 && AllPay(moves, w, u) && Weighs(h[|moves|], id, w)
    ensures Account(h[k], id, Turns(h, moves, id, k), h[0].floor, u, e.key, |h[0].running|)
  {
    if k == 0 {
      AccountStarts(h[0], id, u, e.key);
    } else {
      TurnsPaid(h, moves, id, w, u, e, k - 1);
      AccountNext(h, moves, id, w, u, e, k - 1);
    }
  }

  lemma {:induction false} AccountStarts(s: Fair, id: ClassId, u: real, key: real)
    requires Ordered(s) && u >= 0.0
    ensures Account(s, id, 0, s.floor, u, key, |s.running|)
  {
    StartsPaid(s, id, u);
  }

  lemma {:induction false} AccountNext(h: seq<Fair>, moves: seq<Move>, id: ClassId, w: real, u: real, e: Entry, k: nat)
    requires History(h, moves) && Waits(h, e) && k < |moves| && w > 0.0 && AllPay(moves, w, u) && Weighs(h[|moves|], id, w)
    requires Account(h[k], id, Turns(h, moves, id, k), h[0].floor, u, e.key, |h[0].running|)
    ensures Account(h[k + 1], id, Turns(h, moves, id, k + 1), h[0].floor, u, e.key, |h[0].running|)
  {
    WeightIsFixed(h, moves, id, w, k);
    AccountStep(h, moves, id, w, u, e, k, Turns(h, moves, id, k));
  }

  lemma {:induction false} AccountStep(
      h: seq<Fair>, moves: seq<Move>, id: ClassId, w: real, u: real, e: Entry, k: nat, c: nat)
    requires History(h, moves) && Waits(h, e) && k < |moves| && w > 0.0 && AllPay(moves, w, u) && Weighs(h[k], id, w)
    requires Account(h[k], id, c, h[0].floor, u, e.key, |h[0].running|)
    ensures Account(h[k + 1], id, c + Turn(h[k], moves[k], id), h[0].floor, u, e.key, |h[0].running|)
  {
    assert StepAt(h, moves, k);
    StepOfWait(h[k], moves[k], id, c, h[0].floor, w, u, e, |h[0].running|);
  }

  lemma {:induction false} StartsPaid(s: Fair, id: ClassId, u: real)
    requires Ordered(s) && u >= 0.0
    ensures Paid(s, id, 0, s.floor, u)
  {
    TimesMonotone(0, InFlight(s, id), u);
    TimesMonotone(0, |s.running|, u);
    if id < |s.classes| && s.classes[id].hasEntry {
      var x := EntryOf(s, id);
      assert InRange(s, x);
    }
    forall x | x in s.ready && x.id == id ensures s.floor <= x.key {
      assert InRange(s, x);
    }
  }

  /** In units of the smallest charge `u`. */
  lemma {:induction false} WaitInUnits(h: seq<Fair>, moves: seq<Move>, id: ClassId, w: real, u: real, e: Entry)
    requires History(h, moves) && Ordered(h[0]) && Waits(h, e)
    requires w > 0.0 && u >= 0.0 && AllPay(moves, w, u) && Weighs(h[|moves|], id, w)
    ensures Within(Turns(h, moves, id, |moves|), h[0].floor, u, e.key, |h[0].running|)
  {
    assert InRange(h[0], e);
    TimesMonotone(0, |h[0].running| + 1, u);
    TurnsPaid(h, moves, id, w, u, e, |moves|);
  }

  lemma {:induction false} ScaleUp(p: real, q: real, w: real)
    requires p <= q && w >= 0.0
    ensures p * w <= q * w
  {
  }

  lemma {:induction false} ScaleDown(p: real, q: real, d: real)
    requires p * d <= q && d > 0.0
    ensures p <= q / d
  {
  }

  lemma {:induction false} Divide(n: nat, k: nat, d: real, w: real, x: real)
    requires d > 0.0 && w > 0.0 && Times(n, d / w) <= x + Times(k, d / w)
    ensures n as real <= k as real + w * x / d
  {
    var p, u := n as real - k as real, d / w;
    TimesIsProduct(n, u);
    TimesIsProduct(k, u);
    assert p * u <= x;
    ScaleUp(p * u, x, w);
    assert p * d == p * u * w by {
      assert u * w == d;
    }
    ScaleDown(p, w * x, d);
  }

  lemma {:induction false} CostsPay(moves: seq<Move>, d: real, w: real)
    requires AllCostAtLeast(moves, d) && d > 0.0 && w > 0.0
    ensures d / w >= 0.0 && AllPay(moves, w, d / w)
  {
    QuotientMonotone(0.0, d, w);
    forall k | 0 <= k < |moves| ensures Pays(moves[k], w, d / w) {
      assert CostsAtLeast(moves[k], d);
      if moves[k].DoCharge? { QuotientMonotone(d, moves[k].elapsed, w); }
    }
  }

  lemma {:induction false} LimitFollows(n: nat, workers: nat, d: real, w: real, gap: real)
    requires d > 0.0 && w > 0.0 && Times(n, d / w) <= gap + Times(workers + 1, d / w)
    ensures n as real <= WaitLimit(workers, w, gap, d)
  {
    Divide(n, workers + 1, d, w, gap);
  }

  /** The most jobs of a class of weight `w` that can go before a key `gap` above the floor. */
  function WaitLimit(workers: nat, w: real, gap: real, d: real): real
    requires d > 0.0
  {
    (workers + 1) as real + w * gap / d
  }

  lemma {:induction false} WaitInTurns(h: seq<Fair>, moves: seq<Move>, id: ClassId, w: real, d: real, e: Entry)
    requires History(h, moves) && Ordered(h[0]) && Waits(h, e) && AllCostAtLeast(moves, d)
    requires w > 0.0 && d > 0.0 && Weighs(h[|moves|], id, w)
    ensures Turns(h, moves, id, |moves|) as real <= WaitLimit(|h[0].running|, w, e.key - h[0].floor, d)
  {
    CostsPay(moves, d, w);
    WaitInUnits(h, moves, id, w, d / w, e);
    LimitFollows(Turns(h, moves, id, |moves|), |h[0].running|, d, w, e.key - h[0].floor);
  }

  /**
   Starvation bound: while an entry with key k waits, every other class i is dispatched at most
   N + 1 + w_i (k - m) / d times, where every job costs at least d > 0 and m is the floor at the start.
   */
  lemma {:induction false} StarvationBound(h: seq<Fair>, moves: seq<Move>, id: ClassId, d: real, e: Entry)
    requires History(h, moves) && Ordered(h[0]) && Waits(h, e) && AllCostAtLeast(moves, d)
    requires d > 0.0 && id < |h[|moves|].classes|
    ensures Turns(h, moves, id, |moves|) as real
         <= WaitLimit(|h[0].running|, h[|moves|].classes[id].weight, e.key - h[0].floor, d)
  {
    HistoryAgrees(h, moves, |moves|);
    var s' := h[|moves|];
    assert ClassOk(s'.classes[id], Mentions(s'.ready, id));
    WaitInTurns(h, moves, id, s'.classes[id].weight, d, e);
  }

  lemma {:induction false} HistoryAgrees(h: seq<Fair>, moves: seq<Move>, k: nat)
    requires History(h, moves) && Agree(h[0]) && k <= |moves|
    ensures Agree(h[k])
  {
    if k > 0 {
      assert StepAt(h, moves, k - 1);
      StepAgrees(h[k - 1], moves[k - 1]);
    }
  }

  /** A class that enters at the floor, as every new class does, waits behind at most N + 1 jobs of any other. */
  lemma {:induction false} NewcomerWaits(h: seq<Fair>, moves: seq<Move>, id: ClassId, d: real, e: Entry)
    requires History(h, moves) && Ordered(h[0]) && Waits(h, e) && AllCostAtLeast(moves, d)
    requires d > 0.0 && id < |h[|moves|].classes| && e.key == h[0].floor
    ensures Turns(h, moves, id, |moves|) <= |h[0].running| + 1
  {
    StarvationBound(h, moves, id, d, e);
    assert WaitLimit(|h[0].running|, h[|moves|].classes[id].weight, 0.0, d) == (|h[0].running| + 1) as real;
  }

  lemma InsertedIsIn(ready: seq<Entry>, e: Entry)
    ensures e in Insert(ready, e)
  {
    InsertMembers(ready, e);
  }

  /** The first submission under a new name enters its class at the floor, however far other classes have run. */
  lemma {:induction false} NewClassEntersAtFloor(s: Fair, job: Job, className: string, weight: real)
    requires Agree(s) && (if className == "" then DEFAULT_CLASS else className) !in s.names
    ensures var s' := Submit(s, job, className, weight);
      s'.floor == s.floor && |s'.classes| == |s.classes| + 1 && Entry(s.floor, |s.classes|) in s'.ready
  {
    InsertedIsIn(s.ready, Entry(s.floor, |s.classes|));
  }
}
