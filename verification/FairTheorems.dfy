/** Bounded staleness and proportional share over every run of the fair scheduler. */
module FairTheorems {
  import opened Options
  import opened FairState
  import opened FairAgreement
  import opened FairOrder
  import opened FairShare

  predicate AllCost(moves: seq<Move>, D: real)
  {
    forall k :: 0 <= k < |moves| ==> Costs(moves[k], D)
  }

  lemma {:induction false} RunFair(s: Fair, moves: seq<Move>, D: real)
    requires FairInv(s, D) && AllCost(moves, D)
    ensures FairInv(Run(s, moves), D)
    decreases |moves|
  {
    if moves != [] {
      StepFair(s, moves[0], D);
      RunFair(Step(s, moves[0]), moves[1..], D);
    }
  }

  lemma InitialFair(workers: nat, D: real)
    requires D >= 0.0
    ensures FairInv(Initial(workers), D)
  {
  }

  /** How far a key may trail: one maximal job for every worker not running a job of the class. */
  predicate Fresh(s: Fair, e: Entry, D: real)
    requires e.id < |s.classes| && s.classes[e.id].weight > 0.0
  {
    var u := D / s.classes[e.id].weight;
    0.0 <= s.classes[e.id].vruntime - e.key <= Times(|s.running|, u) - Times(InFlight(s, e.id), u) <= Times(|s.running|, u)
  }

  lemma {:induction false} FreshKey(s: Fair, e: Entry, D: real)
    requires FairInv(s, D) && e in s.ready
    ensures s.classes[e.id].weight > 0.0 && Fresh(s, e, D)
  {
    MentionedHasWork(s, e);
    assert KeyOk(s, e, D);
    TimesMonotone(0, InFlight(s, e.id), D / s.classes[e.id].weight);
  }

  /**
   Bounded staleness: a ready key trails the class's vruntime by at most one maximal job for every
   worker that is not running a job of the class now, so by at most N of them.
   */
  lemma {:induction false} StalenessBounded(workers: nat, moves: seq<Move>, D: real)
    requires D >= 0.0 && AllCost(moves, D)
    ensures var s := Run(Initial(workers), moves);
      |s.running| == workers && forall e :: e in s.ready ==> s.classes[e.id].weight > 0.0 && Fresh(s, e, D)
  {
    InitialFair(workers, D);
    RunFair(Initial(workers), moves, D);
    var s := Run(Initial(workers), moves);
    forall e | e in s.ready ensures s.classes[e.id].weight > 0.0 && Fresh(s, e, D) {
      FreshKey(s, e, D);
    }
  }

  // Proportional share

  /** The class has work queued, and hence an entry, in every state of the run. */
  predicate Backlogged(s: Fair, moves: seq<Move>, id: ClassId)
    requires Agree(s)
    decreases |moves|
  {
    id < |s.classes| && s.classes[id].hasEntry
    && (moves == [] || (StepAgrees(s, moves[0]); Backlogged(Step(s, moves[0]), moves[1..], id)))
  }

  /** The time charged to a class between two states, per unit of weight. */
  function Charged(c: Class, c': Class): real
    requires c.weight > 0.0
  {
    (c'.busy - c.busy) / c.weight
  }

  lemma {:induction false} ChargedAdds(c: Class, c1: Class, c2: Class)
    requires c.weight == c1.weight > 0.0
    ensures Charged(c, c2) == Charged(c, c1) + Charged(c1, c2)
  {
  }

  lemma {:induction false} ChargedOnce(c: Class, c': Class, elapsed: real)
    requires c.weight > 0.0 && c'.busy == c.busy + elapsed && c'.vruntime == c.vruntime + elapsed / c.weight
    ensures Charged(c, c') == c'.vruntime - c.vruntime
  {
  }

  /** A step either leaves a backlogged class's accounts alone or charges it. */
  predicate AccountStep(c: Class, c': Class)
  {
    && c.weight > 0.0 && c'.weight == c.weight
    && Charged(c, c') == c'.vruntime - c.vruntime
  }

  lemma {:induction false} ChargeStep(s: Fair, m: Move, id: ClassId)
    requires Agree(s) && id < |s.classes| && s.classes[id].hasEntry
    ensures id < |Step(s, m).classes| && AccountStep(s.classes[id], Step(s, m).classes[id])
  {
    assert ClassOk(s.classes[id], Mentions(s.ready, id));
    StepAgrees(s, m);
    var c, c' := s.classes[id], Step(s, m).classes[id];
    if m.DoCharge? && m.w < |s.running| && s.running[m.w] == Some(id) && m.elapsed >= 0.0 {
      ChargedOnce(c, c', m.elapsed);
    } else {
      Uncharged(s, m, id);
    }
  }

  lemma {:induction false} Uncharged(s: Fair, m: Move, id: ClassId)
    requires Agree(s) && id < |s.classes| && s.classes[id].hasEntry
    requires m.DoCharge? && m.w < |s.running| && s.running[m.w] == Some(id) ==> m.elapsed < 0.0
    ensures id < |Step(s, m).classes|
    ensures var c, c' := s.classes[id], Step(s, m).classes[id]; c'.busy == c.busy && c'.vruntime == c.vruntime
  {
    match m {
      case DoSubmit(_, className, weight) =>
        CreateAgrees(s, if className == "" then DEFAULT_CLASS else className, if weight > 0.0 then weight else 1.0);
      case _ =>
    }
  }

  /** A backlogged class's vruntime moves by exactly what it is charged. */
  lemma {:induction false} ChargeRun(s: Fair, moves: seq<Move>, id: ClassId)
    requires Agree(s) && Backlogged(s, moves, id)
    ensures AccountStep(s.classes[id], Run(s, moves).classes[id]) && Run(s, moves).classes[id].hasEntry
    decreases |moves|
  {
    assert ClassOk(s.classes[id], Mentions(s.ready, id));
    if moves != [] {
      StepAgrees(s, moves[0]);
      var s1 := Step(s, moves[0]);
      ChargeStep(s, moves[0], id);
      ChargeRun(s1, moves[1..], id);
      ChargedAdds(s.classes[id], s1.classes[id], Run(s, moves).classes[id]);
    }
  }

  /** A class with an entry is within N + 1 maximal jobs above the floor. */
  lemma {:induction false} NearFloor(s: Fair, id: ClassId, D: real)
    requires FairInv(s, D) && id < |s.classes| && s.classes[id].hasEntry
    ensures s.classes[id].weight > 0.0
    ensures s.floor <= s.classes[id].vruntime <= s.floor + Times(|s.running| + 1, D / s.classes[id].weight)
  {
    var e := EntryOf(s, id);
    assert KeyOk(s, e, D);
    assert ClassOk(s.classes[id], Mentions(s.ready, id)) && LagOk(s, id, D);
    TimesMonotone(0, InFlight(s, id), D / s.classes[id].weight);
  }

  lemma {:induction false} Spread(f: real, f': real, vi: real, vi': real, vj: real, vj': real, ti: real, tj: real)
    requires f <= vi <= f + ti && f' <= vi' <= f' + ti && f <= vj <= f + tj && f' <= vj' <= f' + tj
    ensures -(ti + tj) <= (vi' - vi) - (vj' - vj) <= ti + tj
  {
  }

  lemma {:induction false} BoundSplits(n: nat, D: real, wi: real, wj: real)
    requires wi > 0.0 && wj > 0.0
    ensures n as real * D * (1.0 / wi + 1.0 / wj) == Times(n, D / wi) + Times(n, D / wj)
  {
    TimesIsProduct(n, D / wi);
    TimesIsProduct(n, D / wj);
    var a, b, m := 1.0 / wi, 1.0 / wj, n as real;
    assert D / wi == D * a && D / wj == D * b;
    assert m * D * (a + b) == m * D * a + m * D * b;
    assert m * D * a == m * (D * a) && m * D * b == m * (D * b);
  }

  lemma {:induction false} NearFloorLater(s: Fair, moves: seq<Move>, id: ClassId, D: real)
    requires FairInv(s, D) && AllCost(moves, D) && Backlogged(s, moves, id)
    ensures var s', c := Run(s, moves), s.classes[id];
      && c.weight > 0.0
      && var t := Times(|s.running| + 1, D / c.weight);
         && s.floor <= c.vruntime <= s.floor + t
         && s'.floor <= s'.classes[id].vruntime <= s'.floor + t
         && Charged(c, s'.classes[id]) == s'.classes[id].vruntime - c.vruntime
  {
    RunFair(s, moves, D);
    ChargeRun(s, moves, id);
    NearFloor(s, id, D);
    NearFloor(Run(s, moves), id, D);
  }

  lemma {:induction false} ShareInJobs(s: Fair, moves: seq<Move>, i: ClassId, j: ClassId, D: real)
    requires FairInv(s, D) && AllCost(moves, D) && Backlogged(s, moves, i) && Backlogged(s, moves, j)
    ensures var s', ci, cj, n := Run(s, moves), s.classes[i], s.classes[j], |s.running| + 1;
      && ci.weight > 0.0 && cj.weight > 0.0
      && var t := Times(n, D / ci.weight) + Times(n, D / cj.weight);
         -t <= Charged(ci, s'.classes[i]) - Charged(cj, s'.classes[j]) <= t
  {
    var s', ci, cj, n := Run(s, moves), s.classes[i], s.classes[j], |s.running| + 1;
    NearFloorLater(s, moves, i, D);
    NearFloorLater(s, moves, j, D);
    Spread(s.floor, s'.floor, ci.vruntime, s'.classes[i].vruntime, cj.vruntime, s'.classes[j].vruntime,
           Times(n, D / ci.weight), Times(n, D / cj.weight));
  }

  /** The fairness bound between classes of weights `wi` and `wj` under `n - 1` workers. */
  function ShareBound(n: nat, D: real, wi: real, wj: real): (bound: real)
    requires wi > 0.0 && wj > 0.0
    ensures bound == Times(n, D / wi) + Times(n, D / wj)
  {
    BoundSplits(n, D, wi, wj);
    n as real * D * (1.0 / wi + 1.0 / wj)
  }

  lemma {:induction false} ShareFromInvariant(s: Fair, moves: seq<Move>, i: ClassId, j: ClassId, D: real)
    requires FairInv(s, D) && AllCost(moves, D) && Backlogged(s, moves, i) && Backlogged(s, moves, j)
    ensures var s', ci, cj := Run(s, moves), s.classes[i], s.classes[j];
      && ci.weight > 0.0 && cj.weight > 0.0
      && var bound := ShareBound(|s.running| + 1, D, ci.weight, cj.weight);
         -bound <= Charged(ci, s'.classes[i]) - Charged(cj, s'.classes[j]) <= bound
  {
    ShareInJobs(s, moves, i, j, D);
  }

  /**
   Proportional share: run N workers in any way for a while, then watch any further stretch in which two
   classes stay backlogged. Their charged times divided by their weights differ over that stretch by at
   most (N + 1) D (1 / w_i + 1 / w_j), where no job costs more than D.
   */
  lemma {:induction false} ProportionalShare(
      workers: nat, before: seq<Move>, during: seq<Move>, i: ClassId, j: ClassId, D: real)
    requires D >= 0.0 && AllCost(before, D) && AllCost(during, D)
    requires Backlogged(Run(Initial(workers), before), during, i) && Backlogged(Run(Initial(workers), before), during, j)
    ensures var s := Run(Initial(workers), before);
      var s', ci, cj := Run(s, during), s.classes[i], s.classes[j];
      && ci.weight > 0.0 && cj.weight > 0.0
      && var bound := ShareBound(workers + 1, D, ci.weight, cj.weight);
         -bound <= Charged(ci, s'.classes[i]) - Charged(cj, s'.classes[j]) <= bound
  {
    InitialFair(workers, D);
    RunFair(Initial(workers), before, D);
    ShareFromInvariant(Run(Initial(workers), before), during, i, j, D);
  }
}
