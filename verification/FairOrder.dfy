/** The floor and the keys of the ready map, over every run of the fair scheduler. */
module FairOrder {
  import opened Options
  import opened FairState
  import opened FairAgreement

  /** A run is any list of moves, by any workers and submitters, in any order. */
  function Run(s: Fair, moves: seq<Move>): (r: Fair)
    requires Agree(s)
    ensures Agree(r) && Extends(s, r)
    decreases |moves|
  {
    if moves == [] then s
    else
      StepAgrees(s, moves[0]);
      Run(Step(s, moves[0]), moves[1..])
  }

  /** The entry a move dispatches, if it does. */
  function Dispatched(s: Fair, m: Move): Option<Entry>
  {
    if m.DoDispatch? && s.ready != [] && m.w < |s.running| && s.running[m.w].None? then Some(s.ready[0]) else None
  }

  function Keys(s: Fair, moves: seq<Move>): seq<real>
    requires Agree(s)
    decreases |moves|
  {
    if moves == [] then []
    else
      StepAgrees(s, moves[0]);
      (match Dispatched(s, moves[0]) case Some(e) => [e.key] case None => []) + Keys(Step(s, moves[0]), moves[1..])
  }

  predicate NonDecreasing(ks: seq<real>, low: real)
  {
    ks == [] || (low <= ks[0] && NonDecreasing(ks[1..], ks[0]))
  }

  function LastOr(ks: seq<real>, default: real): real
  {
    if ks == [] then default else ks[|ks| - 1]
  }

  /** No ready key is below the floor or above the class's vruntime. */
  predicate InRange(s: Fair, e: Entry)
    requires e.id < |s.classes|
  {
    s.floor <= e.key <= s.classes[e.id].vruntime
  }

  predicate Ordered(s: Fair)
  {
    Agree(s) && forall e :: e in s.ready ==> InRange(s, e)
  }

  lemma {:induction false} SubmitOrdered(s: Fair, job: Job, className: string, weight: real)
    requires Ordered(s)
    ensures Ordered(Submit(s, job, className, weight))
  {
    var name, wt := if className == "" then DEFAULT_CLASS else className, if weight > 0.0 then weight else 1.0;
    SubmitAgrees(s, job, className, weight);
    CreateAgrees(s, name, wt);
    var p := FindOrCreate(s, name, wt).value;
    var s1, id, s' := p.0, p.1, Submit(s, job, className, weight);
    if !s1.classes[id].hasEntry {
      InsertMembers(s1.ready, Entry(s'.classes[id].vruntime, id));
    }
    forall e | e in s'.ready ensures InRange(s', e) {
      if e in s.ready {
        assert InRange(s, e);
      }
    }
  }

  lemma {:induction false} DispatchOrdered(s: Fair, w: nat)
    requires Ordered(s) && s.ready != [] && w < |s.running|
    ensures Ordered(Dispatch(s, w)) && Dispatch(s, w).floor == s.ready[0].key
  {
    var s', h, rest := Dispatch(s, w), s.ready[0], s.ready[1..];
    DispatchAgrees(s, w);
    assert h in s.ready && InRange(s, h);
    InsertMembers(rest, Entry(s.classes[h.id].vruntime, h.id));
    forall e | e in s'.ready ensures InRange(s', e) {
      if e in rest {
        OtherEntry(s, e);
        assert e in s.ready && InRange(s, e);
      }
    }
  }

  lemma {:induction false} ChargeOrdered(s: Fair, w: nat, elapsed: real)
    requires Ordered(s) && w < |s.running| && s.running[w].Some? && elapsed >= 0.0
    ensures Ordered(Charge(s, w, elapsed))
  {
    var s', id := Charge(s, w, elapsed), s.running[w].value;
    ChargeAgrees(s, w, elapsed);
    assert elapsed / s.classes[id].weight >= 0.0 by {
      assert ClassOk(s.classes[id], Mentions(s.ready, id));
    }
    forall e | e in s'.ready ensures InRange(s', e) {
      assert InRange(s, e);
    }
  }

  lemma {:induction false} StepOrdered(s: Fair, m: Move)
    requires Ordered(s)
    ensures Ordered(Step(s, m))
    ensures match Dispatched(s, m)
      case Some(e) => s.floor <= e.key == Step(s, m).floor
      case None => Step(s, m).floor == s.floor
  {
    StepAgrees(s, m);
    match m
    case DoRegister(name, weight) =>
      forall e | e in s.ready ensures InRange(Step(s, m), e) {
        assert InRange(s, e);
      }
    case DoSubmit(job, className, weight) => SubmitOrdered(s, job, className, weight);
    case DoDispatch(w) =>
      if Dispatched(s, m).Some? {
        DispatchOrdered(s, w);
        assert InRange(s, s.ready[0]);
      }
    case DoCharge(w, elapsed) => if Step(s, m) != s { ChargeOrdered(s, w, elapsed); }
  }

  lemma PrependKey(k: real, ks: seq<real>, low: real)
    requires low <= k && NonDecreasing(ks, k)
    ensures NonDecreasing([k] + ks, low) && LastOr([k] + ks, low) == LastOr(ks, k)
  {
    assert ([k] + ks)[1..] == ks;
  }

  lemma {:induction false} KeysOrdered(s: Fair, moves: seq<Move>)
    requires Ordered(s)
    ensures Ordered(Run(s, moves)) && NonDecreasing(Keys(s, moves), s.floor)
    ensures Run(s, moves).floor == LastOr(Keys(s, moves), s.floor)
    decreases |moves|
  {
    if moves != [] {
      var m, rest := moves[0], moves[1..];
      StepOrdered(s, m);
      var later := Keys(Step(s, m), rest);
      KeysOrdered(Step(s, m), rest);
      match Dispatched(s, m) {
        case Some(e) => PrependKey(e.key, later, s.floor);
        case None => assert Keys(s, moves) == later;
      }
    }
  }

  /**
   Whatever is submitted, registered or charged late, the dispatched keys of a run never decrease, the
   floor is the last of them, and no ready key is below the floor or above the class's vruntime.
   */
  lemma {:induction false} DispatchOrder(workers: nat, moves: seq<Move>)
    ensures var s, ks := Run(Initial(workers), moves), Keys(Initial(workers), moves);
      && NonDecreasing(ks, 0.0) && s.floor == LastOr(ks, 0.0)
      && forall e :: e in s.ready ==> s.floor <= e.key <= s.classes[e.id].vruntime
  {
    KeysOrdered(Initial(workers), moves);
    var s := Run(Initial(workers), moves);
    forall e | e in s.ready ensures s.floor <= e.key <= s.classes[e.id].vruntime {
      assert InRange(s, e);
    }
  }
}
