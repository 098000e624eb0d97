/** What the fair scheduler's classes hold: who is in them, which jobs, in which order, and what they have been charged. */
module FairContents {
  import opened Options
  import opened Sequences
  import opened Sums
  import opened FairState
  import opened FairAgreement
  import opened FairOrder
  import opened FairShare

  // Creating classes

  predicate Known(s: Fair, name: string)
  {
    exists id :: 0 <= id < |s.classes| && s.classes[id].name == name
  }

  /** One class has been added, at the floor, and nothing else about the classes has changed. */
  predicate Adds(s: Fair, s': Fair, name: string, weight: real, runnable: seq<Job>)
  {
    && |s'.classes| == |s.classes| + 1 && (forall id :: 0 <= id < |s.classes| ==> s'.classes[id] == s.classes[id])
    && s'.floor == s.floor && s'.running == s.running
    && var c := s'.classes[|s.classes|];
       && c.name == name && c.weight == weight && c.vruntime == s.floor && c.runnable == runnable
       && c.hasEntry == (runnable != []) && c.completed == 0 && c.busy == 0.0
  }

  /** The class of that name has one more job, at the end, and nothing else about the classes has changed. */
  predicate Appends(s: Fair, s': Fair, name: string, job: Job)
  {
    && |s'.classes| == |s.classes| && s'.floor == s.floor && s'.running == s.running
    && forall id :: 0 <= id < |s.classes| ==>
         var c, c' := s.classes[id], s'.classes[id];
         if c.name != name then c' == c
         else
           && c'.name == name && c'.weight == c.weight && c'.runnable == c.runnable + [job] && c'.hasEntry
           && c'.vruntime == (if c.hasEntry || s.floor <= c.vruntime then c.vruntime else s.floor)
           && c'.completed == c.completed && c'.busy == c.busy
  }

  lemma KnownByTable(s: Fair, name: string)
    requires Agree(s)
    ensures Known(s, name) <==> name in s.names
  {
    if name in s.names {
      assert s.classes[s.names[name]].name == name;
    }
  }

  /** Registering refuses a known name, then a weight that is not positive, and otherwise adds the class asked for. */
  lemma {:induction false} RegisterOutcome(s: Fair, name: string, weight: real)
    requires Agree(s)
    ensures Register(s, name, weight) == Err(AlreadyRegistered) <==> Known(s, name)
    ensures Register(s, name, weight) == Err(NotPositive) <==> !Known(s, name) && weight <= 0.0
    ensures match Register(s, name, weight)
      case Ok(s') => Adds(s, s', name, weight, []) && s'.ready == s.ready
      case Err(_) => true
  {
    KnownByTable(s, name);
  }

  /** What a submission leaves behind. An unnamed class is the default one; a weight that is not positive counts as 1. */
  predicate Submitted(s: Fair, s': Fair, job: Job, className: string, weight: real)
  {
    var name := if className == "" then "default" else className;
    if Known(s, name) then Appends(s, s', name, job)
    else Adds(s, s', name, if weight > 0.0 then weight else 1.0, [job])
  }

  /** Classes with different numbers have different names. */
  lemma NamesDiffer(s: Fair, id: ClassId, name: string)
    requires Agree(s) && name in s.names && id < |s.classes|
    ensures s.classes[id].name == name <==> id == s.names[name]
  {
  }

  lemma {:induction false} SubmitToKnown(s: Fair, job: Job, className: string, weight: real, name: string)
    requires Agree(s) && name == (if className == "" then "default" else className) && name in s.names
    ensures Appends(s, Submit(s, job, className, weight), name, job)
  {
    forall id | 0 <= id < |s.classes| ensures s.classes[id].name == name <==> id == s.names[name] {
      NamesDiffer(s, id, name);
    }
  }

  /** A submission adds its job to the class of its name, which is made with the weight asked for if it is new. */
  lemma {:induction false} SubmitOutcome(s: Fair, job: Job, className: string, weight: real)
    requires Agree(s)
    ensures Submitted(s, Submit(s, job, className, weight), job, className, weight)
  {
    var name := if className == "" then "default" else className;
    KnownByTable(s, name);
    if name in s.names {
      SubmitToKnown(s, job, className, weight, name);
    }
  }

  // The order of a class's jobs

  /** The jobs waiting under a name, first in line first. */
  function Backlog(s: Fair, name: string): seq<Job>
    requires Agree(s)
  {
    if name in s.names then s.classes[s.names[name]].runnable else []
  }

  /** The job that a move takes from under the name, if it does. */
  function TakenBy(s: Fair, m: Move, name: string): seq<Job>
    requires Agree(s)
  {
    match Dispatched(s, m)
    case Some(e) =>
      MentionedHasWork(s, e);
      if s.classes[e.id].name == name then [s.classes[e.id].runnable[0]] else []
    case None => []
  }

  function BroughtBy(m: Move, name: string): seq<Job>
  {
    if m.DoSubmit? && name == (if m.className == "" then "default" else m.className) then [m.job] else []
  }

  function Taken(s: Fair, moves: seq<Move>, name: string): seq<Job>
    requires Agree(s)
    decreases |moves|
  {
    if moves == [] then []
    else
      StepAgrees(s, moves[0]);
      TakenBy(s, moves[0], name) + Taken(Step(s, moves[0]), moves[1..], name)
  }

  function Brought(moves: seq<Move>, name: string): seq<Job>
  {
    if moves == [] then [] else BroughtBy(moves[0], name) + Brought(moves[1..], name)
  }

  /** Appending to one class, or adding one, changes the backlog of that name only. */
  lemma {:induction false} AppendsBacklog(s: Fair, s': Fair, into: string, job: Job, name: string)
    requires Agree(s) && Agree(s') && Appends(s, s', into, job) && s'.names == s.names
    ensures Backlog(s', name) == Backlog(s, name) + (if name == into && name in s.names then [job] else [])
  {
    if name in s.names {
      assert s.classes[s.names[name]].name == name;
    }
  }

  lemma {:induction false} AddsBacklog(s: Fair, s': Fair, into: string, weight: real, job: Job, name: string)
    requires Agree(s) && Agree(s') && Adds(s, s', into, weight, [job]) && into !in s.names
    requires s'.names == s.names[into := |s.classes|]
    ensures Backlog(s', name) == Backlog(s, name) + (if name == into then [job] else [])
  {
  }

  /** A move takes the first of the backlog, if any, and adds what it brings at the end. */
  predicate KeepsOrder(s: Fair, m: Move, name: string)
    requires Agree(s) && Agree(Step(s, m))
  {
    TakenBy(s, m, name) + Backlog(Step(s, m), name) == Backlog(s, name) + BroughtBy(m, name)
  }

  lemma {:induction false} SubmitBacklog(s: Fair, s': Fair, job: Job, className: string, weight: real, name: string)
    requires Agree(s) && Agree(s') && Submitted(s, s', job, className, weight)
    requires var into := if className == "" then "default" else className;
      s'.names == if into in s.names then s.names else s.names[into := |s.classes|]
    ensures Backlog(s', name) == Backlog(s, name) + BroughtBy(DoSubmit(job, className, weight), name)
  {
    var into := if className == "" then "default" else className;
    KnownByTable(s, into);
    if into in s.names {
      AppendsBacklog(s, s', into, job, name);
    } else {
      AddsBacklog(s, s', into, if weight > 0.0 then weight else 1.0, job, name);
    }
  }

  lemma {:induction false} SubmitKeepsOrder(s: Fair, job: Job, className: string, weight: real, name: string)
    requires Agree(s) && Agree(Submit(s, job, className, weight))
    ensures KeepsOrder(s, DoSubmit(job, className, weight), name)
  {
    var s' := Submit(s, job, className, weight);
    SubmitOutcome(s, job, className, weight);
    SubmitNames(s, job, className, weight);
    SubmitBacklog(s, s', job, className, weight, name);
    assert [] + Backlog(s', name) == Backlog(s', name);
  }

  lemma SubmitNames(s: Fair, job: Job, className: string, weight: real)
    requires Agree(s)
    ensures var into := if className == "" then "default" else className;
      Submit(s, job, className, weight).names == if into in s.names then s.names else s.names[into := |s.classes|]
  {
  }

  lemma {:induction false} DispatchKeepsOrder(s: Fair, w: nat, name: string)
    requires Agree(s) && s.ready != [] && w < |s.running| && s.running[w].None? && Agree(Dispatch(s, w))
    ensures KeepsOrder(s, DoDispatch(w), name)
  {
    MentionedHasWork(s, s.ready[0]);
    var id := s.ready[0].id;
    if name in s.names {
      NamesDiffer(s, id, name);
    }
    assert s.classes[id].runnable == [s.classes[id].runnable[0]] + s.classes[id].runnable[1..];
  }

  lemma RegisterBacklog(s: Fair, s': Fair, weight: real, into: string, name: string)
    requires Agree(s) && Agree(s') && into !in s.names && Adds(s, s', into, weight, []) && s'.names == s.names[into := |s.classes|]
    ensures Backlog(s', name) == Backlog(s, name)
  {
  }

  lemma {:induction false} RegisterKeepsOrder(s: Fair, m: Move, name: string)
    requires Agree(s) && Agree(Step(s, m)) && m.DoRegister?
    ensures KeepsOrder(s, m, name)
  {
    RegisterOutcome(s, m.name, m.weight);
    KnownByTable(s, m.name);
    if Register(s, m.name, m.weight).Ok? { RegisterBacklog(s, Step(s, m), m.weight, m.name, name); }
    assert [] + Backlog(Step(s, m), name) == Backlog(s, name) + [];
  }

  lemma {:induction false} ChargeKeepsOrder(s: Fair, m: Move, name: string)
    requires Agree(s) && Agree(Step(s, m)) && m.DoCharge?
    ensures KeepsOrder(s, m, name)
  {
    assert Backlog(Step(s, m), name) == Backlog(s, name);
    assert [] + Backlog(Step(s, m), name) == Backlog(s, name) + [];
  }

  lemma {:induction false} NoDispatchKeepsOrder(s: Fair, m: Move, name: string)
    requires Agree(s) && Agree(Step(s, m)) && m.DoDispatch? && Dispatched(s, m).None?
    ensures KeepsOrder(s, m, name)
  {
    assert [] + Backlog(s, name) == Backlog(s, name) + [];
  }

  lemma {:induction false} StepKeepsOrder(s: Fair, m: Move, name: string)
    requires Agree(s)
    ensures Agree(Step(s, m)) && KeepsOrder(s, m, name)
  {
    StepAgrees(s, m);
    match m
    case DoRegister(_, _) => RegisterKeepsOrder(s, m, name);
    case DoSubmit(job, className, weight) => SubmitKeepsOrder(s, job, className, weight, name);
    case DoDispatch(w) =>
      if Dispatched(s, m).Some? { DispatchKeepsOrder(s, w, name); } else { NoDispatchKeepsOrder(s, m, name); }
    case DoCharge(_, _) => ChargeKeepsOrder(s, m, name);
  }

  /**
   First come, first served within a class: over every run, the jobs taken from under a name, in order, and then those
   still waiting are those that waited at the start and then those submitted under the name, in order.
   */
  lemma {:induction false} FirstComeFirstServed(s: Fair, moves: seq<Move>, name: string)
    requires Agree(s)
    ensures Taken(s, moves, name) + Backlog(Run(s, moves), name) == Backlog(s, name) + Brought(moves, name)
    decreases |moves|
  {
    if moves == [] {
      assert Backlog(s, name) + [] == Backlog(s, name);
      assert [] + Backlog(s, name) == Backlog(s, name);
    } else {
      var s1, rest := Step(s, moves[0]), moves[1..];
      StepKeepsOrder(s, moves[0], name);
      FirstComeFirstServed(s1, rest, name);
      Regroup(TakenBy(s, moves[0], name), Taken(s1, rest, name), Backlog(Run(s, moves), name), Backlog(s, name),
              BroughtBy(moves[0], name), Brought(rest, name), Backlog(s1, name));
    }
  }

  // Completions and charges

  function Completed(s: Fair, id: ClassId): nat
  {
    if id < |s.classes| then s.classes[id].completed else 0
  }

  function Busy(s: Fair, id: ClassId): real
  {
    if id < |s.classes| then s.classes[id].busy else 0.0
  }

  function DispatchOf(s: Fair, m: Move, id: ClassId): nat
  {
    match Dispatched(s, m)
    case Some(e) => if e.id == id then 1 else 0
    case None => 0
  }

  /** How many jobs of the class a run dispatches. */
  function Dispatches(s: Fair, moves: seq<Move>, id: ClassId): nat
    requires Agree(s)
    decreases |moves|
  {
    if moves == [] then 0
    else
      StepAgrees(s, moves[0]);
      DispatchOf(s, moves[0], id) + Dispatches(Step(s, moves[0]), moves[1..], id)
  }

  function TimeOf(s: Fair, m: Move, id: ClassId): real
  {
    if m.DoCharge? && m.w < |s.running| && s.running[m.w] == Some(id) && m.elapsed >= 0.0 then m.elapsed else 0.0
  }

  /** The time that the workers report for jobs of the class. */
  function TimeCharged(s: Fair, moves: seq<Move>, id: ClassId): real
    requires Agree(s)
    decreases |moves|
  {
    if moves == [] then 0.0
    else
      StepAgrees(s, moves[0]);
      TimeOf(s, moves[0], id) + TimeCharged(Step(s, moves[0]), moves[1..], id)
  }

  lemma {:induction false} DispatchCounts(s: Fair, w: nat, id: ClassId)
    requires Agree(s) && s.ready != [] && w < |s.running| && s.running[w].None?
    ensures var s' := Dispatch(s, w);
      Completed(s', id) + InFlight(s', id) == Completed(s, id) + InFlight(s, id) + DispatchOf(s, DoDispatch(w), id)
    ensures Busy(Dispatch(s, w), id) == Busy(s, id)
  {
    InFlightUpdate(s, Dispatch(s, w), w, Some(s.ready[0].id), id);
  }

  lemma {:induction false} ChargeCounts(s: Fair, w: nat, elapsed: real, id: ClassId)
    requires Agree(s) && w < |s.running| && s.running[w].Some? && elapsed >= 0.0
    ensures var s' := Charge(s, w, elapsed);
      Completed(s', id) + InFlight(s', id) == Completed(s, id) + InFlight(s, id)
    ensures Busy(Charge(s, w, elapsed), id) == Busy(s, id) + TimeOf(s, DoCharge(w, elapsed), id)
  {
    InFlightUpdate(s, Charge(s, w, elapsed), w, None, id);
  }

  lemma {:induction false} OthersCount(s: Fair, m: Move, id: ClassId)
    requires Agree(s) && (m.DoRegister? || m.DoSubmit?)
    ensures Completed(Step(s, m), id) == Completed(s, id) && Busy(Step(s, m), id) == Busy(s, id)
    ensures InFlight(Step(s, m), id) == InFlight(s, id)
  {
  }

  lemma {:induction false} StepCounts(s: Fair, m: Move, id: ClassId)
    requires Agree(s)
    ensures Completed(Step(s, m), id) + InFlight(Step(s, m), id) == Completed(s, id) + InFlight(s, id) + DispatchOf(s, m, id)
    ensures Busy(Step(s, m), id) == Busy(s, id) + TimeOf(s, m, id)
  {
    match m
    case DoDispatch(w) => if Dispatched(s, m).Some? { DispatchCounts(s, w, id); }
    case DoCharge(w, elapsed) => if Step(s, m) != s { ChargeCounts(s, w, elapsed, id); }
    case _ => OthersCount(s, m, id);
  }

  lemma {:induction false} CountsRun(s: Fair, moves: seq<Move>, id: ClassId)
    requires Agree(s)
    ensures Completed(Run(s, moves), id) + InFlight(Run(s, moves), id) ==
            Completed(s, id) + InFlight(s, id) + Dispatches(s, moves, id)
    ensures Busy(Run(s, moves), id) == Busy(s, id) + TimeCharged(s, moves, id)
    decreases |moves|
  {
    if moves != [] {
      StepAgrees(s, moves[0]);
      StepCounts(s, moves[0], id);
      CountsRun(Step(s, moves[0]), moves[1..], id);
    }
  }

  /**
   The accounts: over every run from the start, a class's completed jobs and those in flight are the jobs dispatched
   from it, and its busy time is the sum of the times reported for them.
   */
  lemma {:induction false} AccountsAreExact(workers: nat, moves: seq<Move>, id: ClassId)
    ensures var s0, s := Initial(workers), Run(Initial(workers), moves);
      id < |s.classes| ==>
        && s.classes[id].completed + InFlight(s, id) == Dispatches(s0, moves, id)
        && s.classes[id].busy == TimeCharged(s0, moves, id)
  {
    var s0 := Initial(workers);
    NothingInFlight(s0, id);
    CountsRun(s0, moves, id);
  }
}
