/** The fair scheduler as an object: the blocks its mutex protects, each proved to be one step of the model. */
module FairScheduler {
  import opened Options
  import opened FairState
  import opened FairAgreement
  import opened FairContents

  datatype Snapshot = Snapshot(name: string, weight: real, vruntime: real, completed: nat, busy: real)

  function SnapshotOf(c: Class): Snapshot
  {
    Snapshot(c.name, c.weight, c.vruntime, c.completed, c.busy)
  }

  class FairScheduler {
    var nameToId: map<string, ClassId>
    var classes: seq<Class>
    var ready: seq<Entry>
    var minVruntime: real
    // The class each worker's job belongs to, from its dispatch to its charge: a local of that worker.
    ghost var running: seq<Option<ClassId>>

    ghost function State(): Fair
      reads this
    {
      Fair(nameToId, classes, ready, minVruntime, running)
    }

    ghost predicate Valid()
      reads this
    {
      Agree(State())
    }

    constructor (numWorkers: nat)
      ensures State() == Initial(numWorkers) && Valid()
    {
      nameToId, classes, ready, minVruntime := map[], [], [], 0.0;
      running := seq(numWorkers, _ => None);
    }

    /** A scheduler needs at least one worker. */
    static method Create(numWorkers: nat) returns (s: FairScheduler?)
      ensures s == null <==> numWorkers == 0
      ensures s != null ==> fresh(s) && s.State() == Initial(numWorkers) && s.Valid()
    {
      if numWorkers == 0 {
        return null;
      }
      s := new FairScheduler(numWorkers);
    }

    method FindOrCreateClassLocked(name: string, weight: real) returns (r: Result<ClassId, Error>)
      requires Valid()
      modifies this
      ensures Valid()
      ensures match FindOrCreate(old(State()), name, weight)
        case Ok(p) => r == Ok(p.1) && State() == p.0 && p.1 < |classes|
        case Err(e) => r == Err(e) && State() == old(State())
      ensures r.Ok? ==> classes[r.value].name == name
      ensures if old(Known(State(), name)) then r.Ok? && State() == old(State())
        else if weight <= 0.0 then r == Err(NotPositive) && State() == old(State())
        else r == Ok(|old(classes)|) && Adds(old(State()), State(), name, weight, [])
    {
      CreateAgrees(State(), name, weight);
      KnownByTable(State(), name);
      if name in nameToId {
        return Ok(nameToId[name]);
      }
      if weight <= 0.0 {
        return Err(NotPositive);
      }
      var id := |classes|;
      var state := Class(name, weight, minVruntime, [], false, 0, 0.0);
      classes := classes + [state];
      nameToId := nameToId[name := id];
      r := Ok(id);
    }

    method RegisterClass(name: string, weight: real) returns (r: Result<(), Error>)
      requires Valid()
      modifies this
      ensures Valid()
      ensures match Register(old(State()), name, weight)
        case Ok(s') => r.Ok? && State() == s'
        case Err(e) => r == Err(e) && State() == old(State())
      ensures if old(Known(State(), name)) then r == Err(AlreadyRegistered) && State() == old(State())
        else if weight <= 0.0 then r == Err(NotPositive) && State() == old(State())
        else r.Ok? && Adds(old(State()), State(), name, weight, [])
    {
      KnownByTable(State(), name);
      if name in nameToId {
        return Err(AlreadyRegistered);
      }
      var created := FindOrCreateClassLocked(name, weight);
      match created {
        case Ok(_) => r := Ok(());
        case Err(e) => r := Err(e);
      }
    }

    /** The locked part of `submit`. */
    method SubmitLocked(job: Job, className: string, weight: real)
      requires Valid()
      modifies this
      ensures Valid() && State() == Submit(old(State()), job, className, weight)
      ensures Submitted(old(State()), State(), job, className, weight)
    {
      ghost var before := State();
      SubmitAgrees(before, job, className, weight);
      SubmitOutcome(before, job, className, weight);
      var name := if className == "" then DEFAULT_CLASS else className;
      var created := FindOrCreateClassLocked(name, if weight > 0.0 then weight else 1.0);
      var id := created.value;
      var state := classes[id];
      state := state.(runnable := state.runnable + [job]);
      if !state.hasEntry {
        state := state.(vruntime := if state.vruntime < minVruntime then minVruntime else state.vruntime);
        ready := Insert(ready, Entry(state.vruntime, id));
        state := state.(hasEntry := true);
      }
      classes := classes[id := state];
    }

    /** The locked part of `worker_loop` that looks for work. */
    method DispatchLocked(ghost w: nat) returns (d: Option<(ClassId, Job)>)
      requires Valid() && w < |running|
      modifies this
      ensures Valid()
      ensures if old(ready) == [] then d == None && State() == old(State())
        else
          var id := old(ready)[0].id;
          && State() == Dispatch(old(State()), w)
          && old(classes)[id].runnable != [] && d == Some((id, old(classes)[id].runnable[0]))
    {
      if ready == [] {
        return None;
      }
      DispatchAgrees(State(), w);
      MentionedHasWork(State(), ready[0]);
      var it := ready[0];
      ready := ready[1..];
      minVruntime := if minVruntime < it.key then it.key else minVruntime;
      var state := classes[it.id];
      var job := state.runnable[0];
      state := state.(runnable := state.runnable[1..]);
      if state.runnable != [] {
        ready := Insert(ready, Entry(state.vruntime, it.id));
      } else {
        state := state.(hasEntry := false);
      }
      classes := classes[it.id := state];
      running := running[w := Some(it.id)];
      d := Some((it.id, job));
    }

    /** The locked part of `worker_loop` that charges a finished job. */
    method ChargeLocked(id: ClassId, elapsed: real, ghost w: nat)
      requires Valid() && w < |running| && running[w] == Some(id)
      modifies this
      ensures Valid() && State() == Charge(old(State()), w, elapsed)
      ensures id < |classes| == |old(classes)| && old(classes)[id].weight > 0.0
      ensures var c, c' := old(classes)[id], classes[id];
        && c'.completed == c.completed + 1 && c'.busy == c.busy + elapsed && c'.vruntime == c.vruntime + elapsed / c.weight
        && c'.name == c.name && c'.weight == c.weight && c'.runnable == c.runnable && c'.hasEntry == c.hasEntry
      ensures forall j :: 0 <= j < |classes| && j != id ==> classes[j] == old(classes)[j]
    {
      ChargeAgrees(State(), w, elapsed);
      var state := classes[id];
      assert ClassOk(state, Mentions(ready, id));
      state := state.(vruntime := state.vruntime + elapsed / state.weight, completed := state.completed + 1,
                      busy := state.busy + elapsed);
      classes := classes[id := state];
      running := running[w := None];
    }

    method FairnessSnapshot() returns (result: seq<Snapshot>)
      ensures |result| == |classes|
      ensures forall i :: 0 <= i < |classes| ==>
        && result[i].name == classes[i].name && result[i].weight == classes[i].weight
        && result[i].vruntime == classes[i].vruntime
        && result[i].completed == classes[i].completed && result[i].busy == classes[i].busy
    {
      result := [];
      for i := 0 to |classes|
        invariant |result| == i && forall k :: 0 <= k < i ==> result[k] == SnapshotOf(classes[k])
      {
        result := result + [SnapshotOf(classes[i])];
      }
    }
  }
}
