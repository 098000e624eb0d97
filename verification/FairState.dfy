/**
 The fair scheduler's accounting: everything its mutex protects, plus which class each worker is
 running. Every block that the source executes under the mutex is one step.
 */
module FairState {
  import opened Options

  type ClassId = nat
  type Job = nat

  datatype Class = Class(
    name: string, weight: real, vruntime: real, runnable: seq<Job>, hasEntry: bool, completed: nat, busy: real)

  datatype Entry = Entry(key: real, id: ClassId)

  /** `ready` lists the multimap in iteration order; `floor` is the tracked minimum vruntime. */
  datatype Fair = Fair(
    names: map<string, ClassId>, classes: seq<Class>, ready: seq<Entry>, floor: real,
    running: seq<Option<ClassId>>)

  datatype Error = NotPositive | AlreadyRegistered

  function Larger(a: real, b: real): real { if a < b then b else a }

  /** Inserting into the multimap: after every entry whose key is not larger. */
  function Insert(ready: seq<Entry>, e: Entry): (r: seq<Entry>)
    ensures |r| == |ready| + 1
  {
    if ready == [] || e.key < ready[0].key then [e] + ready
    else [ready[0]] + Insert(ready[1..], e)
  }

  /** The number of entries that name a class. */
  function Mentions(ready: seq<Entry>, id: ClassId): nat
  {
    if ready == [] then 0 else (if ready[0].id == id then 1 else 0) + Mentions(ready[1..], id)
  }

  predicate Sorted(ready: seq<Entry>)
  {
    ready == [] || (Sorted(ready[1..]) && forall e :: e in ready[1..] ==> ready[0].key <= e.key)
  }

  /** The name table and the class list are inverse to each other. */
  predicate Named(names: map<string, ClassId>, classes: seq<Class>)
  {
    && (forall n :: n in names ==> names[n] < |classes| && classes[names[n]].name == n)
    && (forall id :: 0 <= id < |classes| ==> classes[id].name in names && names[classes[id].name] == id)
  }

  predicate ClassOk(c: Class, mentions: nat)
  {
    c.weight > 0.0 && (c.hasEntry <==> c.runnable != []) && mentions == (if c.hasEntry then 1 else 0)
  }

  /**
   Agreement of the maps at every release of the mutex: a class has an entry exactly when it has
   work, and then exactly one entry names it.
   */
  predicate Agree(s: Fair)
  {
    && Named(s.names, s.classes)
    && Sorted(s.ready)
    && (forall e :: e in s.ready ==> e.id < |s.classes|)
    && (forall id :: 0 <= id < |s.classes| ==> ClassOk(s.classes[id], Mentions(s.ready, id)))
    && (forall w :: 0 <= w < |s.running| && s.running[w].Some? ==> s.running[w].value < |s.classes|)
  }

  function FindOrCreate(s: Fair, name: string, weight: real): Result<(Fair, ClassId), Error>
  {
    if name in s.names then Ok((s, s.names[name]))
    else if weight <= 0.0 then Err(NotPositive)
    else
      var id := |s.classes|;
      Ok((s.(classes := s.classes + [Class(name, weight, s.floor, [], false, 0, 0.0)], names := s.names[name := id]), id))
  }

  function Register(s: Fair, name: string, weight: real): Result<Fair, Error>
  {
    if name in s.names then Err(AlreadyRegistered)
    else
      match FindOrCreate(s, name, weight)
      case Err(e) => Err(e)
      case Ok(p) => Ok(p.0)
  }

  /** Appends the job and, if the class had no entry, enters it at its vruntime raised to the floor. */
  function Enqueue(s: Fair, id: ClassId, job: Job): Fair
    requires id < |s.classes|
  {
    var c := s.classes[id].(runnable := s.classes[id].runnable + [job]);
    if c.hasEntry then s.(classes := s.classes[id := c])
    else
      var v := Larger(c.vruntime, s.floor);
      s.(classes := s.classes[id := c.(vruntime := v, hasEntry := true)], ready := Insert(s.ready, Entry(v, id)))
  }

  const DEFAULT_CLASS := "default"

  function Submit(s: Fair, job: Job, className: string, weight: real): Fair
    requires Agree(s)
  {
    var name := if className == "" then DEFAULT_CLASS else className;
    match FindOrCreate(s, name, if weight > 0.0 then weight else 1.0)
    case Ok(p) => Enqueue(p.0, p.1, job)
    case Err(_) => s
  }

  /** A worker takes the first job of the class with the smallest key; the class re-enters at its present vruntime. */
  function Dispatch(s: Fair, w: nat): Fair
    requires Agree(s) && s.ready != [] && w < |s.running|
  {
    var e := s.ready[0];
    MentionedHasWork(s, e);
    var c := s.classes[e.id].(runnable := s.classes[e.id].runnable[1..]);
    var rest := s.ready[1..];
    var s1 := s.(floor := Larger(s.floor, e.key), running := s.running[w := Some(e.id)]);
    if c.runnable != [] then
      s1.(classes := s.classes[e.id := c], ready := Insert(rest, Entry(c.vruntime, e.id)))
    else
      s1.(classes := s.classes[e.id := c.(hasEntry := false)], ready := rest)
  }

  /** A worker whose job took `elapsed` charges it to the class. */
  function Charge(s: Fair, w: nat, elapsed: real): Fair
    requires Agree(s) && w < |s.running| && s.running[w].Some?
  {
    var id := s.running[w].value;
    var c := s.classes[id];
    s.(classes := s.classes[id := c.(vruntime := c.vruntime + elapsed / c.weight, completed := c.completed + 1,
                                     busy := c.busy + elapsed)],
       running := s.running[w := None])
  }

  lemma {:induction false} MentionedOnce(ready: seq<Entry>, e: Entry)
    requires e in ready
    ensures Mentions(ready, e.id) >= 1
  {
    if ready[0] != e {
      MentionedOnce(ready[1..], e);
    }
  }

  /** So the dispatch never takes the front of an empty queue. */
  lemma {:induction false} MentionedHasWork(s: Fair, e: Entry)
    requires Agree(s) && e in s.ready
    ensures s.classes[e.id].hasEntry && s.classes[e.id].runnable != []
  {
    MentionedOnce(s.ready, e);
    assert ClassOk(s.classes[e.id], Mentions(s.ready, e.id));
  }

  datatype Move =
    | DoRegister(name: string, weight: real)
    | DoSubmit(job: Job, className: string, weight: real)
    | DoDispatch(w: nat)
    | DoCharge(w: nat, elapsed: real)

  /** A move that is not possible leaves the state alone. */
  function Step(s: Fair, m: Move): Fair
    requires Agree(s)
  {
    match m
    case DoRegister(name, weight) => (match Register(s, name, weight) case Ok(s') => s' case Err(_) => s)
    case DoSubmit(job, className, weight) => Submit(s, job, className, weight)
    case DoDispatch(w) => if s.ready != [] && w < |s.running| && s.running[w].None? then Dispatch(s, w) else s
    case DoCharge(w, elapsed) =>
      if w < |s.running| && s.running[w].Some? && elapsed >= 0.0 then Charge(s, w, elapsed) else s
  }

  function Initial(workers: nat): Fair
  {
    Fair(map[], [], [], 0.0, seq(workers, _ => None))
  }
}
