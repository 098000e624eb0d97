/** The name table, the queues and the ready map stay in agreement. */
module FairAgreement {
  import opened Options
  import opened FairState

  lemma {:induction false} InsertMembers(ready: seq<Entry>, e: Entry)
    ensures forall x :: x in Insert(ready, e) <==> x == e || x in ready
  {
    if ready == [] || e.key < ready[0].key {
    } else {
      InsertMembers(ready[1..], e);
      assert ready == [ready[0]] + ready[1..];
    }
  }

  lemma {:induction false} InsertSorted(ready: seq<Entry>, e: Entry)
    requires Sorted(ready)
    ensures Sorted(Insert(ready, e))
  {
    if ready == [] {
    } else if e.key < ready[0].key {
      assert ready == [ready[0]] + ready[1..];
      assert ([e] + ready)[1..] == ready;
    } else {
      InsertSorted(ready[1..], e);
      InsertMembers(ready[1..], e);
      assert Insert(ready, e)[1..] == Insert(ready[1..], e);
    }
  }

  /** The multimap keeps entries of equal keys in the order of their insertion. */
  lemma {:induction false} InsertPosition(ready: seq<Entry>, e: Entry) returns (i: nat)
    requires Sorted(ready)
    ensures i <= |ready| && Insert(ready, e) == ready[..i] + [e] + ready[i..]
    ensures forall j :: 0 <= j < i ==> ready[j].key <= e.key
    ensures forall j :: i <= j < |ready| ==> e.key < ready[j].key
  {
    if ready == [] || e.key < ready[0].key {
      i := 0;
      assert forall j :: 0 < j < |ready| ==> ready[j] in ready[1..];
    } else {
      var k := InsertPosition(ready[1..], e);
      i := k + 1;
    }
  }

  lemma {:induction false} InsertMentions(ready: seq<Entry>, e: Entry, id: ClassId)
    ensures Mentions(Insert(ready, e), id) == Mentions(ready, id) + (if e.id == id then 1 else 0)
  {
    if ready == [] || e.key < ready[0].key {
      assert ([e] + ready)[1..] == ready;
    } else {
      InsertMentions(ready[1..], e, id);
      assert Insert(ready, e)[1..] == Insert(ready[1..], e);
    }
  }

  lemma {:induction false} NotMentioned(ready: seq<Entry>, id: ClassId)
    requires forall e :: e in ready ==> e.id != id
    ensures Mentions(ready, id) == 0
  {
    if ready != [] {
      NotMentioned(ready[1..], id);
    }
  }

  lemma {:induction false} MentionWitness(ready: seq<Entry>, id: ClassId) returns (e: Entry)
    requires Mentions(ready, id) > 0
    ensures e in ready && e.id == id
  {
    if ready[0].id == id {
      e := ready[0];
    } else {
      e := MentionWitness(ready[1..], id);
    }
  }

  /** A class with work has an entry in the ready map. */
  lemma {:induction false} EntryOf(s: Fair, id: ClassId) returns (e: Entry)
    requires Agree(s) && id < |s.classes| && s.classes[id].hasEntry
    ensures e in s.ready && e.id == id
  {
    assert ClassOk(s.classes[id], Mentions(s.ready, id));
    e := MentionWitness(s.ready, id);
  }

  /** The entries after the first name other classes. */
  lemma {:induction false} OtherEntry(s: Fair, x: Entry)
    requires Agree(s) && s.ready != [] && x in s.ready[1..]
    ensures x.id != s.ready[0].id
  {
    MentionedOnce(s.ready[1..], x);
    assert ClassOk(s.classes[s.ready[0].id], Mentions(s.ready, s.ready[0].id)) by {
      assert s.ready[0] in s.ready;
    }
  }

  lemma {:induction false} CreateAgrees(s: Fair, name: string, weight: real)
    requires Agree(s)
    ensures match FindOrCreate(s, name, weight)
      case Err(_) => name !in s.names && weight <= 0.0
      case Ok(p) => Agree(p.0) && p.1 < |p.0.classes| && p.0.classes[p.1].name == name
  {
    if name !in s.names && weight > 0.0 {
      var s' := FindOrCreate(s, name, weight).value.0;
      NotMentioned(s.ready, |s.classes|);
      forall id | 0 <= id < |s'.classes| ensures ClassOk(s'.classes[id], Mentions(s'.ready, id)) {
        if id < |s.classes| {
          assert ClassOk(s.classes[id], Mentions(s.ready, id));
        }
      }
      forall id | 0 <= id < |s'.classes| ensures s'.classes[id].name in s'.names && s'.names[s'.classes[id].name] == id {
        if id < |s.classes| {
          assert s'.classes[id] == s.classes[id];
        }
      }
    }
  }

  /** Replacing a class by one of the same name and weight, with the ready map following suit. */
  lemma {:induction false} UpdateAgrees(s: Fair, s': Fair, id: ClassId, c: Class)
    requires Agree(s) && id < |s.classes| && c.name == s.classes[id].name
    requires s'.names == s.names && s'.classes == s.classes[id := c]
    requires Sorted(s'.ready) && ClassOk(c, Mentions(s'.ready, id))
    requires forall e :: e in s'.ready ==> e.id < |s.classes|
    requires forall j :: 0 <= j < |s.classes| && j != id ==> Mentions(s'.ready, j) == Mentions(s.ready, j)
    requires forall w :: 0 <= w < |s'.running| && s'.running[w].Some? ==> s'.running[w].value < |s.classes|
    ensures Agree(s')
  {
    forall j | 0 <= j < |s'.classes| ensures ClassOk(s'.classes[j], Mentions(s'.ready, j)) {
      if j != id {
        assert ClassOk(s.classes[j], Mentions(s.ready, j));
      }
    }
  }

  lemma {:induction false} EnqueueAgrees(s: Fair, id: ClassId, job: Job)
    requires Agree(s) && id < |s.classes|
    ensures Agree(Enqueue(s, id, job))
  {
    var s' := Enqueue(s, id, job);
    assert ClassOk(s.classes[id], Mentions(s.ready, id));
    if !s.classes[id].hasEntry {
      var e := Entry(Larger(s.classes[id].vruntime, s.floor), id);
      InsertSorted(s.ready, e);
      InsertMembers(s.ready, e);
      forall j ensures Mentions(s'.ready, j) == Mentions(s.ready, j) + (if j == id then 1 else 0) {
        InsertMentions(s.ready, e, j);
      }
    }
    UpdateAgrees(s, s', id, s'.classes[id]);
  }

  lemma {:induction false} DispatchAgrees(s: Fair, w: nat)
    requires Agree(s) && s.ready != [] && w < |s.running|
    ensures Agree(Dispatch(s, w))
  {
    var s', e, rest := Dispatch(s, w), s.ready[0], s.ready[1..];
    MentionedHasWork(s, e);
    assert ClassOk(s.classes[e.id], Mentions(s.ready, e.id));
    if s'.classes[e.id].runnable != [] {
      var f := Entry(s.classes[e.id].vruntime, e.id);
      InsertSorted(rest, f);
      InsertMembers(rest, f);
      forall j ensures Mentions(s'.ready, j) == Mentions(s.ready, j) {
        InsertMentions(rest, f, j);
      }
    }
    UpdateAgrees(s, s', e.id, s'.classes[e.id]);
  }

  lemma {:induction false} ChargeAgrees(s: Fair, w: nat, elapsed: real)
    requires Agree(s) && w < |s.running| && s.running[w].Some?
    ensures Agree(Charge(s, w, elapsed))
  {
    var s', id := Charge(s, w, elapsed), s.running[w].value;
    assert ClassOk(s.classes[id], Mentions(s.ready, id));
    UpdateAgrees(s, s', id, s'.classes[id]);
  }

  /** Classes are never removed, renamed or reweighted. */
  predicate Extends(s: Fair, s': Fair)
  {
    && |s'.running| == |s.running| && |s.classes| <= |s'.classes|
    && forall id :: 0 <= id < |s.classes| ==>
         s'.classes[id].name == s.classes[id].name && s'.classes[id].weight == s.classes[id].weight
  }

  lemma {:induction false} SubmitExtends(s: Fair, job: Job, className: string, weight: real)
    requires Agree(s)
    ensures Extends(s, Submit(s, job, className, weight))
  {
  }

  lemma {:induction false} SubmitAgrees(s: Fair, job: Job, className: string, weight: real)
    requires Agree(s)
    ensures Agree(Submit(s, job, className, weight)) && Extends(s, Submit(s, job, className, weight))
  {
    var name, wt := if className == "" then DEFAULT_CLASS else className, if weight > 0.0 then weight else 1.0;
    CreateAgrees(s, name, wt);
    var p := FindOrCreate(s, name, wt).value;
    EnqueueAgrees(p.0, p.1, job);
    SubmitExtends(s, job, className, weight);
  }

  lemma {:induction false} RegisterExtends(s: Fair, name: string, weight: real)
    requires Agree(s)
    ensures Register(s, name, weight).Ok? ==>
        Agree(Register(s, name, weight).value) && Extends(s, Register(s, name, weight).value)
  {
    CreateAgrees(s, name, weight);
  }

  lemma {:induction false} DispatchExtends(s: Fair, w: nat)
    requires Agree(s) && s.ready != [] && w < |s.running|
    ensures Agree(Dispatch(s, w)) && Extends(s, Dispatch(s, w))
  {
    DispatchAgrees(s, w);
    MentionedHasWork(s, s.ready[0]);
  }

  lemma {:induction false} ChargeExtends(s: Fair, w: nat, elapsed: real)
    requires Agree(s) && w < |s.running| && s.running[w].Some?
    ensures Agree(Charge(s, w, elapsed)) && Extends(s, Charge(s, w, elapsed))
  {
    ChargeAgrees(s, w, elapsed);
  }

  /** Every block the mutex protects leaves the maps in agreement. */
  lemma {:induction false} StepAgrees(s: Fair, m: Move)
    requires Agree(s)
    ensures Agree(Step(s, m)) && Extends(s, Step(s, m))
  {
    match m
    case DoRegister(name, weight) => RegisterExtends(s, name, weight);
    case DoSubmit(job, className, weight) => SubmitAgrees(s, job, className, weight);
    case DoDispatch(w) => if Step(s, m) != s { DispatchExtends(s, w); }
    case DoCharge(w, elapsed) => if Step(s, m) != s { ChargeExtends(s, w, elapsed); }
  }
}
