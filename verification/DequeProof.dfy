/** The inductive invariant of the deque protocol and its refinement to the atomic deque. */
module DequeProof {
  import opened Options
  import opened DequeProtocol

  // Layout: where indices, buffers and program counters stand

  predicate OwnerOk(s: State)
  {
    var cap := s.current.capacity;
    match s.owner
    case Resting(_) => true
    case PushReadTop(b) => b == s.bottom
    case PushReadBuffer(b, t) => b == s.bottom && 0 <= t <= s.top && b - t <= cap && b - t <= s.peak
    case Growing(b, t, src, wide, i) =>
      && b == s.bottom && 0 <= t <= s.top && t <= i <= b && b - t == cap <= s.peak
      && src == |s.retired| && wide.capacity == 2 * cap
      && forall j :: t <= j < i ==> Load(wide, j) == Load(s.current, j)
    case PushWriteSlot(b, buf) => b == s.bottom && buf == |s.retired| && b - s.top < cap
    case PushRaiseBottom(b, box) => 
      b == s.bottom && b - s.top < cap && Load(s.current, b) == Some(box) && box == s.count - 1
    case PopReadBuffer(b) => b == s.bottom - 1
    case PopLowerBottom(b, buf) => b == s.bottom - 1 && buf == |s.retired|
    case PopReadTop(b, buf) => b == s.bottom && buf == |s.retired|
    case PopUndo(b) => b == s.bottom && s.top == b + 1
    case PopReadSlot(b, t, buf) =>
      b == s.bottom && buf == |s.retired| && 0 <= t <= s.top && t <= b && (t != b ==> Load(s.current, b).Some?)
    case PopRestore(b, t, ptr) =>
      b == s.bottom && 0 <= t == b && t <= s.top && (s.top == t ==> ptr == Load(s.current, b))
    case PopCas(b, t, ptr) =>
      b == s.bottom - 1 && 0 <= t == b && t <= s.top && (s.top == t ==> ptr == Load(s.current, b))
    case PopTake(ptr) => ptr.Some?
  }

  /** A thief that can still win its race holds the item at `top`, whatever buffer it reads. */
  predicate ThiefOk(s: State, pc: Thief)
  {
    match pc
    case Idle(_) => true
    case ReadBottom(t) => 0 <= t <= s.top
    case ReadBuffer(t) => 0 <= t <= s.top && (t == s.top ==> t < LogicalBottom(s))
    case ReadSlot(t, buf) =>
      && 0 <= t <= s.top && buf <= |s.retired|
      && (t == s.top ==> t < LogicalBottom(s) && Load(Fetch(s, buf), t) == Load(s.current, t))
    case Cas(t, ptr) => 0 <= t <= s.top && (t == s.top ==> t < LogicalBottom(s) && ptr == Load(s.current, t))
    case Take(ptr) => ptr.Some?
  }

  predicate Window(s: State)
  {
    && 0 <= s.top <= LogicalBottom(s) <= s.top + s.current.capacity
    && LogicalBottom(s) - s.top <= s.peak
    && forall i :: s.top <= i < LogicalBottom(s) ==> Load(s.current, i).Some?
  }

  predicate Layout(s: State)
  {
    && Window(s) && OwnerOk(s) && !s.fault
    && forall k :: 0 <= k < |s.thieves| ==> ThiefOk(s, s.thieves[k])
  }

  /** What an owner's step must leave alone for the thieves: the item at `top`, in every buffer. */
  predicate KeepsTop(s: State, s': State)
  {
    && |s.retired| <= |s'.retired| && s.top <= s'.top
    && (s.top == s'.top && s.top < LogicalBottom(s) ==>
          && s.top < LogicalBottom(s') && Load(s'.current, s.top) == Load(s.current, s.top)
          && forall id :: 0 <= id <= |s.retired| ==> Load(Fetch(s', id), s.top) == Load(Fetch(s, id), s.top))
  }

  lemma {:induction false} ThievesKept(s: State, s': State)
    requires Layout(s) && KeepsTop(s, s') && s'.thieves == s.thieves
    ensures forall k :: 0 <= k < |s'.thieves| ==> ThiefOk(s', s'.thieves[k])
  {
    forall k | 0 <= k < |s'.thieves| ensures ThiefOk(s', s'.thieves[k]) {
      assert ThiefOk(s, s.thieves[k]);
    }
  }

  predicate Pushing(o: Owner)
  {
    o.PushReadTop? || o.PushReadBuffer? || o.Growing? || o.PushWriteSlot? || o.PushRaiseBottom?
  }

  /** A step keeps the window, the owner's locals and what the thieves rely on. */
  predicate OwnerKeeps(s: State, s': State)
  {
    Window(s') && OwnerOk(s') && !s'.fault && KeepsTop(s, s') && s'.thieves == s.thieves
  }

  lemma {:induction false} GrowingKeeps(s: State, call: Call)
    requires Layout(s) && s.owner.Growing?
    ensures OwnerKeeps(s, OwnerStep(s, call).0)
  {
  }

  lemma {:induction false} PushKeeps(s: State, call: Call)
    requires Layout(s) && Pushing(s.owner) && !s.owner.Growing?
    ensures OwnerKeeps(s, OwnerStep(s, call).0)
  {
  }

  /** The first half of a pop: up to the read of `top`. */
  predicate Lowering(o: Owner)
  {
    o.Resting? || o.PopReadBuffer? || o.PopLowerBottom? || o.PopReadTop?
  }

  lemma {:induction false} LoweringKeeps(s: State, call: Call)
    requires Layout(s) && Lowering(s.owner)
    ensures OwnerKeeps(s, OwnerStep(s, call).0)
  {
  }

  lemma {:induction false} ClaimingKeeps(s: State, call: Call)
    requires Layout(s) && !Pushing(s.owner) && !Lowering(s.owner) && !s.owner.PopTake?
    ensures OwnerKeeps(s, OwnerStep(s, call).0)
  {
  }

  // Ownership: every live box is in the queue or claimed by exactly one thread

  /** The box the owner answers for: pushed but not yet published, or claimed and not yet freed. */
  function OwnerClaim(s: State): Option<Box>
  {
    match s.owner
    case PushRaiseBottom(_, box) => Some(box)
    case PopReadSlot(b, t, _) => if t == b then None else Load(s.current, b)
    case PopTake(ptr) => ptr
    case _ => None
  }

  function ThiefClaim(pc: Thief): Option<Box>
  {
    if pc.Take? then pc.ptr else None
  }

  /** Claims of all threads; the owner is number 0 and thief `k` is number `k + 1`. */
  function Claims(s: State): seq<Option<Box>>
  {
    [OwnerClaim(s)] + seq(|s.thieves|, k requires 0 <= k < |s.thieves| => ThiefClaim(s.thieves[k]))
  }

  predicate Distinct(q: seq<Box>)
  {
    forall i, j :: 0 <= i < j < |q| ==> q[i] != q[j]
  }

  predicate Owned(q: seq<Box>, live: set<Box>, claims: seq<Option<Box>>, count: nat)
  {
    && (forall x :: x in live ==> x < count)
    && (forall i :: 0 <= i < |q| ==> q[i] in live)
    && Distinct(q)
    && (forall h :: 0 <= h < |claims| && claims[h].Some? ==> claims[h].value in live && claims[h].value !in q)
    && (forall g, h :: 0 <= g < h < |claims| && claims[g].Some? && claims[h].Some? ==> claims[g] != claims[h])
    && (forall x :: x in live ==> x in q || Some(x) in claims)
  }

  lemma {:induction false} OwnedAllocate(q: seq<Box>, live: set<Box>, claims: seq<Option<Box>>, count: nat, h: nat)
    requires Owned(q, live, claims, count) && h < |claims| && claims[h] == None
    ensures Owned(q, live + {count}, claims[h := Some(count)], count + 1)
  {
    var claims' := claims[h := Some(count)];
    assert count !in live;
    forall x | x in live + {count} ensures x in q || Some(x) in claims' {
      if x == count {
        assert claims'[h] == Some(x);
      } else if x !in q {
        var g :| 0 <= g < |claims| && claims[g] == Some(x);
        assert claims'[g] == Some(x);
      }
    }
  }

  /** A claim is handed over to the queue, at its end. */
  lemma {:induction false} OwnedPublish(q: seq<Box>, live: set<Box>, claims: seq<Option<Box>>, count: nat, h: nat)
    requires Owned(q, live, claims, count) && h < |claims| && claims[h].Some?
    ensures Owned(q + [claims[h].value], live, claims[h := None], count)
  {
    var x, claims' := claims[h].value, claims[h := None];
    forall y | y in live ensures y in q + [x] || Some(y) in claims' {
      if y == x {
        assert (q + [x])[|q|] == x;
      } else if y in q {
        var i :| 0 <= i < |q| && q[i] == y;
        assert (q + [x])[i] == y;
      } else {
        var g :| 0 <= g < |claims| && claims[g] == Some(y);
        assert claims'[g] == Some(y);
      }
    }
  }

  lemma {:induction false} RemoveEnd(q: seq<Box>, q': seq<Box>, x: Box)
    requires Distinct(q) && (q == q' + [x] || q == [x] + q')
    ensures Distinct(q') && x in q && x !in q'
    ensures forall y :: y in q ==> y == x || y in q'
    ensures forall y :: y in q' ==> y in q
  {
    if q == q' + [x] {
      assert q[|q'|] == x && forall i :: 0 <= i < |q'| ==> q'[i] == q[i];
    } else {
      assert q[0] == x && forall i :: 0 <= i < |q'| ==> q'[i] == q[i + 1];
    }
  }

  /** An item leaves the queue, at either end, and becomes a claim. */
  lemma {:induction false} OwnedTake(
      q: seq<Box>, q': seq<Box>, live: set<Box>, claims: seq<Option<Box>>, count: nat, h: nat, x: Box)
    requires Owned(q, live, claims, count) && h < |claims| && claims[h] == None
    requires q == q' + [x] || q == [x] + q'
    ensures Owned(q', live, claims[h := Some(x)], count)
  {
    var claims' := claims[h := Some(x)];
    RemoveEnd(q, q', x);
    assert forall i :: 0 <= i < |q'| ==> q'[i] in q;
    forall y | y in live ensures y in q' || Some(y) in claims' {
      if y == x {
        assert claims'[h] == Some(y);
      } else if y !in q {
        var g :| 0 <= g < |claims| && claims[g] == Some(y);
        assert claims'[g] == Some(y);
      }
    }
  }

  lemma {:induction false} OwnedFree(q: seq<Box>, live: set<Box>, claims: seq<Option<Box>>, count: nat, h: nat)
    requires Owned(q, live, claims, count) && h < |claims| && claims[h].Some?
    ensures Owned(q, live - {claims[h].value}, claims[h := None], count)
  {
    var claims' := claims[h := None];
    forall y | y in live - {claims[h].value} ensures y in q || Some(y) in claims' {
      if y !in q {
        var g :| 0 <= g < |claims| && claims[g] == Some(y);
        assert claims'[g] == Some(y);
      }
    }
  }

  // Refinement

  lemma {:induction false} ItemsAgree(a: Buffer, b: Buffer, lo: int, hi: int)
    requires forall i :: lo <= i < hi ==> Load(a, i) == Load(b, i)
    ensures Items(a, lo, hi) == Items(b, lo, hi)
  {
  }

  lemma {:induction false} ItemsEnds(buf: Buffer, lo: int, hi: int)
    requires lo < hi
    ensures Items(buf, lo, hi) == Items(buf, lo, hi - 1) + [Unbox(Load(buf, hi - 1))]
    ensures Items(buf, lo, hi) == [Unbox(Load(buf, lo))] + Items(buf, lo + 1, hi)
  {
  }

  /** What an event means for the live indices `[lo, hi)`, read through buffer `a` before and `b` after. */
  predicate WindowMoves(a: Buffer, lo: int, hi: int, e: Event, b: Buffer, lo': int, hi': int)
  {
    && (forall i :: lo <= i < hi ==> Load(b, i) == Load(a, i))
    && match e
       case Tau => lo' == lo && hi' == hi
       case Pushed(x) => lo' == lo && hi' == hi + 1 && Load(b, hi) == Some(x)
       case Popped(x) =>
         lo < hi && Load(a, hi - 1) == Some(x) && ((lo' == lo && hi' == hi - 1) || lo + 1 == lo' == hi' == hi)
       case FoundEmpty => lo == hi == lo' == hi'
       case _ => false
  }

  predicate OwnerWindow(s: State, e: Event, s': State)
  {
    WindowMoves(s.current, s.top, LogicalBottom(s), e, s'.current, s'.top, LogicalBottom(s'))
  }

  lemma {:induction false} PushWindow(s: State, call: Call)
    requires Layout(s) && Pushing(s.owner)
    ensures OwnerWindow(s, OwnerStep(s, call).1, OwnerStep(s, call).0)
  {
  }

  lemma {:induction false} PopWindow(s: State, call: Call)
    requires Layout(s) && !Pushing(s.owner)
    ensures OwnerWindow(s, OwnerStep(s, call).1, OwnerStep(s, call).0)
  {
  }

  lemma {:induction false} WindowToItems(a: Buffer, lo: int, hi: int, e: Event, b: Buffer, lo': int, hi': int)
    requires lo <= hi && WindowMoves(a, lo, hi, e, b, lo', hi')
    ensures var q, q' := Items(a, lo, hi), Items(b, lo', hi');
      match e
      case Pushed(x) => q' == q + [x]
      case Popped(x) => q == q' + [x]
      case FoundEmpty => q == q' == []
      case _ => q' == q
  {
    ItemsAgree(a, b, lo, hi);
    if e.Pushed? {
      ItemsEnds(b, lo, hi + 1);
    } else if e.Popped? {
      ItemsEnds(a, lo, hi);
      ItemsAgree(a, b, lo, hi - 1);
    }
  }

  /** Claims change hands at the linearisation points and nowhere else. */
  lemma {:induction false} OwnerClaimChange(s: State, call: Call)
    requires Layout(s)
    ensures var (s', e) := OwnerStep(s, call);
      match e
      case Pushed(x) => OwnerClaim(s) == Some(x) && OwnerClaim(s') == None
      case Popped(x) => OwnerClaim(s) == None && OwnerClaim(s') == Some(x)
      case FoundEmpty => OwnerClaim(s) == OwnerClaim(s') == None
      case Tau =>
        if s.owner.PushWriteSlot? then OwnerClaim(s) == None && OwnerClaim(s') == Some(s.count)
        else if s.owner.PopTake? then OwnerClaim(s) == s.owner.ptr && s.owner.ptr.Some? && OwnerClaim(s') == None
        else OwnerClaim(s') == OwnerClaim(s)
      case _ => false
  {
  }

  lemma {:induction false} OwnerClaims(s: State, s': State)
    requires s'.thieves == s.thieves
    ensures Claims(s') == Claims(s)[0 := OwnerClaim(s')]
  {
  }

  predicate Inv(s: State)
  {
    Layout(s) && Owned(Queue(s), s.live, Claims(s), s.count)
  }

  lemma {:induction false} OwnerLayout(s: State, call: Call)
    requires Inv(s)
    ensures Layout(OwnerStep(s, call).0)
  {
    if s.owner.Growing? {
      GrowingKeeps(s, call);
    } else if Pushing(s.owner) {
      PushKeeps(s, call);
    } else if Lowering(s.owner) {
      LoweringKeeps(s, call);
    } else if s.owner.PopTake? {
      assert Claims(s)[0] == s.owner.ptr;
    } else {
      ClaimingKeeps(s, call);
    }
    ThievesKept(s, OwnerStep(s, call).0);
  }

  lemma {:induction false} OwnerOwned(s: State, call: Call)
    requires Inv(s)
    ensures var (s', e) := OwnerStep(s, call);
      Owned(Queue(s'), s'.live, Claims(s'), s'.count) && AtomicStep(Queue(s), e, Queue(s'))
  {
    var (s', e) := OwnerStep(s, call);
    var q, q', c := Queue(s), Queue(s'), Claims(s);
    if Pushing(s.owner) { PushWindow(s, call); } else { PopWindow(s, call); }
    WindowToItems(s.current, s.top, LogicalBottom(s), e, s'.current, s'.top, LogicalBottom(s'));
    OwnerClaimChange(s, call);
    OwnerClaims(s, s');
    assert c[0] == OwnerClaim(s) && c[0 := c[0]] == c;
    if s.owner.PushWriteSlot? {
      OwnedAllocate(q, s.live, c, s.count, 0);
    } else if e.Pushed? {
      OwnedPublish(q, s.live, c, s.count, 0);
    } else if e.Popped? {
      OwnedTake(q, q', s.live, c, s.count, 0, e.box);
    } else if s.owner.PopTake? {
      OwnedFree(q, s.live, c, s.count, 0);
    }
  }

  /** A thief changes `top` alone, by one, and only when it wins the item there. */
  lemma {:induction false} ThiefTop(s: State, k: nat)
    requires Inv(s) && k < |s.thieves|
    ensures var (s', e) := ThiefStep(s, k);
      && s' == s.(top := s'.top, thieves := s.thieves[k := s'.thieves[k]], live := s'.live, won := s'.won, lost := s'.lost)
      && (if e.Stole? then
            && s'.top == s.top + 1 <= LogicalBottom(s) && s'.thieves[k] == Take(Some(e.box)) && s'.live == s.live
            && Load(s.current, s.top) == Some(e.box) && !s.thieves[k].Take?
          else s'.top == s.top && !e.Popped? && !e.Pushed? && !e.FoundEmpty?)
      && (s.thieves[k].Take? ==> s.thieves[k].ptr.Some? && s'.live == s.live - {s.thieves[k].ptr.value})
      && (!s.thieves[k].Take? ==> s'.live == s.live)
  {
    var pc := s.thieves[k];
    assert ThiefOk(s, pc);
    assert pc.Take? ==> Claims(s)[k + 1] == pc.ptr;
  }

  lemma {:induction false} ThiefLayout(s: State, k: nat)
    requires Inv(s) && k < |s.thieves|
    ensures Layout(ThiefStep(s, k).0)
  {
    var s', pc := ThiefStep(s, k).0, s.thieves[k];
    ThiefTop(s, k);
    assert LogicalBottom(s') == LogicalBottom(s);
    assert OwnerOk(s');
    forall j | 0 <= j < |s'.thieves| ensures ThiefOk(s', s'.thieves[j]) {
      assert ThiefOk(s, s.thieves[j]);
      assert j != k ==> s'.thieves[j] == s.thieves[j];
    }
  }

  lemma {:induction false} QueueAfterTop(s: State, s': State)
    requires s'.owner == s.owner && s'.bottom == s.bottom && s'.current == s.current
    ensures s'.top == s.top ==> Queue(s') == Queue(s)
    ensures s'.top == s.top + 1 <= LogicalBottom(s) ==> Queue(s) == [Unbox(Load(s.current, s.top))] + Queue(s')
  {
    if s.top < LogicalBottom(s) {
      ItemsEnds(s.current, s.top, LogicalBottom(s));
    }
  }

  /** What a thief's step does to its own claim and to the freed and the live boxes. */
  lemma {:induction false} ThiefAccounts(s: State, k: nat)
    requires Inv(s) && k < |s.thieves|
    ensures var (s', e) := ThiefStep(s, k);
      && Claims(s') == Claims(s)[k + 1 := ThiefClaim(s'.thieves[k])] && s'.count == s.count
      && s'.live == (if s.thieves[k].Take? then s.live - {Unbox(s.thieves[k].ptr)} else s.live)
  {
    assert ThiefOk(s, s.thieves[k]);
    var s' := ThiefStep(s, k).0;
    assert Claims(s') == Claims(s)[k + 1 := ThiefClaim(s'.thieves[k])];
  }

  lemma {:induction false} ThiefOwned(s: State, k: nat)
    requires Inv(s) && k < |s.thieves|
    ensures var (s', e) := ThiefStep(s, k);
      Owned(Queue(s'), s'.live, Claims(s'), s'.count) && AtomicStep(Queue(s), e, Queue(s'))
  {
    var (s', e) := ThiefStep(s, k);
    var q, q', c, pc := Queue(s), Queue(s'), Claims(s), s.thieves[k];
    ThiefTop(s, k);
    ThiefAccounts(s, k);
    QueueAfterTop(s, s');
    assert c[k + 1] == ThiefClaim(pc);
    if e.Stole? {
      OwnedTake(q, q', s.live, c, s.count, k + 1, e.box);
    } else if pc.Take? {
      OwnedFree(q, s.live, c, s.count, k + 1);
    } else {
      assert c[k + 1 := c[k + 1]] == c;
    }
  }
}
