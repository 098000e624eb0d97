/**
 The Chase-Lev deque as a step machine: one owner and any number of thieves, one atomic access a
 step, interleaved sequentially consistently. A box is the heap cell one `push` allocates; it is
 named by the number of allocations before it and stands for the item it carries.
 */
module DequeProtocol {
  import opened Options
  import opened RingIndex

  type Box = nat

  const DEFAULT_CAPACITY := 256

  datatype RawBuffer = RawBuffer(capacity: nat, slots: seq<Option<Box>>)

  type Buffer = b: RawBuffer | IsPow2(b.capacity) && |b.slots| == b.capacity
    witness RawBuffer(1, [None])

  function Blank(capacity: nat): (buf: Buffer)
    requires IsPow2(capacity)
    ensures buf.capacity == capacity
  {
    RawBuffer(capacity, seq(capacity, _ => None))
  }

  function Load(buf: Buffer, i: int): Option<Box>
  {
    if i < 0 then None else buf.slots[Index(i, buf.capacity)]
  }

  /** Writing one logical index leaves the rest of any window around it alone. */
  function Store(buf: Buffer, i: int, x: Option<Box>): (r: Buffer)
    ensures r.capacity == buf.capacity
    ensures i >= 0 ==> Load(r, i) == x
    ensures forall j {:trigger Load(r, j)} :: 0 <= j != i && i - buf.capacity < j < i + buf.capacity ==> Load(r, j) == Load(buf, j)
  {
    if i < 0 then buf
    else
      assert forall j {:trigger Index(j, buf.capacity)} :: 0 <= j != i && i - buf.capacity < j < i + buf.capacity ==>
          Index(j, buf.capacity) != Index(i, buf.capacity)
      by {
        forall j | 0 <= j != i && i - buf.capacity < j < i + buf.capacity
          ensures Index(j, buf.capacity) != Index(i, buf.capacity)
        {
          if i < j { WindowIsInjective(i, j, buf.capacity); } else { WindowIsInjective(j, i, buf.capacity); }
        }
      }
      RawBuffer(buf.capacity, buf.slots[Index(i, buf.capacity) := x])
  }

  /** Where the owner stands; every constructor is the next atomic access, with the locals it needs. */
  datatype Owner =
    | Resting(result: Option<Box>)
    | PushReadTop(b: int)
    | PushReadBuffer(b: int, t: int)
    | Growing(b: int, t: int, src: nat, wide: Buffer, i: int)
    | PushWriteSlot(b: int, buf: nat)
    | PushRaiseBottom(b: int, box: Box)
    | PopReadBuffer(b: int)
    | PopLowerBottom(b: int, buf: nat)
    | PopReadTop(b: int, buf: nat)
    | PopUndo(b: int)
    | PopReadSlot(b: int, t: int, buf: nat)
    | PopRestore(b: int, t: int, ptr: Option<Box>)
    | PopCas(b: int, t: int, ptr: Option<Box>)
    | PopTake(ptr: Option<Box>)

  datatype Thief =
    | Idle(result: Option<Box>)
    | ReadBottom(t: int)
    | ReadBuffer(t: int)
    | ReadSlot(t: int, buf: nat)
    | Cas(t: int, ptr: Option<Box>)
    | Take(ptr: Option<Box>)

  /**
   `retired` holds every replaced buffer, oldest first; buffer id `|retired|` is the current one.
   `live` is the set of boxes allocated and not yet freed. `fault` records a null dereference, a use
   or a free of a freed box, or a negative index. `won`, `lost` count compare-exchanges and `peak` is
   the largest number of items the deque has held.
   */
  datatype State = State(
    top: int, bottom: int, retired: seq<Buffer>, current: Buffer,
    live: set<Box>, count: nat, owner: Owner, thieves: seq<Thief>,
    fault: bool, won: nat, lost: nat, peak: int)

  function Fetch(s: State, id: nat): Buffer
  {
    if id < |s.retired| then s.retired[id] else s.current
  }

  function WriteSlot(s: State, id: nat, i: int, x: Option<Box>): State
  {
    if id < |s.retired| then s.(retired := s.retired[id := Store(s.retired[id], i, x)], fault := s.fault || i < 0)
    else s.(current := Store(s.current, i, x), fault := s.fault || i < 0)
  }

  /** Moves the item out of the box and deletes the box. */
  function Consume(s: State, ptr: Option<Box>): State
  {
    match ptr
    case None => s.(fault := true)
    case Some(x) => if x in s.live then s.(live := s.live - {x}) else s.(fault := true)
  }

  datatype Call = DoPush | DoPop

  /** The effect of a step on the abstract queue, as the thread that takes it observes it. */
  datatype Event = Tau | Pushed(box: Box) | Popped(box: Box) | FoundEmpty | Stole(box: Box) | GaveUp

  function Unbox(ptr: Option<Box>): Box
  {
    match ptr case Some(x) => x case None => 0
  }

  function Max(a: int, b: int): int { if a < b then b else a }

  /** One access by the owner. `call` chooses the next operation when it rests. */
  function OwnerStep(s: State, call: Call): (State, Event)
  {
    match s.owner
    case Resting(_) =>
      (match call
       case DoPush => s.(owner := PushReadTop(s.bottom))
       case DoPop => s.(owner := PopReadBuffer(s.bottom - 1)), Tau)
    case PushReadTop(b) => (s.(owner := PushReadBuffer(b, s.top)), Tau)
    case PushReadBuffer(b, t) =>
      var id := |s.retired|;
      (if b - t > s.current.capacity - 1 then
         DoublingKeepsPow2(s.current.capacity);
         s.(owner := Growing(b, t, id, Blank(s.current.capacity * 2), t))
       else s.(owner := PushWriteSlot(b, id)), Tau)
    case Growing(b, t, src, wide, i) =>
      (if i != b then
         s.(owner := Growing(b, t, src, Store(wide, i, Load(Fetch(s, src), i)), i + 1), fault := s.fault || i < 0)
       else
         s.(retired := s.retired + [s.current], current := wide, owner := PushWriteSlot(b, |s.retired| + 1)), Tau)
    case PushWriteSlot(b, buf) =>
      var box := s.count;
      (WriteSlot(s, buf, b, Some(box)).(count := box + 1, live := s.live + {box},
                                        owner := PushRaiseBottom(b, box)), Tau)
    case PushRaiseBottom(b, box) =>
      (s.(bottom := b + 1, owner := Resting(None), peak := Max(s.peak, b + 1 - s.top)), Pushed(box))
    case PopReadBuffer(b) => (s.(owner := PopLowerBottom(b, |s.retired|)), Tau)
    case PopLowerBottom(b, buf) => (s.(bottom := b, owner := PopReadTop(b, buf)), Tau)
    case PopReadTop(b, buf) =>
      if s.top > b then (s.(owner := PopUndo(b)), FoundEmpty)
      else (s.(owner := PopReadSlot(b, s.top, buf)),
            if s.top == b then Tau else Popped(Unbox(Load(Fetch(s, buf), b))))
    case PopUndo(b) => (s.(bottom := b + 1, owner := Resting(None)), Tau)
    case PopReadSlot(b, t, buf) =>
      var ptr := Load(Fetch(s, buf), b);
      (s.(owner := if t == b then PopRestore(b, t, ptr) else PopTake(ptr), fault := s.fault || b < 0), Tau)
    case PopRestore(b, t, ptr) => (s.(bottom := b + 1, owner := PopCas(b, t, ptr)), Tau)
    case PopCas(b, t, ptr) =>
      if s.top == t then (s.(top := t + 1, won := s.won + 1, owner := PopTake(ptr)), Popped(Unbox(ptr)))
      else (s.(lost := s.lost + 1, owner := Resting(None)), FoundEmpty)
    case PopTake(ptr) => (Consume(s, ptr).(owner := Resting(ptr)), Tau)
  }

  /** One access by thief `k`. */
  function ThiefStep(s: State, k: nat): (State, Event)
    requires k < |s.thieves|
  {
    match s.thieves[k]
    case Idle(_) => (s.(thieves := s.thieves[k := ReadBottom(s.top)]), Tau)
    case ReadBottom(t) =>
      if t >= s.bottom then (s.(thieves := s.thieves[k := Idle(None)]), GaveUp)
      else (s.(thieves := s.thieves[k := ReadBuffer(t)]), Tau)
    case ReadBuffer(t) => (s.(thieves := s.thieves[k := ReadSlot(t, |s.retired|)]), Tau)
    case ReadSlot(t, buf) =>
      (s.(thieves := s.thieves[k := Cas(t, Load(Fetch(s, buf), t))], fault := s.fault || t < 0), Tau)
    case Cas(t, ptr) =>
      if s.top == t then
        (s.(top := t + 1, won := s.won + 1, thieves := s.thieves[k := Take(ptr)]), Stole(Unbox(ptr)))
      else (s.(lost := s.lost + 1, thieves := s.thieves[k := Idle(None)]), GaveUp)
    case Take(ptr) =>
      (if ptr.None? then s.(thieves := s.thieves[k := Idle(None)])
       else Consume(s, ptr).(thieves := s.thieves[k := Idle(ptr)]), Tau)
  }

  datatype Move = ByOwner(call: Call) | ByThief(k: nat)

  function Step(s: State, m: Move): (State, Event)
  {
    match m
    case ByOwner(call) => OwnerStep(s, call)
    case ByThief(k) => if k < |s.thieves| then ThiefStep(s, k) else (s, Tau)
  }

  function Initial(capacity: nat, thieves: nat): State
    requires IsPow2(capacity)
  {
    State(0, 0, [], Blank(capacity), {}, 0, Resting(None), seq(thieves, _ => Idle(None)), false, 0, 0, 0)
  }

  /** A run is any list of moves; its trace lists the events. */
  function Run(s: State, moves: seq<Move>): (State, seq<Event>)
    decreases |moves|
  {
    if moves == [] then (s, [])
    else
      var (s1, e) := Step(s, moves[0]);
      var (s2, es) := Run(s1, moves[1..]);
      (s2, [e] + es)
  }

  // The abstraction

  /**
   The end of the queue. It is `bottom`, except that while a pop has lowered `bottom` and does not
   yet know whether it owns the last item, the lowered index still belongs to the queue.
   */
  function LogicalBottom(s: State): int
  {
    match s.owner
    case PopReadTop(b, _) => b + 1
    case PopUndo(b) => b + 1
    case PopReadSlot(b, t, _) => if t == b then b + 1 else s.bottom
    case PopRestore(b, _, _) => b + 1
    case _ => s.bottom
  }

  function Items(buf: Buffer, lo: int, hi: int): seq<Box>
  {
    if lo >= hi then [] else seq<Box>(hi - lo, k requires 0 <= k < hi - lo => Unbox(Load(buf, lo + k)))
  }

  /** The queue a state stands for, oldest item first. */
  function Queue(s: State): seq<Box>
  {
    Items(s.current, s.top, LogicalBottom(s))
  }

  /** The atomic deque. A steal may give up at any time; a pop reports empty only when it is. */
  predicate AtomicStep(q: seq<Box>, e: Event, q': seq<Box>)
  {
    match e
    case Tau => q' == q
    case Pushed(x) => q' == q + [x] && x !in q
    case Popped(x) => q == q' + [x]
    case FoundEmpty => q == [] && q' == q
    case Stole(x) => q == [x] + q'
    case GaveUp => q' == q
  }
}
