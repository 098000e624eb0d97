/** The deque as an object on the heap, run by one thread at a time: what each method does to the items. */
module DequeHeap {
  import opened Options
  import opened RingIndex

  /** Rounds up to a power of two by doubling. */
  method RoundUpPow2(v: nat) returns (p: nat)
    ensures IsPow2(p) && p >= v
    ensures forall q: nat :: IsPow2(q) && q >= v ==> p <= q
  {
    p := 1;
    while p < v
      invariant IsPow2(p)
      invariant forall q: nat :: IsPow2(q) && q >= v ==> p <= q
      decreases 2 * v - p
    {
      forall q: nat | IsPow2(q) && q >= v ensures 2 * p <= q {
        NextPow2(p, q);
      }
      DoublingKeepsPow2(p);
      p := p * 2;
    }
  }

  /** There is no power of two strictly between one and its double. */
  lemma {:induction false} NextPow2(p: nat, q: nat)
    requires IsPow2(p) && IsPow2(q) && p < q
    ensures 2 * p <= q
  {
    if p > 1 {
      NextPow2(p / 2, q / 2);
    }
  }

  /** A ring of slots. A slot holds the pointer to a boxed item; it keeps it after the item is taken. */
  class Buffer<T> {
    const capacity: nat
    const mask: int
    const slots: array<Option<T>>

    ghost predicate Shaped()
    {
      IsPow2(capacity) && mask == capacity - 1 && slots.Length == capacity
    }

    constructor (capacity: nat)
      requires IsPow2(capacity)
      ensures Shaped() && this.capacity == capacity && fresh(slots)
    {
      this.capacity := capacity;
      this.mask := capacity - 1;
      this.slots := new Option<T>[capacity](_ => None);
    }

    /** `i & mask`, which is the remainder of `i` modulo the capacity. */
    function Slot(i: nat): (k: nat)
      requires Shaped()
      ensures k == i % capacity < slots.Length
    {
      MaskIsModulus(i, capacity);
      BitAnd(i, mask)
    }

    ghost function At(i: nat): Option<T>
      requires Shaped()
      reads slots
    {
      slots[Slot(i)]
    }
  }

  class ChaseLevDeque<T> {
    var top: int
    var bottom: int
    var buffer: Buffer<T>
    var retired: seq<Buffer<T>>

    ghost predicate Valid()
      reads this, buffer.slots
    {
      && buffer.Shaped() && 0 <= top <= bottom <= top + buffer.capacity
      && |retired| > 0 && retired[|retired| - 1] == buffer
      && forall i :: top <= i < bottom ==> buffer.At(i).Some?
    }

    /** The items, oldest first. */
    ghost function Contents(): (items: seq<T>)
      requires Valid()
      reads this, buffer.slots
      ensures |items| == bottom - top
    {
      seq(bottom - top, k requires 0 <= k < bottom - top && Valid() reads this, buffer.slots => buffer.At(top + k).value)
    }

    constructor (initialCapacity: nat)
      ensures Valid() && Contents() == [] && fresh(buffer) && fresh(buffer.slots)
      ensures IsPow2(buffer.capacity) && initialCapacity <= buffer.capacity
      ensures forall q: nat :: IsPow2(q) && initialCapacity <= q ==> buffer.capacity <= q
      ensures retired == [buffer]
    {
      var capacity := RoundUpPow2(initialCapacity);
      var buf := new Buffer<T>(capacity);
      top, bottom, buffer, retired := 0, 0, buf, [buf];
    }

    /** Replaces the buffer by one of twice the capacity holding the same live items. */
    method Grow(t: int, b: int)
      requires Valid() && t == top && b == bottom
      modifies this`buffer, this`retired
      ensures Valid() && Contents() == old(Contents())
      ensures buffer.capacity == 2 * old(buffer.capacity)
      ensures fresh(buffer) && fresh(buffer.slots) && retired == old(retired) + [buffer]
    {
      DoublingKeepsPow2(buffer.capacity);
      var wide := new Buffer<T>(buffer.capacity * 2);
      var i := t;
      while i != b
        invariant t <= i <= b
        invariant wide.Shaped() && fresh(wide.slots)
        invariant unchanged(this) && unchanged(buffer.slots)
        invariant forall j :: t <= j < i ==> wide.At(j) == buffer.At(j)
      {
        forall j | t <= j < i ensures wide.Slot(j) != wide.Slot(i) {
          WindowIsInjective(j, i, wide.capacity);
        }
        wide.slots[wide.Slot(i)] := buffer.slots[buffer.Slot(i)];
        i := i + 1;
      }
      buffer := wide;
      retired := retired + [wide];
    }

    /** Boxes the item in a free slot and raises `bottom` over it. */
    method Publish(b: int, item: T)
      requires Valid() && b == bottom && |Contents()| < buffer.capacity
      modifies this`bottom, buffer.slots
      ensures Valid() && Contents() == old(Contents()) + [item]
    {
      ghost var was := Contents();
      buffer.slots[buffer.Slot(b)] := Some(item);
      bottom := b + 1;
      assert buffer.At(b) == Some(item);
      forall j | top <= j < b
        ensures buffer.At(j) == Some(was[j - top])
      {
        WindowIsInjective(j, b, buffer.capacity);
        assert old(buffer.At(j)) == Some(was[j - top]);
      }
      assert Contents() == was + [item];
    }

    /** Appends an item; the buffer is replaced exactly when it was full. */
    method Push(item: T)
      requires Valid()
      modifies this, buffer.slots
      ensures Valid() && Contents() == old(Contents()) + [item]
      ensures if |old(Contents())| < old(buffer.capacity)
        then buffer == old(buffer) && retired == old(retired)
        else buffer.capacity == 2 * old(buffer.capacity) && retired == old(retired) + [buffer] && fresh(buffer) && fresh(buffer.slots)
    {
      var b, t := bottom, top;
      if b - t > buffer.capacity - 1 {
        Grow(t, b);
      }
      Publish(b, item);
    }

    method CompareExchangeTop(expected: int, desired: int) returns (won: bool)
      modifies this`top
      ensures won == (old(top) == expected)
      ensures top == if won then desired else old(top)
    {
      won := top == expected;
      if won {
        top := desired;
      }
    }

    /** Takes the newest item. */
    method Pop() returns (r: Option<T>)
      requires Valid()
      modifies this`top, this`bottom
      ensures Valid()
      ensures var q := old(Contents());
        if q == [] then r == None && Contents() == []
        else r == Some(q[|q| - 1]) && Contents() == q[..|q| - 1]
    {
      var b := bottom - 1;
      var buf := buffer;
      bottom := b;
      var t := top;
      if t > b {
        bottom := b + 1;
        return None;
      }
      var ptr := buf.slots[buf.Slot(b)];
      if t == b {
        bottom := b + 1;
        var won := CompareExchangeTop(t, t + 1);
        if !won {
          return None;
        }
      }
      r := ptr;
    }

    /** Takes the oldest item. */
    method Steal() returns (r: Option<T>)
      requires Valid()
      modifies this`top
      ensures Valid()
      ensures var q := old(Contents());
        if q == [] then r == None && Contents() == []
        else r == Some(q[0]) && Contents() == q[1..]
    {
      var t := top;
      var b := bottom;
      if t >= b {
        return None;
      }
      var buf := buffer;
      var ptr := buf.slots[buf.Slot(t)];
      var won := CompareExchangeTop(t, t + 1);
      if !won {
        return None;
      }
      r := ptr;
    }

    /** The destructor's loop: frees what is left, oldest first, each item once. */
    method Destroy() returns (freed: seq<T>)
      requires Valid()
      ensures freed == Contents()
    {
      freed := [];
      var i := top;
      while i < bottom
        invariant top <= i <= bottom
        invariant freed == Contents()[..i - top]
      {
        assert buffer.At(i).Some?;
        freed := freed + [buffer.slots[buffer.Slot(i)].value];
        i := i + 1;
      }
    }
  }
}
