/** Index arithmetic of the ring buffers: power-of-two capacities and `i & mask`. */
module RingIndex {

  /** Powers of two, by halving. */
  predicate IsPow2(n: nat)
  {
    n == 1 || (n > 1 && n % 2 == 0 && IsPow2(n / 2))
  }

  /** Bitwise conjunction of two unsigned numbers, least significant bit first. */
  function BitAnd(x: nat, y: nat): nat
  {
    if x == 0 || y == 0 then 0
    else 2 * BitAnd(x / 2, y / 2) + (x % 2) * (y % 2)
  }

  lemma {:induction false} HalveModulus(i: nat, half: nat)
    requires half > 0
    ensures i % (2 * half) == 2 * ((i / 2) % half) + i % 2
  {
    var h, r := i / 2, i % 2;
    var q, m := h / half, h % half;
    assert i == (2 * half) * q + (2 * m + r) by {
      assert h == half * q + m;
    }
    ModulusUnique(i, 2 * half, q, 2 * m + r);
  }

  /** Division with remainder has one answer. */
  lemma {:induction false} ModulusUnique(i: int, n: int, q: int, r: int)
    requires 0 <= r < n && i == n * q + r
    ensures i % n == r
  {
    var q', r' := i / n, i % n;
    assert i == n * q' + r';
    assert n * (q - q') == n * q - n * q';
    if q != q' {
      MultipleIsLarge(n, q - q');
    }
  }

  /** A non-zero multiple of `n` is at least `n` in size. */
  lemma {:induction false} MultipleIsLarge(n: int, k: int)
    requires n > 0 && k != 0
    ensures n * k >= n || n * k <= -n
  {
    if k > 0 {
      assert n * (k - 1) >= 0;
    } else {
      assert n * (-k - 1) >= 0;
    }
  }

  /** Masking with `capacity - 1` is the remainder modulo the capacity. */
  lemma {:induction false} MaskIsModulus(i: nat, capacity: nat)
    requires IsPow2(capacity)
    ensures BitAnd(i, capacity - 1) == i % capacity
    decreases capacity
  {
    if capacity == 1 {
    } else {
      var half := capacity / 2;
      HalveModulus(i, half);
      assert (capacity - 1) / 2 == half - 1 && (capacity - 1) % 2 == 1;
      if i == 0 {
      } else if half == 1 {
        assert BitAnd(i / 2, 0) == 0;
        assert BitAnd(i, 1) == 2 * BitAnd(i / 2, 0) + (i % 2) * 1;
      } else {
        MaskIsModulus(i / 2, half);
        assert BitAnd(i, capacity - 1) == 2 * BitAnd(i / 2, half - 1) + (i % 2) * 1;
      }
    }
  }

  /** The slot of logical index `i` in a ring of the given capacity. */
  function Index(i: nat, capacity: nat): (slot: nat)
    requires IsPow2(capacity)
    ensures slot == i % capacity && slot < capacity
  {
    MaskIsModulus(i, capacity);
    BitAnd(i, capacity - 1)
  }

  /** Two logical indices less than a capacity apart never share a slot. */
  lemma {:induction false} WindowIsInjective(i: nat, j: nat, capacity: nat)
    requires IsPow2(capacity)
    requires i < j < i + capacity
    ensures Index(i, capacity) != Index(j, capacity)
  {
    var qi, qj := i / capacity, j / capacity;
    assert i == capacity * qi + i % capacity && j == capacity * qj + j % capacity;
    assert capacity * (qj - qi) == capacity * qj - capacity * qi;
    if qi != qj {
      MultipleIsLarge(capacity, qj - qi);
    }
  }

  lemma DoublingKeepsPow2(n: nat)
    requires IsPow2(n)
    ensures IsPow2(2 * n) && 2 * n > n
  {
    assert (2 * n) / 2 == n;
  }
}
