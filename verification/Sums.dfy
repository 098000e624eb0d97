/** Sums over the threads of a state, and how one thread's step changes them. */
module Sums {

  function One(yes: bool): nat { if yes then 1 else 0 }

  function Sum(xs: seq<int>): int
  {
    if xs == [] then 0 else xs[0] + Sum(xs[1..])
  }

  lemma {:induction false} SumUpdate(xs: seq<int>, k: nat, x: int)
    requires k < |xs|
    ensures Sum(xs[k := x]) == Sum(xs) - xs[k] + x
  {
    if k == 0 {
      assert xs[k := x][1..] == xs[1..];
    } else {
      assert xs[k := x][1..] == xs[1..][k - 1 := x];
      SumUpdate(xs[1..], k - 1, x);
    }
  }

  lemma {:induction false} SumBounds(xs: seq<int>, low: int, high: int)
    requires forall k :: 0 <= k < |xs| ==> low <= xs[k] <= high
    ensures low * |xs| <= Sum(xs) <= high * |xs|
  {
    if xs != [] {
      SumBounds(xs[1..], low, high);
      assert low * |xs| == low + low * (|xs| - 1);
      assert high * |xs| == high + high * (|xs| - 1);
    }
  }

  /** Lists of equal length whose sums agree term by term, except that one may shrink. */
  lemma {:induction false} SumMonotone(xs: seq<int>, ys: seq<int>)
    requires |xs| == |ys|
    requires forall k :: 0 <= k < |xs| ==> xs[k] <= ys[k]
    ensures Sum(xs) <= Sum(ys)
  {
    if xs != [] {
      SumMonotone(xs[1..], ys[1..]);
    }
  }

  /** One term falls by at least `d`, and none rises. */
  lemma {:induction false} SumDrops(xs: seq<int>, ys: seq<int>, k: nat, d: int)
    requires k < |xs| == |ys| && ys[k] + d <= xs[k]
    requires forall j :: 0 <= j < |xs| && j != k ==> ys[j] <= xs[j]
    ensures Sum(ys) + d <= Sum(xs)
  {
    SumUpdate(xs, k, xs[k] - d);
    SumMonotone(ys, xs[k := xs[k] - d]);
  }

  /** A rank of two levels: `high` rounds of `m` steps each, and `low` steps more. */
  function TwoLevel(high: nat, m: nat, low: nat): nat
  {
    if high == 0 then low else m + TwoLevel(high - 1, m, low)
  }

  lemma {:induction false} TwoLevelDrops(b: nat, b': nat, m: nat, f: nat, f': nat)
    requires b' < b && f' < m
    ensures TwoLevel(b', m, f') < TwoLevel(b, m, f)
  {
    if b' > 0 {
      TwoLevelDrops(b - 1, b' - 1, m, f, f');
    }
  }

  lemma {:induction false} LowDrops(b: nat, m: nat, f: nat, f': nat)
    requires f' < f
    ensures TwoLevel(b, m, f') < TwoLevel(b, m, f)
  {
    if b > 0 {
      LowDrops(b - 1, m, f, f');
    }
  }

  /** The number of true entries. */
  function Tally(bs: seq<bool>): nat
  {
    if bs == [] then 0 else (if bs[0] then 1 else 0) + Tally(bs[1..])
  }

  lemma {:induction false} TallyUpdate(bs: seq<bool>, k: nat, b: bool)
    requires k < |bs|
    ensures Tally(bs[k := b]) == Tally(bs) - (if bs[k] then 1 else 0) + (if b then 1 else 0)
  {
    if k == 0 {
      assert bs[k := b][1..] == bs[1..];
    } else {
      assert bs[k := b][1..] == bs[1..][k - 1 := b];
      TallyUpdate(bs[1..], k - 1, b);
    }
  }

  lemma {:induction false} TallyBound(bs: seq<bool>)
    ensures Tally(bs) <= |bs|
    ensures (exists k :: 0 <= k < |bs| && !bs[k]) ==> Tally(bs) < |bs|
  {
    if bs != [] {
      TallyBound(bs[1..]);
      if k :| 0 <= k < |bs| && !bs[k] {
        if k > 0 {
          assert !bs[1..][k - 1];
        }
      }
    }
  }

  lemma {:induction false} TallyNone(bs: seq<bool>)
    requires forall k :: 0 <= k < |bs| ==> !bs[k]
    ensures Tally(bs) == 0
  {
    if bs != [] {
      TallyNone(bs[1..]);
    }
  }

  lemma {:induction false} SumSnoc(xs: seq<int>, x: int)
    ensures Sum(xs + [x]) == Sum(xs) + x
  {
    if xs == [] {
      assert [] + [x] == [x];
    } else {
      assert (xs + [x])[1..] == xs[1..] + [x];
      SumSnoc(xs[1..], x);
    }
  }

  lemma {:induction false} SumZero(xs: seq<int>)
    requires forall j :: 0 <= j < |xs| ==> xs[j] == 0
    ensures Sum(xs) == 0
  {
    if xs != [] {
      SumZero(xs[1..]);
    }
  }

  lemma {:induction false} SumNonNegative(xs: seq<int>)
    requires forall j :: 0 <= j < |xs| ==> xs[j] >= 0
    ensures Sum(xs) >= 0
  {
    if xs != [] {
      SumNonNegative(xs[1..]);
    }
  }

  lemma {:induction false} SumAtLeast(xs: seq<int>, k: nat)
    requires k < |xs| && forall j :: 0 <= j < |xs| ==> xs[j] >= 0
    ensures Sum(xs) >= xs[k] >= 0
  {
    if k > 0 {
      SumAtLeast(xs[1..], k - 1);
    } else if |xs| > 1 {
      SumAtLeast(xs[1..], 0);
    }
  }

  /** The first `n` tickets, each once. */
  function Tickets(n: nat): multiset<nat>
  {
    if n == 0 then multiset{} else Tickets(n - 1) + multiset{n - 1}
  }

  lemma {:induction false} TicketsOnce(n: nat)
    ensures |Tickets(n)| == n && forall x: nat :: Tickets(n)[x] == (if x < n then 1 else 0)
  {
    if n > 0 {
      TicketsOnce(n - 1);
    }
  }

  /** As many tickets as there are, none twice: all of them. */
  lemma {:induction false} AllTickets(done: multiset<nat>, n: nat)
    requires forall x: nat :: done[x] <= (if x < n then 1 else 0)
    ensures |done| <= n
    ensures |done| == n ==> done == Tickets(n)
  {
    TicketsOnce(n);
    assert done <= Tickets(n);
    assert Tickets(n) == done + (Tickets(n) - done);
    assert |Tickets(n)| == |done| + |Tickets(n) - done|;
  }
}
