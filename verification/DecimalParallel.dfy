/**
 Multiplication split over workers: each sums the rows of one range of digits in its own accumulator and
 then, under a lock, adds it to the result.  The workers finish in any order.
 */
module DecimalParallel {
  import opened Decimal
  import opened DecimalValue

  // ---------------------------------------------------------------- the ranges

  /** The bounds of the workers' ranges: that of worker `k` is from entry `k` up to entry `k + 1`. */
  function Cuts(digits: nat, workers: nat): seq<nat>
    requires workers > 0
  {
    seq(workers + 1, k requires 0 <= k <= workers => Bound(digits, k, workers))
  }

  function Bound(digits: nat, k: nat, workers: nat): nat
    requires workers > 0
  {
    ProductNonNegative(digits, k);
    digits * k / workers
  }

  ghost predicate Ascending(cuts: seq<nat>) {
    forall k :: 0 <= k < |cuts| - 1 ==> cuts[k] <= cuts[k + 1]
  }

  predicate InRange(cuts: seq<nat>, i: nat, worker: nat)
    requires worker + 1 < |cuts|
  {
    cuts[worker] <= i < cuts[worker + 1]
  }

  lemma ScaledGap(z: nat, q: nat, r: nat)
    ensures q < r ==> z * q + z <= z * r
  {
    if q < r {
      var gap := r - q - 1;
      assert z * r == z * q + z + z * gap;
      ProductNonNegative(z, gap);
    }
  }

  lemma DivMonotone(x: nat, y: nat, z: nat)
    requires x <= y && z > 0
    ensures x / z <= y / z
  {
    var q, r := x / z, y / z;
    assert x == z * q + x % z && y == z * r + y % z;
    ScaledGap(z, r, q);
  }

  lemma DivExact(x: nat, z: nat)
    requires z > 0
    ensures x * z / z == x
  {
    var q := x * z / z;
    assert x * z == z * q + (x * z) % z;
    ScaledGap(z, q, x);
    ScaledGap(z, x, q);
  }

  lemma CutsAscend(digits: nat, workers: nat)
    requires workers > 0
    ensures var cuts := Cuts(digits, workers); Ascending(cuts) && cuts[0] == 0 && cuts[workers] == digits
  {
    DivExact(digits, workers);
    forall k | 0 <= k < workers
      ensures Bound(digits, k, workers) <= Bound(digits, k + 1, workers)
    {
      assert digits * (k + 1) == digits * k + digits;
      DivMonotone(digits * k, digits * (k + 1), workers);
    }
  }

  lemma {:induction false} CutsApart(cuts: seq<nat>, k: nat, l: nat)
    requires Ascending(cuts) && k <= l < |cuts|
    ensures cuts[k] <= cuts[l]
  {
    if k < l {
      CutsApart(cuts, k, l - 1);
    }
  }

  /** The ranges partition the digits: each index is in the range of exactly one worker. */
  lemma RangesPartition(digits: nat, workers: nat, i: nat)
    requires workers > 0 && i < digits
    ensures var cuts := Cuts(digits, workers);
      exists k: nat :: k < workers && InRange(cuts, i, k)
        && forall l: nat :: l < workers && InRange(cuts, i, l) ==> l == k
  {
    var cuts := Cuts(digits, workers);
    CutsAscend(digits, workers);
    var k := Holder(cuts, i, workers);
    forall l: nat | l < workers && InRange(cuts, i, l)
      ensures l == k
    {
      if k < l {
        CutsApart(cuts, k + 1, l);
      } else if l < k {
        CutsApart(cuts, l + 1, k);
      }
    }
  }

  lemma {:induction false} Holder(cuts: seq<nat>, i: nat, n: nat) returns (k: nat)
    requires n < |cuts| && cuts[0] <= i < cuts[n]
    ensures k < n && InRange(cuts, i, k)
  {
    if cuts[n - 1] <= i {
      k := n - 1;
    } else {
      k := Holder(cuts, i, n - 1);
    }
  }

  // ---------------------------------------------------------------- what the workers still owe

  /** The rows of a worker's range. */
  ghost function Part(a: seq<Digit>, b: seq<Digit>, cuts: seq<nat>, worker: nat): int
    requires worker + 1 < |cuts|
  {
    Rows(a, b, cuts[worker], cuts[worker + 1])
  }

  /** The sum of the parts of those of the first `n` workers that are still running. */
  ghost function Owed(a: seq<Digit>, b: seq<Digit>, cuts: seq<nat>, running: set<nat>, n: nat): int
    requires n < |cuts|
  {
    if n == 0 then 0
    else Owed(a, b, cuts, running, n - 1) + if n - 1 in running then Part(a, b, cuts, n - 1) else 0
  }

  lemma {:induction false} OneFinishes(a: seq<Digit>, b: seq<Digit>, cuts: seq<nat>, running: set<nat>, n: nat, k: nat)
    requires n < |cuts| && k in running
    ensures Owed(a, b, cuts, running - {k}, n) ==
      Owed(a, b, cuts, running, n) - if k < n then Part(a, b, cuts, k) else 0
  {
    if n > 0 {
      OneFinishes(a, b, cuts, running, n - 1, k);
    }
  }

  lemma {:induction false} AllOwed(a: seq<Digit>, b: seq<Digit>, cuts: seq<nat>, running: set<nat>, n: nat)
    requires n < |cuts| && cuts[0] == 0 && Ascending(cuts) && forall k: nat :: k < n ==> k in running
    ensures Owed(a, b, cuts, running, n) == Rows(a, b, 0, cuts[n])
  {
    if n > 0 {
      AllOwed(a, b, cuts, running, n - 1);
      RowsJoin(a, b, 0, cuts[n - 1], cuts[n]);
    }
  }

  lemma {:induction false} NoneOwed(a: seq<Digit>, b: seq<Digit>, cuts: seq<nat>, n: nat)
    requires n < |cuts|
    ensures Owed(a, b, cuts, {}, n) == 0
  {
    if n > 0 {
      NoneOwed(a, b, cuts, n - 1);
    }
  }

  lemma {:induction false} OwedNonNegative(a: seq<Digit>, b: seq<Digit>, cuts: seq<nat>, running: set<nat>, n: nat)
    requires AllDigits(a) && AllDigits(b) && n < |cuts| && Ascending(cuts)
    ensures Owed(a, b, cuts, running, n) >= 0
  {
    if n > 0 {
      OwedNonNegative(a, b, cuts, running, n - 1);
      RowsNonNegative(a, b, cuts[n - 1], cuts[n]);
    }
  }

  // ---------------------------------------------------------------- the workers

  /** One turn of a worker's loop: the old row in the buffer is cleared before the buffer grows. */
  method AddBufferedRow(c: Decimal, tmp: Decimal, b: Decimal, ad: Digit, i: nat)
    requires b != c && b != tmp && c != tmp && AllDigits(c.digits) && AllDigits(b.digits) && 0 < ad <= 9
    requires |c.digits| > 1 && |b.digits| + i + 1 <= |c.digits|
    requires Val(c.digits) + Row(ad, b.digits, i) < Pow10(|c.digits|)
    modifies c, tmp
    ensures AllDigits(c.digits) && |c.digits| == old(|c.digits|)
    ensures Val(c.digits) == old(Val(c.digits)) + Row(ad, b.digits, i)
  {
    tmp.digits := seq(|tmp.digits|, _ => 0);
    tmp.digits := Resize(tmp.digits, |b.digits| + i + 1);
    tmp.MultiplyRow(b, ad, i);
    if tmp.IsZero() {
      LowZero(tmp.digits, 1);
    }
    c.AddAssign(tmp);
  }

  /** One worker, up to the lock; it reuses the buffer of its rows. */
  method PartialProduct(a: Decimal, b: Decimal, begin: nat, end: nat) returns (c: Decimal)
    requires AllDigits(a.digits) && AllDigits(b.digits) && begin <= end <= |a.digits|
    ensures fresh(c) && AllDigits(c.digits) && |c.digits| == |a.digits| + |b.digits|
    ensures Val(c.digits) == Rows(a.digits, b.digits, begin, end)
  {
    ghost var x, y := a.digits, b.digits;
    var as_, bs := |a.digits|, |b.digits|;
    c := new Decimal();
    c.digits := Resize(c.digits, as_ + bs);
    LowZero(c.digits, as_ + bs);
    var tmp := new Decimal();
    var i := begin;
    while i < end
      invariant begin <= i <= end && a.digits == x && b.digits == y
      invariant fresh(c) && fresh(tmp) && c != tmp
      invariant AllDigits(c.digits) && |c.digits| == as_ + bs
      invariant Val(c.digits) == Rows(x, y, begin, i)
    {
      var ad := a.digits[i];
      RowsFit(x, y, begin, i + 1);
      if ad != 0 {
        AddBufferedRow(c, tmp, b, ad, i);
      }
      i := i + 1;
    }
  }

  /** Starts the workers and adds up their parts; at each turn any worker still running may be next. */
  method Accumulate(a: Decimal, b: Decimal, workers: nat) returns (result: Decimal)
    requires AllDigits(a.digits) && AllDigits(b.digits) && workers > 0
    ensures fresh(result) && AllDigits(result.digits)
    ensures Val(result.digits) == Val(a.digits) * Val(b.digits)
  {
    ghost var x, y := a.digits, b.digits;
    var as_, bs := |a.digits|, |b.digits|;
    result := new Decimal();
    result.digits := Resize(result.digits, as_ + bs);
    LowZero(result.digits, as_ + bs);
    ghost var cuts := Cuts(as_, workers);
    CutsAscend(as_, workers);
    RowsFit(x, y, 0, as_);
    var running: set<nat> := {};
    for worker := 0 to workers
      invariant forall k: nat :: k < worker <==> k in running
    {
      running := running + {worker};
    }
    AllOwed(x, y, cuts, running, workers);
    while running != {}
      invariant forall k :: k in running ==> k < workers
      invariant a.digits == x && b.digits == y
      invariant fresh(result) && AllDigits(result.digits) && |result.digits| == as_ + bs
      invariant Val(result.digits) + Owed(x, y, cuts, running, workers) == Rows(x, y, 0, as_)
      decreases |running|
    {
      var worker :| worker in running;
      CutsApart(cuts, worker, worker + 1);
      CutsApart(cuts, worker + 1, workers);
      var c := PartialProduct(a, b, Bound(as_, worker, workers), Bound(as_, worker + 1, workers));
      OneFinishes(x, y, cuts, running, workers, worker);
      OwedNonNegative(x, y, cuts, running - {worker}, workers);
      result.AddAssign(c);
      running := running - {worker};
    }
    NoneOwed(x, y, cuts, workers);
    RowsAre(x, y, as_);
  }

  /**
   `parallel_multiply`, on a machine with any number of cores.  In whatever order the workers finish, the
   result has the digits of the serial product.
   */
  method ParallelMultiply(l: Decimal, r: Decimal, cores: nat) returns (result: Decimal)
    requires l.Valid() && r.Valid()
    ensures fresh(result) && result.Valid()
    ensures Val(result.digits) == Val(l.digits) * Val(r.digits)
    ensures result.digits == Numeral(Product(l.Value(), r.Value()))
  {
    var a := if |l.digits| <= |r.digits| then l else r;
    var b := if |l.digits| > |r.digits| then l else r;
    ghost var x, y := a.digits, b.digits;
    assert Val(l.digits) * Val(r.digits) == Val(x) * Val(y);
    SmallNumerals(x);
    if a.IsZero() {
      result := new Decimal.FromNat(0);
      return;
    } else if a.IsUnity() {
      result := new Decimal.Copy(b);
      CanonicalIsNumeral(y);
      return;
    }
    var as_, bs := |a.digits|, |b.digits|;
    var workers := if cores < as_ / 1000 then cores else as_ / 1000;
    if workers == 0 {
      result := l.Times(r);
      return;
    }
    result := Accumulate(a, b, workers);
    result.RemoveLeadingZeros();
    CanonicalIsNumeral(result.digits);
  }
}
