/**
 Numbers as little-endian vectors of decimal digits held in signed characters.  `Val` is the number a
 vector stands for and `Numeral` the one vector in canonical form that stands for a number.
 */
module DecimalValue {

  newtype Digit = x: int | -128 <= x < 128

  function Pow10(n: nat): (p: nat)
    ensures p > 0
  {
    if n == 0 then 1 else 10 * Pow10(n - 1)
  }

  function Factorial(n: nat): (f: nat)
    ensures f > 0
  {
    if n == 0 then 1 else n * Factorial(n - 1)
  }

  lemma ProductNonNegative(x: int, y: int)
    requires x >= 0 && y >= 0
    ensures x * y >= 0
  {
  }

  function Product(x: nat, y: nat): nat {
    ProductNonNegative(x, y);
    x * y
  }

  /** Reading past the end gives zero. */
  function At(ds: seq<Digit>, i: nat): Digit {
    if i < |ds| then ds[i] else 0
  }

  /** What `std::vector::resize` makes of the vector. */
  function Resize(ds: seq<Digit>, n: nat): (r: seq<Digit>)
    ensures |r| == n && forall i :: 0 <= i < n ==> r[i] == At(ds, i)
  {
    if n <= |ds| then ds[..n] else ds + seq(n - |ds|, _ => 0)
  }

  /** The value of the `n` lowest digits. */
  function Low(ds: seq<Digit>, n: nat): int {
    if n == 0 then 0 else Low(ds, n - 1) + At(ds, n - 1) as int * Pow10(n - 1)
  }

  function Val(ds: seq<Digit>): int {
    Low(ds, |ds|)
  }

  predicate AllDigits(ds: seq<Digit>) {
    |ds| > 0 && forall i :: 0 <= i < |ds| ==> 0 <= ds[i] <= 9
  }

  /** No leading zero, except in the single digit 0. */
  predicate Canonical(ds: seq<Digit>) {
    AllDigits(ds) && (|ds| > 1 ==> ds[|ds| - 1] != 0)
  }

  function Numeral(n: nat): (ds: seq<Digit>) {
    if n < 10 then [n as Digit] else [(n % 10) as Digit] + Numeral(n / 10)
  }

  // ---------------------------------------------------------------- powers

  lemma {:induction false} PowAdd(m: nat, n: nat)
    ensures Pow10(m + n) == Pow10(m) * Pow10(n)
  {
    if m > 0 {
      PowAdd(m - 1, n);
      Associate(10, Pow10(m - 1), Pow10(n));
    }
  }

  lemma Associate(x: int, y: int, z: int)
    ensures x * y * z == x * (y * z)
  {
  }

  lemma {:induction false} PowMonotone(m: nat, n: nat)
    requires m <= n
    ensures Pow10(m) <= Pow10(n)
  {
    if m < n {
      PowMonotone(m, n - 1);
    }
  }

  // ---------------------------------------------------------------- values

  lemma {:induction false} LowAgree(x: seq<Digit>, y: seq<Digit>, n: nat)
    requires forall i: nat :: i < n ==> At(x, i) == At(y, i)
    ensures Low(x, n) == Low(y, n)
  {
    if n > 0 {
      LowAgree(x, y, n - 1);
    }
  }

  lemma {:induction false} LowAll(ds: seq<Digit>, n: nat)
    requires |ds| <= n
    ensures Low(ds, n) == Val(ds)
  {
    if |ds| < n {
      LowAll(ds, n - 1);
    }
  }

  lemma {:induction false} LowZero(ds: seq<Digit>, n: nat)
    requires forall i: nat :: i < n ==> At(ds, i) == 0
    ensures Low(ds, n) == 0
  {
    if n > 0 {
      LowZero(ds, n - 1);
    }
  }

  lemma ResizeVal(ds: seq<Digit>, n: nat)
    ensures Val(Resize(ds, n)) == Low(ds, n)
  {
    LowAgree(Resize(ds, n), ds, n);
  }

  lemma ScaledDigit(d: int, p: int)
    requires 0 <= d <= 9 && p > 0
    ensures 0 <= d * p <= 9 * p
    ensures d != 0 ==> d * p >= p
  {
  }

  lemma {:induction false} LowBound(ds: seq<Digit>, n: nat)
    requires AllDigits(ds)
    ensures 0 <= Low(ds, n) < Pow10(n)
  {
    if n > 0 {
      LowBound(ds, n - 1);
      ScaledDigit(At(ds, n - 1) as int, Pow10(n - 1));
    }
  }

  lemma {:induction false} LowMonotone(ds: seq<Digit>, m: nat, n: nat)
    requires AllDigits(ds) && m <= n
    ensures Low(ds, m) <= Low(ds, n)
  {
    if m < n {
      LowMonotone(ds, m, n - 1);
      ScaledDigit(At(ds, n - 1) as int, Pow10(n - 1));
    }
  }

  lemma TopDigit(ds: seq<Digit>)
    requires AllDigits(ds)
    ensures ds[|ds| - 1] != 0 <==> Val(ds) >= Pow10(|ds| - 1)
  {
    LowBound(ds, |ds| - 1);
    ScaledDigit(ds[|ds| - 1] as int, Pow10(|ds| - 1));
  }

  /** A canonical number has as many digits as its value needs. */
  lemma CanonicalLength(ds: seq<Digit>)
    requires AllDigits(ds)
    ensures 0 <= Val(ds) < Pow10(|ds|)
    ensures Canonical(ds) <==> |ds| == 1 || Val(ds) >= Pow10(|ds| - 1)
  {
    LowBound(ds, |ds|);
    TopDigit(ds);
  }

  lemma ScaleApart(a: int, x: int, b: int, y: int, p: int)
    requires 0 <= x < p && 0 <= y < p
    ensures a < b ==> a * p + x < b * p + y
    ensures a * p + x == b * p + y ==> a == b && x == y
  {
    if a < b {
      assert a * p + p == (a + 1) * p <= b * p;
    } else if b < a {
      assert b * p + p == (b + 1) * p <= a * p;
    }
  }

  lemma {:induction false} SameLow(x: seq<Digit>, y: seq<Digit>, n: nat)
    requires AllDigits(x) && AllDigits(y) && Low(x, n) == Low(y, n)
    ensures forall i: nat :: i < n ==> At(x, i) == At(y, i)
  {
    if n > 0 {
      LowBound(x, n - 1);
      LowBound(y, n - 1);
      ScaleApart(At(x, n - 1) as int, Low(x, n - 1), At(y, n - 1) as int, Low(y, n - 1), Pow10(n - 1));
      SameLow(x, y, n - 1);
    }
  }

  lemma LongerIsLarger(x: seq<Digit>, y: seq<Digit>)
    requires AllDigits(x) && Canonical(y) && |x| < |y|
    ensures Val(x) < Val(y)
  {
    CanonicalLength(x);
    CanonicalLength(y);
    PowMonotone(|x|, |y| - 1);
  }

  /** On canonical numbers, equality of digit vectors is equality of values. */
  lemma SameDigitsSameValue(x: seq<Digit>, y: seq<Digit>)
    requires Canonical(x) && Canonical(y)
    ensures x == y <==> Val(x) == Val(y)
  {
    if Val(x) == Val(y) {
      if |x| < |y| {
        LongerIsLarger(x, y);
      } else if |y| < |x| {
        LongerIsLarger(y, x);
      }
      SameLow(x, y, |x|);
      forall i | 0 <= i < |x| ensures x[i] == y[i] {
        assert At(x, i) == At(y, i);
      }
    }
  }

  /** The highest differing digit decides the order of two numbers of the same length. */
  lemma HigherDigitDecides(x: seq<Digit>, y: seq<Digit>, i: nat)
    requires AllDigits(x) && AllDigits(y) && i < |x| == |y|
    requires x[i] < y[i] && forall k :: i < k < |x| ==> x[k] == y[k]
    ensures Val(x) < Val(y)
  {
    LowBound(x, i);
    LowBound(y, i);
    ScaleApart(x[i] as int, Low(x, i), y[i] as int, Low(y, i), Pow10(i));
    SameTail(x, y, i + 1, |x|);
  }

  lemma {:induction false} SameTail(x: seq<Digit>, y: seq<Digit>, i: nat, n: nat)
    requires i <= n <= |x| == |y|
    requires forall k :: i <= k < n ==> x[k] == y[k]
    ensures Low(x, n) - Low(x, i) == Low(y, n) - Low(y, i)
  {
    if i < n {
      SameTail(x, y, i, n - 1);
    }
  }

  // ---------------------------------------------------------------- rows of a product

  /** The product of one digit, `i` places up, and `b`. */
  ghost function Row(ad: Digit, b: seq<Digit>, i: nat): int {
    ad as int * Val(b) * Pow10(i)
  }

  /** The sum of the rows of a range of the digits of `a`. */
  ghost function Rows(a: seq<Digit>, b: seq<Digit>, begin: nat, end: nat): int {
    if end <= begin then 0 else Rows(a, b, begin, end - 1) + Row(At(a, end - 1), b, end - 1)
  }

  lemma {:induction false} RowsAre(a: seq<Digit>, b: seq<Digit>, n: nat)
    ensures Rows(a, b, 0, n) == Low(a, n) * Val(b)
  {
    if n > 0 {
      RowsAre(a, b, n - 1);
      FactorOut(Low(a, n - 1), At(a, n - 1) as int, Pow10(n - 1), Val(b));
    }
  }

  lemma FactorOut(low: int, d: int, p: int, v: int)
    ensures low * v + d * v * p == (low + d * p) * v
  {
  }

  lemma {:induction false} RowsJoin(a: seq<Digit>, b: seq<Digit>, begin: nat, middle: nat, end: nat)
    requires begin <= middle <= end
    ensures Rows(a, b, begin, middle) + Rows(a, b, middle, end) == Rows(a, b, begin, end)
  {
    if middle < end {
      RowsJoin(a, b, begin, middle, end - 1);
    }
  }

  lemma {:induction false} RowsNonNegative(a: seq<Digit>, b: seq<Digit>, begin: nat, end: nat)
    requires AllDigits(a) && AllDigits(b)
    ensures Rows(a, b, begin, end) >= 0
  {
    if begin < end {
      RowsNonNegative(a, b, begin, end - 1);
      LowBound(b, |b|);
      ProductNonNegative(At(a, end - 1) as int, Val(b));
      ProductNonNegative(At(a, end - 1) as int * Val(b), Pow10(end - 1));
    }
  }

  /** No sum of rows needs more digits than the two factors have together. */
  lemma RowsFit(a: seq<Digit>, b: seq<Digit>, begin: nat, end: nat)
    requires AllDigits(a) && AllDigits(b) && begin <= end <= |a|
    ensures 0 <= Rows(a, b, begin, end) <= Rows(a, b, 0, |a|) < Pow10(|a| + |b|)
  {
    RowsJoin(a, b, begin, end, |a|);
    RowsJoin(a, b, 0, begin, |a|);
    RowsNonNegative(a, b, 0, begin);
    RowsNonNegative(a, b, begin, end);
    RowsNonNegative(a, b, end, |a|);
    RowsAre(a, b, |a|);
    LowBound(a, |a|);
    LowBound(b, |b|);
    PowAdd(|a|, |b|);
    ProductBound(Val(a), Pow10(|a|), Val(b), Pow10(|b|));
  }

  lemma ProductBound(x: int, p: int, y: int, q: int)
    requires 0 <= x < p && 0 <= y < q
    ensures x * y < p * q
  {
    assert x * y <= x * q < p * q;
  }

  // ---------------------------------------------------------------- numerals

  lemma {:induction false} LowCons(d: Digit, ds: seq<Digit>, n: nat)
    ensures Low([d] + ds, n + 1) == d as int + 10 * Low(ds, n)
  {
    if n == 0 {
      assert Low([d] + ds, 1) == Low([d] + ds, 0) + At([d] + ds, 0) as int * Pow10(0);
    } else {
      LowCons(d, ds, n - 1);
      assert At([d] + ds, n) == At(ds, n - 1);
      Associate(10, At(ds, n - 1) as int, Pow10(n - 1));
      assert At(ds, n - 1) as int * Pow10(n) == 10 * (At(ds, n - 1) as int * Pow10(n - 1));
    }
  }

  /** Every number has a canonical numeral. */
  lemma {:induction false} NumeralCanonical(n: nat)
    ensures Canonical(Numeral(n)) && Val(Numeral(n)) == n
    ensures n > 0 ==> Numeral(n)[|Numeral(n)| - 1] != 0
  {
    if n < 10 {
      assert Val([n as Digit]) == Low([n as Digit], 0) + n * Pow10(0);
    } else {
      NumeralCanonical(n / 10);
      LowCons((n % 10) as Digit, Numeral(n / 10), |Numeral(n / 10)|);
    }
  }

  /** ... and only one. */
  lemma CanonicalIsNumeral(ds: seq<Digit>)
    requires Canonical(ds)
    ensures Val(ds) >= 0 && ds == Numeral(Val(ds))
  {
    LowBound(ds, |ds|);
    NumeralCanonical(Val(ds));
    SameDigitsSameValue(ds, Numeral(Val(ds)));
  }

  lemma SmallNumerals(ds: seq<Digit>)
    requires Canonical(ds)
    ensures ds == [0] <==> Val(ds) == 0
    ensures ds == [1] <==> Val(ds) == 1
  {
    CanonicalIsNumeral(ds);
    NumeralCanonical(0);
    NumeralCanonical(1);
  }
}
