/**
 The big decimal number: digit-vector loops that change `digits` in place.  Operators that return a number
 return a new object, and the object given as an operand may be the receiver itself.
 */
module Decimal {
  import opened DecimalValue
  import opened Wrappers

  class Decimal {
    var digits: seq<Digit>

    ghost predicate Valid()
      reads this
    {
      Canonical(digits)
    }

    /** The number that a valid object stands for. */
    ghost function Value(): (n: nat)
      requires Valid()
      reads this
      ensures n == Val(digits) && digits == Numeral(n)
    {
      CanonicalIsNumeral(digits);
      Val(digits)
    }

    constructor ()
      ensures digits == [0]
    {
      digits := [0];
    }

    constructor Copy(d: Decimal)
      ensures digits == d.digits
    {
      digits := d.digits;
    }

    constructor FromNat(value: nat)
      ensures Valid() && Val(digits) == value && digits == Numeral(value)
    {
      var ds: seq<Digit> := [];
      var val: nat := value;
      if val != 0 {
        while val != 0
          invariant val * Pow10(|ds|) + Val(ds) == value
          invariant forall i :: 0 <= i < |ds| ==> 0 <= ds[i] <= 9
          invariant val == 0 ==> |ds| > 0 && ds[|ds| - 1] != 0
        {
          PushDigit(ds, (val % 10) as Digit);
          NextDigit(val, |ds|);
          ds := ds + [(val % 10) as Digit];
          val := val / 10;
        }
      } else {
        ds := [0];
        LowZero(ds, 1);
      }
      digits := ds;
      CanonicalIsNumeral(ds);
    }

    /** Construction from an integer, which throws for a negative one. */
    static method FromInt(value: int) returns (d: Option<Decimal>)
      ensures d.None? <==> value < 0
      ensures d.Some? ==> fresh(d.value) && d.value.Valid() && d.value.Value() == value
    {
      if value < 0 {
        return None;
      }
      var number := new Decimal.FromNat(value);
      d := Some(number);
    }

    predicate IsZero()
      reads this
    {
      |digits| == 1 && At(digits, 0) == 0
    }

    predicate IsUnity()
      reads this
    {
      |digits| == 1 && At(digits, 0) == 1
    }

    /** Drops leading zeros; an empty vector becomes 0. */
    method RemoveLeadingZeros()
      requires digits == [] || AllDigits(digits)
      modifies this
      ensures Valid() && Val(digits) == old(Val(digits))
    {
      var i := |digits|;
      ghost var n := i;
      while i > 0
        invariant 0 <= i <= n == |digits| && digits == old(digits)
        invariant forall k :: i <= k < n ==> digits[k] == 0
      {
        if digits[i - 1] != 0 {
          SameTail(digits, Resize([], n), i, n);
          LowZero(Resize([], n), n);
          LowZero(Resize([], n), i);
          ResizeVal(digits, i);
          digits := Resize(digits, i);
          return;
        }
        i := i - 1;
      }
      LowZero(digits, n);
      digits := Resize(digits, 1);
      LowZero(digits, 1);
    }

    /** `+=`; the operands need not be canonical. */
    method AddAssign(b: Decimal)
      requires AllDigits(digits) && AllDigits(b.digits)
      modifies this
      ensures AllDigits(digits)
      ensures Val(digits) == old(Val(digits) + Val(b.digits))
      ensures old(IsZero()) ==> digits == old(b.digits)
      ensures !old(IsZero()) && old(b.IsZero()) ==> digits == old(digits)
      ensures !old(IsZero()) && !old(b.IsZero()) ==>
        var w := old(if |digits| < |b.digits| then |b.digits| else |digits|);
        |digits| == if Val(digits) < Pow10(w) then w else w + 1
      ensures old(Canonical(digits) && Canonical(b.digits)) ==> Valid()
    {
      if IsZero() {
        LowZero(digits, 1);
        digits := b.digits;
        return;
      } else if b.IsZero() {
        LowZero(b.digits, 1);
        return;
      }
      ghost var x, y := digits, b.digits;
      var w := if |digits| < |b.digits| then |b.digits| else |digits|;
      digits := Resize(digits, w + 1);
      var carry := AddDigits(b, w, x, y);
      LowAll(x, w);
      LowAll(y, w);
      ghost var loop := digits;
      if carry {
        digits := digits[w := 1];
      } else {
        digits := Resize(digits, w);
      }
      LowAgree(digits, loop, w);
      SumShape(x, y, digits, w);
    }

    /** The carry loop of `+=`, on operands whose digits before the loop were `x`, widened, and `y`. */
    method AddDigits(b: Decimal, w: nat, ghost x: seq<Digit>, ghost y: seq<Digit>) returns (carry: bool)
      requires AllDigits(x) && AllDigits(y) && |x| <= w
      requires digits == Resize(x, w + 1)
      requires if b == this then x == y else b.digits == y
      modifies this
      ensures AllDigits(digits) && |digits| == w + 1
      ensures Low(digits, w) + (if carry then Pow10(w) else 0) == Low(x, w) + Low(y, w)
    {
      carry := false;
      var i := 0;
      while i < w
        invariant 0 <= i <= w && |digits| == w + 1
        invariant forall k :: 0 <= k <= w ==> 0 <= digits[k] <= 9
        invariant forall k :: i <= k < w ==> digits[k] == At(x, k) && At(b.digits, k) == At(y, k)
        invariant Low(digits, i) + (if carry then Pow10(i) else 0) == Low(x, i) + Low(y, i)
      {
        ghost var before, carried := digits, carry;
        var d: Digit := digits[i] + At(b.digits, i) + (if carry then 1 else 0);
        carry := d >= 10;
        digits := digits[i := if carry then d - 10 else d];
        AddStep(x, y, before, digits, i, carried, d);
        i := i + 1;
      }
    }

    /**
     `-=`.  It throws exactly when the difference would be negative; when it does, nothing is said about
     the digits left behind.
     */
    method SubAssign(b: Decimal) returns (threw: bool)
      requires Valid() && b.Valid()
      modifies this
      ensures threw == old(Val(digits) < Val(b.digits))
      ensures !threw ==> Valid() && Val(digits) == old(Val(digits) - Val(b.digits))
    {
      SmallNumerals(b.digits);
      CanonicalLength(digits);
      if b.IsZero() {
        return false;
      }
      ghost var x, y := digits, b.digits;
      var w := |digits|;
      if |b.digits| > w {
        LongerIsLarger(x, y);
        return true;
      }
      var borrow := SubDigits(b, w, x, y);
      LowAll(y, w);
      LowBound(digits, w);
      if borrow {
        return true;
      }
      RemoveLeadingZeros();
      return false;
    }

    /** The borrow loop of `-=`, on operands whose digits before the loop were `x` and `y`. */
    method SubDigits(b: Decimal, w: nat, ghost x: seq<Digit>, ghost y: seq<Digit>) returns (borrow: bool)
      requires AllDigits(x) && AllDigits(y) && digits == x && b.digits == y && w == |x|
      modifies this
      ensures AllDigits(digits) && |digits| == w
      ensures Low(digits, w) - (if borrow then Pow10(w) else 0) == Low(x, w) - Low(y, w)
    {
      borrow := false;
      var i := 0;
      while i < w
        invariant 0 <= i <= w == |digits|
        invariant forall k :: 0 <= k < w ==> 0 <= digits[k] <= 9
        invariant forall k :: i <= k < w ==> digits[k] == At(x, k) && At(b.digits, k) == At(y, k)
        invariant Low(digits, i) - (if borrow then Pow10(i) else 0) == Low(x, i) - Low(y, i)
      {
        ghost var before, borrowed := digits, borrow;
        var d: Digit := digits[i] - At(b.digits, i) - (if borrow then 1 else 0);
        borrow := d < 0;
        digits := digits[i := if borrow then 10 + d else d];
        SubStep(x, y, before, digits, i, borrowed, d);
        i := i + 1;
      }
    }

    /**
     The shifted product of one digit and `b`: the inner loop that serial and parallel multiplication share,
     writing over a buffer of zeros.
     */
    method MultiplyRow(b: Decimal, ad: Digit, i: nat)
      requires b != this && AllDigits(b.digits) && 0 < ad <= 9
      requires |digits| == |b.digits| + i + 1 && forall k :: 0 <= k < |digits| ==> digits[k] == 0
      modifies this
      ensures AllDigits(digits)
      ensures |b.digits| + i <= |digits| <= |b.digits| + i + 1
      ensures Val(digits) == Row(ad, b.digits, i)
    {
      var bs := |b.digits|;
      var carry: Digit := 0;
      var j := 0;
      LowZero(digits, i);
      while j < bs
        invariant 0 <= j <= bs && |digits| == bs + i + 1 && 0 <= carry <= 8
        invariant forall k :: 0 <= k < |digits| ==> 0 <= digits[k] <= 9
        invariant forall k :: i + j <= k < |digits| ==> digits[k] == 0
        invariant Low(digits, i + j) + carry as int * Pow10(i + j) == ad as int * Low(b.digits, j) * Pow10(i)
      {
        ghost var before, carried := digits, carry;
        var bd := b.digits[j];
        DigitProduct(bd as int, ad as int, carry as int);
        var d: Digit := bd * ad + carry;
        carry := d / 10;
        digits := digits[j + i := d - carry * 10];
        RowStep(b.digits, ad, before, digits, i, j, carried, carry);
        j := j + 1;
      }
      ghost var loop := digits;
      if carry != 0 {
        digits := digits[bs + i := carry];
      } else {
        digits := Resize(digits, bs + i);
      }
      LowAgree(digits, loop, bs + i);
    }

    /** One turn of the outer loop of `*`, whose sum the receiver is wide enough to hold. */
    method AddRow(b: Decimal, ad: Digit, i: nat)
      requires b != this && AllDigits(digits) && AllDigits(b.digits) && 0 < ad <= 9
      requires |digits| > 1 && |b.digits| + i + 1 <= |digits|
      requires Val(digits) + Row(ad, b.digits, i) < Pow10(|digits|)
      modifies this
      ensures AllDigits(digits) && |digits| == old(|digits|)
      ensures Val(digits) == old(Val(digits)) + Row(ad, b.digits, i)
    {
      var tmp := new Decimal();
      tmp.digits := Resize(tmp.digits, |b.digits| + i + 1);
      tmp.MultiplyRow(b, ad, i);
      if tmp.IsZero() {
        LowZero(tmp.digits, 1);
      }
      AddAssign(tmp);
    }

    /** `*`, schoolbook, with the shorter operand's digits in the outer loop. */
    method Times(value: Decimal) returns (c: Decimal)
      requires Valid() && value.Valid()
      ensures fresh(c) && c.Valid()
      ensures Val(c.digits) == Val(digits) * Val(value.digits)
      ensures c.digits == Numeral(Product(Value(), value.Value()))
    {
      var a := if |digits| <= |value.digits| then this else value;
      var b := if |digits| > |value.digits| then this else value;
      ghost var x, y := a.digits, b.digits;
      assert Val(digits) * Val(value.digits) == Val(x) * Val(y);
      SmallNumerals(x);
      if a.IsZero() {
        c := new Decimal.FromNat(0);
        return;
      } else if a.IsUnity() {
        c := new Decimal.Copy(b);
        CanonicalIsNumeral(y);
        return;
      }
      c := a.MultiplyDigits(b);
      c.RemoveLeadingZeros();
      CanonicalIsNumeral(c.digits);
    }

    /** The outer loop of `*`. */
    method MultiplyDigits(b: Decimal) returns (c: Decimal)
      requires AllDigits(digits) && AllDigits(b.digits)
      ensures fresh(c) && AllDigits(c.digits) && Val(c.digits) == Val(digits) * Val(b.digits)
    {
      ghost var x, y := digits, b.digits;
      c := new Decimal();
      var as_ := |digits|;
      var bs := |b.digits|;
      c.digits := Resize(c.digits, as_ + bs);
      LowZero(c.digits, as_ + bs);
      var i := 0;
      while i < as_
        invariant 0 <= i <= as_ && digits == x && b.digits == y
        invariant fresh(c) && |c.digits| == as_ + bs && AllDigits(c.digits)
        invariant Val(c.digits) == Rows(x, y, 0, i)
      {
        var ad := digits[i];
        RowsFit(x, y, 0, i + 1);
        if ad != 0 {
          c.AddRow(b, ad, i);
        }
        i := i + 1;
      }
      RowsAre(x, y, as_);
    }

    method TimesAssign(b: Decimal)
      requires Valid() && b.Valid()
      modifies this
      ensures Valid() && Val(digits) == old(Val(digits) * Val(b.digits))
    {
      var a := new Decimal.Copy(this);
      var product := a.Times(b);
      digits := product.digits;
    }

    /** `!`: the countdown loop. */
    method Fact() returns (r: Decimal)
      requires Valid()
      ensures fresh(r) && r.Valid() && r.Value() == Factorial(Value())
    {
      SmallNumerals(digits);
      ghost var n := Value();
      assert Factorial(1) == 1;
      if IsZero() || IsUnity() {
        r := new Decimal.FromNat(1);
        return;
      }
      r := new Decimal.Copy(this);
      var one := new Decimal.FromNat(1);
      var i := new Decimal.Copy(this);
      var threw := i.SubAssign(one);
      assert !threw;
      SmallNumerals(i.digits);
      while !i.IsUnity()
        invariant fresh(r) && fresh(i) && fresh(one) && r != i && i != one && r != one
        invariant r.Valid() && i.Valid() && one.Valid() && Val(one.digits) == 1
        invariant Val(i.digits) >= 1 && (i.IsUnity() <==> Val(i.digits) == 1)
        invariant r.Value() * Factorial(i.Value()) == Factorial(n)
        decreases i.Value()
      {
        r.CountDown(i, one);
        SmallNumerals(i.digits);
      }
    }

    /** One turn of the countdown: multiply by `i`, then decrement it. */
    method CountDown(i: Decimal, one: Decimal)
      requires this != i && i != one && this != one
      requires Valid() && i.Valid() && one.Valid() && one.Value() == 1 && i.Value() > 0
      modifies this, i
      ensures Valid() && i.Valid() && i.Value() == old(i.Value()) - 1
      ensures Value() * Factorial(i.Value()) == old(Value() * Factorial(i.Value()))
    {
      FactorialStep(Value(), i.Value());
      TimesAssign(i);
      var threw := i.SubAssign(one);
    }

    /** The sign of the difference. */
    method RelationTo(b: Decimal) returns (sign: Digit)
      requires Valid() && b.Valid()
      ensures -1 <= sign <= 1
      ensures sign == 1 <==> Val(digits) > Val(b.digits)
      ensures sign == -1 <==> Val(digits) < Val(b.digits)
    {
      var a := this;
      var w := |a.digits|;
      if w > |b.digits| {
        LongerIsLarger(b.digits, a.digits);
        return 1;
      } else if |b.digits| > w {
        LongerIsLarger(a.digits, b.digits);
        return -1;
      }
      var i := w;
      while i > 0
        invariant 0 <= i <= w
        invariant forall k :: i <= k < w ==> a.digits[k] == b.digits[k]
      {
        var d: Digit := a.digits[i - 1] - b.digits[i - 1];
        if d > 0 {
          HigherDigitDecides(b.digits, a.digits, i - 1);
          return 1;
        } else if d < 0 {
          HigherDigitDecides(a.digits, b.digits, i - 1);
          return -1;
        }
        i := i - 1;
      }
      assert a.digits == b.digits;
      return 0;
    }

    /** `==` compares digit vectors, and so values. */
    method Equals(b: Decimal) returns (same: bool)
      requires Valid() && b.Valid()
      ensures same <==> Val(digits) == Val(b.digits)
    {
      SameDigitsSameValue(digits, b.digits);
      same := digits == b.digits;
    }

    /**
     Conversion to an integer type with the given maximum.  It throws exactly when the value exceeds the
     maximum, and no intermediate result does.
     */
    method ToInt(max: nat) returns (r: nat, threw: bool)
      requires Valid() && max >= 9
      ensures threw <==> Val(digits) > max
      ensures !threw ==> r == Val(digits)
      ensures r <= max
    {
      r := 0;
      var k := |digits|;
      while k > 0
        invariant 0 <= k <= |digits| && r <= max
        invariant r * Pow10(k) + Low(digits, k) == Val(digits)
      {
        k := k - 1;
        var digit := digits[k] as int;
        HornerStep(r, digit, Pow10(k));
        LowBound(digits, k);
        if (max - digit) / 10 < r {
          TooLarge(r * 10 + digit, Pow10(k), max);
          return r, true;
        }
        r := r * 10 + digit;
      }
      return r, false;
    }

    /** Converting an integer that fits its type to a number and back is the identity. */
    static method IntegerRoundTrip(value: int, max: nat) returns (r: nat, threw: bool)
      requires max >= 9
      ensures threw <==> value < 0 || value > max
      ensures !threw ==> r == value
    {
      var d := FromInt(value);
      if d.None? {
        return 0, true;
      }
      r, threw := d.value.ToInt(max);
    }

    /** Converting a number to an integer and back gives its digits, if the conversion does not throw. */
    static method NumberRoundTrip(d: Decimal, max: nat) returns (e: Option<Decimal>)
      requires d.Valid() && max >= 9
      ensures e.Some? <==> d.Value() <= max
      ensures e.Some? ==> e.value.digits == d.digits
    {
      var r, threw := d.ToInt(max);
      if threw {
        return None;
      }
      e := FromInt(r);
    }
  }

  // ---------------------------------------------------------------- one step of each loop

  lemma PushDigit(ds: seq<Digit>, d: Digit)
    ensures Val(ds + [d]) == Val(ds) + d as int * Pow10(|ds|)
  {
    LowAgree(ds + [d], ds, |ds|);
  }

  lemma NextDigit(val: nat, n: nat)
    ensures (val % 10) * Pow10(n) + (val / 10) * Pow10(n + 1) == val * Pow10(n)
  {
    var q, m, p := val / 10, val % 10, Pow10(n);
    assert val == q * 10 + m && Pow10(n + 1) == 10 * p;
    HornerStep(q, m, p);
  }

  lemma AddStep(x: seq<Digit>, y: seq<Digit>, before: seq<Digit>, after: seq<Digit>, i: nat, carry: bool, d: Digit)
    requires d as int == At(x, i) as int + At(y, i) as int + (if carry then 1 else 0)
    requires i < |before| && after == before[i := if d >= 10 then d - 10 else d]
    requires Low(before, i) + (if carry then Pow10(i) else 0) == Low(x, i) + Low(y, i)
    ensures Low(after, i + 1) + (if d >= 10 then Pow10(i + 1) else 0) == Low(x, i + 1) + Low(y, i + 1)
  {
    LowAgree(after, before, i);
    AddDigit(At(x, i) as int, At(y, i) as int, carry, d as int, Pow10(i));
  }

  lemma AddDigit(x: int, y: int, carry: bool, d: int, p: int)
    requires d == x + y + (if carry then 1 else 0)
    ensures d >= 10 ==> (d - 10) * p + 10 * p == x * p + y * p + (if carry then p else 0)
    ensures d < 10 ==> d * p == x * p + y * p + (if carry then p else 0)
  {
  }

  lemma SubStep(x: seq<Digit>, y: seq<Digit>, before: seq<Digit>, after: seq<Digit>, i: nat, borrow: bool, d: Digit)
    requires -10 <= d && d as int == At(x, i) as int - At(y, i) as int - (if borrow then 1 else 0)
    requires i < |before| && after == before[i := if d < 0 then 10 + d else d]
    requires Low(before, i) - (if borrow then Pow10(i) else 0) == Low(x, i) - Low(y, i)
    ensures Low(after, i + 1) - (if d < 0 then Pow10(i + 1) else 0) == Low(x, i + 1) - Low(y, i + 1)
  {
    LowAgree(after, before, i);
    SubDigit(At(x, i) as int, At(y, i) as int, borrow, d as int, Pow10(i));
  }

  lemma SubDigit(x: int, y: int, borrow: bool, d: int, p: int)
    requires d == x - y - (if borrow then 1 else 0)
    ensures d < 0 ==> (10 + d) * p - 10 * p == x * p - y * p - (if borrow then p else 0)
    ensures d >= 0 ==> d * p == x * p - y * p - (if borrow then p else 0)
  {
  }

  lemma FactorialStep(r: nat, m: nat)
    requires m > 0
    ensures r * m * Factorial(m - 1) == r * Factorial(m)
  {
    Associate(r, m, Factorial(m - 1));
  }

  /** How long the sum of `x` and `y` is, and that it has no leading zero if neither operand has. */
  lemma SumShape(x: seq<Digit>, y: seq<Digit>, sum: seq<Digit>, w: nat)
    requires AllDigits(x) && AllDigits(y) && AllDigits(sum)
    requires w == (if |x| < |y| then |y| else |x|)
    requires |sum| == w || (|sum| == w + 1 && sum[w] == 1)
    requires Val(sum) == Val(x) + Val(y)
    ensures |sum| == if Val(sum) < Pow10(w) then w else w + 1
    ensures Canonical(x) && Canonical(y) ==> Canonical(sum)
  {
    CanonicalLength(x);
    CanonicalLength(y);
    CanonicalLength(sum);
    LowBound(x, |x|);
    LowBound(y, |y|);
    TopDigit(sum);
  }

  /** Every intermediate of multiplication fits a signed character. */
  lemma DigitProduct(bd: int, ad: int, carry: int)
    requires 0 <= bd <= 9 && 0 < ad <= 9 && 0 <= carry <= 8
    ensures 0 <= bd * ad <= 81 && bd * ad + carry <= 89 && (bd * ad + carry) / 10 <= 8
  {
    assert bd * ad <= 9 * ad;
  }

  /** One digit further in a row: what has been written and what is carried stand for the product so far. */
  lemma RowStep(b: seq<Digit>, ad: Digit, before: seq<Digit>, after: seq<Digit>, i: nat, j: nat, carry: Digit,
      carry': Digit)
    requires AllDigits(b) && 0 < ad <= 9 && j < |b| && j + i < |before| && 0 <= carry <= 8 && 0 <= carry' <= 8
    requires var d := b[j] as int * ad as int + carry as int;
      0 <= d - carry' as int * 10 <= 9 && after == before[j + i := (d - carry' as int * 10) as Digit]
    requires Low(before, i + j) + carry as int * Pow10(i + j) == ad as int * Low(b, j) * Pow10(i)
    ensures Low(after, i + j + 1) + carry' as int * Pow10(i + j + 1) == ad as int * Low(b, j + 1) * Pow10(i)
  {
    var d := b[j] as int * ad as int + carry as int;
    LowAgree(after, before, i + j);
    PowAdd(j, i);
    RowDigit(b[j] as int, ad as int, carry as int, d, carry' as int, Low(b, j), Pow10(j), Pow10(i));
  }

  lemma RowDigit(bd: int, ad: int, carry: int, d: int, carry': int, low: int, pj: int, pi: int)
    requires d == bd * ad + carry
    ensures (d - carry' * 10) * (pj * pi) + carry' * (10 * (pj * pi)) == carry * (pj * pi) + ad * (bd * pj) * pi
    ensures ad * (low + bd * pj) * pi == ad * low * pi + ad * (bd * pj) * pi
  {
    var p := pj * pi;
    assert (d - carry' * 10) * p + carry' * (10 * p) == d * p;
    assert ad * (bd * pj) * pi == bd * ad * p;
  }

  lemma HornerStep(r: int, digit: int, p: int)
    ensures (r * 10 + digit) * p == r * (10 * p) + digit * p
  {
  }

  lemma TooLarge(x: int, p: int, max: int)
    requires x > max >= 0 && p > 0
    ensures x * p > max
  {
    assert x * p >= x;
  }
}
