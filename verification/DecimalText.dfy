/**
 Numbers as text: parsing skips commas wherever they stand, printing puts one between groups of three.
 */
module DecimalText {
  import opened Decimal
  import opened DecimalValue
  import opened Wrappers

  predicate IsDigit(c: char) {
    '0' <= c <= '9'
  }

  predicate Legal(text: string) {
    forall i :: 0 <= i < |text| ==> text[i] == ',' || IsDigit(text[i])
  }

  function DigitOf(c: char): Digit
    requires IsDigit(c)
  {
    (c as int - '0' as int) as Digit
  }

  function CharOf(d: Digit): (c: char)
    requires 0 <= d <= 9
    ensures IsDigit(c) && DigitOf(c) == d
  {
    ('0' as int + d as int) as char
  }

  /** The number a text stands for, reading from the left. */
  function TextValue(text: string): nat
    requires Legal(text)
  {
    if text == [] then 0
    else
      var init, last := text[..|text| - 1], text[|text| - 1];
      if last == ',' then TextValue(init) else 10 * TextValue(init) + DigitOf(last) as nat
  }

  function TextLength(w: nat): nat {
    w + (if w == 0 then 0 else (w - 1) / 3)
  }

  /** How many of the last `p` characters are digits, as every fourth from the right is a comma. */
  function DigitsIn(p: nat): nat {
    if p < 4 then p else 3 + DigitsIn(p - 4)
  }

  /** Groups of three digits and a comma. */
  lemma {:induction false} DigitsInIs(q: nat, r: nat)
    requires r < 4
    ensures DigitsIn(4 * q + r) == 3 * q + r
  {
    if q > 0 {
      DigitsInIs(q - 1, r);
    }
  }

  lemma TextLengthIs(w: nat)
    ensures w > 0 ==> TextLength(w) == 4 * ((w - 1) / 3) + (w - 1) % 3 + 1
    ensures DigitsIn(TextLength(w)) == w
  {
    if w > 0 {
      DigitsInIs((w - 1) / 3, (w - 1) % 3 + 1);
    }
  }

  lemma PlaceInRange(w: nat, p: nat)
    requires p < TextLength(w)
    ensures p % 4 != 3 ==> DigitsIn(p) < w
    ensures DigitsIn(p + 1) == if p % 4 == 3 then DigitsIn(p) else DigitsIn(p) + 1
  {
    TextLengthIs(w);
    var q, r := p / 4, p % 4;
    DigitsInIs(q, r);
    if r == 3 {
      DigitsInIs(q + 1, 0);
    } else {
      DigitsInIs(q, r + 1);
    }
  }

  /** Where the next digit goes, after a comma if one is due. */
  lemma NextPlace(copied: nat)
    ensures var n := TextLength(copied);
      if copied > 0 && copied % 3 == 0 then n % 4 == 3 && (n + 1) % 4 != 3 && DigitsIn(n + 1) == copied
      else n % 4 != 3 && DigitsIn(n) == copied
  {
    TextLengthIs(copied);
    if copied > 0 {
      var q, r := (copied - 1) / 3, (copied - 1) % 3;
      assert copied == 3 * q + r + 1;
      if r == 2 {
        DigitsInIs(q + 1, 0);
      }
    }
  }

  /** The character `p` places from the right end. */
  function CharAt(ds: seq<Digit>, p: nat): char
    requires AllDigits(ds) && p < TextLength(|ds|)
  {
    PlaceInRange(|ds|, p);
    if p % 4 == 3 then ',' else CharOf(ds[DigitsIn(p)])
  }

  function Text(ds: seq<Digit>): (text: string)
    requires AllDigits(ds)
  {
    var n := TextLength(|ds|);
    seq(n, k requires 0 <= k < n => CharAt(ds, n - 1 - k))
  }

  // ---------------------------------------------------------------- the characters

  /** Which character stands for which digit. */
  lemma CharactersMean(i: nat)
    requires i < 10
    ensures var c := "0123456789"[i]; IsDigit(c) && DigitOf(c) as int == i && CharOf(i as Digit) == c
  {
  }

  /** Characters other than the ten digits and the comma are illegal. */
  lemma LegalCharacters(text: string)
    ensures Legal(text) <==> forall c | c in text :: c in "0123456789,"
  {
    if Legal(text) {
      forall c | c in text ensures c in "0123456789," {
        if c != ',' {
          CharactersMean(c as int - '0' as int);
          assert c == "0123456789,"[c as int - '0' as int];
        }
      }
    } else {
      var i :| 0 <= i < |text| && text[i] != ',' && !IsDigit(text[i]);
      assert text[i] in text;
    }
  }

  /** Commas stand before every group of three counted from the right, and nowhere else. */
  lemma CommasAt(ds: seq<Digit>, k: nat)
    requires AllDigits(ds) && k < TextLength(|ds|)
    ensures Text(ds)[k] == ',' <==> (TextLength(|ds|) - k) % 4 == 0
  {
    var p := TextLength(|ds|) - 1 - k;
    PlaceInRange(|ds|, p);
    assert Text(ds)[k] == CharAt(ds, p);
  }

  /** A number and its text, and a text that is not in that form. */
  lemma TextExample()
    ensures Text([7, 6, 5, 4, 3, 2, 1]) == "1,234,567"
    ensures Legal("0,,90") && TextValue("0,,90") == 90
  {
    var ds: seq<Digit> := [7, 6, 5, 4, 3, 2, 1];
    assert DigitsIn(8) == 6 && DigitsIn(6) == 5 && DigitsIn(5) == 4 && DigitsIn(4) == 3;
    assert CharAt(ds, 0) == '7' && CharAt(ds, 1) == '6' && CharAt(ds, 2) == '5' && CharAt(ds, 3) == ',';
    assert CharAt(ds, 4) == '4' && CharAt(ds, 5) == '3' && CharAt(ds, 6) == '2' && CharAt(ds, 7) == ',';
    assert CharAt(ds, 8) == '1';
    assert ["0,,90"[0]] == "0" && "0,,90"[..4] == "0,,9" && "0,,9"[..3] == "0,," && "0,,"[..2] == "0,"
        && "0,"[..1] == "0" && "0"[..0] == "";
    assert TextValue("0") == 0;
    assert TextValue("0,") == 0;
    assert TextValue("0,,") == 0;
    assert TextValue("0,,9") == 9;
  }

  // ---------------------------------------------------------------- parsing

  /** What a text contributes, read from the right, when `n` digits stand to its right. */
  ghost function Contribution(text: string, n: nat): int
    requires Legal(text)
  {
    if text == [] then 0
    else
      var init, last := text[..|text| - 1], text[|text| - 1];
      if last == ',' then Contribution(init, n)
      else Contribution(init, n + 1) + DigitOf(last) as int * Pow10(n)
  }

  lemma {:induction false} ContributionIs(text: string, n: nat)
    requires Legal(text)
    ensures Contribution(text, n) == TextValue(text) * Pow10(n)
  {
    if text != [] {
      var init, last := text[..|text| - 1], text[|text| - 1];
      if last == ',' {
        ContributionIs(init, n);
      } else {
        ContributionIs(init, n + 1);
        HornerStep(TextValue(init), DigitOf(last) as int, Pow10(n));
      }
    }
  }

  lemma TakeLast(init: string, last: char, n: nat)
    requires Legal(init) && (last == ',' || IsDigit(last))
    ensures Legal(init + [last])
    ensures Contribution(init + [last], n) ==
      if last == ',' then Contribution(init, n) else Contribution(init, n + 1) + DigitOf(last) as int * Pow10(n)
  {
    assert (init + [last])[..|init|] == init;
  }

  /** From the right: digits are pushed, commas skipped, and anything else throws. */
  method Parse(val: string) returns (d: Option<Decimal>)
    ensures d.Some? <==> Legal(val)
    ensures d.Some? ==> fresh(d.value) && d.value.Valid() && d.value.Value() == TextValue(val)
  {
    var number := new Decimal();
    number.digits := [];
    var k := |val|;
    assert val[..k] == val;
    while k > 0
      invariant 0 <= k <= |val|
      invariant forall i :: k <= i < |val| ==> val[i] == ',' || IsDigit(val[i])
      invariant forall i :: 0 <= i < |number.digits| ==> 0 <= number.digits[i] <= 9
      invariant Legal(val) ==>
        Val(number.digits) + Contribution(val[..k], |number.digits|) == Contribution(val, 0)
    {
      k := k - 1;
      var c := val[k];
      assert val[..k + 1] == val[..k] + [c];
      if Legal(val) {
        TakeLast(val[..k], c, |number.digits|);
      }
      if c == ',' {
        continue;
      }
      if '0' <= c <= '9' {
        PushDigit(number.digits, DigitOf(c));
        number.digits := number.digits + [DigitOf(c)];
      } else {
        return None;
      }
    }
    number.RemoveLeadingZeros();
    ContributionIs(val, 0);
    d := Some(number);
  }

  // ---------------------------------------------------------------- printing

  /** The digits are pushed lowest first, with their commas, and the text is then reversed. */
  method Print(d: Decimal) returns (t: string)
    requires d.Valid()
    ensures t == Text(d.digits) && |t| == |d.digits| + (|d.digits| - 1) / 3
  {
    var ds := d.digits;
    var s := "";
    var copied := 0;
    while copied < |ds|
      invariant 0 <= copied <= |ds| && |s| == TextLength(copied)
      invariant forall p :: 0 <= p < |s| ==> s[p] == CharAt(ds, p)
    {
      NextPlace(copied);
      if copied > 0 && copied % 3 == 0 {
        s := s + [','];
      }
      s := s + [CharOf(ds[copied])];
      copied := copied + 1;
    }
    t := "";
    var i := |s|;
    while i > 0
      invariant 0 <= i <= |s| && |t| == |s| - i
      invariant forall k :: 0 <= k < |t| ==> t[k] == s[|s| - 1 - k]
    {
      i := i - 1;
      t := t + [s[i]];
    }
  }

  // ---------------------------------------------------------------- round trips

  lemma LegalText(ds: seq<Digit>)
    requires AllDigits(ds)
    ensures Legal(Text(ds))
  {
    forall k | 0 <= k < |Text(ds)|
      ensures Text(ds)[k] == ',' || IsDigit(Text(ds)[k])
    {
      var p := TextLength(|ds|) - 1 - k;
      assert Text(ds)[k] == CharAt(ds, p);
    }
  }

  /** All but the last `p` characters. */
  ghost function Left(ds: seq<Digit>, p: nat): (text: string)
    requires AllDigits(ds) && p <= TextLength(|ds|)
    ensures Legal(text)
  {
    LegalText(ds);
    Text(ds)[..TextLength(|ds|) - p]
  }

  lemma LeftSnoc(ds: seq<Digit>, p: nat)
    requires AllDigits(ds) && p < TextLength(|ds|)
    ensures Left(ds, p) == Left(ds, p + 1) + [CharAt(ds, p)]
  {
    var n := TextLength(|ds|);
    assert Text(ds)[..n - p] == Text(ds)[..n - p - 1] + [Text(ds)[n - p - 1]];
  }

  /** What stands left of the last `p` characters is what the digits among those leave out. */
  lemma {:induction false} LeftValue(ds: seq<Digit>, p: nat)
    requires AllDigits(ds) && p <= TextLength(|ds|)
    ensures Contribution(Left(ds, p), DigitsIn(p)) + Low(ds, DigitsIn(p)) == Val(ds)
    decreases TextLength(|ds|) - p
  {
    if p < TextLength(|ds|) {
      LeftValue(ds, p + 1);
      LeftSnoc(ds, p);
      PlaceInRange(|ds|, p);
      TakeLast(Left(ds, p + 1), CharAt(ds, p), DigitsIn(p));
    } else {
      TextLengthIs(|ds|);
      assert Left(ds, p) == [];
    }
  }

  /** The printed text stands for the number printed. */
  lemma TextRoundTrip(ds: seq<Digit>)
    requires Canonical(ds)
    ensures Legal(Text(ds)) && TextValue(Text(ds)) == Val(ds)
    ensures Numeral(TextValue(Text(ds))) == ds
  {
    LeftValue(ds, 0);
    assert Left(ds, 0) == Text(ds);
    ContributionIs(Text(ds), 0);
    CanonicalIsNumeral(ds);
  }

  /** The text that was parsed is printed back in one canonical form, which parses and prints to itself. */
  lemma PrintingNormalises(text: string)
    requires Legal(text)
    ensures Canonical(Numeral(TextValue(text)))
    ensures var normal := Text(Numeral(TextValue(text)));
      && Legal(normal) && TextValue(normal) == TextValue(text)
      && Text(Numeral(TextValue(normal))) == normal
  {
    NumeralCanonical(TextValue(text));
    TextRoundTrip(Numeral(TextValue(text)));
  }

  /** Texts print alike exactly when they stand for the same number. */
  lemma SameTextSameValue(x: seq<Digit>, y: seq<Digit>)
    requires Canonical(x) && Canonical(y)
    ensures Text(x) == Text(y) <==> Val(x) == Val(y)
  {
    TextRoundTrip(x);
    TextRoundTrip(y);
    SameDigitsSameValue(x, y);
  }
}
