/** Decimal text of natural numbers: `str(n)`, `f"{n:02d}"`, `f"{n:,}"`, and reading a digit run. */
module Decimal {
  import opened Text

  function DigitChar(d: nat): (c: char)
    requires d < 10
    ensures IsDigit(c)
  {
    ('0' as int + d) as char
  }

  function DigitValue(c: char): (d: nat)
    requires IsDigit(c)
    ensures d < 10
  {
    c as int - '0' as int
  }

  predicate AllDigits(s: string) {
    forall c <- s :: IsDigit(c)
  }

  /** `str(n)`: no leading zeros. */
  function NatStr(n: nat): (r: string)
    ensures |r| >= 1 && AllDigits(r)
    ensures |r| == 1 <==> n < 10
    decreases n
  {
    if n < 10 then [DigitChar(n)] else NatStr(n / 10) + [DigitChar(n % 10)]
  }

  /** The value of a run of digits, as `int()` reads it (leading zeros allowed). */
  function DigitsValue(ds: string): nat
    requires AllDigits(ds)
  {
    if ds == [] then 0 else 10 * DigitsValue(ds[..|ds| - 1]) + DigitValue(ds[|ds| - 1])
  }

  /** Reading back the decimal text of `n` gives `n`. */
  lemma {:induction false} ValueOfNatStr(n: nat)
    ensures DigitsValue(NatStr(n)) == n
    decreases n
  {
    if n >= 10 {
      ValueOfNatStr(n / 10);
      var s := NatStr(n);
      assert s[..|s| - 1] == NatStr(n / 10);
    }
  }

  /** The length of the run of digits that `s` begins with (what `\d+` consumes). */
  function DigitSpan(s: string): (n: nat)
    ensures n <= |s| && AllDigits(s[..n])
    ensures n == |s| || !IsDigit(s[n])
  {
    if s == [] || !IsDigit(s[0]) then 0
    else
      var k := DigitSpan(s[1..]);
      assert s[..k + 1] == [s[0]] + s[1..][..k];
      1 + k
  }

  /** The digit run at the front of `digits + rest` is `digits` when `rest` does not begin
      with a digit. */
  lemma {:induction false} DigitSpanOf(digits: string, rest: string)
    requires AllDigits(digits)
    requires rest == [] || !IsDigit(rest[0])
    ensures DigitSpan(digits + rest) == |digits|
    decreases |digits|
  {
    if digits != [] {
      assert (digits + rest)[1..] == digits[1..] + rest;
      DigitSpanOf(digits[1..], rest);
    } else {
      assert digits + rest == rest;
    }
  }

  /** `f"{n:02d}"`. */
  function Pad2(n: nat): (r: string)
    ensures AllDigits(r)
    ensures n < 100 ==> |r| == 2
  {
    if n < 10 then "0" + NatStr(n) else NatStr(n)
  }

  lemma {:induction false} ValueOfPad2(n: nat)
    ensures DigitsValue(Pad2(n)) == n
  {
    ValueOfNatStr(n);
    if n < 10 {
      var s := Pad2(n);
      assert s[..|s| - 1] == "0";
      assert DigitsValue("0") == 10 * DigitsValue("") + 0;
    }
  }

  /** `f"{n:03d}"`, for the groups after the first. */
  function Pad3(n: nat): string
  {
    if n < 10 then "00" + NatStr(n) else if n < 100 then "0" + NatStr(n) else NatStr(n)
  }

  /** `f"{n:,}"`: groups of three digits separated by commas. */
  function Grouped(n: nat): (r: string)
    ensures |r| >= 1
    ensures forall c <- r :: IsDigit(c) || c == ','
    decreases n
  {
    if n < 1000 then NatStr(n) else Grouped(n / 1000) + "," + Pad3(n % 1000)
  }

  /** `s.replace(',', '')`. */
  function DropCommas(s: string): (r: string)
    ensures ',' !in r
    ensures (forall c <- s :: IsDigit(c) || c == ',') ==> AllDigits(r)
  {
    if s == [] then []
    else DropCommas(s[..|s| - 1]) + (if s[|s| - 1] == ',' then [] else [s[|s| - 1]])
  }

  /** Removing the commas of two texts one after the other. */
  lemma {:induction false} DropCommasConcat(a: string, b: string)
    ensures DropCommas(a + b) == DropCommas(a) + DropCommas(b)
    decreases |b|
  {
    if b == [] {
      assert a + b == a;
    } else {
      var front := b[..|b| - 1];
      DropCommasConcat(a, front);
      assert (a + b)[..|a + b| - 1] == a + front;
    }
  }

  /** Text without commas is left as it is. */
  lemma {:induction false} DropCommasNone(s: string)
    requires ',' !in s
    ensures DropCommas(s) == s
    decreases |s|
  {
    if s != [] {
      DropCommasNone(s[..|s| - 1]);
    }
  }

  function Pow10(k: nat): (p: nat)
    ensures p >= 1
  {
    if k == 0 then 1 else 10 * Pow10(k - 1)
  }

  /** Digits after digits: the front counts as many tens as the back has digits. */
  lemma {:induction false} DigitsValueConcat(a: string, b: string)
    requires AllDigits(a) && AllDigits(b)
    ensures AllDigits(a + b)
    ensures DigitsValue(a + b) == DigitsValue(a) * Pow10(|b|) + DigitsValue(b)
    decreases |b|
  {
    if b == [] {
      assert a + b == a;
    } else {
      var front := b[..|b| - 1];
      var last := b[|b| - 1];
      assert AllDigits(front);
      DigitsValueConcat(a, front);
      var ab := a + b;
      assert ab[..|ab| - 1] == a + front;
      assert ab[|ab| - 1] == last;
      assert DigitsValue(ab) == 10 * DigitsValue(a + front) + DigitValue(last);
      assert DigitsValue(b) == 10 * DigitsValue(front) + DigitValue(last);
      ShiftDigit(DigitsValue(a), Pow10(|front|), DigitsValue(front));
    }
  }

  /** One more digit at the back multiplies the front's weight by ten. */
  lemma ShiftDigit(x: nat, p: nat, y: nat)
    ensures 10 * (x * p + y) == x * (10 * p) + 10 * y
  {
  }

  /** `f"{n:03d}"` of a group is three digits worth `n`. */
  lemma ValueOfPad3(n: nat)
    requires n < 1000
    ensures AllDigits(Pad3(n)) && |Pad3(n)| == 3
    ensures DigitsValue(Pad3(n)) == n
  {
    ValueOfNatStr(n);
    if n < 10 {
      DigitsValueConcat("00", NatStr(n));
      assert DigitsValue("00") == 10 * DigitsValue("0") + 0;
      assert DigitsValue("0") == 10 * DigitsValue("") + 0;
    } else if n < 100 {
      assert NatStr(n) == NatStr(n / 10) + [DigitChar(n % 10)];
      DigitsValueConcat("0", NatStr(n));
      assert DigitsValue("0") == 10 * DigitsValue("") + 0;
    } else {
      assert NatStr(n) == NatStr(n / 10) + [DigitChar(n % 10)];
      assert NatStr(n / 10) == NatStr(n / 100) + [DigitChar((n / 10) % 10)];
    }
  }

  /** Without its commas, `f"{n:,}"` is the digits of the leading groups and then the last
      group. */
  lemma GroupedDigits(n: nat)
    requires n >= 1000
    ensures DropCommas(Grouped(n)) == DropCommas(Grouped(n / 1000)) + Pad3(n % 1000)
  {
    var front := Grouped(n / 1000);
    var last := Pad3(n % 1000);
    assert ',' !in last by {
      ValueOfPad3(n % 1000);
    }
    DropCommasConcat(front + ",", last);
    DropCommasConcat(front, ",");
    DropCommasNone(last);
    assert DropCommas(",") == [];
    assert DropCommas(front) + [] == DropCommas(front);
  }

  /** Reading `f"{n:,}"` back with its commas removed gives `n`. */
  lemma {:induction false} ValueOfGrouped(n: nat)
    ensures DropCommas(Grouped(n)) != [] && AllDigits(DropCommas(Grouped(n)))
    ensures DigitsValue(DropCommas(Grouped(n))) == n
    decreases n
  {
    if n < 1000 {
      DropCommasNone(NatStr(n));
      ValueOfNatStr(n);
    } else {
      ValueOfGrouped(n / 1000);
      ValueOfPad3(n % 1000);
      var digits := DropCommas(Grouped(n / 1000));
      GroupedDigits(n);
      assert Pow10(3) == 1000;
      DigitsValueConcat(digits, Pad3(n % 1000));
      var q := DigitsValue(digits);
      assert q == n / 1000;
      assert DigitsValue(digits + Pad3(n % 1000)) == q * 1000 + n % 1000;
    }
  }
}
