/** Plain text forms of identifiers, decimals and instants: text forms that read back do exist. */
module DemoTexts {
  import opened Outcomes
  import opened Decimals
  import opened DemoCodec

  // ---------------------------------------------------------------- whole numbers

  function Digit(d: nat): (c: char)
    requires d < 10
    ensures IsDigit(c) && DigitValue(c) == d
  {
    '0' + d as char
  }

  predicate IsDigit(c: char) {
    '0' <= c <= '9'
  }

  function DigitValue(c: char): nat
    requires IsDigit(c)
  {
    (c - '0') as nat
  }

  predicate AllDigits(s: string) {
    forall i :: 0 <= i < |s| ==> IsDigit(s[i])
  }

  function OfNat(n: nat): (s: string)
    ensures s != "" && AllDigits(s)
  {
    if n < 10 then [Digit(n)] else OfNat(n / 10) + [Digit(n % 10)]
  }

  function ToNat(s: string): nat
    requires AllDigits(s)
  {
    if s == "" then 0 else 10 * ToNat(s[..|s| - 1]) + DigitValue(s[|s| - 1])
  }

  lemma {:induction false} NatBack(n: nat)
    ensures ToNat(OfNat(n)) == n
  {
    var s := OfNat(n);
    if n < 10 {
      assert s[..0] == "";
    } else {
      NatBack(n / 10);
      assert s[..|s| - 1] == OfNat(n / 10);
    }
  }

  function OfInt(x: int): (s: string)
    ensures s != "" && 'E' !in s
  {
    if x < 0 then "-" + OfNat(-x) else OfNat(x)
  }

  function ToInt(s: string): Option<int> {
    if s != "" && AllDigits(s) then Some(ToNat(s))
    else if s != "" && s[0] == '-' && AllDigits(s[1..]) then Some(0 - ToNat(s[1..]))
    else None
  }

  lemma IntBack(x: int)
    ensures ToInt(OfInt(x)) == Some(x)
  {
    if x < 0 {
      NatBack(-x);
      assert OfInt(x)[0] == '-' && OfInt(x)[1..] == OfNat(-x);
    } else {
      NatBack(x);
    }
  }

  // ---------------------------------------------------------------- decimals

  ghost function Places(x: Decimal): (n: nat)
    ensures FitsDecimalPlaces(x, n)
  {
    assert IsDecimal(x);
    var n: nat :| FitsDecimalPlaces(x, n);
    n
  }

  /** A decimal in exponent notation: its digits, then how many of them stand after the point. */
  ghost function OfDecimal(x: Decimal): (s: string)
    ensures s != ""
  {
    OfInt(Shifted(x, Places(x)).Floor) + "E-" + OfNat(Places(x))
  }

  function ExponentAt(s: string): (i: nat)
    ensures i <= |s|
  {
    if s == "" || s[0] == 'E' then 0 else 1 + ExponentAt(s[1..])
  }

  /** The number whose point stands so many places further left. */
  function Unshifted(y: real, places: nat): real
    decreases places
  {
    if places == 0 then y else Unshifted(y / 10.0, places - 1)
  }

  lemma {:induction false} UnshiftedBack(x: real, n: nat)
    ensures Unshifted(Shifted(x, n), n) == x
  {
    if n > 0 {
      assert Shifted(x, n) / 10.0 == Shifted(x, n - 1);
      UnshiftedBack(x, n - 1);
    }
  }

  lemma {:induction false} ShiftedBack(y: real, n: nat)
    ensures Shifted(Unshifted(y, n), n) == y
    decreases n
  {
    if n > 0 {
      ShiftedBack(y / 10.0, n - 1);
    }
  }

  lemma UnshiftedIsDecimal(m: int, n: nat)
    ensures IsDecimal(Unshifted(m as real, n))
  {
    ShiftedBack(m as real, n);
    assert FitsDecimalPlaces(Unshifted(m as real, n), n);
  }

  function Scaled(m: int, n: nat): Decimal {
    UnshiftedIsDecimal(m, n);
    Unshifted(m as real, n)
  }

  function ToDecimal(s: string): Option<Decimal> {
    var e := ExponentAt(s);
    var m := ToInt(s[..e]);
    if m.None? || e + 2 > |s| || s[e + 1] != '-' || !AllDigits(s[e + 2..]) then None
    else Some(Scaled(m.value, ToNat(s[e + 2..])))
  }

  lemma {:induction false} ExponentFound(before: string, after: string)
    requires 'E' !in before && after != "" && after[0] == 'E'
    ensures ExponentAt(before + after) == |before|
  {
    if before == "" {
      assert before + after == after;
    } else {
      ExponentFound(before[1..], after);
      assert (before + after)[1..] == before[1..] + after;
    }
  }

  lemma ScaledTextBack(m: int, n: nat)
    ensures ToDecimal(OfInt(m) + "E-" + OfNat(n)) == Some(Scaled(m, n))
  {
    var head, tail := OfInt(m), "E-" + OfNat(n);
    var s := OfInt(m) + "E-" + OfNat(n);
    assert s == head + tail;
    ExponentFound(head, tail);
    assert s[..|head|] == head && s[|head| + 2..] == OfNat(n);
    IntBack(m);
    NatBack(n);
  }

  lemma DecimalTextBack(x: Decimal)
    ensures ToDecimal(OfDecimal(x)) == Some(x)
  {
    var n := Places(x);
    ScaledTextBack(Shifted(x, n).Floor, n);
    UnshiftedBack(x, n);
  }

  /** There are text forms under which every identifier, decimal and instant reads back. */
  lemma FaithfulTexts() returns (t: Texts)
    ensures Faithful(t)
  {
    t := Texts(OfInt, ToInt, (x: Decimal) => OfDecimal(x), ToDecimal, OfInt, ToInt);
    forall x: int
      ensures ToInt(OfInt(x)) == Some(x)
    {
      IntBack(x);
    }
    forall x: Decimal
      ensures ToDecimal(OfDecimal(x)) == Some(x)
    {
      DecimalTextBack(x);
    }
  }
}
