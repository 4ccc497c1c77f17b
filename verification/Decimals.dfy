/** Decimal numbers, and the rounding to so many significant digits that a numeric column applies to a float. */
module Decimals {
  function Min(a: real, b: real): real {
    if b < a then b else a
  }

  function Max(a: real, b: real): real {
    if b > a then b else a
  }

  function Abs(x: real): real {
    if x < 0.0 then -x else x
  }

  /** The number with its point moved so many places. */
  function Shifted(x: real, places: nat): (s: real)
    ensures x > 0.0 ==> s >= x
  {
    if places == 0 then x else 10.0 * Shifted(x, places - 1)
  }

  predicate FitsDecimalPlaces(value: real, places: nat) {
    Shifted(value, places) == Shifted(value, places).Floor as real
  }

  /** A finite decimal: some number of places after the point suffices. */
  ghost predicate IsDecimal(x: real) {
    exists places: nat :: FitsDecimalPlaces(x, places)
  }

  type Decimal = x: real | IsDecimal(x) witness (assert FitsDecimalPlaces(0.0, 0); 0.0)

  // ---------------------------------------------------------------- products

  lemma MulLess(a: real, b: real, c: real)
    requires a < b && c > 0.0
    ensures a * c < b * c
  {
    assert (b - a) * c > 0.0;
  }

  // ---------------------------------------------------------------- powers of ten

  function PowerOfTen(k: int): (p: real)
    ensures p > 0.0
    ensures k >= 0 ==> p >= 1.0
    decreases if k < 0 then -k else k
  {
    if k == 0 then 1.0
    else if k > 0 then 10.0 * PowerOfTen(k - 1)
    else PowerOfTen(k + 1) / 10.0
  }

  lemma PowerNext(k: int)
    ensures PowerOfTen(k + 1) == 10.0 * PowerOfTen(k)
  {
  }

  lemma {:induction false} PowerShifted(k: int, n: nat)
    ensures PowerOfTen(k + n) == Shifted(PowerOfTen(k), n)
    decreases n
  {
    if n > 0 {
      PowerShifted(k, n - 1);
      PowerNext(k + n - 1);
    }
  }

  lemma {:induction false} ShiftedIsProduct(x: real, n: nat)
    ensures Shifted(x, n) == x * PowerOfTen(n)
  {
    if n > 0 {
      ShiftedIsProduct(x, n - 1);
      ProductNext(x, PowerOfTen(n - 1), PowerOfTen(n));
    }
  }

  lemma ProductNext(a: real, b: real, tenB: real)
    requires tenB == 10.0 * b
    ensures 10.0 * (a * b) == a * tenB
  {
  }

  lemma PowersApart(k: int, j: int)
    requires PowerOfTen(k) < PowerOfTen(j)
    ensures k < j
  {
    if j <= k {
      PowerShifted(j, k - j);
    }
  }

  // ---------------------------------------------------------------- the leading digit

  function StepsUp(x: real): (e: int)
    requires x >= 1.0
    ensures PowerOfTen(e) <= x < PowerOfTen(e + 1)
    decreases x.Floor
  {
    if x < 10.0 then
      PowerNext(0);
      0
    else
      var e := StepsUp(x / 10.0);
      PowerNext(e);
      PowerNext(e + 1);
      e + 1
  }

  function StepsDown(x: real): (e: int)
    requires 0.0 < x < 1.0
    ensures PowerOfTen(e) <= x < PowerOfTen(e + 1)
    decreases (1.0 / x).Floor
  {
    PowerNext(-1);
    if 10.0 * x >= 1.0 then -1
    else
      ReciprocalShrinks(x);
      var e := StepsDown(10.0 * x);
      PowerNext(e - 1);
      PowerNext(e);
      e - 1
  }

  lemma ReciprocalShrinks(x: real)
    requires 0.0 < x && 10.0 * x < 1.0
    ensures (1.0 / (10.0 * x)).Floor < (1.0 / x).Floor
  {
    var y := 1.0 / x;
    assert y * x == 1.0;
    assert y > 10.0;
    assert 1.0 / (10.0 * x) == y / 10.0;
  }

  /** The place of the leading digit: 10^e <= x < 10^(e+1). */
  function Magnitude(x: real): (e: int)
    requires x > 0.0
    ensures PowerOfTen(e) <= x < PowerOfTen(e + 1)
  {
    if x >= 1.0 then StepsUp(x) else StepsDown(x)
  }

  // ---------------------------------------------------------------- rounding to a unit

  function HalfEven(y: real): int {
    var rest := y - y.Floor as real;
    if rest < 0.5 || (rest == 0.5 && y.Floor % 2 == 0) then y.Floor else y.Floor + 1
  }

  lemma HalfEvenNear(y: real)
    ensures y - 0.5 <= HalfEven(y) as real <= y + 0.5
  {
  }

  function RoundedTo(x: real, unit: real): real
    requires unit > 0.0
  {
    HalfEven(x / unit) as real * unit
  }

  predicate IsTimes(x: real, n: int, unit: real) {
    x == n as real * unit
  }

  lemma DivideBack(a: real, b: real)
    requires b > 0.0
    ensures a * b / b == a && a / b * b == a
  {
  }

  lemma RoundedToKeeps(x: real, unit: real)
    requires unit > 0.0
    ensures RoundedTo(x, unit) == x <==> exists n :: IsTimes(x, n, unit)
  {
    DivideBack(x, unit);
    if RoundedTo(x, unit) == x {
      assert IsTimes(x, HalfEven(x / unit), unit);
    }
    if n :| IsTimes(x, n, unit) {
      DivideBack(n as real, unit);
      assert x / unit == n as real;
      HalfEvenOfWhole(n);
    }
  }

  lemma HalfEvenOfWhole(n: int)
    ensures HalfEven(n as real) == n
  {
  }

  lemma HalfMore(y: real, u: real, x: real)
    requires x == y * u
    ensures x + 0.5 * u == (y + 0.5) * u && x - 0.5 * u == (y - 0.5) * u
  {
  }

  lemma MulNear(n: real, y: real, u: real, x: real, nu: real)
    requires u > 0.0 && y * u == x && n * u == nu && y - 0.5 <= n <= y + 0.5
    ensures x - 0.5 * u <= nu <= x + 0.5 * u
  {
    HalfMore(y, u, x);
    MulOrder(y + 0.5, n, u, x + 0.5 * u, nu);
    MulOrder(n, y - 0.5, u, nu, x - 0.5 * u);
  }

  lemma RoundedToClose(x: real, unit: real)
    requires unit > 0.0
    ensures x - 0.5 * unit <= RoundedTo(x, unit) <= x + 0.5 * unit
  {
    var y := x / unit;
    DivideBack(x, unit);
    HalfEvenNear(y);
    MulNear(HalfEven(y) as real, y, unit, x, RoundedTo(x, unit));
  }

  // ---------------------------------------------------------------- significant digits

  /** The weight of the last of the digits that are kept. */
  function Unit(x: real, digits: nat): (u: real)
    requires x > 0.0
    ensures u > 0.0
  {
    PowerOfTen(Magnitude(x) - digits + 1)
  }

  /** A positive number rounded to so many significant digits. */
  function Rounded(x: real, digits: nat): real
    requires x > 0.0
  {
    RoundedTo(x, Unit(x, digits))
  }

  ghost predicate IsScaled(x: real, digits: nat, m: nat, k: int) {
    m as real < PowerOfTen(digits) && IsTimes(x, m, PowerOfTen(k))
  }

  /** So many significant digits write the number exactly. */
  ghost predicate FitsDigits(x: real, digits: nat) {
    exists m: nat, k: int :: IsScaled(x, digits, m, k)
  }

  /** The unit of a number is no coarser than that of any of its exact writings. */
  lemma ScaledUnit(x: real, digits: nat, m: nat, k: int)
    requires x > 0.0 && IsScaled(x, digits, m, k)
    ensures k >= Magnitude(x) - digits + 1
  {
    ScaledBelow(x, digits, m, k);
    PowersApart(Magnitude(x), k + digits);
  }

  lemma ScaledBelow(x: real, digits: nat, m: nat, k: int)
    requires IsScaled(x, digits, m, k)
    ensures x < PowerOfTen(k + digits)
  {
    PowerShifted(k, digits);
    TimesRange(x, m, PowerOfTen(k), digits);
  }

  /** A positive multiple of the unit is below the shifted unit exactly if its factor is below the power. */
  lemma TimesRange(x: real, n: int, unit: real, digits: nat)
    requires unit > 0.0 && IsTimes(x, n, unit)
    ensures x > 0.0 <==> n > 0
    ensures x < Shifted(unit, digits) <==> n as real < PowerOfTen(digits)
  {
    ShiftedIsProduct(unit, digits);
    MulOrder(n as real, PowerOfTen(digits), unit, x, Shifted(unit, digits));
    MulOrder(0.0, n as real, unit, 0.0, x);
  }

  lemma MulOrder(a: real, b: real, c: real, ac: real, bc: real)
    requires c > 0.0 && ac == a * c && bc == b * c
    ensures a < b <==> ac < bc
  {
    if a < b {
      MulLess(a, b, c);
    } else if b < a {
      MulLess(b, a, c);
    }
  }

  lemma FitsIffTimes(x: real, digits: nat)
    requires x > 0.0
    ensures FitsDigits(x, digits) <==> exists n :: IsTimes(x, n, Unit(x, digits))
  {
    if m: nat, k: int :| IsScaled(x, digits, m, k) {
      ScaledUnit(x, digits, m, k);
      var n := ScaledTimes(x, m, k, Magnitude(x) - digits + 1);
    }
    if n :| IsTimes(x, n, Unit(x, digits)) {
      TimesScaled(x, digits, n, Magnitude(x) - digits + 1);
    }
  }

  lemma ScaledTimes(x: real, m: nat, k: int, u: int) returns (n: int)
    requires IsTimes(x, m, PowerOfTen(k)) && u <= k
    ensures IsTimes(x, n, PowerOfTen(u))
  {
    PowerShifted(u, k - u);
    n := ShiftedTimes(x, m, PowerOfTen(u), k - u);
  }

  lemma {:induction false} ShiftedTimes(x: real, m: int, unit: real, places: nat) returns (n: int)
    requires IsTimes(x, m, Shifted(unit, places))
    ensures IsTimes(x, n, unit)
    decreases places
  {
    n := m;
    if places > 0 {
      FactorTen(m, Shifted(unit, places - 1));
      n := ShiftedTimes(x, 10 * m, unit, places - 1);
    }
  }

  lemma FactorTen(m: int, u: real)
    ensures m as real * (10.0 * u) == (10 * m) as real * u
  {
  }

  lemma TimesScaled(x: real, digits: nat, n: int, u: int)
    requires IsTimes(x, n, PowerOfTen(u)) && 0.0 < x < PowerOfTen(u + digits)
    ensures n > 0 && IsScaled(x, digits, n, u)
  {
    PowerShifted(u, digits);
    TimesRange(x, n, PowerOfTen(u), digits);
  }

  /** Rounding keeps a number exactly if and only if so many digits write it. */
  lemma KeptIffFits(x: real, digits: nat)
    requires x > 0.0
    ensures Rounded(x, digits) == x <==> FitsDigits(x, digits)
  {
    RoundedToKeeps(x, Unit(x, digits));
    FitsIffTimes(x, digits);
  }

  /** Rounding moves a number by at most half a unit of its last kept digit. */
  lemma RoundedClose(x: real, digits: nat)
    requires x > 0.0
    ensures x - 0.5 * Unit(x, digits) <= Rounded(x, digits) <= x + 0.5 * Unit(x, digits)
  {
    RoundedToClose(x, Unit(x, digits));
  }

  lemma RoundedIsPositive(x: real, digits: nat)
    requires x > 0.0 && digits > 0
    ensures Rounded(x, digits) > 0.0
  {
    RoundedClose(x, digits);
    PowerShifted(Magnitude(x) - digits + 1, digits - 1);
  }

  // ---------------------------------------------------------------- rounding keeps the order to short numbers

  lemma QuotientOrder(x: real, n: int, unit: real)
    requires unit > 0.0
    ensures x <= n as real * unit <==> x / unit <= n as real
    ensures n as real * unit <= x <==> n as real <= x / unit
  {
    DivideBack(x, unit);
    MulOrder(n as real, x / unit, unit, n as real * unit, x);
    MulOrder(x / unit, n as real, unit, x, n as real * unit);
  }

  lemma HalfEvenOrder(y: real, n: int)
    ensures y <= n as real ==> HalfEven(y) <= n
    ensures n as real <= y ==> n <= HalfEven(y)
  {
  }

  lemma RoundedToOrder(x: real, unit: real, z: real, n: int)
    requires unit > 0.0 && IsTimes(z, n, unit)
    ensures x <= z ==> RoundedTo(x, unit) <= z
    ensures z <= x ==> z <= RoundedTo(x, unit)
  {
    QuotientOrder(x, n, unit);
    HalfEvenOrder(x / unit, n);
    var m := HalfEven(x / unit);
    MulOrder(n as real, m as real, unit, z, RoundedTo(x, unit));
    MulOrder(m as real, n as real, unit, RoundedTo(x, unit), z);
  }

  /** A short number no smaller in magnitude is a multiple of the other's unit. */
  lemma ShortIsTimes(x: real, y: real, digits: nat) returns (n: int)
    requires x > 0.0 && y > 0.0 && FitsDigits(y, digits) && Magnitude(x) <= Magnitude(y)
    ensures IsTimes(y, n, Unit(x, digits))
  {
    var m: nat, k: int :| IsScaled(y, digits, m, k);
    ScaledUnit(y, digits, m, k);
    n := ScaledTimes(y, m, k, Magnitude(x) - digits + 1);
  }

  lemma RoundedAtMost(x: real, y: real, digits: nat)
    requires 0.0 < x <= y && FitsDigits(y, digits)
    ensures Rounded(x, digits) <= y
  {
    PowersApart(Magnitude(x), Magnitude(y) + 1);
    var n := ShortIsTimes(x, y, digits);
    RoundedToOrder(x, Unit(x, digits), y, n);
  }

  lemma RoundedAtLeast(x: real, y: real, digits: nat)
    requires 0.0 < y <= x && FitsDigits(y, digits) && digits > 0
    ensures Rounded(x, digits) >= y
  {
    var e := Magnitude(x);
    PowersApart(Magnitude(y), e + 1);
    if Magnitude(y) == e {
      var n := ShortIsTimes(x, y, digits);
      RoundedToOrder(x, Unit(x, digits), y, n);
    } else {
      PowerShifted(Magnitude(y) + 1, e - Magnitude(y) - 1);
      var n := ScaledTimes(PowerOfTen(e), 1, e, e - digits + 1);
      RoundedToOrder(x, Unit(x, digits), PowerOfTen(e), n);
    }
  }
}
