/** Python `decimal` arithmetic in its default context: every result is rounded to 28 significant
    digits, half to even. Values are naturals in units of 10^-32. */
module Decimals {
  import opened Fx

  const DIGITS28: nat := 1_0000_0000_0000_0000_0000_0000_0000
  const UNIT: nat := 1_0000_0000_0000_0000_0000_0000_0000_0000
  const CENT: nat := 100_0000_0000_0000_0000_0000_0000_0000
  const MILLI: nat := 10_0000_0000_0000_0000_0000_0000_0000
  const TINY: nat := 1000_0000_0000_0000_0000_0000_0000

  function HalfEven(n: nat, d: nat): nat
    requires d > 0
  {
    var q, r := n / d, n % d;
    if 2 * r < d || (2 * r == d && q % 2 == 0) then q else q + 1
  }

  /** The place of the last of 28 significant digits of n / d, starting from the place q. */
  function Quantum(n: nat, d: nat, q: nat): nat
    requires d > 0 && q > 0
    decreases n - q
  {
    if n < q * DIGITS28 * d then q
    else
      QuantumGrows(n, d, q);
      Quantum(n, d, 10 * q)
  }

  lemma QuantumGrows(n: nat, d: nat, q: nat)
    requires d > 0 && q > 0 && n >= q * DIGITS28 * d
    ensures n >= q
  {
    assert DIGITS28 * d >= 1;
    assert q * (DIGITS28 * d) >= q;
    assert q * DIGITS28 * d == q * (DIGITS28 * d);
  }

  /** n / d as the context rounds it. */
  function Round28(n: nat, d: nat): nat
    requires d > 0
  {
    var q := Quantum(n, d, 1);
    if q > 0 then HalfEven(n, d * q) * q else 0
  }

  function Add(a: nat, b: nat): nat { Round28(a + b, 1) }
  function Mul(a: nat, b: nat): nat { Round28(a * b, UNIT) }
  function Div(a: nat, n: nat): nat requires n > 0 { Round28(a, n) }

  /** `quantize(Decimal("0.001"), ROUND_HALF_UP)`, in thousandths. */
  function Thousandths(a: nat): nat { HalfUp(a, MILLI) }

  lemma QuantumSmall(n: nat, d: nat)
    requires d > 0 && n < 100_000 * DIGITS28 * d
    ensures Quantum(n, d, 1) in {1, 10, 100, 1000, 10_000, 100_000}
  {
    assert Quantum(n, d, 100_000) == 100_000;
    assert Quantum(n, d, 10_000) in {10_000, 100_000};
    assert Quantum(n, d, 1000) in {1000, 10_000, 100_000};
    assert Quantum(n, d, 100) in {100, 1000, 10_000, 100_000};
    assert Quantum(n, d, 10) in {10, 100, 1000, 10_000, 100_000};
  }

  lemma HalfEvenNear(n: nat, d: nat)
    requires d > 0
    ensures -(d as int) <= 2 * (HalfEven(n, d) * d - n) <= d
  {
    var q, r := n / d, n % d;
    assert n == q * d + r;
    assert (q + 1) * d == q * d + d;
  }

  /** Below ten, one rounding moves a value by at most half a unit of the 28th digit. */
  lemma RoundNear(n: nat, d: nat)
    requires d > 0 && n < 100_000 * DIGITS28 * d
    ensures -100_000 * d <= 2 * (Round28(n, d) * d - n) <= 100_000 * d
  {
    QuantumSmall(n, d);
    RoundAtPlace(n, d, Quantum(n, d, 1));
  }

  lemma RoundAtPlace(n: nat, d: nat, q: nat)
    requires d > 0 && 0 < q <= 100_000
    ensures var v := HalfEven(n, d * q) * q; -100_000 * d <= 2 * (v * d - n) <= 100_000 * d
  {
    var h, step := HalfEven(n, d * q), d * q;
    HalfEvenNear(n, step);
    Regroup(h, d, q);
    assert step <= d * 100_000;
  }

  lemma Regroup(h: nat, d: nat, q: nat)
    ensures h * (d * q) == h * q * d
  {
  }

  lemma PlaceDivides(v: nat, q: nat) returns (k: nat)
    requires v % 100_000 == 0 && q in {1, 10, 100, 1000, 10_000, 100_000}
    ensures v == k * q
  {
    var u := v / 100_000;
    k := if q == 1 then v else if q == 10 then 10_000 * u else if q == 100 then 1000 * u
         else if q == 1000 then 100 * u else if q == 10_000 then 10 * u else u;
  }

  lemma Scale(a: nat, b: nat, d: nat)
    requires a <= b
    ensures a * d <= b * d
  {
    assert 0 <= (b - a) * d == b * d - a * d;
  }

  /** A value with few enough digits is kept as it is. */
  lemma RoundExact(v: nat, d: nat)
    requires d > 0 && v < 100_000 * DIGITS28 && v % 100_000 == 0
    ensures Round28(v * d, d) == v
  {
    Scale(v + 1, 100_000 * DIGITS28, d);
    assert (v + 1) * d == v * d + d;
    QuantumSmall(v * d, d);
    var q := Quantum(v * d, d, 1);
    var k := PlaceDivides(v, q);
    ExactAtPlace(v, d, q, k);
  }

  lemma ExactAtPlace(v: nat, d: nat, q: nat, k: nat)
    requires d > 0 && q > 0 && v == k * q
    ensures HalfEven(v * d, d * q) * q == v
  {
    Regroup(k, d, q);
    DivExact(k, d * q);
  }

  lemma DivExact(k: nat, m: nat)
    requires m > 0
    ensures HalfEven(k * m, m) == k
  {
    var n := k * m;
    assert n == (n / m) * m + n % m;
    assert (n / m - k) * m == -(n % m);
    SmallMultiple(n / m - k, m);
  }

  lemma SmallMultiple(x: int, m: nat)
    requires m > 0 && -(m as int) < x * m <= 0
    ensures x == 0
  {
    assert x >= 1 ==> x * m >= m;
    assert x <= -1 ==> x * m <= -(m as int);
  }

  lemma AddExact(a: nat, b: nat)
    requires a + b < 100_000 * DIGITS28 && (a + b) % 100_000 == 0
    ensures Add(a, b) == a + b
  {
    RoundExact(a + b, 1);
  }

  lemma MulExact(a: nat, b: nat, v: nat)
    requires a * b == v * UNIT && v < 100_000 * DIGITS28 && v % 100_000 == 0
    ensures Mul(a, b) == v
  {
    RoundExact(v, UNIT);
  }

  lemma AddNear(a: nat, b: nat)
    requires a + b < 100_000 * DIGITS28
    ensures -50_000 <= Add(a, b) - (a + b) <= 50_000
  {
    RoundNear(a + b, 1);
  }

  lemma {:induction false} QuantumIsTight(n: nat, d: nat, q: nat)
    requires d > 0 && q > 0 && n >= q * DIGITS28 * d
    ensures var r := Quantum(n, d, q); r % 10 == 0 && r >= 10 * q && n >= r / 10 * DIGITS28 * d
    decreases n - q
  {
    QuantumGrows(n, d, q);
    if n >= 10 * q * DIGITS28 * d {
      QuantumIsTight(n, d, 10 * q);
    }
  }

  lemma FloorAtLeast(n: nat, m: nat, k: nat)
    requires m > 0 && n >= k * m
    ensures HalfEven(n, m) >= k
  {
    assert n == (n / m) * m + n % m;
    assert (n / m + 1 - k) * m == (n / m) * m + m - k * m;
    PositiveFactor(n / m + 1 - k, m);
  }

  lemma PositiveFactor(x: int, m: nat)
    requires x * m > 0
    ensures x > 0
  {
    assert x <= 0 ==> x * m <= 0;
  }

  lemma AtLeastOneAtPlace(n: nat, d: nat, q: nat, k: nat)
    requires d > 0 && q > 0 && k * q == UNIT && n >= UNIT * d
    ensures HalfEven(n, d * q) * q >= UNIT
  {
    Regroup(k, d, q);
    FloorAtLeast(n, d * q, k);
    assert HalfEven(n, d * q) * q >= k * q;
  }

  lemma AtLeastOneAtLargePlace(n: nat, d: nat, p: nat)
    requires d > 0 && p >= 100_000 && n >= p * DIGITS28 * d
    ensures HalfEven(n, d * (10 * p)) * (10 * p) >= UNIT
  {
    var k, q := DIGITS28 / 10, 10 * p;
    Regroup(k, d, q);
    assert k * q == p * DIGITS28;
    Scale(k * q, p * DIGITS28, d);
    FloorAtLeast(n, d * q, k);
    Scale(k, HalfEven(n, d * q), q);
  }

  /** A quotient of at least one never rounds below one. */
  lemma RoundAtLeastOne(n: nat, d: nat)
    requires d > 0 && n >= UNIT * d
    ensures Round28(n, d) >= UNIT
  {
    var q := Quantum(n, d, 1);
    if n < 100_000 * DIGITS28 * d {
      QuantumSmall(n, d);
      AtLeastOneAtPlace(n, d, q,
                        if q == 1 then UNIT
                        else if q == 10 then UNIT / 10
                        else if q == 100 then UNIT / 100
                        else if q == 1000 then UNIT / 1000
                        else if q == 10_000 then UNIT / 10_000
                        else UNIT / 100_000);
    } else {
      QuantumLarge(n, d);
      QuantumIsTight(n, d, 100_000);
      AtLeastOneAtLargePlace(n, d, q / 10);
    }
  }

  lemma QuantumLarge(n: nat, d: nat)
    requires d > 0 && n >= 100_000 * DIGITS28 * d
    ensures Quantum(n, d, 1) == Quantum(n, d, 100_000)
  {
    assert Quantum(n, d, 10_000) == Quantum(n, d, 100_000);
    assert Quantum(n, d, 1000) == Quantum(n, d, 10_000);
    assert Quantum(n, d, 100) == Quantum(n, d, 1000);
    assert Quantum(n, d, 10) == Quantum(n, d, 100);
  }

  /** Multiplying by a 0/1 flag is exact. */
  lemma MulFlag(flag: bool, w: nat)
    requires w < 100_000 * DIGITS28 && w % 100_000 == 0
    ensures Mul(if flag then UNIT else 0, w) == if flag then w else 0
  {
    MulExact(if flag then UNIT else 0, w, if flag then w else 0);
  }

  ghost predicate AddedTo(x: nat, y: nat, s: nat) {
    && -50_000 <= s - (x + y) <= 50_000
    && ((x + y) % 100_000 == 0 ==> s == x + y)
  }

  lemma AddedExactly(x: nat, y: nat, s: nat)
    requires AddedTo(x, y, s) && x % 100_000 == 0 && y % 100_000 == 0
    ensures s == x + y && s % 100_000 == 0
  {
    var p, q := x / 100_000, y / 100_000;
    assert x == 100_000 * p && y == 100_000 * q && x + y == 100_000 * (p + q);
  }

  /** Four additions in a row: each is off by half a unit of the last digit at most, and exact on
      terms of few digits. */
  lemma FiveTerms(a: nat, b: nat, c: nat, d: nat, e: nat, ab: nat, abc: nat, abcd: nat, s: nat)
    requires AddedTo(a, b, ab) && AddedTo(ab, c, abc) && AddedTo(abc, d, abcd) && AddedTo(abcd, e, s)
    ensures -200_000 <= s - (a + b + c + d + e) <= 200_000
    ensures a % 100_000 == 0 && b % 100_000 == 0 && c % 100_000 == 0 && d % 100_000 == 0 && e % 100_000 == 0 ==>
              s == a + b + c + d + e
  {
    assert -50_000 <= ab - (a + b) <= 50_000 && -50_000 <= abc - (ab + c) <= 50_000;
    assert -50_000 <= abcd - (abc + d) <= 50_000 && -50_000 <= s - (abcd + e) <= 50_000;
    if a % 100_000 == 0 && b % 100_000 == 0 && c % 100_000 == 0 && d % 100_000 == 0 && e % 100_000 == 0 {
      AddedExactly(a, b, ab);
      AddedExactly(ab, c, abc);
      AddedExactly(abc, d, abcd);
      AddedExactly(abcd, e, s);
    }
    hide AddedTo;
  }

  lemma AddTerm(sum: nat, term: nat)
    requires sum + term < 100_000 * DIGITS28
    ensures AddedTo(sum, term, Add(sum, term))
  {
    AddNear(sum, term);
    if (sum + term) % 100_000 == 0 {
      AddExact(sum, term);
    }
  }

  lemma SumOfFive(a: nat, b: nat, c: nat, d: nat, e: nat)
    requires a < UNIT && b < UNIT && c < UNIT && d < UNIT && e < UNIT
    ensures exists ab: nat, abc: nat, abcd: nat ::
              AddedTo(a, b, ab) && AddedTo(ab, c, abc) && AddedTo(abc, d, abcd) &&
              AddedTo(abcd, e, Add(Add(Add(Add(a, b), c), d), e))
  {
    AddTerm(a, b);
    var ab := Add(a, b);
    AddTerm(ab, c);
    var abc := Add(ab, c);
    AddTerm(abc, d);
    var abcd := Add(abc, d);
    AddTerm(abcd, e);
  }
}
