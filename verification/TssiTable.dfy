/**
The estimated power table: 64 entries per chain, computed in 32-bit arithmetic
from three signed 16-bit coefficients (N-PHY revision 3 and later).
*/
module TssiTable {

  const ENTRIES := 64

  type S16 = n: int | -0x8000 <= n < 0x8000

  predicate InS32(n: int) {
    -0x8000_0000 <= n < 0x8000_0000
  }

  /** What `q` leaves of `n` is smaller than the divisor and has the sign of `n`. */
  predicate Truncated(n: int, d: int, q: int) {
    var r := n - q * d;
    if n >= 0 then 0 <= r < (if d < 0 then -d else d) else (if d < 0 then d else -d) < r <= 0
  }

  /** An entry of the table: the rounded quotient the coefficients call for, or -8 where that is no more. */
  predicate EntryOf(a1: int, b0: int, b1: int, i: nat, e: int) {
    var den := 32768 + a1 * i;
    var rounded := 32 * (16 * b0 + b1 * i) + if den < 0 then -((-den) / 2) else den / 2;
    && e >= -8
    && (e > -8 ==> Truncated(rounded, den, e))
    && (e == -8 ==> if den > 0 then rounded <= -8 * den else rounded >= -8 * den)
  }

  /** C's division, for a divisor that is not zero: towards zero. */
  function Quotient(n: int, d: int): int
    requires d != 0
  {
    if (n < 0) == (d < 0) then (if n < 0 then (-n) / (-d) else n / d)
    else if n < 0 then -((-n) / d)
    else -(n / (-d))
  }

  function Num(b0: int, b1: int, i: nat): int {
    8 * (16 * b0 + b1 * i)
  }

  function Den(a1: int, i: nat): int {
    32768 + a1 * i
  }

  /** What is divided: four times the numerator, with half the denominator added to round. */
  function Rounded(a1: int, b0: int, b1: int, i: nat): int {
    4 * Num(b0, b1, i) + Quotient(Den(a1, i), 2)
  }

  function Entry(a1: int, b0: int, b1: int, i: nat): int
    requires Den(a1, i) != 0
  {
    var pwr := Quotient(Rounded(a1, b0, b1, i), Den(a1, i));
    if pwr < -8 then -8 else pwr
  }

  lemma QuotientTruncates(n: int, d: int)
    requires d != 0
    ensures Truncated(n, d, Quotient(n, d))
  {
    var a, b := if n < 0 then -n else n, if d < 0 then -d else d;
    Divided(a, b);
    var q := a / b;
    assert q * d == if d < 0 then -(q * b) else q * b;
    assert -q * d == -(q * d);
  }

  lemma Divided(a: nat, b: nat)
    requires b > 0
    ensures 0 <= a - a / b * b < b
  {
    assert a == a / b * b + a % b;
  }

  lemma EntryIsRight(a1: int, b0: int, b1: int, i: nat)
    requires Den(a1, i) != 0
    ensures EntryOf(a1, b0, b1, i, Entry(a1, b0, b1, i))
  {
    var n, d := Rounded(a1, b0, b1, i), Den(a1, i);
    QuotientTruncates(n, d);
    if Quotient(n, d) <= -8 { AtMost(n, d, Quotient(n, d)); }
  }

  /** A quotient of -8 or less, in terms of what is divided. */
  lemma AtMost(n: int, d: int, q: int)
    requires d != 0 && Truncated(n, d, q) && q <= -8
    ensures if d > 0 then n <= -8 * d else n >= -8 * d
  {
    var k := -8 - q;
    assert q * d == -8 * d - k * d;
    if d > 0 {
      assert k * d >= 0;
      assert q * d < 0;
    } else {
      assert k * d <= 0;
      assert q * d > 0;
    }
  }

  // ---------------------------------------------------------------- no overflow, no division by zero

  lemma ProductBound(x: int, y: int, xmax: int, ymax: int)
    requires 0 <= xmax && 0 <= ymax && -xmax <= x <= xmax && 0 <= y <= ymax
    ensures -(xmax * ymax) <= x * y <= xmax * ymax
  {
    MulLe(x, xmax, y);
    MulLe(-xmax, x, y);
    MulLe(y, ymax, xmax);
    assert y * xmax == xmax * y && -xmax * y == -(xmax * y) && ymax * xmax == xmax * ymax;
  }

  lemma MulLe(x: int, x': int, y: int)
    requires x <= x' && y >= 0
    ensures x * y <= x' * y
  {
  }

  /** No step of an entry leaves 32 bits, for any coefficients. */
  lemma NoOverflow(a1: S16, b0: S16, b1: S16, i: nat)
    requires i < ENTRIES
    ensures InS32(16 * b0) && InS32(b1 * i) && InS32(16 * b0 + b1 * i) && InS32(Num(b0, b1, i))
    ensures InS32(a1 * i) && InS32(Den(a1, i)) && InS32(4 * Num(b0, b1, i))
    ensures InS32(Quotient(Den(a1, i), 2)) && InS32(Rounded(a1, b0, b1, i))
    ensures Den(a1, i) != 0 ==> InS32(Quotient(Rounded(a1, b0, b1, i), Den(a1, i)))
  {
    ProductBound(b1, i, 0x8000, 63);
    ProductBound(a1, i, 0x8000, 63);
    var d, n := Den(a1, i), Rounded(a1, b0, b1, i);
    assert -0x20_0000 <= d <= 0x20_0000;
    assert -0x10_0000 <= Quotient(d, 2) <= 0x10_0000;
    assert -0x600_0000 <= n <= 0x600_0000;
    if d != 0 { QuotientSmaller(n, d); }
  }

  lemma QuotientSmaller(n: int, d: int)
    requires d != 0
    ensures var a := if n < 0 then -n else n; -a <= Quotient(n, d) <= a
  {
    var a, b := if n < 0 then -n else n, if d < 0 then -d else d;
    assert 0 <= a / b <= a by { DivSmaller(a, b); }
  }

  lemma DivSmaller(a: nat, b: nat)
    requires b > 0
    ensures 0 <= a / b <= a
  {
    assert a == b * (a / b) + a % b;
    MulLe(1, b, a / b);
  }

  /** The denominators of a table are all positive exactly when the last one is. */
  lemma DenPositive(a1: S16)
    ensures (forall i: nat :: i < ENTRIES ==> Den(a1, i) > 0) <==> Den(a1, 63) > 0
  {
    if Den(a1, 63) > 0 {
      forall i: nat | i < ENTRIES ensures Den(a1, i) > 0 {
        if a1 < 0 {
          MulLe(i, 63, -a1);
          assert i * -a1 == -(a1 * i) && 63 * -a1 == -(a1 * 63);
        } else {
          MulLe(0, a1, i);
        }
      }
    }
  }

  /** A table divides by zero exactly for the six coefficients that cancel 32768 at a power of two. */
  lemma DivisionByZeroExactly(a1: S16)
    ensures (exists i: nat :: i < ENTRIES && Den(a1, i) == 0) <==>
            a1 in {-32768, -16384, -8192, -4096, -2048, -1024}
  {
    if a1 in {-32768, -16384, -8192, -4096, -2048, -1024} {
      var i := if a1 == -32768 then 1 else if a1 == -16384 then 2 else if a1 == -8192 then 4
               else if a1 == -4096 then 8 else if a1 == -2048 then 16 else 32;
      assert Den(a1, i) == 0;
    }
    if exists i: nat :: i < ENTRIES && Den(a1, i) == 0 {
      var i: nat :| i < ENTRIES && Den(a1, i) == 0;
      var a: int := a1;
      PowersOfTwo(-a, i);
    }
  }

  lemma PowersOfTwo(a: int, i: nat)
    requires a * i == 32768 && i < ENTRIES
    ensures a in {32768, 16384, 8192, 4096, 2048, 1024}
  {
    assert i == 1 || i == 2 || i == 3 || i == 4 || i == 5 || i == 6 || i == 7 || i == 8 || i == 9 || i == 10
        || i == 11 || i == 12 || i == 13 || i == 14 || i == 15 || i == 16 || i == 17 || i == 18 || i == 19
        || i == 20 || i == 21 || i == 22 || i == 23 || i == 24 || i == 25 || i == 26 || i == 27 || i == 28
        || i == 29 || i == 30 || i == 31 || i == 32 || i == 33 || i == 34 || i == 35 || i == 36 || i == 37
        || i == 38 || i == 39 || i == 40 || i == 41 || i == 42 || i == 43 || i == 44 || i == 45 || i == 46
        || i == 47 || i == 48 || i == 49 || i == 50 || i == 51 || i == 52 || i == 53 || i == 54 || i == 55
        || i == 56 || i == 57 || i == 58 || i == 59 || i == 60 || i == 61 || i == 62 || i == 63;
  }

  // ---------------------------------------------------------------- rounding

  /** Division by a positive number, as inequalities. */
  lemma QuotientBounds(n: int, d: int)
    requires d > 0
    ensures n >= 0 ==> var q := Quotient(n, d); q >= 0 && q * d <= n < q * d + d
    ensures n < 0 ==> var q := Quotient(n, d); q <= 0 && q * d - d < n <= q * d
  {
    if n >= 0 {
      assert n == d * (n / d) + n % d;
    } else {
      var m := -n;
      assert m == d * (m / d) + m % d;
    }
  }

  lemma HalfOf(d: int)
    requires d > 0
    ensures 2 * Quotient(d, 2) == d - d % 2
  {
  }

  /**
  Where the rounded numerator is not negative an entry is 4 * num / den rounded
  half up: entry - 1/2 <= 4 * num / den < entry + 1/2, over the common denominator.
  */
  lemma RoundedHalfUp(a1: S16, b0: S16, b1: S16, i: nat)
    requires i < ENTRIES && Den(a1, i) > 0 && Rounded(a1, b0, b1, i) >= 0
    ensures var e := Entry(a1, b0, b1, i);
            (2 * e - 1) * Den(a1, i) <= 8 * Num(b0, b1, i) < (2 * e + 1) * Den(a1, i)
  {
    var d, n, x := Den(a1, i), Num(b0, b1, i), Rounded(a1, b0, b1, i);
    QuotientBounds(x, d);
    HalfOf(d);
    var e := Quotient(x, d);
    assert (2 * e - 1) * d == 2 * (e * d) - d && (2 * e + 1) * d == 2 * (e * d) + d;
  }

  // ---------------------------------------------------------------- the table never rises

  /** The fraction num / den does not rise from i to j when 2048 * b1 <= a1 * b0. */
  lemma Cross(a1: int, b0: int, b1: int, i: nat, j: nat)
    requires i <= j && 2048 * b1 <= a1 * b0
    ensures Num(b0, b1, j) * Den(a1, i) <= Num(b0, b1, i) * Den(a1, j)
  {
    var p, q := 16 * b0 + b1 * i, 16 * b0 + b1 * j;
    var slack := a1 * b0 - 2048 * b1;
    var n := j - i;
    assert q == p + b1 * n by { Distribute(b1, i, n); }
    assert Den(a1, j) == Den(a1, i) + a1 * n by { Distribute(a1, i, n); }
    // p * Den(j) - q * Den(i) == n * (p * a1 - b1 * Den(i)) == n * 16 * slack
    var d := Den(a1, i);
    Distribute(p, d, a1 * n);
    Distribute(d, p, b1 * n);
    assert p * (d + a1 * n) - d * (p + b1 * n) == p * (a1 * n) - d * (b1 * n);
    assert p * (a1 * n) == (p * a1) * n && d * (b1 * n) == (d * b1) * n by { Assoc(p, a1, n); Assoc(d, b1, n); }
    assert p * a1 - d * b1 == 16 * slack by { SlackIdentity(a1, b0, b1, i); }
    assert (p * a1) * n - (d * b1) * n == (16 * slack) * n by { DistributeSub(p * a1, d * b1, n); }
    MulLe(0, 16 * slack, n);
    var dj := Den(a1, j);
    assert p * dj - q * d >= 0;
    assert Num(b0, b1, i) * dj == 8 * (p * dj) && Num(b0, b1, j) * d == 8 * (q * d) by { Assoc(8, p, dj); Assoc(8, q, d); }
  }

  lemma Distribute(x: int, y: int, z: int)
    ensures x * (y + z) == x * y + x * z
  {
  }

  lemma DistributeSub(x: int, y: int, z: int)
    ensures x * z - y * z == (x - y) * z
  {
  }

  lemma Assoc(x: int, y: int, z: int)
    ensures x * (y * z) == (x * y) * z
  {
  }

  lemma SlackIdentity(a1: int, b0: int, b1: int, i: nat)
    ensures (16 * b0 + b1 * i) * a1 - Den(a1, i) * b1 == 16 * (a1 * b0 - 2048 * b1)
  {
    assert (b1 * i) * a1 == (a1 * i) * b1;
    assert (16 * b0 + b1 * i) * a1 == 16 * (b0 * a1) + (b1 * i) * a1;
    assert (32768 + a1 * i) * b1 == 32768 * b1 + (a1 * i) * b1;
  }

  /** Division by a positive number against a level, above and below zero. */
  lemma QuotientLevel(x: int, d: int, m: int)
    requires d > 0
    ensures m >= 1 ==> (Quotient(x, d) < m <==> x < m * d)
    ensures m <= -1 ==> (Quotient(x, d) <= m <==> x <= m * d)
  {
    QuotientBounds(x, d);
    var q := Quotient(x, d);
    assert (q + 1) * d == q * d + d && (q - 1) * d == q * d - d;
    if m >= 1 {
      if q < m { MulLe(q + 1, m, d); MulLe(1, m, d); } else { MulLe(m, q, d); MulLe(1, m, d); }
    } else if m <= -1 {
      if q <= m { MulLe(q, m, d); MulLe(m, -1, d); } else { MulLe(m, q - 1, d); MulLe(m, -1, d); }
    }
  }

  lemma MulLt(x: int, x': int, y: int)
    requires x < x' && y > 0
    ensures x * y < x' * y
  {
  }

  lemma Swap(x: int, y: int, z: int)
    ensures (x * y) * z == (x * z) * y
  {
  }

  /** A fraction below (or at) a level stays below (or at) it. */
  lemma StaysBelow(c: int, a1: int, b0: int, b1: int, i: nat, j: nat)
    requires i <= j && 2048 * b1 <= a1 * b0 && Den(a1, i) > 0 && Den(a1, j) > 0
    ensures 8 * Num(b0, b1, i) < c * Den(a1, i) ==> 8 * Num(b0, b1, j) < c * Den(a1, j)
    ensures 8 * Num(b0, b1, i) <= c * Den(a1, i) ==> 8 * Num(b0, b1, j) <= c * Den(a1, j)
  {
    Cross(a1, b0, b1, i, j);
    Scaled(c, Num(b0, b1, i), Den(a1, i), Num(b0, b1, j), Den(a1, j));
  }

  lemma Scaled(c: int, ni: int, di: int, nj: int, dj: int)
    requires di > 0 && dj > 0 && nj * di <= ni * dj
    ensures 8 * ni < c * di ==> 8 * nj < c * dj
    ensures 8 * ni <= c * di ==> 8 * nj <= c * dj
  {
    Swap(c, di, dj);
    Assoc(8, ni, dj);
    Assoc(8, nj, di);
    if 8 * ni < c * di {
      MulLt(8 * ni, c * di, dj);
      if c * dj <= 8 * nj { MulLe(c * dj, 8 * nj, di); }
    }
    if 8 * ni <= c * di {
      MulLe(8 * ni, c * di, dj);
      if c * dj < 8 * nj { MulLt(c * dj, 8 * nj, di); }
    }
  }

  /** Twice the rounded numerator against twice a level. */
  lemma RoundedLevel(a1: int, b0: int, b1: int, i: nat, m: int)
    requires Den(a1, i) > 0
    ensures var d := Den(a1, i);
            2 * (Rounded(a1, b0, b1, i) - m * d) == 8 * Num(b0, b1, i) - (2 * m - 1) * d - d % 2
  {
    var d := Den(a1, i);
    HalfOf(d);
    assert (2 * m - 1) * d == 2 * (m * d) - d;
  }

  /**
  With positive denominators and 2048 * b1 <= a1 * b0, entries never increase
  with the TSSI index: below zero too, where C rounds the other way.
  */
  lemma NeverIncreases(a1: S16, b0: S16, b1: S16, i: nat, j: nat)
    requires i <= j < ENTRIES && Den(a1, 63) > 0 && 2048 * b1 <= a1 * b0
    ensures Den(a1, i) > 0 && Den(a1, j) > 0
    ensures Entry(a1, b0, b1, j) <= Entry(a1, b0, b1, i)
  {
    DenPositive(a1);
    var di, dj := Den(a1, i), Den(a1, j);
    var t := Quotient(Rounded(a1, b0, b1, i), di);
    if t >= 0 {
      var m := t + 1;
      QuotientLevel(Rounded(a1, b0, b1, i), di, m);
      QuotientLevel(Rounded(a1, b0, b1, j), dj, m);
      RoundedLevel(a1, b0, b1, i, m);
      RoundedLevel(a1, b0, b1, j, m);
      StaysBelow(2 * m - 1, a1, b0, b1, i, j);
    } else {
      QuotientLevel(Rounded(a1, b0, b1, i), di, t);
      QuotientLevel(Rounded(a1, b0, b1, j), dj, t);
      RoundedLevel(a1, b0, b1, i, t);
      RoundedLevel(a1, b0, b1, j, t);
      StaysAtTie(2 * t - 1, a1, b0, b1, i, j);
    }
  }

  /** Below zero an odd denominator may overshoot its level by one; a later one may not overshoot more. */
  lemma StaysAtTie(c: int, a1: S16, b0: S16, b1: S16, i: nat, j: nat)
    requires i <= j < ENTRIES && Den(a1, i) > 0 && Den(a1, j) > 0 && 2048 * b1 <= a1 * b0
    requires 8 * Num(b0, b1, i) <= c * Den(a1, i) + Den(a1, i) % 2
    ensures 8 * Num(b0, b1, j) <= c * Den(a1, j) + Den(a1, j) % 2
  {
    if 8 * Num(b0, b1, i) <= c * Den(a1, i) {
      StaysBelow(c, a1, b0, b1, i, j);
    } else {
      TieSlope(c, a1, b0, b1, i, j);
      EvenBound(c, Num(b0, b1, j), Den(a1, j));
    }
  }

  /** 8 * num - c * den is a line in the index. */
  lemma Line(c: int, a1: int, b0: int, b1: int, i: nat, j: nat)
    requires i <= j
    ensures 8 * Num(b0, b1, j) - c * Den(a1, j) ==
            8 * Num(b0, b1, i) - c * Den(a1, i) + (64 * b1 - c * a1) * (j - i)
  {
    var n := j - i;
    assert Den(a1, j) == Den(a1, i) + a1 * n by { Distribute(a1, i, n); }
    assert Num(b0, b1, j) == Num(b0, b1, i) + 8 * (b1 * n) by { Distribute(b1, i, n); }
    assert c * Den(a1, j) == c * Den(a1, i) + (c * a1) * n by { Distribute(c, Den(a1, i), a1 * n); Assoc(c, a1, n); }
    assert 64 * (b1 * n) - (c * a1) * n == (64 * b1 - c * a1) * n by { Assoc(64, b1, n); DistributeSub(64 * b1, c * a1, n); }
  }

  /** With the line at 1 at i, its value at j times den(i) is at most den(j). */
  lemma TieProduct(c: int, a1: int, b0: int, b1: int, i: nat, j: nat)
    requires i <= j && 2048 * b1 <= a1 * b0
    requires 8 * Num(b0, b1, i) == c * Den(a1, i) + 1
    ensures (8 * Num(b0, b1, j) - c * Den(a1, j)) * Den(a1, i) <= Den(a1, j)
  {
    var di, dj, ni, nj := Den(a1, i), Den(a1, j), Num(b0, b1, i), Num(b0, b1, j);
    Cross(a1, b0, b1, i, j);
    DistributeSub(8 * nj, c * dj, di);
    DistributeSub(8 * ni, c * di, dj);
    Swap(c, di, dj);
    Assoc(8, ni, dj);
    Assoc(8, nj, di);
    assert (8 * ni - c * di) * dj == dj;
  }

  /** So the line does not rise: its slope would have to fit under a1 / den(i), which is below one. */
  lemma TieSlope(c: int, a1: S16, b0: S16, b1: S16, i: nat, j: nat)
    requires i <= j < ENTRIES && Den(a1, i) > 0 && Den(a1, j) > 0 && 2048 * b1 <= a1 * b0
    requires 8 * Num(b0, b1, i) == c * Den(a1, i) + 1
    ensures 8 * Num(b0, b1, j) <= c * Den(a1, j) + 1
  {
    var di, n := Den(a1, i), j - i;
    var s := 64 * b1 - c * a1;
    Line(c, a1, b0, b1, i, j);
    if n > 0 && s >= 1 {
      TieProduct(c, a1, b0, b1, i, j);
      assert Den(a1, j) == di + a1 * n by { Distribute(a1, i, n); }
      assert (1 + s * n) * di == di + (s * di) * n by { DistributeSub(1 + s * n, 1, di); Swap(s, n, di); }
      MulLe(1, s, di);
      BelowDen(a1, i);
      MulLt(a1, s * di, n);
      assert false;
    } else {
      if s <= 0 { MulLe(s, 0, n); }
    }
  }

  lemma BelowDen(a1: S16, i: nat)
    requires Den(a1, i) > 0
    ensures a1 < Den(a1, i)
  {
    if a1 > 0 {
      MulLe(0, i, a1);
      assert i * a1 == a1 * i;
    }
  }

  /** An even number that is at most one above an even number is at most that number. */
  lemma EvenBound(c: int, n: int, d: int)
    requires 8 * n <= c * d + 1
    ensures 8 * n <= c * d + d % 2
  {
    EvenProduct(c, d);
    if d % 2 == 0 { EvenBelow(n, c * d); }
  }

  lemma EvenBelow(n: int, x: int)
    requires x % 2 == 0 && 8 * n <= x + 1
    ensures 8 * n <= x
  {
  }

  lemma EvenProduct(c: int, d: int)
    ensures d % 2 == 0 ==> (c * d) % 2 == 0
  {
    if d % 2 == 0 {
      var h := d / 2;
      assert d == 2 * h;
      assert c * d == 2 * (c * h) by { Assoc(c, 2, h); Assoc(2, c, h); }
    }
  }

  // ---------------------------------------------------------------- the driver's loop

  /** The power table part of b43_nphy_tx_power_ctl_setup, one chain. */
  method FillTable(a1: S16, b0: S16, b1: S16, regval: array<int>)
    requires regval.Length == ENTRIES
    requires a1 !in {-32768, -16384, -8192, -4096, -2048, -1024}
    modifies regval
    ensures forall i :: 0 <= i < ENTRIES ==> Den(a1, i) != 0 && regval[i] == Entry(a1, b0, b1, i)
    ensures Den(a1, 63) > 0 && 2048 * b1 <= a1 * b0 ==>
              forall i, j :: 0 <= i <= j < ENTRIES ==> regval[j] <= regval[i]
    ensures forall i :: 0 <= i < ENTRIES ==> regval[i] >= -8 && EntryOf(a1, b0, b1, i, regval[i])
  {
    hide EntryOf, Truncated;
    DivisionByZeroExactly(a1);
    for i := 0 to ENTRIES
      invariant forall k :: 0 <= k < i ==> Den(a1, k) != 0 && regval[k] == Entry(a1, b0, b1, k)
    {
      NoOverflow(a1, b0, b1, i);
      var num := 8 * (16 * b0 + b1 * i);
      var den := 32768 + a1 * i;
      assert den == Den(a1, i) != 0;
      var pwr := Quotient(4 * num + Quotient(den, 2), den);
      regval[i] := if pwr < -8 then -8 else pwr;
    }
    forall i | 0 <= i < ENTRIES ensures regval[i] >= -8 && EntryOf(a1, b0, b1, i, regval[i]) {
      EntryIsRight(a1, b0, b1, i);
    }
    if Den(a1, 63) > 0 && 2048 * b1 <= a1 * b0 {
      forall i, j | 0 <= i <= j < ENTRIES ensures regval[j] <= regval[i] {
        NeverIncreases(a1, b0, b1, i, j);
      }
    }
  }
}
