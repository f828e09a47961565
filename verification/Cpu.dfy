/** CPU quota arithmetic on Go's 64-bit integers. */
module Cpu {
  const INT64_LIMIT: int := 0x8000_0000_0000_0000

  type Int64 = i: int | -INT64_LIMIT <= i < INT64_LIMIT

  /** Overflow wraps around. */
  function Wrap64(i: int): Int64 { (i + INT64_LIMIT) % (2 * INT64_LIMIT) - INT64_LIMIT }

  /** Division truncates toward zero. */
  function TruncDiv(a: int, b: int): int
    requires b != 0
  {
    if a >= 0 then a / b else -(-a / b)
  }

  function CpuQuotaToMilliCores(quota: Int64, period: Int64): Int64
  {
    if quota == 0 || period == 0 then 0
    else Wrap64(TruncDiv(Wrap64(quota * 1000), period))
  }

  /** Arithmetic modulo 2 to the 64: the result differs by a multiple of it. */
  lemma WrapIsModular(i: int) returns (k: int)
    ensures Wrap64(i) == i + k * 0x1_0000_0000_0000_0000
  {
    k := -((i + INT64_LIMIT) / (2 * INT64_LIMIT));
  }

  /** Truncating division divides the sizes and then looks at the signs. */
  lemma TruncDivBySize(a: int, b: int)
    requires b != 0
    ensures
      var q := (if a >= 0 then a else -a) / (if b > 0 then b else -b);
      TruncDiv(a, b) == if (a >= 0) == (b > 0) then q else -q
  {
    DivByNegative(if a >= 0 then a else -a, if b > 0 then b else -b);
  }

  lemma SignsOfProduct(q: int, p: int)
    ensures (-q) * p == -(q * p) && q * (-p) == -(q * p) && (-q) * (-p) == q * p
  {
  }

  /** Truncating division leaves a remainder that is smaller than the divisor and has the sign of the dividend. */
  lemma TruncDivMeaning(a: int, b: int)
    requires b != 0
    ensures
      var r := a - TruncDiv(a, b) * b;
      && (if b > 0 then -b < r < b else b < r < -b)
      && (a >= 0 ==> r >= 0) && (a <= 0 ==> r <= 0)
  {
    var x, p := if a >= 0 then a else -a, if b > 0 then b else -b;
    QuotientFacts(x, p);
    TruncDivBySize(a, b);
    SignsOfProduct(x / p, p);
  }

  /** Quotas whose thousandfold still fits. */
  predicate NoOverflow(quota: Int64) { -INT64_LIMIT < quota * 1000 < INT64_LIMIT }

  lemma WrapInRange(i: int)
    requires -INT64_LIMIT <= i < INT64_LIMIT
    ensures Wrap64(i) == i
  {
  }

  lemma QuotientFacts(a: nat, b: int)
    requires b > 0
    ensures a / b >= 0 && (a / b) * b <= a < (a / b) * b + b
  {
  }

  lemma ProductAtLeast(q: int, b: int)
    requires q >= 0 && b >= 1
    ensures q * b >= q
  {
  }

  lemma ProductBelow(q: int, b: int)
    requires b > 0 && q * b < b
    ensures q <= 0
  {
  }

  lemma QuotientPositive(a: nat, b: int)
    requires b > 0
    ensures 0 <= a / b <= a && (a / b > 0 <==> a >= b)
  {
    var q := a / b;
    QuotientFacts(a, b);
    ProductAtLeast(q, b);
    if q > 0 { ProductAtLeast(b, q); }
  }

  /** With a positive period the result is the quota in thousandths of the period, rounded down. */
  lemma MilliCoresRoundDown(quota: Int64, period: Int64)
    requires quota >= 0 && NoOverflow(quota) && period > 0
    ensures
      var m := CpuQuotaToMilliCores(quota, period);
      m >= 0 && m * period <= 1000 * quota < m * period + period
  {
    var a := quota * 1000;
    QuotientFacts(a, period);
    QuotientPositive(a, period);
    WrapInRange(a);
    WrapInRange(a / period);
    assert quota == 0 ==> a / period == 0;
  }

  /** Rounding down loses less than one unit on each side, so floors almost add up. */
  lemma FloorsAdd(a: int, b: int, p: int, x: int, y: int, z: int)
    requires p > 0
    requires x * p <= a < x * p + p && y * p <= b < y * p + p && z * p <= a + b < z * p + p
    ensures x + y <= z <= x + y + 1
  {
    assert (x + y - z) * p == x * p + y * p - z * p;
    ProductBelow(x + y - z, p);
    assert (z - x - y - 1) * p == z * p - x * p - y * p - p;
    ProductBelow(z - x - y - 1, p);
  }

  /** Larger quotas never yield less, and splitting a quota loses at most one millicore. */
  lemma MilliCoresAdd(a: Int64, b: Int64, period: Int64)
    requires a >= 0 && b >= 0 && NoOverflow(a) && NoOverflow(b) && period > 0
    requires a + b < INT64_LIMIT && NoOverflow(a + b)
    ensures
      var x, y, z := CpuQuotaToMilliCores(a, period), CpuQuotaToMilliCores(b, period),
                     CpuQuotaToMilliCores(a + b, period);
      x <= z && x + y <= z <= x + y + 1
  {
    MilliCoresRoundDown(a, period);
    MilliCoresRoundDown(b, period);
    MilliCoresRoundDown(a + b, period);
    FloorsAdd(1000 * a, 1000 * b, period, CpuQuotaToMilliCores(a, period),
              CpuQuotaToMilliCores(b, period), CpuQuotaToMilliCores(a + b, period));
  }

  /** Truncation never gives more than rounding up. */
  lemma TruncDivAtMost(w: int, p: int)
    requires p > 0
    ensures TruncDiv(w, p) * p <= w + p - 1
  {
    if w >= 0 {
      QuotientFacts(w, p);
    } else {
      QuotientFacts(-w, p);
      assert TruncDiv(w, p) * p == -((-w / p) * p);
    }
  }

  /** A positive product that does not fit loses at least the whole range. */
  lemma WrapLoses(a: int)
    requires a >= INT64_LIMIT
    ensures Wrap64(a) <= a - 2 * INT64_LIMIT
  {
    var n := 2 * INT64_LIMIT;
    var q := (a + INT64_LIMIT) / n;
    assert (a + INT64_LIMIT) % n == a + INT64_LIMIT - q * n;
    assert q >= 1;
  }

  lemma TruncDivFits(w: int, p: int)
    requires -INT64_LIMIT <= w < INT64_LIMIT && p > 0
    ensures -INT64_LIMIT <= TruncDiv(w, p) < INT64_LIMIT
  {
    QuotientPositive(if w >= 0 then w else -w, p);
  }

  /** The result is the quota in thousandths of the period, rounded down, exactly as long as the
      thousandfold quota fits into 64 bits. */
  lemma RoundsDownIff(quota: Int64, period: Int64)
    requires quota >= 0 && period > 0
    ensures
      var m := CpuQuotaToMilliCores(quota, period);
      m * period <= 1000 * quota < m * period + period <==> NoOverflow(quota)
  {
    var a := quota * 1000;
    if NoOverflow(quota) {
      MilliCoresRoundDown(quota, period);
    } else {
      var w := Wrap64(a);
      WrapLoses(a);
      TruncDivFits(w, period);
      WrapInRange(TruncDiv(w, period));
      TruncDivAtMost(w, period);
    }
  }

  lemma DivByNegative(a: nat, p: int)
    requires p > 0
    ensures a / (-p) == -(a / p)
  {
  }

  lemma TruncDivSign(a: int, b: int)
    requires b != 0 && -INT64_LIMIT <= a < INT64_LIMIT
    ensures -INT64_LIMIT < TruncDiv(a, b) < INT64_LIMIT || (a == -INT64_LIMIT && (b == 1 || b == -1))
    ensures TruncDiv(a, b) > 0 <==> (b > 0 && a >= b) || (b < 0 && a <= b)
  {
    var x, p := if a >= 0 then a else -a, if b > 0 then b else -b;
    QuotientPositive(x, p);
    DivByNegative(x, p);
    if p >= 2 { HalfAtMost(x, p); }
  }

  lemma HalfAtMost(x: nat, p: int)
    requires p >= 2
    ensures 2 * (x / p) <= x
  {
    var q := x / p;
    QuotientFacts(x, p);
    assert q * p == 2 * q + q * (p - 2);
    if p > 2 { ProductAtLeast(q, p - 2); }
  }

  /** The conversion for all quotas and periods, overflow included: nothing for a quota or period of zero; otherwise the
      quotient, toward zero, of a number that differs from the thousandfold quota by a multiple of 2 to the 64, except
      for the one quotient that does not fit. */
  lemma QuotaInFull(quota: Int64, period: Int64) returns (k: int)
    ensures quota == 0 || period == 0 ==> CpuQuotaToMilliCores(quota, period) == 0
    ensures quota != 0 && period != 0 ==>
      var w, m := 1000 * quota + k * 0x1_0000_0000_0000_0000, CpuQuotaToMilliCores(quota, period);
      var p: int, r: int := period, w - m * period;
      && -INT64_LIMIT <= w < INT64_LIMIT
      && (w == -INT64_LIMIT && period == -1 ==> m == -INT64_LIMIT)
      && (!(w == -INT64_LIMIT && period == -1) ==>
            (if p > 0 then -p < r < p else p < r < -p)
            && (w >= 0 ==> r >= 0) && (w <= 0 ==> r <= 0))
  {
    k := WrapIsModular(quota * 1000);
    if quota != 0 && period != 0 {
      var w: int := Wrap64(quota * 1000);
      TruncDivMeaning(w, period);
      TruncDivSign(w, period);
      if period == 1 || period == -1 {
        assert w >= 0 ==> w / 1 == w && w / (-1) == -w;
        assert w < 0 ==> -w / 1 == -w && -w / (-1) == w;
      }
      if !(w == -INT64_LIMIT && period == -1) {
        WrapInRange(TruncDiv(w, period));
      }
    }
  }

  /** Whether an amount of thousandths, positive or not, makes up at least one unit of the period. */
  predicate Reaches(thousandths: int, period: Int64)
  {
    (period > 0 && thousandths >= period) || (period < 0 && thousandths <= period)
  }

  /** For all quotas and periods: the `--cpu` flag is sent exactly when the wrapped thousandfold quota
      reaches the period, except for the one quotient that overflows itself. */
  lemma CpuFlagIff(quota: Int64, period: Int64)
    ensures
      var w := Wrap64(1000 * quota);
      CpuQuotaToMilliCores(quota, period) > 0 <==> Reaches(w, period) && !(w == -INT64_LIMIT && period == -1)
  {
    var w := Wrap64(1000 * quota);
    if quota != 0 && period != 0 {
      TruncDivSign(w, period);
      if -INT64_LIMIT < TruncDiv(w, period) < INT64_LIMIT {
        WrapInRange(TruncDiv(w, period));
      } else if period == 1 {
        assert TruncDiv(w, period) == -INT64_LIMIT;
      } else {
        assert TruncDiv(w, period) == INT64_LIMIT;
      }
    }
  }

  /** Short of overflow the wrapped product is the product. */
  lemma CpuFlagWithoutOverflow(quota: Int64, period: Int64)
    requires NoOverflow(quota)
    ensures CpuQuotaToMilliCores(quota, period) > 0 <==> Reaches(1000 * quota, period)
  {
    CpuFlagIff(quota, period);
    WrapInRange(1000 * quota);
  }

  /** A positive quota that overflows: the flag that should be sent is sent exactly when the wrapped
      product still reaches the period. */
  lemma OverflowingFlagIff(quota: Int64, period: Int64)
    requires quota > 0 && period > 0 && !NoOverflow(quota)
    ensures Reaches(1000 * quota, period)
    ensures CpuQuotaToMilliCores(quota, period) > 0 <==> Wrap64(1000 * quota) >= period
  {
    CpuFlagIff(quota, period);
  }

  /** A quota that loses its flag. */
  lemma HugeQuotaLosesFlag()
    ensures CpuQuotaToMilliCores(9_300_000_000_000_000, 100_000) < 0
  {
    assert Wrap64(9_300_000_000_000_000 * 1000) < 0;
  }
}
