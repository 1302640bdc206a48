/**
 * Dates as pandas bins them. A date is a day number: the count of days since
 * 1970-01-01, which was a Thursday. `pd.Grouper(freq=...)` assigns every date
 * to one bin of a regular grid; the model numbers the bins with consecutive
 * integers (the bin index) and gives each bin the date pandas labels it with.
 */
module Calendar {

  /** The granularities the engine is called with: 'D', 'W' (as 'W-MON') and 'M'. */
  datatype Period = Daily | Weekly | Monthly

  /** 0 is Monday, ..., 6 is Sunday. */
  function Weekday(d: int): (w: int)
    ensures 0 <= w < 7
  {
    (d + 3) % 7
  }

  /** The 'W-MON' bin of a day: bins close on a Monday, so the bin index k stands for the Monday 7k + 4. */
  function WeekIndex(d: int): int {
    (d + 2) / 7
  }

  function WeekEnd(k: int): int {
    7 * k + 4
  }

  /** A date falls into the bin labelled by the first Monday on or after it. */
  lemma WeekBinIsNextMonday(d: int)
    ensures Weekday(WeekEnd(WeekIndex(d))) == 0
    ensures d <= WeekEnd(WeekIndex(d)) < d + 7
  {
  }

  // ---- the proleptic Gregorian calendar (days <-> year, month, day) ----

  /** Days from the 1st of March of year 0 (March-based years) to the 1st of March of year `y`, shifted to the 1970 epoch. */
  function MarchYearStart(y: int): int {
    var era := y / 400;
    var yoe := y - era * 400;
    era * 146097 + 365 * yoe + yoe / 4 - yoe / 100 - 719468
  }

  /** Days from the 1st of March to the 1st of the month `mp` months later (0 <= mp < 12). */
  function MarchMonthOffset(mp: int): int {
    (153 * mp + 2) / 5
  }

  /** The day number of a civil date (month 1..12, day 1..31). */
  function DaysFromCivil(y: int, m: int, d: int): int
    requires 1 <= m <= 12
  {
    var yy := if m <= 2 then y - 1 else y;
    var mp := (m + 9) % 12;
    MarchYearStart(yy) + MarchMonthOffset(mp) + d - 1
  }

  datatype Civil = Civil(year: int, month: int, day: int)

  /** Days of a 400-year era since its 1st of March as (year of the era, day of that March-based year). */
  function YearOfEra(doe: int): (r: (int, int))
    requires 0 <= doe < 146097
    ensures 0 <= r.0 < 400 && 0 <= r.1 <= 365
    ensures doe == 365 * r.0 + r.0 / 4 - r.0 / 100 + r.1
    ensures r.0 < 399 ==> doe < 365 * (r.0 + 1) + (r.0 + 1) / 4 - (r.0 + 1) / 100
  {
    // centuries of 36524 days (the fourth one has 36525), four-year groups of
    // 1461 days, years of 365 days (the fourth one of a group has 366)
    var cent := if doe / 36524 < 3 then doe / 36524 else 3;
    var doc := doe - 36524 * cent;
    var quad := doc / 1461;
    var doq := doc % 1461;
    var yoq := if doq / 365 < 3 then doq / 365 else 3;
    var yoe := 100 * cent + 4 * quad + yoq;
    assert 0 <= doc <= 36524 && 0 <= quad <= 24;
    assert yoe / 4 == 25 * cent + quad && yoe / 100 == cent;
    // the start of the following year within the era
    assert yoe < 399 ==> doe < 365 * (yoe + 1) + (yoe + 1) / 4 - (yoe + 1) / 100 by {
      if yoe < 399 && yoq < 3 {
        assert (yoe + 1) / 4 == 25 * cent + quad && (yoe + 1) / 100 == cent;
      } else if yoe < 399 && quad < 24 {
        assert (yoe + 1) / 4 == 25 * cent + quad + 1 && (yoe + 1) / 100 == cent;
      } else if yoe < 399 {
        assert cent < 3 && doq < 1460;
        assert (yoe + 1) / 4 == 25 * cent + 25 && (yoe + 1) / 100 == cent + 1;
      }
    }
    (yoe, doq - 365 * yoq)
  }

  /** The March-based month (0 is March) of a day of a March-based year, and the day of that month. */
  function MonthOfYear(doy: int): (r: (int, int))
    requires 0 <= doy <= 365
    ensures 0 <= r.0 < 12 && 1 <= r.1 <= 31
    ensures doy == MarchMonthOffset(r.0) + r.1 - 1
    ensures r.0 < 11 ==> doy < MarchMonthOffset(r.0 + 1)
  {
    var mp := (5 * doy + 2) / 153;
    (mp, doy - MarchMonthOffset(mp) + 1)
  }

  /** The first day of the month j months after March of year 0. */
  function MarchMonthStart(j: int): int {
    MarchYearStart(j / 12) + MarchMonthOffset(j % 12)
  }

  /**
   * A day number as (months since March of year 0, day of that month): the
   * day is the d-th of month j, and month j + 1 starts after it.
   */
  function MarchDate(z: int): (r: (int, int))
    ensures 1 <= r.1 <= 31
    ensures z == MarchMonthStart(r.0) + r.1 - 1 < MarchMonthStart(r.0 + 1)
  {
    var z0 := z + 719468;
    var era := z0 / 146097;
    var (yoe, doy) := YearOfEra(z0 % 146097);
    var (mp, d) := MonthOfYear(doy);
    MarchDateOfEra(era, yoe, doy, mp, d);
    (12 * (era * 400 + yoe) + mp, d)
  }

  /** The day `doy` of year `yoe` of era `era` is day `d` of March-based month mp of that year. */
  lemma MarchDateOfEra(era: int, yoe: int, doy: int, mp: int, d: int)
    requires 0 <= yoe < 400 && 0 <= doy <= 365 && 0 <= mp < 12
    requires yoe < 399 ==> 365 * yoe + yoe / 4 - yoe / 100 + doy < 365 * (yoe + 1) + (yoe + 1) / 4 - (yoe + 1) / 100
    requires doy == MarchMonthOffset(mp) + d - 1
    requires mp < 11 ==> doy < MarchMonthOffset(mp + 1)
    ensures var j := 12 * (era * 400 + yoe) + mp;
      var z := era * 146097 + 365 * yoe + yoe / 4 - yoe / 100 + doy - 719468;
      z == MarchMonthStart(j) + d - 1 < MarchMonthStart(j + 1)
  {
    var yy := era * 400 + yoe;
    var j := 12 * yy + mp;
    assert j / 12 == yy && j % 12 == mp;
    MarchYearStartOfEra(era, yoe);
    if mp < 11 {
      assert (j + 1) / 12 == yy && (j + 1) % 12 == mp + 1;
    } else {
      assert (j + 1) / 12 == yy + 1 && (j + 1) % 12 == 0;
      if yoe < 399 {
        MarchYearStartOfEra(era, yoe + 1);
      } else {
        assert yy + 1 == (era + 1) * 400 + 0;
        MarchYearStartOfEra(era + 1, 0);
      }
    }
  }

  /** The civil date of a day number. */
  function CivilFromDays(z: int): (c: Civil)
    ensures 1 <= c.month <= 12 && 1 <= c.day <= 31
  {
    var (j, d) := MarchDate(z);
    var yy := j / 12;
    var m := CivilMonth(j % 12);
    Civil(if m <= 2 then yy + 1 else yy, m, d)
  }

  /** The monthly bin of a day: year * 12 + month - 1. */
  function MonthIndex(d: int): int {
    var c := CivilFromDays(d);
    c.year * 12 + c.month - 1
  }

  /** The first day of monthly bin k. */
  function MonthStart(k: int): int {
    DaysFromCivil(k / 12, k % 12 + 1, 1)
  }

  /** pandas labels a monthly bin with the last day of the month. */
  function MonthEnd(k: int): int {
    MonthStart(k + 1) - 1
  }

  /** The civil month of March-based month mp, and back. */
  function CivilMonth(mp: int): (m: int)
    requires 0 <= mp < 12
    ensures 1 <= m <= 12 && (m + 9) % 12 == mp && (m <= 2 <==> mp >= 10)
  {
    if mp < 10 then
      assert (mp + 12) % 12 == mp;
      mp + 3
    else
      mp - 9
  }

  lemma MarchYearStartOfEra(era: int, yoe: int)
    requires 0 <= yoe < 400
    ensures MarchYearStart(era * 400 + yoe) == era * 146097 + 365 * yoe + yoe / 4 - yoe / 100 - 719468
  {
    var yy := era * 400 + yoe;
    assert yy / 400 == era;
  }

  /** Converting a day number to its civil date and back gives the same day. */
  lemma CivilRoundTrip(z: int)
    ensures var c := CivilFromDays(z); DaysFromCivil(c.year, c.month, c.day) == z
  {
    var (j, d) := MarchDate(z);
    MonthStartIsMarchMonthStart(j + 2);
  }

  lemma MonthStartIsMarchMonthStart(k: int)
    ensures MonthStart(k) == MarchMonthStart(k - 2)
  {
    var y, m := k / 12, k % 12 + 1;
    if m <= 2 {
      assert (k - 2) / 12 == y - 1 && (k - 2) % 12 == m + 9;
    } else {
      assert (k - 2) / 12 == y && (k - 2) % 12 == m - 3;
    }
  }

  /** Within an era, a year starts 365 or 366 days after the previous one. */
  lemma YearInEraLength(yoe: int)
    requires 0 <= yoe < 399
    ensures var next := 365 * (yoe + 1) + (yoe + 1) / 4 - (yoe + 1) / 100;
      365 <= next - (365 * yoe + yoe / 4 - yoe / 100) <= 366
  {
    var q4, r4 := yoe / 4, yoe % 4;
    var q100, r100 := yoe / 100, yoe % 100;
    assert (yoe + 1) / 4 == if r4 == 3 then q4 + 1 else q4;
    assert (yoe + 1) / 100 == if r100 == 99 then q100 + 1 else q100;
    assert r100 == 99 ==> r4 == 3;
  }

  /** A March-based year has 365 or 366 days. */
  lemma MarchYearLength(y: int)
    ensures 365 <= MarchYearStart(y + 1) - MarchYearStart(y) <= 366
  {
    var era, yoe := y / 400, y % 400;
    assert y == era * 400 + yoe;
    MarchYearStartOfEra(era, yoe);
    if yoe < 399 {
      assert y + 1 == era * 400 + (yoe + 1);
      MarchYearStartOfEra(era, yoe + 1);
      YearInEraLength(yoe);
    } else {
      assert y + 1 == (era + 1) * 400 + 0;
      MarchYearStartOfEra(era + 1, 0);
    }
  }

  /** Every month has 28 to 31 days. */
  lemma MonthLength(k: int)
    ensures 28 <= MonthStart(k + 1) - MonthStart(k) <= 31
  {
    MonthStartIsMarchMonthStart(k);
    MonthStartIsMarchMonthStart(k + 1);
    var j := k - 2;
    if j % 12 < 11 {
      assert (j + 1) / 12 == j / 12 && (j + 1) % 12 == j % 12 + 1;
    } else {
      assert (j + 1) / 12 == j / 12 + 1 && (j + 1) % 12 == 0;
      MarchYearLength(j / 12);
    }
  }

  /** Month-end labels strictly increase with the bin index, so ascending bins have ascending dates. */
  lemma MonthEndIncreasing(k: int, k': int)
    requires k < k'
    ensures MonthEnd(k) < MonthEnd(k')
    decreases k' - k
  {
    MonthLength(k + 1);
    if k + 1 < k' {
      MonthEndIncreasing(k + 1, k');
    }
  }

  /** The monthly bin of a day is its March-based month shifted by January and February. */
  lemma MonthIndexOfMarchDate(z: int)
    ensures MonthIndex(z) == MarchDate(z).0 + 2
  {
    var (j, d) := MarchDate(z);
    var yy, mp := j / 12, j % 12;
    assert j == 12 * yy + mp;
    var c := CivilFromDays(z);
    if mp < 10 {
      assert c.year == yy && c.month == mp + 3;
    } else {
      assert c.year == yy + 1 && c.month == mp - 9;
    }
  }

  /** Every day lies in its monthly bin: between the first and the last day of its month. */
  lemma MonthBinContainsDay(z: int)
    ensures MonthStart(MonthIndex(z)) <= z <= MonthEnd(MonthIndex(z))
  {
    var j := MarchDate(z).0;
    MonthIndexOfMarchDate(z);
    MonthStartIsMarchMonthStart(j + 2);
    MonthStartIsMarchMonthStart(j + 3);
  }

  // ---- bins of the three granularities ----

  /** The bin a day falls into. */
  function BinIndex(p: Period, d: int): int {
    match p
    case Daily => d
    case Weekly => WeekIndex(d)
    case Monthly => MonthIndex(d)
  }

  /** The date pandas labels bin k with: the day, the closing Monday, the last day of the month. */
  function BinLabel(p: Period, k: int): int {
    match p
    case Daily => k
    case Weekly => WeekEnd(k)
    case Monthly => MonthEnd(k)
  }

  /** Bin labels strictly increase with the bin index. */
  lemma BinLabelIncreasing(p: Period, k: int, k': int)
    requires k < k'
    ensures BinLabel(p, k) < BinLabel(p, k')
  {
    if p.Monthly? {
      MonthEndIncreasing(k, k');
    }
  }

  /**
   * A day falls into the first bin whose label is on or after it: the label
   * of its bin is not before it, the label of the previous bin is before it.
   */
  lemma BinIsFirstLabelOnOrAfter(p: Period, d: int)
    ensures BinLabel(p, BinIndex(p, d) - 1) < d <= BinLabel(p, BinIndex(p, d))
  {
    if p.Monthly? {
      MonthBinContainsDay(d);
    }
  }
}
