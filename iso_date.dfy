/**
 * The calendar date written by `new Date(seconds * 1000).toISOString().split('T')[0]`:
 * the UTC day of an ECMAScript time value in the proleptic Gregorian calendar,
 * written as `YYYY-MM-DD`, or `+YYYYYY-MM-DD` / `-YYYYYY-MM-DD` for years outside
 * 0..9999 (the "Expanded Years" form of ECMA-262's Date Time String Format).
 * A time value beyond 8.64e15 milliseconds is not a valid Date and makes
 * `toISOString` throw a RangeError.
 */
module IsoDate {
  import opened Wrappers

  /** Milliseconds in a day (ECMA-262's msPerDay). */
  const MsPerDay: int := 86400000

  /** The largest magnitude of a time value TimeClip accepts. */
  const MaxTimeValue: int := 8640000000000000

  /** Days from 0000-03-01 to 1970-01-01 in the proleptic Gregorian calendar. */
  const EpochShift: int := 719468

  /** Days in a 400-year cycle, a 100-year block, a 4-year block and a common year. */
  const DaysPer400: int := 146097
  const DaysPer100: int := 36524
  const DaysPer4: int := 1461
  const DaysPer1: int := 365

  datatype Civil = Civil(year: int, month: int, day: int)

  /** `toISOString` on an invalid Date throws `RangeError: Invalid time value`. */
  datatype DateError = InvalidTimeValue

  // ---------------------------------------------------------------------------
  // The Gregorian calendar, stated naively
  // ---------------------------------------------------------------------------

  predicate IsLeapYear(y: int)
  {
    y % 4 == 0 && (y % 100 != 0 || y % 400 == 0)
  }

  function DaysInMonth(y: int, m: int): int
    requires 1 <= m <= 12
  {
    if m == 2 then (if IsLeapYear(y) then 29 else 28)
    else if m == 4 || m == 6 || m == 9 || m == 11 then 30
    else 31
  }

  predicate ValidCivil(c: Civil)
  {
    1 <= c.month <= 12 && 1 <= c.day <= DaysInMonth(c.year, c.month)
  }

  /** The calendar day after `c`. */
  function NextDay(c: Civil): (n: Civil)
    requires ValidCivil(c)
    ensures ValidCivil(n)
  {
    if c.day < DaysInMonth(c.year, c.month) then Civil(c.year, c.month, c.day + 1)
    else if c.month < 12 then Civil(c.year, c.month + 1, 1)
    else Civil(c.year + 1, 1, 1)
  }

  // ---------------------------------------------------------------------------
  // Day numbers, counted in years that start on March 1 (so February is last)
  // ---------------------------------------------------------------------------

  /** March = 0, April = 1, ..., January = 10, February = 11. */
  function MarchMonth(m: int): int
    requires 1 <= m <= 12
  {
    if m > 2 then m - 3 else m + 9
  }

  /**
   * Days from March 1 to the first day of March-based month `mp`
   * (0, 31, 61, 92, 122, 153, 184, 214, 245, 275, 306, 337).
   */
  function MonthOffset(mp: int): int
    requires 0 <= mp <= 11
  {
    if mp < 6 then
      (if mp < 3 then (if mp == 0 then 0 else if mp == 1 then 31 else 61)
       else (if mp == 3 then 92 else if mp == 4 then 122 else 153))
    else
      (if mp < 9 then (if mp == 6 then 184 else if mp == 7 then 214 else 245)
       else (if mp == 9 then 275 else if mp == 10 then 306 else 337))
  }

  /** The March-based month that day-of-year `doy` falls in. */
  function MonthOfDay(doy: int): (mp: int)
    ensures 0 <= mp <= 11
  {
    if doy >= 337 then 11 else if doy >= 306 then 10 else if doy >= 275 then 9
    else if doy >= 245 then 8 else if doy >= 214 then 7 else if doy >= 184 then 6
    else if doy >= 153 then 5 else if doy >= 122 then 4 else if doy >= 92 then 3
    else if doy >= 61 then 2 else if doy >= 31 then 1 else 0
  }

  /** Days from 0000-03-01 to March 1 of the year `yp` (that year's March). */
  function MarchYearStart(yp: int): int
  {
    var era := yp / 400;
    var yoe := yp - era * 400;
    era * DaysPer400 + DaysPer1 * yoe + yoe / 4 - yoe / 100
  }

  /** Reference definition: the number of days from 1970-01-01 to `c`. */
  function DaysFromCivil(c: Civil): int
    requires 1 <= c.month <= 12
  {
    var yp := if c.month <= 2 then c.year - 1 else c.year;
    MarchYearStart(yp) + MonthOffset(MarchMonth(c.month)) + c.day - 1 - EpochShift
  }

  function Min(a: int, b: int): int { if a <= b then a else b }

  /** A day of a 400-year cycle as whole 100-, 4- and 1-year blocks and a day of the March-based year. */
  datatype CycleDay = CycleDay(c100: int, c4: int, c1: int, doy: int)

  /** The blocks are in range, and only the last year of a 4-year block that is not a century's last reaches day 365. */
  predicate ValidCycleDay(p: CycleDay)
  {
    && 0 <= p.c100 <= 3 && 0 <= p.c4 <= 24 && 0 <= p.c1 <= 3 && 0 <= p.doy <= 365
    && (p.doy == 365 ==> p.c1 == 3 && (p.c4 == 24 ==> p.c100 == 3))
  }

  /** The day of the cycle that `p` names. */
  function CycleDayCount(p: CycleDay): int
  {
    DaysPer100 * p.c100 + DaysPer4 * p.c4 + DaysPer1 * p.c1 + p.doy
  }

  /** The year of the cycle, counted from March, that `p` falls in. */
  function CycleYear(p: CycleDay): int
  {
    100 * p.c100 + 4 * p.c4 + p.c1
  }

  /** Day `doe` of a 400-year cycle split into blocks, the fourth century and fourth year absorbing the leap day. */
  function SplitCycleDay(doe: int): (p: CycleDay)
    requires 0 <= doe < DaysPer400
    ensures ValidCycleDay(p) && CycleDayCount(p) == doe
  {
    var c100 := Min(doe / DaysPer100, 3);
    var r1 := doe - DaysPer100 * c100;
    assert 0 <= r1 <= DaysPer100 && (c100 < 3 ==> r1 < DaysPer100);
    var c4 := r1 / DaysPer4;
    var r2 := r1 - DaysPer4 * c4;
    assert 0 <= c4 <= 24 && 0 <= r2 < DaysPer4;
    var c1 := Min(r2 / DaysPer1, 3);
    assert r2 - DaysPer1 * c1 == 365 ==> r2 == 4 * DaysPer1;
    CycleDay(c100, c4, c1, r2 - DaysPer1 * c1)
  }

  /** The date on day `doy` (0 = March 1) of the March-based year `yp`; its January and February lie in year `yp + 1`. */
  function CivilOfMarchDay(yp: int, doy: int): Civil
  {
    var mp := MonthOfDay(doy);
    Civil(if mp >= 10 then yp + 1 else yp, if mp < 10 then mp + 3 else mp - 9, doy - MonthOffset(mp) + 1)
  }

  /**
   * The calendar day `z` days after 1970-01-01: split the day count into
   * 400-, 100-, 4- and 1-year blocks, then find the month by table.
   */
  function CivilFromDays(z: int): Civil
  {
    var p := CycleDayOf(z);
    CivilOfMarchDay(EraOf(z) * 400 + CycleYear(p), p.doy)
  }

  /** The 400-year cycle that day number `z` falls in, counted from 0000-03-01. */
  function EraOf(z: int): int
  {
    (z + EpochShift) / DaysPer400
  }

  /** The position of day number `z` within its 400-year cycle. */
  function CycleDayOf(z: int): (p: CycleDay)
    ensures ValidCycleDay(p) && z + EpochShift == EraOf(z) * DaysPer400 + CycleDayCount(p)
  {
    SplitCycleDay(z + EpochShift - EraOf(z) * DaysPer400)
  }

  // ---------------------------------------------------------------------------
  // Quotients and remainders by the block lengths, from a witness
  // ---------------------------------------------------------------------------

  lemma DivMod4(x: int, q: int, r: int)
    requires x == 4 * q + r && 0 <= r < 4
    ensures x / 4 == q && x % 4 == r
  {
  }

  lemma DivMod100(x: int, q: int, r: int)
    requires x == 100 * q + r && 0 <= r < 100
    ensures x / 100 == q && x % 100 == r
  {
  }

  lemma DivMod400(x: int, q: int, r: int)
    requires x == 400 * q + r && 0 <= r < 400
    ensures x / 400 == q && x % 400 == r
  {
  }

  /** Incrementing `x` bumps its quotient by 4 and by 100 exactly when it reaches a multiple. */
  lemma {:induction false} QuotientStep(x: int)
    ensures (x + 1) / 4 == x / 4 + (if (x + 1) % 4 == 0 then 1 else 0)
    ensures (x + 1) / 100 == x / 100 + (if (x + 1) % 100 == 0 then 1 else 0)
  {
    var q, r := x / 4, x % 4;
    if r == 3 { DivMod4(x + 1, q + 1, 0); } else { DivMod4(x + 1, q, r + 1); }
    var q', r' := x / 100, x % 100;
    if r' == 99 { DivMod100(x + 1, q' + 1, 0); } else { DivMod100(x + 1, q', r' + 1); }
  }

  /** Leap years repeat every 400 years. */
  lemma LeapYearInCycle(era: int, yoe: int)
    requires 0 <= yoe < 400
    ensures IsLeapYear(era * 400 + yoe) <==> IsLeapYear(yoe)
  {
    var y := era * 400 + yoe;
    DivMod400(y, era, yoe);
    DivMod100(y, 4 * era + yoe / 100, yoe % 100);
    DivMod4(y, 100 * era + yoe / 4, yoe % 4);
  }

  /** The year after the last year of a 4-year block is a leap year when the block does not end a century short of the cycle. */
  lemma LeapYearAtBlockEnd(era: int, c100: int, c4: int)
    requires 0 <= c100 <= 3 && 0 <= c4 <= 24
    requires c4 == 24 ==> c100 == 3
    ensures IsLeapYear(era * 400 + 100 * c100 + 4 * c4 + 4)
  {
    if c4 == 24 {
      LeapYearInCycle(era + 1, 0);
    } else {
      var yoe := 100 * c100 + 4 * (c4 + 1);
      LeapYearInCycle(era, yoe);
      DivMod4(yoe, 25 * c100 + c4 + 1, 0);
      DivMod100(yoe, c100, 4 * (c4 + 1));
    }
  }

  /** A leap year within the cycle directly follows the last year of a 4-year block that does not end a century. */
  lemma LeapYearAfterBlocks(c100: int, c4: int, c1: int)
    requires 0 <= c100 <= 3 && 0 <= c4 <= 24 && 0 <= c1 <= 3
    requires 100 * c100 + 4 * c4 + c1 + 1 < 400
    ensures IsLeapYear(100 * c100 + 4 * c4 + c1 + 1) ==> c1 == 3 && c4 < 24
  {
    var y := 100 * c100 + 4 * c4 + c1 + 1;
    if c1 < 3 {
      DivMod4(y, 25 * c100 + c4, c1 + 1);
    } else if c4 == 24 {
      DivMod100(y, c100 + 1, 0);
      DivMod400(y, 0, y);
    }
  }

  // ---------------------------------------------------------------------------
  // Properties of the day-number conversion
  // ---------------------------------------------------------------------------

  /** The block decomposition used by CivilFromDays, exposed for the proofs. */
  lemma CivilFromDaysParts(z: int) returns (era: int, p: CycleDay)
    ensures ValidCycleDay(p)
    ensures z + EpochShift == era * DaysPer400 + CycleDayCount(p)
    ensures CivilFromDays(z) == CivilOfMarchDay(era * 400 + CycleYear(p), p.doy)
  {
    era, p := EraOf(z), CycleDayOf(z);
  }

  /** The day of the month derived from a March-based day of year fits its month. */
  lemma MonthOfDayBounds(doy: int)
    requires 0 <= doy <= 365
    ensures var mp := MonthOfDay(doy);
            var m := if mp < 10 then mp + 3 else mp - 9;
            var d := doy - MonthOffset(mp) + 1;
            && 1 <= d
            && (m != 2 ==> d <= DaysInMonth(1, m))
            && (m == 2 ==> d <= 29 && (d == 29 ==> doy == 365))
  {
  }

  /** Every day number names a valid calendar date. */
  lemma CivilFromDaysValid(z: int)
    ensures ValidCivil(CivilFromDays(z))
  {
    var era, p := CivilFromDaysParts(z);
    MonthOfDayBounds(p.doy);
    if p.doy == 365 {
      LeapYearAtBlockEnd(era, p.c100, p.c4);
    }
  }

  /** March 1 of the year a decomposition falls in lies `doy` days before the day it names. */
  lemma MarchYearStartOfParts(era: int, p: CycleDay)
    requires ValidCycleDay(p)
    ensures MarchYearStart(era * 400 + CycleYear(p)) + p.doy == era * DaysPer400 + CycleDayCount(p)
  {
    var yoe := CycleYear(p);
    DivMod400(era * 400 + yoe, era, yoe);
    DivMod4(yoe, 25 * p.c100 + p.c4, p.c1);
    DivMod100(yoe, p.c100, 4 * p.c4 + p.c1);
  }

  /** The date on day `doy` of a March-based year has that year's start plus `doy` as its day number. */
  lemma DaysFromCivilOfMarchDay(yp: int, doy: int)
    requires 0 <= doy <= 365
    ensures 1 <= CivilOfMarchDay(yp, doy).month <= 12
    ensures DaysFromCivil(CivilOfMarchDay(yp, doy)) == MarchYearStart(yp) + doy - EpochShift
  {
    var c := CivilOfMarchDay(yp, doy);
    assert MarchMonth(c.month) == MonthOfDay(doy);
  }

  /** Round trip: the date CivilFromDays picks has day number `z`. */
  lemma CivilFromDaysRoundTrip(z: int)
    ensures DaysFromCivil(CivilFromDays(z)) == z
  {
    var era, p := CivilFromDaysParts(z);
    DaysFromCivilOfCycleDay(era, p);
  }

  /** The date a decomposition names has the day number the decomposition counts. */
  lemma DaysFromCivilOfCycleDay(era: int, p: CycleDay)
    requires ValidCycleDay(p)
    ensures DaysFromCivil(CivilOfMarchDay(era * 400 + CycleYear(p), p.doy)) + EpochShift
         == era * DaysPer400 + CycleDayCount(p)
  {
    MarchYearStartOfParts(era, p);
    DaysFromCivilOfMarchDay(era * 400 + CycleYear(p), p.doy);
  }

  /** The day of a valid date counted from March 1, and the month that day falls in. */
  lemma DayOfMarchYear(c: Civil) returns (doy: int)
    requires ValidCivil(c)
    ensures doy == MonthOffset(MarchMonth(c.month)) + c.day - 1
    ensures 0 <= doy <= 365 && MonthOfDay(doy) == MarchMonth(c.month)
    ensures doy == 365 ==> c.month == 2 && c.day == 29 && IsLeapYear(c.year)
    ensures var yp := if c.month <= 2 then c.year - 1 else c.year;
            && CivilOfMarchDay(yp, doy) == c
            && DaysFromCivil(c) == MarchYearStart(yp) + doy - EpochShift
  {
    doy := MonthOffset(MarchMonth(c.month)) + c.day - 1;
  }

  /** The block decomposition of a valid date, the converse direction. */
  lemma DaysFromCivilParts(c: Civil) returns (era: int, p: CycleDay)
    requires ValidCivil(c)
    ensures ValidCycleDay(p)
    ensures CivilOfMarchDay(era * 400 + CycleYear(p), p.doy) == c
    ensures DaysFromCivil(c) + EpochShift == era * DaysPer400 + CycleDayCount(p)
  {
    var yp := if c.month <= 2 then c.year - 1 else c.year;
    era := yp / 400;
    var yoe := yp - era * 400;
    var c100 := yoe / 100;
    var rest := yoe - 100 * c100;
    var c4 := rest / 4;
    var c1 := rest - 4 * c4;
    var doy := DayOfMarchYear(c);
    if doy == 365 {
      if yoe == 399 {
        assert c100 == 3 && c4 == 24 && c1 == 3;
      } else {
        LeapYearInCycle(era, yoe + 1);
        LeapYearAfterBlocks(c100, c4, c1);
      }
    }
    p := CycleDay(c100, c4, c1, doy);
    MarchYearStartOfParts(era, p);
  }

  /** A day of the cycle has one block decomposition. */
  lemma DecompositionUnique(p: CycleDay, p': CycleDay)
    requires ValidCycleDay(p) && ValidCycleDay(p')
    requires CycleDayCount(p) == CycleDayCount(p')
    ensures p == p'
  {
    assert p.c100 == p'.c100 by {
      if p.c100 < 3 { assert DaysPer4 * p.c4 + DaysPer1 * p.c1 + p.doy < DaysPer100; }
      if p'.c100 < 3 { assert DaysPer4 * p'.c4 + DaysPer1 * p'.c1 + p'.doy < DaysPer100; }
    }
    assert p.c4 == p'.c4;
    assert p.c1 == p'.c1;
  }

  /** Two decompositions of the same day number agree on the cycle and on the blocks. */
  lemma SameCycleDay(era: int, p: CycleDay, era': int, p': CycleDay)
    requires ValidCycleDay(p) && ValidCycleDay(p')
    requires era * DaysPer400 + CycleDayCount(p) == era' * DaysPer400 + CycleDayCount(p')
    ensures era == era' && p == p'
  {
    assert 0 <= CycleDayCount(p) < DaysPer400 && 0 <= CycleDayCount(p') < DaysPer400;
    assert era == era';
    DecompositionUnique(p, p');
  }

  /** Round trip: every valid date is the one CivilFromDays gives for its day number. */
  lemma DaysFromCivilRoundTrip(c: Civil)
    requires ValidCivil(c)
    ensures CivilFromDays(DaysFromCivil(c)) == c
  {
    var era, p := DaysFromCivilParts(c);
    CivilFromDaysOfParts(DaysFromCivil(c), era, p);
  }

  /** Any decomposition of a day number is the one CivilFromDays uses. */
  lemma CivilFromDaysOfParts(z: int, era: int, p: CycleDay)
    requires ValidCycleDay(p) && z + EpochShift == era * DaysPer400 + CycleDayCount(p)
    ensures CivilFromDays(z) == CivilOfMarchDay(era * 400 + CycleYear(p), p.doy)
  {
    var era', p' := CivilFromDaysParts(z);
    SameCycleDay(era, p, era', p');
  }

  /** Day numbers count consecutive calendar days. */
  lemma DaysFromCivilNextDay(c: Civil)
    requires ValidCivil(c)
    ensures DaysFromCivil(NextDay(c)) == DaysFromCivil(c) + 1
  {
    if c.day == DaysInMonth(c.year, c.month) && c.month == 2 {
      MarchYearStartNext(c.year - 1);
    }
  }

  /** A March-based year has 366 days exactly when its February is a leap February. */
  lemma MarchYearStartNext(yp: int)
    ensures MarchYearStart(yp + 1) == MarchYearStart(yp) + 365 + (if IsLeapYear(yp + 1) then 1 else 0)
  {
    var era := yp / 400;
    var yoe := yp - era * 400;
    if yoe == 399 {
      DivMod400(yp + 1, era + 1, 0);
      LeapYearInCycle(era + 1, 0);
    } else {
      DivMod400(yp + 1, era, yoe + 1);
      LeapYearInCycle(era, yoe + 1);
      QuotientStep(yoe);
      DivMod400(yoe + 1, 0, yoe + 1);
      if (yoe + 1) % 100 == 0 {
        DivMod4(yoe + 1, 25 * ((yoe + 1) / 100), 0);
      }
    }
  }

  lemma EpochIsDayZero()
    ensures CivilFromDays(0) == Civil(1970, 1, 1)
  {
  }

  // ---------------------------------------------------------------------------
  // Decimal fields
  // ---------------------------------------------------------------------------

  function DigitChar(d: int): char
    requires 0 <= d <= 9
  {
    (('0' as int) + d) as char
  }

  /** The decimal digits of `n`, left-padded with zeros to at least `width` characters. */
  function Digits(n: nat, width: nat): string
    decreases n + width
  {
    if n < 10 && width <= 1 then [DigitChar(n)]
    else Digits(n / 10, if width > 0 then width - 1 else 0) + [DigitChar(n % 10)]
  }

  function Pow10(k: nat): nat
  {
    if k == 0 then 1 else 10 * Pow10(k - 1)
  }

  predicate IsDigit(ch: char) { '0' <= ch <= '9' }

  function ParseNat(s: string): int
  {
    if s == [] then 0 else 10 * ParseNat(s[..|s| - 1]) + ((s[|s| - 1] as int) - ('0' as int))
  }

  /** A number below 10^width is written in exactly `width` digits, which read back as the number. */
  lemma {:induction false} DigitsRoundTrip(n: nat, width: nat)
    requires 1 <= width && n < Pow10(width)
    ensures |Digits(n, width)| == width
    ensures forall i :: 0 <= i < width ==> IsDigit(Digits(n, width)[i])
    ensures ParseNat(Digits(n, width)) == n
  {
    if width > 1 {
      var s := Digits(n / 10, width - 1);
      DigitsRoundTrip(n / 10, width - 1);
      var t := s + [DigitChar(n % 10)];
      assert t[..|t| - 1] == s;
    }
  }

  // ---------------------------------------------------------------------------
  // The ISO 8601 date string
  // ---------------------------------------------------------------------------

  function YearField(y: int): string
  {
    if 0 <= y <= 9999 then Digits(y, 4)
    else if y < 0 then "-" + Digits(-y, 6)
    else "+" + Digits(y, 6)
  }

  function FormatDate(c: Civil): string
    requires ValidCivil(c)
  {
    YearField(c.year) + "-" + Digits(c.month, 2) + "-" + Digits(c.day, 2)
  }

  /** Reads back a 10-character `YYYY-MM-DD` string. */
  function ParseDate(s: string): Option<Civil>
  {
    if |s| == 10 && s[4] == '-' && s[7] == '-'
       && (forall i :: 0 <= i < 10 && i != 4 && i != 7 ==> IsDigit(s[i]))
    then Some(Civil(ParseNat(s[..4]), ParseNat(s[5..7]), ParseNat(s[8..])))
    else None
  }

  /** Round trip: a date in years 0..9999 is written in 10 characters that read back as that date. */
  lemma FormatDateRoundTrip(c: Civil)
    requires ValidCivil(c) && 0 <= c.year <= 9999
    ensures |FormatDate(c)| == 10
    ensures ParseDate(FormatDate(c)) == Some(c)
  {
    DigitsRoundTrip(c.year, 4);
    DigitsRoundTrip(c.month, 2);
    DigitsRoundTrip(c.day, 2);
    var y, m, d := Digits(c.year, 4), Digits(c.month, 2), Digits(c.day, 2);
    var s := FormatDate(c);
    assert s == y + "-" + m + "-" + d;
    assert s[..4] == y;
    assert s[5..7] == m;
    assert s[8..] == d;
  }

  // ---------------------------------------------------------------------------
  // From a Unix timestamp in seconds
  // ---------------------------------------------------------------------------

  /** `new Date(ts * 1000)` holds a valid time value. */
  predicate ValidTimestamp(ts: int)
  {
    -MaxTimeValue <= ts * 1000 <= MaxTimeValue
  }

  /** `new Date(ts * 1000).toISOString().split('T')[0]`. */
  function DateOfTimestamp(ts: int): (r: Result<string, DateError>)
    ensures r.Failure? <==> ts < -8640000000000 || ts > 8640000000000
    ensures r.Failure? <==> !ValidTimestamp(ts)
  {
    var ms := ts * 1000;
    if ms < -MaxTimeValue || ms > MaxTimeValue then Failure(InvalidTimeValue)
    else
      var day := ms / MsPerDay;
      CivilFromDaysValid(day);
      Success(FormatDate(CivilFromDays(day)))
  }

  /**
   * The date written for a valid timestamp is the calendar day whose day number is
   * floor(ts / 86400), in the 10-character form when its year is in 0..9999.
   */
  lemma DateOfTimestampIsUtcDay(ts: int, c: Civil)
    requires ValidTimestamp(ts)
    requires ValidCivil(c) && DaysFromCivil(c) == ts / 86400
    requires 0 <= c.year <= 9999
    ensures DateOfTimestamp(ts).Success?
    ensures |DateOfTimestamp(ts).value| == 10
    ensures ParseDate(DateOfTimestamp(ts).value) == Some(c)
  {
    assert (ts * 1000) / MsPerDay == ts / 86400;
    DaysFromCivilRoundTrip(c);
    FormatDateRoundTrip(c);
  }

  /**
   * Every valid timestamp is written as `YYYY-MM-DD` when its year is in 0..9999 and
   * as the 13-character expanded form `+YYYYYY-MM-DD` / `-YYYYYY-MM-DD` otherwise.
   */
  lemma DateOfTimestampLength(ts: int)
    requires ValidTimestamp(ts)
    ensures DateOfTimestamp(ts).Success?
    ensures var c := CivilFromDays((ts * 1000) / MsPerDay);
            |DateOfTimestamp(ts).value| == if 0 <= c.year <= 9999 then 10 else 13
  {
    var z := (ts * 1000) / MsPerDay;
    assert -100000000 <= z <= 100000000;
    YearsOfValidDays(z);
    CivilFromDaysValid(z);
    FormatDateLength(CivilFromDays(z));
  }

  /** The days a valid time value can fall on lie within years -999999..999999. */
  lemma YearsOfValidDays(z: int)
    requires -100000000 <= z <= 100000000
    ensures -999999 <= CivilFromDays(z).year <= 999999
  {
    var era, p := CivilFromDaysParts(z);
    assert -1000 <= era <= 1000;
  }

  lemma FormatDateLength(c: Civil)
    requires ValidCivil(c) && -999999 <= c.year <= 999999
    ensures |FormatDate(c)| == if 0 <= c.year <= 9999 then 10 else 13
  {
    assert Pow10(6) == 1000000;
    if 0 <= c.year <= 9999 {
      DigitsRoundTrip(c.year, 4);
    } else if c.year < 0 {
      DigitsRoundTrip(-c.year, 6);
    } else {
      DigitsRoundTrip(c.year, 6);
    }
    DigitsRoundTrip(c.month, 2);
    DigitsRoundTrip(c.day, 2);
  }

  /** 2023-11-14T22:13:20Z is written as its date part. */
  lemma DateOfTimestampExample()
    ensures DateOfTimestamp(1700000000) == Success("2023-11-14")
  {
    assert (1700000000 * 1000) / MsPerDay == 19675;
    DayNumberExample(Civil(2023, 11, 14), 19675);
    FormatDateExample2023();
  }

  /** A second before the epoch falls on the previous UTC day. */
  lemma DateOfTimestampBeforeEpoch()
    ensures DateOfTimestamp(-1) == Success("1969-12-31")
  {
    assert (-1 * 1000) / MsPerDay == -1;
    DayNumberExample(Civil(1969, 12, 31), -1);
    FormatDateExample1969();
  }

  /** The written forms of the two example dates. */
  lemma FormatDateExample2023()
    ensures FormatDate(Civil(2023, 11, 14)) == "2023-11-14"
  {
    var y, m, d := YearField(2023), Digits(11, 2), Digits(14, 2);
    assert y == "2023" by {
      assert Digits(20, 2) == "20";
      assert Digits(202, 3) == "202";
    }
    assert m == "11";
    assert d == "14";
    assert FormatDate(Civil(2023, 11, 14)) == y + "-" + m + "-" + d;
    assert "2023" + "-" + "11" + "-" + "14" == "2023-11-14";
  }

  lemma FormatDateExample1969()
    ensures FormatDate(Civil(1969, 12, 31)) == "1969-12-31"
  {
    var y, m, d := YearField(1969), Digits(12, 2), Digits(31, 2);
    assert y == "1969" by {
      assert Digits(19, 2) == "19";
      assert Digits(196, 3) == "196";
    }
    assert m == "12";
    assert d == "31";
    assert FormatDate(Civil(1969, 12, 31)) == y + "-" + m + "-" + d;
    assert "1969" + "-" + "12" + "-" + "31" == "1969-12-31";
  }

  /** A valid date with day number `z` is the date CivilFromDays gives for `z`. */
  lemma DayNumberExample(c: Civil, z: int)
    requires ValidCivil(c) && DaysFromCivil(c) == z
    ensures CivilFromDays(z) == c
  {
    DaysFromCivilRoundTrip(c);
  }
}
