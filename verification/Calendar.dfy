/** Days to civil dates (src/email.rs), against the proleptic Gregorian calendar. */
module Calendar {

  datatype Date = Date(y: int, m: int, d: int)

  // ---------------------------------------------------------------- the algorithm

  /** Integer division as in Rust: the quotient is truncated toward zero. */
  function TruncDiv(a: int, b: int): int
    requires b > 0
  {
    if a >= 0 then a / b else -((-a) / b)
  }

  function Era(z: int): int {
    TruncDiv(if z >= 0 then z else z - 146096, 146097)
  }

  function YearOfEra(doe: int): int {
    TruncDiv(doe - TruncDiv(doe, 1460) + TruncDiv(doe, 36524) - TruncDiv(doe, 146096), 365)
  }

  /** First day of a year (starting in March) within its era. */
  function YearStart(yoe: int): int {
    365 * yoe + TruncDiv(yoe, 4) - TruncDiv(yoe, 100)
  }

  /** Day `doy` of the year that starts in March of `y`. */
  function MarchDate(y: int, doy: int): Date {
    var mp := TruncDiv(5 * doy + 2, 153);
    var d := doy - TruncDiv(153 * mp + 2, 5) + 1;
    var m := if mp < 10 then mp + 3 else mp - 9;
    Date(if m <= 2 then y + 1 else y, m, d)
  }

  function EraDate(era: int, doe: int): Date {
    var yoe := YearOfEra(doe);
    MarchDate(yoe + era * 400, doe - YearStart(yoe))
  }

  function CivilFromDays(day: int): Date {
    var z := day + 719468;
    var era := Era(z);
    EraDate(era, z - era * 146097)
  }

  // ---------------------------------------------------------------- the calendar

  predicate IsLeap(y: int) {
    y % 4 == 0 && (y % 100 != 0 || y % 400 == 0)
  }

  function Leap(y: int): int { if IsLeap(y) then 1 else 0 }

  function DaysInMonth(y: int, m: int): int {
    if m == 2 then 28 + Leap(y)
    else if m == 4 || m == 6 || m == 9 || m == 11 then 30
    else 31
  }

  predicate Valid(v: Date) {
    1 <= v.m <= 12 && 1 <= v.d <= DaysInMonth(v.y, v.m)
  }

  function NextDate(v: Date): Date {
    if v.d < DaysInMonth(v.y, v.m) then Date(v.y, v.m, v.d + 1)
    else if v.m < 12 then Date(v.y, v.m + 1, 1)
    else Date(v.y + 1, 1, 1)
  }

  /** Days from 0000-01-01 to the first of January of `y`. */
  function DaysBeforeYear(y: int): int {
    365 * y + (y + 3) / 4 - (y + 99) / 100 + (y + 399) / 400
  }

  function DaysBeforeMonth(y: int, m: int): int
    requires 1 <= m <= 12
  {
    if m == 1 then 0 else DaysBeforeMonth(y, m - 1) + DaysInMonth(y, m - 1)
  }

  /** The day count of a date, 1970-01-01 being day 0. */
  function DayNumber(v: Date): int
    requires Valid(v)
  {
    DaysBeforeYear(v.y) + DaysBeforeMonth(v.y, v.m) + v.d - 1 - 719528
  }

  // ---------------------------------------------------------------- eras and years

  lemma EraIsFloor(z: int)
    ensures Era(z) == z / 146097
  {
  }

  /** The century of the year found is the century of the day. */
  lemma CenturyOfYear(doe: int, a: int, b: int, c: int, y: int, h: int)
    requires 0 <= doe <= 146096 && 1460 * a <= doe < 1460 * (a + 1)
    requires 36524 * b <= doe < 36524 * (b + 1) && (c == if doe == 146096 then 1 else 0)
    requires 365 * y <= doe - a + b - c < 365 * (y + 1) && 100 * h <= y < 100 * (h + 1)
    ensures 0 <= y < 400 && h == if b == 4 then 3 else b
  {
    if b == 0 {} else if b == 1 {} else if b == 2 {} else if b == 3 {} else {}
  }

  /** The linear part of the year formula: `a` four-year blocks, `b` centuries and `c`
      eras are corrected for; `q` and `h` are the year divided by 4 and by 100. */
  lemma YearBounds(doe: int, a: int, b: int, c: int, y: int, q: int, h: int)
    requires 0 <= doe <= 146096 && 1460 * a <= doe < 1460 * (a + 1)
    requires 36524 * b <= doe < 36524 * (b + 1) && (c == if doe == 146096 then 1 else 0)
    requires 365 * y <= doe - a + b - c < 365 * (y + 1)
    requires 4 * q <= y < 4 * (q + 1) && 100 * h <= y < 100 * (h + 1)
    ensures 0 <= y < 400 && 0 <= doe - (365 * y + q - h)
    ensures doe - (365 * y + q - h) <= (if y % 4 == 3 && (y % 100 != 99 || y == 399) then 365 else 364)
  {
    CenturyOfYear(doe, a, b, c, y, h);
    if b == 0 {} else if b == 1 {} else if b == 2 {} else if b == 3 {} else {}
  }

  lemma YearOfEraCorrect(doe: int)
    requires 0 <= doe < 146097
    ensures var y := YearOfEra(doe);
      && 0 <= y < 400 && YearStart(y) <= doe
      && doe - YearStart(y) <= (if y % 4 == 3 && (y % 100 != 99 || y == 399) then 365 else 364)
  {
    var y := YearOfEra(doe);
    YearBounds(doe, doe / 1460, doe / 36524, doe / 146096, y, y / 4, y / 100);
  }

  lemma Step4(y: int)
    ensures (y + 4) / 4 == y / 4 + 1 && (y + 3) / 4 == y / 4 + if y % 4 == 0 then 0 else 1
  {
  }

  lemma Step100(y: int)
    ensures (y + 100) / 100 == y / 100 + 1 && (y + 99) / 100 == y / 100 + if y % 100 == 0 then 0 else 1
  {
  }

  lemma Step400(y: int)
    ensures (y + 400) / 400 == y / 400 + 1 && (y + 399) / 400 == y / 400 + if y % 400 == 0 then 0 else 1
  {
  }

  lemma MultiplesNest(y: int)
    ensures y % 400 == 0 ==> y % 100 == 0
    ensures y % 100 == 0 ==> y % 4 == 0
  {
  }

  /** Leap days up to the first of March of `y`, counted from 0000-03-01. */
  lemma MarchFirst(y: int)
    ensures DaysBeforeYear(y) + 59 + Leap(y) == 60 + 365 * y + y / 4 - y / 100 + y / 400
    ensures DaysBeforeYear(y + 1) == DaysBeforeYear(y) + 365 + Leap(y)
  {
    Step4(y);
    Step100(y);
    Step400(y);
    MultiplesNest(y);
    YearForms(y, y / 4, y / 100, y / 400);
  }

  /** The linear part of the argument, with the quotients as plain numbers. */
  lemma YearForms(y: int, q4: int, q100: int, q400: int)
    requires (y + 4) / 4 == q4 + 1 && (y + 3) / 4 == q4 + if y % 4 == 0 then 0 else 1
    requires (y + 100) / 100 == q100 + 1 && (y + 99) / 100 == q100 + if y % 100 == 0 then 0 else 1
    requires (y + 400) / 400 == q400 + 1 && (y + 399) / 400 == q400 + if y % 400 == 0 then 0 else 1
    requires (y % 400 == 0 ==> y % 100 == 0) && (y % 100 == 0 ==> y % 4 == 0)
    ensures DaysBeforeYear(y) + 59 + Leap(y) == 60 + 365 * y + q4 - q100 + q400
    ensures DaysBeforeYear(y + 1) == DaysBeforeYear(y) + 365 + Leap(y)
  {
    assert DaysBeforeYear(y + 1) == 365 * (y + 1) + (y + 4) / 4 - (y + 100) / 100 + (y + 400) / 400;
  }

  lemma EraShift(yoe: int, era: int)
    requires 0 <= yoe <= 400
    ensures (yoe + era * 400) / 4 == yoe / 4 + 100 * era && (yoe + era * 400) % 4 == yoe % 4
    ensures (yoe + era * 400) / 100 == yoe / 100 + 4 * era && (yoe + era * 400) % 100 == yoe % 100
    ensures (yoe + era * 400) / 400 == yoe / 400 + era && (yoe + era * 400) % 400 == yoe % 400
  {
  }

  /** A year starting in March is 366 days long when it ends in a leap February. */
  lemma MarchYear(yoe: int, era: int)
    requires 0 <= yoe < 400
    ensures var y := yoe + era * 400; 365 * y + y / 4 - y / 100 + y / 400 == 146097 * era + YearStart(yoe)
    ensures YearStart(yoe + 1) + (if yoe == 399 then 1 else 0) - YearStart(yoe) == 365 + Leap(yoe + era * 400 + 1)
  {
    EraShift(yoe, era);
    EraShift(yoe + 1, era);
    assert yoe + 1 + era * 400 == yoe + era * 400 + 1;
    assert Leap(yoe + era * 400 + 1) == Leap(yoe + 1);
    YearLength(yoe);
  }

  lemma YearLength(yoe: int)
    requires 0 <= yoe < 400
    ensures YearStart(yoe + 1) + (if yoe == 399 then 1 else 0) - YearStart(yoe) == 365 + Leap(yoe + 1)
  {
    Step4(yoe - 3);
    Step100(yoe - 99);
  }

  // ---------------------------------------------------------------- months

  function MonthStart(mp: int): int { TruncDiv(153 * mp + 2, 5) }

  /** The month formula hits a month that starts on or before the day and ends after it. */
  lemma MonthCorrect(doy: int)
    requires 0 <= doy <= 365
    ensures var mp := TruncDiv(5 * doy + 2, 153);
      0 <= mp <= 11 && MonthStart(mp) <= doy && (mp < 11 ==> doy < MonthStart(mp + 1))
  {
  }

  /** Months counted from March agree with the calendar. */
  lemma MonthTable(y: int, mp: int)
    requires 0 <= mp <= 11
    ensures mp < 10 ==>
      && DaysBeforeMonth(y, mp + 3) == 59 + Leap(y) + MonthStart(mp)
      && MonthStart(mp + 1) - MonthStart(mp) == DaysInMonth(y, mp + 3)
    ensures mp == 10 ==>
      DaysBeforeMonth(y, 1) == 0 && MonthStart(10) == 306 && MonthStart(11) == 337 && DaysInMonth(y, 1) == 31
    ensures mp == 11 ==> DaysBeforeMonth(y, 2) == 31 && MonthStart(11) == 337
  {
    MonthPrefix(y);
  }

  lemma MonthPrefix(y: int)
    ensures DaysBeforeMonth(y, 1) == 0 && DaysBeforeMonth(y, 2) == 31 && DaysBeforeMonth(y, 3) == 59 + Leap(y)
    ensures DaysBeforeMonth(y, 4) == 90 + Leap(y) && DaysBeforeMonth(y, 5) == 120 + Leap(y)
    ensures DaysBeforeMonth(y, 6) == 151 + Leap(y) && DaysBeforeMonth(y, 7) == 181 + Leap(y)
    ensures DaysBeforeMonth(y, 8) == 212 + Leap(y) && DaysBeforeMonth(y, 9) == 243 + Leap(y)
    ensures DaysBeforeMonth(y, 10) == 273 + Leap(y) && DaysBeforeMonth(y, 11) == 304 + Leap(y)
    ensures DaysBeforeMonth(y, 12) == 334 + Leap(y)
  {
    assert DaysBeforeMonth(y, 1) == 0;
    assert DaysBeforeMonth(y, 2) == 31;
    assert DaysBeforeMonth(y, 3) == 59 + Leap(y);
    assert DaysBeforeMonth(y, 4) == 90 + Leap(y);
    assert DaysBeforeMonth(y, 5) == 120 + Leap(y);
    assert DaysBeforeMonth(y, 6) == 151 + Leap(y);
    assert DaysBeforeMonth(y, 7) == 181 + Leap(y);
    assert DaysBeforeMonth(y, 8) == 212 + Leap(y);
    assert DaysBeforeMonth(y, 9) == 243 + Leap(y);
    assert DaysBeforeMonth(y, 10) == 273 + Leap(y);
    assert DaysBeforeMonth(y, 11) == 304 + Leap(y);
  }

  // ---------------------------------------------------------------- main results

  lemma FromMarch(y: int, doy: int)
    requires 0 <= doy <= 364 + Leap(y + 1)
    ensures Valid(MarchDate(y, doy))
    ensures DayNumber(MarchDate(y, doy)) == 365 * y + y / 4 - y / 100 + y / 400 + doy - 719468
  {
    MonthCorrect(doy);
    var mp := TruncDiv(5 * doy + 2, 153);
    var v := MarchDate(y, doy);
    MarchFirst(y);
    MonthTable(v.y, mp);
  }

  lemma EraDateCounts(era: int, doe: int)
    requires 0 <= doe < 146097
    ensures Valid(EraDate(era, doe)) && DayNumber(EraDate(era, doe)) == 146097 * era + doe - 719468
  {
    YearOfEraCorrect(doe);
    YearDateCounts(era, doe, YearOfEra(doe));
  }

  lemma YearDateCounts(era: int, doe: int, yoe: int)
    requires 0 <= yoe < 400 && YearStart(yoe) <= doe
    requires doe - YearStart(yoe) <= (if yoe % 4 == 3 && (yoe % 100 != 99 || yoe == 399) then 365 else 364)
    ensures var v := MarchDate(yoe + era * 400, doe - YearStart(yoe));
      Valid(v) && DayNumber(v) == 146097 * era + doe - 719468
  {
    MarchYear(yoe, era);
    YearEnds(yoe, era);
    FromMarch(yoe + era * 400, doe - YearStart(yoe));
  }

  lemma YearEnds(yoe: int, era: int)
    requires 0 <= yoe < 400
    ensures Leap(yoe + era * 400 + 1) == if yoe % 4 == 3 && (yoe % 100 != 99 || yoe == 399) then 1 else 0
  {
    EraShift(yoe + 1, era);
    assert yoe + 1 + era * 400 == yoe + era * 400 + 1;
  }

  /** Every day is a valid date whose day count is the day: the algorithm is a right inverse. */
  lemma DayNumberOfCivil(day: int)
    ensures Valid(CivilFromDays(day)) && DayNumber(CivilFromDays(day)) == day
  {
    var z := day + 719468;
    EraIsFloor(z);
    var era := Era(z);
    EraDateCounts(era, z - era * 146097);
  }

  // ---------------------------------------------------------------- the other direction

  predicate Before(v: Date, w: Date) {
    v.y < w.y || (v.y == w.y && (v.m < w.m || (v.m == w.m && v.d < w.d)))
  }

  lemma {:induction false} YearsIncrease(y: int, k: nat)
    ensures DaysBeforeYear(y + 1) <= DaysBeforeYear(y + 1 + k)
    decreases k
  {
    if k > 0 {
      YearsIncrease(y, k - 1);
      MarchFirst(y + k);
    }
  }

  lemma {:induction false} MonthsIncrease(y: int, m: int, n: int)
    requires 1 <= m < n <= 12
    ensures DaysBeforeMonth(y, m) + DaysInMonth(y, m) <= DaysBeforeMonth(y, n)
    decreases n
  {
    if m + 1 < n {
      MonthsIncrease(y, m, n - 1);
    }
  }

  lemma DayOfYear(v: Date)
    requires Valid(v)
    ensures 0 <= DaysBeforeMonth(v.y, v.m) + v.d - 1 < 365 + Leap(v.y)
  {
    MonthPrefix(v.y);
  }

  /** The day count is strictly increasing in calendar order. */
  lemma DayNumberIncreases(v: Date, w: Date)
    requires Valid(v) && Valid(w) && Before(v, w)
    ensures DayNumber(v) < DayNumber(w)
  {
    if v.y < w.y {
      YearsIncrease(v.y, w.y - v.y - 1);
      MarchFirst(v.y);
      DayOfYear(v);
      DayOfYear(w);
      LaterYear(DaysBeforeYear(v.y), DaysBeforeYear(v.y + 1), DaysBeforeYear(w.y), v, w);
    } else if v.m < w.m {
      MonthsIncrease(v.y, v.m, w.m);
    }
  }

  lemma LaterYear(b: int, b1: int, c: int, v: Date, w: Date)
    requires Valid(v) && Valid(w) && b == DaysBeforeYear(v.y) && c == DaysBeforeYear(w.y)
    requires b1 == b + 365 + Leap(v.y) && b1 <= c
    requires DaysBeforeMonth(v.y, v.m) + v.d - 1 < 365 + Leap(v.y) && 0 <= DaysBeforeMonth(w.y, w.m) + w.d - 1
    ensures DayNumber(v) < DayNumber(w)
  {
    assert DayNumber(v) == b + DaysBeforeMonth(v.y, v.m) + v.d - 1 - 719528;
    assert DayNumber(w) == c + DaysBeforeMonth(w.y, w.m) + w.d - 1 - 719528;
  }

  /** Left inverse: the algorithm recovers every valid date from its day count. */
  lemma CivilOfDayNumber(v: Date)
    requires Valid(v)
    ensures CivilFromDays(DayNumber(v)) == v
  {
    DayNumberOfCivil(DayNumber(v));
    SameCount(v, CivilFromDays(DayNumber(v)));
  }

  lemma SameCount(v: Date, w: Date)
    requires Valid(v) && Valid(w) && DayNumber(v) == DayNumber(w)
    ensures v == w
  {
    if Before(v, w) {
      DayNumberIncreases(v, w);
    } else if Before(w, v) {
      DayNumberIncreases(w, v);
    }
  }

  lemma NextDateCounts(v: Date)
    requires Valid(v)
    ensures Valid(NextDate(v)) && DayNumber(NextDate(v)) == DayNumber(v) + 1
  {
    MarchFirst(v.y);
    MonthPrefix(v.y);
    MonthPrefix(v.y + 1);
  }

  lemma Epoch()
    ensures CivilFromDays(0) == Date(1970, 1, 1)
  {
    var v := Date(1970, 1, 1);
    assert DayNumber(v) == 0;
    CivilOfDayNumber(v);
  }

  /** Consecutive days are consecutive dates, before and after the epoch alike. */
  lemma ConsecutiveDays(day: int)
    ensures CivilFromDays(0) == Date(1970, 1, 1)
    ensures CivilFromDays(day + 1) == NextDate(CivilFromDays(day))
  {
    Epoch();
    DayNumberOfCivil(day);
    Successor(CivilFromDays(day), day);
  }

  lemma Successor(v: Date, day: int)
    requires Valid(v) && DayNumber(v) == day
    ensures CivilFromDays(day + 1) == NextDate(v)
  {
    var w := NextDate(v);
    NextDateCounts(v);
    CivilOfDayNumber(w);
    assert DayNumber(w) == day + 1;
  }

  /** Dates come in day order. */
  lemma CivilIncreases(a: int, b: int)
    ensures a < b <==> Before(CivilFromDays(a), CivilFromDays(b))
  {
    DayNumberOfCivil(a);
    DayNumberOfCivil(b);
    Compare(CivilFromDays(a), CivilFromDays(b));
  }

  lemma Compare(v: Date, w: Date)
    requires Valid(v) && Valid(w)
    ensures DayNumber(v) < DayNumber(w) <==> Before(v, w)
  {
    if Before(v, w) {
      DayNumberIncreases(v, w);
    } else if Before(w, v) {
      DayNumberIncreases(w, v);
    }
  }

  // ---------------------------------------------------------------- 64-bit arithmetic

  const I64_MAX: int := 0x7fff_ffff_ffff_ffff
  const I64_MIN: int := -0x8000_0000_0000_0000

  predicate Fits(n: int) { I64_MIN <= n <= I64_MAX }

  predicate Small(n: int) { -9 <= n <= 146097 }

  /** Every operation on the day within its era stays small. */
  lemma SmallWithinEra(doe: int)
    requires 0 <= doe < 146097
    ensures var a := doe - TruncDiv(doe, 1460);
      var b := a + TruncDiv(doe, 36524);
      var yoe := YearOfEra(doe);
      && Small(a) && Small(b) && Small(b - TruncDiv(doe, 146096)) && Small(yoe) && Small(365 * yoe)
      && Small(365 * yoe + TruncDiv(yoe, 4)) && Small(YearStart(yoe)) && 0 <= doe - YearStart(yoe) <= 365
  {
    YearOfEraCorrect(doe);
  }

  /** So does every operation on the day within its year. */
  lemma SmallWithinYear(doy: int)
    requires 0 <= doy <= 365
    ensures var mp := TruncDiv(5 * doy + 2, 153);
      var start := TruncDiv(153 * mp + 2, 5);
      && Small(5 * doy) && Small(5 * doy + 2) && Small(mp) && Small(153 * mp) && Small(153 * mp + 2) && Small(start)
      && Small(doy - start) && Small(doy - start + 1) && Small(mp + 3) && Small(mp - 9)
  {
    MonthCorrect(doy);
  }

  /** The remaining operations, on the day, the era and the year, do not overflow. */
  predicate SplitFits(z: int, era: int, yoe: int) {
    && Fits(z) && Fits(if z >= 0 then z else z - 146096) && Fits(era) && Fits(era * 146097)
    && Fits(z - era * 146097) && Fits(era * 400) && Fits(yoe + era * 400) && Fits(yoe + era * 400 + 1)
  }

  predicate DayFits(day: int) {
    var z := day + 719468;
    SplitFits(z, Era(z), YearOfEra(z - Era(z) * 146097))
  }

  lemma SplitFitsIff(z: int, era: int, yoe: int)
    requires z - 146097 < era * 146097 <= z && I64_MIN + 719468 <= z && 0 <= yoe < 400
    ensures SplitFits(z, era, yoe) <==> z <= I64_MAX
  {
    assert era >= 0 ==> 400 * era <= era * 146097;
    assert era < 0 ==> era * 146097 <= 400 * era;
  }

  /** On 64-bit days, no step overflows exactly up to 719468 days before the maximum. */
  lemma NoOverflowIff(day: int)
    requires Fits(day)
    ensures DayFits(day) <==> day <= I64_MAX - 719468
  {
    var z := day + 719468;
    EraIsFloor(z);
    YearOfEraCorrect(z - Era(z) * 146097);
    SplitFitsIff(z, Era(z), YearOfEra(z - Era(z) * 146097));
  }
}
