/** Billing periods on the Gregorian calendar, with the month arithmetic of dateutil's
    `relativedelta`: add the months, then clamp the day to the length of the month reached. */
module Calendar {
  import opened Prelude

  datatype Interval = NONE | MONTHLY | YEARLY

  datatype Date = Date(year: int, month: int, day: int)

  predicate Leap(year: int)
  {
    year % 4 == 0 && (year % 100 != 0 || year % 400 == 0)
  }

  function DaysInMonth(year: int, month: int): (days: int)
    ensures 28 <= days <= 31
  {
    if month == 2 then if Leap(year) then 29 else 28
    else if month == 4 || month == 6 || month == 9 || month == 11 then 30
    else 31
  }

  predicate Valid(d: Date)
  {
    d.year >= 1 && 1 <= d.month <= 12 && 1 <= d.day <= DaysInMonth(d.year, d.month)
  }

  /** `d + relativedelta(years, months)` for a normalised delta of less than twelve months. */
  function AddNormalised(d: Date, years: nat, months: nat): (r: Date)
    requires Valid(d) && months < 12
    ensures Valid(r)
  {
    var carry := d.month + months > 12;
    var year := d.year + years + (if carry then 1 else 0);
    var month := if carry then d.month + months - 12 else d.month + months;
    Date(year, month, Min(d.day, DaysInMonth(year, month)))
  }

  function AddMonths(d: Date, months: nat): (r: Date)
    requires Valid(d)
    ensures Valid(r)
  {
    AddNormalised(d, months / 12, months % 12)
  }

  function AddYears(d: Date, years: nat): (r: Date)
    requires Valid(d)
    ensures Valid(r)
  {
    AddNormalised(d, years, 0)
  }

  // ---- Months counted from year 0, and days counted from 1 January of year 1 ----

  function MonthIndex(d: Date): nat
    requires Valid(d)
  {
    12 * d.year + d.month - 1
  }

  function MonthLength(index: nat): (days: int)
    ensures 28 <= days <= 31
  {
    DaysInMonth(index / 12, index % 12 + 1)
  }

  /** The days in all months before the `index`-th, from January of year 1 on. */
  function MonthStart(index: nat): nat
  {
    if index <= 12 then 0 else MonthStart(index - 1) + MonthLength(index - 1)
  }

  /** The day number of `d`, with 1 January of year 1 as day 1. */
  function Ordinal(d: Date): nat
    requires Valid(d)
  {
    MonthStart(MonthIndex(d)) + d.day
  }

  lemma {:induction false} MonthStartGrows(index: nat, n: nat)
    requires index >= 12
    ensures 28 * n <= MonthStart(index + n) - MonthStart(index) <= 31 * n
  {
    if n > 0 {
      MonthStartGrows(index, n - 1);
    }
  }

  lemma MonthOf(d: Date)
    requires Valid(d)
    ensures MonthIndex(d) >= 12 && MonthLength(MonthIndex(d)) == DaysInMonth(d.year, d.month)
  {
  }

  /** What `AddMonths` means: the month moves by exactly `n`, and the day is kept if the month
      reached has it, else it is that month's last. */
  lemma AddMonthsMeaning(d: Date, n: nat)
    requires Valid(d)
    ensures MonthIndex(AddMonths(d, n)) == MonthIndex(d) + n
    ensures AddMonths(d, n).day == Min(d.day, MonthLength(MonthIndex(d) + n))
  {
    var r := AddMonths(d, n);
    assert n == 12 * (n / 12) + n % 12;
    MonthOf(r);
  }

  lemma AddYearsIsMonths(d: Date, years: nat)
    requires Valid(d)
    ensures AddYears(d, years) == AddMonths(d, 12 * years)
  {
  }

  // ---- Renewing month by month against prepaying ----

  /** `n` renewals in a row, each one month after the last period end. */
  function Renewals(d: Date, n: nat): (r: Date)
    requires Valid(d)
    ensures Valid(r)
  {
    if n == 0 then d else AddMonths(Renewals(d, n - 1), 1)
  }

  /** The shortest of the `n` months after `index`, capped at `day`. */
  function ShortestDay(day: int, index: nat, n: nat): int
  {
    if n == 0 then day else Min(ShortestDay(day, index, n - 1), MonthLength(index + n))
  }

  lemma {:induction false} RenewalsMeaning(d: Date, n: nat)
    requires Valid(d)
    ensures MonthIndex(Renewals(d, n)) == MonthIndex(d) + n
    ensures Renewals(d, n).day == ShortestDay(d.day, MonthIndex(d), n)
  {
    if n > 0 {
      RenewalsMeaning(d, n - 1);
      AddMonthsMeaning(Renewals(d, n - 1), 1);
    }
  }

  lemma {:induction false} ShortestDayBounds(day: int, index: nat, n: nat)
    ensures ShortestDay(day, index, n) <= day
    ensures Min(day, 28) <= ShortestDay(day, index, n)
    ensures forall m :: index < m <= index + n ==> ShortestDay(day, index, n) <= MonthLength(m)
    ensures ShortestDay(day, index, n) == day
            || exists m :: index < m <= index + n && ShortestDay(day, index, n) == MonthLength(m)
  {
    if n > 0 {
      ShortestDayBounds(day, index, n - 1);
    }
  }

  /** Prepaying `n` months ends in the same month as `n` chained renewals, never earlier and at most
      three days later. The two agree exactly when no month passed on the way is shorter than the
      day finally reached: a clamped day is never recovered. */
  lemma PrepaidAgainstRenewals(d: Date, n: nat)
    requires Valid(d) && n > 0
    ensures MonthIndex(AddMonths(d, n)) == MonthIndex(Renewals(d, n))
    ensures 0 <= Ordinal(AddMonths(d, n)) - Ordinal(Renewals(d, n)) <= 3
    ensures AddMonths(d, n) == Renewals(d, n) <==>
            forall m :: MonthIndex(d) < m < MonthIndex(d) + n ==> AddMonths(d, n).day <= MonthLength(m)
  {
    hide MonthLength, AddMonths;
    var prepaid, chained, index := AddMonths(d, n), Renewals(d, n), MonthIndex(d);
    AddMonthsMeaning(d, n);
    RenewalsMeaning(d, n);
    SameMonth(prepaid, chained);
    ShortestDayAgainstLast(d.day, index, n);
  }

  lemma SameMonth(a: Date, b: Date)
    requires Valid(a) && Valid(b) && MonthIndex(a) == MonthIndex(b)
    ensures Ordinal(a) - Ordinal(b) == a.day - b.day
    ensures a == b <==> a.day == b.day
  {
  }

  lemma ShortestDayAgainstLast(day: int, index: nat, n: nat)
    requires n > 0 && 1 <= day <= 31
    ensures 0 <= Min(day, MonthLength(index + n)) - ShortestDay(day, index, n) <= 3
    ensures Min(day, MonthLength(index + n)) == ShortestDay(day, index, n) <==>
            forall m :: index < m < index + n ==> Min(day, MonthLength(index + n)) <= MonthLength(m)
  {
    ShortestDayBounds(day, index, n);
    var last, shortest := Min(day, MonthLength(index + n)), ShortestDay(day, index, n);
    if shortest != last {
      var m :| index < m <= index + n && shortest == MonthLength(m);
      assert m < index + n && !(last <= MonthLength(m));
    }
  }

  /** The bound of three days is reached, from 31 January through a common February. */
  lemma PrepaidThreeDaysLater()
    ensures Ordinal(AddMonths(Date(2025, 1, 31), 2)) - Ordinal(Renewals(Date(2025, 1, 31), 2)) == 3
  {
    var d := Date(2025, 1, 31);
    assert AddMonths(d, 1) == Date(2025, 2, 28);
    assert Renewals(d, 1) == AddMonths(Renewals(d, 0), 1);
    assert Renewals(d, 2) == AddMonths(Renewals(d, 1), 1) == Date(2025, 3, 28);
    assert AddMonths(d, 2) == Date(2025, 3, 31);
  }

  lemma AddMonthsLater(d: Date, n: nat)
    requires Valid(d) && n > 0
    ensures Ordinal(d) + 28 * n <= Ordinal(AddMonths(d, n)) <= Ordinal(d) + 31 * n
  {
    hide MonthLength, AddMonths;
    var index := MonthIndex(d);
    MonthOf(d);
    MonthStartGrows(index, n);
    MonthStartGrows(index + 1, n - 1);
    assert index + 1 + (n - 1) == index + n;
    AddMonthsMeaning(d, n);
    LaterInDays(MonthStart(index), MonthStart(index + n), n, d.day, MonthLength(index), MonthLength(index + n));
  }

  /** Clamping costs no more than the month left behind gains over 28 days. */
  lemma LaterInDays(from: int, to: int, n: nat, day: int, length: int, reached: int)
    requires n > 0 && from + length + 28 * (n - 1) <= to <= from + 31 * n
    requires day <= length && 28 <= length && 28 <= reached
    ensures from + day + 28 * n <= to + Min(day, reached) <= from + day + 31 * n
  {
  }

  lemma YearSpan(year: nat, month: nat)
    requires year >= 1 && 1 <= month <= 12
    ensures MonthStart(12 * year + 12 + month - 1) - MonthStart(12 * year + month - 1)
            == 365 + if (if month <= 2 then Leap(year) else Leap(year + 1)) then 1 else 0
  {
    MonthsOfYear(year, month);
    MonthsOfYear(year + 1, month);
    MonthsOfYear(year, 13);
    assert 12 * year + 12 == 12 * (year + 1);
  }

  lemma {:induction false} MonthsOfYear(year: nat, month: nat)
    requires year >= 1 && 1 <= month <= 13
    ensures MonthStart(12 * year + month - 1) == MonthStart(12 * year) + DaysBeforeMonth(year, month)
  {
    hide MonthLength, DaysInMonth, Leap, DaysBeforeMonth;
    DaysBeforeGrows(year, month);
    if month > 1 {
      MonthsOfYear(year, month - 1);
      MonthOf(Date(year, month - 1, 1));
    }
  }

  lemma DaysBeforeGrows(year: nat, month: nat)
    requires 1 <= month <= 13
    ensures DaysBeforeMonth(year, month) == if month == 1 then 0 else DaysBeforeMonth(year, month - 1) + DaysInMonth(year, month - 1)
  {
  }

  function DaysBeforeMonth(year: nat, month: nat): nat
    requires 1 <= month <= 13
  {
    if month == 1 then 0
    else if month == 2 then 31
    else [59, 90, 120, 151, 181, 212, 243, 273, 304, 334, 365][month - 3] + if Leap(year) then 1 else 0
  }

  lemma AddYearLater(d: Date)
    requires Valid(d)
    ensures 365 <= Ordinal(AddYears(d, 1)) - Ordinal(d) <= 366
  {
    hide MonthLength, MonthStart;
    YearSpan(d.year, d.month);
    var r := AddYears(d, 1);
    assert MonthIndex(r) == 12 * d.year + 12 + d.month - 1;
  }

  /** The day count of the Gregorian calendar, for every year: 365 days a year, one more every fourth
      year, one less every hundredth, one more every four-hundredth. */
  lemma {:induction false} YearStart(year: nat)
    requires year >= 1
    ensures Ordinal(Date(year, 1, 1)) == 365 * (year - 1) + (year - 1) / 4 - (year - 1) / 100 + (year - 1) / 400 + 1
  {
    hide Ordinal, MonthStart, Leap;
    JanuaryFirst(year);
    if year == 1 {
      FirstMonth();
    } else {
      JanuaryFirst(year - 1);
      YearStart(year - 1);
      YearSpan(year - 1, 1);
      LeapCount(year - 1);
      assert 12 * (year - 1) + 12 == 12 * year;
    }
  }

  lemma FirstMonth()
    ensures MonthStart(12) == 0
  {
  }

  lemma JanuaryFirst(year: nat)
    requires year >= 1
    ensures Ordinal(Date(year, 1, 1)) == MonthStart(12 * year) + 1
  {
  }

  /** Each year divisible by `n` adds one to the quotient. */
  lemma QuotientStep(year: nat, n: nat)
    requires year >= 1 && (n == 4 || n == 100 || n == 400)
    ensures year / n - (year - 1) / n == if year % n == 0 then 1 else 0
  {
  }

  lemma LeapCount(year: nat)
    requires year >= 1
    ensures year / 4 - year / 100 + year / 400
            == (year - 1) / 4 - (year - 1) / 100 + (year - 1) / 400 + if Leap(year) then 1 else 0
  {
    QuotientStep(year, 4);
    QuotientStep(year, 100);
    QuotientStep(year, 400);
    Divisors(year);
  }

  /** What is divided by four hundred is divided by a hundred, and what by a hundred by four. */
  lemma Multiple(year: int, n: int, q: int)
    requires (n == 4 || n == 100) && year == n * q
    ensures year % n == 0
  {
    var rest := year % n;
    if n == 4 {
      assert rest == 4 * (q - year / 4);
    } else {
      assert rest == 100 * (q - year / 100);
    }
  }

  lemma Divisors(year: nat)
    ensures year % 400 == 0 ==> year % 100 == 0
    ensures year % 100 == 0 ==> year % 4 == 0
  {
    if year % 400 == 0 {
      Multiple(year, 100, 4 * (year / 400));
    }
    if year % 100 == 0 {
      Multiple(year, 4, 25 * (year / 100));
    }
  }

  /** Four hundred years are 146097 days, and 1 January 1970 is day 719163. */
  lemma FourCenturies(year: nat)
    requires year >= 1
    ensures Ordinal(Date(year + 400, 1, 1)) - Ordinal(Date(year, 1, 1)) == 146097
    ensures Ordinal(Date(1970, 1, 1)) == 719163
  {
    hide Ordinal;
    YearStart(year);
    YearStart(year + 400);
    CenturyStep(year - 1, 4, 100);
    CenturyStep(year - 1, 100, 4);
    CenturyStep(year - 1, 400, 1);
    YearStart(1970);
  }

  lemma CenturyStep(years: nat, n: nat, times: nat)
    requires n > 0 && n * times == 400 && (n == 4 || n == 100 || n == 400)
    ensures (years + 400) / n == years / n + times
  {
  }

  /** The days of a year before a month are those of the months before it. */
  lemma MonthStartsAt(year: nat, month: nat)
    requires year >= 1 && 1 <= month <= 12
    ensures Ordinal(Date(year, month, 1)) - Ordinal(Date(year, 1, 1))
            == [0, 31, 59, 90, 120, 151, 181, 212, 243, 273, 304, 334][month - 1]
               + if month > 2 && DaysInMonth(year, 2) == 29 then 1 else 0
  {
    hide MonthLength, MonthStart;
    MonthsOfYear(year, month);
  }

  // ---- Instants ----

  const DAY := 86_400_000_000

  /** A calendar date and the microseconds since its midnight, in UTC. */
  datatype Timestamp = Timestamp(date: Date, tod: int)

  predicate ValidTimestamp(t: Timestamp)
  {
    Valid(t.date) && 0 <= t.tod < DAY
  }

  type Instant = t: Timestamp | ValidTimestamp(t) witness Timestamp(Date(1970, 1, 1), 0)

  /** Microseconds since 1 January 1970. */
  function Micros(t: Instant): int
  {
    (Ordinal(t.date) - Ordinal(Date(1970, 1, 1))) * DAY + t.tod
  }

  /** The day's number, counted from that of 1 January 1970, and the time of day. */
  lemma MicrosMeaning(t: Instant)
    ensures Micros(t) == (Ordinal(t.date) - 719163) * 86_400_000_000 + t.tod
  {
    FourCenturies(1);
  }

  /** Python's `int()` of a second count truncates toward zero. */
  function Truncate(micros: int): int
  {
    if micros >= 0 then micros / 1_000_000 else -(-micros / 1_000_000)
  }

  /** The whole seconds within reach of zero, and none further. */
  lemma TruncateMeaning(micros: int)
    ensures micros >= 0 ==> Truncate(micros) * 1_000_000 <= micros < (Truncate(micros) + 1) * 1_000_000
    ensures micros < 0 ==> (Truncate(micros) - 1) * 1_000_000 < micros <= Truncate(micros) * 1_000_000
  {
  }

  /** Whole seconds since 1970, as stored in renewal keys. */
  function Seconds(t: Instant): int
  {
    Truncate(Micros(t))
  }

  /** The end of the period after the one ending at `end`; one-time plans have none. */
  function NextPeriodEnd(end: Instant, interval: Interval): Option<Instant>
  {
    match interval
    case MONTHLY => Some(end.(date := AddMonths(end.date, 1)))
    case YEARLY => Some(end.(date := AddYears(end.date, 1)))
    case NONE => None
  }

  /** The first period end of a subscription bought now with `multiplier` prepaid intervals. */
  function FirstPeriodEnd(now: Instant, interval: Interval, multiplier: nat): Option<Instant>
  {
    match interval
    case MONTHLY => Some(now.(date := AddMonths(now.date, multiplier)))
    case YEARLY => Some(now.(date := AddYears(now.date, multiplier)))
    case NONE => None
  }

  /** An extension moves the date by whole days. */
  function ExtendBy(end: Instant, days: nat): Instant
  {
    end.(date := AddDays(end.date, days))
  }

  lemma ExtendByMeaning(end: Instant, days: nat)
    ensures Micros(ExtendBy(end, days)) == Micros(end) + days * DAY
  {
    AddDaysMeaning(end.date, days);
  }

  /** The next period end is strictly later: by 28 to 31 days, or by 365 or 366. Its stored second
      is later too. */
  lemma NextPeriodEndLater(end: Instant, interval: Interval)
    requires interval != NONE
    ensures NextPeriodEnd(end, interval).Some?
    ensures var next := NextPeriodEnd(end, interval).value;
            && Micros(end) + 28 * DAY <= Micros(next)
            && (interval == MONTHLY ==> Micros(next) <= Micros(end) + 31 * DAY)
            && (interval == YEARLY ==> 365 * DAY <= Micros(next) - Micros(end) <= 366 * DAY)
            && Seconds(end) < Seconds(next)
  {
    if interval == MONTHLY {
      AddMonthsLater(end.date, 1);
    } else {
      AddYearLater(end.date);
    }
    SecondsGrow(Micros(end), Micros(NextPeriodEnd(end, interval).value));
  }

  lemma SecondsGrow(a: int, b: int)
    requires a + 2_000_000 <= b
    ensures Truncate(a) < Truncate(b)
  {
  }

  function NextDay(d: Date): (r: Date)
    requires Valid(d)
    ensures Valid(r)
  {
    if d.day < DaysInMonth(d.year, d.month) then Date(d.year, d.month, d.day + 1)
    else if d.month < 12 then Date(d.year, d.month + 1, 1)
    else Date(d.year + 1, 1, 1)
  }

  function AddDays(d: Date, days: nat): (r: Date)
    requires Valid(d)
    ensures Valid(r)
    decreases days
  {
    if days == 0 then d else AddDays(NextDay(d), days - 1)
  }

  lemma NextDayMeaning(d: Date)
    requires Valid(d)
    ensures Ordinal(NextDay(d)) == Ordinal(d) + 1
  {
    hide MonthLength, DaysInMonth;
    MonthOf(d);
    assert d.day == DaysInMonth(d.year, d.month) ==> MonthIndex(NextDay(d)) == MonthIndex(d) + 1;
  }

  lemma {:induction false} AddDaysMeaning(d: Date, days: nat)
    requires Valid(d)
    ensures Ordinal(AddDays(d, days)) == Ordinal(d) + days
    decreases days
  {
    hide Ordinal, NextDay, Valid;
    if days > 0 {
      NextDayMeaning(d);
      AddDaysMeaning(NextDay(d), days - 1);
    }
  }

  // ---- When two ends have the same next end ----

  lemma {:induction false} MonthsApart(index: nat, n: nat)
    requires index >= 12 && n > 0
    ensures MonthStart(index) + MonthLength(index) <= MonthStart(index + n)
  {
    if n > 1 {
      MonthsApart(index, n - 1);
    }
  }

  lemma OrdinalInjective(a: Date, b: Date)
    requires Valid(a) && Valid(b) && Ordinal(a) == Ordinal(b)
    ensures a == b
  {
    hide MonthLength, DaysInMonth;
    MonthOf(a);
    MonthOf(b);
    if MonthIndex(a) < MonthIndex(b) {
      MonthsApart(MonthIndex(a), MonthIndex(b) - MonthIndex(a));
    } else if MonthIndex(b) < MonthIndex(a) {
      MonthsApart(MonthIndex(b), MonthIndex(a) - MonthIndex(b));
    }
  }

  lemma MicrosInjective(a: Instant, b: Instant)
    ensures Micros(a) == Micros(b) <==> a == b
  {
    hide Ordinal;
    if Micros(a) == Micros(b) {
      OrdinalInjective(a.date, b.date);
    }
  }

  /** The length in months of a recurring interval. */
  function Months(interval: Interval): nat
    requires interval != NONE
  {
    if interval == MONTHLY then 1 else 12
  }

  /** Same time of day, same month, and both past the last day of the month reached. */
  predicate BothClamp(a: Instant, b: Instant, interval: Interval)
    requires interval != NONE
  {
    var length := MonthLength(MonthIndex(a.date) + Months(interval));
    a.tod == b.tod && MonthIndex(a.date) == MonthIndex(b.date) && a.date.day >= length && b.date.day >= length
  }

  lemma NextEndMeaning(end: Instant, interval: Interval)
    requires interval != NONE
    ensures NextPeriodEnd(end, interval) == Some(end.(date := AddMonths(end.date, Months(interval))))
  {
    AddYearsIsMonths(end.date, 1);
  }

  /** Two ends have the same next end exactly when they are equal or both clamp to it. */
  lemma NextEndsEqualIff(a: Instant, b: Instant, interval: Interval)
    requires interval != NONE
    ensures NextPeriodEnd(a, interval) == NextPeriodEnd(b, interval) <==> a == b || BothClamp(a, b, interval)
  {
    hide NextPeriodEnd, MonthLength, AddMonths, Valid;
    NextEndMeaning(a, interval);
    NextEndMeaning(b, interval);
    AddMonthsMeaning(a.date, Months(interval));
    AddMonthsMeaning(b.date, Months(interval));
    SameDate(a.date, b.date);
    SameDate(AddMonths(a.date, Months(interval)), AddMonths(b.date, Months(interval)));
  }

  lemma SameDate(a: Date, b: Date)
    requires Valid(a) && Valid(b)
    ensures a == b <==> MonthIndex(a) == MonthIndex(b) && a.day == b.day
  {
  }

  /** How many days the period after `end` lasts. */
  function PeriodDays(end: Instant, interval: Interval): int
    requires interval != NONE
  {
    var d, index := end.date, MonthIndex(end.date);
    if interval == MONTHLY then MonthLength(index) - d.day + Min(d.day, MonthLength(index + 1))
    else
      365 + (if (if d.month <= 2 then Leap(d.year) else Leap(d.year + 1)) then 1 else 0)
      - if d.month == 2 && d.day == 29 then 1 else 0
  }

  lemma PeriodLength(end: Instant, interval: Interval)
    requires interval != NONE
    ensures NextPeriodEnd(end, interval).Some?
    ensures Micros(NextPeriodEnd(end, interval).value) == Micros(end) + PeriodDays(end, interval) * DAY
  {
    hide MonthStart, MonthLength;
    var d, index := end.date, MonthIndex(end.date);
    if interval == MONTHLY {
      MonthOf(d);
      AddMonthsMeaning(d, 1);
      NextMonthStart(index);
    } else {
      YearSpan(d.year, d.month);
      assert MonthIndex(AddYears(d, 1)) == 12 * d.year + 12 + d.month - 1;
    }
  }

  lemma NextMonthStart(index: nat)
    requires index >= 12
    ensures MonthStart(index + 1) == MonthStart(index) + MonthLength(index)
  {
  }

  /** An extension by `days` reaches beyond the next period end exactly when it is longer than the
      period, and stops short of it exactly when it is shorter. */
  lemma ExtensionAgainstPeriod(end: Instant, interval: Interval, days: nat)
    requires interval != NONE
    ensures NextPeriodEnd(end, interval).Some?
    ensures var next := NextPeriodEnd(end, interval).value;
            && (Micros(next) < Micros(ExtendBy(end, days)) <==> PeriodDays(end, interval) < days)
            && (Micros(ExtendBy(end, days)) < Micros(next) <==> days < PeriodDays(end, interval))
  {
    hide PeriodDays, NextPeriodEnd, ExtendBy, Micros;
    PeriodLength(end, interval);
    ExtendByMeaning(end, days);
  }

  lemma ExtendByInjective(a: Instant, b: Instant, days: nat)
    ensures ExtendBy(a, days) == ExtendBy(b, days) <==> a == b
  {
    hide ExtendBy, Micros;
    ExtendByMeaning(a, days);
    ExtendByMeaning(b, days);
    MicrosInjective(a, b);
  }
}
