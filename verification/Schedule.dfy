/**
 Next fire time of a scheduled workflow version, over the Gregorian calendar.

 Instants are compared field by field, as the service compares them; `Ordinal`
 counts days, and the two orders are proved to agree.
 */
module Schedule {
  import opened Basics

  datatype Date = Date(year: int, month: int, day: int)

  datatype Instant = Instant(date: Date, micros: int)

  datatype Kind = Interval | Daily | Weekly | Monthly

  /** Optional numbers follow the source's `x or default`: zero counts as missing. */
  datatype Plan = Plan(kind: Kind, hour: int, minute: int,
                       dayOfWeek: Option<int>, dayOfMonth: Option<int>, intervalMinutes: Option<int>)

  const MINUTE := 60_000_000
  const DAY := 86_400_000_000

  // ---- calendar ------------------------------------------------------------------

  predicate IsLeap(year: int) {
    year % 4 == 0 && (year % 100 != 0 || year % 400 == 0)
  }

  function DaysInMonth(year: int, month: int): int {
    if month == 2 then (if IsLeap(year) then 29 else 28)
    else if month in {4, 6, 9, 11} then 30
    else 31
  }

  ghost predicate ValidDate(d: Date) {
    1 <= d.year && 1 <= d.month <= 12 && 1 <= d.day <= DaysInMonth(d.year, d.month)
  }

  ghost predicate Valid(t: Instant) {
    ValidDate(t.date) && 0 <= t.micros < DAY
  }

  function DaysBeforeYear(year: int): int {
    (year - 1) * 365 + (year - 1) / 4 - (year - 1) / 100 + (year - 1) / 400
  }

  function DaysBeforeMonth(year: int, month: int): int
    requires 1 <= month
    decreases month
  {
    if month == 1 then 0 else DaysBeforeMonth(year, month - 1) + DaysInMonth(year, month - 1)
  }

  /** Days since the day before 1 January of year 1. */
  function Ordinal(d: Date): int
    requires 1 <= d.month
  {
    DaysBeforeYear(d.year) + DaysBeforeMonth(d.year, d.month) + d.day
  }

  /** Monday is 0. */
  function Weekday(d: Date): int
    requires 1 <= d.month
  {
    (Ordinal(d) + 6) % 7
  }

  predicate DateBefore(a: Date, b: Date) {
    a.year < b.year || (a.year == b.year && (a.month < b.month || (a.month == b.month && a.day < b.day)))
  }

  predicate Before(a: Instant, b: Instant) {
    DateBefore(a.date, b.date) || (a.date == b.date && a.micros < b.micros)
  }

  lemma {:induction false} MonthsPrecede(year: int, m: int, n: int)
    requires 1 <= m < n
    ensures DaysBeforeMonth(year, m) + DaysInMonth(year, m) <= DaysBeforeMonth(year, n)
    decreases n
  {
    if m + 1 < n { MonthsPrecede(year, m, n - 1); }
  }

  lemma YearLength(year: int)
    ensures DaysBeforeMonth(year, 12) + DaysInMonth(year, 12) == DaysBeforeYear(year + 1) - DaysBeforeYear(year)
  {
    MonthsOfAYear(year);
    YearsApart(year);
  }

  lemma YearsApart(year: int)
    ensures DaysBeforeYear(year + 1) - DaysBeforeYear(year) == 337 + DaysInMonth(year, 2)
  {
    LeapDays(year);
    assert IsLeap(year) <==> year % 4 == 0 && (year % 100 != 0 || year % 400 == 0);
    Divisors(year);
  }

  lemma Divisors(year: int)
    ensures year % 400 == 0 ==> year % 100 == 0
    ensures year % 100 == 0 ==> year % 4 == 0
  {
    if year % 400 == 0 { Multiple(year, 4 * (year / 400), 100); }
    if year % 100 == 0 { Multiple(year, 25 * (year / 100), 4); }
  }

  lemma Multiple(n: int, c: int, k: int)
    requires k == 4 || k == 100
    requires n == k * c
    ensures n % k == 0
  {
    if k == 4 {
      assert (4 * c) % 4 == 0;
    } else {
      assert (100 * c) % 100 == 0;
    }
  }

  lemma MonthsOfAYear(year: int)
    ensures DaysBeforeMonth(year, 12) + DaysInMonth(year, 12) == 337 + DaysInMonth(year, 2)
  {
    assert DaysBeforeMonth(year, 3) == 31 + DaysInMonth(year, 2);
    assert DaysBeforeMonth(year, 6) == DaysBeforeMonth(year, 3) + 92;
    assert DaysBeforeMonth(year, 9) == DaysBeforeMonth(year, 6) + 92;
    assert DaysBeforeMonth(year, 12) == DaysBeforeMonth(year, 9) + 91;
  }

  /** Of the multiples of 4, 100 and 400 each is counted in the year it falls in. */
  lemma LeapDays(year: int)
    ensures year / 4 - (year - 1) / 4 == if year % 4 == 0 then 1 else 0
    ensures year / 100 - (year - 1) / 100 == if year % 100 == 0 then 1 else 0
    ensures year / 400 - (year - 1) / 400 == if year % 400 == 0 then 1 else 0
  {
    assert year == 4 * (year / 4) + year % 4;
    assert year == 100 * (year / 100) + year % 100;
    assert year == 400 * (year / 400) + year % 400;
  }

  lemma {:induction false} YearsPrecede(y: int, z: int)
    requires y < z
    ensures DaysBeforeYear(y) + DaysBeforeMonth(y, 12) + DaysInMonth(y, 12) <= DaysBeforeYear(z)
    decreases z - y
  {
    YearLength(y);
    if y + 1 < z {
      YearsPrecede(y + 1, z);
      MonthsPrecede(y + 1, 1, 12);
    }
  }

  lemma OrdinalFollowsFields(a: Date, b: Date)
    requires ValidDate(a) && ValidDate(b) && DateBefore(a, b)
    ensures Ordinal(a) < Ordinal(b)
  {
    if a.year < b.year {
      YearsPrecede(a.year, b.year);
      if a.month < 12 { MonthsPrecede(a.year, a.month, 12); }
      if 1 < b.month { MonthsPrecede(b.year, 1, b.month); }
    } else if a.month < b.month {
      MonthsPrecede(a.year, a.month, b.month);
    }
  }

  /** The field-by-field order of dates is the order of days. */
  lemma DateOrderIsDayOrder(a: Date, b: Date)
    requires ValidDate(a) && ValidDate(b)
    ensures DateBefore(a, b) <==> Ordinal(a) < Ordinal(b)
    ensures a == b <==> Ordinal(a) == Ordinal(b)
  {
    if DateBefore(a, b) { OrdinalFollowsFields(a, b); }
    if DateBefore(b, a) { OrdinalFollowsFields(b, a); }
  }

  function NextDay(d: Date): (r: Date)
    requires ValidDate(d)
    ensures ValidDate(r)
  {
    if d.day < DaysInMonth(d.year, d.month) then Date(d.year, d.month, d.day + 1)
    else if d.month < 12 then Date(d.year, d.month + 1, 1)
    else Date(d.year + 1, 1, 1)
  }

  lemma NextDayIsOneLater(d: Date)
    requires ValidDate(d)
    ensures Ordinal(NextDay(d)) == Ordinal(d) + 1
  {
    YearLength(d.year);
  }

  function AddDays(d: Date, n: nat): (r: Date)
    requires ValidDate(d)
    ensures ValidDate(r)
  {
    if n == 0 then d else NextDay(AddDays(d, n - 1))
  }

  lemma {:induction false} AddDaysAdvances(d: Date, n: nat)
    requires ValidDate(d)
    ensures Ordinal(AddDays(d, n)) == Ordinal(d) + n
  {
    if n > 0 {
      AddDaysAdvances(d, n - 1);
      NextDayIsOneLater(AddDays(d, n - 1));
    }
  }

  /** The calendar in plain numbers: the lengths of the months, the leap years, and one known Monday. */
  lemma Calendar(year: int)
    ensures forall m :: m in {1, 3, 5, 7, 8, 10, 12} ==> DaysInMonth(year, m) == 31
    ensures forall m :: m in {4, 6, 9, 11} ==> DaysInMonth(year, m) == 30
    ensures DaysInMonth(2023, 2) == 28 && DaysInMonth(2024, 2) == 29
    ensures DaysInMonth(1900, 2) == 28 && DaysInMonth(2000, 2) == 29
    ensures Weekday(Date(2024, 1, 1)) == 0
  {
  }

  lemma WeekdaysFollow(d: Date)
    requires ValidDate(d)
    ensures Weekday(NextDay(d)) == (if Weekday(d) == 6 then 0 else Weekday(d) + 1)
  {
    NextDayIsOneLater(d);
    NextOfSeven(Ordinal(d) + 6);
  }

  lemma NextOfSeven(n: int)
    ensures (n + 1) % 7 == if n % 7 == 6 then 0 else n % 7 + 1
  {
    assert n == 7 * (n / 7) + n % 7;
  }

  // ---- schedules --------------------------------------------------------------------

  function Clamp(x: int, low: int, high: int): int {
    if x < low then low else if x > high then high else x
  }

  function OrDefault(x: Option<int>, default: int): int {
    if x.Some? && x.value != 0 then x.value else default
  }

  /** The time of day a plan fires at, with hour and minute clamped into the day. */
  function FireMicros(p: Plan): (r: int)
    ensures 0 <= r < DAY && r % MINUTE == 0
  {
    (Clamp(p.hour, 0, 23) * 60 + Clamp(p.minute, 0, 59)) * MINUTE
  }

  function FireWeekday(p: Plan): int {
    Clamp(OrDefault(p.dayOfWeek, 1), 1, 7) - 1
  }

  function FireDay(p: Plan, year: int, month: int): int {
    var day := Clamp(OrDefault(p.dayOfMonth, 1), 1, 31);
    if day <= DaysInMonth(year, month) then day else DaysInMonth(year, month)
  }

  function IntervalMinutes(p: Plan): (r: nat)
    ensures r >= 1
  {
    if OrDefault(p.intervalMinutes, 60) < 1 then 1 else OrDefault(p.intervalMinutes, 60)
  }

  /** When a plan fires: Monday is weekday 1 of a plan, and long months clamp to short ones. */
  ghost predicate Fires(p: Plan, t: Instant)
    requires Valid(t)
  {
    t.micros == FireMicros(p) &&
    match p.kind
    case Interval => false
    case Daily => true
    case Weekly => Weekday(t.date) == FireWeekday(p)
    case Monthly => t.date.day == FireDay(p, t.date.year, t.date.month)
  }

  /** `r` is the first instant after `after` at which the plan fires. */
  ghost predicate IsNextFire(p: Plan, after: Instant, r: Instant) {
    && Valid(r) && Before(after, r) && Fires(p, r)
    && forall t: Instant :: Valid(t) && Before(after, t) && Fires(p, t) ==> !Before(t, r)
  }

  /**
   A plan fires at its hour and minute; a weekly one on its day of the week, a monthly one on its day of the
   month.
   */
  lemma FiresAsPlanned(p: Plan, t: Instant)
    requires Valid(t) && Fires(p, t)
    ensures 0 <= p.hour <= 23 && 0 <= p.minute <= 59 ==> t.micros == p.hour * 3_600_000_000 + p.minute * 60_000_000
    ensures p.hour > 23 && p.minute > 59 ==> t.micros == 86_340_000_000
    ensures p.hour < 0 && p.minute < 0 ==> t.micros == 0
    ensures p.kind == Weekly && p.dayOfWeek.Some? && 1 <= p.dayOfWeek.value <= 7 ==>
              Weekday(t.date) == p.dayOfWeek.value - 1
    ensures p.kind == Weekly && (p.dayOfWeek.None? || p.dayOfWeek.value <= 0) ==> Weekday(t.date) == 0
    ensures p.kind == Weekly && p.dayOfWeek.Some? && p.dayOfWeek.value > 7 ==> Weekday(t.date) == 6
    ensures p.kind == Monthly && p.dayOfMonth.Some? && 1 <= p.dayOfMonth.value ==>
              t.date.day == Min(p.dayOfMonth.value, DaysInMonth(t.date.year, t.date.month))
    ensures p.kind == Monthly && (p.dayOfMonth.None? || p.dayOfMonth.value <= 0) ==> t.date.day == 1
  {
  }

  /** An interval is what the plan says, an hour where it says nothing or zero, and never less than a minute. */
  lemma IntervalAsPlanned(p: Plan)
    ensures p.intervalMinutes.Some? && p.intervalMinutes.value > 0 ==> IntervalMinutes(p) == p.intervalMinutes.value
    ensures p.intervalMinutes.None? || p.intervalMinutes.value == 0 ==> IntervalMinutes(p) == 60
    ensures p.intervalMinutes.Some? && p.intervalMinutes.value < 0 ==> IntervalMinutes(p) == 1
    ensures MINUTE == 60_000_000
  {
  }

  ghost function Micros(t: Instant): int
    requires 1 <= t.date.month
  {
    Ordinal(t.date) * DAY + t.micros
  }

  lemma BeforeByDay(a: Instant, b: Instant)
    requires Valid(a) && Valid(b)
    ensures Before(a, b) <==>
              Ordinal(a.date) < Ordinal(b.date) || (Ordinal(a.date) == Ordinal(b.date) && a.micros < b.micros)
  {
    DateOrderIsDayOrder(a.date, b.date);
  }

  lemma FirstDailyFire(p: Plan, after: Instant, r: Instant)
    requires Valid(after) && Valid(r) && p.kind == Daily && r.micros == FireMicros(p)
    requires Ordinal(r.date) == Ordinal(after.date) + if after.micros < FireMicros(p) then 0 else 1
    ensures IsNextFire(p, after, r)
  {
    DateOrderIsDayOrder(after.date, r.date);
    forall t: Instant | Valid(t) && Before(after, t) && Fires(p, t)
      ensures !Before(t, r)
    {
      DateOrderIsDayOrder(after.date, t.date);
      DateOrderIsDayOrder(t.date, r.date);
    }
  }

  lemma FirstWeeklyFire(p: Plan, after: Instant, days: int, r: Instant)
    requires Valid(after) && Valid(r) && p.kind == Weekly && r.micros == FireMicros(p)
    requires days == (FireWeekday(p) - Weekday(after.date)) % 7
    requires Ordinal(r.date) == Ordinal(after.date) + days + if days == 0 && after.micros >= FireMicros(p) then 7 else 0
    ensures IsNextFire(p, after, r)
  {
    DateOrderIsDayOrder(after.date, r.date);
    SameWeekday(after.date, r.date, days, FireWeekday(p));
    forall t: Instant | Valid(t) && Before(after, t) && Fires(p, t)
      ensures !Before(t, r)
    {
      NoEarlierWeeklyFire(after, days, FireWeekday(p), r, t);
    }
  }

  lemma NoEarlierWeeklyFire(after: Instant, days: int, target: int, r: Instant, t: Instant)
    requires Valid(after) && Valid(r) && Valid(t) && Before(after, t) && 0 <= target < 7
    requires t.micros == r.micros && Weekday(t.date) == target && days == (target - Weekday(after.date)) % 7
    requires Ordinal(r.date) == Ordinal(after.date) + days + if days == 0 && after.micros >= r.micros then 7 else 0
    ensures !Before(t, r)
  {
    BeforeByDay(after, t);
    BeforeByDay(t, r);
    NoEarlierWeek(Ordinal(after.date), after.micros, days, target, Ordinal(r.date), r.micros, Ordinal(t.date));
  }

  /** The same on day numbers: `r` is the first day with the target weekday whose fire time is still to come. */
  lemma NoEarlierWeek(a: int, passed: int, days: int, target: int, r: int, micros: int, t: int)
    requires a < t || (a == t && passed < micros)
    requires 0 <= target < 7 && (t + 6) % 7 == target && days == (target - (a + 6) % 7) % 7
    requires r == a + days + if days == 0 && passed >= micros then 7 else 0
    ensures r <= t
  {
    WeeksApart(a, t, days, target);
  }

  lemma SameWeekday(a: Date, r: Date, days: int, target: int)
    requires 1 <= a.month && 1 <= r.month && 0 <= target < 7
    requires days == (target - Weekday(a)) % 7
    requires Ordinal(r) == Ordinal(a) + days || Ordinal(r) == Ordinal(a) + days + 7
    ensures Weekday(r) == target
  {
    DaysToTarget(Ordinal(a) + 6, Weekday(a), days, target);
  }

  lemma DaysToTarget(n: int, w: int, days: int, target: int)
    requires w == n % 7 && 0 <= target < 7 && days == (target - w) % 7
    ensures 0 <= days < 7 && (n + days) % 7 == target && (n + days + 7) % 7 == target
  {
    assert days == target - w || days == target - w + 7;
    assert n == 7 * (n / 7) + w;
  }

  /** From a day `a`, the days with the target weekday at or after it lie at `days`, `days + 7`, ... */
  lemma WeeksApart(a: int, t: int, days: int, target: int)
    requires a <= t && 0 <= target < 7 && (t + 6) % 7 == target && days == (target - (a + 6) % 7) % 7
    ensures t >= a + days && (t != a + days ==> t >= a + days + 7)
  {
    DaysToTarget(a + 6, (a + 6) % 7, days, target);
    var gap := t - (a + days);
    assert gap % 7 == 0;
    assert gap == 7 * (gap / 7);
  }

  function NextMonth(d: Date): (int, int) {
    if d.month < 12 then (d.year, d.month + 1) else (d.year + 1, 1)
  }

  /** A month's fire time is the only instant of that month at which the plan fires. */
  function MonthlyFire(p: Plan, year: int, month: int): (r: Instant)
    requires 1 <= year && 1 <= month <= 12
    ensures Valid(r)
  {
    Instant(Date(year, month, FireDay(p, year, month)), FireMicros(p))
  }

  method NextScheduleTime(p: Plan, after: Instant) returns (r: Instant, ghost turns: nat)
    requires Valid(after)
    ensures p.kind != Interval ==> IsNextFire(p, after, r)
    ensures p.kind == Interval ==> Valid(r) && Micros(r) == Micros(after) + IntervalMinutes(p) * MINUTE
    ensures turns <= 2
  {
    turns := 0;
    if p.kind == Interval {
      r := AddMinutes(after, IntervalMinutes(p));
      return;
    }
    var candidate := Instant(after.date, FireMicros(p));
    if p.kind == Daily {
      if !Before(after, candidate) { candidate := Instant(AddDays(candidate.date, 1), candidate.micros); }
      AddDaysAdvances(after.date, 1);
      FirstDailyFire(p, after, candidate);
      return candidate, 0;
    }
    if p.kind == Weekly {
      var days := (FireWeekday(p) - Weekday(candidate.date)) % 7;
      candidate := Instant(AddDays(candidate.date, days), candidate.micros);
      AddDaysAdvances(after.date, days);
      DateOrderIsDayOrder(after.date, candidate.date);
      if !Before(after, candidate) {
        AddDaysAdvances(candidate.date, 7);
        candidate := Instant(AddDays(candidate.date, 7), candidate.micros);
      }
      FirstWeeklyFire(p, after, days, candidate);
      return candidate, 0;
    }
    var year, month := after.date.year, after.date.month;
    while true
      invariant turns <= 1 && 1 <= year && 1 <= month <= 12
      invariant turns == 0 ==> (year, month) == (after.date.year, after.date.month)
      invariant turns == 1 ==> !Before(after, MonthlyFire(p, after.date.year, after.date.month))
      invariant turns == 1 ==> (year, month) == NextMonth(after.date)
      decreases 2 - turns
    {
      turns := turns + 1;
      candidate := MonthlyFire(p, year, month);
      if Before(after, candidate) {
        FirstMonthlyFire(p, after, candidate, turns);
        return candidate, turns;
      }
      month := month + 1;
      if month > 12 { year, month := year + 1, 1; }
    }
  }

  lemma FirstMonthlyFire(p: Plan, after: Instant, r: Instant, turns: nat)
    requires Valid(after) && p.kind == Monthly && Before(after, r) && 1 <= turns <= 2
    requires turns == 1 ==> r == MonthlyFire(p, after.date.year, after.date.month)
    requires turns == 2 ==> !Before(after, MonthlyFire(p, after.date.year, after.date.month))
    requires turns == 2 ==> r == MonthlyFire(p, NextMonth(after.date).0, NextMonth(after.date).1)
    ensures IsNextFire(p, after, r)
  {
    forall t: Instant | Valid(t) && Before(after, t) && Fires(p, t)
      ensures !Before(t, r)
    {
      assert t == MonthlyFire(p, t.date.year, t.date.month);
    }
  }

  method AddMinutes(t: Instant, minutes: nat) returns (r: Instant)
    requires Valid(t)
    ensures Valid(r) && Micros(r) == Micros(t) + minutes * MINUTE
  {
    var total := t.micros + minutes * MINUTE;
    r := Instant(AddDays(t.date, total / DAY), total % DAY);
    AddDaysAdvances(t.date, total / DAY);
    assert total == (total / DAY) * DAY + total % DAY;
  }
}
