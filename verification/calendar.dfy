/** Dates of the Gregorian calendar and the steps between them that the programs take. */
module Calendar {

  predicate IsLeap(year: int) {
    year % 4 == 0 && (year % 100 != 0 || year % 400 == 0)
  }

  function DaysIn(year: int, month: int): int {
    if month == 2 then (if IsLeap(year) then 29 else 28)
    else if month == 4 || month == 6 || month == 9 || month == 11 then 30
    else 31
  }

  datatype Ymd = Ymd(year: int, month: int, day: int)

  /** The years are not bounded here. */
  type Date = d: Ymd | 1 <= d.month <= 12 && 1 <= d.day <= DaysIn(d.year, d.month) witness Ymd(1900, 1, 1)

  /** The months, counted. */
  function MonthOf(d: Date): int {
    d.year * 12 + d.month - 1
  }

  function LengthOf(month: int): int {
    DaysIn(month / 12, month % 12 + 1)
  }

  /** The day of a month, the last one when the month is shorter. */
  function InMonth(month: int, day: int): (d: Date)
    requires day >= 1
    ensures MonthOf(d) == month && d.day == if day <= LengthOf(month) then day else LengthOf(month)
  {
    Ymd(month / 12, month % 12 + 1, if day <= LengthOf(month) then day else LengthOf(month))
  }

  lemma OneDate(d: Date, e: Date)
    requires MonthOf(d) == MonthOf(e) && d.day == e.day
    ensures d == e
  {
  }

  lemma LengthOfMonth(d: Date)
    ensures LengthOf(MonthOf(d)) == DaysIn(d.year, d.month) && 1 <= d.day <= LengthOf(MonthOf(d))
  {
  }

  predicate Before(d: Date, e: Date) {
    MonthOf(d) < MonthOf(e) || (MonthOf(d) == MonthOf(e) && d.day < e.day)
  }

  predicate NotAfter(d: Date, e: Date) {
    !Before(e, d)
  }

  lemma NotAfterTransitive(a: Date, b: Date, c: Date)
    ensures NotAfter(a, b) && NotAfter(b, c) ==> NotAfter(a, c)
  {
  }

  predicate LastOfMonth(d: Date) {
    d.day == DaysIn(d.year, d.month)
  }

  function EndOfMonth(d: Date): Date {
    InMonth(MonthOf(d), 31)
  }

  /** `relativedelta(months=n)`: the day is clipped to the length of the month. */
  function AddMonths(d: Date, n: int): Date {
    InMonth(MonthOf(d) + n, d.day)
  }

  function NextDay(d: Date): Date {
    if LastOfMonth(d) then InMonth(MonthOf(d) + 1, 1) else InMonth(MonthOf(d), d.day + 1)
  }

  function PrevDay(d: Date): Date {
    if d.day == 1 then InMonth(MonthOf(d) - 1, 31) else InMonth(MonthOf(d), d.day - 1)
  }

  function AddDays(d: Date, n: int): Date
    decreases if n < 0 then -n else n
  {
    if n == 0 then d else if n > 0 then NextDay(AddDays(d, n - 1)) else PrevDay(AddDays(d, n + 1))
  }

  lemma DayAfterDay(d: Date)
    ensures PrevDay(NextDay(d)) == d && NextDay(PrevDay(d)) == d
  {
    LengthOfMonth(d);
    LengthOfMonth(NextDay(d));
    LengthOfMonth(PrevDay(d));
    OneDate(PrevDay(NextDay(d)), d);
    OneDate(NextDay(PrevDay(d)), d);
  }

  /** There is no date between a day and the next. */
  lemma NextIsNext(d: Date, e: Date)
    ensures Before(d, NextDay(d)) && (Before(d, e) <==> NotAfter(NextDay(d), e))
    ensures Before(PrevDay(d), d) && (Before(e, d) <==> NotAfter(e, PrevDay(d)))
  {
    LengthOfMonth(d);
    LengthOfMonth(e);
    LengthOfMonth(PrevDay(d));
  }

  lemma {:induction false} AddDaysMonotone(d: Date, e: Date, n: int)
    ensures NotAfter(d, e) ==> NotAfter(AddDays(d, n), AddDays(e, n))
    decreases if n < 0 then -n else n
  {
    if n > 0 {
      AddDaysMonotone(d, e, n - 1);
      NextIsNext(AddDays(d, n - 1), AddDays(e, n - 1));
      NextIsNext(AddDays(e, n - 1), AddDays(d, n - 1));
      NextIsNext(AddDays(d, n - 1), AddDays(e, n));
    } else if n < 0 {
      AddDaysMonotone(d, e, n + 1);
      NextIsNext(AddDays(d, n + 1), AddDays(e, n + 1));
      NextIsNext(AddDays(e, n + 1), AddDays(d, n + 1));
      NextIsNext(AddDays(e, n + 1), AddDays(d, n));
    }
  }

  lemma {:induction false} AddDaysForward(d: Date, n: nat)
    ensures NotAfter(d, AddDays(d, n))
  {
    if n > 0 {
      AddDaysForward(d, n - 1);
      NextIsNext(AddDays(d, n - 1), d);
    }
  }

  // ----- days counted ---------------------------------------------------------------------------

  /** The days before a year: a leap day every fourth year, but for centuries, but for every fourth of those. */
  function DaysBeforeYear(year: int): int {
    365 * (year - 1) + (year - 1) / 4 - (year - 1) / 100 + (year - 1) / 400
  }

  const DAYS_BEFORE_MONTH := [0, 31, 59, 90, 120, 151, 181, 212, 243, 273, 304, 334, 365]

  /** The number of a date, 1 January of the year 1 being the first. */
  function Ordinal(d: Date): int {
    DaysBeforeYear(d.year) + DAYS_BEFORE_MONTH[d.month - 1] + d.day +
    if d.month > 2 then DaysBeforeYear(d.year + 1) - DaysBeforeYear(d.year) - 365 else 0
  }

  lemma LeapYears(year: int)
    ensures DaysBeforeYear(year + 1) - DaysBeforeYear(year) == if IsLeap(year) then 366 else 365
  {
    Quotient(year, 4);
    Quotient(year, 100);
    Quotient(year, 400);
  }

  lemma Quotient(n: int, k: int)
    requires k == 4 || k == 100 || k == 400
    ensures n / k - (n - 1) / k == if n % k == 0 then 1 else 0
  {
  }

  lemma NextDayIs(d: Date)
    ensures NextDay(d) ==
      if d.day < DaysIn(d.year, d.month) then Ymd(d.year, d.month, d.day + 1)
      else if d.month < 12 then Ymd(d.year, d.month + 1, 1)
      else Ymd(d.year + 1, 1, 1)
  {
  }

  /** A day is one more than the day before: months and leap years have the length they should. */
  lemma OrdinalOfNext(d: Date)
    ensures Ordinal(NextDay(d)) == Ordinal(d) + 1
  {
    NextDayIs(d);
    LeapYears(d.year);
    LeapYears(d.year + 1);
    hide NextDay, DaysBeforeYear, IsLeap;
  }

  lemma OrdinalOfPrev(d: Date)
    ensures Ordinal(PrevDay(d)) == Ordinal(d) - 1
  {
    hide Ordinal, NextDay, PrevDay;
    DayAfterDay(d);
    OrdinalOfNext(PrevDay(d));
  }

  /** Adding days adds to the count. */
  lemma {:induction false} OrdinalOfSum(d: Date, n: int)
    ensures Ordinal(AddDays(d, n)) == Ordinal(d) + n
    decreases if n < 0 then -n else n
  {
    hide Ordinal, NextDay, PrevDay;
    if n > 0 {
      OrdinalOfSum(d, n - 1);
      OrdinalOfNext(AddDays(d, n - 1));
    } else if n < 0 {
      OrdinalOfSum(d, n + 1);
      OrdinalOfPrev(AddDays(d, n + 1));
    }
  }
}
