/** The cutoff day of a payment term
    (account_payment_term_cutoff_day/models/account_payment_term_line.py, lines 24-43). */
module CutoffDay {
  import opened Calendar
  import opened Options

  /** What counts of a payment term line. */
  datatype TermLine = TermLine(hasCutoffDay: bool, cutoffDay: int, months: int, nbDays: int)

  /** There is no date for a negative cutoff day (a ValueError in the program). */
  function CutoffDate(t: TermLine, d: Date): Option<Date> {
    if !t.hasCutoffDay || t.cutoffDay == 0 then Some(d)
    else if t.cutoffDay < 0 then None
    else
      var cutoff := InMonth(MonthOf(d), t.cutoffDay);
      Some(if d.day > t.cutoffDay then AddMonths(cutoff, 1) else cutoff)
  }

  /** The end of the month that is so many months after the cutoff date, and some days. */
  function DueDate(t: TermLine, d: Date): Option<Date>
    requires t.hasCutoffDay
  {
    match CutoffDate(t, d)
    case None => None
    case Some(c) => Some(AddDays(EndOfMonth(AddMonths(c, t.months)), t.nbDays))
  }

  /** The date closes its month: it is on the cutoff day, or on the last day of a shorter month. */
  predicate Closes(cutoffDay: int, d: Date) {
    d.day == if cutoffDay <= LengthOf(MonthOf(d)) then cutoffDay else LengthOf(MonthOf(d))
  }

  /** The cutoff date is the first closing date that is not before the given one, and nothing else is. */
  lemma CutoffIsLeast(t: TermLine, d: Date, c: Date)
    requires t.hasCutoffDay && t.cutoffDay >= 1
    ensures CutoffDate(t, d) == Some(c) <==>
      && Closes(t.cutoffDay, c) && NotAfter(d, c)
      && forall e: Date :: Closes(t.cutoffDay, e) && NotAfter(d, e) ==> NotAfter(c, e)
  {
    var r := CutoffDate(t, d).value;
    LengthOfMonth(d);
    LengthOfMonth(r);
    assert Closes(t.cutoffDay, r) && NotAfter(d, r);
    forall e: Date | Closes(t.cutoffDay, e) && NotAfter(d, e) ensures NotAfter(r, e) {
      LengthOfMonth(e);
    }
    if Closes(t.cutoffDay, c) && NotAfter(d, c) && NotAfter(c, r) {
      assert NotAfter(r, c);
      LengthOfMonth(c);
      OneDate(c, r);
    }
  }

  /** A closure operator on dates, in spite of the clipping: a later date has a later cutoff date, and a
      cutoff date is its own. */
  lemma CutoffCloses(t: TermLine, d: Date, e: Date)
    requires t.hasCutoffDay && t.cutoffDay >= 0
    ensures var c := CutoffDate(t, d).value; NotAfter(d, c) && CutoffDate(t, c) == Some(c)
    ensures NotAfter(d, e) ==> NotAfter(CutoffDate(t, d).value, CutoffDate(t, e).value)
  {
    if t.cutoffDay > 0 {
      hide CutoffDate, Closes, NotAfter;
      var c, f := CutoffDate(t, d).value, CutoffDate(t, e).value;
      CutoffIsLeast(t, d, c);
      CutoffIsLeast(t, e, f);
      CutoffIsLeast(t, c, c);
      SameDay(c);
      NotAfterTransitive(d, e, f);
    } else {
      SameDay(d);
    }
  }

  lemma SameDay(d: Date)
    ensures NotAfter(d, d)
  {
  }

  lemma EndOfMonthMonotone(d: Date, e: Date, n: int)
    requires NotAfter(d, e)
    ensures NotAfter(EndOfMonth(AddMonths(d, n)), EndOfMonth(AddMonths(e, n)))
    ensures n >= 0 ==> NotAfter(d, EndOfMonth(AddMonths(d, n)))
  {
    LengthOfMonth(d);
    LengthOfMonth(e);
  }

  /** A later invoice is not due earlier; and no invoice is due before its own date, when neither months
      nor days are negative. */
  lemma DueDateMonotone(t: TermLine, d: Date, e: Date)
    requires t.hasCutoffDay && t.cutoffDay >= 0
    ensures DueDate(t, d).Some? && DueDate(t, e).Some?
    ensures NotAfter(d, e) ==> NotAfter(DueDate(t, d).value, DueDate(t, e).value)
    ensures t.months >= 0 && t.nbDays >= 0 ==> NotAfter(d, DueDate(t, d).value)
  {
    CutoffCloses(t, d, e);
    hide NotAfter, EndOfMonth, AddMonths;
    var c, f := CutoffDate(t, d).value, CutoffDate(t, e).value;
    SameDay(c);
    EndOfMonthMonotone(c, c, t.months);
    if NotAfter(d, e) {
      EndOfMonthMonotone(c, f, t.months);
      AddDaysMonotone(EndOfMonth(AddMonths(c, t.months)), EndOfMonth(AddMonths(f, t.months)), t.nbDays);
    }
    if t.months >= 0 && t.nbDays >= 0 {
      var end := EndOfMonth(AddMonths(c, t.months));
      AddDaysForward(end, t.nbDays);
      NotAfterTransitive(d, c, end);
      NotAfterTransitive(d, end, DueDate(t, d).value);
    }
  }

  /** The due date, counted in days: so many days after the last day of the month that is so many months after that of
      the cutoff date, which is the date itself when no cutoff day is set. */
  lemma DueDateIs(t: TermLine, d: Date) returns (c: Date, e: Date)
    requires t.hasCutoffDay && t.cutoffDay >= 0
    ensures CutoffDate(t, d) == Some(c) && (t.cutoffDay == 0 ==> c == d)
    ensures e.year * 12 + e.month == c.year * 12 + c.month + t.months && e.day == DaysIn(e.year, e.month)
    ensures DueDate(t, d).Some? && Ordinal(DueDate(t, d).value) == Ordinal(e) + t.nbDays
  {
    c := CutoffDate(t, d).value;
    e := EndOfMonth(AddMonths(c, t.months));
    LengthOfMonth(e);
    hide AddDays, Ordinal;
    OrdinalOfSum(e, t.nbDays);
  }
}
