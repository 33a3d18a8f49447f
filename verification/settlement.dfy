/** Settling commissions: the periods of an agent, and the grouping of invoice lines into settlements
    (commission_oca/wizards/commission_make_settle.py, lines 33-68 and 112-163; the lines come ordered
    from account_commission_oca/wizards/commission_make_settle.py, lines 18-35). */
module Settlements {
  import opened Calendar
  import opened Options

  datatype Cycle = Monthly | Biweekly | Quarterly | Semi | Annual

  // ----- periods ------------------------------------------------------------------------------

  function PeriodStart(c: Cycle, d: Date): Date {
    match c
    case Monthly => Ymd(d.year, d.month, 1)
    case Biweekly => if d.day >= 16 then Ymd(d.year, d.month, 16) else Ymd(d.year, d.month, 1)
    case Quarterly => Ymd(d.year, (d.month - 1) / 3 * 3 + 1, 1)
    case Semi => if d.month > 6 then Ymd(d.year, 7, 1) else Ymd(d.year, 1, 1)
    case Annual => Ymd(d.year, 1, 1)
  }

  /** For the second half of a month, the last day of that month. */
  function NextPeriod(c: Cycle, d: Date): Date {
    match c
    case Monthly => AddMonths(d, 1)
    case Biweekly => if d.day == 1 then AddDays(d, 15) else PrevDay(AddMonths(Ymd(d.year, d.month, 1), 1))
    case Quarterly => AddMonths(d, 3)
    case Semi => AddMonths(d, 6)
    case Annual => AddMonths(d, 12)
  }

  function PeriodEnd(c: Cycle, d: Date): Date {
    PrevDay(NextPeriod(c, PeriodStart(c, d)))
  }

  function MonthsOf(c: Cycle): int
    requires !c.Biweekly?
  {
    match c
    case Monthly => 1
    case Quarterly => 3
    case Semi => 6
    case Annual => 12
  }

  /** The first month of the period, the months being counted. */
  function FirstMonth(c: Cycle, month: int): int
    requires !c.Biweekly?
  {
    match c
    case Monthly => month
    case Quarterly => month / 3 * 3
    case Semi => month / 6 * 6
    case Annual => month / 12 * 12
  }

  lemma Quarters(a: int, b: int)
    ensures a / 3 * 3 <= b < a / 3 * 3 + 3 <==> b / 3 * 3 == a / 3 * 3
  {
  }

  lemma Halves(a: int, b: int)
    ensures a / 6 * 6 <= b < a / 6 * 6 + 6 <==> b / 6 * 6 == a / 6 * 6
  {
  }

  lemma Years(a: int, b: int)
    ensures a / 12 * 12 <= b < a / 12 * 12 + 12 <==> b / 12 * 12 == a / 12 * 12
  {
  }

  /** The months of a period are those that begin it together. */
  lemma Blocks(c: Cycle, a: int, b: int)
    requires !c.Biweekly?
    ensures FirstMonth(c, a) <= b < FirstMonth(c, a) + MonthsOf(c) <==> FirstMonth(c, b) == FirstMonth(c, a)
  {
    match c
    case Monthly =>
    case Quarterly => Quarters(a, b);
    case Semi => Halves(a, b);
    case Annual => Years(a, b);
  }

  lemma NextBlock(c: Cycle, a: int)
    requires !c.Biweekly?
    ensures FirstMonth(c, FirstMonth(c, a) + MonthsOf(c)) == FirstMonth(c, a) + MonthsOf(c)
  {
    match c
    case Monthly =>
    case Quarterly => Multiple(3, a / 3 + 1);
    case Semi => Multiple(6, a / 6 + 1);
    case Annual => Multiple(12, a / 12 + 1);
  }

  lemma Multiple(k: int, q: int)
    requires k == 3 || k == 6 || k == 12
    ensures q * k / k * k == q * k
  {
  }

  /** A period is a whole number of months, counted from January. */
  lemma WholeMonths(c: Cycle, d: Date)
    requires !c.Biweekly?
    ensures PeriodStart(c, d) == InMonth(FirstMonth(c, MonthOf(d)), 1)
    ensures NextPeriod(c, PeriodStart(c, d)) == InMonth(FirstMonth(c, MonthOf(d)) + MonthsOf(c), 1)
  {
    var s, y, m := PeriodStart(c, d), d.year, d.month - 1;
    match c {
      case Monthly =>
      case Quarterly => assert (12 * y + m) / 3 == 4 * y + m / 3;
      case Semi => assert (12 * y + m) / 6 == 2 * y + m / 6;
      case Annual => assert (12 * y + m) / 12 == y;
    }
    OneDate(s, InMonth(FirstMonth(c, MonthOf(d)), 1));
  }

  /** Dates against the first day of a month. */
  lemma AgainstFirst(month: int, d: Date)
    ensures NotAfter(InMonth(month, 1), d) <==> month <= MonthOf(d)
    ensures NotAfter(d, PrevDay(InMonth(month, 1))) <==> MonthOf(d) < month
    ensures NextDay(PrevDay(InMonth(month, 1))) == InMonth(month, 1)
  {
    NextIsNext(InMonth(month, 1), d);
    DayAfterDay(InMonth(month, 1));
  }

  /** The periods tile the calendar: a date lies in its period, the dates of a period are those that
      begin on the same day, and the day after a period begins the next. */
  lemma PeriodsTile(c: Cycle, d: Date, e: Date)
    requires !c.Biweekly?
    ensures NotAfter(PeriodStart(c, d), d) && NotAfter(d, PeriodEnd(c, d))
    ensures NotAfter(PeriodStart(c, d), e) && NotAfter(e, PeriodEnd(c, d)) <==> PeriodStart(c, e) == PeriodStart(c, d)
    ensures var n := NextDay(PeriodEnd(c, d)); PeriodStart(c, n) == n && n == NextPeriod(c, PeriodStart(c, d))
  {
    var f, n := FirstMonth(c, MonthOf(d)), FirstMonth(c, MonthOf(d)) + MonthsOf(c);
    WholeMonths(c, d);
    WholeMonths(c, e);
    WholeMonths(c, InMonth(n, 1));
    hide PeriodStart, NextPeriod, FirstMonth, NotAfter, NextDay, PrevDay;
    AgainstFirst(f, d);
    AgainstFirst(f, e);
    AgainstFirst(n, d);
    AgainstFirst(n, e);
    Blocks(c, MonthOf(d), MonthOf(d));
    Blocks(c, MonthOf(d), MonthOf(e));
    NextBlock(c, MonthOf(d));
  }

  lemma {:induction false} WithinMonth(d: Date, n: nat)
    requires d.day == 1 && n < 28
    ensures AddDays(d, n) == Ymd(d.year, d.month, 1 + n)
  {
    if n > 0 {
      WithinMonth(d, n - 1);
    }
  }

  lemma Fortnights(d: Date)
    ensures d.day < 16 ==> PeriodEnd(Biweekly, d) == Ymd(d.year, d.month, 15)
    ensures d.day >= 16 ==> PeriodEnd(Biweekly, d) == Ymd(d.year, d.month, DaysIn(d.year, d.month) - 1)
  {
    var first: Date := Ymd(d.year, d.month, 1);
    if d.day < 16 {
      WithinMonth(first, 15);
    } else {
      hide AddDays;
      assert PrevDay(AddMonths(first, 1)) == InMonth(MonthOf(d), 31);
    }
  }

  /** A fortnight's period leaves out the last day of the month, and nothing else. */
  lemma FortnightIff(d: Date)
    ensures NotAfter(PeriodStart(Biweekly, d), d)
    ensures NotAfter(d, PeriodEnd(Biweekly, d)) <==> !LastOfMonth(d)
  {
    Fortnights(d);
    hide PeriodEnd;
  }

  /** The dates from one in a period to its end begin the same period, fortnights included. */
  lemma SamePeriod(c: Cycle, d: Date, e: Date)
    requires NotAfter(d, e) && NotAfter(e, PeriodEnd(c, d))
    ensures PeriodStart(c, e) == PeriodStart(c, d) && PeriodEnd(c, e) == PeriodEnd(c, d)
  {
    if c.Biweekly? {
      SameFortnight(d, e);
    } else {
      PeriodsTile(c, d, e);
      hide PeriodStart, NextPeriod;
      NotAfterTransitive(PeriodStart(c, d), d, e);
    }
  }

  lemma SameFortnight(d: Date, e: Date)
    requires NotAfter(d, e) && NotAfter(e, PeriodEnd(Biweekly, d))
    ensures PeriodStart(Biweekly, e) == PeriodStart(Biweekly, d) && PeriodEnd(Biweekly, e) == PeriodEnd(Biweekly, d)
  {
    Fortnights(d);
    Fortnights(e);
    hide PeriodEnd;
  }

  /** Whether a settlement of its period takes in a date. */
  lemma InPeriodIff(c: Cycle, d: Date)
    ensures NotAfter(PeriodStart(c, d), d)
    ensures NotAfter(d, PeriodEnd(c, d)) <==> (c.Biweekly? ==> !LastOfMonth(d))
  {
    if c.Biweekly? {
      FortnightIff(d);
    } else {
      PeriodsTile(c, d, d);
    }
  }

  /** The period of a date before the current period ends before the current period starts. */
  lemma EndsBefore(c: Cycle, d: Date, today: Date)
    requires Before(d, PeriodStart(c, today))
    ensures Before(PeriodEnd(c, d), PeriodStart(c, today))
  {
    if c.Biweekly? {
      Fortnights(d);
    } else {
      var s := PeriodStart(c, today);
      PeriodsTile(c, d, s);
      PeriodsTile(c, today, today);
      PeriodStartAgain(c, today);
      hide PeriodStart, PeriodEnd;
    }
  }

  lemma PeriodStartAgain(c: Cycle, d: Date)
    ensures PeriodStart(c, PeriodStart(c, d)) == PeriodStart(c, d)
  {
  }

  // ----- settling -----------------------------------------------------------------------------

  const EPOCH: Date := Ymd(1900, 1, 1)

  datatype Agent = Agent(id: nat, cycle: Cycle)

  datatype AgentLine = AgentLine(id: nat, company: nat, currency: nat, invoiceDate: Date, skip: bool)

  datatype Settlement =
    Settlement(agent: nat, dateFrom: Date, dateTo: Date, company: nat, currency: nat, settled: bool)

  datatype SettlementLine = SettlementLine(settlement: nat, line: nat)

  type GroupKey = (nat, nat)

  function KeyOf(l: AgentLine): GroupKey {
    (l.company, l.currency)
  }

  /** The settlement a line belongs in. */
  function Target(a: Agent, l: AgentLine): Settlement {
    Settlement(
      a.id, PeriodStart(a.cycle, l.invoiceDate), PeriodEnd(a.cycle, l.invoiceDate), l.company, l.currency, true)
  }

  predicate ByDate(ls: seq<AgentLine>) {
    forall i, j | 0 <= i < j < |ls| :: NotAfter(ls[i].invoiceDate, ls[j].invoiceDate)
  }

  function NotSkipped(ls: seq<AgentLine>): seq<AgentLine> {
    if ls == [] then []
    else
      var last := ls[|ls| - 1];
      NotSkipped(ls[..|ls| - 1]) + (if last.skip then [] else [last])
  }

  /** The line is dated after the day the loop over a group starts from. */
  predicate Late(l: AgentLine) {
    Before(EPOCH, l.invoiceDate)
  }

  lemma LateIff(l: AgentLine)
    ensures Late(l) <==> var d := l.invoiceDate; d.year > 1900 || (d.year == 1900 && (d.month > 1 || d.day > 1))
  {
  }

  predicate AfterEpoch(ls: seq<AgentLine>) {
    forall l <- ls :: !l.skip ==> Late(l)
  }

  /** Each line that is not skipped has been settled, in order, in the settlement it belongs in. */
  ghost predicate Settled(all: map<nat, Settlement>, a: Agent, ls: seq<AgentLine>, vals: seq<SettlementLine>) {
    && |vals| == |NotSkipped(ls)|
    && forall i | 0 <= i < |vals| ::
      && vals[i].line == NotSkipped(ls)[i].id && vals[i].settlement in all
      && all[vals[i].settlement] == Target(a, NotSkipped(ls)[i])
  }

  /** Each line that is not skipped has been given a settlement line, in order: late ones in the settlement they
      belong in, the others in the one that was at hand before the group. */
  ghost predicate Grouped(
    all: map<nat, Settlement>, a: Agent, ls: seq<AgentLine>, before: Option<nat>, vals: seq<SettlementLine>)
  {
    && |vals| == |NotSkipped(ls)|
    && forall i | 0 <= i < |vals| ::
      && vals[i].line == NotSkipped(ls)[i].id
      && if Late(NotSkipped(ls)[i])
         then vals[i].settlement in all && all[vals[i].settlement] == Target(a, NotSkipped(ls)[i])
         else before == Some(vals[i].settlement)
  }

  /** The lines that are not late belong in the settlement that was at hand before the group. */
  ghost predicate EarlyFit(all: map<nat, Settlement>, a: Agent, ls: seq<AgentLine>, before: Option<nat>) {
    forall l <- NotSkipped(ls) | !Late(l) :: before.Some? && before.value in all && all[before.value] == Target(a, l)
  }

  lemma SettledIff(all: map<nat, Settlement>, a: Agent, ls: seq<AgentLine>, before: Option<nat>, vals: seq<SettlementLine>)
    requires Grouped(all, a, ls, before, vals)
    ensures Settled(all, a, ls, vals) <==> EarlyFit(all, a, ls, before)
  {
    hide Target, NotSkipped, Late;
    if EarlyFit(all, a, ls, before) {
      forall i | 0 <= i < |vals|
        ensures vals[i].settlement in all && all[vals[i].settlement] == Target(a, NotSkipped(ls)[i])
      {
        assert NotSkipped(ls)[i] in NotSkipped(ls);
      }
    }
    if Settled(all, a, ls, vals) {
      forall l <- NotSkipped(ls) | !Late(l)
        ensures before.Some? && before.value in all && all[before.value] == Target(a, l)
      {
        var i :| 0 <= i < |NotSkipped(ls)| && NotSkipped(ls)[i] == l;
        assert before == Some(vals[i].settlement);
      }
    }
  }

  lemma SameFit(all: map<nat, Settlement>, more: map<nat, Settlement>, a: Agent, ls: seq<AgentLine>, before: Option<nat>)
    requires Extends(all, more) && (before.Some? ==> before.value in all)
    ensures EarlyFit(more, a, ls, before) <==> EarlyFit(all, a, ls, before)
  {
    hide Target, NotSkipped, Late;
  }

  lemma AllLate(all: map<nat, Settlement>, a: Agent, ls: seq<AgentLine>, before: Option<nat>)
    requires AfterEpoch(ls)
    ensures EarlyFit(all, a, ls, before) && (NotSkipped(ls) != [] ==> Late(NotSkipped(ls)[0]))
  {
    NotSkippedIn(ls);
    hide NotSkipped, Late;
    assert NotSkipped(ls) != [] ==> NotSkipped(ls)[0] in NotSkipped(ls);
  }

  /** What was there is still there, and nothing was created that was there already. */
  ghost predicate Extends(before: map<nat, Settlement>, now: map<nat, Settlement>) {
    && (forall n <- before :: n in now && now[n] == before[n])
    && (forall n <- now, m <- now :: n !in before && m != n ==> now[m] != now[n])
  }

  /** Where the loop over a group stands: with no late line settled, where it started; else the settlement at hand
      is the one of the last line settled, and later lines are not earlier. */
  ghost predicate AtHand(all: map<nat, Settlement>, a: Agent, ls: seq<AgentLine>, pos: nat, before: Option<nat>,
      n: Option<nat>, settTo: Date)
    requires pos <= |ls|
  {
    var done := NotSkipped(ls[..pos]);
    if done == [] || !Late(done[|done| - 1]) then settTo == EPOCH && n == before
    else
      var l := done[|done| - 1];
      && n.Some? && n.value in all && all[n.value] == Target(a, l) && settTo == PeriodEnd(a.cycle, l.invoiceDate)
      && forall i | pos <= i < |ls| :: NotAfter(l.invoiceDate, ls[i].invoiceDate)
  }

  lemma NotSkippedMore(ls: seq<AgentLine>, pos: nat)
    requires pos < |ls|
    ensures NotSkipped(ls[..pos + 1]) == NotSkipped(ls[..pos]) + if ls[pos].skip then [] else [ls[pos]]
  {
    assert ls[..pos + 1][..pos] == ls[..pos];
  }

  lemma SameTarget(a: Agent, l: AgentLine, k: AgentLine)
    requires NotAfter(l.invoiceDate, k.invoiceDate) && NotAfter(k.invoiceDate, PeriodEnd(a.cycle, l.invoiceDate))
    requires KeyOf(l) == KeyOf(k)
    ensures Target(a, k) == Target(a, l) && PeriodEnd(a.cycle, k.invoiceDate) == PeriodEnd(a.cycle, l.invoiceDate)
  {
    hide PeriodStart, PeriodEnd, NotAfter;
    SamePeriod(a.cycle, l.invoiceDate, k.invoiceDate);
  }

  /** A late line up to the end of the period at hand belongs in the settlement at hand. */
  lemma StaysAtHand(all: map<nat, Settlement>, a: Agent, ls: seq<AgentLine>, pos: nat, before: Option<nat>,
      n: Option<nat>, settTo: Date)
    requires pos < |ls| && AtHand(all, a, ls, pos, before, n, settTo) && NotAfter(ls[pos].invoiceDate, settTo)
    requires Late(ls[pos])
    requires forall l <- NotSkipped(ls[..pos]) :: KeyOf(l) == KeyOf(ls[pos])
    ensures n.Some? && n.value in all && all[n.value] == Target(a, ls[pos])
    ensures settTo == PeriodEnd(a.cycle, ls[pos].invoiceDate)
  {
    hide PeriodStart, PeriodEnd, NextPeriod, NotSkipped, Target, KeyOf;
    var done := NotSkipped(ls[..pos]);
    assert done != [] && Late(done[|done| - 1]);
    var l := done[|done| - 1];
    assert l in done;
    SameTarget(a, l, ls[pos]);
  }

  /** As long as lines are not late, the loop stands where it started. */
  lemma NoneLate(all: map<nat, Settlement>, a: Agent, ls: seq<AgentLine>, pos: nat, before: Option<nat>,
      n: Option<nat>, settTo: Date)
    requires pos < |ls| && AtHand(all, a, ls, pos, before, n, settTo) && !Late(ls[pos])
    ensures settTo == EPOCH && n == before
  {
    hide PeriodEnd, NotSkipped, Target;
  }

  lemma {:induction false} NotSkippedIn(ls: seq<AgentLine>)
    ensures forall l <- NotSkipped(ls) :: l in ls && !l.skip
  {
    if ls != [] {
      NotSkippedIn(ls[..|ls| - 1]);
    }
  }

  class CommissionMakeSettle {
    var settlements: map<nat, Settlement>
    var lines: seq<SettlementLine>
    var nextId: nat

    ghost predicate Valid()
      reads this
    {
      forall n <- settlements :: n < nextId
    }

    constructor ()
      ensures Valid() && settlements == map[] && lines == []
    {
      settlements, lines, nextId := map[], [], 0;
    }

    /** A settlement that is still open for these values, if there is one. */
    method GetSettlement(wanted: Settlement) returns (r: Option<nat>)
      ensures r.Some? ==> r.value in settlements && settlements[r.value] == wanted
      ensures r.None? ==> forall n <- settlements :: settlements[n] != wanted
    {
      var found := set n <- settlements | settlements[n] == wanted;
      if found == {} {
        forall n <- settlements ensures settlements[n] != wanted {
          assert n !in found;
        }
        return None;
      }
      var n :| n in found;
      r := Some(n);
    }

    /** The settlement for these values, created if there is none. */
    method Ensure(wanted: Settlement) returns (n: nat)
      requires Valid() && wanted.settled
      modifies this`settlements, this`nextId
      ensures Valid() && Extends(old(settlements), settlements) && n in settlements && settlements[n] == wanted
    {
      var found := GetSettlement(wanted);
      if found.Some? {
        n := found.value;
      } else {
        n := nextId;
        settlements := settlements[n := wanted];
        nextId := nextId + 1;
      }
    }

    /** One line that is not skipped: past the period at hand, the settlement of its own period is
        looked up or created; then the line is settled there. */
    method SettleLine(a: Agent, l: AgentLine, settlement: Option<nat>, settTo: Date)
      returns (n: Option<nat>, to: Date)
      requires Valid()
      modifies this`settlements, this`nextId
      ensures Valid() && Extends(old(settlements), settlements)
      ensures if Before(settTo, l.invoiceDate)
        then n.Some? && n.value in settlements && settlements[n.value] == Target(a, l) && to == PeriodEnd(a.cycle, l.invoiceDate)
        else n == settlement && to == settTo && settlements == old(settlements)
    {
      hide PeriodStart, NextPeriod;
      n, to := settlement, settTo;
      if Before(settTo, l.invoiceDate) {
        var settFrom := PeriodStart(a.cycle, l.invoiceDate);
        to := PrevDay(NextPeriod(a.cycle, settFrom));
        var id := Ensure(Settlement(a.id, settFrom, to, l.company, l.currency, true));
        n := Some(id);
      }
    }

    /** The lines of one company and currency, in order of date. A line no later than the end of the
        period at hand goes to the settlement at hand, the name of which outlives the group; when
        there is none the program fails. So lines dated up to 1900-01-01 go to the settlement of the group
        before, and are settled where they belong exactly when it is theirs. */
    method SettleGroup(a: Agent, ls: seq<AgentLine>, before: Option<nat>)
      returns (ok: bool, settlement: Option<nat>, vals: seq<SettlementLine>)
      requires Valid() && ByDate(ls) && forall l <- ls, k <- ls :: KeyOf(l) == KeyOf(k)
      requires before.Some? ==> before.value in settlements
      modifies this
      ensures Valid() && Extends(old(settlements), settlements)
      ensures ok <==> before.Some? || NotSkipped(ls) == [] || Late(NotSkipped(ls)[0])
      ensures lines == if ok then old(lines) + vals else old(lines)
      ensures settlement.Some? ==> settlement.value in settlements
      ensures ok ==> Grouped(settlements, a, ls, before, vals)
      ensures ok ==> (Settled(settlements, a, ls, vals) <==> EarlyFit(old(settlements), a, ls, before))
    {
      hide Extends, AtHand, Settled, Grouped, EarlyFit, Target, PeriodStart, PeriodEnd, NextPeriod, ByDate, KeyOf, Before;
      var pos, settTo := 0, EPOCH;
      settlement, vals := before, [];
      Starting(settlements, a, ls, settlement);
      ExtendsMore(settlements, settlements, settlements);
      while pos < |ls|
        invariant 0 <= pos <= |ls| && Valid() && Extends(old(settlements), settlements) && lines == old(lines)
        invariant settlement.Some? ==> settlement.value in settlements
        invariant before.Some? ==> settlement.Some?
        invariant NotSkipped(ls[..pos]) == [] ==> settlement == before && settTo == EPOCH
        invariant NotSkipped(ls[..pos]) != [] ==> settlement.Some?
        invariant NotSkipped(ls[..pos]) != [] ==> before.Some? || Late(NotSkipped(ls[..pos])[0])
        invariant AtHand(settlements, a, ls, pos, before, settlement, settTo)
        invariant Grouped(settlements, a, ls[..pos], before, vals)
      {
        var line := ls[pos];
        NotSkippedMore(ls, pos);
        NotSkippedPrefix(ls, pos + 1);
        pos := pos + 1;
        if line.skip {
          SkippedOne(settlements, a, ls, pos - 1, before, settlement, settTo, vals);
          continue;
        }
        ghost var s0, n0, t0, v0 := settlements, settlement, settTo, vals;
        settlement, settTo := SettleLine(a, line, settlement, settTo);
        if settlement.None? {
          ok, vals := false, [];
          return;
        }
        vals := vals + [SettlementLine(settlement.value, line.id)];
        ExtendsMore(old(settlements), s0, settlements);
        Extended(s0, settlements, n0);
        SettledOne(s0, settlements, a, ls, pos - 1, before, n0, t0, settlement.value, settTo, v0);
      }
      assert ls[..|ls|] == ls;
      ok := true;
      lines := lines + vals;
      SettledIff(settlements, a, ls, before, vals);
      SameFit(old(settlements), settlements, a, ls, before);
    }

    /** The lines of an agent, company by company and currency by currency. */
    method SettleAgent(a: Agent, ls: seq<AgentLine>, before: Option<nat>)
      returns (ok: bool, settlement: Option<nat>, ghost done: seq<Owing>, ghost vals: seq<SettlementLine>)
      requires Valid() && ByDate(ls) && (before.Some? ==> before.value in settlements)
      modifies this
      ensures Valid() && Extends(old(settlements), settlements)
      ensures settlement.Some? ==> settlement.value in settlements
      ensures AfterEpoch(ls) ==>
        && ok && lines == old(lines) + vals && Matched(settlements, done, vals)
        && multiset(done) == multiset(Owed(a, ls, Keys(ls)))
    {
      hide *;
      settlement, done, vals, ok := before, [], [], true;
      var toCome := Keys(ls);
      ghost var keys := toCome;
      assert keys - toCome == {};
      NothingOwed(settlements, a, ls);
      assert lines == old(lines) + vals;
      while toCome != {}
        invariant toCome <= keys && Valid() && Extends(old(settlements), settlements)
        invariant settlement.Some? ==> settlement.value in settlements
        invariant AfterEpoch(ls) ==>
          && ok && lines == old(lines) + vals && Matched(settlements, done, vals)
          && multiset(done) == multiset(Owed(a, ls, keys - toCome))
        decreases toCome
      {
        var key :| key in toCome;
        GroupIn(ls, key);
        ghost var s0, held := settlements, settlement;
        var more;
        ok, settlement, more := SettleGroup(a, Group(ls, key), settlement);
        ExtendsMore(old(settlements), s0, settlements);
        if AfterEpoch(ls) {
          GroupAfterEpoch(ls, key);
          AllLate(s0, a, Group(ls, key), held);
        }
        if !ok {
          return;
        }
        if AfterEpoch(ls) {
          SettledGroup(s0, settlements, a, ls, key, keys - toCome, done, vals, more);
          done := done + Owed(a, ls, {key});
        }
        vals := vals + more;
        assert keys - (toCome - {key}) == (keys - toCome) + {key};
        toCome := toCome - {key};
      }
      assert keys - {} == keys;
    }

    /** Every line of every agent that is not to be skipped is settled, exactly once, in the settlement of
        its period. */
    method ActionSettle(agents: seq<Agent>, dateTo: Date, linesOf: map<Agent, seq<AgentLine>>)
      returns (ok: bool, ghost done: seq<Owing>, ghost vals: seq<SettlementLine>)
      requires Valid() && forall a <- agents :: a in linesOf
      requires forall a <- agents :: ByDate(linesOf[a])
      requires forall a <- agents :: forall l <- linesOf[a] :: Before(l.invoiceDate, PeriodStart(a.cycle, dateTo))
      modifies this
      ensures Valid() && Extends(old(settlements), settlements)
      ensures (forall a <- agents :: AfterEpoch(linesOf[a])) ==>
        && ok && lines == old(lines) + vals && Matched(settlements, done, vals)
        && multiset(done) == multiset(AllOwed(agents, linesOf))
        && forall i | 0 <= i < |vals| ::
          && vals[i].settlement in settlements && done[i].agent.id == settlements[vals[i].settlement].agent
          && Takes(settlements[vals[i].settlement], done[i], dateTo)
    {
      hide *;
      done, vals, ok := [], [], true;
      var settlement := None;
      NothingMatched(settlements);
      assert agents[..0] == [];
      assert lines == old(lines) + vals;
      ghost var fine := forall a <- agents :: AfterEpoch(linesOf[a]);
      for i := 0 to |agents|
        invariant Valid() && Extends(old(settlements), settlements)
        invariant settlement.Some? ==> settlement.value in settlements
        invariant fine ==>
          && ok && lines == old(lines) + vals && Matched(settlements, done, vals)
          && multiset(done) == multiset(AllOwed(agents[..i], linesOf))
      {
        var a := agents[i];
        ghost var s0 := settlements;
        ghost var more, news;
        ok, settlement, more, news := SettleAgent(a, linesOf[a], settlement);
        ExtendsMore(old(settlements), s0, settlements);
        if !ok {
          return;
        }
        if fine {
          MatchedMore(s0, settlements, done, vals, more, news);
          AllOwedMore(agents, linesOf, i);
        }
        done, vals := done + more, vals + news;
      }
      assert agents[..|agents|] == agents;
      if fine {
        MatchedTakes(settlements, agents, linesOf, dateTo, done, vals);
      }
    }
  }

  // ----- what is owed ---------------------------------------------------------------------------

  /** A line that an agent's settlement is to take. */
  datatype Owing = Owing(agent: Agent, line: AgentLine)

  function Keys(ls: seq<AgentLine>): set<GroupKey> {
    set l <- ls :: KeyOf(l)
  }

  function Group(ls: seq<AgentLine>, key: GroupKey): seq<AgentLine> {
    if ls == [] then []
    else
      var last := ls[|ls| - 1];
      Group(ls[..|ls| - 1], key) + (if KeyOf(last) == key then [last] else [])
  }

  function Owed(a: Agent, ls: seq<AgentLine>, keys: set<GroupKey>): seq<Owing> {
    if ls == [] then []
    else
      var last := ls[|ls| - 1];
      Owed(a, ls[..|ls| - 1], keys) + (if KeyOf(last) in keys && !last.skip then [Owing(a, last)] else [])
  }

  function AllOwed(agents: seq<Agent>, linesOf: map<Agent, seq<AgentLine>>): seq<Owing>
    requires forall a <- agents :: a in linesOf
  {
    if agents == [] then []
    else
      var last := agents[|agents| - 1];
      AllOwed(agents[..|agents| - 1], linesOf) + Owed(last, linesOf[last], Keys(linesOf[last]))
  }

  /** One settlement line for each, in the settlement of its period. */
  ghost predicate Matched(all: map<nat, Settlement>, done: seq<Owing>, vals: seq<SettlementLine>) {
    && |vals| == |done|
    && forall i | 0 <= i < |vals| ::
      && vals[i].line == done[i].line.id && vals[i].settlement in all
      && all[vals[i].settlement] == Target(done[i].agent, done[i].line)
  }

  /** The settlement takes in the date of the line (fortnights miss the last day of the month), and it is
      over before the agent's current period starts. */
  ghost predicate Takes(s: Settlement, o: Owing, dateTo: Date) {
    && s.agent == o.agent.id && s.company == o.line.company && s.currency == o.line.currency && s.settled
    && s.dateFrom == PeriodStart(o.agent.cycle, o.line.invoiceDate)
    && s.dateTo == PrevDay(NextPeriod(o.agent.cycle, s.dateFrom))
    && NotAfter(s.dateFrom, o.line.invoiceDate)
    && (NotAfter(o.line.invoiceDate, s.dateTo) <==> (o.agent.cycle.Biweekly? ==> !LastOfMonth(o.line.invoiceDate)))
    && Before(s.dateTo, PeriodStart(o.agent.cycle, dateTo))
  }

  lemma NothingMatched(all: map<nat, Settlement>)
    ensures Matched(all, [], []) && Extends(all, all)
    ensures forall linesOf: map<Agent, seq<AgentLine>> :: AllOwed([], linesOf) == []
  {
  }

  lemma NothingOwed(all: map<nat, Settlement>, a: Agent, ls: seq<AgentLine>)
    ensures Matched(all, [], []) && Extends(all, all) && Owed(a, ls, {}) == []
  {
    if ls != [] {
      NothingOwed(all, a, ls[..|ls| - 1]);
    }
  }

  lemma {:induction false} GroupIn(ls: seq<AgentLine>, key: GroupKey)
    requires ByDate(ls)
    ensures ByDate(Group(ls, key)) && forall l <- Group(ls, key) :: l in ls && KeyOf(l) == key
    ensures forall l <- Group(ls, key), k <- Group(ls, key) :: KeyOf(l) == KeyOf(k)
  {
    if ls != [] {
      var front, last := ls[..|ls| - 1], ls[|ls| - 1];
      GroupIn(front, key);
      hide KeyOf, NotAfter;
      forall l <- front ensures NotAfter(l.invoiceDate, last.invoiceDate) {
        var i :| 0 <= i < |front| && front[i] == l;
        assert ls[i] == l;
      }
      var g, h := Group(front, key), Group(ls, key);
      forall i, j | 0 <= i < j < |h| ensures NotAfter(h[i].invoiceDate, h[j].invoiceDate) {
        assert i < |g| && h[i] == g[i] && g[i] in g;
        assert j < |g| ==> h[j] == g[j];
      }
      forall l <- h ensures l in ls && KeyOf(l) == key {
        assert l in g || l == last;
      }
    }
  }

  lemma GroupAfterEpoch(ls: seq<AgentLine>, key: GroupKey)
    requires ByDate(ls)
    ensures AfterEpoch(ls) ==> AfterEpoch(Group(ls, key))
  {
    GroupIn(ls, key);
  }

  lemma {:induction false} OwedGroup(a: Agent, ls: seq<AgentLine>, key: GroupKey)
    ensures var o, n := Owed(a, ls, {key}), NotSkipped(Group(ls, key));
      |o| == |n| && forall i | 0 <= i < |o| :: o[i] == Owing(a, n[i])
  {
    if ls != [] {
      var front, last := ls[..|ls| - 1], ls[|ls| - 1];
      OwedGroup(a, front, key);
      var g := Group(front, key);
      assert (g + [last])[..|g|] == g && g + [] == g;
      assert NotSkipped(g + [last]) == NotSkipped(g) + (if last.skip then [] else [last]);
    }
  }

  lemma {:induction false} OwedMore(a: Agent, ls: seq<AgentLine>, keys: set<GroupKey>, key: GroupKey)
    requires key !in keys
    ensures multiset(Owed(a, ls, keys + {key})) == multiset(Owed(a, ls, keys)) + multiset(Owed(a, ls, {key}))
  {
    if ls != [] {
      OwedMore(a, ls[..|ls| - 1], keys, key);
    }
  }

  lemma MatchedMore(before: map<nat, Settlement>, all: map<nat, Settlement>, done: seq<Owing>, vals: seq<SettlementLine>,
      more: seq<Owing>, news: seq<SettlementLine>)
    requires Extends(before, all) && Matched(before, done, vals) && Matched(all, more, news)
    ensures Matched(all, done + more, vals + news)
  {
    hide Target;
  }

  lemma MatchedGroup(all: map<nat, Settlement>, a: Agent, ls: seq<AgentLine>, key: GroupKey, vals: seq<SettlementLine>)
    requires Settled(all, a, Group(ls, key), vals)
    ensures Matched(all, Owed(a, ls, {key}), vals)
  {
    OwedGroup(a, ls, key);
    hide Target, Owed, NotSkipped, Group;
  }

  lemma SettledGroup(before: map<nat, Settlement>, all: map<nat, Settlement>, a: Agent, ls: seq<AgentLine>, key: GroupKey,
      keys: set<GroupKey>, done: seq<Owing>, vals: seq<SettlementLine>, more: seq<SettlementLine>)
    requires Extends(before, all) && Matched(before, done, vals) && key !in keys
    requires multiset(done) == multiset(Owed(a, ls, keys)) && Settled(all, a, Group(ls, key), more)
    ensures Matched(all, done + Owed(a, ls, {key}), vals + more)
    ensures multiset(done + Owed(a, ls, {key})) == multiset(Owed(a, ls, keys + {key}))
  {
    hide *;
    OwedMore(a, ls, keys, key);
    MatchedGroup(all, a, ls, key, more);
    MatchedMore(before, all, done, vals, Owed(a, ls, {key}), more);
  }

  lemma AllOwedMore(agents: seq<Agent>, linesOf: map<Agent, seq<AgentLine>>, i: int)
    requires 0 <= i < |agents| && forall a <- agents :: a in linesOf
    ensures AllOwed(agents[..i + 1], linesOf) ==
      AllOwed(agents[..i], linesOf) + Owed(agents[i], linesOf[agents[i]], Keys(linesOf[agents[i]]))
  {
    assert agents[..i + 1][..i] == agents[..i];
  }

  lemma {:induction false} OwedIn(a: Agent, ls: seq<AgentLine>, keys: set<GroupKey>)
    ensures forall o <- Owed(a, ls, keys) :: o.agent == a && o.line in ls
  {
    if ls != [] {
      OwedIn(a, ls[..|ls| - 1], keys);
    }
  }

  lemma {:induction false} AllOwedIn(agents: seq<Agent>, linesOf: map<Agent, seq<AgentLine>>)
    requires forall a <- agents :: a in linesOf
    ensures forall o <- AllOwed(agents, linesOf) :: o.agent in agents && o.line in linesOf[o.agent]
  {
    if agents != [] {
      var last := agents[|agents| - 1];
      AllOwedIn(agents[..|agents| - 1], linesOf);
      OwedIn(last, linesOf[last], Keys(linesOf[last]));
    }
  }

  lemma MatchedTakes(all: map<nat, Settlement>, agents: seq<Agent>, linesOf: map<Agent, seq<AgentLine>>, dateTo: Date,
      done: seq<Owing>, vals: seq<SettlementLine>)
    requires Matched(all, done, vals) && (forall a <- agents :: a in linesOf)
    requires multiset(done) == multiset(AllOwed(agents, linesOf))
    requires forall a <- agents :: forall l <- linesOf[a] :: Before(l.invoiceDate, PeriodStart(a.cycle, dateTo))
    ensures forall i | 0 <= i < |vals| ::
      && vals[i].settlement in all && done[i].agent.id == all[vals[i].settlement].agent
      && Takes(all[vals[i].settlement], done[i], dateTo)
  {
    AllOwedIn(agents, linesOf);
    hide PeriodStart, PeriodEnd, AllOwed, LastOfMonth, NotAfter, Before;
    forall i | 0 <= i < |vals| ensures Takes(all[vals[i].settlement], done[i], dateTo) {
      var o := done[i];
      assert o in multiset(done);
      assert o in AllOwed(agents, linesOf);
      InPeriodIff(o.agent.cycle, o.line.invoiceDate);
      EndsBefore(o.agent.cycle, o.line.invoiceDate, dateTo);
    }
  }

  lemma Starting(all: map<nat, Settlement>, a: Agent, ls: seq<AgentLine>, n: Option<nat>)
    ensures AtHand(all, a, ls, 0, n, n, EPOCH) && Grouped(all, a, ls[..0], n, [])
  {
  }

  lemma Extended(before: map<nat, Settlement>, all: map<nat, Settlement>, n: Option<nat>)
    requires Extends(before, all) && (n.Some? ==> n.value in before)
    ensures n.Some? ==> n.value in all
  {
  }

  lemma {:induction false} NotSkippedPrefix(ls: seq<AgentLine>, pos: nat)
    requires pos <= |ls|
    ensures NotSkipped(ls[..pos]) <= NotSkipped(ls)
    decreases |ls|
  {
    if pos == |ls| {
      assert ls[..pos] == ls;
    } else {
      var front := ls[..|ls| - 1];
      NotSkippedPrefix(front, pos);
      assert front[..pos] == ls[..pos];
    }
  }

  lemma ExtendsMore(a: map<nat, Settlement>, b: map<nat, Settlement>, c: map<nat, Settlement>)
    ensures Extends(a, a)
    ensures Extends(a, b) && Extends(b, c) ==> Extends(a, c)
  {
  }

  lemma SkippedOne(all: map<nat, Settlement>, a: Agent, ls: seq<AgentLine>, pos: nat, before: Option<nat>,
      n: Option<nat>, to: Date, vals: seq<SettlementLine>)
    requires pos < |ls| && ls[pos].skip
    requires AtHand(all, a, ls, pos, before, n, to) && Grouped(all, a, ls[..pos], before, vals)
    ensures AtHand(all, a, ls, pos + 1, before, n, to) && Grouped(all, a, ls[..pos + 1], before, vals)
  {
    NotSkippedMore(ls, pos);
    assert NotSkipped(ls[..pos + 1]) == NotSkipped(ls[..pos]);
    hide Target, PeriodEnd, NotSkipped, NotAfter;
  }

  /** One more line settled. */
  lemma SettledOne(s0: map<nat, Settlement>, all: map<nat, Settlement>, a: Agent, ls: seq<AgentLine>, pos: nat,
      before: Option<nat>, n0: Option<nat>, t0: Date, n: nat, to: Date, vals: seq<SettlementLine>)
    requires pos < |ls| && !ls[pos].skip && ByDate(ls) && Extends(s0, all)
    requires forall l <- ls, k <- ls :: KeyOf(l) == KeyOf(k)
    requires AtHand(s0, a, ls, pos, before, n0, t0) && Grouped(s0, a, ls[..pos], before, vals)
    requires if Before(t0, ls[pos].invoiceDate)
      then n in all && all[n] == Target(a, ls[pos]) && to == PeriodEnd(a.cycle, ls[pos].invoiceDate)
      else Some(n) == n0 && to == t0 && all == s0
    ensures AtHand(all, a, ls, pos + 1, before, Some(n), to)
    ensures Grouped(all, a, ls[..pos + 1], before, vals + [SettlementLine(n, ls[pos].id)])
  {
    hide Target, PeriodEnd, PeriodStart;
    NotSkippedMore(ls, pos);
    if !Late(ls[pos]) {
      NoneLate(s0, a, ls, pos, before, n0, t0);
    } else if !Before(t0, ls[pos].invoiceDate) {
      NotSkippedIn(ls[..pos]);
      forall l <- NotSkipped(ls[..pos]) ensures KeyOf(l) == KeyOf(ls[pos]) {
        assert l in ls;
      }
      hide NotSkipped, KeyOf;
      StaysAtHand(s0, a, ls, pos, before, n0, t0);
    }
  }
}
