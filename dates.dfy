/**
 * Calendar dates as JavaScript's `Date` treats them in local time (no time zones, no
 * daylight saving): months count from 0, and setDate / setMonth / setFullYear roll a day
 * past the end of its month into the following month instead of clamping it.
 */
module Dates {

  const MsPerDay: nat := 86400000

  /** A local date and time of day; `month` is 0-11 and `ms` the milliseconds since midnight. */
  datatype DateTime = DateTime(year: nat, month: nat, day: nat, ms: nat)

  predicate IsLeap(y: nat) {
    (y % 4 == 0 && y % 100 != 0) || y % 400 == 0
  }

  function DaysIn(y: nat, m: nat): nat
    requires m < 12
  {
    if m == 1 then (if IsLeap(y) then 29 else 28)
    else if m == 3 || m == 5 || m == 8 || m == 10 then 30
    else 31
  }

  predicate Valid(d: DateTime) {
    d.month < 12 && 1 <= d.day <= DaysIn(d.year, d.month) && d.ms < MsPerDay
  }

  function DaysInYear(y: nat): nat {
    if IsLeap(y) then 366 else 365
  }

  /**
   * Days from the start of year 0 to the start of year `y`: 365 a year plus one for each
   * leap year before `y` (multiples of 4, less multiples of 100, plus multiples of 400).
   */
  function DaysBeforeYear(y: nat): nat {
    365 * y + (y + 3) / 4 - (y + 99) / 100 + (y + 399) / 400
  }

  lemma DaysBeforeNextYear(y: nat)
    ensures DaysBeforeYear(y + 1) == DaysBeforeYear(y) + DaysInYear(y)
  {
    assert (y + 4) / 4 - (y + 3) / 4 == (if y % 4 == 0 then 1 else 0);
    assert (y + 100) / 100 - (y + 99) / 100 == (if y % 100 == 0 then 1 else 0);
    assert (y + 400) / 400 - (y + 399) / 400 == (if y % 400 == 0 then 1 else 0);
    assert y % 400 == 0 ==> y % 100 == 0;
    assert y % 100 == 0 ==> y % 4 == 0;
  }

  function DaysBeforeMonth(y: nat, m: nat): nat
    requires m <= 12
    decreases m
  {
    if m == 0 then 0 else DaysBeforeMonth(y, m - 1) + DaysIn(y, m - 1)
  }

  /** Days from year 0 to the first of the month. */
  function MonthStart(y: nat, m: nat): nat
    requires m < 12
  {
    DaysBeforeYear(y) + DaysBeforeMonth(y, m)
  }

  function DayNumber(d: DateTime): int
    requires d.month < 12
  {
    MonthStart(d.year, d.month) + d.day - 1
  }

  /**
   * Instants compare by day and then by time of day, which for valid dates is the order of
   * their millisecond timestamps.
   */
  predicate Before(a: DateTime, b: DateTime)
    requires a.month < 12 && b.month < 12
  {
    DayNumber(a) < DayNumber(b) || (DayNumber(a) == DayNumber(b) && a.ms < b.ms)
  }

  predicate AtOrBefore(a: DateTime, b: DateTime)
    requires a.month < 12 && b.month < 12
  {
    Before(a, b) || (DayNumber(a) == DayNumber(b) && a.ms == b.ms)
  }

  /** The millisecond timestamp JS compares dates by, counted from the start of year 0. */
  function Stamp(d: DateTime): int {
    if d.month < 12 then DayNumber(d) * MsPerDay + d.ms else 0
  }

  /** On valid dates, the calendar order is the order of the timestamps. */
  lemma StampOrder(a: DateTime, b: DateTime)
    requires Valid(a) && Valid(b)
    ensures Before(a, b) <==> Stamp(a) < Stamp(b)
    ensures AtOrBefore(a, b) <==> Stamp(a) <= Stamp(b)
  {
    if DayNumber(a) < DayNumber(b) {
      assert DayNumber(a) * MsPerDay + MsPerDay <= DayNumber(b) * MsPerDay;
    } else if DayNumber(b) < DayNumber(a) {
      assert DayNumber(b) * MsPerDay + MsPerDay <= DayNumber(a) * MsPerDay;
    }
  }

  /** The date `Date` normalises day `d` of month `m` to: a day past the month's end rolls forward. */
  function Roll(y: nat, m: nat, d: nat, ms: nat): (r: DateTime)
    requires m < 12 && d >= 1
    ensures r.month < 12 && r.ms == ms && 1 <= r.day <= DaysIn(r.year, r.month)
    decreases d
  {
    if d <= DaysIn(y, m) then DateTime(y, m, d, ms)
    else if m == 11 then Roll(y + 1, 0, d - DaysIn(y, m), ms)
    else Roll(y, m + 1, d - DaysIn(y, m), ms)
  }

  lemma DaysBeforeFullYear(y: nat)
    ensures DaysBeforeMonth(y, 12) == DaysInYear(y)
  {
    assert DaysBeforeMonth(y, 1) == 31;
    assert DaysBeforeMonth(y, 2) == 31 + DaysIn(y, 1);
    assert DaysBeforeMonth(y, 7) == DaysBeforeMonth(y, 2) + 153;
    assert DaysBeforeMonth(y, 12) == DaysBeforeMonth(y, 7) + 153;
  }

  /** The first of the next month comes DaysIn(y, m) days after the first of this one. */
  lemma NextMonthStart(y: nat, m: nat)
    requires m < 12
    ensures m < 11 ==> MonthStart(y, m + 1) == MonthStart(y, m) + DaysIn(y, m)
    ensures m == 11 ==> MonthStart(y + 1, 0) == MonthStart(y, m) + DaysIn(y, m)
  {
    if m == 11 {
      DaysBeforeFullYear(y);
      DaysBeforeNextYear(y);
    }
  }

  /** Rolling keeps the day count: the result is `d - 1` days after the first of the month. */
  lemma {:induction false} RollDayNumber(y: nat, m: nat, d: nat, ms: nat)
    requires m < 12 && d >= 1
    ensures DayNumber(Roll(y, m, d, ms)) == MonthStart(y, m) + d - 1
    decreases d
  {
    var n := DaysIn(y, m);
    if d > n {
      NextMonthStart(y, m);
      if m == 11 {
        assert Roll(y, m, d, ms) == Roll(y + 1, 0, d - n, ms);
        RollDayNumber(y + 1, 0, d - n, ms);
      } else {
        assert Roll(y, m, d, ms) == Roll(y, m + 1, d - n, ms);
        RollDayNumber(y, m + 1, d - n, ms);
      }
    } else {
      assert Roll(y, m, d, ms) == DateTime(y, m, d, ms);
    }
  }

  /** A valid date is its own roll. */
  lemma RollValid(d: DateTime)
    requires Valid(d)
    ensures Roll(d.year, d.month, d.day, d.ms) == d
  {
  }

  /** Later months start later. */
  lemma {:induction false} MonthStartMonotone(y1: nat, m1: nat, y2: nat, m2: nat)
    requires m1 < 12 && m2 < 12
    requires y1 < y2 || (y1 == y2 && m1 < m2)
    ensures MonthStart(y1, m1) < MonthStart(y2, m2)
    decreases y2 - y1, m2 - m1 + 12
  {
    NextMonthStart(y1, m1);
    if m1 == 11 {
      assert y1 < y2;
      if !(y1 + 1 == y2 && m2 == 0) {
        MonthStartMonotone(y1 + 1, 0, y2, m2);
      }
    } else {
      if !(y1 == y2 && m2 == m1 + 1) {
        MonthStartMonotone(y1, m1 + 1, y2, m2);
      }
    }
  }

  /** `date.setDate(n)`. */
  function WithDate(d: DateTime, n: nat): DateTime
    requires d.month < 12 && n >= 1
  {
    Roll(d.year, d.month, n, d.ms)
  }

  /** `date.setMonth(n)`: months past December carry into the year. */
  function WithMonth(d: DateTime, n: nat): DateTime
    requires d.day >= 1
  {
    Roll(d.year + n / 12, n % 12, d.day, d.ms)
  }

  /** `date.setFullYear(y)`. */
  function WithFullYear(d: DateTime, y: nat): DateTime
    requires d.month < 12 && d.day >= 1
  {
    Roll(y, d.month, d.day, d.ms)
  }

  /** A mutable `Date`, as calculateNextDueDate uses its copy of the start date. */
  class JsDate {
    var year: nat
    var month: nat
    var date: nat
    var ms: nat

    function Value(): DateTime
      reads this
    {
      DateTime(year, month, date, ms)
    }

    /** `new Date(d)`: a copy. */
    constructor (d: DateTime)
      requires Valid(d)
      ensures Value() == d
    {
      year, month, date, ms := d.year, d.month, d.day, d.ms;
    }

    method Assign(d: DateTime)
      modifies this
      ensures Value() == d
    {
      year, month, date, ms := d.year, d.month, d.day, d.ms;
    }

    method SetDate(n: nat)
      requires Valid(Value()) && n >= 1
      modifies this
      ensures Value() == WithDate(old(Value()), n) && Valid(Value())
    {
      Assign(WithDate(Value(), n));
    }

    method SetMonth(n: nat)
      requires Valid(Value())
      modifies this
      ensures Value() == WithMonth(old(Value()), n) && Valid(Value())
    {
      Assign(WithMonth(Value(), n));
    }

    method SetFullYear(y: nat)
      requires Valid(Value())
      modifies this
      ensures Value() == WithFullYear(old(Value()), y) && Valid(Value())
    {
      Assign(WithFullYear(Value(), y));
    }
  }

  /** Plan billing cycles; `OtherCycle` is any value the switch does not list. */
  datatype Cycle = Weekly | Biweekly | Monthly | Quarterly | Semiannually | Yearly | OtherCycle(name: string)

  /** The days the day-based cycles add. */
  function CycleDays(cycle: Cycle): nat {
    match cycle
    case Weekly => 7
    case Biweekly => 14
    case _ => 0
  }

  /** The months the month-based cycles add; an unlisted cycle falls to the monthly default. */
  function CycleMonths(cycle: Cycle): nat {
    match cycle
    case Monthly => 1
    case Quarterly => 3
    case Semiannually => 6
    case Yearly => 12
    case OtherCycle(_) => 1
    case _ => 0
  }

  /** The due date one cycle after `start`: setDate for the day-based cycles, setFullYear for the yearly one, setMonth for the rest. */
  function NextDueDate(start: DateTime, cycle: Cycle): DateTime
    requires Valid(start)
  {
    match cycle
    case Weekly | Biweekly => WithDate(start, start.day + CycleDays(cycle))
    case Yearly => WithFullYear(start, start.year + 1)
    case _ => WithMonth(start, start.month + CycleMonths(cycle))
  }

  /** calculateNextDueDate: it works on a copy, so the start date is left as it was. */
  method CalculateNextDueDate(start: DateTime, cycle: Cycle) returns (due: DateTime)
    requires Valid(start)
    ensures due == NextDueDate(start, cycle)
    ensures Valid(due)
  {
    var d := new JsDate(start);
    match cycle {
      case Weekly => d.SetDate(d.date + 7);
      case Biweekly => d.SetDate(d.date + 14);
      case Monthly => d.SetMonth(d.month + 1);
      case Quarterly => d.SetMonth(d.month + 3);
      case Semiannually => d.SetMonth(d.month + 6);
      case Yearly => d.SetFullYear(d.year + 1);
      case OtherCycle(_) => d.SetMonth(d.month + 1);
    }
    due := d.Value();
  }

  /** calculateEndDate delegates to calculateNextDueDate. */
  function EndDate(start: DateTime, cycle: Cycle): (end: DateTime)
    requires Valid(start)
    ensures end == NextDueDate(start, cycle)
  {
    NextDueDate(start, cycle)
  }

  /** Moving `k` months forward lands on the same day of the target month, rolled forward if that month is shorter. */
  lemma MonthsLater(start: DateTime, k: nat, r: DateTime)
    requires Valid(start) && 1 <= k <= 12 && r == WithMonth(start, start.month + k)
    ensures Valid(r) && Before(start, r)
    ensures var t := start.month + k;
            DayNumber(r) == MonthStart(start.year + t / 12, t % 12) + start.day - 1
  {
    var t := start.month + k;
    var y2, m2 := start.year + t / 12, t % 12;
    if t < 12 {
      assert t / 12 == 0 && t % 12 == t;
    } else {
      assert t / 12 == 1 && t % 12 == t - 12;
    }
    RollDayNumber(y2, m2, start.day, start.ms);
    MonthStartMonotone(start.year, start.month, y2, m2);
    assert r == Roll(y2, m2, start.day, start.ms);
    assert DayNumber(r) > DayNumber(start);
  }

  /** Adding `n` days moves the day count by exactly `n`. */
  lemma DaysLater(start: DateTime, n: nat, r: DateTime)
    requires Valid(start) && n >= 1 && r == WithDate(start, start.day + n)
    ensures Valid(r) && DayNumber(r) == DayNumber(start) + n && Before(start, r)
  {
    RollDayNumber(start.year, start.month, start.day + n, start.ms);
    assert r == Roll(start.year, start.month, start.day + n, start.ms);
    assert DayNumber(r) == DayNumber(start) + n;
  }

  /** setFullYear(year + 1) is setMonth(month + 12). */
  lemma YearIsTwelveMonths(start: DateTime)
    requires Valid(start)
    ensures WithFullYear(start, start.year + 1) == WithMonth(start, start.month + 12)
  {
    var t := start.month + 12;
    assert t / 12 == 1 && t % 12 == start.month;
  }

  /** The day-based cycles are a setDate, every other cycle a setMonth by CycleMonths. */
  lemma DueDateShape(start: DateTime, cycle: Cycle)
    requires Valid(start)
    ensures cycle == Weekly || cycle == Biweekly ==>
              NextDueDate(start, cycle) == WithDate(start, start.day + CycleDays(cycle))
    ensures cycle != Weekly && cycle != Biweekly ==>
              NextDueDate(start, cycle) == WithMonth(start, start.month + CycleMonths(cycle))
  {
    if cycle == Yearly {
      YearIsTwelveMonths(start);
    }
  }

  /** The weekly and biweekly cycles move the due date by exactly 7 and 14 days. */
  lemma DayCycleDue(start: DateTime, cycle: Cycle)
    requires Valid(start) && (cycle == Weekly || cycle == Biweekly)
    ensures CycleDays(cycle) == (if cycle == Weekly then 7 else 14)
    ensures var r := NextDueDate(start, cycle);
            Valid(r) && Before(start, r) && DayNumber(r) == DayNumber(start) + CycleDays(cycle)
  {
    DueDateShape(start, cycle);
    DaysLater(start, CycleDays(cycle), NextDueDate(start, cycle));
  }

  /**
   * The month-based cycles land on the same day 1, 3, 6 or 12 months later (rolled forward
   * when that month is shorter), and an unlisted cycle behaves as the monthly one.
   */
  lemma MonthCycleDue(start: DateTime, cycle: Cycle)
    requires Valid(start) && cycle != Weekly && cycle != Biweekly
    ensures CycleMonths(cycle) == match cycle
                                  case Quarterly => 3
                                  case Semiannually => 6
                                  case Yearly => 12
                                  case _ => 1
    ensures NextDueDate(start, cycle) == WithMonth(start, start.month + CycleMonths(cycle))
    ensures Valid(NextDueDate(start, cycle)) && Before(start, NextDueDate(start, cycle))
    ensures cycle.OtherCycle? ==> NextDueDate(start, cycle) == NextDueDate(start, Monthly)
  {
    DueDateShape(start, cycle);
    DueDateShape(start, Monthly);
    MonthsLater(start, CycleMonths(cycle), NextDueDate(start, cycle));
  }

  /** Every cycle puts the due date, a valid date, strictly after the start. */
  lemma NextDueDateIsLater(start: DateTime, cycle: Cycle)
    requires Valid(start)
    ensures Valid(NextDueDate(start, cycle)) && Before(start, NextDueDate(start, cycle))
  {
    if cycle == Weekly || cycle == Biweekly {
      DayCycleDue(start, cycle);
    } else {
      MonthCycleDue(start, cycle);
    }
  }

  /** One month after the 31st of January 2025 is the 3rd of March: the overflow rolls over. */
  lemma MonthlyRollsOver()
    ensures NextDueDate(DateTime(2025, 0, 31, 0), Monthly) == DateTime(2025, 2, 3, 0)
    ensures NextDueDate(DateTime(2024, 1, 29, 0), Yearly) == DateTime(2025, 2, 1, 0)
  {
  }
}
