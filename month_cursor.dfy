/** The month shown by the dashboard and the budget page, and `changeMonth`,
    which both pages implement the same way: copy the cursor date and call
    `setMonth(getMonth() ± 1)` on the copy. */
module MonthCursor {
  import opened Dates

  datatype Direction = Prev | Next

  function Step(dir: Direction): int {
    match dir
    case Prev => -1
    case Next => 1
  }

  /** `Date.prototype.setMonth(getMonth() + delta)`: the month moves by
      `delta` (the year carries), the day of the month is kept, and a day the
      target month does not have rolls over into the month after it. */
  function SetMonth(d: Date, delta: int): (r: Date)
    requires 1 <= d.month <= 12 && 1 <= d.day <= 31
    ensures 1 <= r.month <= 12 && 1 <= r.day <= DaysInMonth(r.year, r.month)
    ensures var target := AddMonths(MonthOf(d), delta);
            if d.day <= DaysInMonth(target.year, target.month)
            then MonthOf(r) == target && r.day == d.day
            else MonthOf(r) == AddMonths(target, 1) && r.day == d.day - DaysInMonth(target.year, target.month)
  {
    var target := AddMonths(MonthOf(d), delta);
    var n := DaysInMonth(target.year, target.month);
    if d.day <= n then Date(target.year, target.month, d.day)
    else
      var after := AddMonths(target, 1);
      Date(after.year, after.month, d.day - n)
  }

  /** `changeMonth` as written, on the cursor date (initially today). */
  function ChangeMonthAsWritten(cursor: Date, dir: Direction): (r: Date)
    requires 1 <= cursor.month <= 12 && 1 <= cursor.day <= 31
    ensures 1 <= r.month <= 12 && 1 <= r.day <= 31
  {
    SetMonth(cursor, Step(dir))
  }

  /** On the 28th or earlier the step moves exactly one month. */
  lemma ChangeMonthEarlyDays(cursor: Date, dir: Direction)
    requires 1 <= cursor.month <= 12 && 1 <= cursor.day <= 28
    ensures MonthOf(ChangeMonthAsWritten(cursor, dir)) == AddMonths(MonthOf(cursor), Step(dir))
  {
  }

  /** On 31 January, "next" shows March: February is skipped. */
  lemma NextSkipsFebruaryAsWritten()
    ensures ChangeMonthAsWritten(Date(2025, 1, 31), Next) == Date(2025, 3, 3)
    ensures MonthOf(ChangeMonthAsWritten(Date(2025, 1, 31), Next)) != AddMonths(YearMonth(2025, 1), 1)
  {
    assert AddMonths(YearMonth(2025, 1), 1) == YearMonth(2025, 2) by {
      MonthIndexInjective(AddMonths(YearMonth(2025, 1), 1), YearMonth(2025, 2));
    }
    assert !IsLeapYear(2025);
    assert AddMonths(YearMonth(2025, 2), 1) == YearMonth(2025, 3) by {
      MonthIndexInjective(AddMonths(YearMonth(2025, 2), 1), YearMonth(2025, 3));
    }
  }

  /** On 31 March, "prev" shows March again: the cursor does not move. */
  lemma PrevStaysAsWritten()
    ensures ChangeMonthAsWritten(Date(2025, 3, 31), Prev) == Date(2025, 3, 3)
  {
    assert AddMonths(YearMonth(2025, 3), -1) == YearMonth(2025, 2) by {
      MonthIndexInjective(AddMonths(YearMonth(2025, 3), -1), YearMonth(2025, 2));
    }
    assert !IsLeapYear(2025);
    assert AddMonths(YearMonth(2025, 2), 1) == YearMonth(2025, 3) by {
      MonthIndexInjective(AddMonths(YearMonth(2025, 2), 1), YearMonth(2025, 3));
    }
  }

  /** `changeMonth` as intended: the cursor is the shown month itself, and a
      step moves it to the adjacent month. */
  function ChangeMonth(ym: YearMonth, dir: Direction): (r: YearMonth)
    ensures ValidMonth(r) && MonthIndex(r) == MonthIndex(ym) + Step(dir)
  {
    AddMonths(ym, Step(dir))
  }

  /** The neighbouring month read off the calendar. */
  function Adjacent(ym: YearMonth, dir: Direction): YearMonth {
    match dir
    case Next => if ym.month == 12 then YearMonth(ym.year + 1, 1) else YearMonth(ym.year, ym.month + 1)
    case Prev => if ym.month == 1 then YearMonth(ym.year - 1, 12) else YearMonth(ym.year, ym.month - 1)
  }

  /** The adjacent month, by the calendar: December is followed by January
      of the next year and January preceded by December of the year before. */
  lemma ChangeMonthCalendar(ym: YearMonth, dir: Direction)
    requires ValidMonth(ym)
    ensures ChangeMonth(ym, dir) == Adjacent(ym, dir)
  {
    MonthIndexInjective(ChangeMonth(ym, dir), Adjacent(ym, dir));
  }

  /** A step back undoes a step forward, and the other way round. */
  lemma ChangeMonthUndo(ym: YearMonth)
    requires ValidMonth(ym)
    ensures ChangeMonth(ChangeMonth(ym, Next), Prev) == ym
    ensures ChangeMonth(ChangeMonth(ym, Prev), Next) == ym
  {
    MonthIndexInjective(ChangeMonth(ChangeMonth(ym, Next), Prev), ym);
    MonthIndexInjective(ChangeMonth(ChangeMonth(ym, Prev), Next), ym);
  }
}
