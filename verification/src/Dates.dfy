/** The Gregorian calendar on day numbers (day 1 is Monday, 1 January of year 1) and the holidays
    the US session observes. */
module Dates {

  predicate Leap(y: int) {
    y % 4 == 0 && (y % 100 != 0 || y % 400 == 0)
  }

  function DaysBeforeYear(y: int): int {
    (y - 1) * 365 + (y - 1) / 4 - (y - 1) / 100 + (y - 1) / 400
  }

  function YearLength(y: int): int {
    if Leap(y) then 366 else 365
  }

  function LeapDay(y: int): int {
    if Leap(y) then 1 else 0
  }

  function DaysBeforeMonth(y: int, m: int): int
    requires 1 <= m <= 13
  {
    [0, 31, 59, 90, 120, 151, 181, 212, 243, 273, 304, 334, 365][m - 1] + if m > 2 then LeapDay(y) else 0
  }

  /** date(y, m, d) */
  function Day(y: int, m: int, d: int): int
    requires 1 <= m <= 13
  {
    DaysBeforeYear(y) + DaysBeforeMonth(y, m) + d
  }

  /** Monday is 0. */
  function Weekday(day: int): int {
    (day + 6) % 7
  }

  lemma QuotientsStep(n: int)
    ensures n / 4 - (n - 1) / 4 == if n % 4 == 0 then 1 else 0
    ensures n / 100 - (n - 1) / 100 == if n % 100 == 0 then 1 else 0
    ensures n / 400 - (n - 1) / 400 == if n % 400 == 0 then 1 else 0
  {
  }

  lemma YearsFollow(y: int)
    ensures DaysBeforeYear(y + 1) == DaysBeforeYear(y) + YearLength(y)
  {
    QuotientsStep(y);
  }

  lemma WeekdayFrom(first: int, weekday: int)
    requires 0 <= weekday < 7
    ensures var d := first + (weekday - Weekday(first)) % 7; Weekday(d) == weekday && first <= d < first + 7
  {
  }

  lemma WeekdayUpTo(last: int, weekday: int)
    requires 0 <= weekday < 7
    ensures var d := last - (Weekday(last) - weekday) % 7; Weekday(d) == weekday && last - 7 < d <= last
  {
  }

  function YearFrom(day: int, y: int): int
    requires day > DaysBeforeYear(y)
    decreases day - DaysBeforeYear(y)
  {
    YearsFollow(y);
    if day <= DaysBeforeYear(y + 1) then y else YearFrom(day, y + 1)
  }

  /** date.year */
  function YearOf(day: int): int
    requires day >= 1
  {
    YearFrom(day, 1)
  }

  lemma {:induction false} YearsIncrease(a: int, b: int)
    requires a < b
    ensures DaysBeforeYear(a + 1) <= DaysBeforeYear(b)
    decreases b - a
  {
  }

  lemma {:induction false} YearIs(day: int, from: int, y: int)
    requires DaysBeforeYear(from) < day && from <= y
    requires DaysBeforeYear(y) < day <= DaysBeforeYear(y + 1)
    ensures YearFrom(day, from) == y
    decreases y - from
  {
    if from < y {
      YearsIncrease(from, y);
      YearIs(day, from + 1, y);
    }
  }

  // ----- holidays

  function Observed(day: int): int {
    if Weekday(day) == 5 then day - 1 else if Weekday(day) == 6 then day + 1 else day
  }

  function NthWeekday(y: int, m: int, weekday: int, n: int): int
    requires 1 <= m <= 12
  {
    var first := Day(y, m, 1);
    first + (weekday - Weekday(first)) % 7 + 7 * (n - 1)
  }

  /** The last day of month m that falls on the weekday. */
  predicate IsLastWeekday(y: int, m: int, weekday: int, day: int)
    requires 1 <= m <= 12
  {
    && Weekday(day) == weekday
    && Day(y, m + 1, 1) - 7 <= day < Day(y, m + 1, 1)
  }

  lemma SameWeekday(a: int, b: int, end: int)
    requires Weekday(a) == Weekday(b) && end - 7 <= a < end && end - 7 <= b < end
    ensures a == b
  {
  }

  lemma LastWeekdayIsUnique(y: int, m: int, weekday: int, a: int, b: int)
    requires 1 <= m <= 12 && IsLastWeekday(y, m, weekday, a) && IsLastWeekday(y, m, weekday, b)
    ensures a == b
  {
    SameWeekday(a, b, Day(y, m + 1, 1));
  }

  function LastWeekday(y: int, m: int, weekday: int): (day: int)
    requires 1 <= m <= 12 && 0 <= weekday < 7
    ensures IsLastWeekday(y, m, weekday, day)
  {
    var last := Day(y, m + 1, 1) - 1;
    WeekdayUpTo(last, weekday);
    last - (Weekday(last) - weekday) % 7
  }

  lemma MonthEnds(y: int, m: int)
    requires 1 <= m <= 12
    ensures (if m == 12 then Day(y + 1, 1, 1) else Day(y, m + 1, 1)) == Day(y, m + 1, 1)
  {
    YearsFollow(y);
  }

  method WalkBack(end: int, weekday: int) returns (cursor: int)
    requires 0 <= weekday < 7
    ensures end - 7 < cursor <= end && Weekday(cursor) == weekday
    ensures forall d :: cursor < d <= end ==> Weekday(d) != weekday
  {
    cursor := end;
    ghost var goal := end - (Weekday(end) - weekday) % 7;
    WeekdayUpTo(end, weekday);
    while Weekday(cursor) != weekday
      invariant goal <= cursor <= end
      invariant forall d :: cursor < d <= end ==> Weekday(d) != weekday
      decreases cursor - goal
    {
      cursor := cursor - 1;
    }
  }

  /** _last_weekday_of_month walks back from the end of the month. */
  method LastWeekdayOfMonth(y: int, m: int, weekday: int) returns (cursor: int)
    requires 1 <= m <= 12 && 0 <= weekday < 7
    ensures cursor == LastWeekday(y, m, weekday)
    ensures forall d :: cursor < d < Day(y, m + 1, 1) ==> Weekday(d) != weekday
  {
    MonthEnds(y, m);
    cursor := if m == 12 then Day(y + 1, 1, 1) - 1 else Day(y, m + 1, 1) - 1;
    cursor := WalkBack(cursor, weekday);
    LastWeekdayIsUnique(y, m, weekday, cursor, LastWeekday(y, m, weekday));
  }

  /** get_us_market_holidays; the date of Easter is whatever dateutil returns. */
  function UsHolidays(y: int, easter: int -> int): set<int> {
    {Observed(Day(y, 1, 1)), NthWeekday(y, 1, 0, 3), NthWeekday(y, 2, 0, 3), easter(y) - 2,
     LastWeekday(y, 5, 0), Observed(Day(y, 6, 19)), Observed(Day(y, 7, 4)), NthWeekday(y, 9, 0, 1),
     NthWeekday(y, 11, 3, 4), Observed(Day(y, 12, 25))}
  }

  lemma SevenLater(d: int, n: int)
    ensures Weekday(d + 7 * n) == Weekday(d)
  {
  }

  /** The nth weekday is that weekday and lies in the nth week of its month. */
  lemma NthWeekdayIsNth(y: int, m: int, weekday: int, n: int)
    requires 1 <= m <= 12 && 0 <= weekday < 7
    ensures var d := NthWeekday(y, m, weekday, n);
      Weekday(d) == weekday && Day(y, m, 1) + 7 * (n - 1) <= d < Day(y, m, 1) + 7 * n
  {
    var first := Day(y, m, 1);
    WeekdayFrom(first, weekday);
    SevenLater(first + (weekday - Weekday(first)) % 7, n - 1);
  }

  /** Easter aside, no holiday falls in August. */
  lemma NoHolidayInAugust(y: int, easter: int -> int, d: int)
    requires Day(y, 8, 1) <= d < Day(y, 9, 1) && d != easter(y) - 2
    ensures d !in UsHolidays(y, easter)
  {
  }

  // ----- the calendar, date by date

  function MonthLength(y: int, m: int): int {
    if m == 2 then 28 + LeapDay(y) else if m == 4 || m == 6 || m == 9 || m == 11 then 30 else 31
  }

  predicate IsDate(y: int, m: int, dom: int) {
    1 <= m <= 12 && 1 <= dom <= MonthLength(y, m)
  }

  /** Each month begins where the last one ends. */
  lemma MonthsFollow(y: int, m: int)
    requires 1 <= m <= 12
    ensures Day(y, m + 1, 1) == Day(y, m, 1) + MonthLength(y, m)
  {
  }

  lemma {:induction false} MonthsIncrease(y: int, a: int, b: int)
    requires 1 <= a <= b <= 13
    ensures Day(y, a, 1) <= Day(y, b, 1)
    decreases b - a
  {
    if a < b {
      MonthsFollow(y, a);
      MonthsIncrease(y, a + 1, b);
    }
  }

  /** 1 January 2024 is day 738886, and a Monday. */
  lemma CalendarIsAnchored()
    ensures Day(2024, 1, 1) == 738_886
    ensures Weekday(738_886) == 0
  {
  }

  lemma WeekdaysFollow(day: int)
    ensures Weekday(day + 1) == if Weekday(day) == 6 then 0 else Weekday(day) + 1
  {
  }

  lemma OtherMonth(y: int, m: int, dom: int, m': int)
    requires IsDate(y, m, dom) && 1 <= m' <= 12
    ensures m < m' ==> Day(y, m, dom) < Day(y, m', 1)
    ensures m > m' ==> Day(y, m, dom) >= Day(y, m' + 1, 1)
  {
    MonthsFollow(y, m);
    if m < m' {
      MonthsIncrease(y, m + 1, m');
    } else if m > m' {
      MonthsIncrease(y, m' + 1, m);
    }
  }

  /** The date k of a month, or a neighbour of it, is that date of that month. */
  lemma SameDate(y: int, m: int, dom: int, m': int, k: int)
    requires IsDate(y, m, dom) && IsDate(y, m', k)
    ensures Day(y, m, dom) == Day(y, m', k) <==> m == m' && dom == k
  {
    OtherMonth(y, m, dom, m');
    MonthsFollow(y, m');
  }

  // ----- the holidays, date by date

  /** The date on which a holiday on the k-th is observed: itself on a working day, else the Friday
      before or the Monday after. */
  predicate ObservedOn(dom: int, weekday: int, k: int) {
    (dom == k && weekday < 5) || (dom == k - 1 && weekday == 4) || (dom == k + 1 && weekday == 0)
  }

  /** The New York holidays but Good Friday. New Year's Day on a Saturday closes no day. */
  predicate IsUsHoliday(m: int, dom: int, weekday: int) {
    || (m == 1 && ((dom == 1 && weekday < 5) || (dom == 2 && weekday == 0) || (15 <= dom <= 21 && weekday == 0)))
    || (m == 2 && 15 <= dom <= 21 && weekday == 0)
    || (m == 5 && 25 <= dom <= 31 && weekday == 0)
    || (m == 6 && ObservedOn(dom, weekday, 19))
    || (m == 7 && ObservedOn(dom, weekday, 4))
    || (m == 9 && dom <= 7 && weekday == 0)
    || (m == 11 && 22 <= dom <= 28 && weekday == 3)
    || (m == 12 && ObservedOn(dom, weekday, 25))
  }

  lemma ObservedExactly(d: int, holiday: int)
    ensures d == Observed(holiday) <==> ObservedOn(d - holiday, Weekday(d), 0)
  {
  }

  lemma ObservedDate(y: int, m: int, dom: int, m': int, k: int)
    requires IsDate(y, m, dom) && IsDate(y, m', k) && k + 1 <= MonthLength(y, m')
    ensures k > 1 ==>
      (Day(y, m, dom) == Observed(Day(y, m', k)) <==> m == m' && ObservedOn(dom, Weekday(Day(y, m, dom)), k))
    ensures k == 1 && m' == 1 ==>
      (Day(y, m, dom) == Observed(Day(y, 1, 1)) <==>
         m == 1 && ObservedOn(dom, Weekday(Day(y, m, dom)), 1))
  {
    ObservedExactly(Day(y, m, dom), Day(y, m', k));
    SameDate(y, m, dom, m', k);
    SameDate(y, m, dom, m', k + 1);
    if k > 1 {
      SameDate(y, m, dom, m', k - 1);
    } else if m' == 1 {
      OtherMonth(y, m, dom, 1);
    }
  }

  lemma NthDate(y: int, m: int, dom: int, m': int, weekday: int, n: int)
    requires IsDate(y, m, dom) && 1 <= m' <= 12 && 0 <= weekday < 7 && 1 <= n <= 4
    ensures Day(y, m, dom) == NthWeekday(y, m', weekday, n)
        <==> m == m' && 7 * (n - 1) < dom <= 7 * n && Weekday(Day(y, m, dom)) == weekday
  {
    NthWeekdayIsNth(y, m', weekday, n);
    OtherMonth(y, m, dom, m');
    MonthsFollow(y, m');
    if m == m' && 7 * (n - 1) < dom <= 7 * n && Weekday(Day(y, m, dom)) == weekday {
      SameWeekday(Day(y, m, dom), NthWeekday(y, m', weekday, n), Day(y, m', 1) + 7 * n);
    }
  }

  lemma LastDate(y: int, m: int, dom: int, m': int, weekday: int)
    requires IsDate(y, m, dom) && 1 <= m' <= 12 && 0 <= weekday < 7
    ensures Day(y, m, dom) == LastWeekday(y, m', weekday)
        <==> m == m' && dom > MonthLength(y, m') - 7 && Weekday(Day(y, m, dom)) == weekday
  {
    OtherMonth(y, m, dom, m');
    MonthsFollow(y, m');
    if m == m' && dom > MonthLength(y, m') - 7 && Weekday(Day(y, m, dom)) == weekday {
      LastWeekdayIsUnique(y, m', weekday, Day(y, m, dom), LastWeekday(y, m', weekday));
    }
  }

  /** The computed holidays of a year are exactly the dates of the calendar above, and Good Friday. */
  lemma UsHolidaysExactly(y: int, m: int, dom: int, easter: int -> int)
    requires IsDate(y, m, dom)
    ensures var d := Day(y, m, dom);
      d in UsHolidays(y, easter) <==> IsUsHoliday(m, dom, Weekday(d)) || d == easter(y) - 2
  {
    hide Day, Weekday, Observed, NthWeekday;
    ObservedDate(y, m, dom, 1, 1);
    NthDate(y, m, dom, 1, 0, 3);
    NthDate(y, m, dom, 2, 0, 3);
    LastDate(y, m, dom, 5, 0);
    ObservedDate(y, m, dom, 6, 19);
    ObservedDate(y, m, dom, 7, 4);
    NthDate(y, m, dom, 9, 0, 1);
    NthDate(y, m, dom, 11, 3, 4);
    ObservedDate(y, m, dom, 12, 25);
  }
}
