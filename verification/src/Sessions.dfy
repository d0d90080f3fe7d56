/** Trading days and the searches for the next market open, on the local clock of one exchange
    (microseconds; no daylight-saving change within the searched span). */
module Sessions {
  import opened Dates

  const SECOND := 1_000_000
  const HOUR := 3600 * SECOND
  const DAY := 24 * HOUR

  datatype Exchange = US | KRX

  function OpensAt(x: Exchange): int {
    if x == US then 9 * HOUR + HOUR / 2 else 9 * HOUR
  }

  function ClosesAt(x: Exchange): int {
    if x == US then 16 * HOUR else 15 * HOUR + HOUR / 2
  }

  /** The operator's holiday list, and the Easter dates for the computed ones. */
  datatype Holidays = Holidays(configured: set<int>, easter: int -> int)

  predicate IsWeekday(day: int) {
    Weekday(day) < 5
  }

  /** _is_trading_day and _is_krx_trading_day */
  predicate IsTradingDay(x: Exchange, h: Holidays, day: int)
    requires day >= 1
  {
    && IsWeekday(day)
    && (x == US ==> day !in UsHolidays(YearOf(day), h.easter))
    && day !in h.configured
  }

  /** A local instant: the day number and the time of day. */
  datatype Local = Local(day: int, time: int)

  predicate Valid(now: Local) {
    now.day >= 1 && 0 <= now.time < DAY
  }

  function Instant(now: Local): int {
    now.day * DAY + now.time
  }

  predicate IsOpenAt(x: Exchange, h: Holidays, now: Local)
    requires Valid(now)
  {
    IsTradingDay(x, h, now.day) && OpensAt(x) <= now.time < ClosesAt(x)
  }

  // ----- there is always another trading day

  lemma {:induction false} LastConfigured(days: set<int>) returns (d: int)
    ensures forall e :: e in days ==> e <= d
    decreases |days|
  {
    if x: int :| x in days {
      var rest := LastConfigured(days - {x});
      d := if rest < x then x else rest;
      assert forall e :: e in days ==> e == x || e in days - {x};
    } else {
      d := 0;
    }
  }

  lemma TuesdayFollows(monday: int)
    requires Weekday(monday) == 0
    ensures Weekday(monday + 1) == 1
  {
  }

  /** The Monday within a week of a day, or the Tuesday after it when the Monday is excluded. */
  lemma WeekdayNear(first: int, excluded: int) returns (day: int)
    ensures first <= day <= first + 7 && IsWeekday(day) && day != excluded
  {
    WeekdayFrom(first, 0);
    var monday := first + (0 - Weekday(first)) % 7;
    TuesdayFollows(monday);
    day := if monday == excluded then monday + 1 else monday;
  }

  lemma {:induction false} FirstDayPositive(y: int)
    requires y >= 1
    ensures DaysBeforeYear(y) >= 0 && DaysBeforeYear(y) >= y - 1
    decreases y
  {
  }

  lemma AugustIsInYear(y: int, day: int)
    requires y >= 1 && Day(y, 8, 1) <= day <= Day(y, 8, 8)
    ensures day >= 1 && YearOf(day) == y
  {
    FirstDayPositive(y);
    YearsFollow(y);
    YearIs(day, 1, y);
  }

  lemma AugustTradingDay(x: Exchange, h: Holidays, y: int) returns (day: int)
    requires y >= 1 && forall e :: e in h.configured ==> e < Day(y, 8, 1)
    ensures day >= Day(y, 8, 1) && day >= 1 && IsTradingDay(x, h, day)
  {
    var friday := h.easter(y) - 2;
    day := WeekdayNear(Day(y, 8, 1), friday);
    AugustIsInYear(y, day);
    NoHolidayInAugust(y, h.easter, day);
  }

  /** Whatever finite holiday list is configured, a trading day lies ahead. */
  lemma TradingDayAhead(x: Exchange, h: Holidays, from: int) returns (day: int)
    requires from >= 1
    ensures day >= from && IsTradingDay(x, h, day)
  {
    var last := LastConfigured(h.configured);
    var y := 2 + (if last > from then last else from);
    FirstDayPositive(y);
    day := AugustTradingDay(x, h, y);
  }

  // ----- hours

  /** Microseconds since midnight of a time on the clock. */
  function Clock(hour: int, minute: int): int {
    (hour * 60 + minute) * 60_000_000
  }

  /** New York trades from 9:30 to 16:00 and Korea from 9:00 to 15:30, from Monday to Friday, but not
      on the operator's holidays nor, in New York, on the computed ones. */
  lemma OpenExactly(x: Exchange, h: Holidays, y: int, m: int, dom: int, time: int)
    requires y >= 1 && IsDate(y, m, dom) && 0 <= time < DAY
    ensures var day := Day(y, m, dom);
      && day >= 1
      && (IsOpenAt(x, h, Local(day, time)) <==>
            && Weekday(day) <= 4 && day !in h.configured
            && match x
               case US =>
                 && Clock(9, 30) <= time < Clock(16, 0)
                 && !IsUsHoliday(m, dom, Weekday(day)) && day != h.easter(y) - 2
               case KRX => Clock(9, 0) <= time < Clock(15, 30))
  {
    DateIsInYear(y, m, dom);
    UsHolidaysExactly(y, m, dom, h.easter);
    hide Day, UsHolidays, IsUsHoliday, YearOf;
  }

  lemma DateIsInYear(y: int, m: int, dom: int)
    requires y >= 1 && IsDate(y, m, dom)
    ensures Day(y, m, dom) >= 1 && YearOf(Day(y, m, dom)) == y
  {
    FirstDayPositive(y);
    YearsFollow(y);
    MonthsIncrease(y, 1, m);
    MonthsIncrease(y, m + 1, 13);
    MonthsFollow(y, m);
    YearIs(Day(y, m, dom), 1, y);
  }

  // ----- next open of the US and Korean sessions

  /** A session of some trading day opens after now. */
  ghost predicate IsOpening(trading: int -> bool, opens: int, day: int, now: Local) {
    trading(day) && (day > now.day || (day == now.day && opens > now.time))
  }

  /** The day the next session opens on: no trading day opens earlier after now. */
  ghost predicate IsNextOpening(trading: int -> bool, opens: int, day: int, now: Local) {
    IsOpening(trading, opens, day, now) && forall d :: IsOpening(trading, opens, d, now) ==> day <= d
  }

  /** The whole seconds from now to a time of another day, of 86,400 seconds each. */
  predicate WholeSeconds(secs: int, day: int, time: int, now: Local) {
    var micros := (day - now.day) * 86_400_000_000 + (time - now.time);
    secs * 1_000_000 <= micros < (secs + 1) * 1_000_000
  }

  lemma SecondsToIsWhole(day: int, time: int, now: Local)
    requires day > now.day || (day == now.day && time > now.time)
    requires Valid(now) && 0 <= time
    ensures WholeSeconds(SecondsTo(day, time, now), day, time, now)
  {
    var diff := Instant(Local(day, time)) - Instant(now);
    assert diff > 0 && SecondsTo(day, time, now) == diff / SECOND;
  }

  function SecondsTo(day: int, time: int, now: Local): int {
    var diff := Instant(Local(day, time)) - Instant(now);
    if diff <= 0 then 0 else diff / SECOND
  }

  function TradingDays(x: Exchange, h: Holidays): int -> bool {
    day => day >= 1 && IsTradingDay(x, h, day)
  }

  /** The search both functions make: today before the open, or the first trading day after. */
  method SearchOpen(trading: int -> bool, opens: int, closes: int, now: Local, ghost goal: int)
    returns (secs: int, ghost day: int)
    requires Valid(now) && 0 <= opens < closes < DAY && goal > now.day && trading(goal)
    ensures var open := trading(now.day) && opens <= now.time < closes;
      if open then secs == 0
      else IsNextOpening(trading, opens, day, now) && WholeSeconds(secs, day, opens, now)
  {
    day := 0;
    if trading(now.day) && opens <= now.time < closes {
      return 0, 0;
    }
    var next := now.day;
    if !(trading(now.day) && now.time < opens) {
      next := now.day + 1;
      while !trading(next)
        invariant now.day < next <= goal
        invariant forall d :: now.day < d < next ==> !trading(d)
        decreases goal - next
      {
        next := next + 1;
      }
    }
    day := next;
    SecondsToIsWhole(next, opens, now);
    secs := SecondsTo(next, opens, now);
  }

  /** seconds_until_market_open and seconds_until_krx_market_open: the search over days ends for
      every finite holiday list, and finds the earliest open after now. */
  method SecondsUntilOpen(x: Exchange, h: Holidays, now: Local) returns (secs: int)
    requires Valid(now)
    ensures if IsOpenAt(x, h, now) then secs == 0
            else exists day :: IsNextOpening(TradingDays(x, h), OpensAt(x), day, now)
                               && WholeSeconds(secs, day, OpensAt(x), now)
  {
    ghost var goal := TradingDayAhead(x, h, now.day + 1);
    ghost var day;
    secs, day := SearchOpen(TradingDays(x, h), OpensAt(x), ClosesAt(x), now, goal);
    assert IsOpenAt(x, h, now) || IsNextOpening(TradingDays(x, h), OpensAt(x), day, now);
  }

  // ----- Asian sessions

  datatype Session = Session(start: int, end: int)

  datatype AsiaMarket = HKEX | SSE | SZSE | TSE

  /** ASIA_MARKET_SESSIONS */
  function SessionsOf(m: AsiaMarket): seq<Session> {
    match m
    case HKEX => [Session(9 * HOUR + HOUR / 2, 12 * HOUR), Session(13 * HOUR, 16 * HOUR)]
    case SSE => [Session(9 * HOUR + HOUR / 2, 11 * HOUR + HOUR / 2), Session(13 * HOUR, 15 * HOUR)]
    case SZSE => [Session(9 * HOUR + HOUR / 2, 11 * HOUR + HOUR / 2), Session(13 * HOUR, 15 * HOUR)]
    case TSE => [Session(9 * HOUR, 11 * HOUR + HOUR / 2), Session(12 * HOUR + HOUR / 2, 15 * HOUR + HOUR / 2)]
  }

  predicate IsAsiaDay(configured: set<int>, day: int) {
    IsWeekday(day) && day !in configured
  }

  predicate AsiaOpenAt(sessions: seq<Session>, configured: set<int>, now: Local) {
    IsAsiaDay(configured, now.day) && exists k :: 0 <= k < |sessions| && sessions[k].start <= now.time < sessions[k].end
  }

  /** Session k of the day starts after now. */
  predicate StartsLater(sessions: seq<Session>, configured: set<int>, now: Local, day: int, k: int) {
    0 <= k < |sessions| && IsAsiaDay(configured, day) && day >= now.day
    && (day > now.day || sessions[k].start > now.time)
  }

  predicate InOrder(sessions: seq<Session>) {
    && (forall k :: 0 <= k < |sessions| ==> 0 <= sessions[k].start < DAY)
    && (forall j, k :: 0 <= j < k < |sessions| ==> sessions[j].start < sessions[k].start)
  }

  /** The first session start after now, lunch restarts included. */
  ghost predicate IsNextStart(sessions: seq<Session>, configured: set<int>, now: Local, day: int, k: int) {
    && StartsLater(sessions, configured, now, day, k)
    && forall d, j :: StartsLater(sessions, configured, now, d, j) ==>
         day < d || (day == d && sessions[k].start <= sessions[j].start)
  }

  /** The hours of the Asian exchanges, with their lunch breaks. */
  predicate WithinHours(m: AsiaMarket, time: int) {
    match m
    case HKEX => Clock(9, 30) <= time < Clock(12, 0) || Clock(13, 0) <= time < Clock(16, 0)
    case SSE => Clock(9, 30) <= time < Clock(11, 30) || Clock(13, 0) <= time < Clock(15, 0)
    case SZSE => Clock(9, 30) <= time < Clock(11, 30) || Clock(13, 0) <= time < Clock(15, 0)
    case TSE => Clock(9, 0) <= time < Clock(11, 30) || Clock(12, 30) <= time < Clock(15, 30)
  }

  /** They are open within these hours from Monday to Friday but for the operator's holidays, and
      both sessions of a day start where the hours do. */
  lemma AsiaOpenExactly(m: AsiaMarket, configured: set<int>, now: Local)
    ensures AsiaOpenAt(SessionsOf(m), configured, now) <==>
      Weekday(now.day) <= 4 && now.day !in configured && WithinHours(m, now.time)
    ensures |SessionsOf(m)| == 2 && forall k :: 0 <= k < 2 ==>
      WithinHours(m, SessionsOf(m)[k].start) && !WithinHours(m, SessionsOf(m)[k].start - 1)
  {
    var s := SessionsOf(m);
    assert WithinHours(m, now.time) <==> s[0].start <= now.time < s[0].end || s[1].start <= now.time < s[1].end;
  }

  const SEARCH_DAYS := 10

  /** The configured tables are in order, as the search needs. */
  lemma SessionsAreInOrder(m: AsiaMarket)
    ensures InOrder(SessionsOf(m))
  {
  }

  lemma FirstStart(sessions: seq<Session>, configured: set<int>, now: Local, cursor: int, k: int)
    requires Valid(now) && InOrder(sessions) && 0 <= k < |sessions|
    requires cursor >= now.day && IsAsiaDay(configured, cursor)
    requires cursor > now.day || now.time < sessions[k].start
    requires forall d, j :: d < cursor ==> !StartsLater(sessions, configured, now, d, j)
    requires forall j :: 0 <= j < k ==> !StartsLater(sessions, configured, now, cursor, j)
    ensures IsNextStart(sessions, configured, now, cursor, k)
  {
  }

  /** seconds_until_asia_market_open: 0 while open; otherwise the time to the first session start
      within ten local days, or 0 exactly when none lies there. */
  method SecondsUntilAsiaOpen(market: AsiaMarket, configured: set<int>, now: Local) returns (secs: int)
    requires Valid(now)
    ensures var sessions := SessionsOf(market);
      if AsiaOpenAt(sessions, configured, now) then secs == 0
      else if exists d, k :: d < now.day + 10 && StartsLater(sessions, configured, now, d, k)
      then exists d, k :: IsNextStart(sessions, configured, now, d, k) && WholeSeconds(secs, d, sessions[k].start, now)
      else secs == 0
  {
    var sessions := SessionsOf(market);
    SessionsAreInOrder(market);
    if AsiaOpenAt(sessions, configured, now) {
      return 0;
    }
    for i := 0 to SEARCH_DAYS
      invariant forall d, k :: d < now.day + i ==> !StartsLater(sessions, configured, now, d, k)
    {
      var cursor := now.day + i;
      if IsAsiaDay(configured, cursor) {
        for k := 0 to |sessions|
          invariant forall j :: 0 <= j < k ==> !StartsLater(sessions, configured, now, cursor, j)
        {
          if cursor > now.day || now.time < sessions[k].start {
            FirstStart(sessions, configured, now, cursor, k);
            SecondsToIsWhole(cursor, sessions[k].start, now);
            return SecondsTo(cursor, sessions[k].start, now);
          }
        }
      }
    }
    return 0;
  }
}
