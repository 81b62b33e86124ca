/** internal/dashboard/aggregate.go, `fillDays`, and the window that internal/store/sqlite/store.go, `periodStart`, loads. */
module Filling {
  import opened Text
  import opened Usage
  import opened Grouping
  import opened Tally
  import opened Aggregate
  import opened Calendar

  const DAY_MS := 86400000
  const MAX_FILLED_LIFETIME_DAYS := 366

  /** Clock readings, in milliseconds since 1970, whose date has a four-digit year. */
  predicate ValidNow(now: int) {
    0 <= now < END_DAY * DAY_MS
  }

  function Today(now: int): (n: int)
    requires ValidNow(now)
    ensures 0 <= n < END_DAY && n * DAY_MS <= now < (n + 1) * DAY_MS
  {
    now / DAY_MS
  }

  /** 0 is Sunday; 1970-01-01 was a Thursday. */
  function Weekday(n: int): int {
    (n + 4) % 7
  }

  /** 1970-01-01 was a Thursday, and weekdays go round. */
  lemma WeekdaysGoRound(n: int)
    ensures Weekday(0) == 4 && 0 <= Weekday(n) < 7
    ensures Weekday(n + 1) == if Weekday(n) == 6 then 0 else Weekday(n) + 1
  {
  }

  predicate Windowed(period: string) {
    period == "this_week" || period == "last_7_days" || period == "this_month" || period == "last_30_days"
  }

  /** The first day of a period that ends today. */
  function WindowStart(period: string, today: int): (start: int)
    requires 0 <= today < END_DAY
  {
    if period == "this_week" then today - (Weekday(today) + 6) % 7
    else if period == "last_7_days" then today - 6
    else if period == "this_month" then
      var d := DateOf(today);
      Number(d.(day := 1))
    else if period == "last_30_days" then today - 29
    else today
  }

  /** Weeks start on Monday, months on the first, and no window is longer than a month. */
  lemma WindowStarts(period: string, today: int)
    requires 0 <= today < END_DAY
    ensures today - 30 <= WindowStart(period, today) <= today
    ensures InRange(WindowStart(period, today))
    ensures period == "this_week" ==>
      Weekday(WindowStart(period, today)) == 1 && today < WindowStart(period, today) + 7
    ensures period == "this_month" ==>
      DateOf(WindowStart(period, today)) == DateOf(today).(day := 1)
    ensures period == "today" ==> WindowStart(period, today) == today
    ensures period == "last_7_days" ==> today - WindowStart(period, today) + 1 == 7
    ensures period == "last_30_days" ==> today - WindowStart(period, today) + 1 == 30
  {
    if period == "this_month" {
      var d := DateOf(today).(day := 1);
      NumberOrder(d, DateOf(Number(d)));
    }
  }

  /** `periodStart`: where the rows of a period begin, in milliseconds. */
  function PeriodStart(period: string, now: int): (start: int)
    requires ValidNow(now)
    ensures period == "lifetime" ==> start == 0
    ensures period != "lifetime" ==> start == WindowStart(period, Today(now)) * DAY_MS
    ensures start <= now
  {
    if period == "lifetime" then 0
    else
      var today := Today(now);
      var first := match period
        case "this_week" => today - (Weekday(today) + 6) % 7
        case "last_7_days" => today - 6
        case "this_month" => var d := DateOf(today); Number(d.(day := 1))
        case "last_30_days" => today - 29
        case _ => today;
      WindowStarts(period, today);
      first * DAY_MS
  }

  // ---- the days that are filled in

  function EmptyDay(date: string): ChartDay {
    ChartDay(date, false, NoTotals, [])
  }

  predicate HasDate(days: seq<ChartDay>, date: string) {
    exists i :: 0 <= i < |days| && days[i].date == date
  }

  function Same(s: string): string { s }

  /** The texts of the days from `start` up to `end`, exclusive. */
  function Span(start: int, end: int): seq<string>
    requires FIRST_DAY <= start <= end <= END_DAY
  {
    seq(end - start, i requires 0 <= i < end - start => Format(start + i))
  }

  lemma SpanAscends(start: int, end: int)
    requires FIRST_DAY <= start <= end <= END_DAY
    ensures Ascending(Span(start, end), Same)
  {
    hide Format;
    var span := Span(start, end);
    forall i, j | 0 <= i < j < |span|
      ensures Less(Same(span[i]), Same(span[j]))
    {
      FormatOrder(start + i, start + j);
    }
  }

  /** An empty day for each date of `span` that `days` lacks. */
  function Missing(days: seq<ChartDay>, span: seq<string>): seq<ChartDay> {
    if span == [] then []
    else
      var key := span[|span| - 1];
      Missing(days, span[..|span| - 1]) + (if HasDate(days, key) then [] else [EmptyDay(key)])
  }

  /** Every date of the span is among the days or the missing ones; a missing one is an empty day of the span. */
  lemma {:induction false} MissingDays(days: seq<ChartDay>, span: seq<string>)
    ensures forall s | s in span :: HasDate(days, s) || EmptyDay(s) in Missing(days, span)
    ensures forall d | d in Missing(days, span) :: !HasDate(days, d.date) && d.date in span && d == EmptyDay(d.date)
  {
    if span != [] {
      MissingDays(days, span[..|span| - 1]);
      assert span == span[..|span| - 1] + [span[|span| - 1]];
    }
  }

  lemma {:induction false} MissingAscends(days: seq<ChartDay>, span: seq<string>)
    requires Ascending(span, Same)
    ensures Ascending(Missing(days, span), ChartDate)
  {
    if span != [] {
      var init, key := span[..|span| - 1], span[|span| - 1];
      MissingAscends(days, init);
      MissingDays(days, init);
      var rest := Missing(days, init);
      forall i | 0 <= i < |rest|
        ensures Less(ChartDate(rest[i]), key)
      {
        assert rest[i] in rest;
        var k :| 0 <= k < |init| && init[k] == rest[i].date;
        assert Less(Same(span[k]), Same(span[|span| - 1]));
      }
    }
  }

  /** The earliest of `latest` and the dates of `days`, unless some date cannot be read. */
  function LifetimeStart(days: seq<ChartDay>, latest: int): (r: Option<int>)
    ensures r.None? <==> exists d :: d in days && Parse(d.date).None?
    ensures r.Some? ==> r.value <= latest && forall d | d in days :: r.value <= Parse(d.date).value
    ensures r.Some? ==> r.value == latest || exists d :: d in days && Parse(d.date) == r
  {
    if days == [] then Some(latest)
    else
      var init, last := days[..|days| - 1], days[|days| - 1];
      assert days == init + [last];
      var rest := LifetimeStart(init, latest);
      var date := Parse(last.date);
      if rest.None? || date.None? then None
      else if date.value < rest.value then date
      else rest
  }

  /** The first day to fill from, or none when the days are to be left alone. */
  function FillStart(days: Option<seq<ChartDay>>, period: string, today: int): (r: Option<int>)
    requires 0 <= today < END_DAY
    ensures r.Some? ==> days.Some? && r.value <= today && InRange(r.value)
    ensures r.Some? ==> Windowed(period) || period == "lifetime"
    ensures Windowed(period) ==> r == if days.Some? then Some(WindowStart(period, today)) else None
    ensures period == "lifetime" ==> (r.Some? <==>
      days.Some? && days.value != [] && forall d | d in days.value :: Parse(d.date).Some? && today - 366 < Parse(d.date).value)
    ensures period == "lifetime" && r.Some? ==>
      && r.value <= today - 6 && (forall d | d in days.value :: r.value <= Parse(d.date).value)
      && (r.value == today - 6 || exists d :: d in days.value && Parse(d.date) == r)
  {
    if days.None? || period == "today" || (period == "lifetime" && days.value == []) then None
    else if Windowed(period) then
      WindowStarts(period, today);
      Some(WindowStart(period, today))
    else if period == "lifetime" then
      var start := LifetimeStart(days.value, today - 6);
      if start.Some? && start.value + MAX_FILLED_LIFETIME_DAYS - 1 < today then None else start
    else None
  }

  /** What a filled chart is made of. */
  ghost predicate Filled(days: seq<ChartDay>, r: seq<ChartDay>, span: seq<string>) {
    && multiset(r) == multiset(days + Missing(days, span))
    && (Distinct(days, ChartDate) ==> Ascending(r, ChartDate))
  }

  method FillDays(days: Option<seq<ChartDay>>, period: string, now: int) returns (r: Option<seq<ChartDay>>)
    requires ValidNow(now)
    ensures var today := Today(now);
      match FillStart(days, period, today)
      case None => r == days
      case Some(start) => r.Some? && Filled(days.value, r.value, Span(start, today + 1))
  {
    hide Format, Missing, FillStart;
    var today := Today(now);
    var start := FillFrom(days, period, today);
    if start.None? {
      return days;
    }
    var filled := AppendMissing(days.value, start.value, today);
    DistinctWithMissing(days.value, start.value, today + 1);
    filled := SortByKey(filled, ChartDate);
    r := Some(filled);
  }

  /** The part of `fillDays` before any day is appended. */
  method FillFrom(days: Option<seq<ChartDay>>, period: string, today: int) returns (r: Option<int>)
    requires 0 <= today < END_DAY
    ensures r == FillStart(days, period, today)
  {
    if days.None? || period == "today" || (period == "lifetime" && days.value == []) {
      return None;
    }
    match period
    case "this_week" =>
      r := Some(today - (Weekday(today) + 6) % 7);
    case "last_7_days" =>
      r := Some(today - 6);
    case "this_month" =>
      var date := DateOf(today);
      r := Some(Number(date.(day := 1)));
    case "last_30_days" =>
      r := Some(today - 29);
    case "lifetime" =>
      r := EarliestDay(days.value, today - 6);
      if r.Some? && r.value + MAX_FILLED_LIFETIME_DAYS - 1 < today {
        r := None;
      }
    case _ =>
      r := None;
  }

  /** The loop over the days of a lifetime: the earliest date, or none when a date cannot be read. */
  method EarliestDay(days: seq<ChartDay>, latest: int) returns (r: Option<int>)
    ensures r == LifetimeStart(days, latest)
  {
    hide Parse;
    var start := latest;
    for i := 0 to |days|
      invariant LifetimeStart(days[..i], latest) == Some(start)
    {
      assert days[..i + 1] == days[..i] + [days[i]];
      var date := Parse(days[i].date);
      if date.None? {
        assert days[i] in days;
        return None;
      }
      if date.value < start {
        start := date.value;
      }
    }
    assert days[..|days|] == days;
    r := Some(start);
  }

  /** The loop that appends an empty day for every date not among the given ones. */
  method AppendMissing(days: seq<ChartDay>, start: int, today: int) returns (filled: seq<ChartDay>)
    requires FIRST_DAY <= start <= today < END_DAY
    ensures filled == days + Missing(days, Span(start, today + 1))
  {
    hide Format;
    filled := days;
    var date := start;
    while date <= today
      invariant start <= date <= today + 1
      invariant filled == days + Missing(days, Span(start, date))
    {
      var key := Format(date);
      assert Span(start, date + 1)[..date - start] == Span(start, date);
      if !HasDate(days, key) {
        filled := filled + [EmptyDay(key)];
      }
      date := date + 1;
    }
  }

  lemma DistinctWithMissing(days: seq<ChartDay>, start: int, end: int)
    requires FIRST_DAY <= start <= end <= END_DAY
    ensures Distinct(days, ChartDate) ==> Distinct(days + Missing(days, Span(start, end)), ChartDate)
  {
    hide Format;
    var span := Span(start, end);
    var missing := Missing(days, span);
    SpanAscends(start, end);
    MissingAscends(days, span);
    MissingDays(days, span);
    AscendingIsDistinct(missing, ChartDate);
    forall i, j | 0 <= i < |days| && 0 <= j < |missing|
      ensures ChartDate(days[i]) != ChartDate(missing[j])
    {
      assert missing[j] in missing;
      assert !HasDate(days, missing[j].date);
    }
  }

  // ---- what filling promises

  /** Every input day is kept unchanged, every date of the span is there, and what was added is an empty day of the span. */
  lemma FilledDays(days: seq<ChartDay>, r: seq<ChartDay>, span: seq<string>)
    requires Filled(days, r, span)
    ensures forall d | d in days :: d in r
    ensures forall s | s in span :: HasDate(r, s)
    ensures forall d | d in r && d !in days :: !HasDate(days, d.date) && d.date in span && d == EmptyDay(d.date)
    ensures forall d | d in r && d !in days :: !d.recorded && TallyOf(d.totals) == Zero && d.models == []
    ensures CanonicalChart(days) ==> CanonicalChart(r)
  {
    var missing := Missing(days, span);
    MissingDays(days, span);
    SameElements(days + missing, r);
    forall s | s in span
      ensures HasDate(r, s)
    {
      var d :| d in days + missing && d.date == s;
      assert d in r;
    }
    if CanonicalChart(days) {
      AscendingIsDistinct(days, ChartDate);
    }
  }

  lemma {:induction false} SumEmpty(days: seq<ChartDay>)
    requires forall d | d in days :: d == EmptyDay(d.date)
    ensures Sum(days, ChartBreakdown) == Nothing
  {
    if days != [] {
      var init, last := days[..|days| - 1], days[|days| - 1];
      assert days == init + [last];
      SumEmpty(init);
      SumOne(init, last, ChartBreakdown);
      assert last in days && ChartBreakdown(EmptyDay(last.date)) == Nothing;
      JoinNothing(Nothing);
    }
  }

  /** Filling adds nothing to the sum of the chart. */
  lemma FilledSum(days: seq<ChartDay>, r: seq<ChartDay>, span: seq<string>)
    requires Filled(days, r, span)
    ensures Sum(r, ChartBreakdown) == Sum(days, ChartBreakdown)
  {
    var missing := Missing(days, span);
    MissingDays(days, span);
    SumPermuted(r, days + missing, ChartBreakdown);
    SumAppend(days, missing, ChartBreakdown);
    SumEmpty(missing);
    JoinNothing(Sum(days, ChartBreakdown));
  }

  /** The dates of a chart, in its order. */
  function Dates(days: seq<ChartDay>): seq<string> {
    seq(|days|, i requires 0 <= i < |days| => days[i].date)
  }

  lemma DatesOf(days: seq<ChartDay>)
    ensures forall s :: s in Dates(days) <==> HasDate(days, s)
    ensures Ascending(days, ChartDate) ==> Ascending(Dates(days), Same)
  {
    forall s | HasDate(days, s)
      ensures s in Dates(days)
    {
      var i :| 0 <= i < |days| && days[i].date == s;
      assert Dates(days)[i] == s;
    }
  }

  /** When every input day lies in the span, the filled chart has exactly the dates of the span, in order. */
  lemma FilledConsecutive(days: seq<ChartDay>, r: seq<ChartDay>, span: seq<string>)
    requires Filled(days, r, span) && Ascending(span, Same)
    requires Distinct(days, ChartDate) && forall d | d in days :: d.date in span
    ensures Dates(r) == span
  {
    FilledDays(days, r, span);
    DatesOf(r);
    forall s
      ensures s in Dates(r) <==> s in span
    {
      if HasDate(r, s) {
        var i :| 0 <= i < |r| && r[i].date == s;
        assert r[i] in r;
      }
    }
    AscendingUnique(Dates(r), span, Same);
  }
}
