/** Exactly when a figure shrinks, and how the split by model stays in step with the totals. */
module Losses {
  import opened Text
  import opened Usage
  import opened Grouping
  import opened Tally
  import opened Aggregate
  import opened Segments
  import opened History
  import opened Runs
  import opened Effects

  datatype Counter = Input | Output | CacheRead | CacheCreation | Requests | Tokens | AIU | CostIn(currency: string)

  /** A single figure; what is absent counts as 0. */
  function Figures(t: Tally, c: Counter): int {
    match c
    case Input => t.input
    case Output => t.output
    case CacheRead => t.cacheRead
    case CacheCreation => t.cacheCreation
    case Requests => t.requests
    case Tokens => t.tokens
    case AIU => if t.aiu.Some? then t.aiu.value else 0
    case CostIn(currency) => if currency in t.costs then t.costs[currency] else 0
  }

  /** A figure of the totals, or of one model. */
  function Read(b: Breakdown, model: Option<string>, c: Counter): int {
    match model
    case None => Figures(b.total, c)
    case Some(m) => if m in b.models then Figures(b.models[m], c) else 0
  }

  lemma ReadJoin(a: Breakdown, b: Breakdown, model: Option<string>, c: Counter)
    ensures Read(Join(a, b), model, c) == Read(a, model, c) + Read(b, model, c)
  {
  }

  lemma ReadCovers(a: Breakdown, b: Breakdown, model: Option<string>, c: Counter)
    requires BreakdownCovers(a, b) && NoNegatives(b)
    ensures Read(a, model, c) <= Read(b, model, c)
  {
  }

  /** The snapshot replaces a closed row of the newest segment by a lower figure. */
  ghost predicate Shrinks(segs: seq<Segment>, daily: Daily, d: string, model: Option<string>, c: Counter) {
    && Closed(segs, d) && ResetOf(segs, daily).None?
    && exists day :: day in daily.days && day.date == d && Lands(segs[|segs| - 1], daily.endMS, day)
                     && Read(DayBreakdown(day), model, c) < Read(segs[|segs| - 1].rows[d].usage, model, c)
  }

  /** A figure of a date is lowered by a save exactly when the save corrects a closed row downwards. */
  lemma LossExactly(segs: seq<Segment>, daily: Daily, d: string, model: Option<string>, c: Counter)
    requires ValidSnapshot(Some(daily)) && Plausible(daily) && SaveSegments(segs, daily).Ok?
    ensures Read(UsageAt(SaveSegments(segs, daily).value, d), model, c) < Read(UsageAt(segs, d), model, c)
       <==> Shrinks(segs, daily, d, model, c)
  {
    if daily.days != [] {
      hide *;
      var days, all, older, seg := Shape(segs, daily);
      var w := Written(seg, daily.endMS, days);
      UsageBefore(segs, days, all, older, seg, daily.endMS, d);
      UsageAtOne(older, w, d);
      ReadJoin(UsageAt(older, d), RowUsage(seg, d), model, c);
      ReadJoin(UsageAt(older, d), RowUsage(w, d), model, c);
      ShrinksHere(segs, daily, days, all, older, seg, d, model, c);
      LossInRow(seg, daily.endMS, days, d, model, c);
    }
  }

  /** The newest row of `d` is closed and a day that lands on it is lower. */
  ghost predicate RowShrinks(seg: Segment, end: int, days: seq<Day>, d: string, model: Option<string>, c: Counter) {
    && d in seg.rows && !Open(seg.rows[d])
    && exists day :: day in days && day.date == d && Lands(seg, end, day)
                     && Read(DayBreakdown(day), model, c) < Read(seg.rows[d].usage, model, c)
  }

  lemma ShrinksHere(segs: seq<Segment>, daily: Daily, days: seq<Day>, all: seq<Segment>, older: seq<Segment>, seg: Segment,
                    d: string, model: Option<string>, c: Counter)
    requires days != [] && all == Started(segs, days) && forall day :: day in days <==> day in daily.days
    requires var last := all[|all| - 1];
      match ResetDate(last, daily.endMS, days)
      case Some(date) => older == all && seg == Segment(last.ordinal + 1, date, map[])
      case None => older == all[..|all| - 1] && seg == last
    ensures Shrinks(segs, daily, d, model, c) <==> RowShrinks(seg, daily.endMS, days, d, model, c)
  {
    hide ResetDate, Lands, Read, DayBreakdown;
    if segs != [] {
      assert daily.days != [] by {
        assert days[0] in daily.days;
      }
      ResetDateOrderFree(segs[|segs| - 1], daily.endMS, daily.days, days);
    }
  }

  lemma LossInRow(seg: Segment, end: int, days: seq<Day>, d: string, model: Option<string>, c: Counter)
    requires Distinct(days, DayDate)
    requires forall day | day in days :: day.totals.Some? && NoNegatives(DayBreakdown(day)) && !ResetAt(seg, end, day) && !IncompleteAt(seg, end, day)
    requires forall day | day in days && Lands(seg, end, day) :: WellKeyed(day)
    ensures Read(RowUsage(Written(seg, end, days), d), model, c) < Read(RowUsage(seg, d), model, c)
       <==> RowShrinks(seg, end, days, d, model, c)
  {
    hide Read, Written, NoNegatives, WellKeyed, SnapshotReset, DetailsRegressed, DayBreakdown, Less, BreakdownCovers, Distinct;
    WrittenRows(seg, end, days);
    if day :| day in days && day.date == d && Lands(seg, end, day) {
      OneDay(days, day);
      if d !in seg.rows {
        NothingRead(DayBreakdown(day), model, c);
      } else if Open(seg.rows[d]) {
        KeptDay(seg.rows[d], day);
        ReadCovers(seg.rows[d].usage, DayBreakdown(day), model, c);
      }
    }
  }

  lemma NothingRead(b: Breakdown, model: Option<string>, c: Counter)
    requires NoNegatives(b)
    ensures Read(Nothing, model, c) == 0 <= Read(b, model, c)
  {
  }

  /** A closed row can be lowered: an account's first snapshot has 5 tokens on a day that has ended, its second one none. */
  lemma ClosedRowMayShrink() returns (first: Daily, second: Daily)
    ensures ValidSnapshot(Some(first)) && Plausible(first) && ValidSnapshot(Some(second)) && Plausible(second)
    ensures var segs := Run([], [Some(first)]);
      && SaveSegments([], first) == Ok(segs) && SaveSegments(segs, second).Ok?
      && Read(UsageAt(SaveSegments(segs, second).value, "2024-01-01"), None, Tokens) < Read(UsageAt(segs, "2024-01-01"), None, Tokens)
  {
    var day := Day("2024-01-01", 0, 1, Some(NoTotals.(tokens := 5)), []);
    var later := day.(totals := Some(NoTotals));
    first, second := Daily(2, [day]), Daily(3, [later]);
    ReadyDay(day, 2);
    ReadyDay(later, 3);
    var segs := [Segment(0, day.date, map[day.date := RowOf(day, 2)])];
    var row := RowOf(day, 2);
    assert !Open(row) && row.snapshotEnd == 2 && Plausible(first) && Plausible(second);
    assert Read(DayBreakdown(later), None, Tokens) == 0 && Read(row.usage, None, Tokens) == 5;
    hide *;
    SingleSave(first, day);
    RunOfOne(first);
    ClosedTaken(segs, second, later);
    ClosedLower(segs, second, later, row);
    LossExactly(segs, second, "2024-01-01", None, Tokens);
  }

  lemma RunOfOne(daily: Daily)
    requires ValidSnapshot(Some(daily)) && SaveSegments([], daily).Ok?
    ensures Ok(Run([], [Some(daily)])) == SaveSegments([], daily)
  {
    hide SaveSegments;
    assert [Some(daily)][..0] == [];
  }

  /** The first save of an account, when the snapshot has a single day. */
  lemma SingleSave(daily: Daily, day: Day)
    requires daily.days == [day] && InOrder([day]) == [day] && ValidSnapshot(Some(daily)) && WellKeyed(day)
    ensures SaveSegments([], daily) == Ok([Segment(0, day.date, map[day.date := RowOf(day, daily.endMS)])])
  {
    hide SaveSegments, InOrder, RowOf, WellKeyed;
    FirstAccepted(daily);
    TotalOrder();
    var seg := Segment(0, day.date, map[]);
    assert [day][..0] == [] && Written(seg, daily.endMS, []) == seg;
  }

  /** A closed row stands in the way of no day. */
  lemma ClosedTaken(segs: seq<Segment>, daily: Daily, day: Day)
    requires segs != [] && daily.days == [day] && InOrder([day]) == [day] && ValidDay(day, daily.endMS) && WellKeyed(day)
    requires day.date in segs[|segs| - 1].rows && !Open(segs[|segs| - 1].rows[day.date])
    ensures ResetOf(segs, daily).None? && SaveSegments(segs, daily).Ok?
  {
    hide SnapshotReset, DetailsRegressed, InOrder, WellKeyed;
    assert ResetDate(segs[|segs| - 1], daily.endMS, []).None?;
  }

  lemma ClosedLower(segs: seq<Segment>, daily: Daily, day: Day, row: Row)
    requires daily.days == [day] && ResetOf(segs, daily).None?
    requires segs == [Segment(0, day.date, map[day.date := row])] && !Open(row) && row.snapshotEnd <= daily.endMS
    requires Read(DayBreakdown(day), None, Tokens) < Read(row.usage, None, Tokens)
    ensures Shrinks(segs, daily, day.date, None, Tokens)
  {
    TotalOrder();
    assert !Less(day.date, day.date);
    hide ResetOf, Less, Read, DayBreakdown;
    assert day in daily.days && Lands(segs[0], daily.endMS, day);
  }

  lemma ReadyDay(day: Day, end: int)
    requires ValidDay(day, end) && day.totals.value.costs == [] && day.models == []
    ensures InOrder([day]) == [day] && ValidSnapshot(Some(Daily(end, [day]))) && WellKeyed(day)
  {
    SingleDay(day);
  }

  lemma SingleDay(day: Day)
    ensures InOrder([day]) == [day]
  {
    InOrderDays([day]);
    assert multiset([day]) == multiset([day]);
  }

  // ---- totals and models stay in step

  ghost predicate AllBalanced(segs: seq<Segment>) {
    forall i, d | 0 <= i < |segs| && d in segs[i].rows :: Balanced(segs[i].rows[d].usage)
  }

  /** If every row is the sum of its models, so is every loaded figure. */
  lemma {:induction false} FigureBalanced(segs: seq<Segment>, d: string, lo: int, hi: int)
    requires AllBalanced(segs)
    ensures FigureAt(segs, d, lo, hi).Some? ==> Balanced(FigureAt(segs, d, lo, hi).value.usage)
  {
    hide Balanced, Join;
    if segs != [] {
      var init, last := segs[..|segs| - 1], segs[|segs| - 1];
      assert forall i | 0 <= i < |init| :: init[i] == segs[i];
      FigureBalanced(init, d, lo, hi);
      var a, b := FigureAt(init, d, lo, hi), FigureIn(last, d, lo, hi);
      if a.Some? && b.Some? {
        JoinBalanced(a.value.usage, b.value.usage);
      }
    }
  }
}
