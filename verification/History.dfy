/** What saving a snapshot does to a history: what it keeps, and what it can never lose. */
module History {
  import opened Text
  import opened Usage
  import opened Grouping
  import opened Tally
  import opened Aggregate
  import opened Segments

  // ---- one save, taken apart

  /** What the written segment holds: landed days, and whatever no landed day replaced. */
  lemma {:induction false} WrittenRows(seg: Segment, end: int, days: seq<Day>)
    requires Distinct(days, DayDate)
    ensures Written(seg, end, days).ordinal == seg.ordinal
    ensures Written(seg, end, days).startDate == seg.startDate
    ensures forall day | day in days && Lands(seg, end, day) ::
      day.date in Written(seg, end, days).rows && Written(seg, end, days).rows[day.date] == RowOf(day, end)
    ensures forall d | forall day | day in days && day.date == d :: !Lands(seg, end, day) ::
      && (d in Written(seg, end, days).rows <==> d in seg.rows)
      && (d in seg.rows ==> Written(seg, end, days).rows[d] == seg.rows[d])
  {
    if days != [] {
      var init, last := days[..|days| - 1], days[|days| - 1];
      assert days == init + [last];
      WrittenRows(seg, end, init);
      assert forall day | day in init :: DayDate(day) != DayDate(last);
    }
  }

  /** The parts of a successful save. */
  lemma Shape(segs: seq<Segment>, daily: Daily) returns (days: seq<Day>, all: seq<Segment>, older: seq<Segment>, seg: Segment)
    requires daily.days != [] && Distinct(daily.days, DayDate) && SaveSegments(segs, daily).Ok?
    ensures days == InOrder(daily.days) && days != [] && Distinct(days, DayDate)
    ensures forall day :: day in days <==> day in daily.days
    ensures all == Started(segs, days)
    ensures var last := all[|all| - 1];
      match ResetDate(last, daily.endMS, days)
      case Some(date) => older == all && seg == Segment(last.ordinal + 1, date, map[])
      case None => older == all[..|all| - 1] && seg == last && forall day | day in days :: !IncompleteAt(last, daily.endMS, day)
    ensures SaveSegments(segs, daily).value == older + [Written(seg, daily.endMS, days)]
    ensures forall day | day in days && Lands(seg, daily.endMS, day) :: WellKeyed(day)
  {
    hide Written, ResetDate, InOrder, WellKeyed, IncompleteAt, Lands;
    InOrderDays(daily.days);
    days := InOrder(daily.days);
    all := Started(segs, days);
    var last := all[|all| - 1];
    match ResetDate(last, daily.endMS, days)
    case Some(date) => older, seg := all, Segment(last.ordinal + 1, date, map[]);
    case None => older, seg := all[..|all| - 1], last;
  }

  // ---- invariant of the segments

  ghost predicate SegmentsValid(segs: seq<Segment>) {
    && (forall i | 0 <= i < |segs| :: segs[i].ordinal == i)
    && (forall i, j | 0 <= i < j < |segs| :: AtMost(segs[i].startDate, segs[j].startDate))
    && (forall i, d | 0 <= i < |segs| && d in segs[i].rows :: RowValid(segs[i], d))
  }

  ghost predicate RowValid(seg: Segment, d: string)
    requires d in seg.rows
  {
    AtMost(seg.startDate, d) && 0 <= seg.rows[d].startMS < seg.rows[d].endMS <= seg.rows[d].snapshotEnd
  }

  /** `seg'` is a later state of `seg`: rows stay, and are replaced only by rows of later or equal snapshots. */
  ghost predicate SegmentGrows(seg: Segment, seg': Segment) {
    && seg'.ordinal == seg.ordinal && seg'.startDate == seg.startDate
    && (forall d | d in seg.rows :: d in seg'.rows && seg.rows[d].snapshotEnd <= seg'.rows[d].snapshotEnd)
  }

  /** Only the newest segment may change, and segments are only added at the end. */
  ghost predicate Grows(segs: seq<Segment>, segs': seq<Segment>) {
    && |segs| <= |segs'|
    && (forall i | 0 <= i < |segs| :: SegmentGrows(segs[i], segs'[i]))
    && (forall i | 0 <= i < |segs| - 1 :: segs'[i] == segs[i])
  }

  lemma GrowsTransitive(a: seq<Segment>, b: seq<Segment>, c: seq<Segment>)
    requires Grows(a, b) && Grows(b, c)
    ensures Grows(a, c)
  {
    forall i | 0 <= i < |a|
      ensures SegmentGrows(a[i], c[i])
      ensures i < |a| - 1 ==> c[i] == a[i]
    {
      assert SegmentGrows(a[i], b[i]) && SegmentGrows(b[i], c[i]);
    }
  }

  lemma WrittenGrows(seg: Segment, end: int, days: seq<Day>)
    requires Distinct(days, DayDate)
    requires forall day | day in days :: ValidDay(day, end)
    requires forall d | d in seg.rows :: RowValid(seg, d)
    ensures SegmentGrows(seg, Written(seg, end, days))
    ensures forall d | d in Written(seg, end, days).rows :: RowValid(Written(seg, end, days), d)
  {
    WrittenRows(seg, end, days);
    var w := Written(seg, end, days);
    forall d
      ensures d in seg.rows ==> d in w.rows && seg.rows[d].snapshotEnd <= w.rows[d].snapshotEnd
      ensures d in w.rows ==> RowValid(w, d)
    {
      if day :| day in days && day.date == d && Lands(seg, end, day) {
        assert w.rows[day.date] == RowOf(day, end);
      }
    }
  }

  lemma AppendValid(older: seq<Segment>, seg: Segment)
    requires SegmentsValid(older) && seg.ordinal == |older|
    requires older != [] ==> AtMost(older[|older| - 1].startDate, seg.startDate)
    requires forall d | d in seg.rows :: RowValid(seg, d)
    ensures SegmentsValid(older + [seg])
  {
    hide RowValid;
    TotalOrder();
    var all := older + [seg];
    forall i, j | 0 <= i < j < |all|
      ensures AtMost(all[i].startDate, all[j].startDate)
    {
      var last := |older| - 1;
      assert i < last ==> AtMost(older[i].startDate, older[last].startDate);
    }
  }

  lemma AppendGrows(segs: seq<Segment>, all: seq<Segment>, reset: bool, seg: Segment)
    requires all == segs || (segs == [] && |all| == 1)
    requires all != [] && (reset || SegmentGrows(all[|all| - 1], seg))
    ensures Grows(segs, (if reset then all else all[..|all| - 1]) + [seg])
  {
  }

  lemma StartedValid(segs: seq<Segment>, days: seq<Day>)
    requires days != [] && SegmentsValid(segs)
    ensures SegmentsValid(Started(segs, days))
  {
  }

  lemma ValidPrefix(segs: seq<Segment>, n: nat)
    requires n <= |segs| && SegmentsValid(segs)
    ensures SegmentsValid(segs[..n])
  {
  }

  /** A new segment starts at a date that the newest one already covers. */
  lemma ResetNotBefore(last: Segment, end: int, days: seq<Day>)
    requires ResetDate(last, end, days).Some?
    ensures AtMost(last.startDate, ResetDate(last, end, days).value)
  {
    var date := ResetDate(last, end, days).value;
    var day :| day in days && day.date == date && ResetAt(last, end, day);
  }

  /** A save keeps the invariant, keeps every row, and leaves all but the newest segment alone. */
  lemma SaveKeepsSegments(segs: seq<Segment>, daily: Daily)
    requires ValidSnapshot(Some(daily)) && SegmentsValid(segs) && SaveSegments(segs, daily).Ok?
    ensures SegmentsValid(SaveSegments(segs, daily).value)
    ensures Grows(segs, SaveSegments(segs, daily).value)
  {
    if daily.days != [] {
      hide *;
      var days, all, older, seg := Shape(segs, daily);
      KeepsParts(segs, daily.endMS, days, all, older, seg);
    }
  }

  lemma KeepsParts(segs: seq<Segment>, end: int, days: seq<Day>, all: seq<Segment>, older: seq<Segment>, seg: Segment)
    requires days != [] && Distinct(days, DayDate) && SegmentsValid(segs) && all == Started(segs, days)
    requires forall day | day in days :: ValidDay(day, end)
    requires var last := all[|all| - 1];
      match ResetDate(last, end, days)
      case Some(date) => older == all && seg == Segment(last.ordinal + 1, date, map[])
      case None => older == all[..|all| - 1] && seg == last
    ensures SegmentsValid(older + [Written(seg, end, days)])
    ensures Grows(segs, older + [Written(seg, end, days)])
  {
    hide Written, RowValid, ResetDate, ValidDay;
    var last := all[|all| - 1];
    StartedValid(segs, days);
    ValidPrefix(all, |all| - 1);
    if ResetDate(last, end, days).Some? {
      ResetNotBefore(last, end, days);
    }
    WrittenGrows(seg, end, days);
    AppendValid(older, Written(seg, end, days));
    AppendGrows(segs, all, ResetDate(last, end, days).Some?, Written(seg, end, days));
  }

  // ---- sums over the segments

  function RowUsage(seg: Segment, d: string): Breakdown {
    if d in seg.rows then seg.rows[d].usage else Nothing
  }

  /** What an account used on a date: the sum over its segments. */
  function UsageAt(segs: seq<Segment>, d: string): Breakdown {
    if segs == [] then Nothing
    else Join(UsageAt(segs[..|segs| - 1], d), RowUsage(segs[|segs| - 1], d))
  }

  lemma UsageAtOne(segs: seq<Segment>, seg: Segment, d: string)
    ensures UsageAt(segs + [seg], d) == Join(UsageAt(segs, d), RowUsage(seg, d))
  {
    assert (segs + [seg])[..|segs|] == segs;
  }

  lemma UsageAtStarted(segs: seq<Segment>, days: seq<Day>, d: string)
    requires days != []
    ensures UsageAt(Started(segs, days), d) == UsageAt(segs, d)
  {
    if segs == [] {
      assert Started(segs, days) == [] + [Segment(0, days[0].date, map[])];
      UsageAtOne([], Segment(0, days[0].date, map[]), d);
      JoinNothing(Nothing);
    }
  }

  // ---- nothing is lost

  lemma CostTableIsMap(costs: seq<Cost>)
    requires Distinct(costs, CurrencyOf)
    ensures CostTable(costs) == CostMap(costs)
  {
    GroupDistinct(costs, CurrencyOf, NanosOf, LatestCost);
    GroupDistinct(costs, CurrencyOf, NanosOf, Plus);
  }

  lemma ModelTableIsMap(models: seq<Model>)
    requires Distinct(models, NameOf)
    ensures ModelTable(models).Keys == ModelMap(models).Keys
    ensures forall m | m in ModelMap(models) :: ModelMap(models)[m] == TallyOf(ModelTable(models)[m])
    ensures forall m | m in ModelTable(models) :: exists k :: k in models && ModelTable(models)[m] == k.totals
  {
    GroupDistinct(models, NameOf, TotalsOf, LatestTotals);
    GroupDistinct(models, NameOf, ModelTally, Add);
  }

  lemma KeptTotals(saved: Tally, current: Totals)
    requires Distinct(current.costs, CurrencyOf) && !ModelRegressed(saved, current)
    ensures Covers(saved, TallyOf(current))
  {
    CostTableIsMap(current.costs);
    forall c | c in saved.costs
      ensures c in CostTable(current.costs) && saved.costs[c] <= CostTable(current.costs)[c]
    {
    }
  }

  /** A day that passes both checks has no figure missing or lower than the row it replaces. */
  lemma KeptDay(row: Row, day: Day)
    requires WellKeyed(day) && !SnapshotReset(row, day) && !DetailsRegressed(row, day)
    ensures BreakdownCovers(row.usage, DayBreakdown(day))
  {
    KeptTotals(row.usage.total, day.totals.value);
    ModelTableIsMap(day.models);
    forall m | m in row.usage.models
      ensures m in ModelMap(day.models) && Covers(row.usage.models[m], ModelMap(day.models)[m])
    {
      var now := ModelTable(day.models)[m];
      KeptTotals(row.usage.models[m], now);
    }
  }

  /** The snapshot holds no negative figure. */
  ghost predicate Plausible(daily: Daily) {
    forall day | day in daily.days :: NoNegatives(DayBreakdown(day))
  }

  /** The newest segment has a row for the date that is no longer being filled. */
  predicate Closed(segs: seq<Segment>, d: string) {
    segs != [] && d in segs[|segs| - 1].rows && !Open(segs[|segs| - 1].rows[d])
  }

  /** No successful save lowers what a date adds up to, unless its newest row was already closed. */
  lemma NothingLost(segs: seq<Segment>, daily: Daily, d: string)
    requires ValidSnapshot(Some(daily)) && Plausible(daily) && SaveSegments(segs, daily).Ok?
    requires !Closed(segs, d)
    ensures BreakdownCovers(UsageAt(segs, d), UsageAt(SaveSegments(segs, daily).value, d))
  {
    if daily.days == [] {
      CoversSelf(UsageAt(segs, d));
    } else {
      hide *;
      var days, all, older, seg := Shape(segs, daily);
      UsageBefore(segs, days, all, older, seg, daily.endMS, d);
      RowKept(seg, daily.endMS, days, d);
      SumKept(older, seg, Written(seg, daily.endMS, days), d);
    }
  }

  lemma CoversSelf(b: Breakdown)
    ensures BreakdownCovers(b, b)
  {
  }

  /** The sum before a save, split into the older segments and the one that is written. */
  lemma UsageBefore(segs: seq<Segment>, days: seq<Day>, all: seq<Segment>, older: seq<Segment>, seg: Segment, end: int, d: string)
    requires days != [] && all == Started(segs, days)
    requires var last := all[|all| - 1];
      match ResetDate(last, end, days)
      case Some(date) => older == all && seg == Segment(last.ordinal + 1, date, map[])
      case None => older == all[..|all| - 1] && seg == last
    ensures UsageAt(segs, d) == Join(UsageAt(older, d), RowUsage(seg, d))
    ensures d in seg.rows ==> segs != [] && seg == segs[|segs| - 1]
    ensures forall day | day in days :: !ResetAt(seg, end, day)
  {
    hide Join, ResetDate, SnapshotReset, UsageAt;
    UsageAtStarted(segs, days, d);
    var n := |all| - 1;
    if ResetDate(all[n], end, days).Some? {
      JoinNothing(UsageAt(all, d));
    } else {
      assert all == all[..n] + [all[n]];
      UsageAtOne(all[..n], all[n], d);
    }
  }

  lemma SumKept(older: seq<Segment>, seg: Segment, seg': Segment, d: string)
    requires BreakdownCovers(RowUsage(seg, d), RowUsage(seg', d))
    requires NoNegatives(RowUsage(seg', d)) || RowUsage(seg', d) == RowUsage(seg, d)
    ensures BreakdownCovers(Join(UsageAt(older, d), RowUsage(seg, d)), UsageAt(older + [seg'], d))
  {
    UsageAtOne(older, seg', d);
    if NoNegatives(RowUsage(seg', d)) {
      JoinGrows(RowUsage(seg, d), RowUsage(seg', d), UsageAt(older, d));
    } else {
      CoversSelf(UsageAt(older + [seg'], d));
    }
  }

  lemma RowKept(seg: Segment, end: int, days: seq<Day>, d: string)
    requires Distinct(days, DayDate)
    requires d in seg.rows ==> Open(seg.rows[d])
    requires forall day | day in days :: day.totals.Some? && NoNegatives(DayBreakdown(day)) && !ResetAt(seg, end, day) && !IncompleteAt(seg, end, day)
    requires forall day | day in days && Lands(seg, end, day) :: WellKeyed(day)
    ensures BreakdownCovers(RowUsage(seg, d), RowUsage(Written(seg, end, days), d))
    ensures NoNegatives(RowUsage(Written(seg, end, days), d)) || RowUsage(Written(seg, end, days), d) == RowUsage(seg, d)
  {
    WrittenRows(seg, end, days);
    if day :| day in days && day.date == d && Lands(seg, end, day) {
      if d in seg.rows {
        KeptDay(seg.rows[d], day);
      }
    }
  }
}
