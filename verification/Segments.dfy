/** internal/store/sqlite/store.go: what one snapshot does to the usage segments of one account. */
module Segments {
  import opened Text
  import opened Sorting
  import opened Usage
  import opened Grouping
  import opened Tally
  import opened Aggregate

  /** A row of daily_usage together with its rows of the three detail tables. */
  datatype Row = Row(startMS: int, endMS: int, snapshotEnd: int, usage: Breakdown)

  datatype Segment = Segment(ordinal: int, startDate: string, rows: map<string, Row>)

  datatype SaveError = InvalidSnapshot | AmbiguousSource | IncompleteSnapshot | CannotPersist

  datatype Result<+T> = Ok(value: T) | Err(error: SaveError)

  // ---- snapshots

  ghost predicate ValidDay(day: Day, end: int) {
    day.date != "" && day.totals.Some? && 0 <= day.startMS < day.endMS <= end
  }

  ghost predicate ValidSnapshot(daily: Option<Daily>) {
    && daily.Some? && 0 < daily.value.endMS
    && (forall day | day in daily.value.days :: ValidDay(day, daily.value.endMS))
    && Distinct(daily.value.days, DayDate)
  }

  /** A snapshot is refused at once exactly when there is none, its end is not positive, a day is out of shape or outside the snapshot, or a date occurs twice. */
  lemma InvalidExactly(daily: Option<Daily>)
    ensures !ValidSnapshot(daily) <==> (
      || daily.None? || daily.value.endMS <= 0
      || (exists day :: day in daily.value.days && (day.date == "" || day.totals.None? || day.startMS < 0 || day.endMS <= day.startMS || day.endMS > daily.value.endMS))
      || (exists i, j :: 0 <= i < j < |daily.value.days| && daily.value.days[i].date == daily.value.days[j].date))
  {
    if daily.Some? {
      var days := daily.value.days;
      if i, j :| 0 <= i < j < |days| && days[i].date == days[j].date {
        assert DayDate(days[i]) == DayDate(days[j]);
      } else {
        assert Distinct(days, DayDate);
      }
    }
  }

  /** The order in which `SaveDaily` handles the days. */
  predicate StartsBefore(a: Day, b: Day) {
    if a.startMS != b.startMS then a.startMS < b.startMS else Less(a.date, b.date)
  }

  function InOrder(days: seq<Day>): seq<Day> {
    StableSort(days, StartsBefore)
  }

  /** No primary key of the detail tables would occur twice. */
  ghost predicate WellKeyed(day: Day) {
    && day.totals.Some?
    && Distinct(day.totals.value.costs, CurrencyOf)
    && Distinct(day.models, NameOf)
    && (forall m | m in day.models :: Distinct(m.totals.costs, CurrencyOf))
  }

  function RowOf(day: Day, end: int): Row {
    Row(day.startMS, day.endMS, end, DayBreakdown(day))
  }

  // ---- regressions

  /** A row that was still being filled when it was saved. */
  predicate Open(row: Row) {
    row.endMS == row.snapshotEnd
  }

  predicate TotalsRegressed(saved: Tally, current: Totals) {
    || current.input < saved.input || current.output < saved.output || current.cacheRead < saved.cacheRead
    || current.cacheCreation < saved.cacheCreation || current.requests < saved.requests || current.tokens < saved.tokens
    || (saved.aiu.Some? && current.aiu.Some? && current.aiu.value < saved.aiu.value)
  }

  predicate SnapshotReset(stored: Row, current: Day)
    requires current.totals.Some?
  {
    || TotalsRegressed(stored.usage.total, current.totals.value)
    || (current.startMS > stored.startMS && current.startMS >= stored.endMS)
  }

  /** A later element with the same key replaces an earlier one. */
  function LatestCost(a: int, b: int): int { b }

  function LatestTotals(a: Totals, b: Totals): Totals { b }

  /** The costs as a lookup table; the last of several with one currency is kept. */
  function CostTable(costs: seq<Cost>): map<string, int> {
    Group(costs, CurrencyOf, NanosOf, LatestCost)
  }

  function TotalsOf(m: Model): Totals { m.totals }

  function ModelTable(models: seq<Model>): map<string, Totals> {
    Group(models, NameOf, TotalsOf, LatestTotals)
  }

  ghost predicate CostsRegressed(saved: map<string, int>, current: map<string, int>) {
    exists c :: c in saved && (c !in current || current[c] < saved[c])
  }

  ghost predicate ModelRegressed(saved: Tally, current: Totals) {
    || TotalsRegressed(saved, current)
    || (saved.aiu.Some? && current.aiu.None?)
    || CostsRegressed(saved.costs, CostTable(current.costs))
  }

  ghost predicate DetailsRegressed(stored: Row, current: Day)
    requires current.totals.Some?
  {
    var saved, now := stored.usage, current.totals.value;
    || (saved.total.aiu.Some? && now.aiu.None?)
    || CostsRegressed(saved.total.costs, CostTable(now.costs))
    || (exists m :: m in saved.models &&
         (m !in ModelTable(current.models) || ModelRegressed(saved.models[m], ModelTable(current.models)[m])))
  }

  // ---- the effect of a snapshot

  /** The day belongs to the segment and is not older than the row that is there. */
  predicate Lands(seg: Segment, end: int, day: Day) {
    && !Less(day.date, seg.startDate)
    && (day.date in seg.rows ==> seg.rows[day.date].snapshotEnd <= end)
  }

  /** The day meets an open row that it may replace. */
  predicate Meets(seg: Segment, end: int, day: Day) {
    Lands(seg, end, day) && day.date in seg.rows && Open(seg.rows[day.date])
  }

  predicate ResetAt(seg: Segment, end: int, day: Day) {
    Meets(seg, end, day) && day.totals.Some? && SnapshotReset(seg.rows[day.date], day)
  }

  ghost predicate IncompleteAt(seg: Segment, end: int, day: Day) {
    Meets(seg, end, day) && day.totals.Some? && DetailsRegressed(seg.rows[day.date], day)
  }

  /** The least date at which the snapshot shows a rebuilt upstream database. */
  function ResetDate(seg: Segment, end: int, days: seq<Day>): (r: Option<string>)
    ensures r.None? <==> forall day | day in days :: !ResetAt(seg, end, day)
    ensures r.Some? ==> exists day :: day in days && day.date == r.value && ResetAt(seg, end, day)
    ensures r.Some? ==> forall day | day in days && ResetAt(seg, end, day) :: !Less(day.date, r.value)
  {
    if days == [] then None
    else
      var init, day := days[..|days| - 1], days[|days| - 1];
      assert days == init + [day];
      TotalOrder();
      var r := ResetDate(seg, end, init);
      if ResetAt(seg, end, day) && (r.None? || Less(day.date, r.value)) then Some(day.date) else r
  }

  /** Writes the days that land, one after the other. */
  function Written(seg: Segment, end: int, days: seq<Day>): Segment {
    if days == [] then seg
    else
      var rest, day := Written(seg, end, days[..|days| - 1]), days[|days| - 1];
      if Lands(rest, end, day) then rest.(rows := rest.rows[day.date := RowOf(day, end)]) else rest
  }

  /** Writing succeeds unless a day that lands has duplicate keys. */
  ghost function Finish(older: seq<Segment>, seg: Segment, end: int, days: seq<Day>): Result<seq<Segment>> {
    if exists day :: day in days && Lands(seg, end, day) && !WellKeyed(day) then Err(CannotPersist)
    else Ok(older + [Written(seg, end, days)])
  }

  /** The segments a save works on: an account without any gets its first one at the earliest day. */
  function Started(segs: seq<Segment>, days: seq<Day>): (r: seq<Segment>)
    requires days != []
    ensures r != []
  {
    if segs == [] then [Segment(0, days[0].date, map[])] else segs
  }

  /** The segments after a valid snapshot whose days are handled in the order given. */
  ghost function SaveDays(segs: seq<Segment>, end: int, days: seq<Day>): Result<seq<Segment>>
    requires days != []
  {
    var all := Started(segs, days);
    var older, last := all[..|all| - 1], all[|all| - 1];
    match ResetDate(last, end, days)
    case Some(date) => Finish(all, Segment(last.ordinal + 1, date, map[]), end, days)
    case None =>
      if exists day :: day in days && IncompleteAt(last, end, day) then Err(IncompleteSnapshot)
      else Finish(older, last, end, days)
  }

  /** The segments of an account after a valid snapshot. */
  ghost function SaveSegments(segs: seq<Segment>, daily: Daily): Result<seq<Segment>> {
    if daily.days == [] then Ok(segs)
    else
      StableSortKeeps(daily.days, StartsBefore);
      SaveDays(segs, daily.endMS, InOrder(daily.days))
  }

  // ---- the order of the days

  lemma OrderOfDays(days: seq<Day>)
    requires Distinct(days, DayDate)
    ensures WeakOrder(days, StartsBefore) && Telling(days, StartsBefore)
  {
    TotalOrder();
    forall a, b | a in days && b in days && a != b
      ensures StartsBefore(a, b) || StartsBefore(b, a)
    {
      var i :| 0 <= i < |days| && days[i] == a;
      var j :| 0 <= j < |days| && days[j] == b;
      assert DayDate(days[i]) != DayDate(days[j]);
    }
  }

  /** The days in handling order: a sorted rearrangement, and the only one. */
  lemma InOrderDays(days: seq<Day>)
    requires Distinct(days, DayDate)
    ensures multiset(InOrder(days)) == multiset(days) && |InOrder(days)| == |days|
    ensures Sorted(InOrder(days), StartsBefore) && Distinct(InOrder(days), DayDate)
    ensures forall day :: day in InOrder(days) <==> day in days
    ensures forall r: seq<Day> | multiset(r) == multiset(days) && Sorted(r, StartsBefore) :: r == InOrder(days)
  {
    var s := InOrder(days);
    OrderOfDays(days);
    StableSortKeeps(days, StartsBefore);
    StableSortSorts(days, StartsBefore);
    assert |multiset(s)| == |s| && |multiset(days)| == |days|;
    PermutedKeys(days, s, DayDate);
    SameElements(days, s);
    OrderOfDays(s);
    forall r: seq<Day> | multiset(r) == multiset(days) && Sorted(r, StartsBefore)
      ensures r == s
    {
      SortedUnique(s, r, StartsBefore);
    }
  }
}
