/** What a save changes for a reader, and what repeating or reordering saves does. */
module Effects {
  import opened Text
  import opened Sorting
  import opened Usage
  import opened Grouping
  import opened Tally
  import opened Aggregate
  import opened Segments
  import opened History
  import opened Runs

  // ---- what a reader sees on a date

  /** A loaded day: its bounds and its usage. */
  datatype Figure = Figure(startMS: int, endMS: int, usage: Breakdown)

  function Min(a: int, b: int): int { if a < b then a else b }

  function Max(a: int, b: int): int { if a > b then a else b }

  function Combine(a: Option<Figure>, b: Option<Figure>): Option<Figure> {
    match (a, b)
    case (None, _) => b
    case (_, None) => a
    case (Some(x), Some(y)) =>
      Some(Figure(Min(x.startMS, y.startMS), Max(x.endMS, y.endMS), Join(x.usage, y.usage)))
  }

  /** A row counts when it starts in the period that is loaded. */
  function Picked(row: Row, lo: int, hi: int): Option<Figure> {
    if lo <= row.startMS < hi then Some(Figure(row.startMS, row.endMS, row.usage)) else None
  }

  function FigureIn(seg: Segment, d: string, lo: int, hi: int): Option<Figure> {
    if d in seg.rows then Picked(seg.rows[d], lo, hi) else None
  }

  /** The sum over the segments of the rows of one date that start in the period. */
  function FigureAt(segs: seq<Segment>, d: string, lo: int, hi: int): Option<Figure> {
    if segs == [] then None
    else Combine(FigureAt(segs[..|segs| - 1], d, lo, hi), FigureIn(segs[|segs| - 1], d, lo, hi))
  }

  lemma FigureAtOne(segs: seq<Segment>, seg: Segment, d: string, lo: int, hi: int)
    ensures FigureAt(segs + [seg], d, lo, hi) == Combine(FigureAt(segs, d, lo, hi), FigureIn(seg, d, lo, hi))
  {
    assert (segs + [seg])[..|segs|] == segs;
  }

  /** Seen over a period that holds every row, the figure is the whole usage of the date. */
  lemma {:induction false} WholeFigure(segs: seq<Segment>, d: string, lo: int, hi: int)
    requires forall i | 0 <= i < |segs| && d in segs[i].rows :: lo <= segs[i].rows[d].startMS < hi
    ensures UsageAt(segs, d) == match FigureAt(segs, d, lo, hi) case Some(f) => f.usage case None => Nothing
  {
    hide Join;
    if segs != [] {
      var init, last := segs[..|segs| - 1], segs[|segs| - 1];
      assert forall i | 0 <= i < |init| :: init[i] == segs[i];
      WholeFigure(init, d, lo, hi);
      JoinNothing(UsageAt(init, d));
      JoinNothing(RowUsage(last, d));
    }
  }

  /** The date at which a save opens a new segment, if it does. */
  function ResetOf(segs: seq<Segment>, daily: Daily): Option<string> {
    if segs == [] || daily.days == [] then None
    else ResetDate(segs[|segs| - 1], daily.endMS, daily.days)
  }

  lemma ResetDateOrderFree(seg: Segment, end: int, days: seq<Day>, again: seq<Day>)
    requires forall day :: day in days <==> day in again
    ensures ResetDate(seg, end, days) == ResetDate(seg, end, again)
  {
    hide ResetAt;
    TotalOrder();
    var a, b := ResetDate(seg, end, days), ResetDate(seg, end, again);
    if a.Some? {
      var day :| day in days && day.date == a.value && ResetAt(seg, end, day);
      assert day in again;
    }
    if b.Some? {
      var day :| day in again && day.date == b.value && ResetAt(seg, end, day);
      assert day in days;
    }
  }

  /** A save without a reset replaces, date by date, what the newest segment contributes. */
  lemma OverwriteEffect(segs: seq<Segment>, daily: Daily, lo: int, hi: int)
    requires segs != [] && Distinct(daily.days, DayDate)
    requires SaveSegments(segs, daily).Ok? && ResetOf(segs, daily).None?
    ensures var older, last, after := segs[..|segs| - 1], segs[|segs| - 1], SaveSegments(segs, daily).value;
      && |after| == |segs|
      && (forall day | day in daily.days && Lands(last, daily.endMS, day) ::
            FigureAt(after, day.date, lo, hi) ==
            Combine(FigureAt(older, day.date, lo, hi), Picked(RowOf(day, daily.endMS), lo, hi)))
      && (forall d | forall day | day in daily.days && day.date == d :: !Lands(last, daily.endMS, day) ::
            FigureAt(after, d, lo, hi) == FigureAt(segs, d, lo, hi))
  {
    hide Picked, Combine, FigureAt, ResetDate, Lands, RowOf, Written;
    if daily.days != [] {
      hide SaveSegments;
      var days, all, older, seg := Shape(segs, daily);
      ResetDateOrderFree(seg, daily.endMS, daily.days, days);
      ResetDateOrderFree(segs[|segs| - 1], daily.endMS, daily.days, days);
      var w := Written(seg, daily.endMS, days);
      WrittenRows(seg, daily.endMS, days);
      assert segs == older + [seg];
      forall d
        ensures FigureAt(older + [w], d, lo, hi) == Combine(FigureAt(older, d, lo, hi), FigureIn(w, d, lo, hi))
        ensures FigureAt(segs, d, lo, hi) == Combine(FigureAt(older, d, lo, hi), FigureIn(seg, d, lo, hi))
      {
        FigureAtOne(older, w, d, lo, hi);
        FigureAtOne(older, seg, d, lo, hi);
      }
    }
  }

  /** A save with a reset adds exactly the days from the reset date on, and changes nothing else. */
  lemma ResetEffect(segs: seq<Segment>, daily: Daily, lo: int, hi: int)
    requires segs != [] && Distinct(daily.days, DayDate)
    requires SaveSegments(segs, daily).Ok? && ResetOf(segs, daily).Some?
    ensures var date, after := ResetOf(segs, daily).value, SaveSegments(segs, daily).value;
      && |after| == |segs| + 1 && after[..|segs|] == segs && after[|segs|].startDate == date
      && (forall day | day in daily.days && !Less(day.date, date) ::
            FigureAt(after, day.date, lo, hi) ==
            Combine(FigureAt(segs, day.date, lo, hi), Picked(RowOf(day, daily.endMS), lo, hi)))
      && (forall d | forall day | day in daily.days && day.date == d :: Less(d, date) ::
            FigureAt(after, d, lo, hi) == FigureAt(segs, d, lo, hi))
  {
    hide SaveSegments, Picked, Combine, FigureAt, ResetDate, RowOf, Written, Less, ResetAt, WellKeyed, IncompleteAt;
    var days, all, older, seg := Shape(segs, daily);
    ResetDateOrderFree(segs[|segs| - 1], daily.endMS, daily.days, days);
    var w := Written(seg, daily.endMS, days);
    WrittenRows(seg, daily.endMS, days);
    forall d
      ensures FigureAt(segs + [w], d, lo, hi) == Combine(FigureAt(segs, d, lo, hi), FigureIn(w, d, lo, hi))
    {
      FigureAtOne(segs, w, d, lo, hi);
    }
    CombineNone();
  }

  lemma CombineNone()
    ensures forall a :: Combine(a, None) == a
  {
  }

  // ---- repeating a save

  /** Repeating a successful save succeeds and changes nothing, also when the first one opened a new segment. */
  lemma SaveTwice(segs: seq<Segment>, daily: Daily)
    requires ValidSnapshot(Some(daily)) && SaveSegments(segs, daily).Ok?
    ensures SaveSegments(SaveSegments(segs, daily).value, daily) == SaveSegments(segs, daily)
  {
    if daily.days != [] {
      hide *;
      var days, all, older, seg := Shape(segs, daily);
      WriteAgain(seg, daily.endMS, days);
      SaveSettled(older, Written(seg, daily.endMS, days), daily.endMS, days);
      SavedInOrder(older + [Written(seg, daily.endMS, days)], daily);
    }
  }

  lemma SavedInOrder(segs: seq<Segment>, daily: Daily)
    requires daily.days != [] && InOrder(daily.days) != []
    ensures SaveSegments(segs, daily) == SaveDays(segs, daily.endMS, InOrder(daily.days))
  {
    hide SaveDays, InOrder;
  }

  /** A snapshot that neither regresses nor changes the newest segment changes nothing. */
  lemma SaveSettled(older: seq<Segment>, seg: Segment, end: int, days: seq<Day>)
    requires days != [] && Written(seg, end, days) == seg
    requires forall day | day in days && Lands(seg, end, day) ::
      WellKeyed(day) && !ResetAt(seg, end, day) && !IncompleteAt(seg, end, day)
    ensures SaveDays(older + [seg], end, days) == Ok(older + [seg])
  {
    hide Written, WellKeyed, ResetDate;
    var all := older + [seg];
    assert all[..|all| - 1] == older && all[|all| - 1] == seg;
    hide SnapshotReset, DetailsRegressed;
  }

  lemma WriteAgain(seg: Segment, end: int, days: seq<Day>)
    requires Distinct(days, DayDate) && forall day | day in days :: ValidDay(day, end)
    requires forall day | day in days && Lands(seg, end, day) :: WellKeyed(day)
    ensures var w := Written(seg, end, days);
      && (forall day | day in days :: Lands(w, end, day) ==> WellKeyed(day) && !ResetAt(w, end, day) && !IncompleteAt(w, end, day))
      && Written(w, end, days) == w
  {
    hide WellKeyed, Lands, ResetAt, IncompleteAt, Written, ValidDay;
    var w := Written(seg, end, days);
    WrittenRows(seg, end, days);
    forall day | day in days && Lands(w, end, day)
      ensures Lands(seg, end, day) && day.date in w.rows && w.rows[day.date] == RowOf(day, end)
      ensures !ResetAt(w, end, day) && !IncompleteAt(w, end, day)
    {
      LandedBefore(seg, end, days, day);
      UnchangedAt(w, end, day);
    }
    RewriteNothing(w, end, days);
  }

  /** Days that land on rows they made themselves change nothing. */
  lemma RewriteNothing(w: Segment, end: int, days: seq<Day>)
    requires Distinct(days, DayDate)
    requires forall day | day in days && Lands(w, end, day) :: day.date in w.rows && w.rows[day.date] == RowOf(day, end)
    ensures Written(w, end, days) == w
  {
    hide Lands, RowOf, Written;
    WrittenRows(w, end, days);
    var v := Written(w, end, days);
    forall d
      ensures d in v.rows <==> d in w.rows
      ensures d in w.rows ==> v.rows[d] == w.rows[d]
    {
    }
    assert v.rows == w.rows;
  }

  lemma UnchangedAt(seg: Segment, end: int, day: Day)
    requires WellKeyed(day) && ValidDay(day, end) && day.date in seg.rows && seg.rows[day.date] == RowOf(day, end)
    ensures !ResetAt(seg, end, day) && !IncompleteAt(seg, end, day)
  {
    SameNotRegressed(day, end);
    hide SnapshotReset, DetailsRegressed;
  }

  lemma OneDay(days: seq<Day>, day: Day)
    requires Distinct(days, DayDate) && day in days
    ensures forall other | other in days && other.date == day.date :: other == day
  {
    forall other | other in days && other.date == day.date
      ensures other == day
    {
      var i :| 0 <= i < |days| && days[i] == day;
      var j :| 0 <= j < |days| && days[j] == other;
      assert i != j ==> DayDate(days[i]) != DayDate(days[j]);
    }
  }

  lemma LandedBefore(seg: Segment, end: int, days: seq<Day>, day: Day)
    requires Distinct(days, DayDate) && day in days && Lands(Written(seg, end, days), end, day)
    ensures Lands(seg, end, day)
  {
    hide Less, RowOf;
    WrittenRows(seg, end, days);
    OneDay(days, day);
  }

  /** A day does not regress from the row it made itself. */
  lemma SameNotRegressed(day: Day, end: int)
    requires WellKeyed(day) && 0 <= day.startMS < day.endMS
    ensures !SnapshotReset(RowOf(day, end), day) && !DetailsRegressed(RowOf(day, end), day)
  {
    CostTableIsMap(day.totals.value.costs);
    ModelTableIsMap(day.models);
    forall m | m in ModelMap(day.models)
      ensures !ModelRegressed(ModelMap(day.models)[m], ModelTable(day.models)[m])
    {
      var k :| k in day.models && ModelTable(day.models)[m] == k.totals;
      CostTableIsMap(k.totals.costs);
    }
  }

  // ---- reordering saves

  /** Writes a whole snapshot into a segment. */
  function Apply(seg: Segment, daily: Daily): Segment {
    Written(seg, daily.endMS, InOrder(daily.days))
  }

  function ApplyAll(seg: Segment, dailies: seq<Daily>): Segment {
    if dailies == [] then seg else Apply(ApplyAll(seg, dailies[..|dailies| - 1]), dailies[|dailies| - 1])
  }

  function RowAt(seg: Segment, d: string): Option<Row> {
    if d in seg.rows then Some(seg.rows[d]) else None
  }

  /** The row of `d` after a snapshot that ends at `end` and has the entry `day` for it. */
  function Replaced(row: Option<Row>, end: int, day: Day): Option<Row> {
    if row.Some? && end < row.value.snapshotEnd then row else Some(RowOf(day, end))
  }

  lemma AppliedRow(seg: Segment, daily: Daily, d: string)
    requires Distinct(daily.days, DayDate)
    ensures Apply(seg, daily).ordinal == seg.ordinal && Apply(seg, daily).startDate == seg.startDate
    ensures Less(d, seg.startDate) || (forall day | day in daily.days :: day.date != d) ==>
      RowAt(Apply(seg, daily), d) == RowAt(seg, d)
    ensures !Less(d, seg.startDate) ==> forall day | day in daily.days && day.date == d ::
      RowAt(Apply(seg, daily), d) == Replaced(RowAt(seg, d), daily.endMS, day)
  {
    hide Written, InOrder, Less, RowOf;
    var days := InOrder(daily.days);
    InOrderDays(daily.days);
    WrittenRows(seg, daily.endMS, days);
    if day :| day in days && day.date == d {
      OneDay(days, day);
    }
  }

  lemma AppliedTwice(seg: Segment, a: Daily, b: Daily, d: string)
    requires Distinct(a.days, DayDate) && Distinct(b.days, DayDate) && a.endMS != b.endMS
    ensures var x, y := Apply(Apply(seg, a), b), Apply(Apply(seg, b), a);
      RowAt(x, d) == RowAt(y, d) && x.ordinal == y.ordinal && x.startDate == y.startDate
  {
    hide Apply, Less, Distinct, RowAt;
    AppliedRow(seg, a, d);
    AppliedRow(seg, b, d);
    AppliedRow(Apply(seg, a), b, d);
    AppliedRow(Apply(seg, b), a, d);
    if Less(d, seg.startDate) {
    } else if p :| p in a.days && p.date == d {
      if q :| q in b.days && q.date == d {
      }
    } else if q :| q in b.days && q.date == d {
    }
  }

  /** Snapshots with different ends can be written in either order. */
  lemma ApplyCommutes(seg: Segment, a: Daily, b: Daily)
    requires Distinct(a.days, DayDate) && Distinct(b.days, DayDate) && a.endMS != b.endMS
    ensures Apply(Apply(seg, a), b) == Apply(Apply(seg, b), a)
  {
    hide Apply, Less, RowOf;
    var x, y := Apply(Apply(seg, a), b), Apply(Apply(seg, b), a);
    forall d
      ensures RowAt(x, d) == RowAt(y, d)
    {
      AppliedTwice(seg, a, b, d);
    }
    AppliedTwice(seg, a, b, "");
    SameRows(x, y);
  }

  lemma SameRows(x: Segment, y: Segment)
    requires forall d :: RowAt(x, d) == RowAt(y, d)
    requires x.ordinal == y.ordinal && x.startDate == y.startDate
    ensures x == y
  {
    forall d
      ensures d in x.rows <==> d in y.rows
      ensures d in x.rows ==> x.rows[d] == y.rows[d]
    {
      assert RowAt(x, d) == RowAt(y, d);
    }
    assert x.rows == y.rows;
  }

  /** No two snapshots end at the same moment. */
  ghost predicate DistinctEnds(dailies: seq<Daily>) {
    && (forall daily | daily in dailies :: Distinct(daily.days, DayDate))
    && (forall i, j | 0 <= i < j < |dailies| :: dailies[i].endMS != dailies[j].endMS)
  }

  lemma ApplyAllOne(seg: Segment, dailies: seq<Daily>, daily: Daily)
    ensures ApplyAll(seg, dailies + [daily]) == Apply(ApplyAll(seg, dailies), daily)
  {
    assert (dailies + [daily])[..|dailies|] == dailies;
  }

  lemma {:induction false} ApplyLast(seg: Segment, dailies: seq<Daily>, i: nat)
    requires i < |dailies| && DistinctEnds(dailies)
    ensures ApplyAll(seg, dailies) == Apply(ApplyAll(seg, dailies[..i] + dailies[i + 1..]), dailies[i])
  {
    hide Apply;
    var n := |dailies| - 1;
    if i == n {
      assert dailies[..i] + dailies[i + 1..] == dailies[..n];
    } else {
      var init := dailies[..n];
      assert dailies[i].endMS != dailies[n].endMS && DistinctEnds(init);
      hide DistinctEnds;
      ApplyLast(seg, init, i);
      var rest := init[..i] + init[i + 1..];
      assert dailies[..i] + dailies[i + 1..] == rest + [dailies[n]] && dailies == init + [dailies[n]];
      hide ApplyAll;
      ApplyAllOne(seg, rest, dailies[n]);
      ApplyAllOne(seg, init, dailies[n]);
      ApplyCommutes(ApplyAll(seg, rest), dailies[i], dailies[n]);
    }
  }

  /** Snapshots with distinct ends leave the same segment in any order. */
  lemma {:induction false} ApplyPermuted(seg: Segment, dailies: seq<Daily>, again: seq<Daily>)
    requires multiset(dailies) == multiset(again) && DistinctEnds(dailies) && DistinctEnds(again)
    ensures ApplyAll(seg, dailies) == ApplyAll(seg, again)
    decreases |dailies|
  {
    hide Apply, Distinct;
    if dailies == [] {
      assert |multiset(again)| == 0;
    } else {
      var i := Without(dailies, again);
      ApplyLast(seg, again, i);
      ApplyPermuted(seg, dailies[..|dailies| - 1], again[..i] + again[i + 1..]);
    }
  }

  /** Every snapshot is saved, and none opens a new segment. */
  ghost predicate Accepted(segs: seq<Segment>, dailies: seq<Daily>) {
    if dailies == [] then true
    else
      var init, last := dailies[..|dailies| - 1], dailies[|dailies| - 1];
      && Accepted(segs, init)
      && var before := Run(segs, Saves(init));
         before != [] && ValidSnapshot(Some(last)) && SaveSegments(before, last).Ok? && ResetOf(before, last).None?
  }

  function Saves(dailies: seq<Daily>): seq<Option<Daily>> {
    seq(|dailies|, i requires 0 <= i < |dailies| => Some(dailies[i]))
  }

  lemma {:induction false} AcceptedRun(segs: seq<Segment>, dailies: seq<Daily>)
    requires segs != [] && Accepted(segs, dailies)
    ensures Run(segs, Saves(dailies)) == segs[..|segs| - 1] + [ApplyAll(segs[|segs| - 1], dailies)]
    ensures forall daily | daily in dailies :: Distinct(daily.days, DayDate)
  {
    hide SaveSegments, Apply, ResetOf;
    if dailies == [] {
      assert segs == segs[..|segs| - 1] + [segs[|segs| - 1]];
    } else {
      var init, last := dailies[..|dailies| - 1], dailies[|dailies| - 1];
      AcceptedRun(segs, init);
      assert dailies == init + [last];
      assert Saves(dailies)[..|init|] == Saves(init);
      AcceptedStep(Run(segs, Saves(init)), last);
    }
  }

  lemma AcceptedStep(segs: seq<Segment>, daily: Daily)
    requires segs != [] && Distinct(daily.days, DayDate) && SaveSegments(segs, daily).Ok? && ResetOf(segs, daily).None?
    ensures SaveSegments(segs, daily) == Ok(segs[..|segs| - 1] + [Apply(segs[|segs| - 1], daily)])
  {
    hide Written, ResetDate;
    var last := segs[|segs| - 1];
    if daily.days == [] {
      assert InOrder([]) == [];
      assert Written(last, daily.endMS, []) == last by {
        WrittenNothing(last, daily.endMS);
      }
      assert segs == segs[..|segs| - 1] + [last];
    } else {
      var days, all, older, seg := Shape(segs, daily);
      ResetDateOrderFree(last, daily.endMS, daily.days, days);
    }
  }

  lemma WrittenNothing(seg: Segment, end: int)
    ensures Written(seg, end, []) == seg
  {
  }

  /** If snapshots with distinct ends are all accepted without a reset in two orders, both orders leave the same history. */
  lemma Convergence(segs: seq<Segment>, dailies: seq<Daily>, again: seq<Daily>)
    requires segs != [] && multiset(dailies) == multiset(again)
    requires forall i, j | 0 <= i < j < |dailies| :: dailies[i].endMS != dailies[j].endMS
    requires Accepted(segs, dailies) && Accepted(segs, again)
    ensures Run(segs, Saves(dailies)) == Run(segs, Saves(again))
  {
    hide Run, Accepted, Apply;
    AcceptedRun(segs, dailies);
    AcceptedRun(segs, again);
    EndsPermuted(dailies, again);
    ApplyPermuted(segs[|segs| - 1], dailies, again);
  }

  lemma EndsPermuted(dailies: seq<Daily>, again: seq<Daily>)
    requires multiset(dailies) == multiset(again)
    requires forall i, j | 0 <= i < j < |dailies| :: dailies[i].endMS != dailies[j].endMS
    ensures forall i, j | 0 <= i < j < |again| :: again[i].endMS != again[j].endMS
  {
    NoRepeats(dailies);
    NoRepeats(again);
    SameElements(dailies, again);
    forall i, j | 0 <= i < j < |again|
      ensures again[i].endMS != again[j].endMS
    {
      assert again[i] in dailies && again[j] in dailies;
    }
  }

  // ---- the first save

  /** The first save of an account keeps every day exactly when no date is before that of the day that starts first. */
  lemma FirstSave(daily: Daily)
    requires ValidSnapshot(Some(daily)) && daily.days != [] && SaveSegments([], daily).Ok?
    ensures var after, first := SaveSegments([], daily).value, InOrder(daily.days)[0];
      && |after| == 1 && after[0].startDate == first.date
      && (forall day | day in daily.days :: first.startMS <= day.startMS)
      && ((forall day | day in daily.days :: day.date in after[0].rows) <==>
          (forall day | day in daily.days :: !Less(day.date, first.date)))
  {
    hide Written, InOrder, ResetDate, Less, RowOf;
    var days, all, older, seg := Shape([], daily);
    InOrderDays(daily.days);
    WrittenRows(seg, daily.endMS, days);
    forall day | day in daily.days
      ensures days[0].startMS <= day.startMS
      ensures day.date in Written(seg, daily.endMS, days).rows <==> !Less(day.date, days[0].date)
    {
      var i :| 0 <= i < |days| && days[i] == day;
      OneDay(days, day);
    }
  }

  /** The first save of an account succeeds if no day has duplicate keys: nothing stored can stand against it. */
  lemma FirstAccepted(daily: Daily)
    requires ValidSnapshot(Some(daily)) && daily.days != [] && forall day | day in daily.days :: WellKeyed(day)
    ensures InOrder(daily.days) != []
    ensures var days := InOrder(daily.days);
      SaveSegments([], daily) == Ok([Written(Segment(0, days[0].date, map[]), daily.endMS, days)])
  {
    hide WellKeyed, InOrder, Written, Lands, ValidDay;
    InOrderDays(daily.days);
    var days := InOrder(daily.days);
    var seg := Segment(0, days[0].date, map[]);
    NothingStored(seg, daily.endMS, days);
    assert [seg][..0] == [] && [] + [Written(seg, daily.endMS, days)] == [Written(seg, daily.endMS, days)];
  }

  /** No day shows a reset against a segment without rows. */
  lemma NothingStored(seg: Segment, end: int, days: seq<Day>)
    requires seg.rows == map[]
    ensures ResetDate(seg, end, days).None? && forall day :: !IncompleteAt(seg, end, day)
  {
    hide SnapshotReset, DetailsRegressed;
  }

  /** The first save can drop a day: one with an earlier date that starts later. */
  lemma FirstSaveMayDrop() returns (daily: Daily)
    ensures ValidSnapshot(Some(daily)) && |daily.days| == 2 && SaveSegments([], daily).Ok?
    ensures daily.days[1].date !in SaveSegments([], daily).value[0].rows
  {
    var a, b := Day("2024-01-02", 0, 1, Some(NoTotals), []), Day("2024-01-01", 5, 6, Some(NoTotals), []);
    daily := Daily(6, [a, b]);
    SecondEarlier();
    TwoDays(a, b, 6);
    hide *;
    TwoInOrder(a, b);
    FirstAccepted(daily);
    DropsEarlier(a, b, 6);
  }

  lemma TwoDays(a: Day, b: Day, end: int)
    requires ValidDay(a, end) && ValidDay(b, end) && a.date != b.date && 0 < end
    requires a.totals == b.totals == Some(NoTotals) && a.models == b.models == []
    ensures ValidSnapshot(Some(Daily(end, [a, b]))) && forall day | day in [a, b] :: WellKeyed(day)
  {
  }

  lemma SecondEarlier()
    ensures Less("2024-01-01", "2024-01-02") && "2024-01-01" != "2024-01-02"
  {
    LessConcat("2024-01-0", "1", "2024-01-0", "2");
    assert "2024-01-0" + "1" == "2024-01-01" && "2024-01-0" + "2" == "2024-01-02";
    TotalOrder();
  }

  lemma TwoInOrder(a: Day, b: Day)
    requires a.startMS < b.startMS && a.date != b.date
    ensures InOrder([a, b]) == [a, b]
  {
    assert [a, b][..1] == [a] && [a][..0] == [];
    var days := [a, b];
    assert Distinct(days, DayDate) && Sorted(days, StartsBefore);
    InOrderDays(days);
  }

  lemma DropsEarlier(a: Day, b: Day, end: int)
    requires Less(b.date, a.date)
    ensures b.date !in Written(Segment(0, a.date, map[]), end, [a, b]).rows
  {
    TotalOrder();
    var seg := Segment(0, a.date, map[]);
    assert [a, b][..1] == [a] && [a][..0] == [];
    assert Written(seg, end, []) == seg;
    assert Written(seg, end, [a]) == seg.(rows := map[a.date := RowOf(a, end)]);
    hide RowOf, Less;
  }
}
