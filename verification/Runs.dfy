/** Whole runs of saves on one account: what every state satisfies, and which snapshot each row comes from. */
module Runs {
  import opened Text
  import opened Usage
  import opened Grouping
  import opened Tally
  import opened Aggregate
  import opened Segments
  import opened History

  /** The segments after an attempted save; a save that fails is rolled back. */
  ghost function AfterSave(segs: seq<Segment>, daily: Option<Daily>): seq<Segment> {
    if ValidSnapshot(daily) && SaveSegments(segs, daily.value).Ok? then SaveSegments(segs, daily.value).value else segs
  }

  ghost function Run(segs: seq<Segment>, saves: seq<Option<Daily>>): seq<Segment> {
    if saves == [] then segs else AfterSave(Run(segs, saves[..|saves| - 1]), saves[|saves| - 1])
  }

  lemma RunOne(segs: seq<Segment>, saves: seq<Option<Daily>>, k: nat)
    requires k < |saves|
    ensures Run(segs, saves[..k + 1]) == AfterSave(Run(segs, saves[..k]), saves[k])
  {
    assert saves[..k + 1][..k] == saves[..k];
  }

  /** After any run the segments are valid, and compared with any earlier moment only the segment that was newest then has changed. */
  lemma {:induction false} RunKeepsSegments(segs: seq<Segment>, saves: seq<Option<Daily>>, k: nat, n: nat)
    requires SegmentsValid(segs) && k <= n <= |saves|
    ensures SegmentsValid(Run(segs, saves[..k])) && SegmentsValid(Run(segs, saves[..n]))
    ensures Grows(Run(segs, saves[..k]), Run(segs, saves[..n]))
    decreases n
  {
    hide SegmentsValid, Grows, SaveSegments;
    if n == 0 {
      GrowsSelf(segs);
    } else if k == n {
      RunKeepsSegments(segs, saves, k - 1, n - 1);
      RunStep(segs, saves, n - 1);
      GrowsSelf(Run(segs, saves[..n]));
    } else {
      RunKeepsSegments(segs, saves, k, n - 1);
      RunStep(segs, saves, n - 1);
      GrowsTransitive(Run(segs, saves[..k]), Run(segs, saves[..n - 1]), Run(segs, saves[..n]));
    }
  }

  lemma GrowsSelf(segs: seq<Segment>)
    ensures Grows(segs, segs)
  {
  }

  lemma RunStep(segs: seq<Segment>, saves: seq<Option<Daily>>, k: nat)
    requires k < |saves| && SegmentsValid(Run(segs, saves[..k]))
    ensures SegmentsValid(Run(segs, saves[..k + 1]))
    ensures Grows(Run(segs, saves[..k]), Run(segs, saves[..k + 1]))
  {
    hide SegmentsValid, Grows, SaveSegments;
    RunOne(segs, saves, k);
    var before := Run(segs, saves[..k]);
    if ValidSnapshot(saves[k]) && SaveSegments(before, saves[k].value).Ok? {
      SaveKeepsSegments(before, saves[k].value);
    } else {
      GrowsSelf(before);
    }
  }

  /** As long as the newest row of a date is never closed, no run lowers what the date adds up to. */
  lemma {:induction false} RunLosesNothing(segs: seq<Segment>, saves: seq<Option<Daily>>, d: string)
    requires forall daily | daily in saves && daily.Some? :: Plausible(daily.value)
    requires forall k | 0 <= k < |saves| :: !Closed(Run(segs, saves[..k]), d)
    ensures BreakdownCovers(UsageAt(segs, d), UsageAt(Run(segs, saves), d))
  {
    hide UsageAt, Plausible, Closed, SaveSegments;
    if saves == [] {
      CoversSelf(UsageAt(segs, d));
    } else {
      var n := |saves| - 1;
      var init, last := saves[..n], saves[n];
      assert last in saves;
      forall k | 0 <= k < n
        ensures !Closed(Run(segs, init[..k]), d)
      {
        assert init[..k] == saves[..k];
      }
      RunLosesNothing(segs, init, d);
      var before := Run(segs, init);
      if ValidSnapshot(last) && SaveSegments(before, last.value).Ok? {
        NothingLost(before, last.value, d);
        CoversTransitive(UsageAt(segs, d), UsageAt(before, d), UsageAt(Run(segs, saves), d));
      }
    }
  }

  lemma CoversTransitive(a: Breakdown, b: Breakdown, c: Breakdown)
    requires BreakdownCovers(a, b) && BreakdownCovers(b, c)
    ensures BreakdownCovers(a, c)
  {
    forall m | m in a.models
      ensures m in c.models && Covers(a.models[m], c.models[m])
    {
      assert Covers(a.models[m], b.models[m]) && Covers(b.models[m], c.models[m]);
    }
  }

  // ---- where each row comes from

  predicate HasDay(daily: Daily, d: string) {
    exists i :: 0 <= i < |daily.days| && daily.days[i].date == d
  }

  /** `day` is the entry for `d` in the snapshot of `log` that ends last; of equal ends, the later one. */
  ghost predicate Newest(log: seq<Daily>, d: string, j: int, day: Day) {
    && 0 <= j < |log| && day in log[j].days && day.date == d
    && forall k | 0 <= k < |log| && HasDay(log[k], d) ::
         log[k].endMS < log[j].endMS || (log[k].endMS == log[j].endMS && k <= j)
  }

  /** Exactly the dates that some snapshot has, from the segment start on, have a row; and it is wholly that of the newest one. */
  ghost predicate RowsFrom(seg: Segment, log: seq<Daily>) {
    forall d {:trigger d in seg.rows} ::
      && (d in seg.rows <==> !Less(d, seg.startDate) && exists k :: 0 <= k < |log| && HasDay(log[k], d))
      && (d in seg.rows ==> exists j, day :: Newest(log, d, j, day) && seg.rows[d] == RowOf(day, log[j].endMS))
  }

  lemma WrittenRowsFrom(seg: Segment, log: seq<Daily>, daily: Daily, days: seq<Day>)
    requires RowsFrom(seg, log)
    requires Distinct(days, DayDate) && forall day :: day in days <==> day in daily.days
    ensures RowsFrom(Written(seg, daily.endMS, days), log + [daily])
  {
    WrittenRows(seg, daily.endMS, days);
    var w, log' := Written(seg, daily.endMS, days), log + [daily];
    forall d
      ensures d in w.rows <==> !Less(d, w.startDate) && exists k :: 0 <= k < |log'| && HasDay(log'[k], d)
      ensures d in w.rows ==> exists j, day :: Newest(log', d, j, day) && w.rows[d] == RowOf(day, log'[j].endMS)
    {
      DateFrom(seg, log, daily, days, d);
    }
  }

  lemma DateFrom(seg: Segment, log: seq<Daily>, daily: Daily, days: seq<Day>, d: string)
    requires RowsFrom(seg, log)
    requires Distinct(days, DayDate) && forall day :: day in days <==> day in daily.days
    ensures var w, log' := Written(seg, daily.endMS, days), log + [daily];
      && (d in w.rows <==> !Less(d, w.startDate) && exists k :: 0 <= k < |log'| && HasDay(log'[k], d))
      && (d in w.rows ==> exists j, day :: Newest(log', d, j, day) && w.rows[d] == RowOf(day, log'[j].endMS))
  {
    hide Written, RowOf, Less;
    WrittenRows(seg, daily.endMS, days);
    var w, log' := Written(seg, daily.endMS, days), log + [daily];
    assert HasDay(daily, d) <==> exists day :: day in days && day.date == d by {
      if HasDay(daily, d) {
        var i :| 0 <= i < |daily.days| && daily.days[i].date == d;
        assert daily.days[i] in days;
      }
      if day :| day in days && day.date == d {
        assert day in daily.days;
      }
    }
    assert forall k | 0 <= k < |log| :: log'[k] == log[k];
    if day :| day in days && day.date == d && Lands(seg, daily.endMS, day) {
      NewestLanded(seg, log, daily, day);
      assert log'[|log|] == daily;
    } else if d in seg.rows {
      var j, day :| Newest(log, d, j, day) && seg.rows[d] == RowOf(day, log[j].endMS);
      assert w.rows[d] == RowOf(day, log'[j].endMS);
      StaysNewest(seg, log, daily, days, d, j, day);
    }
  }

  lemma NewestLanded(seg: Segment, log: seq<Daily>, daily: Daily, day: Day)
    requires RowsFrom(seg, log) && day in daily.days && Lands(seg, daily.endMS, day)
    ensures Newest(log + [daily], day.date, |log|, day)
  {
    hide Less;
    var d := day.date;
    if d in seg.rows {
      var j, earlier :| Newest(log, d, j, earlier) && seg.rows[d] == RowOf(earlier, log[j].endMS);
    }
  }

  lemma StaysNewest(seg: Segment, log: seq<Daily>, daily: Daily, days: seq<Day>, d: string, j: int, day: Day)
    requires d in seg.rows && Newest(log, d, j, day) && seg.rows[d] == RowOf(day, log[j].endMS)
    requires RowsFrom(seg, log) && forall day :: day in days <==> day in daily.days
    requires forall day | day in days && day.date == d :: !Lands(seg, daily.endMS, day)
    ensures Newest(log + [daily], d, j, day)
  {
    hide Less;
    if HasDay(daily, d) {
      var i :| 0 <= i < |daily.days| && daily.days[i].date == d;
      assert daily.days[i] in days;
    }
  }

  /** The segments together with the snapshots that were applied to each. */
  datatype Trace = Trace(segs: seq<Segment>, logs: seq<seq<Daily>>)

  /** A snapshot goes to the log of the segment it was applied to, which is new when a segment was added. */
  ghost function Extend(t: Trace, daily: Option<Daily>): Trace {
    var segs := AfterSave(t.segs, daily);
    if !ValidSnapshot(daily) || daily.value.days == [] || SaveSegments(t.segs, daily.value).Err? then t
    else if |segs| > |t.segs| || |t.logs| == 0 then Trace(segs, t.logs + [[daily.value]])
    else Trace(segs, t.logs[|t.logs| - 1 := t.logs[|t.logs| - 1] + [daily.value]])
  }

  ghost function Traced(saves: seq<Option<Daily>>): Trace {
    if saves == [] then Trace([], []) else Extend(Traced(saves[..|saves| - 1]), saves[|saves| - 1])
  }

  ghost predicate Explained(t: Trace) {
    && |t.logs| == |t.segs|
    && forall i | 0 <= i < |t.segs| :: RowsFrom(t.segs[i], t.logs[i])
  }

  lemma ExtendExplained(t: Trace, daily: Option<Daily>)
    requires Explained(t)
    ensures Explained(Extend(t, daily))
  {
    hide RowsFrom, SaveSegments, Written, ResetDate, InOrder, WellKeyed, IncompleteAt, Lands, ValidDay;
    if ValidSnapshot(daily) && daily.value.days != [] && SaveSegments(t.segs, daily.value).Ok? {
      var days, all, older, seg := Shape(t.segs, daily.value);
      var last := all[|all| - 1];
      if t.segs == [] || older == all {
        EmptyRowsFrom(seg);
        WrittenRowsFrom(seg, [], daily.value, days);
        assert [] + [daily.value] == [daily.value];
      } else {
        WrittenRowsFrom(seg, t.logs[|t.logs| - 1], daily.value, days);
      }
    }
  }

  lemma EmptyRowsFrom(seg: Segment)
    requires seg.rows == map[]
    ensures RowsFrom(seg, [])
  {
  }

  /** After any run, every row of every segment is wholly the entry of the newest snapshot applied to that segment. */
  lemma {:induction false} RunExplained(saves: seq<Option<Daily>>)
    ensures Traced(saves).segs == Run([], saves)
    ensures Explained(Traced(saves))
  {
    hide RowsFrom, SaveSegments, Explained;
    if saves == [] {
      NothingExplained();
    } else {
      RunExplained(saves[..|saves| - 1]);
      ExtendExplained(Traced(saves[..|saves| - 1]), saves[|saves| - 1]);
      ExtendRuns(Traced(saves[..|saves| - 1]), saves[|saves| - 1]);
    }
  }

  lemma NothingExplained()
    ensures Explained(Trace([], []))
  {
  }

  lemma ExtendRuns(t: Trace, daily: Option<Daily>)
    ensures Extend(t, daily).segs == AfterSave(t.segs, daily)
  {
  }
}
