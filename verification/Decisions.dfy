/** When a save opens a segment, when it is refused, and what each means, in terms of the figures themselves. */
module Decisions {
  import opened Text
  import opened Usage
  import opened Grouping
  import opened Tally
  import opened Aggregate
  import opened Segments
  import opened History
  import opened Effects

  /** The day meets a row of the segment that was still being filled, in a snapshot no older than this one. */
  predicate MeetsOpenRow(seg: Segment, end: int, day: Day) {
    && !Less(day.date, seg.startDate) && day.date in seg.rows
    && seg.rows[day.date].endMS == seg.rows[day.date].snapshotEnd <= end
  }

  /** A counter or the AIU figure is lower than the stored one, or the day starts only after the stored one ended. */
  predicate Rebuilt(row: Row, day: Day)
    requires day.totals.Some?
  {
    var was, now := row.usage.total, day.totals.value;
    || now.input < was.input || now.output < was.output || now.cacheRead < was.cacheRead
    || now.cacheCreation < was.cacheCreation || now.requests < was.requests || now.tokens < was.tokens
    || (now.aiu.Some? && was.aiu.Some? && now.aiu.value < was.aiu.value)
    || (day.startMS > row.startMS && day.startMS >= row.endMS)
  }

  ghost predicate SomeRebuilt(segs: seq<Segment>, daily: Daily)
    requires segs != []
  {
    var last := segs[|segs| - 1];
    exists day :: day in daily.days && day.totals.Some? && MeetsOpenRow(last, daily.endMS, day) && Rebuilt(last.rows[day.date], day)
  }

  lemma RebuiltExactly(seg: Segment, end: int, day: Day)
    requires day.totals.Some?
    ensures ResetAt(seg, end, day) <==> MeetsOpenRow(seg, end, day) && Rebuilt(seg.rows[day.date], day)
  {
  }

  lemma ResetExactly(segs: seq<Segment>, daily: Daily)
    requires segs != [] && ValidSnapshot(Some(daily))
    ensures ResetOf(segs, daily).Some? <==> SomeRebuilt(segs, daily)
  {
    hide ResetAt, Rebuilt;
    var last := segs[|segs| - 1];
    forall day | day in daily.days
      ensures ResetAt(last, daily.endMS, day) <==> MeetsOpenRow(last, daily.endMS, day) && Rebuilt(last.rows[day.date], day)
    {
      RebuiltExactly(last, daily.endMS, day);
    }
  }

  /** A save opens a segment exactly when a day shows that the upstream database was rebuilt; otherwise it opens none. */
  lemma OpensExactly(segs: seq<Segment>, daily: Daily)
    requires segs != [] && ValidSnapshot(Some(daily)) && SaveSegments(segs, daily).Ok?
    ensures |SaveSegments(segs, daily).value| == |segs| + (if SomeRebuilt(segs, daily) then 1 else 0)
  {
    ResetExactly(segs, daily);
    hide SomeRebuilt, SaveSegments;
    if ResetOf(segs, daily).Some? {
      ResetEffect(segs, daily, 0, 0);
    } else {
      OverwriteEffect(segs, daily, 0, 0);
    }
  }

  /** Nothing of a rebuilt date is given up: its sum gains all that the new database reports, also when that has caught up. */
  lemma RebuiltAdds(segs: seq<Segment>, daily: Daily, day: Day)
    requires segs != [] && ValidSnapshot(Some(daily)) && SaveSegments(segs, daily).Ok?
    requires day in daily.days && MeetsOpenRow(segs[|segs| - 1], daily.endMS, day) && Rebuilt(segs[|segs| - 1].rows[day.date], day)
    ensures UsageAt(SaveSegments(segs, daily).value, day.date) == Join(UsageAt(segs, day.date), DayBreakdown(day))
  {
    hide *;
    RebuiltResets(segs, daily, day);
    var days, all, older, seg := Shape(segs, daily);
    StartedBefore(segs, days);
    AddedBy(segs, older, seg, daily.endMS, days, day);
  }

  lemma RebuiltResets(segs: seq<Segment>, daily: Daily, day: Day)
    requires segs != [] && ValidSnapshot(Some(daily)) && day in daily.days
    requires MeetsOpenRow(segs[|segs| - 1], daily.endMS, day) && Rebuilt(segs[|segs| - 1].rows[day.date], day)
    ensures Distinct(daily.days, DayDate) && ResetAt(segs[|segs| - 1], daily.endMS, day)
  {
    RebuiltExactly(segs[|segs| - 1], daily.endMS, day);
  }

  lemma AddedBy(segs: seq<Segment>, older: seq<Segment>, seg: Segment, end: int, days: seq<Day>, day: Day)
    requires segs != [] && Distinct(days, DayDate) && day in days && ResetAt(segs[|segs| - 1], end, day)
    requires match ResetDate(segs[|segs| - 1], end, days)
      case Some(date) => older == segs && seg == Segment(segs[|segs| - 1].ordinal + 1, date, map[])
      case None => true
    ensures UsageAt(older + [Written(seg, end, days)], day.date) == Join(UsageAt(segs, day.date), DayBreakdown(day))
  {
    hide ResetAt, Written, ResetDate, Join, DayBreakdown, RowUsage;
    WrittenNew(segs[|segs| - 1], seg, end, days, day);
    UsageAtOne(older, Written(seg, end, days), day.date);
  }

  lemma StartedBefore(segs: seq<Segment>, days: seq<Day>)
    requires segs != [] && days != []
    ensures Started(segs, days) == segs
  {
  }

  lemma WrittenNew(last: Segment, seg: Segment, end: int, days: seq<Day>, day: Day)
    requires Distinct(days, DayDate) && day in days && ResetAt(last, end, day)
    ensures ResetDate(last, end, days).Some?
    ensures seg == Segment(last.ordinal + 1, ResetDate(last, end, days).value, map[]) ==>
      RowUsage(Written(seg, end, days), day.date) == DayBreakdown(day)
  {
    hide ResetAt, Written, Less;
    WrittenRows(seg, end, days);
  }

  // ---- refusal

  /** Every stored figure is there and has not become lower. */
  ghost predicate KeepsFigures(was: Tally, now: Totals) {
    && was.input <= now.input && was.output <= now.output && was.cacheRead <= now.cacheRead
    && was.cacheCreation <= now.cacheCreation && was.requests <= now.requests && was.tokens <= now.tokens
    && (was.aiu.Some? ==> now.aiu.Some? && was.aiu.value <= now.aiu.value)
    && KeepsCosts(was.costs, now.costs)
  }

  ghost predicate KeepsCosts(was: map<string, int>, now: seq<Cost>) {
    forall c | c in was :: exists cost :: cost in now && cost.currency == c && was[c] <= cost.nanos
  }

  /** The day lacks a figure that is stored, or a cost or a figure of a model is lower. */
  ghost predicate FallsShort(row: Row, day: Day)
    requires day.totals.Some?
  {
    || (row.usage.total.aiu.Some? && day.totals.value.aiu.None?)
    || !KeepsCosts(row.usage.total.costs, day.totals.value.costs)
    || (exists m :: m in row.usage.models && forall model | model in day.models && model.name == m :: !KeepsFigures(row.usage.models[m], model.totals))
  }

  lemma CostsExactly(was: map<string, int>, now: seq<Cost>)
    requires Distinct(now, CurrencyOf)
    ensures CostsRegressed(was, CostTable(now)) <==> !KeepsCosts(was, now)
  {
    GroupDistinct(now, CurrencyOf, NanosOf, LatestCost);
    var table := CostTable(now);
    forall c | c in was
      ensures (c in table && was[c] <= table[c]) <==> exists cost :: cost in now && cost.currency == c && was[c] <= cost.nanos
    {
      if cost :| cost in now && cost.currency == c && was[c] <= cost.nanos {
        var i :| 0 <= i < |now| && now[i] == cost;
        assert CurrencyOf(now[i]) == c;
      }
      if c in table && was[c] <= table[c] {
        var i :| 0 <= i < |now| && CurrencyOf(now[i]) == c;
        assert now[i] in now;
      }
    }
  }

  lemma ModelExactly(was: Tally, now: Totals)
    requires Distinct(now.costs, CurrencyOf)
    ensures ModelRegressed(was, now) <==> !KeepsFigures(was, now)
  {
    CostsExactly(was.costs, now.costs);
    hide CostsRegressed, KeepsCosts, CostTable;
  }

  lemma DetailsExactly(row: Row, day: Day)
    requires WellKeyed(day)
    ensures DetailsRegressed(row, day) <==> FallsShort(row, day)
  {
    hide KeepsFigures, ModelRegressed, CostsRegressed, KeepsCosts, CostTable;
    CostsExactly(row.usage.total.costs, day.totals.value.costs);
    GroupDistinct(day.models, NameOf, TotalsOf, LatestTotals);
    var table := ModelTable(day.models);
    forall m | m in row.usage.models
      ensures (m !in table || ModelRegressed(row.usage.models[m], table[m])) <==>
        forall model | model in day.models && model.name == m :: !KeepsFigures(row.usage.models[m], model.totals)
    {
      if m in table {
        var i :| 0 <= i < |day.models| && NameOf(day.models[i]) == m;
        ModelExactly(row.usage.models[m], day.models[i].totals);
        forall model | model in day.models && model.name == m
          ensures model == day.models[i]
        {
          var j :| 0 <= j < |day.models| && day.models[j] == model;
          assert NameOf(day.models[j]) == NameOf(day.models[i]);
        }
      } else {
        forall model | model in day.models
          ensures model.name != m
        {
          var j :| 0 <= j < |day.models| && day.models[j] == model;
          assert NameOf(day.models[j]) in table;
        }
      }
    }
  }

  /** A snapshot without duplicate keys is refused exactly when no day shows a rebuilt database and a day that meets an open row falls short of it. */
  lemma RefusedExactly(segs: seq<Segment>, daily: Daily)
    requires segs != [] && ValidSnapshot(Some(daily)) && forall day | day in daily.days :: WellKeyed(day)
    ensures SaveSegments(segs, daily).Err? <==>
      && !SomeRebuilt(segs, daily)
      && exists day :: day in daily.days && MeetsOpenRow(segs[|segs| - 1], daily.endMS, day) && FallsShort(segs[|segs| - 1].rows[day.date], day)
    ensures SaveSegments(segs, daily).Err? ==> SaveSegments(segs, daily).error == IncompleteSnapshot
  {
    ResetExactly(segs, daily);
    hide SomeRebuilt, ResetDate, Written, Lands, FallsShort, WellKeyed, InOrder, IncompleteAt;
    var last := segs[|segs| - 1];
    forall day | day in daily.days
      ensures IncompleteAt(last, daily.endMS, day) <==> MeetsOpenRow(last, daily.endMS, day) && FallsShort(last.rows[day.date], day)
    {
      IncompleteExactly(last, daily.endMS, day);
    }
    if daily.days != [] {
      InOrderDays(daily.days);
      ResetDateOrderFree(last, daily.endMS, daily.days, InOrder(daily.days));
      SameRefusal(segs, daily);
    }
  }

  lemma IncompleteExactly(seg: Segment, end: int, day: Day)
    requires WellKeyed(day)
    ensures IncompleteAt(seg, end, day) <==> MeetsOpenRow(seg, end, day) && FallsShort(seg.rows[day.date], day)
  {
    hide DetailsRegressed, FallsShort, Less;
    if MeetsOpenRow(seg, end, day) {
      DetailsExactly(seg.rows[day.date], day);
    }
  }

  lemma SameRefusal(segs: seq<Segment>, daily: Daily)
    requires segs != [] && daily.days != [] && InOrder(daily.days) != [] && forall day :: day in InOrder(daily.days) <==> day in daily.days
    requires ResetDate(segs[|segs| - 1], daily.endMS, InOrder(daily.days)) == ResetOf(segs, daily)
    requires forall day | day in daily.days :: WellKeyed(day)
    ensures SaveSegments(segs, daily).Err? <==>
      ResetOf(segs, daily).None? && exists day :: day in daily.days && IncompleteAt(segs[|segs| - 1], daily.endMS, day)
    ensures SaveSegments(segs, daily).Err? ==> SaveSegments(segs, daily).error == IncompleteSnapshot
  {
    hide ResetDate, Written, Lands, WellKeyed, InOrder, IncompleteAt;
  }

  // ---- duplicate keys

  /** Two costs share a currency, two models a name, or two costs of a model a currency. */
  ghost predicate HasDuplicates(day: Day)
    requires day.totals.Some?
  {
    || TwoCosts(day.totals.value.costs)
    || (exists i, j :: 0 <= i < j < |day.models| && day.models[i].name == day.models[j].name)
    || (exists m :: m in day.models && TwoCosts(m.totals.costs))
  }

  predicate TwoCosts(costs: seq<Cost>) {
    exists i, j :: 0 <= i < j < |costs| && costs[i].currency == costs[j].currency
  }

  lemma TwoCostsExactly(costs: seq<Cost>)
    ensures TwoCosts(costs) <==> !Distinct(costs, CurrencyOf)
  {
    if i, j :| 0 <= i < j < |costs| && costs[i].currency == costs[j].currency {
      assert CurrencyOf(costs[i]) == CurrencyOf(costs[j]);
    }
  }

  lemma DuplicatesExactly(day: Day)
    requires day.totals.Some?
    ensures HasDuplicates(day) <==> !WellKeyed(day)
  {
    TwoCostsExactly(day.totals.value.costs);
    forall m | m in day.models
      ensures TwoCosts(m.totals.costs) <==> !Distinct(m.totals.costs, CurrencyOf)
    {
      TwoCostsExactly(m.totals.costs);
    }
    hide TwoCosts;
    if i, j :| 0 <= i < j < |day.models| && day.models[i].name == day.models[j].name {
      assert NameOf(day.models[i]) == NameOf(day.models[j]);
    } else {
      assert Distinct(day.models, NameOf);
    }
  }

  /** No day with duplicate keys gets into the newest segment: each day of a saved snapshot that the segment covers, and that did not find a row of a newer snapshot, is free of them. */
  lemma SavedWithoutDuplicates(segs: seq<Segment>, daily: Daily, day: Day)
    requires ValidSnapshot(Some(daily)) && SaveSegments(segs, daily).Ok? && day in daily.days
    ensures var after := SaveSegments(segs, daily).value;
      after != [] && (!Less(day.date, after[|after| - 1].startDate) ==>
        day.date in after[|after| - 1].rows && (after[|after| - 1].rows[day.date].snapshotEnd == daily.endMS ==> !HasDuplicates(day)))
  {
    assert Distinct(daily.days, DayDate) && day.totals.Some?;
    DuplicatesExactly(day);
    hide *;
    var days, all, older, seg := Shape(segs, daily);
    DayStored(seg, daily.endMS, days, day);
  }

  lemma DayStored(seg: Segment, end: int, days: seq<Day>, day: Day)
    requires Distinct(days, DayDate) && day in days && forall x | x in days && Lands(seg, end, x) :: WellKeyed(x)
    ensures var w := Written(seg, end, days);
      !Less(day.date, w.startDate) ==> day.date in w.rows && (w.rows[day.date].snapshotEnd == end ==> WellKeyed(day))
  {
    hide Written, WellKeyed, Less;
    WrittenRows(seg, end, days);
    OneDay(days, day);
  }

  // ---- lookup tables with duplicate keys

  /** Of several costs in one currency, the detail test looks at the last. */
  lemma {:induction false} LastCostCounts(costs: seq<Cost>, i: nat)
    requires i < |costs| && forall j | i < j < |costs| :: costs[j].currency != costs[i].currency
    ensures costs[i].currency in CostTable(costs) && CostTable(costs)[costs[i].currency] == costs[i].nanos
  {
    var n := |costs| - 1;
    if i < n {
      LastCostCounts(costs[..n], i);
    }
  }

  /** Of several models with one name, the detail test looks at the last. */
  lemma {:induction false} LastModelCounts(models: seq<Model>, i: nat)
    requires i < |models| && forall j | i < j < |models| :: models[j].name != models[i].name
    ensures models[i].name in ModelTable(models) && ModelTable(models)[models[i].name] == models[i].totals
  {
    var n := |models| - 1;
    if i < n {
      LastModelCounts(models[..n], i);
    }
  }
}
