/** Every stored row is a day of some snapshot that was saved, so what holds of all snapshots holds of the database. */
module Origins {
  import opened Usage
  import opened Grouping
  import opened Tally
  import opened Aggregate
  import opened Calendar
  import opened Filling
  import opened Segments
  import opened History
  import opened Losses
  import opened Registry
  import opened Store
  import opened Reachable

  /** Each row after a save was there before, or is a day of the snapshot. */
  lemma SaveOrigins(segs: seq<Segment>, daily: Daily, i: int, d: string)
    requires ValidSnapshot(Some(daily)) && SaveSegments(segs, daily).Ok?
    requires 0 <= i < |SaveSegments(segs, daily).value| && d in SaveSegments(segs, daily).value[i].rows
    ensures var row := SaveSegments(segs, daily).value[i].rows[d];
      || (i < |segs| && d in segs[i].rows && row == segs[i].rows[d])
      || (exists day :: day in daily.days && day.date == d && row == RowOf(day, daily.endMS))
  {
    if daily.days != [] {
      hide *;
      var days, all, older, seg := Shape(segs, daily);
      WrittenOrigins(older, seg, daily, days, i, d);
      StartedOrigins(segs, days, all, older, seg, daily.endMS, i, d);
    }
  }

  lemma WrittenOrigins(older: seq<Segment>, seg: Segment, daily: Daily, days: seq<Day>, i: int, d: string)
    requires Distinct(days, DayDate) && forall day :: day in days <==> day in daily.days
    requires var after := older + [Written(seg, daily.endMS, days)]; 0 <= i < |after| && d in after[i].rows
    ensures var row, before := (older + [Written(seg, daily.endMS, days)])[i].rows[d], (older + [seg])[i];
      || (d in before.rows && row == before.rows[d])
      || (exists day :: day in daily.days && day.date == d && row == RowOf(day, daily.endMS))
  {
    hide Written, Lands, RowOf;
    WrittenRows(seg, daily.endMS, days);
    if i == |older| {
      if day :| day in days && day.date == d && Lands(seg, daily.endMS, day) {
        assert day in daily.days;
      }
    }
  }

  lemma StartedOrigins(segs: seq<Segment>, days: seq<Day>, all: seq<Segment>, older: seq<Segment>, seg: Segment, end: int, i: int, d: string)
    requires days != [] && all == Started(segs, days)
    requires var last := all[|all| - 1];
      match ResetDate(last, end, days)
      case Some(date) => older == all && seg == Segment(last.ordinal + 1, date, map[])
      case None => older == all[..|all| - 1] && seg == last
    ensures 0 <= i <= |older| && d in (older + [seg])[i].rows ==>
      i < |segs| && d in segs[i].rows && segs[i].rows[d] == (older + [seg])[i].rows[d]
  {
    hide ResetDate;
  }

  /** The row of `d` is a day of a snapshot that was saved in the run. */
  ghost predicate RequestOrigin(row: Row, d: string, requests: seq<Request>) {
    exists k, day ::
      SavedAt(requests, k) && requests[k].daily.Some? && day in requests[k].daily.value.days && day.date == d
      && row == RowOf(day, requests[k].daily.value.endMS)
  }

  lemma OriginStays(row: Row, d: string, requests: seq<Request>, q: Request)
    requires RequestOrigin(row, d, requests)
    ensures RequestOrigin(row, d, requests + [q])
  {
    hide RunAll, Saved, RowOf;
    var k, day :|
      SavedAt(requests, k) && requests[k].daily.Some? && day in requests[k].daily.value.days && day.date == d
      && row == RowOf(day, requests[k].daily.value.endMS);
    assert (requests + [q])[..k] == requests[..k] && (requests + [q])[k] == requests[k];
    assert SavedAt(requests + [q], k);
  }

  lemma OriginHere(row: Row, d: string, requests: seq<Request>, q: Request, day: Day)
    requires Saved(RunAll(requests), q).Ok? && q.daily.Some? && day in q.daily.value.days && day.date == d
    requires row == RowOf(day, q.daily.value.endMS)
    ensures RequestOrigin(row, d, requests + [q])
  {
    hide RunAll, Saved, RowOf;
    assert (requests + [q])[..|requests|] == requests;
    assert SavedAt(requests + [q], |requests|);
  }

  /** What a request changes in an account is a save that succeeds. */
  lemma ChangeIsSaved(tables: Tables, q: Request, key: (int, string))
    requires SegmentsOf(AfterRequest(tables, q), key) != SegmentsOf(tables, key)
    ensures Saved(tables, q).Ok? && ValidSnapshot(q.daily) && SaveSegments(SegmentsOf(tables, key), q.daily.value).Ok?
    ensures SegmentsOf(AfterRequest(tables, q), key) == SaveSegments(SegmentsOf(tables, key), q.daily.value).value
  {
    hide SaveSegments, PersistSource, ValidSnapshot;
  }

  /** Each row of a reachable database is a day of one of the snapshots that were saved. */
  lemma {:induction false} DatabaseOrigins(requests: seq<Request>, key: (int, string), i: int, d: string)
    requires var segs := SegmentsOf(RunAll(requests), key); 0 <= i < |segs| && d in segs[i].rows
    ensures RequestOrigin(SegmentsOf(RunAll(requests), key)[i].rows[d], d, requests)
  {
    hide RequestOrigin, AfterRequest, SegmentsOf, SaveSegments, RowOf;
    if requests == [] {
      NoRows(key);
    } else {
      var init, q := requests[..|requests| - 1], requests[|requests| - 1];
      assert requests == init + [q];
      var segs, after := SegmentsOf(RunAll(init), key), SegmentsOf(RunAll(requests), key);
      if after != segs {
        ChangeIsSaved(RunAll(init), q, key);
        SaveOrigins(segs, q.daily.value, i, d);
      }
      if i < |segs| && d in segs[i].rows && after[i].rows[d] == segs[i].rows[d] {
        DatabaseOrigins(init, key, i, d);
        OriginStays(after[i].rows[d], d, init, q);
      } else {
        var day :| day in q.daily.value.days && day.date == d && after[i].rows[d] == RowOf(day, q.daily.value.endMS);
        OriginHere(after[i].rows[d], d, init, q, day);
      }
    }
  }

  lemma NoRows(key: (int, string))
    ensures SegmentsOf(RunAll([]), key) == []
  {
  }

  // ---- two properties that carry over

  /** Every stored day is the sum of its models. */
  ghost predicate StoreBalanced(tables: Tables) {
    forall key | key in tables.accounts :: AllBalanced(tables.accounts[key].segments)
  }

  /** Every stored row starts within the day its date names. */
  ghost predicate Labelled(segs: seq<Segment>) {
    forall i, d | 0 <= i < |segs| && d in segs[i].rows :: StartsIn(segs[i].rows[d].startMS, d)
  }

  ghost predicate StartsIn(startMS: int, d: string) {
    var n := startMS / DAY_MS; InRange(n) && d == Format(n)
  }

  ghost predicate StoreLabelled(tables: Tables) {
    forall key | key in tables.accounts :: Labelled(tables.accounts[key].segments)
  }

  /** If the days of all snapshots that are saved are the sums of their models, so is every stored day. */
  lemma RunBalanced(requests: seq<Request>)
    requires forall k | SavedAt(requests, k) && requests[k].daily.Some? ::
      forall day | day in requests[k].daily.value.days :: Balanced(DayBreakdown(day))
    ensures StoreBalanced(RunAll(requests))
  {
    hide RunAll, Balanced, DayBreakdown, SavedAt;
    var tables := RunAll(requests);
    forall key, i, d | key in tables.accounts && 0 <= i < |tables.accounts[key].segments| && d in tables.accounts[key].segments[i].rows
      ensures Balanced(tables.accounts[key].segments[i].rows[d].usage)
    {
      DatabaseOrigins(requests, key, i, d);
    }
  }

  /** If the days of all snapshots that are saved start in the day they are labelled with, so does every stored row. */
  lemma RunLabelled(requests: seq<Request>)
    requires forall k | SavedAt(requests, k) && requests[k].daily.Some? ::
      forall day | day in requests[k].daily.value.days :: StartsIn(day.startMS, day.date)
    ensures StoreLabelled(RunAll(requests))
  {
    hide RunAll, StartsIn, SavedAt;
    var tables := RunAll(requests);
    forall key, i, d | key in tables.accounts && 0 <= i < |tables.accounts[key].segments| && d in tables.accounts[key].segments[i].rows
      ensures StartsIn(tables.accounts[key].segments[i].rows[d].startMS, d)
    {
      DatabaseOrigins(requests, key, i, d);
    }
  }
}
