/** Whole runs of the database: every account has the history of the snapshots that were routed to it. */
module Reachable {
  import opened Text
  import opened Usage
  import opened Grouping
  import opened Aggregate
  import opened Segments
  import opened History
  import opened Runs
  import opened Effects
  import opened Registry
  import opened Store

  ghost function AfterRequest(tables: Tables, q: Request): Tables {
    if Saved(tables, q).Ok? then Saved(tables, q).value else tables
  }

  ghost function RunAll(requests: seq<Request>): Tables {
    if requests == [] then Tables([], map[])
    else AfterRequest(RunAll(requests[..|requests| - 1]), requests[|requests| - 1])
  }

  /** The account a request is for, given the sources known when it arrives. */
  ghost function AccountOf(sources: seq<Source>, q: Request): Option<(int, string)> {
    if PersistSource(sources, q.source).Ok? then Some((PersistSource(sources, q.source).value.1, Lower(q.login))) else None
  }

  /** The snapshots of a run that were for one account, in order. */
  ghost function Routed(requests: seq<Request>, key: (int, string)): seq<Option<Daily>> {
    if requests == [] then []
    else
      var init, q := requests[..|requests| - 1], requests[|requests| - 1];
      Routed(init, key) + (if AccountOf(RunAll(init).sources, q) == Some(key) then [q.daily] else [])
  }

  ghost function SegmentsOf(tables: Tables, key: (int, string)): seq<Segment> {
    if key in tables.accounts then tables.accounts[key].segments else []
  }

  /** The request at place `k` of a run was saved. */
  ghost predicate SavedAt(requests: seq<Request>, k: int) {
    0 <= k < |requests| && Saved(RunAll(requests[..k]), requests[k]).Ok?
  }

  /** A request changes the history of its own account only, as saving the snapshot there does. */
  lemma RequestEffect(tables: Tables, q: Request, key: (int, string))
    ensures SegmentsOf(AfterRequest(tables, q), key) ==
      if AccountOf(tables.sources, q) == Some(key) then AfterSave(SegmentsOf(tables, key), q.daily) else SegmentsOf(tables, key)
  {
    hide SaveSegments, PersistSource;
  }

  /** In every reachable database the tables are valid, and each history is the run of the snapshots routed to it. */
  lemma {:induction false} AccountRuns(requests: seq<Request>, key: (int, string))
    ensures TablesValid(RunAll(requests))
    ensures SegmentsOf(RunAll(requests), key) == Run([], Routed(requests, key))
  {
    hide AfterRequest, TablesValid, AfterSave;
    if requests == [] {
      NoTables();
    } else {
      var init, q := requests[..|requests| - 1], requests[|requests| - 1];
      AccountRuns(init, key);
      RequestEffect(RunAll(init), q, key);
      RequestValid(RunAll(init), q);
      var saves := Routed(init, key);
      assert (saves + [q.daily])[..|saves|] == saves && saves + [] == saves;
    }
  }

  lemma NoTables()
    ensures TablesValid(Tables([], map[]))
  {
  }

  lemma RequestValid(tables: Tables, q: Request)
    requires TablesValid(tables)
    ensures TablesValid(AfterRequest(tables, q))
  {
    SavedValid(tables, q);
  }

  /** Repeating a successful request succeeds and leaves the whole database as it is. */
  lemma RequestTwice(tables: Tables, q: Request)
    requires TablesValid(tables) && Saved(tables, q).Ok?
    ensures Saved(Saved(tables, q).value, q) == Saved(tables, q)
  {
    hide SaveSegments, SegmentsValid;
    SourceKept(tables.sources, q.source);
    var (sources, id) := PersistSource(tables.sources, q.source).value;
    SourceAgain(sources, q.source, id);
    var key := (id, Lower(q.login));
    var accounts := PersistLogin(tables.accounts, id, q.login);
    SaveTwice(accounts[key].segments, q.daily.value);
    var after := Saved(tables, q).value;
    assert PersistLogin(after.accounts, id, q.login) == after.accounts;
  }

  lemma SourceAgain(sources: seq<Source>, source: Source, id: int)
    requires 0 <= id < |sources| && sources[id] == source
    requires Resolve(sources, source.name, source.url) == Ok(Some(id))
    ensures PersistSource(sources, source) == Ok((sources, id))
  {
    assert sources[id := source] == sources;
  }

  // ---- what a save leaves for good

  /** The segment has each date of the snapshot that it covers, from this snapshot or a later one. */
  ghost predicate HasRows(seg: Segment, daily: Daily) {
    forall day | day in daily.days && !Less(day.date, seg.startDate) ::
      day.date in seg.rows && daily.endMS <= seg.rows[day.date].snapshotEnd
  }

  lemma SnapshotDates(daily: Option<Daily>)
    requires ValidSnapshot(daily)
    ensures daily.Some? && Distinct(daily.value.days, DayDate)
  {
  }

  lemma WrittenHasRows(seg: Segment, daily: Daily, days: seq<Day>)
    requires Distinct(days, DayDate) && forall day :: day in days <==> day in daily.days
    ensures HasRows(Written(seg, daily.endMS, days), daily)
  {
    hide Written, Less;
    WrittenRows(seg, daily.endMS, days);
    forall day | day in daily.days && !Less(day.date, seg.startDate)
      ensures var w := Written(seg, daily.endMS, days); day.date in w.rows && daily.endMS <= w.rows[day.date].snapshotEnd
    {
      OneDay(days, day);
    }
  }

  /** Between any two moments of a run, every history only grows. */
  lemma {:induction false} HistoryGrows(requests: seq<Request>, k: nat, n: nat, key: (int, string))
    requires k <= n <= |requests|
    ensures Grows(SegmentsOf(RunAll(requests[..k]), key), SegmentsOf(RunAll(requests[..n]), key))
    decreases n
  {
    hide RunAll, Grows, SegmentsOf, SegmentsValid;
    if k == n {
      GrowsSelf(SegmentsOf(RunAll(requests[..k]), key));
    } else {
      HistoryGrows(requests, k, n - 1, key);
      RequestGrows(requests, n - 1, key);
      GrowsTransitive(SegmentsOf(RunAll(requests[..k]), key), SegmentsOf(RunAll(requests[..n - 1]), key), SegmentsOf(RunAll(requests[..n]), key));
    }
  }

  lemma RunNext(requests: seq<Request>, k: nat)
    requires k < |requests|
    ensures RunAll(requests[..k + 1]) == AfterRequest(RunAll(requests[..k]), requests[k])
  {
    assert requests[..k + 1][..k] == requests[..k];
    hide AfterRequest;
  }

  lemma RequestGrows(requests: seq<Request>, k: nat, key: (int, string))
    requires k < |requests|
    ensures Grows(SegmentsOf(RunAll(requests[..k]), key), SegmentsOf(RunAll(requests[..k + 1]), key))
  {
    hide RunAll, Grows, SegmentsOf, SegmentsValid, SaveSegments, AfterRequest, Run, Routed;
    var tables, q := RunAll(requests[..k]), requests[k];
    RunNext(requests, k);
    RequestEffect(tables, q, key);
    AccountRuns(requests[..k], key);
    var segs := SegmentsOf(tables, key);
    HistoryValid(tables, key);
    if ValidSnapshot(q.daily) && SaveSegments(segs, q.daily.value).Ok? {
      SaveKeepsSegments(segs, q.daily.value);
    }
    GrowsSelf(segs);
  }

  lemma HistoryValid(tables: Tables, key: (int, string))
    requires TablesValid(tables)
    ensures SegmentsValid(SegmentsOf(tables, key))
  {
  }

  /** The snapshot of request `k` is in the history of its account: the segment that was newest after the save has its dates. */
  ghost predicate Stored(requests: seq<Request>, k: nat)
    requires k < |requests|
  {
    var account, q := AccountOf(RunAll(requests[..k]).sources, requests[k]), requests[k];
    && account.Some? && q.daily.Some?
    && (q.daily.value.days != [] ==>
         var before, now := SegmentsOf(RunAll(requests[..k + 1]), account.value), SegmentsOf(RunAll(requests), account.value);
         0 < |before| <= |now| && HasRows(now[|before| - 1], q.daily.value))
  }

  lemma RowsStay(seg: Segment, seg': Segment, daily: Daily)
    requires HasRows(seg, daily) && SegmentGrows(seg, seg')
    ensures HasRows(seg', daily)
  {
    hide Less;
  }

  lemma SavedRoute(tables: Tables, q: Request)
    requires Saved(tables, q).Ok?
    ensures ValidSnapshot(q.daily) && AccountOf(tables.sources, q).Some?
    ensures var key := AccountOf(tables.sources, q).value;
      && SaveSegments(SegmentsOf(tables, key), q.daily.value).Ok?
      && SegmentsOf(AfterRequest(tables, q), key) == SaveSegments(SegmentsOf(tables, key), q.daily.value).value
  {
    hide SaveSegments, PersistSource, ValidSnapshot;
  }

  /** What was saved stays in the history, whatever is requested afterwards. */
  lemma SavedStays(requests: seq<Request>, k: nat)
    requires SavedAt(requests, k)
    ensures Stored(requests, k)
  {
    hide RunAll, Grows, SegmentsOf, SaveSegments, AfterRequest, HasRows, AccountOf, Saved, SegmentGrows, ResetDate, Written, IncompleteAt, WellKeyed, Lands, InOrder;
    var tables, q := RunAll(requests[..k]), requests[k];
    SavedRoute(tables, q);
    var key := AccountOf(tables.sources, q).value;
    RunNext(requests, k);
    HistoryGrows(requests, k + 1, |requests|, key);
    assert requests[..|requests|] == requests;
    var before, now := SegmentsOf(RunAll(requests[..k + 1]), key), SegmentsOf(RunAll(requests), key);
    if q.daily.value.days != [] {
      SnapshotDates(q.daily);
      var days, all, older, seg := Shape(SegmentsOf(tables, key), q.daily.value);
      WrittenHasRows(seg, q.daily.value, days);
      NewestGrows(before, now);
      RowsStay(before[|before| - 1], now[|before| - 1], q.daily.value);
    }
  }

  lemma NewestGrows(segs: seq<Segment>, segs': seq<Segment>)
    requires segs != [] && Grows(segs, segs')
    ensures |segs| <= |segs'| && SegmentGrows(segs[|segs| - 1], segs'[|segs| - 1])
  {
    hide SegmentGrows;
  }
}
