/** What was saved is what is loaded: saving and loading meet in the accounts, the dates and the figures themselves. */
module RoundTrip {
  import opened Text
  import opened Usage
  import opened Grouping
  import opened Tally
  import opened Aggregate
  import opened Segments
  import opened History
  import opened Effects
  import opened Losses
  import opened Registry
  import opened Load
  import opened Store
  import opened Reachable

  // ---- accounts

  /** The history that a name, a URL and a login lead to; there is none for an account never saved. */
  ghost function HistoryAt(tables: Tables, name: string, url: string, login: string): seq<Segment> {
    var account := AccountAt(tables, name, url, login);
    if account.Ok? && account.value.Some? then account.value.value.segments else []
  }

  /** After a save, its name, its URL and any spelling of its login lead to the history that they led to before, with the snapshot saved to it. */
  lemma SavedFound(t: Tables, q: Request, login: string)
    requires TablesValid(t) && Saved(t, q).Ok? && SameLetters(login, q.login)
    ensures q.daily.Some?
    ensures var found := AccountAt(Saved(t, q).value, q.source.name, q.source.url, login);
      && found.Ok? && found.value.Some? && found.value.value.login == q.login
      && Ok(found.value.value.segments) == SaveSegments(HistoryAt(t, q.source.name, q.source.url, login), q.daily.value)
  {
    hide SaveSegments, Resolve, SegmentsValid, ValidSnapshot, Lower, SameLetters;
    LowerExactly(login, q.login);
    SourceKept(t.sources, q.source);
    PlaceKept(t, q.source, Lower(login));
    SnapshotThere(q.daily);
  }

  lemma SnapshotThere(daily: Option<Daily>)
    requires ValidSnapshot(daily)
    ensures daily.Some?
  {
  }

  /** The place of a source that was seen is the place it had, or a new one without accounts. */
  lemma PlaceKept(t: Tables, source: Source, key: string)
    requires TablesValid(t) && PersistSource(t.sources, source).Ok?
    ensures var id := PersistSource(t.sources, source).value.1;
      match Resolve(t.sources, source.name, source.url)
      case Ok(Some(place)) => place == id
      case Ok(None) => (id, key) !in t.accounts
      case Err(_) => false
  {
    hide SegmentsValid, UniqueSources, Resolve;
  }

  /** Any other login of the source leads to the account that it led to before, or to none. */
  lemma OthersKept(t: Tables, q: Request, login: string)
    requires TablesValid(t) && Saved(t, q).Ok? && !SameLetters(login, q.login)
    ensures AccountAt(Saved(t, q).value, q.source.name, q.source.url, login) == AccountAt(t, q.source.name, q.source.url, login)
  {
    hide SaveSegments, Resolve, SegmentsValid, ValidSnapshot, Lower, SameLetters;
    LowerExactly(login, q.login);
    SourceKept(t.sources, q.source);
    PlaceKept(t, q.source, Lower(login));
  }

  /** What a load returns after a save is the view of the history with the snapshot. */
  lemma LoadAfterSave(t: Tables, q: Request, login: string, lo: int, hi: int, r: Result<Option<seq<Day>>>)
    requires TablesValid(t) && Saved(t, q).Ok? && SameLetters(login, q.login)
    requires LoadedAs(Saved(t, q).value, q.source.name, q.source.url, login, lo, hi, r)
    ensures q.daily.Some? && SaveSegments(HistoryAt(t, q.source.name, q.source.url, login), q.daily.value).Ok?
    ensures r.Ok? && r.value.Some?
    ensures IsView(r.value.value, SaveSegments(HistoryAt(t, q.source.name, q.source.url, login), q.daily.value).value, lo, hi)
  {
    SavedFound(t, q, login);
    hide Saved, SaveSegments, AccountAt, IsView, HistoryAt;
  }

  /** Why a request is refused: its snapshot is invalid, its name and URL belong to two sources, or the history it is for refuses it. */
  lemma RefusedExactly(t: Tables, q: Request)
    requires TablesValid(t)
    ensures !ValidSnapshot(q.daily) ==> Saved(t, q) == Err(InvalidSnapshot)
    ensures ValidSnapshot(q.daily) && TwoOwners(t.sources, q.source) ==> Saved(t, q) == Err(AmbiguousSource)
    ensures ValidSnapshot(q.daily) && !TwoOwners(t.sources, q.source) ==>
      q.daily.Some? && SameAnswer(Saved(t, q), SaveSegments(HistoryAt(t, q.source.name, q.source.url, q.login), q.daily.value))
  {
    AmbiguousExactly(t.sources, q.source.name, q.source.url);
    OwnersInRange(t.sources, q.source);
    hide SaveSegments, SegmentsValid, UniqueSources, Lower, Resolve;
    if ValidSnapshot(q.daily) {
      SnapshotThere(q.daily);
      hide ValidSnapshot;
      if PersistSource(t.sources, q.source).Ok? {
        PlaceKept(t, q.source, Lower(q.login));
      }
    }
  }

  /** One source has the name and another one the URL. */
  ghost predicate TwoOwners(sources: seq<Source>, source: Source) {
    exists i, j :: 0 <= i < |sources| && 0 <= j < |sources| && i != j && sources[i].name == source.name && sources[j].url == source.url
  }

  predicate SameAnswer<A, B>(a: Result<A>, b: Result<B>) {
    (a.Ok? <==> b.Ok?) && (a.Err? ==> a.error == b.error)
  }

  lemma OwnersInRange(sources: seq<Source>, source: Source)
    ensures var r := Resolve(sources, source.name, source.url);
      (r.Err? ==> r.error == AmbiguousSource) && (r.Ok? && r.value.Some? ==> 0 <= r.value.value < |sources|)
  {
  }

  /** Request `k` was saved for this login of the source at this place. */
  ghost predicate SavedFor(requests: seq<Request>, k: int, id: int, login: string) {
    && SavedAt(requests, k)
    && PersistSource(RunAll(requests[..k]).sources, requests[k].source).Ok?
    && PersistSource(RunAll(requests[..k]).sources, requests[k].source).value.1 == id
    && SameLetters(requests[k].login, login)
  }

  /** In a reachable database there is an account exactly for the logins that were saved, in any spelling. */
  lemma {:induction false} AccountsExactly(requests: seq<Request>, id: int, login: string)
    ensures (id, Lower(login)) in RunAll(requests).accounts <==> exists k :: SavedFor(requests, k, id, login)
  {
    hide Saved, PersistSource, Lower, SameLetters, AfterRequest;
    if requests == [] {
      NoAccounts(id, Lower(login));
    } else {
      var init, q := requests[..|requests| - 1], requests[|requests| - 1];
      assert requests == init + [q];
      AccountsExactly(init, id, login);
      NewAccount(RunAll(init), q, id, login);
      if k :| SavedFor(init, k, id, login) {
        assert requests[..k] == init[..k];
        assert SavedFor(requests, k, id, login);
      }
      if k :| SavedFor(requests, k, id, login) && k < |init| {
        assert requests[..k] == init[..k];
        assert SavedFor(init, k, id, login);
      }
      assert requests[..|init|] == init;
      assert SavedFor(requests, |init|, id, login) <==>
        Saved(RunAll(init), q).Ok? && PersistSource(RunAll(init).sources, q.source).Ok?
        && PersistSource(RunAll(init).sources, q.source).value.1 == id && SameLetters(q.login, login);
    }
  }

  lemma NoAccounts(id: int, key: string)
    ensures (id, key) !in RunAll([]).accounts
  {
  }

  lemma NewAccount(t: Tables, q: Request, id: int, login: string)
    ensures (id, Lower(login)) in AfterRequest(t, q).accounts <==>
      (id, Lower(login)) in t.accounts
      || (Saved(t, q).Ok? && PersistSource(t.sources, q.source).Ok? && PersistSource(t.sources, q.source).value.1 == id && SameLetters(q.login, login))
  {
    hide SaveSegments, PersistSource, ValidSnapshot, Lower, SameLetters;
    LowerExactly(q.login, login);
  }

  // ---- figures

  predicate SameTotals(a: Totals, b: Totals) {
    && a.input == b.input && a.output == b.output && a.cacheRead == b.cacheRead
    && a.cacheCreation == b.cacheCreation && a.requests == b.requests && a.tokens == b.tokens && a.aiu == b.aiu
    && (forall cost | cost in a.costs :: cost in b.costs) && (forall cost | cost in b.costs :: cost in a.costs)
  }

  /** The same models with the same figures, in any order. */
  ghost predicate SameModels(a: seq<Model>, b: seq<Model>) {
    && (forall m | m in a :: exists n :: n in b && n.name == m.name && SameTotals(m.totals, n.totals))
    && (forall n | n in b :: exists m :: m in a && n.name == m.name && SameTotals(m.totals, n.totals))
  }

  ghost predicate SameDay(a: Day, b: Day) {
    && a.date == b.date && a.startMS == b.startMS && a.endMS == b.endMS
    && a.totals.Some? && b.totals.Some? && SameTotals(a.totals.value, b.totals.value) && SameModels(a.models, b.models)
  }

  lemma SameCostsIn(a: seq<Cost>, b: seq<Cost>)
    requires Distinct(a, CurrencyOf) && Distinct(b, CurrencyOf) && CostMap(a) == CostMap(b)
    ensures forall cost | cost in a :: cost in b
  {
    GroupDistinct(a, CurrencyOf, NanosOf, Plus);
    GroupDistinct(b, CurrencyOf, NanosOf, Plus);
    forall cost | cost in a
      ensures cost in b
    {
      var i :| 0 <= i < |a| && a[i] == cost;
      assert CurrencyOf(a[i]) in CostMap(b) && CostMap(b)[CurrencyOf(a[i])] == NanosOf(a[i]);
      var j :| 0 <= j < |b| && CurrencyOf(b[j]) == CurrencyOf(a[i]);
      assert b[j] == cost;
    }
  }

  lemma TallyTells(a: Totals, b: Totals)
    requires Distinct(a.costs, CurrencyOf) && Distinct(b.costs, CurrencyOf) && TallyOf(a) == TallyOf(b)
    ensures SameTotals(a, b)
  {
    SameCostsIn(a.costs, b.costs);
    SameCostsIn(b.costs, a.costs);
  }

  lemma ModelIn(a: seq<Model>, b: seq<Model>, m: Model) returns (n: Model)
    requires KeyedModels(a) && KeyedModels(b) && ModelMap(a) == ModelMap(b) && m in a
    ensures n in b && n.name == m.name && SameTotals(m.totals, n.totals) && SameTotals(n.totals, m.totals)
  {
    hide TallyOf, SameTotals;
    GroupDistinct(a, NameOf, ModelTally, Add);
    GroupDistinct(b, NameOf, ModelTally, Add);
    var i :| 0 <= i < |a| && a[i] == m;
    assert NameOf(a[i]) in ModelMap(b);
    var j :| 0 <= j < |b| && NameOf(b[j]) == NameOf(a[i]);
    n := b[j];
    TallyTells(m.totals, n.totals);
    TallyTells(n.totals, m.totals);
  }

  lemma ModelMapTells(a: seq<Model>, b: seq<Model>)
    requires KeyedModels(a) && KeyedModels(b) && ModelMap(a) == ModelMap(b)
    ensures SameModels(a, b)
  {
    hide SameTotals, ModelMap, KeyedModels;
    forall m | m in a
      ensures exists n :: n in b && n.name == m.name && SameTotals(m.totals, n.totals)
    {
      var n := ModelIn(a, b, m);
    }
    forall n | n in b
      ensures exists m :: m in a && n.name == m.name && SameTotals(m.totals, n.totals)
    {
      var m := ModelIn(b, a, n);
    }
  }

  lemma CanonicalKeyed(models: seq<Model>)
    requires CanonicalModels(models)
    ensures KeyedModels(models)
  {
    AscendingIsDistinct(models, NameOf);
    forall m | m in models
      ensures Distinct(m.totals.costs, CurrencyOf)
    {
      AscendingIsDistinct(m.totals.costs, CurrencyOf);
    }
  }

  lemma BreakdownTells(day: Day, loaded: Day)
    requires WellKeyed(day) && loaded.totals.Some? && Canonical(loaded.totals.value) && CanonicalModels(loaded.models)
    requires DayBreakdown(loaded) == DayBreakdown(day)
    ensures SameTotals(day.totals.value, loaded.totals.value) && SameModels(day.models, loaded.models)
  {
    AscendingIsDistinct(loaded.totals.value.costs, CurrencyOf);
    CanonicalKeyed(loaded.models);
    assert KeyedModels(day.models);
    hide Canonical, CanonicalModels, KeyedModels, SameTotals, SameModels, TallyOf, ModelMap;
    TallyTells(day.totals.value, loaded.totals.value);
    ModelMapTells(day.models, loaded.models);
  }

  /** A day whose date is new to the account, and not before the segment it is saved to, is loaded as it was saved, up to the order of its costs and models. */
  lemma SavedDayLoaded(segs: seq<Segment>, daily: Daily, day: Day, lo: int, hi: int, loaded: seq<Day>)
    requires ValidSnapshot(Some(daily)) && SaveSegments(segs, daily).Ok? && day in daily.days && lo <= day.startMS < hi
    requires forall i | 0 <= i < |segs| :: day.date !in segs[i].rows
    requires var after := SaveSegments(segs, daily).value;
      after != [] && !Less(day.date, after[|after| - 1].startDate) && IsView(loaded, after, lo, hi)
    ensures exists l :: l in loaded && SameDay(day, l)
  {
    var after := SaveSegments(segs, daily).value;
    SavedFigure(segs, daily, day, lo, hi);
    assert FigureAt(after, day.date, lo, hi) == Some(Figure(day.startMS, day.endMS, DayBreakdown(day)));
    var l :| l in loaded && l.date == day.date;
    assert ViewDay(l, after, lo, hi);
    hide FigureAt, Canonical, CanonicalModels, SaveSegments, WellKeyed, SameTotals, SameModels, DayBreakdown;
    BreakdownTells(day, l);
    assert SameDay(day, l);
  }

  lemma SavedFigure(segs: seq<Segment>, daily: Daily, day: Day, lo: int, hi: int)
    requires ValidSnapshot(Some(daily)) && SaveSegments(segs, daily).Ok? && day in daily.days && lo <= day.startMS < hi
    requires forall i | 0 <= i < |segs| :: day.date !in segs[i].rows
    requires var after := SaveSegments(segs, daily).value; after != [] && !Less(day.date, after[|after| - 1].startDate)
    ensures WellKeyed(day)
    ensures FigureAt(SaveSegments(segs, daily).value, day.date, lo, hi) == Some(Figure(day.startMS, day.endMS, DayBreakdown(day)))
  {
    assert Distinct(daily.days, DayDate);
    hide SaveSegments, Written, WellKeyed, InOrder, ResetDate, FigureAt, FigureIn, Less, IncompleteAt, ValidSnapshot, DayBreakdown;
    var days, all, older, seg := Shape(segs, daily);
    NoRowsYet(segs, days, all, older, seg, daily.endMS, day.date);
    WrittenRows(seg, daily.endMS, days);
    var w := Written(seg, daily.endMS, days);
    assert Lands(seg, daily.endMS, day) && w.rows[day.date] == RowOf(day, daily.endMS);
    FigureAtOne(older, w, day.date, lo, hi);
    NoFigure(older, day.date, lo, hi);
    FigureInRow(w, day, daily.endMS, lo, hi);
  }

  lemma FigureInRow(w: Segment, day: Day, end: int, lo: int, hi: int)
    requires day.date in w.rows && w.rows[day.date] == RowOf(day, end) && lo <= day.startMS < hi
    ensures FigureIn(w, day.date, lo, hi) == Some(Figure(day.startMS, day.endMS, DayBreakdown(day)))
  {
  }

  lemma NoRowsYet(segs: seq<Segment>, days: seq<Day>, all: seq<Segment>, older: seq<Segment>, seg: Segment, end: int, d: string)
    requires days != [] && all == Started(segs, days) && forall i | 0 <= i < |segs| :: d !in segs[i].rows
    requires var last := all[|all| - 1];
      match ResetDate(last, end, days)
      case Some(date) => older == all && seg == Segment(last.ordinal + 1, date, map[])
      case None => older == all[..|all| - 1] && seg == last
    ensures d !in seg.rows && forall i | 0 <= i < |older| :: d !in older[i].rows
  {
    hide ResetDate;
  }

  lemma {:induction false} NoFigure(segs: seq<Segment>, d: string, lo: int, hi: int)
    requires forall i | 0 <= i < |segs| :: d !in segs[i].rows
    ensures FigureAt(segs, d, lo, hi).None?
  {
    if segs != [] {
      assert forall i | 0 <= i < |segs| - 1 :: segs[..|segs| - 1][i] == segs[i];
      NoFigure(segs[..|segs| - 1], d, lo, hi);
    }
  }

  // ---- sums

  /** The row of the date in this segment, when it starts in the period. */
  predicate Counts(seg: Segment, d: string, lo: int, hi: int) {
    d in seg.rows && lo <= seg.rows[d].startMS < hi
  }

  /** A figure of a date, added up over the segments. */
  function SumOfRows(segs: seq<Segment>, d: string, lo: int, hi: int, model: Option<string>, c: Counter): int {
    if segs == [] then 0
    else
      var last := segs[|segs| - 1];
      SumOfRows(segs[..|segs| - 1], d, lo, hi, model, c) + (if Counts(last, d, lo, hi) then Read(last.rows[d].usage, model, c) else 0)
  }

  /** The bounds enclose the rows of the date and are reached by some of them; an AIU figure is there exactly when a row has one. */
  ghost predicate Encloses(f: Option<Figure>, segs: seq<Segment>, d: string, lo: int, hi: int) {
    && (f.Some? <==> exists i :: 0 <= i < |segs| && Counts(segs[i], d, lo, hi))
    && (f.Some? ==>
      && (forall i | 0 <= i < |segs| && Counts(segs[i], d, lo, hi) :: f.value.startMS <= segs[i].rows[d].startMS && segs[i].rows[d].endMS <= f.value.endMS)
      && (exists i :: 0 <= i < |segs| && Counts(segs[i], d, lo, hi) && segs[i].rows[d].startMS == f.value.startMS)
      && (exists i :: 0 <= i < |segs| && Counts(segs[i], d, lo, hi) && segs[i].rows[d].endMS == f.value.endMS)
      && (f.value.usage.total.aiu.Some? <==> exists i :: 0 <= i < |segs| && Counts(segs[i], d, lo, hi) && segs[i].rows[d].usage.total.aiu.Some?))
  }

  lemma {:induction false} FigureSums(segs: seq<Segment>, d: string, lo: int, hi: int, model: Option<string>, c: Counter)
    ensures var f := FigureAt(segs, d, lo, hi);
      (if f.Some? then Read(f.value.usage, model, c) else 0) == SumOfRows(segs, d, lo, hi, model, c)
  {
    hide Join, Read;
    if segs != [] {
      var init, last := segs[..|segs| - 1], segs[|segs| - 1];
      FigureSums(init, d, lo, hi, model, c);
      var f := FigureAt(init, d, lo, hi);
      if f.Some? && Counts(last, d, lo, hi) {
        ReadJoin(f.value.usage, last.rows[d].usage, model, c);
      }
    }
  }

  lemma {:induction false} FigureEncloses(segs: seq<Segment>, d: string, lo: int, hi: int)
    ensures Encloses(FigureAt(segs, d, lo, hi), segs, d, lo, hi)
  {
    hide Counts;
    if segs == [] {
      assert FigureAt(segs, d, lo, hi).None?;
    } else {
      var init, last := segs[..|segs| - 1], segs[|segs| - 1];
      FigureEncloses(init, d, lo, hi);
      assert segs == init + [last];
      CountsIs(last, d, lo, hi);
      OneMoreEncloses(FigureAt(init, d, lo, hi), FigureIn(last, d, lo, hi), init, last, d, lo, hi);
    }
  }

  lemma CountsIs(seg: Segment, d: string, lo: int, hi: int)
    ensures FigureIn(seg, d, lo, hi) == if Counts(seg, d, lo, hi) then Some(Figure(seg.rows[d].startMS, seg.rows[d].endMS, seg.rows[d].usage)) else None
  {
  }

  lemma OneMoreEncloses(f: Option<Figure>, g: Option<Figure>, init: seq<Segment>, last: Segment, d: string, lo: int, hi: int)
    requires Encloses(f, init, d, lo, hi)
    requires g == if Counts(last, d, lo, hi) then Some(Figure(last.rows[d].startMS, last.rows[d].endMS, last.rows[d].usage)) else None
    ensures Encloses(Combine(f, g), init + [last], d, lo, hi)
  {
    var all := init + [last];
    var n := |init|;
    assert all[n] == last && forall i | 0 <= i < n :: all[i] == init[i];
  }

  /** The loaded days are a plain group-by: each figure is the integer sum of the stored ones, and the bounds are the least start and the greatest end. */
  lemma LoadedSums(days: seq<Day>, segs: seq<Segment>, lo: int, hi: int, day: Day, model: Option<string>, c: Counter)
    requires IsView(days, segs, lo, hi) && day in days
    ensures Read(DayBreakdown(day), model, c) == SumOfRows(segs, day.date, lo, hi, model, c)
    ensures Encloses(Some(Figure(day.startMS, day.endMS, DayBreakdown(day))), segs, day.date, lo, hi)
  {
    hide FigureAt, Read, SumOfRows, Encloses, DayBreakdown;
    assert ViewDay(day, segs, lo, hi);
    FigureSums(segs, day.date, lo, hi, model, c);
    FigureEncloses(segs, day.date, lo, hi);
  }
}
