/** internal/store/sqlite/store.go: saving a snapshot. */
module Store {
  import opened Text
  import opened Sorting
  import opened Usage
  import opened Grouping
  import opened Tally
  import opened Aggregate
  import opened Segments
  import opened History
  import opened Registry
  import opened Filling
  import opened Load

  /** A query without ORDER BY: every key once, in any order. */
  method Keys<V>(table: map<string, V>) returns (keys: seq<string>)
    ensures forall k :: k in keys <==> k in table
    ensures forall i, j | 0 <= i < j < |keys| :: keys[i] != keys[j]
  {
    keys := [];
    var rest := table.Keys;
    while rest != {}
      invariant rest <= table.Keys
      invariant forall k :: k in keys <==> k in table.Keys - rest
      invariant forall i, j | 0 <= i < j < |keys| :: keys[i] != keys[j]
      decreases |rest|
    {
      var k :| k in rest;
      assert k !in keys;
      keys, rest := keys + [k], rest - {k};
    }
  }

  // ---- checks on a snapshot

  method ValidateDaily(daily: Option<Daily>) returns (valid: bool)
    ensures valid <==> ValidSnapshot(daily)
  {
    if daily.None? || daily.value.endMS <= 0 {
      return false;
    }
    var days := daily.value.days;
    var seen: set<string> := {};
    for i := 0 to |days|
      invariant forall d :: d in seen <==> exists j :: 0 <= j < i && days[j].date == d
      invariant forall j | 0 <= j < i :: ValidDay(days[j], daily.value.endMS)
      invariant forall j, k | 0 <= j < k < i :: DayDate(days[j]) != DayDate(days[k])
    {
      var day := days[i];
      if day.date == "" || day.totals.None? || day.startMS < 0 || day.endMS <= day.startMS
        || day.endMS > daily.value.endMS || day.date in seen {
        if day.date in seen {
          var j :| 0 <= j < i && days[j].date == day.date;
          assert DayDate(days[j]) == DayDate(days[i]);
        } else {
          assert day in days && !ValidDay(day, daily.value.endMS);
        }
        return false;
      }
      seen := seen + {day.date};
    }
    valid := true;
  }

  method CheckCosts(saved: map<string, int>, current: seq<Cost>) returns (regressed: bool)
    ensures regressed <==> CostsRegressed(saved, CostTable(current))
  {
    var values: map<string, int> := map[];
    for i := 0 to |current|
      invariant values == CostTable(current[..i])
    {
      assert current[..i + 1] == current[..i] + [current[i]];
      GroupOne(current[..i], current[i], CurrencyOf, NanosOf, LatestCost);
      values := values[current[i].currency := current[i].nanos];
    }
    assert current[..|current|] == current;
    var currencies := Keys(saved);
    for i := 0 to |currencies|
      invariant forall j | 0 <= j < i :: currencies[j] in values && values[currencies[j]] >= saved[currencies[j]]
    {
      assert currencies[i] in currencies;
      if currencies[i] !in values || values[currencies[i]] < saved[currencies[i]] {
        return true;
      }
    }
    assert forall c | c in saved :: c in currencies;
    regressed := false;
  }

  method CheckModel(saved: Tally, current: Totals) returns (regressed: bool)
    ensures regressed <==> ModelRegressed(saved, current)
  {
    if TotalsRegressed(saved, current) || (saved.aiu.Some? && current.aiu.None?) {
      return true;
    }
    regressed := CheckCosts(saved.costs, current.costs);
  }

  method CheckDetails(stored: Row, current: Day) returns (regressed: bool)
    requires current.totals.Some?
    ensures regressed <==> DetailsRegressed(stored, current)
  {
    hide ModelRegressed, CostsRegressed;
    if stored.usage.total.aiu.Some? && current.totals.value.aiu.None? {
      return true;
    }
    var costs := CheckCosts(stored.usage.total.costs, current.totals.value.costs);
    if costs {
      return true;
    }
    var models: map<string, Totals> := map[];
    for i := 0 to |current.models|
      invariant models == ModelTable(current.models[..i])
    {
      assert current.models[..i + 1] == current.models[..i] + [current.models[i]];
      GroupOne(current.models[..i], current.models[i], NameOf, TotalsOf, LatestTotals);
      models := models[current.models[i].name := current.models[i].totals];
    }
    assert current.models[..|current.models|] == current.models;
    var names := Keys(stored.usage.models);
    for i := 0 to |names|
      invariant forall j | 0 <= j < i ::
        names[j] in models && !ModelRegressed(stored.usage.models[names[j]], models[names[j]])
    {
      assert names[i] in names;
      if names[i] !in models {
        return true;
      }
      var model := CheckModel(stored.usage.models[names[i]], models[names[i]]);
      if model {
        return true;
      }
    }
    assert forall m | m in stored.usage.models :: m in names;
    regressed := false;
  }

  // ---- the newest segment

  /** The place of the segment with the greatest ordinal, or -1. */
  method LatestSegment(segments: seq<Segment>) returns (latest: int)
    ensures -1 <= latest < |segments| && (latest < 0 <==> segments == [])
    ensures latest >= 0 ==> forall i | 0 <= i < |segments| :: segments[i].ordinal <= segments[latest].ordinal
  {
    latest := -1;
    for i := 0 to |segments|
      invariant -1 <= latest < i && (latest < 0 <==> i == 0)
      invariant latest >= 0 ==> forall j | 0 <= j < i :: segments[j].ordinal <= segments[latest].ordinal
    {
      if latest < 0 || segments[latest].ordinal < segments[i].ordinal {
        latest := i;
      }
    }
  }

  /** Inserts a segment, unless the account has one with that ordinal. */
  method CreateSegment(segments: seq<Segment>, ordinal: int, startDate: string) returns (r: Result<seq<Segment>>)
    ensures (exists i :: 0 <= i < |segments| && segments[i].ordinal == ordinal) ==> r == Err(CannotPersist)
    ensures (forall i | 0 <= i < |segments| :: segments[i].ordinal != ordinal) ==> r == Ok(segments + [Segment(ordinal, startDate, map[])])
  {
    for i := 0 to |segments|
      invariant forall j | 0 <= j < i :: segments[j].ordinal != ordinal
    {
      if segments[i].ordinal == ordinal {
        return Err(CannotPersist);
      }
    }
    r := Ok(segments + [Segment(ordinal, startDate, map[])]);
  }

  /** The rows still being filled. */
  method LoadMutableDays(rows: map<string, Row>) returns (stored: map<string, Row>)
    ensures stored == map d | d in rows && Open(rows[d]) :: rows[d]
  {
    var dates := Keys(rows);
    stored := map[];
    for i := 0 to |dates|
      invariant forall d :: d in stored <==> (exists j :: 0 <= j < i && dates[j] == d) && d in rows && Open(rows[d])
      invariant forall d | d in stored :: stored[d] == rows[d]
    {
      assert dates[i] in dates;
      if rows[dates[i]].endMS == rows[dates[i]].snapshotEnd {
        stored := stored[dates[i] := rows[dates[i]]];
      }
    }
    assert forall d | d in rows :: d in dates;
  }

  /** The reset date, or the empty text. */
  method FindResetDate(seg: Segment, end: int, days: seq<Day>, stored: map<string, Row>) returns (resetDate: string)
    requires stored == map d | d in seg.rows && Open(seg.rows[d]) :: seg.rows[d]
    requires forall day | day in days :: day.date != "" && day.totals.Some?
    ensures ResetDate(seg, end, days) == if resetDate == "" then None else Some(resetDate)
  {
    hide SnapshotReset;
    resetDate := "";
    for i := 0 to |days|
      invariant ResetDate(seg, end, days[..i]) == if resetDate == "" then None else Some(resetDate)
    {
      var day := days[i];
      assert days[..i + 1] == days[..i] + [day];
      assert (days[..i] + [day])[..i] == days[..i];
      assert day in days;
      if Less(day.date, seg.startDate) {
        continue;
      }
      if day.date !in stored || end < stored[day.date].snapshotEnd {
        continue;
      }
      if SnapshotReset(stored[day.date], day) && (resetDate == "" || Less(day.date, resetDate)) {
        resetDate := day.date;
      }
    }
    assert days[..|days|] == days;
  }

  method ValidateDetails(seg: Segment, end: int, days: seq<Day>, stored: map<string, Row>) returns (complete: bool)
    requires stored == map d | d in seg.rows && Open(seg.rows[d]) :: seg.rows[d]
    requires forall day | day in days :: day.totals.Some?
    ensures complete <==> forall day | day in days :: !IncompleteAt(seg, end, day)
  {
    hide DetailsRegressed;
    for i := 0 to |days|
      invariant forall j | 0 <= j < i :: !IncompleteAt(seg, end, days[j])
    {
      var day := days[i];
      assert day in days;
      if Less(day.date, seg.startDate) {
        continue;
      }
      if day.date !in stored || end < stored[day.date].snapshotEnd {
        continue;
      }
      var regressed := CheckDetails(stored[day.date], day);
      if regressed {
        return false;
      }
    }
    complete := true;
  }

  // ---- writing a day

  lemma OneMoreCost(costs: seq<Cost>, i: nat)
    requires i < |costs| && Distinct(costs[..i], CurrencyOf)
    ensures costs[i].currency in CostMap(costs[..i]) ==> !Distinct(costs, CurrencyOf)
    ensures costs[i].currency !in CostMap(costs[..i]) ==>
      Distinct(costs[..i + 1], CurrencyOf) && CostMap(costs[..i + 1]) == CostMap(costs[..i])[costs[i].currency := costs[i].nanos]
  {
    assert costs[..i + 1] == costs[..i] + [costs[i]];
    GroupDistinct(costs[..i], CurrencyOf, NanosOf, Plus);
    GroupOne(costs[..i], costs[i], CurrencyOf, NanosOf, Plus);
    if costs[i].currency in CostMap(costs[..i]) {
      var j :| 0 <= j < i && CurrencyOf(costs[..i][j]) == costs[i].currency;
      assert CurrencyOf(costs[j]) == CurrencyOf(costs[i]);
    }
  }

  /** Inserts cost rows, unless a currency occurs twice. */
  method InsertCosts(costs: seq<Cost>) returns (r: Option<map<string, int>>)
    ensures r == if Distinct(costs, CurrencyOf) then Some(CostMap(costs)) else None
  {
    var table: map<string, int> := map[];
    for i := 0 to |costs|
      invariant Distinct(costs[..i], CurrencyOf) && table == CostMap(costs[..i])
    {
      hide Distinct, CostMap;
      OneMoreCost(costs, i);
      if costs[i].currency in table {
        return None;
      }
      table := table[costs[i].currency := costs[i].nanos];
    }
    assert costs[..|costs|] == costs;
    r := Some(table);
  }

  /** No two models share a name, and within each no two costs a currency. */
  ghost predicate KeyedModels(models: seq<Model>) {
    Distinct(models, NameOf) && forall m | m in models :: Distinct(m.totals.costs, CurrencyOf)
  }

  /** Inserts model rows with their cost rows, unless a key occurs twice. */
  method InsertModels(models: seq<Model>) returns (r: Option<map<string, Tally>>)
    ensures r == if KeyedModels(models) then Some(ModelMap(models)) else None
  {
    hide ModelMap, KeyedModels;
    var table: map<string, Tally> := map[];
    NoModels();
    for i := 0 to |models|
      invariant KeyedModels(models[..i]) && table == ModelMap(models[..i])
    {
      assert models[..i + 1] == models[..i] + [models[i]];
      OneMoreModel(models, i);
      var next := InsertModel(table, models[i]);
      if next.None? {
        return None;
      }
      table := next.value;
    }
    assert models[..|models|] == models;
    r := Some(table);
  }

  lemma NoModels()
    ensures KeyedModels([]) && ModelMap([]) == map[]
  {
  }

  method InsertModel(table: map<string, Tally>, model: Model) returns (r: Option<map<string, Tally>>)
    ensures r == if model.name in table || !Distinct(model.totals.costs, CurrencyOf) then None
                 else Some(table[model.name := ModelTally(model)])
  {
    if model.name in table {
      return None;
    }
    var costs := InsertCosts(model.totals.costs);
    if costs.None? {
      return None;
    }
    var t := model.totals;
    var row := Tally(t.input, t.output, t.cacheRead, t.cacheCreation, t.requests, t.tokens, t.aiu, costs.value);
    TallyRow(t, row);
    r := Some(table[model.name := row]);
  }

  /** The keys stay distinct exactly as long as each next model can be inserted. */
  lemma OneMoreModel(models: seq<Model>, i: nat)
    requires i < |models| && KeyedModels(models[..i])
    ensures models[i].name in ModelMap(models[..i]) || !Distinct(models[i].totals.costs, CurrencyOf) ==> !KeyedModels(models)
    ensures !(models[i].name in ModelMap(models[..i]) || !Distinct(models[i].totals.costs, CurrencyOf)) ==>
      && KeyedModels(models[..i + 1])
      && ModelMap(models[..i + 1]) == ModelMap(models[..i])[models[i].name := ModelTally(models[i])]
  {
    hide ModelTally;
    var model := models[i];
    assert models[..i + 1] == models[..i] + [model] && model in models;
    GroupDistinct(models[..i], NameOf, ModelTally, Add);
    GroupOne(models[..i], model, NameOf, ModelTally, Add);
    if model.name in ModelMap(models[..i]) {
      var j :| 0 <= j < i && NameOf(models[..i][j]) == model.name;
      assert NameOf(models[j]) == NameOf(models[i]);
    }
  }

  lemma TallyRow(t: Totals, row: Tally)
    requires row == Tally(t.input, t.output, t.cacheRead, t.cacheCreation, t.requests, t.tokens, t.aiu, CostMap(t.costs))
    ensures row == TallyOf(t)
  {
  }

  /** `replaceDay`: details are deleted and inserted again only if the row was written. */
  method ReplaceDay(rows: map<string, Row>, end: int, day: Day) returns (r: Option<map<string, Row>>)
    requires day.totals.Some?
    ensures var written := day.date in rows ==> rows[day.date].snapshotEnd <= end;
      r == if !written then Some(rows)
           else if WellKeyed(day) then Some(rows[day.date := RowOf(day, end)])
           else None
  {
    hide CostMap, ModelMap, Distinct;
    if day.date in rows && end < rows[day.date].snapshotEnd {
      return Some(rows);
    }
    var t := day.totals.value;
    var row := Row(day.startMS, day.endMS, end, Breakdown(
                     Tally(t.input, t.output, t.cacheRead, t.cacheCreation, t.requests, t.tokens, t.aiu, map[]), map[]));
    var costs := InsertCosts(t.costs);
    if costs.None? {
      return None;
    }
    row := row.(usage := row.usage.(total := row.usage.total.(costs := costs.value)));
    var models := InsertModels(day.models);
    if models.None? {
      return None;
    }
    row := row.(usage := row.usage.(models := models.value));
    TallyRow(t, row.usage.total);
    assert row == RowOf(day, end);
    r := Some(rows[day.date := row]);
  }

  /** The loop of `SaveDaily` over the days. */
  method WriteDays(seg: Segment, end: int, days: seq<Day>) returns (r: Option<Segment>)
    requires Distinct(days, DayDate) && forall day | day in days :: day.totals.Some?
    ensures r.None? <==> exists day :: day in days && Lands(seg, end, day) && !WellKeyed(day)
    ensures r.Some? ==> r.value == Written(seg, end, days)
  {
    hide RowOf, WellKeyed;
    var current := seg;
    for i := 0 to |days|
      invariant current == Written(seg, end, days[..i])
      invariant forall j | 0 <= j < i && Lands(seg, end, days[j]) :: WellKeyed(days[j])
    {
      var day := days[i];
      assert day in days;
      assert days[..i + 1] == days[..i] + [day];
      assert (days[..i] + [day])[..i] == days[..i];
      StillLands(seg, end, days, i);
      if Less(day.date, current.startDate) {
        continue;
      }
      var rows := ReplaceDay(current.rows, end, day);
      if rows.None? {
        return None;
      }
      current := current.(rows := rows.value);
    }
    assert days[..|days|] == days;
    r := Some(current);
  }

  /** Days written before, which have other dates, do not affect whether a day lands. */
  lemma StillLands(seg: Segment, end: int, days: seq<Day>, i: nat)
    requires i < |days| && Distinct(days, DayDate)
    ensures Lands(Written(seg, end, days[..i]), end, days[i]) <==> Lands(seg, end, days[i])
    ensures Written(seg, end, days[..i]).startDate == seg.startDate
  {
    WrittenRows(seg, end, days[..i]);
    forall day | day in days[..i]
      ensures day.date != days[i].date
    {
      var j :| 0 <= j < i && days[j] == day;
      assert DayDate(days[j]) != DayDate(days[i]);
    }
  }

  // ---- saving

  datatype Request = Request(source: Source, login: string, daily: Option<Daily>)

  /** The database after a save, or why it is left as it was. */
  ghost function Saved(tables: Tables, q: Request): Result<Tables> {
    if !ValidSnapshot(q.daily) then Err(InvalidSnapshot)
    else
      match PersistSource(tables.sources, q.source)
      case Err(e) => Err(e)
      case Ok((sources, id)) =>
        var accounts, key := PersistLogin(tables.accounts, id, q.login), (id, Lower(q.login));
        match SaveSegments(accounts[key].segments, q.daily.value)
        case Err(e) => Err(e)
        case Ok(segments) => Ok(Tables(sources, accounts[key := accounts[key].(segments := segments)]))
  }

  /** What holds of every reachable database. */
  ghost predicate TablesValid(tables: Tables) {
    && UniqueSources(tables.sources)
    && (forall key | key in tables.accounts :: 0 <= key.0 < |tables.sources| && SegmentsValid(tables.accounts[key].segments))
  }

  /** The account row that a name, a URL and a login lead to. */
  ghost function AccountAt(tables: Tables, name: string, url: string, login: string): Result<Option<Account>> {
    match Resolve(tables.sources, name, url)
    case Err(e) => Err(e)
    case Ok(None) => Ok(None)
    case Ok(Some(id)) =>
      Ok(if (id, Lower(login)) in tables.accounts then Some(tables.accounts[(id, Lower(login))]) else None)
  }

  /** What a load returns: an error, nothing for an account never saved, or the days of the period. */
  ghost predicate LoadedAs(tables: Tables, name: string, url: string, login: string, lo: int, hi: int, r: Result<Option<seq<Day>>>) {
    match AccountAt(tables, name, url, login)
    case Err(e) => r == Err(e)
    case Ok(None) => r == Ok(None)
    case Ok(Some(account)) => r.Ok? && r.value.Some? && IsView(r.value.value, account.segments, lo, hi)
  }

  class Store {
    var sources: seq<Source>
    var accounts: map<(int, string), Account>

    function Contents(): Tables
      reads this
    {
      Tables(sources, accounts)
    }

    ghost predicate Valid()
      reads this
    {
      TablesValid(Contents())
    }

    constructor ()
      ensures Valid() && Contents() == Tables([], map[])
    {
      sources, accounts := [], map[];
    }

    /** The transaction works on a copy; only a commit changes the tables. */
    method SaveDaily(source: Source, login: string, daily: Option<Daily>) returns (r: Result<()>)
      requires Valid()
      modifies this
      ensures Valid()
      ensures match Saved(old(Contents()), Request(source, login, daily))
        case Ok(tables) => r == Ok(()) && Contents() == tables
        case Err(e) => r == Err(e) && Contents() == old(Contents())
    {
      SavedValid(Contents(), Request(source, login, daily));
      var valid := ValidateDaily(daily);
      if !valid {
        return Err(InvalidSnapshot);
      }
      var persisted := PersistAccount(Contents(), source, login);
      if persisted.Err? {
        return Err(persisted.error);
      }
      var (tables, id) := persisted.value;
      var key := (id, Lower(login));
      var saved := SaveInto(tables.accounts[key].segments, daily.value);
      if saved.Err? {
        return Err(saved.error);
      }
      sources := tables.sources;
      accounts := tables.accounts[key := tables.accounts[key].(segments := saved.value)];
      r := Ok(());
    }

    /** The days of a period, or nothing when the account has never been saved. */
    method LoadDaily(name: string, url: string, login: string, period: string, now: int) returns (r: Result<Option<seq<Day>>>)
      requires Valid() && ValidNow(now)
      ensures LoadedAs(Contents(), name, url, login, PeriodStart(period, now), now + 1, r)
    {
      var resolved := ResolveSourceID(sources, name, url);
      if resolved.Err? {
        return Err(resolved.error);
      }
      if resolved.value.None? {
        return Ok(None);
      }
      var key := (resolved.value.value, Lower(login));
      if key !in accounts {
        return Ok(None);
      }
      var days := LoadSegments(accounts[key].segments, PeriodStart(period, now), now + 1);
      r := Ok(Some(days));
    }
  }

  /** The part of `SaveDaily` between resolving the account and the commit. */
  method SaveInto(segments: seq<Segment>, daily: Daily) returns (r: Result<seq<Segment>>)
    requires ValidSnapshot(Some(daily)) && SegmentsValid(segments)
    ensures r == SaveSegments(segments, daily)
  {
    var days := SortDays(daily.days);
    if days == [] {
      return Ok(segments);
    }
    r := SaveSorted(segments, daily.endMS, days);
  }

  method SortDays(days: seq<Day>) returns (r: seq<Day>)
    requires Distinct(days, DayDate)
    ensures r == InOrder(days) && |r| == |days| && Distinct(r, DayDate)
    ensures forall day :: day in r <==> day in days
  {
    OrderOfDays(days);
    r := SortSlice(days, StartsBefore);
    InOrderDays(days);
  }

  method SaveSorted(segments: seq<Segment>, end: int, days: seq<Day>) returns (r: Result<seq<Segment>>)
    requires days != [] && Distinct(days, DayDate) && SegmentsValid(segments)
    requires forall day | day in days :: ValidDay(day, end)
    ensures r == SaveDays(segments, end, days)
  {
    hide Written, ResetDate, WellKeyed, Lands, IncompleteAt, RowValid;
    var chosen := ChooseSegment(segments, end, days);
    if chosen.Err? {
      return Err(chosen.error);
    }
    var all := chosen.value;
    var latest := |all| - 1;
    var written := WriteDays(all[latest], end, days);
    if written.None? {
      return Err(CannotPersist);
    }
    r := Ok(all[latest := written.value]);
    assert all[latest := written.value] == all[..latest] + [written.value];
  }

  /** Everything before the write: the segments, of which the last is the one to write to. */
  method ChooseSegment(segments: seq<Segment>, end: int, days: seq<Day>) returns (r: Result<seq<Segment>>)
    requires days != [] && Distinct(days, DayDate) && SegmentsValid(segments)
    requires forall day | day in days :: ValidDay(day, end)
    ensures r.Ok? ==> r.value != []
    ensures r.Ok? ==> SaveDays(segments, end, days) == Finish(r.value[..|r.value| - 1], r.value[|r.value| - 1], end, days)
    ensures r.Err? ==> SaveDays(segments, end, days) == Err(r.error)
  {
    hide ResetDate, Finish, IncompleteAt, RowValid;
    var all := segments;
    var latest := LatestSegment(all);
    if latest < 0 {
      var created := CreateSegment(all, 0, days[0].date);
      all := created.value;
      latest := 0;
    }
    assert all == Started(segments, days);
    LatestIsLast(all, latest);
    var seg := all[latest];
    var stored := LoadMutableDays(seg.rows);
    var resetDate := FindResetDate(seg, end, days, stored);
    if resetDate == "" {
      var complete := ValidateDetails(seg, end, days, stored);
      if !complete {
        return Err(IncompleteSnapshot);
      }
    } else {
      var created := CreateSegment(all, seg.ordinal + 1, resetDate);
      all := created.value;
      assert all[..|all| - 1] == Started(segments, days);
    }
    r := Ok(all);
  }

  lemma LatestIsLast(all: seq<Segment>, latest: int)
    requires all != [] && forall i | 0 <= i < |all| :: all[i].ordinal == i
    requires 0 <= latest < |all| && forall i | 0 <= i < |all| :: all[i].ordinal <= all[latest].ordinal
    ensures latest == |all| - 1
  {
    assert all[|all| - 1].ordinal <= all[latest].ordinal;
  }

  lemma SavedValid(tables: Tables, q: Request)
    requires TablesValid(tables)
    ensures Saved(tables, q).Ok? ==> TablesValid(Saved(tables, q).value)
  {
    hide SegmentsValid, SaveSegments, UniqueSources;
    if ValidSnapshot(q.daily) && PersistSource(tables.sources, q.source).Ok? {
      SourceKept(tables.sources, q.source);
      var (sources, id) := PersistSource(tables.sources, q.source).value;
      var accounts, key := PersistLogin(tables.accounts, id, q.login), (id, Lower(q.login));
      NoSegmentsValid();
      if SaveSegments(accounts[key].segments, q.daily.value).Ok? {
        SaveKeepsSegments(accounts[key].segments, q.daily.value);
      }
    }
  }

  lemma NoSegmentsValid()
    ensures SegmentsValid([])
  {
  }
}
