/** internal/store/sqlite/store.go: the loops that turn query rows into days. */
module LoadLoops {
  import opened Text
  import opened Usage
  import opened Grouping
  import opened Tally
  import opened Aggregate
  import opened Effects
  import opened Loader

  method AddStoredTotals(dst: Totals, src: Tally) returns (r: Totals)
    requires src.costs == map[]
    ensures TallyOf(r) == Add(TallyOf(dst), src) && r.costs == dst.costs
  {
    var aiu := dst.aiu;
    if src.aiu.Some? {
      if aiu.None? {
        aiu := Some(0);
      }
      aiu := Some(aiu.value + src.aiu.value);
    }
    PlusAdditive();
    MergeAdditive(CostMap(dst.costs), map[], map[], Plus);
    r := Totals(dst.input + src.input, dst.output + src.output, dst.cacheRead + src.cacheRead,
                dst.cacheCreation + src.cacheCreation, dst.requests + src.requests, dst.tokens + src.tokens,
                aiu, dst.costs);
  }

  method AddStoredCost(costs: seq<Cost>, currency: string, nanos: int) returns (r: seq<Cost>)
    ensures CostMap(r) == Put(CostMap(costs), currency, nanos, Plus)
    ensures Distinct(costs, CurrencyOf) ==> Distinct(r, CurrencyOf)
  {
    PlusAdditive();
    var index := Find(costs, CurrencyOf, currency);
    if index >= 0 {
      r := costs[index := costs[index].(nanos := costs[index].nanos + nanos)];
      Upsert(costs, index, r[index], nanos, r, CurrencyOf, NanosOf, Plus);
    } else {
      r := costs + [Cost(currency, nanos)];
      Upsert(costs, -1, Cost(currency, nanos), nanos, r, CurrencyOf, NanosOf, Plus);
    }
  }

  // ---- days

  /** Where each date is in `days`. */
  ghost predicate Indexed(days: seq<Day>, byDate: map<string, int>) {
    && (forall d | d in byDate :: 0 <= byDate[d] < |days| && days[byDate[d]].date == d)
    && (forall i | 0 <= i < |days| :: days[i].date in byDate && byDate[days[i].date] == i)
  }

  /** A day whose bounds, counters and AIU figure are summed, without any details yet. */
  ghost predicate Summed(day: Day, sums: map<string, Figure>) {
    && day.date in sums && day.totals.Some? && day.totals.value.costs == [] && day.models == []
    && sums[day.date] == FigureOf(day)
  }

  ghost predicate DaysFrom(days: seq<Day>, byDate: map<string, int>, sums: map<string, Figure>) {
    && Indexed(days, byDate) && byDate.Keys == sums.Keys
    && (forall i | 0 <= i < |days| :: Summed(days[i], sums))
  }

  method CollectDays(rows: seq<DayRow>) returns (days: seq<Day>, byDate: map<string, int>)
    requires forall i, j | 0 <= i < j < |rows| :: !Less(rows[j].date, rows[i].date)
    requires forall r | r in rows :: r.figures.costs == map[]
    ensures DaysFrom(days, byDate, DaySums(rows)) && Ascending(days, DayDate)
  {
    hide Less, DaySums, DaysFrom;
    days, byDate := [], map[];
    NoRows();
    for n := 0 to |rows|
      invariant DaysFrom(days, byDate, DaySums(rows[..n])) && Ascending(days, DayDate)
      invariant forall i, k | 0 <= i < |days| && n <= k < |rows| :: !Less(rows[k].date, days[i].date)
    {
      var row := rows[n];
      assert row in rows;
      ghost var before, known := days, byDate;
      days, byDate := AddDayRow(days, byDate, row, DaySums(rows[..n]));
      OneMoreRow(rows, n);
      AppendedLast(before, days, row.date);
      forall i, k | 0 <= i < |days| && n + 1 <= k < |rows|
        ensures !Less(rows[k].date, days[i].date)
      {
        assert i < |before| ==> !Less(rows[k].date, before[i].date);
      }
    }
    assert rows[..|rows|] == rows;
  }

  lemma NoRows()
    ensures DaysFrom([], map[], DaySums([]))
  {
  }

  lemma OneMoreRow(rows: seq<DayRow>, n: nat)
    requires n < |rows|
    ensures DaySums(rows[..n + 1]) == Put(DaySums(rows[..n]), rows[n].date, DayRowFigure(rows[n]), CombineFigures)
  {
    assert rows[..n + 1] == rows[..n] + [rows[n]];
    GroupOne(rows[..n], rows[n], DayRowDate, DayRowFigure, CombineFigures);
  }

  lemma AppendedLast(before: seq<Day>, days: seq<Day>, date: string)
    requires Ascending(before, DayDate)
    requires |days| == |before| || (|days| == |before| + 1 && days[|before|].date == date)
    requires forall i | 0 <= i < |before| :: days[i].date == before[i].date
    requires forall i | 0 <= i < |before| :: !Less(date, before[i].date)
    requires |days| > |before| ==> forall i | 0 <= i < |before| :: before[i].date != date
    ensures Ascending(days, DayDate)
  {
    TotalOrder();
  }

  function FigureOf(day: Day): Figure
    requires day.totals.Some?
  {
    Figure(day.startMS, day.endMS, Breakdown(TallyOf(day.totals.value), map[]))
  }

  /** One turn of the loop over the rows of daily_usage. */
  method AddDayRow(days: seq<Day>, byDate: map<string, int>, row: DayRow, ghost sums: map<string, Figure>)
    returns (r: seq<Day>, index: map<string, int>)
    requires DaysFrom(days, byDate, sums) && row.figures.costs == map[]
    ensures DaysFrom(r, index, Put(sums, row.date, DayRowFigure(row), CombineFigures))
    ensures |r| == |days| || (|r| == |days| + 1 && r[|days|].date == row.date)
    ensures forall i | 0 <= i < |days| :: r[i].date == days[i].date
    ensures |r| > |days| ==> forall i | 0 <= i < |days| :: days[i].date != row.date
  {
    hide TallyOf, Join;
    r, index := days, byDate;
    if row.date !in index {
      var day := Day(row.date, row.startMS, row.endMS, Some(NoTotals), []);
      day := StartDay(day, row);
      r := r + [day];
      index := index[row.date := |r| - 1];
    } else {
      var place := index[row.date];
      var day := ExtendDay(r[place], row);
      r := r[place := day];
    }
  }

  /** A new day takes the bounds of its first row, and its figures are added to none. */
  method StartDay(day: Day, row: DayRow) returns (r: Day)
    requires day == Day(row.date, row.startMS, row.endMS, Some(NoTotals), []) && row.figures.costs == map[]
    ensures r.date == row.date && r.models == [] && r.totals.Some? && r.totals.value.costs == []
    ensures FigureOf(r) == DayRowFigure(row)
  {
    var totals := AddStoredTotals(day.totals.value, row.figures);
    assert TallyOf(NoTotals) == Zero;
    AddZero(row.figures);
    r := day.(totals := Some(totals));
  }

  /** A further row of the same date widens the bounds and adds to the figures. */
  method ExtendDay(day: Day, row: DayRow) returns (r: Day)
    requires day.totals.Some? && day.totals.value.costs == [] && day.models == [] && row.figures.costs == map[]
    ensures r.date == day.date && r.models == [] && r.totals.Some? && r.totals.value.costs == []
    ensures FigureOf(r) == CombineFigures(FigureOf(day), DayRowFigure(row))
  {
    r := day;
    if row.startMS < r.startMS {
      r := r.(startMS := row.startMS);
    }
    if row.endMS > r.endMS {
      r := r.(endMS := row.endMS);
    }
    var totals := AddStoredTotals(r.totals.value, row.figures);
    r := r.(totals := Some(totals));
    MergeEmpty();
  }

  // ---- costs of days

  /** The days are those of `base`, with costs that add up to `sums`. */
  ghost predicate Costed(base: seq<Day>, days: seq<Day>, sums: map<(string, string), int>) {
    && |days| == |base|
    && (forall i | 0 <= i < |days| :: base[i].totals.Some? && days[i].totals.Some?
          && days[i] == base[i].(totals := Some(base[i].totals.value.(costs := days[i].totals.value.costs))))
    && (forall i | 0 <= i < |days| :: CostsOf(days[i].totals.value.costs, days[i].date, sums))
  }

  ghost predicate CostsOf(costs: seq<Cost>, date: string, sums: map<(string, string), int>) {
    && Distinct(costs, CurrencyOf)
    && (forall c :: Lookup(CostMap(costs), c) == Lookup(sums, (date, c)))
  }

  /** The loop of `loadCosts` over its rows. */
  method CollectCosts(rows: seq<CostRow>, base: seq<Day>, byDate: map<string, int>) returns (days: seq<Day>)
    requires Indexed(base, byDate) && forall i | 0 <= i < |base| :: base[i].totals.Some? && base[i].totals.value.costs == []
    ensures Costed(base, days, CostSums(rows))
  {
    hide CostsOf, CostSums;
    days := base;
    NoCosts(base);
    for n := 0 to |rows|
      invariant Costed(base, days, CostSums(rows[..n]))
    {
      var row := rows[n];
      ghost var sums := CostSums(rows[..n]);
      OneMoreCost(rows, n);
      forall i | 0 <= i < |days| && days[i].date != row.date
        ensures CostsOf(days[i].totals.value.costs, days[i].date, Put(sums, (row.date, row.currency), row.nanos, Plus))
      {
        OtherDate(days[i].totals.value.costs, days[i].date, sums, row);
      }
      if row.date in byDate {
        var index := byDate[row.date];
        var costs := AddStoredCost(days[index].totals.value.costs, row.currency, row.nanos);
        SameDate(days[index].totals.value.costs, costs, sums, row);
        days := days[index := days[index].(totals := Some(days[index].totals.value.(costs := costs)))];
      }
    }
    assert rows[..|rows|] == rows;
  }

  lemma NoCosts(base: seq<Day>)
    requires forall i | 0 <= i < |base| :: base[i].totals.Some? && base[i].totals.value.costs == []
    ensures Costed(base, base, CostSums([]))
  {
  }

  lemma OneMoreCost(rows: seq<CostRow>, n: nat)
    requires n < |rows|
    ensures CostSums(rows[..n + 1]) == Put(CostSums(rows[..n]), CostRowKey(rows[n]), rows[n].nanos, Plus)
  {
    assert rows[..n + 1] == rows[..n] + [rows[n]];
    GroupOne(rows[..n], rows[n], CostRowKey, CostRowNanos, Plus);
  }

  lemma OtherDate(costs: seq<Cost>, date: string, sums: map<(string, string), int>, row: CostRow)
    requires CostsOf(costs, date, sums) && row.date != date
    ensures CostsOf(costs, date, Put(sums, (row.date, row.currency), row.nanos, Plus))
  {
  }

  lemma SameDate(costs: seq<Cost>, costs': seq<Cost>, sums: map<(string, string), int>, row: CostRow)
    requires CostsOf(costs, row.date, sums) && (Distinct(costs, CurrencyOf) ==> Distinct(costs', CurrencyOf))
    requires CostMap(costs') == Put(CostMap(costs), row.currency, row.nanos, Plus)
    ensures CostsOf(costs', row.date, Put(sums, (row.date, row.currency), row.nanos, Plus))
  {
  }

  // ---- models

  type Place = (int, int)

  /** The place holds a model of this date and name. */
  ghost predicate Fits(days: seq<Day>, place: Place, key: (string, string)) {
    && 0 <= place.0 < |days| && days[place.0].date == key.0
    && 0 <= place.1 < |days[place.0].models| && days[place.0].models[place.1].name == key.1
  }

  ghost predicate Findable(days: seq<Day>, index: map<(string, string), Place>, i: int, j: int)
    requires 0 <= i < |days| && 0 <= j < |days[i].models|
  {
    var key := (days[i].date, days[i].models[j].name);
    key in index && index[key] == (i, j)
  }

  /** Where each model of each date is. */
  ghost predicate Placed(days: seq<Day>, index: map<(string, string), Place>) {
    && (forall key | key in index :: Fits(days, index[key], key))
    && (forall i, j | 0 <= i < |days| && 0 <= j < |days[i].models| :: Findable(days, index, i, j))
  }

  /** Models without costs whose counters and AIU figures add up to `sums`. */
  ghost predicate ModelsOf(models: seq<Model>, date: string, sums: map<(string, string), Tally>) {
    && Distinct(models, NameOf)
    && (forall m | m in models :: m.totals.costs == [])
    && (forall m :: Lookup(ModelMap(models), m) == Lookup(sums, (date, m)))
  }

  /** The days are those of `base`, with models that add up to `sums`. */
  ghost predicate Modelled(base: seq<Day>, days: seq<Day>, sums: map<(string, string), Tally>) {
    && |days| == |base|
    && (forall i | 0 <= i < |days| :: days[i] == base[i].(models := days[i].models))
    && (forall i | 0 <= i < |days| :: ModelsOf(days[i].models, days[i].date, sums))
  }

  /** The first loop of `loadModels`. */
  method CollectModels(rows: seq<ModelRow>, base: seq<Day>, byDate: map<string, int>)
    returns (days: seq<Day>, index: map<(string, string), Place>)
    requires Indexed(base, byDate) && forall i | 0 <= i < |base| :: base[i].models == []
    requires forall r | r in rows :: r.figures.costs == map[]
    ensures Modelled(base, days, ModelSums(rows)) && Placed(days, index)
  {
    hide ModelsOf, ModelSums, Placed;
    days, index := base, map[];
    NoModelRows(base);
    for n := 0 to |rows|
      invariant Modelled(base, days, ModelSums(rows[..n])) && Placed(days, index)
    {
      var row := rows[n];
      assert row in rows;
      ghost var sums := ModelSums(rows[..n]);
      OneMoreModelRow(rows, n);
      forall i | 0 <= i < |days| && days[i].date != row.date
        ensures ModelsOf(days[i].models, days[i].date, Put(sums, (row.date, row.model), row.figures, Add))
      {
        OtherDateModels(days[i].models, days[i].date, sums, row);
      }
      if row.date in byDate {
        days, index := AddModelRow(base, days, byDate[row.date], index, row, sums);
      }
    }
    assert rows[..|rows|] == rows;
  }

  lemma NoModelRows(base: seq<Day>)
    requires forall i | 0 <= i < |base| :: base[i].models == []
    ensures Modelled(base, base, ModelSums([])) && Placed(base, map[])
  {
  }

  lemma OneMoreModelRow(rows: seq<ModelRow>, n: nat)
    requires n < |rows|
    ensures ModelSums(rows[..n + 1]) == Put(ModelSums(rows[..n]), ModelRowKey(rows[n]), rows[n].figures, Add)
  {
    assert rows[..n + 1] == rows[..n] + [rows[n]];
    GroupOne(rows[..n], rows[n], ModelRowKey, ModelRowFigures, Add);
  }

  lemma OtherDateModels(models: seq<Model>, date: string, sums: map<(string, string), Tally>, row: ModelRow)
    requires ModelsOf(models, date, sums) && row.date != date
    ensures ModelsOf(models, date, Put(sums, (row.date, row.model), row.figures, Add))
  {
    hide ModelMap, Add, Distinct;
  }

  function RowTotals(t: Tally): Totals {
    Totals(t.input, t.output, t.cacheRead, t.cacheCreation, t.requests, t.tokens, t.aiu, [])
  }

  /** One turn of that loop, for a row of the day at `place`. */
  method AddModelRow(ghost base: seq<Day>, days: seq<Day>, place: int, index: map<(string, string), Place>, row: ModelRow,
                     ghost sums: map<(string, string), Tally>)
    returns (r: seq<Day>, index': map<(string, string), Place>)
    requires Modelled(base, days, sums) && Placed(days, index) && row.figures.costs == map[]
    requires 0 <= place < |days| && days[place].date == row.date
    requires forall i | 0 <= i < |days| && i != place :: days[i].date != row.date
    requires forall i | 0 <= i < |days| && i != place ::
      ModelsOf(days[i].models, days[i].date, Put(sums, (row.date, row.model), row.figures, Add))
    ensures Modelled(base, r, Put(sums, (row.date, row.model), row.figures, Add)) && Placed(r, index')
  {
    hide ModelsOf, Placed;
    var key := (row.date, row.model);
    var models := days[place].models;
    KeyPlaced(days, index, place, row.model);
    if key in index {
      var target := index[key];
      var totals := AddStoredTotals(days[target.0].models[target.1].totals, row.figures);
      var model := days[target.0].models[target.1].(totals := totals);
      SameModel(models, target.1, model, row, sums);
      r := days[target.0 := days[target.0].(models := models[target.1 := model])];
      index' := index;
      PlacedUpdate(days, index, target.0, target.1, model);
    } else {
      var model := Model(row.model, RowTotals(row.figures));
      NewModel(models, model, row, sums);
      r := days[place := days[place].(models := models + [model])];
      index' := index[key := (place, |models|)];
      PlacedAppend(days, index, place, model);
    }
  }

  /** A model is in the index exactly when the day has it. */
  lemma KeyPlaced(days: seq<Day>, index: map<(string, string), Place>, place: int, name: string)
    requires Placed(days, index) && 0 <= place < |days|
    requires forall i | 0 <= i < |days| && i != place :: days[i].date != days[place].date
    ensures var key := (days[place].date, name);
      if key in index then index[key].0 == place && 0 <= index[key].1 < |days[place].models| && days[place].models[index[key].1].name == name
      else forall j | 0 <= j < |days[place].models| :: days[place].models[j].name != name
  {
    var key := (days[place].date, name);
    forall j | 0 <= j < |days[place].models|
      ensures days[place].models[j].name == name ==> key in index
    {
      assert Findable(days, index, place, j);
    }
  }

  lemma PlacedUpdate(days: seq<Day>, index: map<(string, string), Place>, x: int, y: int, model: Model)
    requires Placed(days, index) && 0 <= x < |days| && 0 <= y < |days[x].models| && model.name == days[x].models[y].name
    ensures Placed(days[x := days[x].(models := days[x].models[y := model])], index)
  {
    var r := days[x := days[x].(models := days[x].models[y := model])];
    forall key | key in index
      ensures Fits(r, index[key], key)
    {
      assert Fits(days, index[key], key);
    }
    forall i, j | 0 <= i < |r| && 0 <= j < |r[i].models|
      ensures Findable(r, index, i, j)
    {
      assert Findable(days, index, i, j);
    }
  }

  lemma PlacedAppend(days: seq<Day>, index: map<(string, string), Place>, x: int, model: Model)
    requires Placed(days, index) && 0 <= x < |days| && (days[x].date, model.name) !in index
    requires forall i | 0 <= i < |days| && i != x :: days[i].date != days[x].date
    ensures Placed(days[x := days[x].(models := days[x].models + [model])], index[(days[x].date, model.name) := (x, |days[x].models|)])
  {
    var r := days[x := days[x].(models := days[x].models + [model])];
    var index' := index[(days[x].date, model.name) := (x, |days[x].models|)];
    forall key | key in index'
      ensures Fits(r, index'[key], key)
    {
      assert key in index ==> Fits(days, index[key], key);
    }
    forall i, j | 0 <= i < |r| && 0 <= j < |r[i].models|
      ensures Findable(r, index', i, j)
    {
      if i != x || j < |days[x].models| {
        assert Findable(days, index, i, j);
      }
    }
  }

  lemma SameModel(models: seq<Model>, j: int, model: Model, row: ModelRow, sums: map<(string, string), Tally>)
    requires 0 <= j < |models| && models[j].name == model.name == row.model
    requires ModelTally(model) == Add(ModelTally(models[j]), row.figures) && model.totals.costs == models[j].totals.costs
    requires ModelsOf(models, row.date, sums)
    ensures ModelsOf(models[j := model], row.date, Put(sums, (row.date, row.model), row.figures, Add))
  {
    hide ModelTally, Add;
    AddAdditive();
    Upsert(models, j, model, row.figures, models[j := model], NameOf, ModelTally, Add);
  }

  lemma NewModel(models: seq<Model>, model: Model, row: ModelRow, sums: map<(string, string), Tally>)
    requires model == Model(row.model, RowTotals(row.figures)) && row.figures.costs == map[]
    requires ModelsOf(models, row.date, sums) && forall j | 0 <= j < |models| :: models[j].name != row.model
    ensures ModelsOf(models + [model], row.date, Put(sums, (row.date, row.model), row.figures, Add))
  {
    assert ModelTally(model) == row.figures;
    hide ModelTally, Add, RowTotals;
    AddAdditive();
    Upsert(models, -1, model, row.figures, models + [model], NameOf, ModelTally, Add);
  }

  // ---- costs of models

  ghost predicate ModelCostsOf(model: Model, date: string, sums: map<(string, string, string), int>) {
    && Distinct(model.totals.costs, CurrencyOf)
    && (forall c :: Lookup(CostMap(model.totals.costs), c) == Lookup(sums, (date, model.name, c)))
  }

  /** A model of `base` with other costs. */
  ghost predicate Recosted(base: Model, model: Model) {
    model == base.(totals := base.totals.(costs := model.totals.costs))
  }

  /** The days are those of `base`, with model costs that add up to `sums`. */
  ghost predicate ModelsCosted(base: seq<Day>, days: seq<Day>, sums: map<(string, string, string), int>) {
    && |days| == |base|
    && (forall i | 0 <= i < |days| :: days[i] == base[i].(models := days[i].models) && |days[i].models| == |base[i].models|)
    && (forall i, j | 0 <= i < |days| && 0 <= j < |days[i].models| ::
          Recosted(base[i].models[j], days[i].models[j]) && ModelCostsOf(days[i].models[j], days[i].date, sums))
  }

  /** The second loop of `loadModels`. */
  method CollectModelCosts(rows: seq<ModelCostRow>, base: seq<Day>, index: map<(string, string), Place>) returns (days: seq<Day>)
    requires Placed(base, index)
    requires forall i, j | 0 <= i < |base| && 0 <= j < |base[i].models| :: base[i].models[j].totals.costs == []
    ensures ModelsCosted(base, days, ModelCostSums(rows))
  {
    hide ModelCostsOf, ModelCostSums;
    days := base;
    NoModelCosts(base);
    for n := 0 to |rows|
      invariant ModelsCosted(base, days, ModelCostSums(rows[..n]))
    {
      var row := rows[n];
      ghost var sums := ModelCostSums(rows[..n]);
      OneMoreModelCost(rows, n);
      ghost var sums' := Put(sums, (row.date, row.model, row.currency), row.nanos, Plus);
      forall i, j | 0 <= i < |days| && 0 <= j < |days[i].models| && (days[i].date != row.date || days[i].models[j].name != row.model)
        ensures ModelCostsOf(days[i].models[j], days[i].date, sums')
      {
        OtherModelCost(days[i].models[j], days[i].date, sums, row);
      }
      forall i, j | 0 <= i < |days| && 0 <= j < |days[i].models|
        ensures (days[i].date, days[i].models[j].name) in index
      {
        assert Recosted(base[i].models[j], days[i].models[j]);
        assert Findable(base, index, i, j);
      }
      if (row.date, row.model) in index {
        days := AddModelCostRow(base, days, index, row, sums);
      }
    }
    assert rows[..|rows|] == rows;
  }

  lemma NoModelCosts(base: seq<Day>)
    requires forall i, j | 0 <= i < |base| && 0 <= j < |base[i].models| :: base[i].models[j].totals.costs == []
    ensures ModelsCosted(base, base, ModelCostSums([]))
  {
  }

  lemma OneMoreModelCost(rows: seq<ModelCostRow>, n: nat)
    requires n < |rows|
    ensures ModelCostSums(rows[..n + 1]) == Put(ModelCostSums(rows[..n]), ModelCostRowKey(rows[n]), rows[n].nanos, Plus)
  {
    assert rows[..n + 1] == rows[..n] + [rows[n]];
    GroupOne(rows[..n], rows[n], ModelCostRowKey, ModelCostRowNanos, Plus);
  }

  lemma OtherModelCost(model: Model, date: string, sums: map<(string, string, string), int>, row: ModelCostRow)
    requires ModelCostsOf(model, date, sums) && (row.date != date || row.model != model.name)
    ensures ModelCostsOf(model, date, Put(sums, (row.date, row.model, row.currency), row.nanos, Plus))
  {
  }

  /** One turn of that loop, for a row whose model is known. */
  method AddModelCostRow(ghost base: seq<Day>, days: seq<Day>, index: map<(string, string), Place>, row: ModelCostRow,
                         ghost sums: map<(string, string, string), int>)
    returns (r: seq<Day>)
    requires Placed(base, index) && ModelsCosted(base, days, sums) && (row.date, row.model) in index
    requires forall i, j | 0 <= i < |days| && 0 <= j < |days[i].models| && (days[i].date != row.date || days[i].models[j].name != row.model) ::
      ModelCostsOf(days[i].models[j], days[i].date, Put(sums, (row.date, row.model, row.currency), row.nanos, Plus))
    ensures ModelsCosted(base, r, Put(sums, (row.date, row.model, row.currency), row.nanos, Plus))
  {
    hide ModelCostsOf;
    var (x, y) := index[(row.date, row.model)];
    var model := days[x].models[y];
    assert Recosted(base[x].models[y], model);
    var costs := AddStoredCost(model.totals.costs, row.currency, row.nanos);
    var grown := model.(totals := model.totals.(costs := costs));
    SameModelCost(model, grown, days[x].date, sums, row);
    r := days[x := days[x].(models := days[x].models[y := grown])];
    forall i, j | 0 <= i < |r| && 0 <= j < |r[i].models|
      ensures Recosted(base[i].models[j], r[i].models[j])
      ensures ModelCostsOf(r[i].models[j], r[i].date, Put(sums, (row.date, row.model, row.currency), row.nanos, Plus))
    {
      if (i, j) != (x, y) {
        assert r[i].models[j] == days[i].models[j] && Recosted(base[i].models[j], days[i].models[j]);
        assert Findable(base, index, i, j);
      }
    }
  }

  lemma SameModelCost(model: Model, grown: Model, date: string, sums: map<(string, string, string), int>, row: ModelCostRow)
    requires ModelCostsOf(model, date, sums) && row.date == date && row.model == model.name == grown.name
    requires Distinct(model.totals.costs, CurrencyOf) ==> Distinct(grown.totals.costs, CurrencyOf)
    requires CostMap(grown.totals.costs) == Put(CostMap(model.totals.costs), row.currency, row.nanos, Plus)
    ensures ModelCostsOf(grown, date, Put(sums, (row.date, row.model, row.currency), row.nanos, Plus))
  {
  }
}
