/** internal/store/sqlite/store.go: what loading gives, for any order in which the queries return their ties. */
module Load {
  import opened Text
  import opened Usage
  import opened Grouping
  import opened Tally
  import opened Aggregate
  import opened Segments
  import opened Effects
  import opened Loader
  import opened LoadLoops

  /** A loaded day is canonical, and is the whole figure of its date. */
  ghost predicate ViewDay(day: Day, segs: seq<Segment>, lo: int, hi: int) {
    && day.totals.Some? && Canonical(day.totals.value) && CanonicalModels(day.models)
    && FigureAt(segs, day.date, lo, hi) == Some(Figure(day.startMS, day.endMS, DayBreakdown(day)))
  }

  /** One day for each date with a row in the period, in the order of the dates. */
  ghost predicate IsView(days: seq<Day>, segs: seq<Segment>, lo: int, hi: int) {
    && Ascending(days, DayDate)
    && (forall day | day in days :: ViewDay(day, segs, lo, hi))
    && (forall d | FigureAt(segs, d, lo, hi).Some? :: exists day :: day in days && day.date == d)
  }

  /** The segments determine what is loaded. */
  lemma ViewUnique(days: seq<Day>, again: seq<Day>, segs: seq<Segment>, lo: int, hi: int)
    requires IsView(days, segs, lo, hi) && IsView(again, segs, lo, hi)
    ensures days == again
  {
    hide FigureAt;
    forall day | day in days
      ensures day in again
    {
      SameViewDay(day, again, segs, lo, hi);
    }
    forall day | day in again
      ensures day in days
    {
      SameViewDay(day, days, segs, lo, hi);
    }
    AscendingUnique(days, again, DayDate);
  }

  lemma SameViewDay(day: Day, days: seq<Day>, segs: seq<Segment>, lo: int, hi: int)
    requires ViewDay(day, segs, lo, hi) && IsView(days, segs, lo, hi)
    ensures day in days
  {
    hide FigureAt, TallyOf, ModelMap;
    var other :| other in days && other.date == day.date;
    assert ViewDay(other, segs, lo, hi);
    TotalsUnique(day.totals.value, other.totals.value);
    ModelsUnique(day.models, other.models);
  }

  // ---- sorting the details

  lemma {:induction false} GroupCongruent<K, T, V>(s: seq<T>, t: seq<T>, key: T -> K, val: T -> V, add: (V, V) -> V)
    requires |s| == |t| && forall i | 0 <= i < |s| :: key(s[i]) == key(t[i]) && val(s[i]) == val(t[i])
    ensures Group(s, key, val, add) == Group(t, key, val, add)
  {
    if s != [] {
      GroupCongruent(s[..|s| - 1], t[..|t| - 1], key, val, add);
    }
  }

  method SortModels(models: seq<Model>) returns (r: seq<Model>)
    requires Distinct(models, NameOf) && forall m | m in models :: Distinct(m.totals.costs, CurrencyOf)
    ensures ModelMap(r) == ModelMap(models) && CanonicalModels(r)
  {
    hide ModelMap, TallyOf;
    r := SortByKey(models, NameOf);
    SameElements(models, r);
    ghost var sorted := r;
    for i := 0 to |r|
      invariant |r| == |sorted| && forall j | i <= j < |r| :: r[j] == sorted[j]
      invariant forall j | 0 <= j < |r| :: r[j].name == sorted[j].name && ModelTally(r[j]) == ModelTally(sorted[j])
      invariant forall j | 0 <= j < i :: Canonical(r[j].totals)
    {
      assert r[i] in sorted;
      var costs := SortByKey(r[i].totals.costs, CurrencyOf);
      SameTally(r[i].totals, costs);
      r := r[i := r[i].(totals := r[i].totals.(costs := costs))];
    }
    SameModelMap(models, sorted, r);
  }

  lemma SameTally(t: Totals, costs: seq<Cost>)
    requires multiset(costs) == multiset(t.costs)
    ensures TallyOf(t.(costs := costs)) == TallyOf(t)
  {
    PlusAdditive();
    GroupPermuted(t.costs, costs, CurrencyOf, NanosOf, Plus);
  }

  lemma SameModelMap(models: seq<Model>, sorted: seq<Model>, r: seq<Model>)
    requires multiset(models) == multiset(sorted) && |r| == |sorted|
    requires forall j | 0 <= j < |r| :: r[j].name == sorted[j].name && ModelTally(r[j]) == ModelTally(sorted[j])
    ensures ModelMap(r) == ModelMap(models)
  {
    hide ModelTally;
    AddAdditive();
    GroupPermuted(models, sorted, NameOf, ModelTally, Add);
    GroupCongruent(sorted, r, NameOf, ModelTally, Add);
  }

  // ---- the queries give the figures

  lemma SameTable<K, V>(a: map<K, V>, b: map<K, V>)
    requires forall k :: Lookup(a, k) == Lookup(b, k)
    ensures a == b
  {
    forall k
      ensures k in a <==> k in b
      ensures k in a ==> a[k] == b[k]
    {
      assert Lookup(a, k) == Lookup(b, k);
    }
  }

  /** Bare sums and cost sums together are the totals. */
  lemma TotalsMatch(f: Figure, bare: Totals, costs: seq<Cost>)
    requires bare.costs == [] && Bare(f.usage.total) == TallyOf(bare)
    requires forall c :: Lookup(CostMap(costs), c) == CostIn(Some(f), c)
    ensures TallyOf(bare.(costs := costs)) == f.usage.total
  {
    SameTable(CostMap(costs), f.usage.total.costs);
  }

  /** Bare model sums and model cost sums together are the models. */
  lemma ModelsMatch(f: Figure, bare: seq<Model>, models: seq<Model>)
    requires Distinct(bare, NameOf) && forall m | m in bare :: m.totals.costs == []
    requires forall m :: Lookup(ModelMap(bare), m) == ModelIn(Some(f), m)
    requires |models| == |bare| && forall j | 0 <= j < |bare| :: Recosted(bare[j], models[j])
    requires forall j | 0 <= j < |models| :: forall c :: Lookup(CostMap(models[j].totals.costs), c) == ModelCostIn(Some(f), models[j].name, c)
    ensures ModelMap(models) == f.usage.models && Distinct(models, NameOf)
  {
    hide CostMap;
    GroupDistinct(bare, NameOf, ModelTally, Add);
    GroupDistinct(models, NameOf, ModelTally, Add);
    forall m
      ensures Lookup(ModelMap(models), m) == Lookup(f.usage.models, m)
    {
      if j :| 0 <= j < |bare| && bare[j].name == m {
        assert NameOf(bare[j]) == NameOf(models[j]) == m;
        assert bare[j] in bare;
        assert Lookup(ModelMap(bare), m) == ModelIn(Some(f), m);
        OneModelMatches(f, m, bare[j], models[j]);
      } else {
        assert Lookup(ModelMap(bare), m) == ModelIn(Some(f), m);
        assert m !in ModelMap(bare);
        assert m !in ModelMap(models);
      }
    }
    SameTable(ModelMap(models), f.usage.models);
  }

  lemma OneModelMatches(f: Figure, m: string, bare: Model, model: Model)
    requires bare.totals.costs == [] && Recosted(bare, model) && m in f.usage.models
    requires ModelTally(bare) == Bare(f.usage.models[m])
    requires forall c :: Lookup(CostMap(model.totals.costs), c) == ModelCostIn(Some(f), m, c)
    ensures ModelTally(model) == f.usage.models[m]
  {
    SameTable(CostMap(model.totals.costs), f.usage.models[m].costs);
  }

  /** A day that went through all four loops has the figure of its date. */
  lemma DayAssembled(segs: seq<Segment>, lo: int, hi: int,
                     rows: seq<DayRow>, costRows: seq<CostRow>, modelRows: seq<ModelRow>, modelCostRows: seq<ModelCostRow>,
                     day: Day, costs: seq<Cost>, bare: seq<Model>, models: seq<Model>)
    requires Lists(rows, DayRows(segs, lo, hi)) && Lists(costRows, CostRows(segs, lo, hi))
    requires Lists(modelRows, ModelRows(segs, lo, hi)) && Lists(modelCostRows, ModelCostRows(segs, lo, hi))
    requires Summed(day, DaySums(rows)) && CostsOf(costs, day.date, CostSums(costRows))
    requires ModelsOf(bare, day.date, ModelSums(modelRows)) && |models| == |bare|
    requires forall j | 0 <= j < |bare| :: Recosted(bare[j], models[j]) && ModelCostsOf(models[j], day.date, ModelCostSums(modelCostRows))
    ensures FigureAt(segs, day.date, lo, hi) == Some(Figure(day.startMS, day.endMS,
      Breakdown(TallyOf(day.totals.value.(costs := costs)), ModelMap(models))))
    ensures Distinct(models, NameOf) && forall m | m in models :: Distinct(m.totals.costs, CurrencyOf)
  {
    hide FigureAt, CostMap, ModelMap, DaySums, CostSums, ModelSums, ModelCostSums, DayRows, CostRows, ModelRows, ModelCostRows, Lists, Recosted;
    var d := day.date;
    DayQuery(rows, segs, lo, hi, d);
    var f := FigureAt(segs, d, lo, hi).value;
    forall c
      ensures Lookup(CostMap(costs), c) == CostIn(Some(f), c)
    {
      CostQuery(costRows, segs, lo, hi, d, c);
    }
    TotalsMatch(f, day.totals.value, costs);
    forall m
      ensures Lookup(ModelMap(bare), m) == ModelIn(Some(f), m)
    {
      ModelQuery(modelRows, segs, lo, hi, d, m);
    }
    forall j | 0 <= j < |models|
      ensures forall c :: Lookup(CostMap(models[j].totals.costs), c) == ModelCostIn(Some(f), models[j].name, c)
    {
      forall c
        ensures Lookup(CostMap(models[j].totals.costs), c) == ModelCostIn(Some(f), models[j].name, c)
      {
        ModelCostQuery(modelCostRows, segs, lo, hi, d, models[j].name, c);
        assert Recosted(bare[j], models[j]) && ModelCostsOf(models[j], d, ModelCostSums(modelCostRows));
      }
    }
    ModelsMatch(f, bare, models);
  }

  /** Every date of the period is among the sums of the first query. */
  lemma DatesComplete(segs: seq<Segment>, lo: int, hi: int, rows: seq<DayRow>, days: seq<Day>, byDate: map<string, int>)
    requires Lists(rows, DayRows(segs, lo, hi)) && DaysFrom(days, byDate, DaySums(rows))
    ensures forall d | FigureAt(segs, d, lo, hi).Some? :: exists i :: 0 <= i < |days| && days[i].date == d
  {
    hide FigureAt, DaySums, DayRows, Lists, Summed;
    forall d | FigureAt(segs, d, lo, hi).Some?
      ensures exists i :: 0 <= i < |days| && days[i].date == d
    {
      DayQuery(rows, segs, lo, hi, d);
      assert d in byDate && days[byDate[d]].date == d;
    }
  }

  // ---- the loader

  /** `loadCosts`: the loop, then the sort of each day's costs. */
  method LoadCosts(rows: seq<CostRow>, base: seq<Day>, byDate: map<string, int>) returns (days: seq<Day>)
    requires Indexed(base, byDate) && forall i | 0 <= i < |base| :: base[i].totals.Some? && base[i].totals.value.costs == []
    ensures Costed(base, days, CostSums(rows))
    ensures forall i | 0 <= i < |days| :: days[i].totals.Some? && Canonical(days[i].totals.value)
  {
    hide CostMap, CostSums;
    days := CollectCosts(rows, base, byDate);
    for i := 0 to |days|
      invariant Costed(base, days, CostSums(rows))
      invariant forall j | 0 <= j < i :: Canonical(days[j].totals.value)
    {
      var t := days[i].totals.value;
      var costs := SortByKey(t.costs, CurrencyOf);
      AscendingIsDistinct(costs, CurrencyOf);
      SameCosts(t.costs, costs);
      days := days[i := days[i].(totals := Some(t.(costs := costs)))];
    }
  }

  lemma SameCosts(costs: seq<Cost>, sorted: seq<Cost>)
    requires multiset(costs) == multiset(sorted)
    ensures CostMap(costs) == CostMap(sorted)
  {
    PlusAdditive();
    GroupPermuted(costs, sorted, CurrencyOf, NanosOf, Plus);
  }

  /** `day` is `base` with its models in canonical form. */
  ghost predicate DetailsSorted(base: Day, day: Day) {
    && day == base.(models := day.models)
    && CanonicalModels(day.models) && ModelMap(day.models) == ModelMap(base.models)
  }

  /** The sorts at the end of `loadModels`. */
  method SortDetails(base: seq<Day>) returns (days: seq<Day>)
    requires forall i | 0 <= i < |base| :: Distinct(base[i].models, NameOf)
    requires forall i | 0 <= i < |base| :: forall m | m in base[i].models :: Distinct(m.totals.costs, CurrencyOf)
    ensures |days| == |base| && forall i | 0 <= i < |days| :: DetailsSorted(base[i], days[i])
  {
    hide ModelMap, Distinct, CanonicalModels;
    days := base;
    for i := 0 to |days|
      invariant |days| == |base|
      invariant forall j | i <= j < |days| :: days[j] == base[j]
      invariant forall j | 0 <= j < i :: DetailsSorted(base[j], days[j])
    {
      var models := SortModels(days[i].models);
      days := days[i := days[i].(models := models)];
    }
  }

  // ---- the queries, in their orders

  predicate DayOrder(a: DayRow, b: DayRow) {
    Less(a.date, b.date) || (a.date == b.date && a.segment < b.segment)
  }

  predicate CostOrder(a: CostRow, b: CostRow) {
    Less(a.date, b.date) || (a.date == b.date && Less(a.currency, b.currency))
  }

  predicate ModelOrder(a: ModelRow, b: ModelRow) {
    Less(a.date, b.date) || (a.date == b.date && Less(a.model, b.model))
  }

  predicate ModelCostOrder(a: ModelCostRow, b: ModelCostRow) {
    || Less(a.date, b.date)
    || (a.date == b.date && (Less(a.model, b.model) || (a.model == b.model && Less(a.currency, b.currency))))
  }

  method SelectDays(segs: seq<Segment>, lo: int, hi: int) returns (rows: seq<DayRow>)
    ensures Lists(rows, DayRows(segs, lo, hi))
    ensures forall i, j | 0 <= i < j < |rows| :: !Less(rows[j].date, rows[i].date)
    ensures forall r | r in rows :: r.figures.costs == map[]
  {
    TotalOrder();
    rows := Select(DayRows(segs, lo, hi), DayOrder);
  }

  method SelectCosts(segs: seq<Segment>, lo: int, hi: int) returns (rows: seq<CostRow>)
    ensures Lists(rows, CostRows(segs, lo, hi))
  {
    TotalOrder();
    rows := Select(CostRows(segs, lo, hi), CostOrder);
  }

  method SelectModels(segs: seq<Segment>, lo: int, hi: int) returns (rows: seq<ModelRow>)
    ensures Lists(rows, ModelRows(segs, lo, hi))
    ensures forall r | r in rows :: r.figures.costs == map[]
  {
    TotalOrder();
    rows := Select(ModelRows(segs, lo, hi), ModelOrder);
  }

  method SelectModelCosts(segs: seq<Segment>, lo: int, hi: int) returns (rows: seq<ModelCostRow>)
    ensures Lists(rows, ModelCostRows(segs, lo, hi))
  {
    TotalOrder();
    rows := Select(ModelCostRows(segs, lo, hi), ModelCostOrder);
  }

  // ---- glue between the loops

  lemma NothingLoaded(segs: seq<Segment>, lo: int, hi: int)
    requires forall d :: FigureAt(segs, d, lo, hi).None?
    ensures IsView([], segs, lo, hi)
  {
  }

  lemma CollectedPlain(days: seq<Day>, byDate: map<string, int>, sums: map<string, Figure>)
    requires DaysFrom(days, byDate, sums)
    ensures Indexed(days, byDate)
    ensures forall i | 0 <= i < |days| :: days[i].totals.Some? && days[i].totals.value.costs == [] && days[i].models == []
  {
    hide Indexed, FigureOf;
    forall i | 0 <= i < |days|
      ensures days[i].totals.Some? && days[i].totals.value.costs == [] && days[i].models == []
    {
      assert Summed(days[i], sums);
    }
  }

  lemma CostedPlain(base: seq<Day>, days: seq<Day>, byDate: map<string, int>, sums: map<(string, string), int>)
    requires Indexed(base, byDate) && Costed(base, days, sums) && forall i | 0 <= i < |base| :: base[i].models == []
    ensures Indexed(days, byDate) && forall i | 0 <= i < |days| :: days[i].models == []
  {
    hide CostsOf;
  }

  lemma ModelledPlain(base: seq<Day>, days: seq<Day>, sums: map<(string, string), Tally>)
    requires Modelled(base, days, sums)
    ensures forall i, j | 0 <= i < |days| && 0 <= j < |days[i].models| :: days[i].models[j].totals.costs == []
  {
    hide ModelMap, Distinct;
    forall i, j | 0 <= i < |days| && 0 <= j < |days[i].models|
      ensures days[i].models[j].totals.costs == []
    {
      assert ModelsOf(days[i].models, days[i].date, sums) && days[i].models[j] in days[i].models;
    }
  }

  /** The day is its figure; only its models may still be out of order. */
  ghost predicate Assembled(segs: seq<Segment>, lo: int, hi: int, day: Day) {
    && day.totals.Some? && Canonical(day.totals.value)
    && Distinct(day.models, NameOf) && (forall m | m in day.models :: Distinct(m.totals.costs, CurrencyOf))
    && FigureAt(segs, day.date, lo, hi) == Some(Figure(day.startMS, day.endMS, DayBreakdown(day)))
  }

  lemma AllAssembled(segs: seq<Segment>, lo: int, hi: int,
                     rows: seq<DayRow>, costRows: seq<CostRow>, modelRows: seq<ModelRow>, modelCostRows: seq<ModelCostRow>,
                     byDate: map<string, int>, collected: seq<Day>, costed: seq<Day>, modelled: seq<Day>, recosted: seq<Day>)
    requires Lists(rows, DayRows(segs, lo, hi)) && Lists(costRows, CostRows(segs, lo, hi))
    requires Lists(modelRows, ModelRows(segs, lo, hi)) && Lists(modelCostRows, ModelCostRows(segs, lo, hi))
    requires DaysFrom(collected, byDate, DaySums(rows)) && Costed(collected, costed, CostSums(costRows))
    requires forall i | 0 <= i < |costed| :: costed[i].totals.Some? && Canonical(costed[i].totals.value)
    requires Modelled(costed, modelled, ModelSums(modelRows)) && ModelsCosted(modelled, recosted, ModelCostSums(modelCostRows))
    ensures |recosted| == |collected|
    ensures forall i | 0 <= i < |recosted| :: recosted[i].date == collected[i].date && Assembled(segs, lo, hi, recosted[i])
  {
    hide Lists, DayRows, CostRows, ModelRows, ModelCostRows, DaySums, CostSums, ModelSums, ModelCostSums, FigureAt, TallyOf, ModelMap;
    hide Summed, CostsOf, ModelsOf, Recosted, ModelCostsOf, Indexed, Canonical, Distinct;
    forall i | 0 <= i < |recosted|
      ensures recosted[i].date == collected[i].date && Assembled(segs, lo, hi, recosted[i])
    {
      var day, r := collected[i], recosted[i];
      DayAssembled(segs, lo, hi, rows, costRows, modelRows, modelCostRows, day, costed[i].totals.value.costs, modelled[i].models, r.models);
    }
  }

  lemma Viewed(segs: seq<Segment>, lo: int, hi: int, collected: seq<Day>, recosted: seq<Day>, days: seq<Day>)
    requires Ascending(collected, DayDate) && |recosted| == |collected|
    requires forall i | 0 <= i < |recosted| :: recosted[i].date == collected[i].date && Assembled(segs, lo, hi, recosted[i])
    requires |days| == |recosted| && forall i | 0 <= i < |days| :: DetailsSorted(recosted[i], days[i])
    requires forall d | FigureAt(segs, d, lo, hi).Some? :: exists i :: 0 <= i < |collected| && collected[i].date == d
    ensures IsView(days, segs, lo, hi)
  {
    hide FigureAt, ModelMap, TallyOf, Canonical, CanonicalModels, Distinct, Less;
    forall i | 0 <= i < |days|
      ensures days[i].date == collected[i].date && ViewDay(days[i], segs, lo, hi)
    {
      assert DetailsSorted(recosted[i], days[i]) && Assembled(segs, lo, hi, recosted[i]);
    }
    forall i, j | 0 <= i < j < |days|
      ensures Less(DayDate(days[i]), DayDate(days[j]))
    {
      assert Less(DayDate(collected[i]), DayDate(collected[j]));
    }
    forall d | FigureAt(segs, d, lo, hi).Some?
      ensures exists day :: day in days && day.date == d
    {
      var i :| 0 <= i < |collected| && collected[i].date == d;
      assert days[i] in days;
    }
  }

  lemma AssembledKeys(segs: seq<Segment>, lo: int, hi: int, days: seq<Day>)
    requires forall i | 0 <= i < |days| :: Assembled(segs, lo, hi, days[i])
    ensures forall i | 0 <= i < |days| :: Distinct(days[i].models, NameOf)
    ensures forall i | 0 <= i < |days| :: forall m | m in days[i].models :: Distinct(m.totals.costs, CurrencyOf)
  {
    hide FigureAt, DayBreakdown, Canonical, Distinct;
    forall i | 0 <= i < |days|
      ensures Distinct(days[i].models, NameOf) && forall m | m in days[i].models :: Distinct(m.totals.costs, CurrencyOf)
    {
      assert Assembled(segs, lo, hi, days[i]);
    }
  }

  lemma {:induction false} InGroup<K, T, V>(s: seq<T>, x: T, key: T -> K, val: T -> V, add: (V, V) -> V)
    requires x in s
    ensures key(x) in Group(s, key, val, add)
  {
    if x != s[|s| - 1] {
      assert s == s[..|s| - 1] + [s[|s| - 1]];
      InGroup(s[..|s| - 1], x, key, val, add);
    }
  }

  /** Every cost row and model row finds its day. */
  lemma NoDayMissed(segs: seq<Segment>, lo: int, hi: int, rows: seq<DayRow>, costRows: seq<CostRow>, modelRows: seq<ModelRow>)
    requires Lists(rows, DayRows(segs, lo, hi))
    requires Lists(costRows, CostRows(segs, lo, hi)) && Lists(modelRows, ModelRows(segs, lo, hi))
    ensures forall r | r in costRows :: r.date in DaySums(rows)
    ensures forall r | r in modelRows :: r.date in DaySums(rows)
  {
    forall s, d | Selected(segs, s, d, lo, hi)
      ensures d in DaySums(rows)
    {
      var row := DayRow(s, d, segs[s].rows[d].startMS, segs[s].rows[d].endMS, Bare(segs[s].rows[d].usage.total));
      assert row in DayRows(segs, lo, hi);
      InGroup(rows, row, DayRowDate, DayRowFigure, CombineFigures);
    }
    forall r | r in costRows
      ensures r.date in DaySums(rows)
    {
      assert r in CostRows(segs, lo, hi);
      assert Selected(segs, r.segment, r.date, lo, hi);
    }
    forall r | r in modelRows
      ensures r.date in DaySums(rows)
    {
      assert r in ModelRows(segs, lo, hi);
      assert Selected(segs, r.segment, r.date, lo, hi);
    }
  }

  /** Every model cost row finds its model. */
  lemma NoModelMissed(segs: seq<Segment>, lo: int, hi: int, modelRows: seq<ModelRow>, modelCostRows: seq<ModelCostRow>,
                      base: seq<Day>, byDate: map<string, int>, days: seq<Day>, index: map<(string, string), Place>)
    requires Lists(modelRows, ModelRows(segs, lo, hi)) && Lists(modelCostRows, ModelCostRows(segs, lo, hi))
    requires Indexed(base, byDate) && forall r | r in modelRows :: r.date in byDate
    requires Modelled(base, days, ModelSums(modelRows)) && Placed(days, index)
    ensures forall r | r in modelCostRows :: (r.date, r.model) in index
  {
    hide ModelMap, Fits;
    forall r | r in modelCostRows
      ensures (r.date, r.model) in index
    {
      assert r in ModelCostRows(segs, lo, hi);
      var row := ModelRow(r.segment, r.date, r.model, Bare(segs[r.segment].rows[r.date].usage.models[r.model]));
      assert Selected(segs, r.segment, r.date, lo, hi);
      assert row in ModelRows(segs, lo, hi);
      InGroup(modelRows, row, ModelRowKey, ModelRowFigures, Add);
      ModelFindable(base, byDate, days, index, r.date, r.model, ModelSums(modelRows));
    }
  }

  lemma ModelFindable(base: seq<Day>, byDate: map<string, int>, days: seq<Day>, index: map<(string, string), Place>,
                      date: string, model: string, sums: map<(string, string), Tally>)
    requires Indexed(base, byDate) && date in byDate && (date, model) in sums
    requires Modelled(base, days, sums) && Placed(days, index)
    ensures (date, model) in index
  {
    hide Fits;
    var i := byDate[date];
    assert ModelsOf(days[i].models, days[i].date, sums);
    assert Lookup(ModelMap(days[i].models), model) == Lookup(sums, (date, model));
    GroupDistinct(days[i].models, NameOf, ModelTally, Add);
    var j :| 0 <= j < |days[i].models| && NameOf(days[i].models[j]) == model;
    assert Findable(days, index, i, j);
  }

  lemma KeysAreSums(days: seq<Day>, byDate: map<string, int>, sums: map<string, Figure>)
    requires DaysFrom(days, byDate, sums)
    ensures byDate.Keys == sums.Keys
  {
  }

  /** The queries of `LoadDaily` and the loops over their rows. */
  method LoadSegments(segs: seq<Segment>, lo: int, hi: int) returns (days: seq<Day>)
    ensures IsView(days, segs, lo, hi)
  {
    hide *;
    var rows := SelectDays(segs, lo, hi);
    var collected, byDate := CollectDays(rows);
    DatesComplete(segs, lo, hi, rows, collected, byDate);
    if collected == [] {
      NothingLoaded(segs, lo, hi);
      return collected;
    }
    CollectedPlain(collected, byDate, DaySums(rows));
    var costRows := SelectCosts(segs, lo, hi);
    var costed := LoadCosts(costRows, collected, byDate);
    CostedPlain(collected, costed, byDate, CostSums(costRows));
    var modelRows := SelectModels(segs, lo, hi);
    var modelled, index := CollectModels(modelRows, costed, byDate);
    ModelledPlain(costed, modelled, ModelSums(modelRows));
    NoDayMissed(segs, lo, hi, rows, costRows, modelRows);
    KeysAreSums(collected, byDate, DaySums(rows));
    assert forall r | r in costRows :: r.date in byDate;
    var modelCostRows := SelectModelCosts(segs, lo, hi);
    NoModelMissed(segs, lo, hi, modelRows, modelCostRows, costed, byDate, modelled, index);
    assert forall r | r in modelCostRows :: (r.date, r.model) in index;
    var recosted := CollectModelCosts(modelCostRows, modelled, index);
    AllAssembled(segs, lo, hi, rows, costRows, modelRows, modelCostRows, byDate, collected, costed, modelled, recosted);
    AssembledKeys(segs, lo, hi, recosted);
    days := SortDetails(recosted);
    Viewed(segs, lo, hi, collected, recosted, days);
  }
}
