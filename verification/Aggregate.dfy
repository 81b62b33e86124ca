/** internal/dashboard/aggregate.go: adding up totals, models and days. */
module Aggregate {
  import opened Usage
  import opened Grouping
  import opened Tally

  /** A day as the dashboard shows it. */
  datatype ChartDay = ChartDay(date: string, recorded: bool, totals: Totals, models: seq<Model>)

  const NoTotals := Totals(0, 0, 0, 0, 0, 0, None, [])

  function DayTally(day: Day): Tally {
    if day.totals.Some? then TallyOf(day.totals.value) else Zero
  }

  function DayBreakdown(day: Day): Breakdown {
    Breakdown(DayTally(day), ModelMap(day.models))
  }

  function DayDate(day: Day): string { day.date }

  function ChartDate(day: ChartDay): string { day.date }

  function ChartBreakdown(day: ChartDay): Breakdown {
    Breakdown(TallyOf(day.totals), ModelMap(day.models))
  }

  function DayMap(days: seq<Day>): map<string, Breakdown> {
    Group(days, DayDate, DayBreakdown, Join)
  }

  function ChartMap(days: seq<ChartDay>): map<string, Breakdown> {
    Group(days, ChartDate, ChartBreakdown, Join)
  }

  // ---- canonical forms: sorted, without duplicates

  ghost predicate Canonical(t: Totals) {
    Ascending(t.costs, CurrencyOf)
  }

  ghost predicate CanonicalModels(models: seq<Model>) {
    Ascending(models, NameOf) && forall m | m in models :: Canonical(m.totals)
  }

  ghost predicate CanonicalDay(day: ChartDay) {
    Canonical(day.totals) && CanonicalModels(day.models)
  }

  ghost predicate CanonicalChart(days: seq<ChartDay>) {
    Ascending(days, ChartDate) && forall d | d in days :: CanonicalDay(d)
  }

  lemma TotalsUnique(s: Totals, t: Totals)
    requires Canonical(s) && Canonical(t) && TallyOf(s) == TallyOf(t)
    ensures s == t
  {
    CanonicalUnique(s.costs, t.costs, CurrencyOf, NanosOf, Plus);
  }

  lemma ModelsUnique(s: seq<Model>, t: seq<Model>)
    requires CanonicalModels(s) && CanonicalModels(t) && ModelMap(s) == ModelMap(t)
    ensures s == t
  {
    forall x, y | x in s && y in t && NameOf(x) == NameOf(y) && ModelTally(x) == ModelTally(y)
      ensures x == y
    {
      TotalsUnique(x.totals, y.totals);
    }
    CanonicalUnique(s, t, NameOf, ModelTally, Add);
  }

  /** A chart in canonical form is determined by what it adds up to on each date. */
  lemma ChartUnique(s: seq<ChartDay>, t: seq<ChartDay>)
    requires CanonicalChart(s) && CanonicalChart(t) && ChartMap(s) == ChartMap(t)
    requires forall d | d in s || d in t :: d.recorded
    ensures s == t
  {
    forall x, y | x in s && y in t && ChartDate(x) == ChartDate(y) && ChartBreakdown(x) == ChartBreakdown(y)
      ensures x == y
    {
      TotalsUnique(x.totals, y.totals);
      ModelsUnique(x.models, y.models);
    }
    CanonicalUnique(s, t, ChartDate, ChartBreakdown, Join);
  }

  // ---- the operations

  method AddTotals(dst: Totals, src: Totals) returns (r: Totals)
    ensures TallyOf(r) == Add(TallyOf(dst), TallyOf(src))
    ensures Distinct(dst.costs, CurrencyOf) ==> Canonical(r)
  {
    var aiu := dst.aiu;
    if src.aiu.Some? {
      if aiu.None? {
        aiu := Some(0);
      }
      aiu := Some(aiu.value + src.aiu.value);
    }
    var costs := AddCosts(dst.costs, src.costs);
    r := Totals(dst.input + src.input, dst.output + src.output, dst.cacheRead + src.cacheRead,
                dst.cacheCreation + src.cacheCreation, dst.requests + src.requests, dst.tokens + src.tokens,
                aiu, costs);
  }

  /** The loop over the costs in `addTotals`, with the sort that follows it. */
  method AddCosts(dst: seq<Cost>, src: seq<Cost>) returns (r: seq<Cost>)
    ensures CostMap(r) == Merge(CostMap(dst), CostMap(src), Plus)
    ensures Distinct(dst, CurrencyOf) ==> Ascending(r, CurrencyOf)
  {
    r := dst;
    PlusAdditive();
    MergeAdditive(CostMap(dst), map[], map[], Plus);
    for i := 0 to |src|
      invariant CostMap(r) == Merge(CostMap(dst), CostMap(src[..i]), Plus)
      invariant Distinct(dst, CurrencyOf) ==> Distinct(r, CurrencyOf)
    {
      assert src[..i + 1] == src[..i] + [src[i]];
      GroupOne(src[..i], src[i], CurrencyOf, NanosOf, Plus);
      MergePut(CostMap(dst), CostMap(src[..i]), src[i].currency, src[i].nanos, Plus);
      r := AddCost(r, src[i]);
    }
    assert src[..|src|] == src;
    ghost var unsorted := r;
    r := SortByKey(r, CurrencyOf);
    GroupPermuted(unsorted, r, CurrencyOf, NanosOf, Plus);
  }

  /** One turn of that loop: find the currency or append it at zero, then add to it. */
  method AddCost(dst: seq<Cost>, cost: Cost) returns (r: seq<Cost>)
    ensures CostMap(r) == Put(CostMap(dst), cost.currency, cost.nanos, Plus)
    ensures Distinct(dst, CurrencyOf) ==> Distinct(r, CurrencyOf)
  {
    PlusAdditive();
    r := dst;
    var found := Find(r, CurrencyOf, cost.currency);
    var index := found;
    if index < 0 {
      r := r + [Cost(cost.currency, 0)];
      index := |r| - 1;
    }
    r := r[index := r[index].(nanos := r[index].nanos + cost.nanos)];
    Upsert(dst, found, r[index], cost.nanos, r, CurrencyOf, NanosOf, Plus);
  }

  method MergeModels(dst: seq<Model>, src: seq<Model>) returns (r: seq<Model>)
    ensures ModelMap(r) == Merge(ModelMap(dst), ModelMap(src), Add)
    ensures CanonicalModels(dst) ==> CanonicalModels(r)
  {
    r := dst;
    AddAdditive();
    MergeAdditive(ModelMap(dst), map[], map[], Add);
    if CanonicalModels(dst) {
      AscendingIsDistinct(dst, NameOf);
    }
    for i := 0 to |src|
      invariant ModelMap(r) == Merge(ModelMap(dst), ModelMap(src[..i]), Add)
      invariant CanonicalModels(dst) ==> Distinct(r, NameOf) && forall m | m in r :: Canonical(m.totals)
    {
      var model := src[i];
      assert src[..i + 1] == src[..i] + [model];
      GroupOne(src[..i], model, NameOf, ModelTally, Add);
      MergePut(ModelMap(dst), ModelMap(src[..i]), model.name, ModelTally(model), Add);
      r := AddModel(r, model);
    }
    assert src[..|src|] == src;
    ghost var unsorted := r;
    r := SortByKey(r, NameOf);
    GroupPermuted(unsorted, r, NameOf, ModelTally, Add);
    SameElements(unsorted, r);
  }

  /** One turn of the loop of `mergeModels`: find the model or append it empty, then add to it. */
  method AddModel(dst: seq<Model>, model: Model) returns (r: seq<Model>)
    ensures ModelMap(r) == Put(ModelMap(dst), model.name, ModelTally(model), Add)
    ensures Distinct(dst, NameOf) ==> Distinct(r, NameOf)
    ensures (forall m | m in dst :: Canonical(m.totals)) ==> forall m | m in r :: Canonical(m.totals)
  {
    r := dst;
    var found := Find(r, NameOf, model.name);
    var index := found;
    if index < 0 {
      r := r + [Model(model.name, NoTotals)];
      index := |r| - 1;
    }
    var target := r[index];
    CanonicalIsDistinct(target.totals);
    var sum := AddTotals(target.totals, model.totals);
    var grown := target.(totals := sum);
    r := r[index := grown];
    assert found < 0 ==> r == dst + [grown];
    UpsertModel(dst, found, target, grown, model, r);
  }

  lemma UpsertModel(dst: seq<Model>, found: int, target: Model, grown: Model, model: Model, r: seq<Model>)
    requires -1 <= found < |dst|
    requires target == if found < 0 then Model(model.name, NoTotals) else dst[found]
    requires target.name == grown.name == model.name
    requires ModelTally(grown) == Add(ModelTally(target), ModelTally(model))
    requires found < 0 ==> r == dst + [grown] && forall j | 0 <= j < |dst| :: NameOf(dst[j]) != model.name
    requires found >= 0 ==> r == dst[found := grown]
    ensures ModelMap(r) == Put(ModelMap(dst), model.name, ModelTally(model), Add)
    ensures Distinct(dst, NameOf) ==> Distinct(r, NameOf)
    ensures forall m | m in r :: m == grown || m in dst
  {
    if found < 0 {
      assert TallyOf(NoTotals) == Zero;
      AddZero(ModelTally(model));
    }
    AddAdditive();
    Upsert(dst, found, grown, ModelTally(model), r, NameOf, ModelTally, Add);
  }

  lemma UpsertDay(dst: seq<ChartDay>, found: int, target: ChartDay, grown: ChartDay, src: Day, r: seq<ChartDay>)
    requires -1 <= found < |dst|
    requires target == if found < 0 then ChartDay(src.date, true, NoTotals, []) else dst[found]
    requires target.date == grown.date == src.date
    requires ChartBreakdown(grown) == Join(ChartBreakdown(target), DayBreakdown(src))
    requires found < 0 ==> r == dst + [grown] && forall j | 0 <= j < |dst| :: ChartDate(dst[j]) != src.date
    requires found >= 0 ==> r == dst[found := grown]
    ensures ChartMap(r) == Put(ChartMap(dst), src.date, DayBreakdown(src), Join)
    ensures Sum(r, ChartBreakdown) == Join(Sum(dst, ChartBreakdown), DayBreakdown(src))
    ensures Distinct(dst, ChartDate) ==> Distinct(r, ChartDate)
    ensures forall d | d in r :: d == grown || d in dst
  {
    if found < 0 {
      assert ChartBreakdown(target) == Nothing;
      JoinNothing(DayBreakdown(src));
    }
    JoinAdditive();
    Upsert(dst, found, grown, DayBreakdown(src), r, ChartDate, ChartBreakdown, Join);
    if found < 0 {
      SumOne(dst, grown, ChartBreakdown);
    } else {
      SumUpdate(dst, found, grown, DayBreakdown(src), ChartBreakdown);
    }
  }

  lemma CanonicalIsDistinct(t: Totals)
    ensures Canonical(t) ==> Distinct(t.costs, CurrencyOf)
  {
    if Canonical(t) {
      AscendingIsDistinct(t.costs, CurrencyOf);
    }
  }

  method MergeDay(dst: seq<ChartDay>, src: Day) returns (r: seq<ChartDay>)
    requires src.totals.Some?
    ensures ChartMap(r) == Put(ChartMap(dst), src.date, DayBreakdown(src), Join)
    ensures Sum(r, ChartBreakdown) == Join(Sum(dst, ChartBreakdown), DayBreakdown(src))
    ensures CanonicalChart(dst) ==> CanonicalChart(r)
    ensures exists d :: d in r && d.date == src.date && d.recorded
    ensures forall d | d in r && d !in dst :: d.date == src.date && d.recorded
    ensures forall d | d in dst && d.date != src.date :: d in r
  {
    if CanonicalChart(dst) {
      AscendingIsDistinct(dst, ChartDate);
    }
    ghost var unsorted;
    r := AddDay(dst, src);
    unsorted := r;
    r := SortByKey(r, ChartDate);
    JoinAdditive();
    GroupPermuted(unsorted, r, ChartDate, ChartBreakdown, Join);
    SumPermuted(unsorted, r, ChartBreakdown);
    SameElements(unsorted, r);
  }

  /** `mergeDay` up to the final sort. */
  method AddDay(dst: seq<ChartDay>, src: Day) returns (r: seq<ChartDay>)
    requires src.totals.Some?
    ensures ChartMap(r) == Put(ChartMap(dst), src.date, DayBreakdown(src), Join)
    ensures Sum(r, ChartBreakdown) == Join(Sum(dst, ChartBreakdown), DayBreakdown(src))
    ensures Distinct(dst, ChartDate) ==> Distinct(r, ChartDate)
    ensures (forall d | d in dst :: CanonicalDay(d)) ==> forall d | d in r :: CanonicalDay(d)
    ensures exists d :: d in r && d.date == src.date && d.recorded
    ensures forall d | d in r && d !in dst :: d.date == src.date && d.recorded
    ensures forall d | d in dst && d.date != src.date :: d in r
  {
    r := dst;
    var found := Find(r, ChartDate, src.date);
    var index := found;
    if index < 0 {
      r := r + [ChartDay(src.date, true, NoTotals, [])];
      index := |r| - 1;
    }
    var target := r[index];
    var grown := GrowDay(target, src);
    r := r[index := grown];
    assert found < 0 ==> r == dst + [grown];
    UpsertDay(dst, found, target, grown, src, r);
    assert r[index] == grown;
    forall d | d in dst && d.date != src.date
      ensures d in r
    {
      var j :| 0 <= j < |dst| && dst[j] == d;
      assert r[j] == d;
    }
  }

  /** Adds the totals and models of `src` to the day it was matched with. */
  method GrowDay(target: ChartDay, src: Day) returns (grown: ChartDay)
    requires src.totals.Some?
    ensures grown.date == target.date && grown.recorded
    ensures ChartBreakdown(grown) == Join(ChartBreakdown(target), DayBreakdown(src))
    ensures CanonicalDay(target) ==> CanonicalDay(grown)
  {
    CanonicalIsDistinct(target.totals);
    var totals := AddTotals(target.totals, src.totals.value);
    var models := MergeModels(target.models, src.models);
    grown := target.(recorded := true, totals := totals, models := models);
  }

  // ---- sums over whole sequences

  function Everything<T>(x: T): string { "" }

  /** The sum of all values: the one group that is left when every element has the same key. */
  function Sum<T>(s: seq<T>, val: T -> Breakdown): Breakdown {
    var g := Group(s, x => Everything(x), val, Join);
    if "" in g then g[""] else Nothing
  }

  lemma SumOne<T>(s: seq<T>, x: T, val: T -> Breakdown)
    ensures Sum(s + [x], val) == Join(Sum(s, val), val(x))
  {
    GroupOne(s, x, y => Everything(y), val, Join);
    JoinNothing(val(x));
  }

  lemma SumPermuted<T>(s: seq<T>, t: seq<T>, val: T -> Breakdown)
    requires multiset(s) == multiset(t)
    ensures Sum(s, val) == Sum(t, val)
  {
    JoinAdditive();
    GroupPermuted(s, t, x => Everything(x), val, Join);
  }

  lemma SumUpdate<T>(s: seq<T>, i: nat, x: T, v: Breakdown, val: T -> Breakdown)
    requires i < |s| && val(x) == Join(val(s[i]), v)
    ensures Sum(s[i := x], val) == Join(Sum(s, val), v)
  {
    JoinAdditive();
    GroupUpdate(s, i, x, v, y => Everything(y), val, Join);
    JoinNothing(v);
  }

  lemma {:induction false} SumAppend<T>(s: seq<T>, t: seq<T>, val: T -> Breakdown)
    ensures Sum(s + t, val) == Join(Sum(s, val), Sum(t, val))
  {
    if t == [] {
      assert s + t == s;
      JoinNothing(Sum(s, val));
    } else {
      var init, x := t[..|t| - 1], t[|t| - 1];
      SumAppend(s, init, val);
      SumOne(s + init, x, val);
      SumOne(init, x, val);
      assert s + t == (s + init) + [x] && t == init + [x];
      JoinAssociates(Sum(s, val), Sum(init, val), val(x));
    }
  }

  lemma {:induction false} SumBalanced<T>(s: seq<T>, val: T -> Breakdown)
    requires forall x | x in s :: Balanced(val(x))
    ensures Balanced(Sum(s, val))
  {
    if s != [] {
      var init, x := s[..|s| - 1], s[|s| - 1];
      assert s == init + [x];
      SumBalanced(init, val);
      SumOne(init, x, val);
      JoinBalanced(Sum(init, val), val(x));
    }
  }

  // ---- the loops over days

  /** internal/dashboard/service.go, `summarizeDays`. */
  method SummarizeDays(days: seq<Day>) returns (totals: Totals, models: seq<Model>)
    requires forall d | d in days :: d.totals.Some?
    ensures Breakdown(TallyOf(totals), ModelMap(models)) == Sum(days, DayBreakdown)
    ensures Canonical(totals) && CanonicalModels(models)
  {
    totals, models := NoTotals, [];
    for i := 0 to |days|
      invariant Breakdown(TallyOf(totals), ModelMap(models)) == Sum(days[..i], DayBreakdown)
      invariant Canonical(totals) && CanonicalModels(models)
    {
      assert days[..i + 1] == days[..i] + [days[i]];
      SumOne(days[..i], days[i], DayBreakdown);
      assert days[i] in days;
      CanonicalIsDistinct(totals);
      totals := AddTotals(totals, days[i].totals.value);
      models := MergeModels(models, days[i].models);
    }
    assert days[..|days|] == days;
  }

  /** The loop of the dashboards that merges the days of one account into the chart. */
  method MergeDays(dst: seq<ChartDay>, days: seq<Day>) returns (r: seq<ChartDay>)
    requires forall d | d in days :: d.totals.Some?
    ensures ChartMap(r) == Merge(ChartMap(dst), DayMap(days), Join)
    ensures Sum(r, ChartBreakdown) == Join(Sum(dst, ChartBreakdown), Sum(days, DayBreakdown))
    ensures CanonicalChart(dst) ==> CanonicalChart(r)
    ensures (forall d | d in dst :: d.recorded) ==> forall d | d in r :: d.recorded
  {
    r := dst;
    JoinAdditive();
    MergeAdditive(ChartMap(dst), map[], map[], Join);
    JoinNothing(Sum(dst, ChartBreakdown));
    for i := 0 to |days|
      invariant ChartMap(r) == Merge(ChartMap(dst), DayMap(days[..i]), Join)
      invariant Sum(r, ChartBreakdown) == Join(Sum(dst, ChartBreakdown), Sum(days[..i], DayBreakdown))
      invariant CanonicalChart(dst) ==> CanonicalChart(r)
      invariant (forall d | d in dst :: d.recorded) ==> forall d | d in r :: d.recorded
    {
      var day := days[i];
      assert days[..i + 1] == days[..i] + [day];
      assert day in days;
      GroupOne(days[..i], day, DayDate, DayBreakdown, Join);
      MergePut(ChartMap(dst), DayMap(days[..i]), day.date, DayBreakdown(day), Join);
      SumOne(days[..i], day, DayBreakdown);
      JoinAssociates(Sum(dst, ChartBreakdown), Sum(days[..i], DayBreakdown), DayBreakdown(day));
      r := MergeDay(r, day);
    }
    assert days[..|days|] == days;
  }

  // ---- the order of the inputs does not matter

  /** Whatever canonical totals and models two orders of the same days are summed into, they are identical. */
  lemma SummaryOrderFree(days: seq<Day>, again: seq<Day>, t: Totals, m: seq<Model>, t': Totals, m': seq<Model>)
    requires multiset(days) == multiset(again)
    requires Canonical(t) && CanonicalModels(m) && Breakdown(TallyOf(t), ModelMap(m)) == Sum(days, DayBreakdown)
    requires Canonical(t') && CanonicalModels(m') && Breakdown(TallyOf(t'), ModelMap(m')) == Sum(again, DayBreakdown)
    ensures t == t' && m == m'
  {
    SumPermuted(days, again, DayBreakdown);
    TotalsUnique(t, t');
    ModelsUnique(m, m');
  }

  /** Merging the same days into a chart in any two orders gives the identical chart. */
  lemma ChartOrderFree(dst: seq<ChartDay>, days: seq<Day>, again: seq<Day>, r: seq<ChartDay>, r': seq<ChartDay>)
    requires multiset(days) == multiset(again)
    requires CanonicalChart(r) && ChartMap(r) == Merge(ChartMap(dst), DayMap(days), Join)
    requires CanonicalChart(r') && ChartMap(r') == Merge(ChartMap(dst), DayMap(again), Join)
    requires forall d | d in r || d in r' :: d.recorded
    ensures r == r'
  {
    JoinAdditive();
    GroupPermuted(days, again, DayDate, DayBreakdown, Join);
    ChartUnique(r, r');
  }
}
