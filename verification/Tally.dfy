/** What usage records mean: sums of counters, with one sum per currency and per model. */
module Tally {
  import opened Usage
  import opened Grouping

  datatype Tally = Tally(
    input: int, output: int, cacheRead: int, cacheCreation: int, requests: int, tokens: int,
    aiu: Option<int>, costs: map<string, int>)

  const Zero := Tally(0, 0, 0, 0, 0, 0, None, map[])

  function Plus(a: int, b: int): int { a + b }

  /** An absent AIU figure stays absent only when both are absent. */
  function AddAIU(a: Option<int>, b: Option<int>): Option<int> {
    match (a, b)
    case (None, _) => b
    case (_, None) => a
    case (Some(x), Some(y)) => Some(x + y)
  }

  function Add(a: Tally, b: Tally): Tally {
    Tally(a.input + b.input, a.output + b.output, a.cacheRead + b.cacheRead,
          a.cacheCreation + b.cacheCreation, a.requests + b.requests, a.tokens + b.tokens,
          AddAIU(a.aiu, b.aiu), Merge(a.costs, b.costs, Plus))
  }

  lemma PlusAdditive()
    ensures Additive(Plus)
  {
  }

  lemma AddAdditive()
    ensures Additive(Add)
  {
    forall a: Tally, b: Tally, c: Tally {:trigger At(a, b, c)}
      ensures Add(a, b) == Add(b, a) && Add(Add(a, b), c) == Add(a, Add(b, c))
    {
      AddAssociates(a, b, c);
    }
  }

  lemma AddAssociates(a: Tally, b: Tally, c: Tally)
    ensures Add(Add(a, b), c) == Add(a, Add(b, c))
    ensures Add(a, b) == Add(b, a)
  {
    PlusAdditive();
    MergeAdditive(a.costs, b.costs, c.costs, Plus);
  }

  lemma AddZero(a: Tally)
    ensures Add(a, Zero) == a == Add(Zero, a)
  {
    PlusAdditive();
    MergeAdditive(a.costs, map[], map[], Plus);
  }

  // ---- from records to tallies

  function CurrencyOf(c: Cost): string { c.currency }

  function NanosOf(c: Cost): int { c.nanos }

  function CostMap(costs: seq<Cost>): map<string, int> {
    Group(costs, CurrencyOf, NanosOf, Plus)
  }

  function TallyOf(t: Totals): Tally {
    Tally(t.input, t.output, t.cacheRead, t.cacheCreation, t.requests, t.tokens, t.aiu, CostMap(t.costs))
  }

  function NameOf(m: Model): string { m.name }

  function ModelTally(m: Model): Tally { TallyOf(m.totals) }

  function ModelMap(models: seq<Model>): map<string, Tally> {
    Group(models, NameOf, ModelTally, Add)
  }

  // ---- totals together with their split by model

  datatype Breakdown = Breakdown(total: Tally, models: map<string, Tally>)

  const Nothing := Breakdown(Zero, map[])

  function Join(a: Breakdown, b: Breakdown): Breakdown {
    Breakdown(Add(a.total, b.total), Merge(a.models, b.models, Add))
  }

  lemma JoinAssociates(a: Breakdown, b: Breakdown, c: Breakdown)
    ensures Join(Join(a, b), c) == Join(a, Join(b, c))
    ensures Join(a, b) == Join(b, a)
  {
    AddAssociates(a.total, b.total, c.total);
    AddAdditive();
    MergeAdditive(a.models, b.models, c.models, Add);
  }

  lemma JoinAdditive()
    ensures Additive(Join)
  {
    forall a: Breakdown, b: Breakdown, c: Breakdown {:trigger At(a, b, c)}
      ensures Join(a, b) == Join(b, a) && Join(Join(a, b), c) == Join(a, Join(b, c))
    {
      JoinAssociates(a, b, c);
    }
  }

  lemma JoinNothing(a: Breakdown)
    ensures Join(a, Nothing) == a == Join(Nothing, a)
  {
    AddZero(a.total);
    AddAdditive();
    MergeAdditive(a.models, map[], map[], Add);
  }

  /** Sum over the values of a table. */
  ghost function SumOf(m: map<string, Tally>): Tally {
    if m == map[] then Zero
    else
      var k :| k in m;
      Add(SumOf(m - {k}), m[k])
  }

  lemma {:induction false} SumRemove(m: map<string, Tally>, k: string)
    requires k in m
    ensures SumOf(m) == Add(SumOf(m - {k}), m[k])
    decreases |m|
  {
    var l :| l in m && SumOf(m) == Add(SumOf(m - {l}), m[l]);
    if l != k {
      SumRemove(m - {l}, k);
      SumRemove(m - {k}, l);
      assert m - {l} - {k} == m - {k} - {l};
      var rest := SumOf(m - {l} - {k});
      AddAssociates(rest, m[k], m[l]);
      AddAssociates(rest, m[l], m[k]);
      AddAssociates(m[k], m[l], rest);
    }
  }

  lemma SumPut(m: map<string, Tally>, k: string, v: Tally)
    ensures SumOf(Put(m, k, v, Add)) == Add(SumOf(m), v)
  {
    var p := Put(m, k, v, Add);
    SumRemove(p, k);
    assert p - {k} == m - {k};
    if k in m {
      SumRemove(m, k);
      AddAssociates(SumOf(m - {k}), m[k], v);
    } else {
      assert m - {k} == m;
    }
  }

  lemma {:induction false} SumMerge(a: map<string, Tally>, b: map<string, Tally>)
    ensures SumOf(Merge(a, b, Add)) == Add(SumOf(a), SumOf(b))
    decreases |b|
  {
    AddAdditive();
    if b == map[] {
      MergeAdditive(a, map[], map[], Add);
      AddZero(SumOf(a));
    } else {
      var k :| k in b;
      var c := b - {k};
      assert Put(c, k, b[k], Add) == b;
      SumMerge(a, c);
      MergePut(a, c, k, b[k], Add);
      SumPut(Merge(a, c, Add), k, b[k]);
      SumPut(c, k, b[k]);
      AddAssociates(SumOf(a), SumOf(c), b[k]);
    }
  }

  /** The totals are the sum of the models. */
  ghost predicate Balanced(b: Breakdown) {
    b.total == SumOf(b.models)
  }

  lemma JoinBalanced(a: Breakdown, b: Breakdown)
    requires Balanced(a) && Balanced(b)
    ensures Balanced(Join(a, b))
  {
    SumMerge(a.models, b.models);
  }

  // ---- growth

  predicate AIUCovers(a: Option<int>, b: Option<int>) {
    a.Some? ==> b.Some? && a.value <= b.value
  }

  /** No figure of `a` is missing from `b`, or lower in it. */
  ghost predicate Covers(a: Tally, b: Tally) {
    && a.input <= b.input && a.output <= b.output && a.cacheRead <= b.cacheRead
    && a.cacheCreation <= b.cacheCreation && a.requests <= b.requests && a.tokens <= b.tokens
    && AIUCovers(a.aiu, b.aiu)
    && (forall c | c in a.costs :: c in b.costs && a.costs[c] <= b.costs[c])
  }

  ghost predicate BreakdownCovers(a: Breakdown, b: Breakdown) {
    && Covers(a.total, b.total)
    && (forall m | m in a.models :: m in b.models && Covers(a.models[m], b.models[m]))
  }

  ghost predicate NonNegative(t: Tally) {
    && 0 <= t.input && 0 <= t.output && 0 <= t.cacheRead
    && 0 <= t.cacheCreation && 0 <= t.requests && 0 <= t.tokens
    && (t.aiu.Some? ==> 0 <= t.aiu.value)
    && (forall c | c in t.costs :: 0 <= t.costs[c])
  }

  ghost predicate NoNegatives(b: Breakdown) {
    NonNegative(b.total) && forall m | m in b.models :: NonNegative(b.models[m])
  }

  lemma AddGrows(a: Tally, b: Tally, c: Tally)
    requires Covers(a, b) && NonNegative(b)
    ensures Covers(Add(c, a), Add(c, b))
  {
  }

  lemma AddNonNegative(a: Tally, b: Tally)
    requires NonNegative(b)
    ensures Covers(a, Add(a, b))
  {
  }

  lemma JoinGrows(a: Breakdown, b: Breakdown, c: Breakdown)
    requires BreakdownCovers(a, b) && NoNegatives(b)
    ensures BreakdownCovers(Join(c, a), Join(c, b))
  {
    AddGrows(a.total, b.total, c.total);
    forall m | m in Join(c, a).models
      ensures m in Join(c, b).models && Covers(Join(c, a).models[m], Join(c, b).models[m])
    {
      if m in c.models && m in a.models {
        AddGrows(a.models[m], b.models[m], c.models[m]);
      } else if m in c.models && m in b.models {
        AddNonNegative(c.models[m], b.models[m]);
      }
    }
  }

}
