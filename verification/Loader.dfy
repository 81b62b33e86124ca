/** internal/store/sqlite/store.go: loading the days of a period. */
module Loader {
  import opened Sorting
  import opened Usage
  import opened Grouping
  import opened Tally
  import opened Segments
  import opened Effects

  // ---- the four queries

  datatype DayRow = DayRow(segment: int, date: string, startMS: int, endMS: int, figures: Tally)
  datatype CostRow = CostRow(segment: int, date: string, currency: string, nanos: int)
  datatype ModelRow = ModelRow(segment: int, date: string, model: string, figures: Tally)
  datatype ModelCostRow = ModelCostRow(segment: int, date: string, model: string, currency: string, nanos: int)

  /** The counters and the AIU figure, without costs. */
  function Bare(t: Tally): Tally {
    t.(costs := map[])
  }

  predicate Selected(segs: seq<Segment>, s: int, d: string, lo: int, hi: int) {
    0 <= s < |segs| && d in segs[s].rows && lo <= segs[s].rows[d].startMS < hi
  }

  function DayRows(segs: seq<Segment>, lo: int, hi: int): set<DayRow> {
    set s, d | 0 <= s < |segs| && d in segs[s].rows && Selected(segs, s, d, lo, hi) ::
      DayRow(s, d, segs[s].rows[d].startMS, segs[s].rows[d].endMS, Bare(segs[s].rows[d].usage.total))
  }

  function CostRows(segs: seq<Segment>, lo: int, hi: int): set<CostRow> {
    set s, d, c | 0 <= s < |segs| && d in segs[s].rows && Selected(segs, s, d, lo, hi) && c in segs[s].rows[d].usage.total.costs ::
      CostRow(s, d, c, segs[s].rows[d].usage.total.costs[c])
  }

  function ModelRows(segs: seq<Segment>, lo: int, hi: int): set<ModelRow> {
    set s, d, m | 0 <= s < |segs| && d in segs[s].rows && Selected(segs, s, d, lo, hi) && m in segs[s].rows[d].usage.models ::
      ModelRow(s, d, m, Bare(segs[s].rows[d].usage.models[m]))
  }

  function ModelCostRows(segs: seq<Segment>, lo: int, hi: int): set<ModelCostRow> {
    set s, d, m, c | 0 <= s < |segs| && d in segs[s].rows && Selected(segs, s, d, lo, hi) && m in segs[s].rows[d].usage.models
                     && c in segs[s].rows[d].usage.models[m].costs ::
      ModelCostRow(s, d, m, c, segs[s].rows[d].usage.models[m].costs[c])
  }

  /** `rows` lists each row of `table` once. */
  ghost predicate Lists<T(!new)>(rows: seq<T>, table: set<T>) {
    && (forall r :: r in rows <==> r in table)
    && (forall i, j | 0 <= i < j < |rows| :: rows[i] != rows[j])
  }

  /** A SELECT: every matching row once, in the order asked for, ties in any order. */
  method Select<T(==, !new)>(table: set<T>, before: (T, T) -> bool) returns (rows: seq<T>)
    requires forall s: seq<T> :: WeakOrder(s, before)
    ensures Lists(rows, table) && Sorted(rows, before)
  {
    var found: seq<T> := [];
    var rest := table;
    while rest != {}
      invariant rest <= table
      invariant Lists(found, table - rest)
      decreases |rest|
    {
      var r :| r in rest;
      found, rest := found + [r], rest - {r};
    }
    rows := SortSlice(found, before);
    SameElements(found, rows);
    NoRepeats(found);
    NoRepeats(rows);
  }

  // ---- sums over segments and sums over rows

  /** The sum of the parts that the first `n` segments contribute. */
  function Parts<V>(part: int -> Option<V>, n: nat, add: (V, V) -> V): Option<V> {
    if n == 0 then None
    else
      var rest, last := Parts(part, n - 1, add), part(n - 1);
      if rest.None? then last else if last.None? then rest else Some(add(rest.value, last.value))
  }

  function Lookup<K(==), V>(m: map<K, V>, k: K): Option<V> {
    if k in m then Some(m[k]) else None
  }

  /** The rows with key `k` are the parts of the first `n` segments, each once. */
  ghost predicate RowsAreParts<K, T, V>(rows: seq<T>, k: K, key: T -> K, val: T -> V, segment: T -> int, part: int -> Option<V>, n: nat) {
    && (forall r | r in rows && key(r) == k :: 0 <= segment(r) < n && part(segment(r)) == Some(val(r)))
    && (forall i, j | 0 <= i < j < |rows| && key(rows[i]) == k && key(rows[j]) == k :: segment(rows[i]) != segment(rows[j]))
    && (forall s | 0 <= s < n && part(s).Some? :: exists r :: r in rows && key(r) == k && segment(r) == s)
  }

  /** However the rows are ordered, grouping them adds up the parts of the segments. */
  lemma {:induction false} GroupIsParts<K, T, V(!new)>(rows: seq<T>, k: K, key: T -> K, val: T -> V, add: (V, V) -> V,
                                                       segment: T -> int, part: int -> Option<V>, n: nat)
    requires Additive(add) && RowsAreParts(rows, k, key, val, segment, part, n)
    ensures Lookup(Group(rows, key, val, add), k) == Parts(part, n, add)
    decreases n
  {
    hide RowsAreParts, Group;
    if n == 0 {
      NoParts(rows, k, key, val, segment, part);
      NoSuchKey(rows, k, key, val, add);
    } else if part(n - 1).None? {
      PartsBelow(rows, k, key, val, segment, part, n);
      GroupIsParts(rows, k, key, val, add, segment, part, n - 1);
    } else {
      var i := RowOfPart(rows, k, key, val, segment, part, n);
      var rest := rows[..i] + rows[i + 1..];
      GroupExtract(rows, i, key, val, add);
      PartsWithout(rows, i, k, key, val, segment, part, n);
      GroupIsParts(rest, k, key, val, add, segment, part, n - 1);
    }
  }

  lemma NoParts<K, T, V>(rows: seq<T>, k: K, key: T -> K, val: T -> V, segment: T -> int, part: int -> Option<V>)
    requires RowsAreParts(rows, k, key, val, segment, part, 0)
    ensures forall r | r in rows :: key(r) != k
  {
  }

  lemma PartsBelow<K, T, V>(rows: seq<T>, k: K, key: T -> K, val: T -> V, segment: T -> int, part: int -> Option<V>, n: nat)
    requires 0 < n && part(n - 1).None? && RowsAreParts(rows, k, key, val, segment, part, n)
    ensures RowsAreParts(rows, k, key, val, segment, part, n - 1)
  {
  }

  /** The row that holds the part of the newest segment. */
  lemma RowOfPart<K, T, V>(rows: seq<T>, k: K, key: T -> K, val: T -> V, segment: T -> int, part: int -> Option<V>, n: nat) returns (i: nat)
    requires 0 < n && part(n - 1).Some? && RowsAreParts(rows, k, key, val, segment, part, n)
    ensures i < |rows| && key(rows[i]) == k && segment(rows[i]) == n - 1 && val(rows[i]) == part(n - 1).value
  {
    var r :| r in rows && key(r) == k && segment(r) == n - 1;
    i :| 0 <= i < |rows| && rows[i] == r;
  }

  lemma {:induction false} NoSuchKey<K, T, V>(rows: seq<T>, k: K, key: T -> K, val: T -> V, add: (V, V) -> V)
    requires forall r | r in rows :: key(r) != k
    ensures k !in Group(rows, key, val, add)
  {
    if rows != [] {
      assert rows == rows[..|rows| - 1] + [rows[|rows| - 1]];
      NoSuchKey(rows[..|rows| - 1], k, key, val, add);
    }
  }

  lemma PartsWithout<K, T, V>(rows: seq<T>, i: nat, k: K, key: T -> K, val: T -> V, segment: T -> int, part: int -> Option<V>, n: nat)
    requires 0 < n && i < |rows| && key(rows[i]) == k && segment(rows[i]) == n - 1
    requires RowsAreParts(rows, k, key, val, segment, part, n)
    ensures RowsAreParts(rows[..i] + rows[i + 1..], k, key, val, segment, part, n - 1)
  {
    var rest := rows[..i] + rows[i + 1..];
    forall j | 0 <= j < |rest|
      ensures rest[j] == rows[if j < i then j else j + 1]
    {
    }
    forall r | r in rest && key(r) == k
      ensures 0 <= segment(r) < n - 1 && part(segment(r)) == Some(val(r))
    {
      var j :| 0 <= j < |rest| && rest[j] == r;
      assert rows[if j < i then j else j + 1] == r;
    }
    forall s | 0 <= s < n - 1 && part(s).Some?
      ensures exists r :: r in rest && key(r) == k && segment(r) == s
    {
      var r :| r in rows && key(r) == k && segment(r) == s;
      var j :| 0 <= j < |rows| && rows[j] == r;
      assert rest[if j < i then j else j - 1] == r;
    }
  }

  // ---- the parts of a figure, query by query

  function CombineFigures(a: Figure, b: Figure): Figure {
    Figure(Min(a.startMS, b.startMS), Max(a.endMS, b.endMS), Join(a.usage, b.usage))
  }

  lemma CombineAdditive()
    ensures Additive(CombineFigures)
  {
    forall a: Figure, b: Figure, c: Figure {:trigger At(a, b, c)}
      ensures CombineFigures(a, b) == CombineFigures(b, a)
      ensures CombineFigures(CombineFigures(a, b), c) == CombineFigures(a, CombineFigures(b, c))
    {
      JoinAssociates(a.usage, b.usage, c.usage);
    }
  }

  function BareFigure(f: Option<Figure>): Option<Figure> {
    if f.Some? then Some(Figure(f.value.startMS, f.value.endMS, Breakdown(Bare(f.value.usage.total), map[]))) else None
  }

  function CostIn(f: Option<Figure>, c: string): Option<int> {
    if f.Some? then Lookup(f.value.usage.total.costs, c) else None
  }

  function ModelIn(f: Option<Figure>, m: string): Option<Tally> {
    if f.Some? && m in f.value.usage.models then Some(Bare(f.value.usage.models[m])) else None
  }

  function ModelCostIn(f: Option<Figure>, m: string, c: string): Option<int> {
    if f.Some? && m in f.value.usage.models then Lookup(f.value.usage.models[m].costs, c) else None
  }

  function PartOf(segs: seq<Segment>, s: int, d: string, lo: int, hi: int): Option<Figure> {
    if 0 <= s < |segs| then FigureIn(segs[s], d, lo, hi) else None
  }

  lemma {:induction false} DayParts(segs: seq<Segment>, d: string, lo: int, hi: int, n: nat)
    requires n <= |segs|
    ensures Parts(s => BareFigure(PartOf(segs, s, d, lo, hi)), n, CombineFigures) == BareFigure(FigureAt(segs[..n], d, lo, hi))
    decreases n
  {
    if n > 0 {
      DayParts(segs, d, lo, hi, n - 1);
      assert segs[..n][..n - 1] == segs[..n - 1];
      MergeEmpty();
    }
  }

  lemma MergeEmpty()
    ensures Merge<string, int>(map[], map[], Plus) == map[]
    ensures Merge<string, Tally>(map[], map[], Add) == map[]
  {
  }

  lemma {:induction false} CostParts(segs: seq<Segment>, d: string, c: string, lo: int, hi: int, n: nat)
    requires n <= |segs|
    ensures Parts(s => CostIn(PartOf(segs, s, d, lo, hi), c), n, Plus) == CostIn(FigureAt(segs[..n], d, lo, hi), c)
    decreases n
  {
    if n > 0 {
      CostParts(segs, d, c, lo, hi, n - 1);
      assert segs[..n][..n - 1] == segs[..n - 1];
    }
  }

  lemma {:induction false} ModelParts(segs: seq<Segment>, d: string, m: string, lo: int, hi: int, n: nat)
    requires n <= |segs|
    ensures Parts(s => ModelIn(PartOf(segs, s, d, lo, hi), m), n, Add) == ModelIn(FigureAt(segs[..n], d, lo, hi), m)
    decreases n
  {
    if n > 0 {
      ModelParts(segs, d, m, lo, hi, n - 1);
      assert segs[..n][..n - 1] == segs[..n - 1];
      MergeEmpty();
    }
  }

  lemma {:induction false} ModelCostParts(segs: seq<Segment>, d: string, m: string, c: string, lo: int, hi: int, n: nat)
    requires n <= |segs|
    ensures Parts(s => ModelCostIn(PartOf(segs, s, d, lo, hi), m, c), n, Plus) == ModelCostIn(FigureAt(segs[..n], d, lo, hi), m, c)
    decreases n
  {
    if n > 0 {
      ModelCostParts(segs, d, m, c, lo, hi, n - 1);
      assert segs[..n][..n - 1] == segs[..n - 1];
    }
  }

  // ---- what each query adds up to

  function DayRowDate(r: DayRow): string { r.date }
  function DayRowFigure(r: DayRow): Figure { Figure(r.startMS, r.endMS, Breakdown(r.figures, map[])) }
  function DayRowSegment(r: DayRow): int { r.segment }
  function CostRowKey(r: CostRow): (string, string) { (r.date, r.currency) }
  function CostRowNanos(r: CostRow): int { r.nanos }
  function CostRowSegment(r: CostRow): int { r.segment }
  function ModelRowKey(r: ModelRow): (string, string) { (r.date, r.model) }
  function ModelRowFigures(r: ModelRow): Tally { r.figures }
  function ModelRowSegment(r: ModelRow): int { r.segment }
  function ModelCostRowKey(r: ModelCostRow): (string, string, string) { (r.date, r.model, r.currency) }
  function ModelCostRowNanos(r: ModelCostRow): int { r.nanos }
  function ModelCostRowSegment(r: ModelCostRow): int { r.segment }

  function DaySums(rows: seq<DayRow>): map<string, Figure> {
    Group(rows, DayRowDate, DayRowFigure, CombineFigures)
  }

  function CostSums(rows: seq<CostRow>): map<(string, string), int> {
    Group(rows, CostRowKey, CostRowNanos, Plus)
  }

  function ModelSums(rows: seq<ModelRow>): map<(string, string), Tally> {
    Group(rows, ModelRowKey, ModelRowFigures, Add)
  }

  function ModelCostSums(rows: seq<ModelCostRow>): map<(string, string, string), int> {
    Group(rows, ModelCostRowKey, ModelCostRowNanos, Plus)
  }

  lemma DayQuery(rows: seq<DayRow>, segs: seq<Segment>, lo: int, hi: int, d: string)
    requires Lists(rows, DayRows(segs, lo, hi))
    ensures Lookup(DaySums(rows), d) == BareFigure(FigureAt(segs, d, lo, hi))
  {
    hide Bare, FigureAt, Group, Join;
    var part := s => BareFigure(PartOf(segs, s, d, lo, hi));
    assert RowsAreParts(rows, d, DayRowDate, DayRowFigure, DayRowSegment, part, |segs|) by {
      forall r | r in rows && DayRowDate(r) == d
        ensures Selected(segs, r.segment, d, lo, hi)
        ensures r == DayRow(r.segment, d, segs[r.segment].rows[d].startMS, segs[r.segment].rows[d].endMS, Bare(segs[r.segment].rows[d].usage.total))
      {
        assert r in DayRows(segs, lo, hi);
      }
      forall s | 0 <= s < |segs| && part(s).Some?
        ensures exists r :: r in rows && DayRowDate(r) == d && DayRowSegment(r) == s
      {
        var r := DayRow(s, d, segs[s].rows[d].startMS, segs[s].rows[d].endMS, Bare(segs[s].rows[d].usage.total));
        assert Selected(segs, s, d, lo, hi);
        assert r in DayRows(segs, lo, hi);
      }
    }
    CombineAdditive();
    GroupIsParts(rows, d, DayRowDate, DayRowFigure, CombineFigures, DayRowSegment, part, |segs|);
    DayParts(segs, d, lo, hi, |segs|);
    assert segs[..|segs|] == segs;
  }

  lemma CostQuery(rows: seq<CostRow>, segs: seq<Segment>, lo: int, hi: int, d: string, c: string)
    requires Lists(rows, CostRows(segs, lo, hi))
    ensures Lookup(CostSums(rows), (d, c)) == CostIn(FigureAt(segs, d, lo, hi), c)
  {
    hide FigureAt, Group, Join;
    var part := s => CostIn(PartOf(segs, s, d, lo, hi), c);
    assert RowsAreParts(rows, (d, c), CostRowKey, CostRowNanos, CostRowSegment, part, |segs|) by {
      forall r | r in rows && CostRowKey(r) == (d, c)
        ensures Selected(segs, r.segment, d, lo, hi) && c in segs[r.segment].rows[d].usage.total.costs
        ensures r == CostRow(r.segment, d, c, segs[r.segment].rows[d].usage.total.costs[c])
      {
        assert r in CostRows(segs, lo, hi);
      }
      forall s | 0 <= s < |segs| && part(s).Some?
        ensures exists r :: r in rows && CostRowKey(r) == (d, c) && CostRowSegment(r) == s
      {
        var r := CostRow(s, d, c, segs[s].rows[d].usage.total.costs[c]);
        assert Selected(segs, s, d, lo, hi);
        assert r in CostRows(segs, lo, hi);
      }
    }
    PlusAdditive();
    GroupIsParts(rows, (d, c), CostRowKey, CostRowNanos, Plus, CostRowSegment, part, |segs|);
    CostParts(segs, d, c, lo, hi, |segs|);
    assert segs[..|segs|] == segs;
  }

  lemma ModelQuery(rows: seq<ModelRow>, segs: seq<Segment>, lo: int, hi: int, d: string, m: string)
    requires Lists(rows, ModelRows(segs, lo, hi))
    ensures Lookup(ModelSums(rows), (d, m)) == ModelIn(FigureAt(segs, d, lo, hi), m)
  {
    hide Bare, FigureAt, Group, Join;
    var part := s => ModelIn(PartOf(segs, s, d, lo, hi), m);
    assert RowsAreParts(rows, (d, m), ModelRowKey, ModelRowFigures, ModelRowSegment, part, |segs|) by {
      forall r | r in rows && ModelRowKey(r) == (d, m)
        ensures Selected(segs, r.segment, d, lo, hi) && m in segs[r.segment].rows[d].usage.models
        ensures r == ModelRow(r.segment, d, m, Bare(segs[r.segment].rows[d].usage.models[m]))
      {
        assert r in ModelRows(segs, lo, hi);
      }
      forall s | 0 <= s < |segs| && part(s).Some?
        ensures exists r :: r in rows && ModelRowKey(r) == (d, m) && ModelRowSegment(r) == s
      {
        var r := ModelRow(s, d, m, Bare(segs[s].rows[d].usage.models[m]));
        assert Selected(segs, s, d, lo, hi);
        assert r in ModelRows(segs, lo, hi);
      }
    }
    AddAdditive();
    GroupIsParts(rows, (d, m), ModelRowKey, ModelRowFigures, Add, ModelRowSegment, part, |segs|);
    ModelParts(segs, d, m, lo, hi, |segs|);
    assert segs[..|segs|] == segs;
  }

  lemma ModelCostQuery(rows: seq<ModelCostRow>, segs: seq<Segment>, lo: int, hi: int, d: string, m: string, c: string)
    requires Lists(rows, ModelCostRows(segs, lo, hi))
    ensures Lookup(ModelCostSums(rows), (d, m, c)) == ModelCostIn(FigureAt(segs, d, lo, hi), m, c)
  {
    hide FigureAt, Group, Join;
    var part := s => ModelCostIn(PartOf(segs, s, d, lo, hi), m, c);
    assert RowsAreParts(rows, (d, m, c), ModelCostRowKey, ModelCostRowNanos, ModelCostRowSegment, part, |segs|) by {
      forall r | r in rows && ModelCostRowKey(r) == (d, m, c)
        ensures Selected(segs, r.segment, d, lo, hi) && m in segs[r.segment].rows[d].usage.models && c in segs[r.segment].rows[d].usage.models[m].costs
        ensures r == ModelCostRow(r.segment, d, m, c, segs[r.segment].rows[d].usage.models[m].costs[c])
      {
        assert r in ModelCostRows(segs, lo, hi);
      }
      forall s | 0 <= s < |segs| && part(s).Some?
        ensures exists r :: r in rows && ModelCostRowKey(r) == (d, m, c) && ModelCostRowSegment(r) == s
      {
        var r := ModelCostRow(s, d, m, c, segs[s].rows[d].usage.models[m].costs[c]);
        assert Selected(segs, s, d, lo, hi);
        assert r in ModelCostRows(segs, lo, hi);
      }
    }
    PlusAdditive();
    GroupIsParts(rows, (d, m, c), ModelCostRowKey, ModelCostRowNanos, Plus, ModelCostRowSegment, part, |segs|);
    ModelCostParts(segs, d, m, c, lo, hi, |segs|);
    assert segs[..|segs|] == segs;
  }
}
