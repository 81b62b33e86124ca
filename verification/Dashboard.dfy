/** internal/dashboard/service.go: the dashboard over persisted usage. */
module Dashboard {
  import opened Text
  import opened Usage
  import opened Grouping
  import opened Tally
  import opened Aggregate
  import opened Calendar
  import opened Filling
  import opened Segments
  import opened Effects
  import opened Losses
  import opened Loader
  import opened Load
  import opened Registry
  import opened Store
  import opened Discovery
  import opened Origins
  import opened Gathering

  datatype AccountView = AccountView(login: string, totals: Option<Totals>)

  datatype Problem = NotSynchronized(target: string) | Unreadable(target: string, error: SaveError) | Unavailable(login: string)

  datatype Data = Data(
    accounts: seq<AccountView>, totals: Option<Totals>, models: seq<Model>, days: Option<seq<ChartDay>>, problems: seq<Problem>)

  /** The sum of the account totals that are there. */
  function SumAccounts(accounts: seq<AccountView>): Tally {
    if accounts == [] then Zero
    else
      var last := accounts[|accounts| - 1].totals;
      Add(SumAccounts(accounts[..|accounts| - 1]), if last.Some? then TallyOf(last.value) else Zero)
  }

  function ChartOf(days: Option<seq<ChartDay>>): seq<ChartDay> {
    if days.Some? then days.value else []
  }

  function TotalsShown(data: Data): Breakdown {
    Breakdown(if data.totals.Some? then TallyOf(data.totals.value) else Zero, ModelMap(data.models))
  }

  /** The grand totals are the sum of the account totals, and with their models the sum of the chart. */
  ghost predicate Agrees(data: Data) {
    && TotalsShown(data).total == SumAccounts(data.accounts)
    && TotalsShown(data) == Sum(ChartOf(data.days), ChartBreakdown)
    && (data.totals.Some? <==> exists a :: a in data.accounts && a.totals.Some?)
    && (data.totals.Some? <==> data.days.Some?)
  }

  ghost predicate Tidy(data: Data) {
    && (data.totals.Some? ==> Canonical(data.totals.value)) && CanonicalModels(data.models)
    && CanonicalChart(ChartOf(data.days))
  }

  /** `days` is what the store holds of the account for the period, when the account is chosen and known. */
  ghost predicate IsLoaded(tables: Tables, days: Option<seq<Day>>, account: Resolved, period: string, login: string, now: int)
    requires ValidNow(now)
  {
    if login != "" && !SameLetters(login, account.login) then days.None?
    else match AccountAt(tables, account.endpoint.name, account.endpoint.url, account.login)
      case Ok(Some(row)) => days.Some? && IsView(days.value, row.segments, PeriodStart(period, now), now + 1)
      case _ => days.None?
  }

  /** The view of an account shows the sum of its loaded days, and no figures when nothing was loaded. */
  predicate Shows(view: AccountView, account: Resolved, days: Option<seq<Day>>) {
    && view.login == account.login
    && (view.totals.Some? <==> days.Some?)
    && (days.Some? ==> TallyOf(view.totals.value) == Sum(days.value, DayBreakdown).total)
  }

  /** What is reported about an account that was asked for. */
  ghost function AccountProblem(tables: Tables, account: Resolved, login: string): Option<Problem> {
    if login != "" && !SameLetters(login, account.login) then None
    else match AccountAt(tables, account.endpoint.name, account.endpoint.url, account.login)
      case Ok(Some(_)) => None
      case Ok(None) => Some(NotSynchronized(account.endpoint.name))
      case Err(e) => Some(Unreadable(account.endpoint.name, e))
  }

  function Listed<T>(x: Option<T>): seq<T> {
    if x.Some? then [x.value] else []
  }

  /** The problem of the account at a place, in the tables that its load found. */
  ghost function ProblemAt(tables: seq<Tables>, accounts: seq<Resolved>, login: string): int -> Option<Problem>
    requires |tables| == |accounts|
  {
    i => if 0 <= i < |accounts| then AccountProblem(tables[i], accounts[i], login) else None
  }

  ghost function Problems(tables: seq<Tables>, accounts: seq<Resolved>, login: string, n: nat): seq<Problem>
    requires n <= |tables| == |accounts|
  {
    Gathered(ProblemAt(tables, accounts, login), n)
  }

  /** The loaded days of all accounts, one after the other. */
  function AllDays(loaded: seq<Option<seq<Day>>>): seq<Day> {
    if loaded == [] then []
    else
      var last := loaded[|loaded| - 1];
      AllDays(loaded[..|loaded| - 1]) + (if last.Some? then last.value else [])
  }

  lemma AllDaysOne(loaded: seq<Option<seq<Day>>>, days: Option<seq<Day>>)
    ensures DayMap(AllDays(loaded + [days])) == Merge(DayMap(AllDays(loaded)), DayMap(if days.Some? then days.value else []), Join)
    ensures Sum(AllDays(loaded + [days]), DayBreakdown) == Join(Sum(AllDays(loaded), DayBreakdown), Sum(if days.Some? then days.value else [], DayBreakdown))
  {
    assert (loaded + [days])[..|loaded|] == loaded;
    JoinAdditive();
    SumAppend(AllDays(loaded), if days.Some? then days.value else [], DayBreakdown);
    hide Sum;
    GroupAppend(AllDays(loaded), if days.Some? then days.value else [], DayDate, DayBreakdown, Join);
  }

  /** The chart has, for each date with loaded days, their sum over all accounts; any other day in it is empty. */
  ghost predicate Charts(chart: seq<ChartDay>, days: seq<Day>) {
    && (forall date | date in DayMap(days) :: HasDate(chart, date))
    && (forall d | d in chart :: if d.date in DayMap(days) then d.recorded && ChartBreakdown(d) == DayMap(days)[d.date] else d == EmptyDay(d.date))
  }

  // ---- views

  lemma ViewTotals(days: seq<Day>, segs: seq<Segment>, lo: int, hi: int)
    requires IsView(days, segs, lo, hi)
    ensures forall day | day in days :: day.totals.Some?
    ensures AllBalanced(segs) ==> Balanced(Sum(days, DayBreakdown))
  {
    hide FigureAt, DayBreakdown, Balanced, Sum, Canonical, CanonicalModels;
    if AllBalanced(segs) {
      forall day | day in days
        ensures Balanced(DayBreakdown(day))
      {
        assert ViewDay(day, segs, lo, hi);
        FigureBalanced(segs, day.date, lo, hi);
      }
      SumBalanced(days, DayBreakdown);
    }
    forall day | day in days
      ensures day.totals.Some?
    {
      assert ViewDay(day, segs, lo, hi);
    }
  }

  lemma {:induction false} FigureRow(segs: seq<Segment>, d: string, lo: int, hi: int)
    requires FigureAt(segs, d, lo, hi).Some?
    ensures exists i :: 0 <= i < |segs| && d in segs[i].rows && lo <= segs[i].rows[d].startMS < hi
  {
    var init, last := segs[..|segs| - 1], segs[|segs| - 1];
    if FigureIn(last, d, lo, hi).None? {
      FigureRow(init, d, lo, hi);
      var i :| 0 <= i < |init| && d in init[i].rows && lo <= init[i].rows[d].startMS < hi;
      assert segs[i] == init[i];
    }
  }

  /** A row that starts in its own day is loaded for a window only if its date is in the window. */
  lemma ViewInWindow(days: seq<Day>, segs: seq<Segment>, period: string, now: int)
    requires ValidNow(now) && Windowed(period) && Labelled(segs)
    requires IsView(days, segs, PeriodStart(period, now), now + 1)
    ensures InRange(WindowStart(period, Today(now))) && WindowStart(period, Today(now)) <= Today(now)
    ensures forall day | day in days :: day.date in Span(WindowStart(period, Today(now)), Today(now) + 1)
  {
    hide FigureAt, Format, WindowStart, DayBreakdown, Canonical, CanonicalModels;
    var today := Today(now);
    WindowStarts(period, today);
    var start := WindowStart(period, today);
    forall day | day in days
      ensures day.date in Span(start, today + 1)
    {
      assert ViewDay(day, segs, PeriodStart(period, now), now + 1);
      FigureRow(segs, day.date, PeriodStart(period, now), now + 1);
      var i :| 0 <= i < |segs| && day.date in segs[i].rows && start * DAY_MS <= segs[i].rows[day.date].startMS < now + 1;
      var n := segs[i].rows[day.date].startMS / DAY_MS;
      assert start <= n <= today;
      assert Span(start, today + 1)[n - start] == Format(n);
    }
  }

  // ---- one account

  lemma SumAccountsOne(accounts: seq<AccountView>, view: AccountView)
    ensures SumAccounts(accounts + [view]) == Add(SumAccounts(accounts), if view.totals.Some? then TallyOf(view.totals.value) else Zero)
  {
    assert (accounts + [view])[..|accounts|] == accounts;
  }

  /** An account without figures changes nothing. */
  lemma AddView(data: Data, view: AccountView)
    requires Agrees(data) && Tidy(data) && view.totals.None?
    ensures Agrees(data.(accounts := data.accounts + [view])) && Tidy(data.(accounts := data.accounts + [view]))
  {
    hide Add, Sum, TallyOf, ModelMap, Canonical, CanonicalModels, CanonicalChart;
    SumAccountsOne(data.accounts, view);
    AddZero(SumAccounts(data.accounts));
    var accounts := data.accounts + [view];
    assert forall a | a in data.accounts :: a in accounts;
  }

  /** Adds the days of an account, whose view is the last, to all that is shown. */
  method AddAccount(data: Data, days: seq<Day>) returns (r: Data)
    requires data.accounts != [] && data.accounts[|data.accounts| - 1].totals.None?
    requires forall day | day in days :: day.totals.Some?
    requires Agrees(data) && Tidy(data) && forall d | d in ChartOf(data.days) :: d.recorded
    ensures Agrees(r) && Tidy(r) && r.days.Some? && forall d | d in ChartOf(r.days) :: d.recorded
    ensures r.problems == data.problems && |r.accounts| == |data.accounts|
    ensures forall i | 0 <= i < |data.accounts| - 1 :: r.accounts[i] == data.accounts[i]
    ensures var view := r.accounts[|r.accounts| - 1];
      && view.login == data.accounts[|data.accounts| - 1].login
      && view.totals.Some? && TallyOf(view.totals.value) == Sum(days, DayBreakdown).total
    ensures TotalsShown(r) == Join(TotalsShown(data), Sum(days, DayBreakdown))
    ensures ChartMap(ChartOf(r.days)) == Merge(ChartMap(ChartOf(data.days)), DayMap(days), Join)
  {
    hide TallyOf, ModelMap, Sum, Add, Join, ChartMap, DayMap, Canonical, CanonicalModels, CanonicalChart;
    NoFigures();
    var accountTotals, accountModels := SummarizeDays(days);
    var last := |data.accounts| - 1;
    r := data.(accounts := data.accounts[last := data.accounts[last].(totals := Some(accountTotals))]);
    if r.totals.None? {
      NothingShown(data);
      r := r.(totals := Some(NoTotals), models := [], days := Some([]));
    }
    CanonicalDistinct(r.totals.value);
    var totals := AddTotals(r.totals.value, accountTotals);
    var models := MergeModels(r.models, accountModels);
    var chart := MergeDays(r.days.value, days);
    r := r.(totals := Some(totals), models := models, days := Some(chart));
    AccountAdded(data, r.accounts, accountTotals);
    ShownAdded(TotalsShown(data), Sum(days, DayBreakdown), TotalsShown(r));
  }

  lemma NoFigures()
    ensures TallyOf(NoTotals) == Zero && ModelMap([]) == map[] && Sum<ChartDay>([], ChartBreakdown) == Nothing
    ensures Canonical(NoTotals) && CanonicalModels([]) && CanonicalChart([])
  {
  }

  lemma CanonicalDistinct(t: Totals)
    requires Canonical(t)
    ensures Distinct(t.costs, CurrencyOf)
  {
    AscendingIsDistinct(t.costs, CurrencyOf);
  }

  /** Before any figures there are no models and no totals. */
  lemma NothingShown(data: Data)
    requires Agrees(data) && data.totals.None?
    ensures ModelMap(data.models) == map[]
  {
    hide ModelMap, TallyOf, Sum;
    NoFigures();
  }

  lemma AccountAdded(data: Data, accounts: seq<AccountView>, totals: Totals)
    requires data.accounts != [] && data.accounts[|data.accounts| - 1].totals.None?
    requires accounts == data.accounts[|data.accounts| - 1 := data.accounts[|data.accounts| - 1].(totals := Some(totals))]
    ensures SumAccounts(accounts) == Add(SumAccounts(data.accounts), TallyOf(totals))
    ensures exists a :: a in accounts && a.totals.Some?
  {
    hide Add, TallyOf;
    var n := |data.accounts| - 1;
    assert accounts == data.accounts[..n] + [accounts[n]] && data.accounts == data.accounts[..n] + [data.accounts[n]];
    SumAccountsOne(data.accounts[..n], accounts[n]);
    SumAccountsOne(data.accounts[..n], data.accounts[n]);
    AddZero(SumAccounts(data.accounts[..n]));
    assert accounts[n] in accounts;
  }

  lemma ShownAdded(before: Breakdown, added: Breakdown, after: Breakdown)
    requires after.total == Add(before.total, added.total) && after.models == Merge(before.models, added.models, Add)
    ensures after == Join(before, added)
  {
  }

  // ---- the whole dashboard

  /** What holds of the data after each account; `balanced` says whether all stored days are the sums of their models. */
  ghost predicate Sound(data: Data, balanced: bool) {
    && Agrees(data) && Tidy(data)
    && (forall d | d in ChartOf(data.days) :: d.recorded)
    && (balanced ==> Balanced(TotalsShown(data)))
  }

  lemma NothingYet(balanced: bool)
    ensures Sound(Data([], None, [], None, []), balanced)
  {
    hide TallyOf, ModelMap, Canonical, CanonicalModels, CanonicalChart, SumOf, Sum;
    NoFigures();
    NoSum();
  }

  lemma NoSum()
    ensures SumOf(map[]) == Zero
  {
  }

  /** What `Sound` asks besides agreement depends only on the figures. */
  lemma SameFigures(data: Data, after: Data, balanced: bool)
    requires Sound(data, balanced) && Agrees(after) && Tidy(after)
    requires after.totals == data.totals && after.models == data.models && after.days == data.days
    ensures Sound(after, balanced)
  {
    hide Agrees, Tidy, Balanced, TallyOf, ModelMap, Canonical, CanonicalModels, CanonicalChart;
  }

  lemma ProblemsSound(data: Data, problems: seq<Problem>, balanced: bool)
    requires Sound(data, balanced)
    ensures Sound(data.(problems := problems), balanced)
  {
  }

  lemma AccountSound(row: Account, before: Data, days: seq<Day>, after: Data, lo: int, hi: int, balanced: bool)
    requires Sound(before, balanced) && IsView(days, row.segments, lo, hi) && (balanced ==> AllBalanced(row.segments))
    requires Agrees(after) && Tidy(after) && forall d | d in ChartOf(after.days) :: d.recorded
    requires TotalsShown(after) == Join(TotalsShown(before), Sum(days, DayBreakdown))
    ensures Sound(after, balanced)
  {
    hide Join, Sum, Balanced, IsView, TotalsShown, Agrees, Tidy, AllBalanced;
    ViewTotals(days, row.segments, lo, hi);
    if balanced {
      JoinBalanced(TotalsShown(before), Sum(days, DayBreakdown));
    }
  }

  /** The tables that the read transactions find. */
  ghost function Found(stores: seq<Store>): (tables: seq<Tables>)
    reads stores
    ensures |tables| == |stores| && forall i | 0 <= i < |stores| :: tables[i] == stores[i].Contents()
  {
    seq(|stores|, i requires 0 <= i < |stores| reads stores => stores[i].Contents())
  }

  ghost predicate StoresBalanced(tables: seq<Tables>) {
    forall t | t in tables :: StoreBalanced(t)
  }

  /** The first `n` accounts were loaded and are shown. */
  ghost predicate Collected(tables: seq<Tables>, nows: seq<int>, accounts: seq<Resolved>, period: string, login: string,
                            views: seq<AccountView>, loaded: seq<Option<seq<Day>>>, n: nat)
    requires n <= |tables| == |nows| == |accounts| && forall now | now in nows :: ValidNow(now)
  {
    && |views| == |loaded| == n
    && (forall i | 0 <= i < n :: IsLoaded(tables[i], loaded[i], accounts[i], period, login, nows[i]))
    && (forall i | 0 <= i < n :: Shows(views[i], accounts[i], loaded[i]))
  }

  lemma CollectedOne(tables: seq<Tables>, nows: seq<int>, accounts: seq<Resolved>, period: string, login: string,
                     views: seq<AccountView>, views': seq<AccountView>, loaded: seq<Option<seq<Day>>>, days: Option<seq<Day>>, n: nat)
    requires n < |tables| == |nows| == |accounts| && forall now | now in nows :: ValidNow(now)
    requires Collected(tables, nows, accounts, period, login, views, loaded, n)
    requires |views'| == n + 1 && forall i | 0 <= i < n :: views'[i] == views[i]
    requires IsLoaded(tables[n], days, accounts[n], period, login, nows[n]) && Shows(views'[n], accounts[n], days)
    ensures Collected(tables, nows, accounts, period, login, views', loaded + [days], n + 1)
  {
    hide IsLoaded, Shows, ValidNow;
  }

  /** `persistedDashboard` before the days are filled. */
  method CollectAccounts(stores: seq<Store>, nows: seq<int>, accounts: seq<Resolved>, period: string, login: string)
    returns (data: Data, found: bool, ghost loaded: seq<Option<seq<Day>>>)
    requires |stores| == |nows| == |accounts|
    requires (forall s | s in stores :: s.Valid()) && forall n | n in nows :: ValidNow(n)
    ensures found <==> login == "" || exists a :: a in accounts && SameLetters(login, a.login)
    ensures Collected(Found(stores), nows, accounts, period, login, data.accounts, loaded, |accounts|)
    ensures Sound(data, StoresBalanced(Found(stores)))
    ensures TotalsShown(data) == Sum(AllDays(loaded), DayBreakdown)
    ensures ChartMap(ChartOf(data.days)) == DayMap(AllDays(loaded))
    ensures data.problems == Problems(Found(stores), accounts, login, |accounts|) + (if found then [] else [Unavailable(login)])
  {
    hide Sound, Shows, SameLetters, Lower, TablesValid, ValidNow, ChartMap, DayMap, Merge, Join, Sum, AllDays, IsLoaded, Collected, Problems, AccountProblem,
         StoreBalanced, TotalsShown;
    NoProblems(Found(stores), accounts, login);
    data := Data([], None, [], None, []);
    found := login == "";
    ghost var tables := Found(stores);
    ghost var balanced := StoresBalanced(tables);
    NothingYet(balanced);
    loaded := [];
    NoChart();
    NothingCollected(tables, nows, accounts, period, login);
    for n := 0 to |accounts|
      invariant found <==> login == "" || exists i :: 0 <= i < n && SameLetters(login, accounts[i].login)
      invariant Sound(data, balanced) && |data.accounts| == n
      invariant Collected(tables, nows, accounts, period, login, data.accounts, loaded, n)
      invariant TotalsShown(data) == Sum(AllDays(loaded), DayBreakdown)
      invariant ChartMap(ChartOf(data.days)) == DayMap(AllDays(loaded))
      invariant data.problems == Problems(tables, accounts, login, n)
    {
      assert stores[n] in stores && nows[n] in nows && tables[n] in tables;
      var next;
      ghost var days;
      next, days := CollectAccount(stores[n], data, balanced, accounts[n], period, login, nows[n]);
      CollectedOne(tables, nows, accounts, period, login, data.accounts, next.accounts, loaded, days, n);
      LowerExactly(login, accounts[n].login);
      found := found || login == "" || Lower(login) == Lower(accounts[n].login);
      AllDaysOne(loaded, days);
      OneMoreProblem(tables, accounts, login, n);
      data, loaded := next, loaded + [days];
    }
    if !found {
      ProblemsSound(data, data.problems + [Unavailable(login)], balanced);
      SameShown(data);
      data := data.(problems := data.problems + [Unavailable(login)]);
    }
  }

  lemma NothingCollected(tables: seq<Tables>, nows: seq<int>, accounts: seq<Resolved>, period: string, login: string)
    requires |tables| == |nows| == |accounts| && forall now | now in nows :: ValidNow(now)
    ensures Collected(tables, nows, accounts, period, login, [], [], 0)
  {
  }

  ghost predicate IsProblem(p: Problem, tables: Tables, account: Resolved, login: string) {
    && (login == "" || SameLetters(login, account.login))
    && match p
       case NotSynchronized(target) =>
         target == account.endpoint.name && AccountAt(tables, account.endpoint.name, account.endpoint.url, account.login) == Ok(None)
       case Unreadable(target, e) =>
         target == account.endpoint.name && AccountAt(tables, account.endpoint.name, account.endpoint.url, account.login) == Err(e)
       case Unavailable(_) => false
  }

  /** Each account that was asked for and is not in the store, or whose identity is ambiguous, is reported once, in the order of the accounts, and nothing else is. */
  lemma ProblemsExactly(tables: seq<Tables>, accounts: seq<Resolved>, login: string) returns (places: seq<int>)
    requires |tables| == |accounts|
    ensures var ps := Problems(tables, accounts, login, |accounts|);
      |places| == |ps| && forall k | 0 <= k < |places| :: 0 <= places[k] < |accounts| && IsProblem(ps[k], tables[places[k]], accounts[places[k]], login)
    ensures forall j, k | 0 <= j < k < |places| :: places[j] < places[k]
    ensures forall i | 0 <= i < |accounts| && i !in places :: forall p :: !IsProblem(p, tables[i], accounts[i], login)
  {
    forall i, p | 0 <= i < |accounts|
      ensures AccountProblem(tables[i], accounts[i], login) == Some(p) <==> IsProblem(p, tables[i], accounts[i], login)
    {
      OneProblem(tables[i], accounts[i], login, p);
    }
    hide AccountProblem, IsProblem;
    places := GatheredExactly(ProblemAt(tables, accounts, login), |accounts|);
    forall i, p | 0 <= i < |accounts| && i !in places
      ensures !IsProblem(p, tables[i], accounts[i], login)
    {
      assert ProblemAt(tables, accounts, login)(i).None?;
    }
  }

  lemma OneProblem(tables: Tables, account: Resolved, login: string, p: Problem)
    ensures AccountProblem(tables, account, login) == Some(p) <==> IsProblem(p, tables, account, login)
  {
    hide Resolve, SameLetters;
  }

  lemma NoProblems(tables: seq<Tables>, accounts: seq<Resolved>, login: string)
    requires |tables| == |accounts|
    ensures Problems(tables, accounts, login, 0) == []
  {
  }

  lemma OneMoreProblem(tables: seq<Tables>, accounts: seq<Resolved>, login: string, n: nat)
    requires n < |tables| == |accounts|
    ensures Problems(tables, accounts, login, n + 1) == Problems(tables, accounts, login, n) + Listed(AccountProblem(tables[n], accounts[n], login))
  {
    hide AccountProblem;
  }

  lemma NoChart()
    ensures ChartMap([]) == map[] && DayMap(AllDays([])) == map[] && TotalsShown(Data([], None, [], None, [])) == Sum(AllDays([]), DayBreakdown)
  {
  }

  /** Views and problems are no part of the totals. */
  lemma SameShown(data: Data)
    ensures forall accounts, problems :: TotalsShown(data.(accounts := accounts, problems := problems)) == TotalsShown(data)
  {
  }

  lemma NoneAdded(b: Breakdown)
    ensures Join(b, Sum<Day>([], DayBreakdown)) == b
  {
    JoinNothing(b);
  }

  lemma MergeNoDays(m: map<string, Breakdown>)
    ensures Merge(m, DayMap([]), Join) == m
  {
  }

  /** One turn of that loop. */
  method CollectAccount(store: Store, data: Data, ghost balanced: bool, account: Resolved, period: string, login: string, now: int)
    returns (r: Data, ghost days: Option<seq<Day>>)
    requires store.Valid() && ValidNow(now) && Sound(data, balanced) && (balanced ==> StoreBalanced(store.Contents()))
    ensures Sound(r, balanced) && |r.accounts| == |data.accounts| + 1
    ensures forall i | 0 <= i < |data.accounts| :: r.accounts[i] == data.accounts[i]
    ensures IsLoaded(store.Contents(), days, account, period, login, now)
    ensures Shows(r.accounts[|data.accounts|], account, days)
    ensures TotalsShown(r) == Join(TotalsShown(data), Sum(if days.Some? then days.value else [], DayBreakdown))
    ensures ChartMap(ChartOf(r.days)) == Merge(ChartMap(ChartOf(data.days)), DayMap(if days.Some? then days.value else []), Join)
    ensures r.problems == data.problems + Listed(AccountProblem(store.Contents(), account, login))
  {
    hide Agrees, Tidy, Balanced, IsView, TotalsShown, ChartMap, DayMap, Sum, Resolve, TablesValid, PeriodStart, AllBalanced, Merge, Join, SameLetters, Lower;
    NoneAdded(TotalsShown(data));
    SameShown(data);
    ghost var tables := store.Contents();
    var view := AccountView(account.login, None);
    r, days := data.(accounts := data.accounts + [view]), None;
    AddView(data, view);
    SameFigures(data, r, balanced);
    MergeNoDays(ChartMap(ChartOf(data.days)));
    LowerExactly(login, account.login);
    if login != "" && Lower(login) != Lower(account.login) {
      return;
    }
    var loaded := store.LoadDaily(account.endpoint.name, account.endpoint.url, account.login, period, now);
    if loaded.Err? {
      ProblemsSound(r, r.problems + [Unreadable(account.endpoint.name, loaded.error)], balanced);
      r := r.(problems := r.problems + [Unreadable(account.endpoint.name, loaded.error)]);
    } else if loaded.value.None? {
      ProblemsSound(r, r.problems + [NotSynchronized(account.endpoint.name)], balanced);
      r := r.(problems := r.problems + [NotSynchronized(account.endpoint.name)]);
    } else {
      days := loaded.value;
      var these := loaded.value.value;
      ghost var before := r;
      ghost var row := AccountAt(tables, account.endpoint.name, account.endpoint.url, account.login).value.value;
      ViewTotals(these, row.segments, PeriodStart(period, now), now + 1);
      r := AddAccount(r, these);
      AccountSound(row, before, these, r, PeriodStart(period, now), now + 1, balanced);
    }
  }

  /** The dates of the window that ends today. */
  function Window(period: string, now: int): seq<string>
    requires ValidNow(now)
  {
    WindowStarts(period, Today(now));
    Span(WindowStart(period, Today(now)), Today(now) + 1)
  }

  ghost predicate AllWithin(days: seq<Day>, dates: seq<string>) {
    forall day | day in days :: day.date in dates
  }

  /** Every load finds rows labelled with the day they start in, and happens on the same day as the filling. */
  ghost predicate LabelledToday(tables: seq<Tables>, nows: seq<int>, now: int)
    requires |tables| == |nows| && ValidNow(now) && forall n | n in nows :: ValidNow(n)
  {
    forall i | 0 <= i < |tables| :: StoreLabelled(tables[i]) && Today(nows[i]) == Today(now)
  }

  /**
   * Each account is loaded from the store as its read transaction finds it, with its own reading of the clock; the days
   * are filled with a further reading. The figures agree with each other and with what was loaded, whatever these are.
   * A windowed chart has exactly the dates of the window when everything loaded lies in it, so always when the clock
   * stays on one day and the rows are labelled with the day they start in.
   */
  method PersistedDashboard(stores: seq<Store>, nows: seq<int>, accounts: seq<Resolved>, period: string, login: string, now: int)
    returns (data: Data, found: bool, ghost loaded: seq<Option<seq<Day>>>)
    requires |stores| == |nows| == |accounts| && ValidNow(now)
    requires (forall s | s in stores :: s.Valid()) && forall n | n in nows :: ValidNow(n)
    ensures found <==> login == "" || exists a :: a in accounts && SameLetters(login, a.login)
    ensures Agrees(data) && Tidy(data) && |data.accounts| == |loaded| == |accounts|
    ensures forall i | 0 <= i < |accounts| :: IsLoaded(Found(stores)[i], loaded[i], accounts[i], period, login, nows[i])
    ensures forall i | 0 <= i < |accounts| :: Shows(data.accounts[i], accounts[i], loaded[i])
    ensures login != "" ==> forall i | 0 <= i < |accounts| && !SameLetters(login, accounts[i].login) :: data.accounts[i].totals.None? && loaded[i].None?
    ensures TotalsShown(data) == Sum(AllDays(loaded), DayBreakdown)
    ensures Charts(ChartOf(data.days), AllDays(loaded))
    ensures data.problems == Problems(Found(stores), accounts, login, |accounts|) + (if found then [] else [Unavailable(login)])
    ensures StoresBalanced(Found(stores)) ==> Balanced(TotalsShown(data))
    ensures Windowed(period) && data.days.Some? ==>
      (Dates(data.days.value) == Window(period, now) <==> AllWithin(AllDays(loaded), Window(period, now)))
    ensures Windowed(period) && data.days.Some? && LabelledToday(Found(stores), nows, now) ==> Dates(data.days.value) == Window(period, now)
  {
    hide Shows, SameLetters, TablesValid, Sound, Agrees, Tidy, Balanced, Filled, FillStart, Window, AllWithin, StoreLabelled, StoreBalanced, IsLoaded, Charts,
         ChartMap, DayMap, AllDays, Problems;
    data, found, loaded := CollectAccounts(stores, nows, accounts, period, login);
    assert Collected(Found(stores), nows, accounts, period, login, data.accounts, loaded, |accounts|);
    UnwantedEmpty(Found(stores), loaded, data.accounts, accounts, period, login, nows);
    var days := FillDays(data.days, period, now);
    ghost var balanced := StoresBalanced(Found(stores));
    FilledSound(data, days, period, now, balanced);
    FilledCharts(data, days, AllDays(loaded), period, now, balanced);
    FilledWindow(data, days, AllDays(loaded), period, now, balanced);
    if Windowed(period) && LabelledToday(Found(stores), nows, now) {
      LoadedWithin(Found(stores), loaded, accounts, period, login, nows, now, |accounts|);
      assert loaded[..|accounts|] == loaded;
    }
    data := data.(days := days);
  }

  /** Nothing is loaded or shown for an account that was not asked for. */
  lemma UnwantedEmpty(tables: seq<Tables>, loaded: seq<Option<seq<Day>>>, views: seq<AccountView>, accounts: seq<Resolved>, period: string, login: string, nows: seq<int>)
    requires |tables| == |loaded| == |views| == |accounts| == |nows| && forall n | n in nows :: ValidNow(n)
    requires forall i | 0 <= i < |accounts| :: IsLoaded(tables[i], loaded[i], accounts[i], period, login, nows[i]) && Shows(views[i], accounts[i], loaded[i])
    ensures login != "" ==> forall i | 0 <= i < |accounts| && !SameLetters(login, accounts[i].login) :: views[i].totals.None? && loaded[i].None?
  {
    hide SameLetters, AccountAt, IsView, ValidNow, Sum, TallyOf;
  }

  /** What is filled in is the window, for a windowed period. */
  lemma WindowFilled(days: Option<seq<ChartDay>>, period: string, now: int)
    requires ValidNow(now) && Windowed(period) && days.Some?
    ensures FillStart(days, period, Today(now)) == Some(WindowStart(period, Today(now)))
    ensures Ascending(Window(period, now), Same)
  {
    hide WindowStart, Span;
    WindowStarts(period, Today(now));
    SpanAscends(WindowStart(period, Today(now)), Today(now) + 1);
  }

  /** A filled chart has exactly the dates of the span if and only if all its days lie in the span. */
  lemma WithinExactly(chart: seq<ChartDay>, filled: seq<ChartDay>, days: seq<Day>, span: seq<string>)
    requires CanonicalChart(chart) && ChartMap(chart) == DayMap(days) && Filled(chart, filled, span) && Ascending(span, Same)
    ensures Dates(filled) == span <==> AllWithin(days, span)
  {
    ChartDistinct(chart);
    hide CanonicalChart, Filled, Join, ChartBreakdown, DayBreakdown, Ascending, Dates, Distinct;
    SameDates(chart, days);
    if AllWithin(days, span) {
      FilledConsecutive(chart, filled, span);
    }
    FilledDays(chart, filled, span);
    DatesOf(filled);
    if Dates(filled) == span {
      forall day | day in days
        ensures day.date in span
      {
        var i :| 0 <= i < |chart| && chart[i].date == day.date;
        assert chart[i] in filled;
      }
    }
  }

  /** The chart has the dates of the days. */
  lemma SameDates(chart: seq<ChartDay>, days: seq<Day>)
    requires ChartMap(chart) == DayMap(days)
    ensures forall day | day in days :: HasDate(chart, day.date)
    ensures forall d | d in chart :: exists day :: day in days && day.date == d.date
  {
    hide Join, ChartBreakdown, DayBreakdown;
    forall day | day in days
      ensures HasDate(chart, day.date)
    {
      InGroup(days, day, DayDate, DayBreakdown, Join);
      if forall d | d in chart :: ChartDate(d) != day.date {
        NoSuchKey(chart, day.date, ChartDate, ChartBreakdown, Join);
      }
      var d :| d in chart && ChartDate(d) == day.date;
      var i :| 0 <= i < |chart| && chart[i] == d;
    }
    forall d | d in chart
      ensures exists day :: day in days && day.date == d.date
    {
      InGroup(chart, d, ChartDate, ChartBreakdown, Join);
      if forall day | day in days :: DayDate(day) != d.date {
        NoSuchKey(days, d.date, DayDate, DayBreakdown, Join);
      }
    }
  }

  lemma FilledWindow(data: Data, filled: Option<seq<ChartDay>>, days: seq<Day>, period: string, now: int, balanced: bool)
    requires ValidNow(now) && Sound(data, balanced) && ChartMap(ChartOf(data.days)) == DayMap(days)
    requires match FillStart(data.days, period, Today(now))
      case None => filled == data.days
      case Some(start) => filled.Some? && Filled(data.days.value, filled.value, Span(start, Today(now) + 1))
    ensures Windowed(period) && filled.Some? ==> (Dates(filled.value) == Window(period, now) <==> AllWithin(days, Window(period, now)))
  {
    var chart := ChartOf(data.days);
    assert CanonicalChart(chart);
    hide CanonicalChart, Filled, Sound, ChartMap, DayMap, AllWithin, Dates, Span, WindowStart, FillStart;
    if Windowed(period) && filled.Some? {
      if data.days.Some? {
        WindowFilled(data.days, period, now);
        WithinExactly(chart, filled.value, days, Window(period, now));
      }
    }
  }

  /** While the clock stays on one day, the days loaded from labelled rows lie in the window that is filled. */
  lemma {:induction false} LoadedWithin(tables: seq<Tables>, loaded: seq<Option<seq<Day>>>, accounts: seq<Resolved>, period: string, login: string,
                                        nows: seq<int>, now: int, n: nat)
    requires n <= |tables| == |loaded| == |accounts| == |nows| && ValidNow(now) && Windowed(period)
    requires forall i | 0 <= i < n :: ValidNow(nows[i]) && Today(nows[i]) == Today(now)
    requires forall i | 0 <= i < n :: StoreLabelled(tables[i]) && IsLoaded(tables[i], loaded[i], accounts[i], period, login, nows[i])
    ensures AllWithin(AllDays(loaded[..n]), Window(period, now))
  {
    hide Windowed, StoreLabelled, IsLoaded, Window;
    if n > 0 {
      LoadedWithin(tables, loaded, accounts, period, login, nows, now, n - 1);
      OneLoadedWithin(tables[n - 1], loaded[n - 1], accounts[n - 1], period, login, nows[n - 1], now);
      assert loaded[..n][..n - 1] == loaded[..n - 1];
    }
  }

  lemma OneLoadedWithin(tables: Tables, days: Option<seq<Day>>, account: Resolved, period: string, login: string, loadNow: int, now: int)
    requires ValidNow(loadNow) && ValidNow(now) && Today(loadNow) == Today(now) && Windowed(period)
    requires StoreLabelled(tables) && IsLoaded(tables, days, account, period, login, loadNow)
    ensures AllWithin(if days.Some? then days.value else [], Window(period, now))
  {
    hide IsView, Labelled, SameLetters, Resolve, PeriodStart, Span, WindowStart, Windowed;
    if days.Some? {
      var row := AccountAt(tables, account.endpoint.name, account.endpoint.url, account.login).value.value;
      ViewInWindow(days.value, row.segments, period, loadNow);
    }
  }

  /**
   * The clock may pass midnight between a load and the filling: a row of Thursday, 1970-01-01, loaded for the week on
   * Sunday, stays in a chart that is filled on Monday for a week that has just begun.
   */
  lemma MidnightMovesWindow() returns (saved: Daily, days: seq<Day>, loadNow: int, now: int)
    ensures ValidNow(loadNow) && ValidNow(now) && Today(now) == Today(loadNow) + 1
    ensures ValidSnapshot(Some(saved)) && SaveSegments([], saved).Ok? && Labelled(SaveSegments([], saved).value)
    ensures IsView(days, SaveSegments([], saved).value, PeriodStart("this_week", loadNow), loadNow + 1)
    ensures !AllWithin(days, Window("this_week", now))
    ensures forall chart, r: seq<ChartDay> | CanonicalChart(chart) && ChartMap(chart) == DayMap(days) && Filled(chart, r, Window("this_week", now)) ::
      Dates(r) != Window("this_week", now)
  {
    loadNow, now := 3 * DAY_MS, 4 * DAY_MS;
    var day := Day(Format(0), 0, 1, Some(NoTotals), []);
    saved, days := Daily(1, [day]), [day];
    ThursdayLabelled(day);
    SundayLoad(loadNow);
    MondayWindow(day, now);
    hide *;
    ReadyDay(day, 1);
    SingleSave(saved, day);
    OneRowView([Segment(0, day.date, map[day.date := RowOf(day, 1)])], days, day, PeriodStart("this_week", loadNow), loadNow + 1);
    forall chart, r: seq<ChartDay> | CanonicalChart(chart) && ChartMap(chart) == DayMap(days) && Filled(chart, r, Window("this_week", now))
      ensures Dates(r) != Window("this_week", now)
    {
      ThisWeekFilled(chart, now);
      WithinExactly(chart, r, days, Window("this_week", now));
    }
  }

  lemma ThisWeekFilled(chart: seq<ChartDay>, now: int)
    requires ValidNow(now)
    ensures Ascending(Window("this_week", now), Same)
  {
    WindowFilled(Some(chart), "this_week", now);
  }

  lemma ThursdayLabelled(day: Day)
    requires day == Day(Format(0), 0, 1, Some(NoTotals), [])
    ensures Labelled([Segment(0, day.date, map[day.date := RowOf(day, 1)])])
    ensures ValidDay(day, 1)
  {
    hide Format;
    FormatLength(0);
  }

  lemma SundayLoad(now: int)
    requires now == 3 * DAY_MS
    ensures ValidNow(now) && ValidNow(now + DAY_MS) && Today(now) == 3 && Today(now + DAY_MS) == 4
    ensures PeriodStart("this_week", now) <= 0 < now + 1
  {
  }

  lemma FormatLength(n: int)
    requires InRange(n)
    ensures Format(n) != ""
  {
    ParseFormat(n);
    assert Parse("").None?;
  }

  lemma MondayWindow(day: Day, now: int)
    requires day.date == Format(0) && now == 4 * DAY_MS
    ensures !AllWithin([day], Window("this_week", now))
  {
    hide Format, Less;
    FormatOrder(0, 4);
    TotalOrder();
    assert Today(now) == 4 && WindowStart("this_week", 4) == 4;
    assert Window("this_week", now) == [Format(4)];
    assert day in [day];
  }

  lemma OneRowView(segs: seq<Segment>, days: seq<Day>, day: Day, lo: int, hi: int)
    requires day.startMS == 0 && day.endMS == 1 && day.totals == Some(NoTotals) && day.models == [] && lo <= 0 < hi
    requires segs == [Segment(0, day.date, map[day.date := RowOf(day, 1)])] && days == [day]
    ensures IsView(days, segs, lo, hi)
  {
    assert segs[..0] == [];
    assert forall e :: FigureAt([], e, lo, hi).None?;
    forall e
      ensures FigureAt(segs, e, lo, hi) == if e == day.date then Some(Figure(0, 1, Nothing)) else None
    {
    }
  }

  /** A chart whose days add up to `days` by date still shows them after filling. */
  lemma FilledCharts(data: Data, filled: Option<seq<ChartDay>>, days: seq<Day>, period: string, now: int, balanced: bool)
    requires ValidNow(now) && Sound(data, balanced) && ChartMap(ChartOf(data.days)) == DayMap(days)
    requires match FillStart(data.days, period, Today(now))
      case None => filled == data.days
      case Some(start) => filled.Some? && Filled(data.days.value, filled.value, Span(start, Today(now) + 1))
    ensures Charts(ChartOf(filled), days)
  {
    var chart := ChartOf(data.days);
    assert CanonicalChart(chart);
    assert forall d | d in chart :: d.recorded;
    hide *;
    ChartCharts(chart, days);
    var start := FillStart(data.days, period, Today(now));
    if start.Some? {
      FilledFacts(data, filled, start.value, now);
      MoreCharts(chart, ChartOf(filled), days);
    }
  }

  lemma ChartCharts(chart: seq<ChartDay>, days: seq<Day>)
    requires CanonicalChart(chart) && ChartMap(chart) == DayMap(days) && forall d | d in chart :: d.recorded
    ensures Charts(chart, days)
  {
    hide DayMap, ChartBreakdown, CanonicalDay, Join;
    ChartDistinct(chart);
    GroupDistinct(chart, ChartDate, ChartBreakdown, Join);
    forall date | date in DayMap(days)
      ensures HasDate(chart, date)
    {
      var i :| 0 <= i < |chart| && ChartDate(chart[i]) == date;
    }
  }

  lemma FilledFacts(data: Data, filled: Option<seq<ChartDay>>, start: int, now: int)
    requires ValidNow(now) && FIRST_DAY <= start <= Today(now) + 1 <= END_DAY && data.days.Some? && filled.Some?
    requires Filled(data.days.value, filled.value, Span(start, Today(now) + 1))
    ensures forall d | d in ChartOf(data.days) :: d in ChartOf(filled)
    ensures forall d | d in ChartOf(filled) && d !in ChartOf(data.days) :: d == EmptyDay(d.date) && !HasDate(ChartOf(data.days), d.date)
  {
    hide Filled, Span, EmptyDay, HasDate;
    FilledDays(data.days.value, filled.value, Span(start, Today(now) + 1));
  }

  lemma MoreCharts(chart: seq<ChartDay>, filled: seq<ChartDay>, days: seq<Day>)
    requires Charts(chart, days) && forall d | d in chart :: d in filled
    requires forall d | d in filled && d !in chart :: d == EmptyDay(d.date) && !HasDate(chart, d.date)
    ensures Charts(filled, days)
  {
    hide DayMap, ChartBreakdown, EmptyDay;
    forall date | date in DayMap(days)
      ensures HasDate(filled, date)
    {
      var i :| 0 <= i < |chart| && chart[i].date == date;
      assert chart[i] in filled;
    }
  }

  lemma FilledSound(data: Data, days: Option<seq<ChartDay>>, period: string, now: int, balanced: bool)
    requires ValidNow(now) && Sound(data, balanced)
    requires match FillStart(data.days, period, Today(now))
      case None => days == data.days
      case Some(start) => days.Some? && Filled(data.days.value, days.value, Span(start, Today(now) + 1))
    ensures Agrees(data.(days := days)) && Tidy(data.(days := days))
    ensures balanced ==> Balanced(TotalsShown(data.(days := days)))
  {
    hide Balanced, Filled, Span, Sum, CanonicalChart, Canonical, CanonicalModels, TallyOf, ModelMap, SumAccounts, FillStart;
    var start := FillStart(data.days, period, Today(now));
    if start.Some? {
      var span := Span(start.value, Today(now) + 1);
      FilledSum(data.days.value, days.value, span);
      FilledDays(data.days.value, days.value, span);
    }
  }

  lemma ChartDistinct(days: seq<ChartDay>)
    requires CanonicalChart(days)
    ensures Distinct(days, ChartDate)
  {
    AscendingIsDistinct(days, ChartDate);
  }
}
