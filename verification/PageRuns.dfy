/** web/app.js: what the page shows, whatever the order of clicks, history moves, replies and aborts. */
module PageRuns {
  import opened Text
  import opened Usage
  import opened Page

  datatype Step =
    | Select(account: string, period: string)
    | Move(account: string, period: string)
    | Submit
    | Previous
    | Next
    | SyncReply(refresh: int)
    | DashboardReply(refresh: int, logins: seq<string>)
    | EventsReply(load: int, data: Option<EventsPage>)

  predicate WaitsIn(v: View, i: int, stage: Stage) {
    0 <= i < |v.refreshes| && v.refreshes[i].stage == stage
  }

  predicate Pending(v: View, j: int) {
    0 <= j < |v.loads| && v.loads[j].pending
  }

  /** A disabled button sends no clicks, and a request is answered once, in any order. */
  predicate Enabled(v: View, step: Step) {
    match step
    case Previous => !v.controls.previousDisabled
    case Next => !v.controls.nextDisabled
    case SyncReply(i) => WaitsIn(v, i, Syncing)
    case DashboardReply(i, _) => WaitsIn(v, i, Loading)
    case EventsReply(j, _) => Pending(v, j)
    case _ => true
  }

  function Apply(v: View, step: Step): View
    requires Enabled(v, step)
  {
    match step
    case Select(account, period) => FiltersSelected(v, account, period)
    case Move(account, period) => HistoryMoved(v, account, period)
    case Submit => Submitted(v)
    case Previous => PreviousClicked(v)
    case Next => NextClicked(v)
    case SyncReply(i) => SyncReplied(v, i)
    case DashboardReply(i, logins) => DashboardReplied(v, i, logins)
    case EventsReply(j, data) => EventsReplied(v, j, data)
  }

  /** The page opens at a location and then takes the steps. */
  ghost predicate Shows(steps: seq<Step>, v: View) {
    if steps == [] then exists account, period :: v == FiltersSelected(Blank, account, period)
    else
      var n := |steps| - 1;
      exists u :: Shows(steps[..n], u) && Enabled(u, steps[n]) && v == Apply(u, steps[n])
  }

  // ---- the invariant

  function Newest(v: View): Refresh
    requires |v.refreshes| > 0
  {
    v.refreshes[|v.refreshes| - 1]
  }

  /** Every call but the newest is aborted. */
  ghost predicate RefreshesSound(v: View) {
    && v.refreshID == |v.refreshes|
    && v.dashboardController == |v.refreshes| - 1
    && (forall i | 0 <= i < |v.refreshes| :: v.refreshes[i].id == i + 1)
    && (forall i | 0 <= i < |v.refreshes| :: v.refreshes[i].aborted <==> i < |v.refreshes| - 1)
  }

  ghost predicate LoadsSound(v: View) {
    && v.eventsController == |v.loads| - 1
    && (forall j | 0 <= j < |v.loads| - 1 :: v.loads[j].aborted)
  }

  predicate Live(v: View) {
    |v.loads| > 0 && !v.loads[|v.loads| - 1].aborted
  }

  /** The rows on display came with a reply to the filters that `shownEvents` names. */
  ghost predicate DisplaySound(v: View) {
    && (v.display.shownEvents.Some? <==> v.display.rows.Some?)
    && (v.display.rows.Some? ==>
      && 0 <= v.display.rows.value < |v.loads|
      && !v.loads[v.display.rows.value].pending
      && Of(v.loads[v.display.rows.value]) == v.display.shownEvents.value)
  }

  function Of(load: Load): Filters {
    Filters(load.account, load.period)
  }

  function Current(v: View): Filters {
    Filters(v.state.account, v.state.period)
  }

  /** While the newest refresh is in flight: its filters are the page's, paging is off, and no events load is live. */
  ghost predicate InFlight(v: View)
    requires |v.refreshes| > 0
  {
    && Newest(v).account == v.state.account && Newest(v).period == v.state.period
    && v.controls == Controls(Newest(v).sync, true, true, true, true)
    && v.state.page == 1 && !Live(v)
  }

  /** A live events load was started by the newest refresh for the page's filters. */
  ghost predicate LiveSound(v: View) {
    Live(v) ==>
      var load := v.loads[|v.loads| - 1];
      load.id == v.refreshID && Of(load) == Current(v) && (load.pending ==> load.page == v.state.page)
  }

  /** After the newest refresh: its dashboard is drawn, and the rows on display are the page's. */
  ghost predicate Arrived(v: View)
    requires |v.refreshes| > 0
  {
    && Lower(Newest(v).account) == Lower(v.state.account) && Newest(v).period == v.state.period
    && !v.controls.syncing && !v.controls.contentBusy
    && v.display.drawn == Some(|v.refreshes| - 1)
    && LiveSound(v)
    && (v.controls.eventsBusy <==> Live(v) && v.loads[|v.loads| - 1].pending)
    && (v.display.shownEvents.Some? ==> v.display.shownEvents.value == Current(v))
    && (v.display.rows.Some? && !v.controls.eventsBusy ==> Live(v) && v.display.rows.value == |v.loads| - 1)
    && (v.display.shownEvents.None? ==> v.controls.previousDisabled && v.controls.nextDisabled)
  }

  ghost predicate Sound(v: View) {
    && |v.refreshes| > 0
    && RefreshesSound(v) && LoadsSound(v) && DisplaySound(v)
    && (if Newest(v).stage == Settled then Arrived(v) else InFlight(v))
  }

  // ---- every step keeps it

  lemma RefreshedSound(v: View, sync: bool)
    requires RefreshesSound(v) && LoadsSound(v) && DisplaySound(v)
    ensures Sound(Refreshed(v, sync))
  {
  }

  lemma SelectedSound(v: View, account: string, period: string)
    requires RefreshesSound(v) && LoadsSound(v) && DisplaySound(v)
    ensures Sound(FiltersSelected(v, account, period))
  {
    RefreshedSound(v.(state := v.state.(account := account, period := period)), false);
    hide Sound, Refreshed;
  }

  lemma SyncRepliedSound(v: View, i: int)
    requires Sound(v) && WaitsIn(v, i, Syncing)
    ensures Sound(SyncReplied(v, i))
  {
  }

  lemma PageTurnedSound(v: View, page: int)
    requires Sound(v) && (!v.controls.previousDisabled || !v.controls.nextDisabled)
    ensures Sound(PageTurned(v, page))
  {
  }

  lemma EventsRepliedSound(v: View, j: int, data: Option<EventsPage>)
    requires Sound(v) && Pending(v, j)
    ensures Sound(EventsReplied(v, j, data))
  {
    HeededIff(v, j);
    hide Lower, StaleLoad;
  }

  /** Only the reply to the newest events load is heeded, and only while that is live. */
  lemma HeededIff(v: View, j: int)
    requires Sound(v) && Pending(v, j)
    ensures !StaleLoad(v, j) <==> Live(v) && j == |v.loads| - 1
    ensures !StaleLoad(v, j) ==> Newest(v).stage == Settled
  {
    hide Lower;
  }

  lemma SoundParts(v: View)
    requires Sound(v)
    ensures |v.refreshes| > 0 && RefreshesSound(v) && LoadsSound(v) && DisplaySound(v)
    ensures Newest(v).stage != Settled ==> InFlight(v)
    ensures Newest(v).stage == Settled ==> Arrived(v)
  {
    hide RefreshesSound, LoadsSound, DisplaySound, InFlight, Arrived, Newest;
  }

  lemma DrawnSound(v: View, i: int, logins: seq<string>)
    requires Sound(v) && i == |v.refreshes| - 1 && Newest(v).stage == Loading
    ensures Sound(DashboardReplied(v, i, logins))
  {
    SoundParts(v);
    DrawnParts(v, i, logins);
    DrawnArrived(v, i, logins);
    hide *;
    hide Sound;
    SoundJoined(DashboardReplied(v, i, logins));
  }

  lemma SoundJoined(v: View)
    requires |v.refreshes| > 0 && RefreshesSound(v) && LoadsSound(v) && DisplaySound(v)
    requires Newest(v).stage == Settled && Arrived(v)
    ensures Sound(v)
  {
    hide RefreshesSound, LoadsSound, DisplaySound, InFlight, Arrived, Newest;
  }

  lemma DrawnParts(v: View, i: int, logins: seq<string>)
    requires |v.refreshes| > 0 && RefreshesSound(v) && LoadsSound(v) && DisplaySound(v) && i == |v.refreshes| - 1
    ensures var v' := DashboardReplied(v, i, logins);
      |v'.refreshes| > 0 && RefreshesSound(v') && LoadsSound(v') && DisplaySound(v') && Newest(v').stage == Settled
  {
    hide Lower, FirstMatch;
  }

  lemma DrawnArrived(v: View, i: int, logins: seq<string>)
    requires |v.refreshes| > 0 && RefreshesSound(v) && InFlight(v) && i == |v.refreshes| - 1 && LoadsSound(v)
    ensures |DashboardReplied(v, i, logins).refreshes| > 0 && Arrived(DashboardReplied(v, i, logins))
  {
    hide Lower, FirstMatch;
  }

  lemma OutdatedSound(v: View, i: int, logins: seq<string>)
    requires Sound(v) && 0 <= i < |v.refreshes| - 1
    ensures Sound(DashboardReplied(v, i, logins))
  {
  }

  lemma SoundStep(v: View, step: Step)
    requires Sound(v) && Enabled(v, step)
    ensures Sound(Apply(v, step))
  {
    match step
    case Select(account, period) => SelectedSound(v, account, period);
    case Move(account, period) => SelectedSound(v, account, period);
    case Submit => RefreshedSound(v, true);
    case Previous => PageTurnedSound(v, v.state.page - 1);
    case Next => PageTurnedSound(v, v.state.page + 1);
    case SyncReply(i) => SyncRepliedSound(v, i);
    case DashboardReply(i, logins) =>
      if i < |v.refreshes| - 1 { OutdatedSound(v, i, logins); } else { DrawnSound(v, i, logins); }
    case EventsReply(j, data) => EventsRepliedSound(v, j, data);
  }

  /** In every state the page can reach, the invariant holds. */
  lemma {:induction false} Reachable(steps: seq<Step>, v: View)
    requires Shows(steps, v)
    ensures Sound(v)
  {
    hide Sound, Apply, Enabled, FiltersSelected;
    if steps == [] {
      var account, period :| v == FiltersSelected(Blank, account, period);
      BlankSound();
      SelectedSound(Blank, account, period);
    } else {
      var n := |steps| - 1;
      var u :| Shows(steps[..n], u) && Enabled(u, steps[n]) && v == Apply(u, steps[n]);
      Reachable(steps[..n], u);
      SoundStep(u, steps[n]);
    }
  }

  lemma BlankSound()
    ensures RefreshesSound(Blank) && LoadsSound(Blank) && DisplaySound(Blank)
  {
  }

  // ---- what the user can rely on

  lemma StaleIff(v: View, i: int)
    requires RefreshesSound(v) && 0 <= i < |v.refreshes|
    ensures StaleRefresh(v, i) <==> i < |v.refreshes| - 1
  {
  }

  /** The account takes the spelling of the first login that is the same up to case, if there is one. */
  ghost predicate Adopts(before: string, after: string, logins: seq<string>) {
    if forall x | x in logins :: Lower(x) != Lower(before) then after == before
    else exists k :: 0 <= k < |logins| && logins[k] == after && Lower(after) == Lower(before) && forall j | 0 <= j < k :: Lower(logins[j]) != Lower(before)
  }

  /** After a dashboard was drawn: events are asked for if the dashboard has the account, and cleared otherwise. */
  ghost predicate FollowedUp(before: View, after: View, logins: seq<string>) {
    if after.state.account != "" && after.state.account in logins then
      && after.loads == before.loads + [Load(before.refreshID, after.state.account, after.state.period, 1, true, false)]
      && after.controls.eventsBusy
      && after.display.rows == (if before.display.shownEvents == Some(Current(after)) then before.display.rows else None)
    else
      && after.loads == before.loads && !after.controls.eventsBusy
      && after.display.rows.None? && after.display.shownEvents.None?
      && after.controls.previousDisabled && after.controls.nextDisabled
  }

  /** What a dashboard reply to call `i` means for the page: only the reply to the newest refresh is drawn, and that was asked for with the filters on the page. */
  ghost predicate DashboardSettled(before: View, after: View, i: int, logins: seq<string>) {
    && 0 <= i < |before.refreshes|
    && if i < |before.refreshes| - 1 then after == InStage(before, i, Settled)
       else
         && before.refreshes[i].account == before.state.account && before.refreshes[i].period == before.state.period
         && after.refreshes == before.refreshes[i := before.refreshes[i].(stage := Settled)] && after.refreshID == before.refreshID
         && after.display.drawn == Some(i) && !after.controls.contentBusy && !after.controls.syncing
         && Adopts(before.state.account, after.state.account, logins)
         && after.state == before.state.(account := after.state.account)
         && FollowedUp(before, after, logins)
  }

  lemma {:induction false} CanonicalAdopts(logins: seq<string>, account: string)
    ensures Adopts(account, Canonical(logins, account), logins)
  {
    hide Lower;
    if logins != [] && Lower(logins[0]) != Lower(account) {
      var rest := logins[1..];
      CanonicalAdopts(rest, account);
      assert logins == [logins[0]] + rest;
      if exists x :: x in rest && Lower(x) == Lower(account) {
        var k :| 0 <= k < |rest| && rest[k] == Canonical(rest, account) && Lower(rest[k]) == Lower(account)
          && forall j | 0 <= j < k :: Lower(rest[j]) != Lower(account);
        assert logins[k + 1] == rest[k];
        assert forall j | 0 <= j < k + 1 :: Lower(logins[j]) != Lower(account);
      }
    }
  }

  lemma NoneLive(v: View)
    requires LoadsSound(v) && !Live(v)
    ensures AbortLoad(v.loads, v.eventsController) == v.loads
  {
  }

  /** What `DashboardDrawn` does when no load is live. */
  lemma DrawnIs(v: View, i: int, logins: seq<string>)
    requires 0 <= i < |v.refreshes| && !StaleRefresh(v, i) && v.state.page == 1
    requires AbortLoad(v.loads, v.eventsController) == v.loads && DisplaySound(v)
    ensures var v' := DashboardReplied(v, i, logins);
      && v'.refreshes == v.refreshes[i := v.refreshes[i].(stage := Settled)] && v'.refreshID == v.refreshID
      && v'.display.drawn == Some(i) && !v'.controls.contentBusy && !v'.controls.syncing
      && v'.state == v.state.(account := Canonical(logins, v.state.account))
      && FollowedUp(v, v', logins)
  {
    hide StaleRefresh, Canonical, AbortLoad;
  }

  lemma OutdatedIs(v: View, i: int, logins: seq<string>)
    requires 0 <= i < |v.refreshes| && StaleRefresh(v, i)
    ensures DashboardReplied(v, i, logins) == InStage(v, i, Settled)
  {
    hide StaleRefresh, DashboardDrawn;
  }

  lemma InFlightFilters(v: View, i: int)
    requires |v.refreshes| > 0 && (Newest(v).stage != Settled ==> InFlight(v)) && WaitsIn(v, i, Loading) && i == |v.refreshes| - 1
    ensures v.refreshes[i].account == v.state.account && v.refreshes[i].period == v.state.period
    ensures v.state.page == 1 && !Live(v)
  {
  }

  lemma DrawnSettles(v: View, i: int, logins: seq<string>)
    requires |v.refreshes| > 0 && (Newest(v).stage != Settled ==> InFlight(v)) && WaitsIn(v, i, Loading) && i == |v.refreshes| - 1
    requires LoadsSound(v) && DisplaySound(v) && !StaleRefresh(v, i)
    ensures DashboardSettled(v, DashboardReplied(v, i, logins), i, logins)
  {
    hide Live, LoadsSound, DisplaySound, InFlight, Newest, WaitsIn, StaleRefresh, Canonical, AbortLoad, Adopts, FollowedUp, DashboardReplied;
    InFlightFilters(v, i);
    NoneLive(v);
    CanonicalAdopts(logins, v.state.account);
    DrawnIs(v, i, logins);
  }

  /** A dashboard reply is drawn exactly when it answers the newest refresh, and then it was asked for with the filters now on the page, and the events of its account are asked for next. Any other reply changes nothing. */
  lemma DashboardAnswered(steps: seq<Step>, v: View, i: int, logins: seq<string>)
    requires Shows(steps, v) && WaitsIn(v, i, Loading)
    ensures DashboardSettled(v, DashboardReplied(v, i, logins), i, logins)
  {
    hide Shows, Sound, RefreshesSound, LoadsSound, DisplaySound, InFlight, Arrived, Newest, StaleRefresh, DashboardReplied, WaitsIn, Adopts, FollowedUp;
    Reachable(steps, v);
    SoundParts(v);
    InRange(v, i);
    StaleIff(v, i);
    if i == |v.refreshes| - 1 {
      DrawnSettles(v, i, logins);
    } else {
      OutdatedIs(v, i, logins);
    }
  }

  /** A synchronization that is answered leads on to the dashboard only for the newest refresh. */
  lemma SyncAnswered(steps: seq<Step>, v: View, i: int)
    requires Shows(steps, v) && WaitsIn(v, i, Syncing)
    ensures 0 <= i < |v.refreshes|
    ensures SyncReplied(v, i) == InStage(v, i, if i == |v.refreshes| - 1 then Loading else Settled)
  {
    Reachable(steps, v);
    hide Shows;
    SoundParts(v);
    hide RefreshesSound, LoadsSound, DisplaySound, InFlight, Arrived, Sound, StaleRefresh;
    StaleIff(v, i);
  }

  lemma InRange(v: View, i: int)
    requires WaitsIn(v, i, Loading)
    ensures 0 <= i < |v.refreshes|
  {
  }

  /** What an events reply to call `j` means for the page: only the reply to the newest live load is shown, and that was asked for with the filters and the page number in state. */
  ghost predicate EventsSettled(before: View, after: View, j: int, data: Option<EventsPage>) {
    && 0 <= j < |before.loads|
    && if j < |before.loads| - 1 || before.loads[j].aborted then after == LoadSettled(before, j)
       else
         && before.loads[j].id == before.refreshID
         && Of(before.loads[j]) == Current(before) == Current(after) && before.loads[j].page == before.state.page
         && after.loads == before.loads[j := before.loads[j].(pending := false)] && after.refreshes == before.refreshes
         && after.display.drawn == before.display.drawn && !after.controls.eventsBusy
         && match data
            case Some(page) =>
              && after.display.rows == Some(j) && after.display.shownEvents == Some(Current(after))
              && after.state.page == page.page && after.state.totalPages == page.totalPages
              && (after.controls.previousDisabled <==> page.page <= 1) && (after.controls.nextDisabled <==> page.page >= page.totalPages)
            case None =>
              && after.display.rows.None? && after.display.shownEvents.None? && after.state == before.state
              && after.controls.previousDisabled && after.controls.nextDisabled
  }

  lemma RenderedIs(v: View, j: int, data: Option<EventsPage>)
    requires 0 <= j < |v.loads|
    requires !StaleLoad(v, j) ==> v.loads[j].id == v.refreshID && Of(v.loads[j]) == Current(v) && v.loads[j].page == v.state.page
    requires !StaleLoad(v, j) <==> j == |v.loads| - 1 && !v.loads[j].aborted
    ensures EventsSettled(v, EventsReplied(v, j, data), j, data)
  {
    hide StaleLoad;
  }

  lemma LiveFacts(v: View)
    requires Live(v) && LiveSound(v)
    ensures var load := v.loads[|v.loads| - 1];
      load.id == v.refreshID && Of(load) == Current(v) && (load.pending ==> load.page == v.state.page)
  {
  }

  lemma ArrivedLive(v: View)
    requires |v.refreshes| > 0 && Arrived(v)
    ensures LiveSound(v)
  {
    hide LiveSound, Lower;
  }

  lemma PendingLast(v: View, j: int)
    requires Pending(v, j)
    ensures 0 <= j < |v.loads| && v.loads[j].pending
    ensures Live(v) && j == |v.loads| - 1 <==> j == |v.loads| - 1 && !v.loads[j].aborted
  {
  }

  /** Only the newest events load is heeded. Its page was asked for with the filters and the page number now in state; after the reply the rows are those of this load, or none when it failed. */
  lemma EventsAnswered(steps: seq<Step>, v: View, j: int, data: Option<EventsPage>)
    requires Shows(steps, v) && Pending(v, j)
    ensures EventsSettled(v, EventsReplied(v, j, data), j, data)
  {
    hide Shows, Sound, RefreshesSound, LoadsSound, DisplaySound, InFlight, Arrived, Newest, StaleLoad, Pending, Live, LiveSound, EventsReplied, EventsSettled;
    Reachable(steps, v);
    HeededIff(v, j);
    PendingLast(v, j);
    SoundParts(v);
    if !StaleLoad(v, j) {
      ArrivedLive(v);
      LiveFacts(v);
    }
    RenderedIs(v, j, data);
  }

  /** The label says syncing exactly while the newest refresh is in flight and was started with a synchronization; the page is busy exactly while it is in flight. */
  lemma LabelExact(steps: seq<Step>, v: View)
    requires Shows(steps, v)
    ensures |v.refreshes| > 0
    ensures v.controls.syncing <==> Newest(v).sync && Newest(v).stage != Settled
    ensures v.controls.contentBusy <==> Newest(v).stage != Settled
    ensures v.controls.eventsBusy <==> Newest(v).stage != Settled || (Live(v) && v.loads[|v.loads| - 1].pending)
  {
    Reachable(steps, v);
    hide Lower, Shows;
  }

  /** When the page is not busy, it shows the dashboard of the newest refresh, and any event rows were asked for with the filters on the page. */
  lemma ShownIsCurrent(steps: seq<Step>, v: View)
    requires Shows(steps, v) && !v.controls.contentBusy
    ensures |v.refreshes| > 0 && v.display.drawn == Some(|v.refreshes| - 1)
    ensures Lower(Newest(v).account) == Lower(v.state.account) && Newest(v).period == v.state.period
    ensures v.display.rows.Some? ==> 0 <= v.display.rows.value < |v.loads| && Of(v.loads[v.display.rows.value]) == Current(v)
  {
    Reachable(steps, v);
    hide Lower, Shows;
  }

  /** When the events are not busy either, the rows are those of the newest load, which the newest refresh led to. */
  lemma RowsAreNewest(steps: seq<Step>, v: View)
    requires Shows(steps, v) && !v.controls.contentBusy && !v.controls.eventsBusy && v.display.rows.Some?
    ensures v.display.rows.value == |v.loads| - 1 >= 0 && v.loads[v.display.rows.value].id == v.refreshID
  {
    Reachable(steps, v);
    hide *;
    SoundParts(v);
    ArrivedRows(v);
  }

  lemma ArrivedRows(v: View)
    requires |v.refreshes| > 0
    requires Newest(v).stage == Settled ==> Arrived(v)
    requires Newest(v).stage != Settled ==> InFlight(v)
    requires !v.controls.contentBusy && !v.controls.eventsBusy && v.display.rows.Some?
    ensures v.display.rows.value == |v.loads| - 1 >= 0 && v.loads[v.display.rows.value].id == v.refreshID
  {
    hide Lower;
  }
}
