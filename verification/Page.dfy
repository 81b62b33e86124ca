/**
 * web/app.js: the filters, requests and replies of the page, and what the handlers make of them. A handler runs to its next await without
 * interruption, so each is one step; a request remembers what its continuation captured.
 */
module Page {
  import opened Text
  import opened Usage

  /** Where a call of `refresh` waits. */
  datatype Stage = Syncing | Loading | Settled

  /** A call of `refresh`: what it captured, and its abort signal. */
  datatype Refresh = Refresh(id: int, account: string, period: string, sync: bool, stage: Stage, aborted: bool)

  /** A call of `loadEvents`. */
  datatype Load = Load(id: int, account: string, period: string, page: int, pending: bool, aborted: bool)

  /** The pair that `shownEvents` encodes. */
  datatype Filters = Filters(account: string, period: string)

  /** The part of an events reply that changes state. */
  datatype EventsPage = EventsPage(page: int, totalPages: int)

  /** The object `state` of the script. */
  datatype State = State(account: string, period: string, page: int, totalPages: int)

  /** What the user sees of the controls and of the work under way. */
  datatype Controls = Controls(syncing: bool, contentBusy: bool, eventsBusy: bool, previousDisabled: bool, nextDisabled: bool)

  /** What is on display: the filters that `shownEvents` names, the load whose rows the events table holds, the refresh whose dashboard is drawn. */
  datatype Display = Display(shownEvents: Option<Filters>, rows: Option<int>, drawn: Option<int>)

  /** A controller is the position of the newest call, or -1. */
  datatype View = View(
    state: State, refreshID: int,
    refreshes: seq<Refresh>, dashboardController: int,
    loads: seq<Load>, eventsController: int,
    controls: Controls, display: Display)

  /** The page before its script has read the location. */
  const Blank := View(State("", "last_30_days", 1, 1), 0, [], -1, [], -1,
                      Controls(false, false, false, true, true), Display(None, None, None))

  // ---- what the handlers do

  function AbortRefresh(all: seq<Refresh>, controller: int): (r: seq<Refresh>)
    ensures |r| == |all|
  {
    if 0 <= controller < |all| then all[controller := all[controller].(aborted := true)] else all
  }

  function AbortLoad(all: seq<Load>, controller: int): (r: seq<Load>)
    ensures |r| == |all|
  {
    if 0 <= controller < |all| then all[controller := all[controller].(aborted := true)] else all
  }

  function Refreshed(v: View, sync: bool): View {
    v.(refreshID := v.refreshID + 1,
       state := v.state.(page := 1),
       refreshes := AbortRefresh(v.refreshes, v.dashboardController)
         + [Refresh(v.refreshID + 1, v.state.account, v.state.period, sync, if sync then Syncing else Loading, false)],
       dashboardController := |v.refreshes|,
       loads := AbortLoad(v.loads, v.eventsController),
       controls := Controls(sync, true, true, true, true))
  }

  function LoadStarted(v: View): View {
    v.(loads := AbortLoad(v.loads, v.eventsController)
         + [Load(v.refreshID, v.state.account, v.state.period, v.state.page, true, false)],
       eventsController := |v.loads|,
       controls := v.controls.(eventsBusy := true))
  }

  function EventsReset(v: View): View {
    v.(display := v.display.(shownEvents := None, rows := None),
       controls := v.controls.(eventsBusy := false, previousDisabled := true, nextDisabled := true))
  }

  function EventsRendered(v: View, load: int, data: Option<EventsPage>): View {
    if data.None? then EventsReset(v)
    else v.(display := v.display.(shownEvents := Some(Filters(v.state.account, v.state.period)), rows := Some(load)),
            state := v.state.(page := data.value.page, totalPages := data.value.totalPages),
            controls := v.controls.(previousDisabled := data.value.page <= 1, nextDisabled := data.value.page >= data.value.totalPages))
  }

  /** The first login that equals the account up to case. */
  function FirstMatch(logins: seq<string>, account: string): (found: Option<string>)
    ensures found.Some? ==> found.value in logins && Lower(found.value) == Lower(account)
    ensures found.None? ==> forall x | x in logins :: Lower(x) != Lower(account)
  {
    if logins == [] then None
    else if Lower(logins[0]) == Lower(account) then Some(logins[0])
    else FirstMatch(logins[1..], account)
  }

  /** The spelling of the account that the dashboard uses, when it has the account. */
  function Canonical(logins: seq<string>, account: string): string {
    var found := FirstMatch(logins, account);
    if found.Some? then found.value else account
  }

  predicate StaleRefresh(v: View, i: int)
    requires 0 <= i < |v.refreshes|
  {
    v.refreshes[i].id != v.refreshID || v.refreshes[i].aborted
  }

  predicate StaleLoad(v: View, j: int)
    requires 0 <= j < |v.loads|
  {
    v.loads[j].id != v.refreshID || v.loads[j].aborted
  }

  function InStage(v: View, i: int, stage: Stage): View
    requires 0 <= i < |v.refreshes|
  {
    v.(refreshes := v.refreshes[i := v.refreshes[i].(stage := stage)])
  }

  function SyncReplied(v: View, i: int): View
    requires 0 <= i < |v.refreshes|
  {
    InStage(v, i, if StaleRefresh(v, i) then Settled else Loading)
  }

  /** Draws the dashboard and goes on to the events of its account. */
  function DashboardDrawn(v: View, i: int, logins: seq<string>): View {
    var account := Canonical(logins, v.state.account);
    var drawn := v.(state := v.state.(account := account), display := v.display.(drawn := Some(i)));
    var cleared :=
      if account != "" && v.display.shownEvents != Some(Filters(account, v.state.period)) then EventsReset(drawn) else drawn;
    if account != "" && account in logins then LoadStarted(cleared) else EventsReset(cleared)
  }

  /** The refresh is over: the page is neither busy nor synchronizing. */
  function Done(v: View): View {
    v.(controls := v.controls.(contentBusy := false, syncing := false))
  }

  function DashboardReplied(v: View, i: int, logins: seq<string>): View
    requires 0 <= i < |v.refreshes|
  {
    var settled := InStage(v, i, Settled);
    if StaleRefresh(v, i) then settled else Done(DashboardDrawn(settled, i, logins))
  }

  function LoadSettled(v: View, j: int): View
    requires 0 <= j < |v.loads|
  {
    v.(loads := v.loads[j := v.loads[j].(pending := false)])
  }

  function EventsReplied(v: View, j: int, data: Option<EventsPage>): View
    requires 0 <= j < |v.loads|
  {
    var settled := LoadSettled(v, j);
    if StaleLoad(v, j) then settled
    else
      var rendered := EventsRendered(settled, j, data);
      rendered.(controls := rendered.controls.(eventsBusy := false))
  }

  function FiltersSelected(v: View, account: string, period: string): View {
    Refreshed(v.(state := v.state.(account := account, period := period)), false)
  }

  function HistoryMoved(v: View, account: string, period: string): View {
    if Lower(account) == Lower(v.state.account) && period == v.state.period then v else FiltersSelected(v, account, period)
  }

  function Submitted(v: View): View {
    if v.controls.syncing then v else Refreshed(v, true)
  }

  function PageTurned(v: View, page: int): View {
    LoadStarted(v.(state := v.state.(page := page)))
  }

  function PreviousClicked(v: View): View {
    if v.state.page > 1 then PageTurned(v, v.state.page - 1) else v
  }

  function NextClicked(v: View): View {
    if v.state.page < v.state.totalPages then PageTurned(v, v.state.page + 1) else v
  }
}
