/** web/app.js: the handlers of the page at work. The page is valid when its history of events accounts for what it shows. */
module PageScript {
  import opened Text
  import opened Usage
  import opened Page
  import opened PageRuns

  lemma Opens(account: string, period: string)
    ensures Shows([], FiltersSelected(Blank, account, period))
  {
  }

  lemma ShowsOn(history: seq<Step>, v: View, step: Step)
    requires Shows(history, v) && Enabled(v, step)
    ensures Shows(history + [step], Apply(v, step))
  {
    hide Enabled, Apply;
    assert (history + [step])[..|history|] == history;
  }

  /** The newest refresh was started with a synchronization and is still in flight. */
  predicate InSync(v: View) {
    |v.refreshes| > 0 && Newest(v).sync && Newest(v).stage != Settled
  }

  /** A refresh was just started for the filters, and everything asked for before is aborted. */
  ghost predicate Restarted(before: View, after: View, account: string, period: string, sync: bool) {
    && after.state == State(account, period, 1, before.state.totalPages) && after.display == before.display
    && |after.refreshes| == |before.refreshes| + 1 && |after.loads| == |before.loads|
    && Newest(after).account == account && Newest(after).period == period && Newest(after).sync == sync
    && !Newest(after).aborted && Newest(after).stage == (if sync then Syncing else Loading)
    && (forall i | 0 <= i < |before.refreshes| :: after.refreshes[i] == before.refreshes[i].(aborted := true))
    && (forall j | 0 <= j < |before.loads| :: after.loads[j] == before.loads[j].(aborted := true))
    && after.controls == Controls(sync, true, true, true, true)
  }

  /** An events load was just started for the filters on the page, and all those before it are aborted. */
  ghost predicate Turned(before: View, after: View, page: int) {
    && after.state == before.state.(page := page) && after.refreshes == before.refreshes && after.display == before.display
    && after.loads == AbortLoad(before.loads, |before.loads| - 1)
         + [Load(before.refreshID, before.state.account, before.state.period, page, true, false)]
    && (forall j | 0 <= j < |before.loads| :: after.loads[j] == before.loads[j].(aborted := true))
    && after.controls.eventsBusy
  }

  /** Paging asks for the page when it is there, and otherwise changes nothing. */
  ghost predicate Paged(before: View, after: View, page: int, there: bool) {
    if there then Turned(before, after, page) else after == before
  }

  lemma RefreshedRestarts(v: View, account: string, period: string, sync: bool)
    requires Sound(v)
    ensures Restarted(v, Refreshed(v.(state := v.state.(account := account, period := period)), sync), account, period, sync)
  {
    hide InFlight, Arrived, DisplaySound;
    var after := Refreshed(v.(state := v.state.(account := account, period := period)), sync);
    forall i | 0 <= i < |v.refreshes|
      ensures after.refreshes[i] == v.refreshes[i].(aborted := true)
    {
    }
    forall j | 0 <= j < |v.loads|
      ensures after.loads[j] == v.loads[j].(aborted := true)
    {
    }
  }

  lemma PageTurns(v: View, page: int)
    requires Sound(v)
    ensures Turned(v, PageTurned(v, page), page)
  {
    hide InFlight, Arrived, DisplaySound, RefreshesSound;
    var after := PageTurned(v, page);
    forall j | 0 <= j < |v.loads|
      ensures after.loads[j] == v.loads[j].(aborted := true)
    {
    }
  }

  // ---- the handlers as steps

  lemma NextShows(history: seq<Step>, v: View)
    requires Shows(history, v) && !v.controls.nextDisabled
    ensures Shows(history + [Next], NextClicked(v))
  {
    hide Shows, NextClicked;
    ShowsOn(history, v, Next);
  }

  lemma NextStep(history: seq<Step>, v: View)
    requires Shows(history, v) && !v.controls.nextDisabled
    ensures Shows(history + [Next], NextClicked(v))
    ensures NextClicked(v) ==
      if v.state.page < v.state.totalPages then LoadStarted(v.(state := v.state.(page := v.state.page + 1))) else v
    ensures Paged(v, NextClicked(v), v.state.page + 1, v.state.page < v.state.totalPages)
  {
    hide Shows, Sound, LoadStarted, Turned;
    NextShows(history, v);
    Reachable(history, v);
    PageTurns(v, v.state.page + 1);
  }

  lemma PreviousShows(history: seq<Step>, v: View)
    requires Shows(history, v) && !v.controls.previousDisabled
    ensures Shows(history + [Previous], PreviousClicked(v))
  {
    hide Shows, PreviousClicked;
    ShowsOn(history, v, Previous);
  }

  lemma PreviousStep(history: seq<Step>, v: View)
    requires Shows(history, v) && !v.controls.previousDisabled
    ensures Shows(history + [Previous], PreviousClicked(v))
    ensures PreviousClicked(v) ==
      if v.state.page > 1 then LoadStarted(v.(state := v.state.(page := v.state.page - 1))) else v
    ensures Paged(v, PreviousClicked(v), v.state.page - 1, v.state.page > 1)
  {
    hide Shows, Sound, LoadStarted, Turned;
    PreviousShows(history, v);
    Reachable(history, v);
    PageTurns(v, v.state.page - 1);
  }

  lemma MoveStep(history: seq<Step>, v: View, account: string, period: string)
    requires Shows(history, v)
    ensures Shows(history + [Move(account, period)], HistoryMoved(v, account, period))
    ensures Shows(history + [Select(account, period)], FiltersSelected(v, account, period))
    ensures FiltersSelected(v, account, period) == Refreshed(v.(state := v.state.(account := account, period := period)), false)
    ensures Restarted(v, FiltersSelected(v, account, period), account, period, false)
    ensures HistoryMoved(v, account, period) ==
      if Lower(account) == Lower(v.state.account) && period == v.state.period then v else FiltersSelected(v, account, period)
  {
    ShowsOn(history, v, Move(account, period));
    ShowsOn(history, v, Select(account, period));
    Reachable(history, v);
    RefreshedRestarts(v, account, period, false);
    hide Shows, Sound, Refreshed, Restarted, Lower;
  }

  lemma SubmitStep(history: seq<Step>, v: View)
    requires Shows(history, v)
    ensures Shows(history + [Submit], Submitted(v))
    ensures Submitted(v) == if v.controls.syncing then v else Refreshed(v, true)
    ensures InSync(v) <==> v.controls.syncing
    ensures Restarted(v, Refreshed(v, true), v.state.account, v.state.period, true)
  {
    ShowsOn(history, v, Submit);
    Reachable(history, v);
    LabelExact(history, v);
    RefreshedRestarts(v, v.state.account, v.state.period, true);
    hide Shows, Sound, Refreshed, Restarted;
  }

  lemma SyncStep(history: seq<Step>, v: View, i: int)
    requires Shows(history, v) && WaitsIn(v, i, Syncing)
    ensures 0 <= i < |v.refreshes|
    ensures Shows(history + [SyncReply(i)], SyncReplied(v, i))
    ensures SyncReplied(v, i) == InStage(v, i, if i == |v.refreshes| - 1 then Loading else Settled)
    ensures SyncReplied(v, i) == InStage(v, i, if StaleRefresh(v, i) then Settled else Loading)
  {
    ShowsOn(history, v, SyncReply(i));
    SyncAnswered(history, v, i);
    hide Shows, StaleRefresh;
  }

  lemma DashboardStep(history: seq<Step>, v: View, i: int, logins: seq<string>)
    requires Shows(history, v) && WaitsIn(v, i, Loading)
    ensures 0 <= i < |v.refreshes|
    ensures Shows(history + [DashboardReply(i, logins)], DashboardReplied(v, i, logins))
    ensures DashboardSettled(v, DashboardReplied(v, i, logins), i, logins)
    ensures StaleRefresh(v, i) ==> DashboardReplied(v, i, logins) == InStage(v, i, Settled)
    ensures !StaleRefresh(v, i) ==> DashboardReplied(v, i, logins) == Done(DashboardDrawn(InStage(v, i, Settled), i, logins))
  {
    ShowsOn(history, v, DashboardReply(i, logins));
    DashboardAnswered(history, v, i, logins);
    InRange(v, i);
    hide Shows, StaleRefresh, DashboardDrawn, Lower;
  }

  lemma EventsStep(history: seq<Step>, v: View, j: int, data: Option<EventsPage>)
    requires Shows(history, v) && Pending(v, j)
    ensures 0 <= j < |v.loads|
    ensures Shows(history + [EventsReply(j, data)], EventsReplied(v, j, data))
    ensures EventsSettled(v, EventsReplied(v, j, data), j, data)
    ensures StaleLoad(v, j) ==> EventsReplied(v, j, data) == LoadSettled(v, j)
    ensures !StaleLoad(v, j) ==>
      var shown := EventsRendered(LoadSettled(v, j), j, data);
      EventsReplied(v, j, data) == shown.(controls := shown.controls.(eventsBusy := false))
  {
    ShowsOn(history, v, EventsReply(j, data));
    EventsAnswered(history, v, j, data);
    PendingLast(v, j);
    hide Shows, StaleLoad, EventsRendered;
  }

  class Script {
    var state: State
    var refreshID: int
    var refreshes: seq<Refresh>
    var dashboardController: int
    var loads: seq<Load>
    var eventsController: int
    var controls: Controls
    var display: Display
    ghost var history: seq<Step>

    function Look(): View
      reads this
    {
      View(state, refreshID, refreshes, dashboardController, loads, eventsController, controls, display)
    }

    ghost predicate Valid()
      reads this
    {
      Shows(history, Look())
    }

    /** Reads the filters of the location and loads the page. */
    constructor (account: string, period: string)
      ensures Valid() && history == []
      ensures Look() == FiltersSelected(Blank, account, period)
    {
      state, refreshID := State(account, period, 1, 1), 0;
      refreshes, dashboardController, loads, eventsController := [], -1, [], -1;
      controls, display := Controls(false, false, false, true, true), Display(None, None, None);
      history := [];
      new;
      RefreshNow(false);
      Opens(account, period);
    }

    // ---- parts of the handlers

    /** `refresh` up to its first await. */
    method RefreshNow(sync: bool)
      modifies this
      ensures Look() == Refreshed(old(Look()), sync) && history == old(history)
    {
      hide AbortRefresh, AbortLoad;
      refreshes := AbortRefresh(refreshes, dashboardController);
      loads := AbortLoad(loads, eventsController);
      dashboardController := |refreshes|;
      refreshID := refreshID + 1;
      state := state.(page := 1);
      controls := Controls(sync, true, true, true, true);
      refreshes := refreshes + [Refresh(refreshID, state.account, state.period, sync, if sync then Syncing else Loading, false)];
    }

    /** `loadEvents` up to its await. */
    method LoadEvents()
      modifies this
      ensures Look() == LoadStarted(old(Look())) && history == old(history)
    {
      hide AbortLoad;
      loads := AbortLoad(loads, eventsController);
      eventsController := |loads|;
      controls := controls.(eventsBusy := true);
      loads := loads + [Load(refreshID, state.account, state.period, state.page, true, false)];
    }

    method ResetEvents()
      modifies this
      ensures Look() == EventsReset(old(Look())) && history == old(history)
    {
      display := display.(shownEvents := None, rows := None);
      controls := controls.(eventsBusy := false, previousDisabled := true, nextDisabled := true);
    }

    method RenderEvents(load: int, data: Option<EventsPage>)
      modifies this
      ensures Look() == EventsRendered(old(Look()), load, data) && history == old(history)
    {
      if data.None? {
        ResetEvents();
        return;
      }
      display := display.(shownEvents := Some(Filters(state.account, state.period)), rows := Some(load));
      state := state.(page := data.value.page, totalPages := data.value.totalPages);
      controls := controls.(previousDisabled := state.page <= 1, nextDisabled := state.page >= state.totalPages);
    }

    /** `renderDashboard` and what follows it; `logins` are the accounts of the reply. */
    method RenderDashboard(i: int, logins: seq<string>)
      modifies this
      ensures Look() == DashboardDrawn(old(Look()), i, logins) && history == old(history)
    {
      hide FirstMatch, Lower, LoadStarted;
      var selected := FirstMatch(logins, state.account);
      if selected.Some? {
        state := state.(account := selected.value);
      }
      display := display.(drawn := Some(i));
      var found := state.account in logins;
      if state.account != "" && display.shownEvents != Some(Filters(state.account, state.period)) {
        ResetEvents();
      }
      if state.account != "" && found {
        LoadEvents();
      } else {
        ResetEvents();
      }
    }

    // ---- the handlers

    /** The dashboard is asked for next, if this is the newest refresh; any other one ends here. */
    method OnSyncReply(i: int)
      requires Valid() && WaitsIn(Look(), i, Syncing)
      modifies this
      ensures Valid() && history == old(history) + [SyncReply(i)]
      ensures Look() == InStage(old(Look()), i, if i == |refreshes| - 1 then Loading else Settled)
    {
      hide Shows, WaitsIn;
      SyncStep(history, Look(), i);
      var stale := refreshes[i].id != refreshID || refreshes[i].aborted;
      refreshes := refreshes[i := refreshes[i].(stage := if stale then Settled else Loading)];
      history := history + [SyncReply(i)];
    }

    /** The rest of `refresh`; there are no logins when the reply brought no data. */
    method OnDashboardReply(i: int, logins: seq<string>)
      requires Valid() && WaitsIn(Look(), i, Loading)
      modifies this
      ensures Valid() && history == old(history) + [DashboardReply(i, logins)]
      ensures DashboardSettled(old(Look()), Look(), i, logins)
      ensures Look() == DashboardReplied(old(Look()), i, logins)
    {
      hide Shows, WaitsIn, DashboardDrawn, DashboardReplied, DashboardSettled;
      DashboardStep(history, Look(), i, logins);
      refreshes := refreshes[i := refreshes[i].(stage := Settled)];
      history := history + [DashboardReply(i, logins)];
      if refreshes[i].id != refreshID || refreshes[i].aborted {
        return;
      }
      RenderDashboard(i, logins);
      controls := controls.(contentBusy := false, syncing := false);
    }

    /** The rest of `loadEvents`. */
    method OnEventsReply(j: int, data: Option<EventsPage>)
      requires Valid() && Pending(Look(), j)
      modifies this
      ensures Valid() && history == old(history) + [EventsReply(j, data)]
      ensures EventsSettled(old(Look()), Look(), j, data)
      ensures Look() == EventsReplied(old(Look()), j, data)
    {
      hide Shows, Pending, EventsRendered, EventsReplied, EventsSettled;
      EventsStep(history, Look(), j, data);
      loads := loads[j := loads[j].(pending := false)];
      history := history + [EventsReply(j, data)];
      if loads[j].id != refreshID || loads[j].aborted {
        return;
      }
      RenderEvents(j, data);
      controls := controls.(eventsBusy := false);
    }

    /** The page starts again with the filters. */
    method SelectFilters(account: string, period: string)
      requires Valid()
      modifies this
      ensures Valid() && history == old(history) + [Select(account, period)]
      ensures Restarted(old(Look()), Look(), account, period, false)
    {
      hide Shows, Refreshed, Restarted, FiltersSelected, HistoryMoved, Lower;
      MoveStep(history, Look(), account, period);
      state := state.(account := account, period := period);
      RefreshNow(false);
      history := history + [Select(account, period)];
    }

    /** The filters are those of the location the history moved to; the same ones, the account up to case, change nothing. */
    method OnPopState(account: string, period: string)
      requires Valid()
      modifies this
      ensures Valid() && history == old(history) + [Move(account, period)]
      ensures if Lower(account) == Lower(old(state.account)) && period == old(state.period) then Look() == old(Look())
              else Restarted(old(Look()), Look(), account, period, false)
    {
      hide Shows, Refreshed, Restarted, FiltersSelected, HistoryMoved, Lower;
      MoveStep(history, Look(), account, period);
      history := history + [Move(account, period)];
      if Lower(account) == Lower(state.account) && period == state.period {
        return;
      }
      state := state.(account := account, period := period);
      RefreshNow(false);
    }

    /** A synchronization starts, unless the newest refresh is one that is still in flight. */
    method OnSubmit()
      requires Valid()
      modifies this
      ensures Valid() && history == old(history) + [Submit]
      ensures if old(InSync(Look())) then Look() == old(Look())
              else Restarted(old(Look()), Look(), old(state.account), old(state.period), true)
    {
      hide Shows, Refreshed, Restarted, InSync, Submitted;
      SubmitStep(history, Look());
      history := history + [Submit];
      if !controls.syncing {
        RefreshNow(true);
      }
    }

    /** The page before is asked for, if there is one. */
    method OnPrevious()
      requires Valid() && !controls.previousDisabled
      modifies this
      ensures Valid() && history == old(history) + [Previous]
      ensures Paged(old(Look()), Look(), old(state.page) - 1, old(state.page) > 1)
    {
      hide Shows, LoadStarted, Paged, PreviousClicked;
      PreviousStep(history, Look());
      history := history + [Previous];
      if state.page > 1 {
        state := state.(page := state.page - 1);
        LoadEvents();
      }
    }

    /** The page after is asked for, if there is one. */
    method OnNext()
      requires Valid() && !controls.nextDisabled
      modifies this
      ensures Valid() && history == old(history) + [Next]
      ensures Paged(old(Look()), Look(), old(state.page) + 1, old(state.page < state.totalPages))
    {
      hide Shows, LoadStarted, Paged, NextClicked;
      NextStep(history, Look());
      history := history + [Next];
      if state.page < state.totalPages {
        state := state.(page := state.page + 1);
        LoadEvents();
      }
    }
  }
}
