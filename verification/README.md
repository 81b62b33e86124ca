# Verified model of the Copilot API dashboard

The dashboard keeps the daily usage of Copilot API accounts in SQLite. An instance only ever reports a snapshot of
its whole lifetime, and it is an unreliable witness: snapshots arrive late, repeatedly, out of order or incomplete, and
an instance whose own database was rebuilt starts counting again. This project models what the program does with these
snapshots, from the write to the chart, and the two protocols around it (shared synchronization tasks in the service,
overlapping requests in the page), and proves what it guarantees.

The modules follow the source files.

- `Usage`, `Text`, `Sorting`, `Grouping`, `Gathering`, `Tally` — records, byte order and case of text, sorting, and the
  algebra of sums by key that the other modules calculate in.
- `Segments`, `History`, `Runs`, `Effects`, `Losses`, `Decisions` — an account owns a list of segments, each with a start
  date and one row per date. `Segments` defines what a snapshot does: overwrite rows of the newest segment, be refused, or
  open a new segment. The other modules prove what one save and whole runs of saves do; `Decisions` says in terms of the
  figures themselves when each of the three happens.
- `Registry`, `Store`, `Reachable`, `Origins`, `RoundTrip` — the sources table, the `Store` class whose methods carry out
  the saves and loads step by step, every database that a run of requests can reach, and how saving and loading meet.
- `Loader`, `LoadLoops`, `Load` — the reader: four queries, the loops that collect their rows with index maps, the
  final sorts, and the proof that the result is a plain sum by key.
- `Aggregate`, `Calendar`, `Filling`, `Dashboard` — merging days, models and costs; dates; filling the chart; the
  persisted dashboard as a whole.
- `Discovery` — removing duplicate endpoints and choosing an endpoint for each login.
- `SyncGate`, `SyncKey`, `SharedSync`, `SyncRuns`, `Synchronize` — counting tasks up to shutdown, the key that tasks
  are shared by, sharing tasks among callers while they save to the database, what callers and the shutdown can rely on,
  and what it means that a synchronization reports no failure.
- `Page`, `PageRuns`, `PageScript` — the page: its state, what it shows under every interleaving of events, and the
  script whose handlers are the events.

Saves, loads, merges, deduplication, the gate and the page script are methods, written with the loops and the updates of
the original and proved against functions and predicates on values; what these promise is proved about the values. A
database transaction works on a private copy of the tables, which replaces the tables only when the save succeeds.

Four properties hold only under a condition, which is stated exactly, with an input for which they fail.

- A figure of a date shrinks when a save corrects a row that was already closed, and in no other case
  (`Losses.LossExactly`, `Losses.ClosedRowMayShrink`).
- The first save of an account keeps all days exactly when no day has a date before that of the day that starts first
  (`Effects.FirstSave`, `Effects.FirstSaveMayDrop`).
- An account shares its synchronization key with no other one exactly when its login contains no NUL, and neither does
  its name, unless a capital letter in the URL sets it apart (`SyncKey.KeyUniqueExactly`, `SyncKey.KeyConfusesNul`).
- A windowed chart has exactly the dates of the window when everything that was loaded lies in it. That is so while the
  clock stays on one day; it can fail when midnight passes between a load and the filling
  (`Dashboard.PersistedDashboard`, `Dashboard.MidnightMovesWindow`).

## Model

| member | source | states |
|---|---|---|
| Losses.LossExactly | internal/store/sqlite/store.go:197-223 | With non-negative counters, a successful save lowers a figure of a date (any counter, AIU, currency, of the totals or of one model, summed over all segments) if and only if it corrects a closed row of the newest segment downwards. |
| Losses.ClosedRowMayShrink | internal/store/sqlite/store.go:393-396 | Two snapshots of one account, the second one saved after the first, for which the sum of a date gets smaller. |
| History.NothingLost | internal/store/sqlite/store.go:197-223 | A date whose newest row is not closed keeps at least every counter, currency and model it had, through overwrites and resets alike. |
| History.KeptDay | internal/store/sqlite/store.go:508-526 | A day that passes the reset test and the detail test is at least the row it replaces: in every counter, AIU, currency and model. |
| Runs.RunLosesNothing | internal/store/sqlite/store.go:157-228 | Over any run of saves, failed ones included, nothing a date added up to is lost while its newest row is never closed. |
| Runs.RunExplained | internal/store/sqlite/store.go:216-223 | After any run, each row is the day entry of the snapshot with the largest end, the last one on ties, among the snapshots applied to that segment that have the date; totals, costs and models come from that one snapshot. |
| Runs.RunKeepsSegments | internal/store/sqlite/store.go:186-223 | Between any two moments of a run: ordinals are 0 to n-1, start dates do not decrease, rows are well formed, rows never disappear, snapshot ends never decrease, and segments that were not newest do not change. |
| History.SaveKeepsSegments | internal/store/sqlite/store.go:186-223 | One successful save keeps that invariant, whether it overwrites or opens a segment. |
| Effects.OverwriteEffect | internal/store/sqlite/store.go:201-223 | Without a reset, a load of any period sees each day that is not stale and not before the segment replace what the newest segment contributed to its date, on top of all older segments; every other date is unchanged. |
| Effects.ResetEffect | internal/store/sqlite/store.go:208-223 | On a reset, a load of any period sees dates from the reset date on gain exactly the values of the snapshot, and every other date keep its value. |
| Decisions.RebuiltExactly | internal/store/sqlite/store.go:367-372 | A day shows a reset exactly when it meets a row that was still being filled, in a snapshot no older, and one of the six counters or the AIU figure is lower, or it starts only after the row ended. |
| Decisions.OpensExactly | internal/store/sqlite/store.go:197-214 | A successful save opens one segment if and only if some day shows in this way that the upstream database was rebuilt, and otherwise none. |
| Decisions.RebuiltAdds | internal/store/sqlite/store.go:208-223 | The sum of a date that shows a rebuilt database gains all that the snapshot reports for it, also when the new database has caught up, so nothing of it is overwritten. |
| Decisions.RefusedExactly | internal/store/sqlite/store.go:374-391 | A snapshot without duplicate keys is refused, and then as incomplete, if and only if no day shows a rebuilt database and a day that meets an open row lacks its AIU figure, a cost, a model, or has one of these lower. |
| Decisions.SavedWithoutDuplicates | internal/store/sqlite/store.go:560-579 | Each day that a saved snapshot brings into the newest segment has no two costs in one currency, no two models of one name, and no such costs within a model. |
| Decisions.LastCostCounts | internal/store/sqlite/store.go:494-506 | Of several costs in one currency the detail test looks at the last one. |
| Effects.WholeFigure | internal/store/sqlite/store.go:642 | A period that holds every row start shows exactly the sum over all segments, so the statements about loads and about sums agree. |
| Effects.SaveTwice | internal/store/sqlite/store.go:350-391 | Repeating a successful save succeeds, opens no segment and changes no row, also right after a save that opened one. |
| Effects.SameNotRegressed | internal/store/sqlite/store.go:486-526 | No day ever looks like a reset or an incomplete snapshot compared with the row it made itself. |
| Effects.ApplyPermuted | internal/store/sqlite/store.go:528-546 | Writing snapshots with pairwise different ends into a segment gives the same rows in every order. |
| Effects.Convergence | internal/store/sqlite/store.go:201-223 | Any number of snapshots with different ends that are accepted without a reset in two orders leave the same history. |
| Effects.FirstSave | internal/store/sqlite/store.go:190-195 | The first segment starts at the date of the day that starts first, and every day is kept if and only if no date is before that one. |
| Effects.FirstSaveMayDrop | internal/store/sqlite/store.go:190-220 | A valid snapshot whose first save succeeds and drops one of its two days. |
| Segments.InOrderDays | internal/store/sqlite/store.go:161-167 | The order in which days are handled is a rearrangement sorted by start and date, and the only one, so the unstable sort does not matter. |
| Segments.ResetDate | internal/store/sqlite/store.go:350-365 | The reset date is the least date among the days that show a reset, and there is none exactly when no day does; `Decisions.RebuiltExactly` says what showing a reset means. |
| Segments.InvalidExactly | internal/store/sqlite/store.go:230-243 | A snapshot is invalid exactly when it is missing, its end is not positive, a day has no date, no totals or an improper interval, or a date occurs twice. |
| Losses.FigureBalanced | internal/store/sqlite/store.go:608-700 | If every stored row is the sum of its models, so is every loaded figure of every period. |
| Store.ValidateDaily | internal/store/sqlite/store.go:230-243 | Accepts exactly the snapshots with a positive end whose days have totals, a proper interval within the snapshot, and pairwise distinct non-empty dates. |
| Store.LatestSegment | internal/store/sqlite/store.go:324-335 | Finds a segment with the greatest ordinal, and none exactly when there are no segments. |
| Store.CreateSegment | internal/store/sqlite/store.go:337-348 | Adds an empty segment after the others, and fails exactly when the ordinal is taken. |
| Store.LoadMutableDays | internal/store/sqlite/store.go:393-421 | Returns exactly the open rows of a segment. |
| Store.FindResetDate | internal/store/sqlite/store.go:350-365 | The loop over the days computes the least reset date of the segment. |
| Store.ValidateDetails | internal/store/sqlite/store.go:374-391 | Reports a snapshot complete exactly when no day that meets an open row falls behind it in a detail. |
| Store.CheckCosts | internal/store/sqlite/store.go:494-506 | Reports a regression exactly when some stored currency is missing from the costs or lower there. |
| Store.CheckDetails | internal/store/sqlite/store.go:508-526 | Reports a regression exactly when AIU vanished, a cost or a model regressed, or a model is missing. |
| Store.InsertCosts | internal/store/sqlite/store.go:560-564 | Succeeds exactly when no currency occurs twice, and then stores every cost under its currency. |
| Store.InsertModels | internal/store/sqlite/store.go:565-579 | Succeeds exactly when no model, and within a model no currency, occurs twice, and then stores all of them. |
| Store.ReplaceDay | internal/store/sqlite/store.go:528-581 | Leaves a row of a newer snapshot alone; otherwise the row of the date becomes the day with all its details, or the save fails on a duplicate key. |
| Store.WriteDays | internal/store/sqlite/store.go:216-223 | The loop that writes the days fails exactly when a day that lands has a duplicate key, and otherwise replaces the rows of the days that land. |
| Store.ChooseSegment | internal/store/sqlite/store.go:197-223 | From the newest segment on, the save carries out the decision between overwriting, refusing and opening a segment as specified. |
| Store.SaveInto | internal/store/sqlite/store.go:157-228 | For a valid snapshot the whole of the steps on the segments computes the specified history or its specified error. |
| Store.Store.SaveDaily | internal/store/sqlite/store.go:157-228 | The tables become the specified tables when the save succeeds, and are unchanged when it fails. |
| Store.Store.LoadDaily | internal/store/sqlite/store.go:608-700 | Returns the view of the account that the name, URL and login lead to, absent when there is none, an error exactly when the identity is ambiguous; changes nothing. |
| RoundTrip.SavedFound | internal/store/sqlite/store.go:157-228 | After a save, its name, its URL and any spelling of its login that differs in case only lead to the history they led to before, with the snapshot saved to it. |
| RoundTrip.OthersKept | internal/store/sqlite/store.go:245-279 | Any other login of the source leads to the account it led to before, or still to none. |
| RoundTrip.LoadAfterSave | internal/store/sqlite/store.go:608-700 | A load after a save returns the view of the history with the snapshot, under any spelling of the login. |
| RoundTrip.AccountsExactly | internal/store/sqlite/store.go:263-277 | In a reachable database a source has an account exactly for the logins that were saved for it, in any spelling. |
| RoundTrip.RefusedExactly | internal/store/sqlite/store.go:157-228 | A request fails exactly because its snapshot is invalid, its name and URL belong to two sources, or the history it is for refuses it, in this order. |
| RoundTrip.SavedDayLoaded | internal/store/sqlite/store.go:528-700 | A day whose date is new to the account, and not before its segment, is loaded with the same bounds, counters, AIU figure, costs and models as were saved, in the reader's order. |
| RoundTrip.LoadedSums | internal/store/sqlite/store.go:635-829 | Every figure of a loaded day, in total and by model, is the integer sum of the stored rows of its date in the period; its bounds are the least start and the greatest end of these, and AIU is present exactly when one of them has it. |
| Text.LowerExactly | internal/store/sqlite/store.go:263 | Lower case tells two logins apart exactly when they differ in more than the case of the letters A to Z. |
| Store.SavedValid | internal/store/sqlite/store.go:157-228 | A save keeps the tables valid: distinct names, distinct URLs, and the segment invariant in every account. |
| Reachable.RequestEffect | internal/store/sqlite/store.go:157-228 | A request affects the history of no account but its own. |
| Reachable.AccountRuns | internal/store/sqlite/store.go:157-228 | In every reachable database the tables are valid, and the history of each account is the run of the snapshots routed to it, so all statements about runs hold for it. |
| Reachable.RequestTwice | internal/store/sqlite/store.go:157-228 | Repeating a successful request succeeds and leaves the whole database as it is. |
| Reachable.HistoryGrows | internal/store/sqlite/store.go:157-228 | Between any two moments of a run of requests for any accounts, every history only grows: rows stay, snapshot ends do not decrease, older segments do not change. |
| Reachable.SavedStays | internal/store/sqlite/store.go:157-228 | A snapshot that was saved stays: whatever is requested later, the segment that was newest after the save has each date of the snapshot that it covers, from this snapshot or a later one. |
| Origins.DatabaseOrigins | internal/store/sqlite/store.go:528-581 | Each row of a reachable database is a day of a snapshot that was saved, at a moment when the database accepted it. |
| Origins.RunBalanced | internal/store/sqlite/store.go:528-581 | If in every snapshot that is saved each day is the sum of its models, so is every stored row of every reachable database. |
| Origins.RunLabelled | internal/store/sqlite/store.go:528-581 | If in every snapshot that is saved each day starts within the date it is labelled with, so does every stored row. |
| Registry.ResolveSourceID | internal/store/sqlite/store.go:281-322 | With distinct names and URLs, the loop over the matches returns the owner of the name, else that of the URL, and an error when these are two. |
| Registry.PersistAccount | internal/store/sqlite/store.go:245-279 | Updates or adds the one source and keeps the segments of an account that exists. |
| Registry.AmbiguousExactly | internal/store/sqlite/store.go:281-322 | Resolving fails if and only if one source has the name and another one the URL; a column that matches twice cannot occur. |
| Registry.SourceKept | internal/store/sqlite/store.go:245-279 | Persisting a source keeps names and URLs distinct and all other sources unchanged, and the source resolves to itself. |
| Registry.SourceRecognised | internal/store/sqlite/store.go:281-322 | A persisted source is found again under its name with another URL, or its URL with another name, when no other source has the new value. |
| Load.LoadSegments | internal/store/sqlite/store.go:635-699 | The four queries and loops give one day for each date with a row in the period, dates increasing, least start and greatest end, and totals, costs and models that are the sums over the segments, AIU absent only if absent everywhere. |
| Load.ViewUnique | internal/store/sqlite/store.go:608-700 | The segments and the period determine the loaded days completely, order included. |
| Load.NoDayMissed | internal/store/sqlite/store.go:746-748 | Every cost row and every model row finds its day in the index: no lookup fails. |
| Load.NoModelMissed | internal/store/sqlite/store.go:815-817 | Every model cost row finds its model in the index of places. |
| Load.DayAssembled | internal/store/sqlite/store.go:702-829 | A day assembled from the sums of the four queries is the figure of its date. |
| Load.LoadCosts | internal/store/sqlite/store.go:728-756 | Adds to each day the sums of its cost rows by currency, in currency order. |
| Loader.GroupIsParts | internal/store/sqlite/store.go:635-640 | Whatever order rows come in, grouping them by a key gives the sum of what the segments hold under the key. |
| LoadLoops.CollectDays | internal/store/sqlite/store.go:647-682 | The loop with the date index gives strictly increasing dates, each found by the index, with the sums, least start and greatest end of its rows. |
| LoadLoops.CollectCosts | internal/store/sqlite/store.go:739-749 | The loop gives each day one cost per currency, the sum of the rows of its date. |
| LoadLoops.CollectModels | internal/store/sqlite/store.go:770-798 | The loop gives each day one model per name with the sums of its rows, and the index of places leads to each of them until the sorts. |
| LoadLoops.CollectModelCosts | internal/store/sqlite/store.go:809-818 | The loop gives each model one cost per currency, the sum of the rows of its date and name, and changes nothing else. |
| Aggregate.AddTotals | internal/dashboard/aggregate.go:12-44 | The result stands for the sum of both, by counter and currency, AIU absent only if absent in both, with sorted costs that have no duplicates. |
| Aggregate.MergeModels | internal/dashboard/aggregate.go:46-63 | The result stands for the sum of both lists by model, sorted and without duplicates when the first list was. |
| Aggregate.MergeDay | internal/dashboard/aggregate.go:65-82 | The chart gains exactly the day at its date, which is marked recorded; other dates are unchanged and the order is kept. |
| Aggregate.ChartUnique | internal/dashboard/aggregate.go:65-82 | A sorted chart without duplicates is determined by what it adds up to on each date. |
| Aggregate.ChartOrderFree | internal/dashboard/aggregate.go:65-82 | Merging the same days in any two orders gives the identical chart. |
| Aggregate.SummarizeDays | internal/dashboard/service.go:308-316 | Totals and models are the sum over the days, in canonical form. |
| Aggregate.SummaryOrderFree | internal/dashboard/service.go:308-316 | Summing the same days in any two orders gives identical totals and models. |
| Calendar.NextNumber | internal/dashboard/aggregate.go:119 | The closed formula for day numbers advances by one from each date to the next, through month ends, year ends and leap years. |
| Calendar.KnownDates | internal/dashboard/aggregate.go:102 | Day 0 is 1970-01-01, written so, and a day of 2024 has its date. |
| Calendar.LeapDays | internal/dashboard/aggregate.go:119 | Years divisible by 4 have a leap day, full centuries only when divisible by 400. |
| Filling.WeekdaysGoRound | internal/dashboard/aggregate.go:92 | 1970-01-01 was a Thursday, and weekdays follow one another. |
| Calendar.FormatOrder | internal/dashboard/aggregate.go:120 | The text order of formatted dates is the order of the days, as sorting by date text needs. |
| Calendar.ParseFormat | internal/dashboard/aggregate.go:102 | Reading a formatted date gives back the day; the form is full-date of section 5.6 of RFC 3339. |
| Calendar.FormatParse | internal/dashboard/aggregate.go:102 | A text that can be read is the format of exactly the day it is read as. |
| Filling.WindowStarts | internal/dashboard/aggregate.go:90-98 | Today is a window of its own, the week starts on a Monday at most six days back, the month on its first, the other windows have 7 and 30 days, and none is longer than a month. |
| Filling.PeriodStart | internal/store/sqlite/store.go:590-606 | The load of a lifetime begins at 0, and that of any other period at midnight of the window start, the very day from which a windowed chart is filled. |
| Filling.FillStart | internal/dashboard/aggregate.go:84-113 | A windowed period is filled from its window start. A lifetime is filled exactly when there are days, all dates can be read, and none lies more than 365 days back, from six days ago or the earliest date, whichever is earlier. No other period is filled. |
| Filling.FillDays | internal/dashboard/aggregate.go:84-128 | The result is the input with an empty day for each missing date of the span, in date order, or the input itself where nothing is to be filled. |
| Filling.FilledDays | internal/dashboard/aggregate.go:115-127 | Every input day is kept unchanged, every date of the span is present, and all other days are unrecorded days of the span without figures. |
| Filling.FilledSum | internal/dashboard/aggregate.go:115-127 | Filling does not change what the chart adds up to. |
| Filling.FilledConsecutive | internal/dashboard/aggregate.go:115-127 | When all input dates lie in the span, the filled chart has exactly the consecutive dates of the span. |
| Dashboard.PersistedDashboard | internal/dashboard/service.go:318-361 | Each account is loaded from the store as its transaction finds it and with its own clock reading, and the days are filled with a further one. Only accounts whose login equals the wanted one up to case, or all if none is wanted, are loaded and have figures. Grand totals equal the sum of the account totals and the sum of all loaded days and, with the models, the sum over the filled chart; each chart date shows the sum of what was loaded; sums stay balanced. A windowed chart has exactly the consecutive dates of the window if and only if every loaded date lies in it, so always when all readings fall on one day and rows are labelled with the day they start in. |
| Dashboard.CollectAccounts | internal/dashboard/service.go:324-358 | The loop over the accounts keeps these agreements after each account, for any clock reading and store state of each load; a login is found exactly when none is wanted or an account has it up to case, and is reported otherwise. |
| Dashboard.AddAccount | internal/dashboard/service.go:343-354 | Totals, models and chart all gain exactly the days of the account. |
| Dashboard.ProblemsExactly | internal/dashboard/service.go:334-341 | The problems are, in the order of the accounts and once for each: a wanted account that the store does not have, and one whose identity is ambiguous; no other account has one. |
| Dashboard.WithinExactly | internal/dashboard/aggregate.go:115-127 | A filled chart has exactly the dates of the span if and only if every day that was merged into it lies in the span. |
| Dashboard.LoadedWithin | internal/dashboard/service.go:334 | While the clock stays on one day, all days loaded from properly labelled rows lie in the window that is filled. |
| Dashboard.MidnightMovesWindow | internal/dashboard/service.go:334-359 | A saved snapshot and two clock readings on either side of midnight for which the loaded day lies outside the window, so that the filled chart does not have the dates of the window. |
| Dashboard.ViewInWindow | internal/store/sqlite/store.go:590-642 | A row that starts within its own date is loaded for a window only if its date is in the window. |
| Discovery.Deduplicate | internal/discovery/discovery.go:108-121 | Sorts the array in place and returns the endpoints that clash with none kept before them. |
| Discovery.DeduplicatedRight | internal/discovery/discovery.go:98-121 | Kept endpoints have distinct URLs and distinct names and are in order, and each dropped one shares a name or URL with a kept one not after it. |
| Discovery.FileFirst | internal/discovery/discovery.go:98-106 | Of the kept endpoints those of the endpoint file come first, and within a kind they are in the order of their URLs. |
| Discovery.FileKept | internal/discovery/discovery.go:98-121 | An endpoint of the file gives way only to another endpoint of the file. |
| Discovery.DeduplicatedTwice | internal/discovery/discovery.go:108-121 | A second pass changes nothing. |
| Discovery.DeduplicatedOrderFree | internal/discovery/discovery.go:98-121 | Endpoints that differ in source, URL or name give the same result in every input order. |
| Discovery.FirstAnswersRight | internal/dashboard/service.go:107-117 | There is exactly one account for each login, up to case, that was answered, from the first endpoint that answered with it. |
| Discovery.ResolveAccounts | internal/dashboard/service.go:97-121 | The accounts are those first answers in the order of their logins, and the failures are the endpoints that did not answer, in the order they were asked. |
| Discovery.SilentExactly | internal/dashboard/service.go:107-111 | The failures are exactly the endpoints that did not answer, once each, in the order they were asked. |
| SyncGate.Service.BeginSyncTask | internal/dashboard/service.go:201-209 | A task joins the running ones if and only if there was no stop, and the counter stays the number of running tasks. |
| SyncGate.Service.FinishSyncTask | internal/dashboard/service.go:211-218 | A running task leaves the running ones; closing never panics, and afterwards the channel is closed if and only if there was a stop and nothing runs. |
| SyncGate.Service.StopSync | internal/dashboard/service.go:221-230 | After any stop, the first or a later one, the running tasks are the same, the channel exists, and it is closed if and only if nothing runs. |
| SyncRuns.DrainCounts | internal/dashboard/service.go:201-233 | Under every interleaving the counter is the number of tasks between begin and finish, the channel is closed exactly when stopped with none, and it is never closed twice. |
| SyncRuns.DrainedForever | internal/dashboard/service.go:221-233 | Once a wait for shutdown has returned, no task runs, and on every continuation none starts and nothing is saved. |
| SyncRuns.ReleasesExactly | internal/dashboard/service.go:221-233 | A caller that waits for the shutdown is let go exactly when no task runs. |
| SyncRuns.OneTaskPerKey | internal/dashboard/service.go:270-291 | At most one task per key is under way at any time. |
| SyncRuns.OutcomeExactly | internal/dashboard/service.go:270-291 | A task that is done reports success exactly when it fetched and, for an account, committed; a failed fetch exactly when it began and did not fetch; a failed save exactly when an account was fetched and not committed; and cancellation exactly when it did not begin, because of the stop. |
| SyncRuns.ReturnsExactly | internal/dashboard/service.go:292-306 | A caller that did not give up returns exactly this outcome of its task; in particular success whenever the task committed. |
| SyncRuns.ReturnedForever | internal/dashboard/service.go:292-306 | What a caller has returned stays what it returned. |
| SyncRuns.CommitsExactly | internal/dashboard/service.go:283-289 | The commits to the database are exactly the snapshots of the tasks that saved. |
| SyncRuns.Succeeds | internal/dashboard/service.go:270-306 | From any state that is not stopped, a new caller alone with its account can fetch, commit a snapshot that the database accepts, and return success. |
| SyncRuns.SuccessIsReal | internal/dashboard/service.go:292-306 | A caller that reports no failure has the result of a task with its own key whose fetch succeeded, and for an account the fetched snapshot was then committed, at a moment when the database accepted it. |
| SyncRuns.SuccessIsStored | internal/dashboard/service.go:259-306 | If the parts of its account contain no NUL, the caller finds the snapshot its task fetched in the history of that very account, under every interleaving and whatever has been saved since. |
| SyncRuns.CallersIndependent | internal/dashboard/service.go:292-306 | For every run there is one without the cancellations and receipts of a given caller in which all tasks and all other callers end up the same. |
| SharedSync.AlwaysSound | internal/dashboard/service.go:235-306 | The invariant behind these statements, the outcomes, the keys and the commits included, holds after any number of steps of any number of callers, tasks and waiters. |
| SyncKey.KeyIdentifies | internal/dashboard/service.go:259-268 | With an injective digest, an account whose parts contain no NUL shares its key with another one, whose parts may contain anything, if and only if all five identity parts agree, the login up to case. |
| SyncKey.KeyUniqueExactly | internal/dashboard/service.go:259-268 | With NUL-free sources and URLs, the key of an account is its own if and only if its login contains no NUL, and its name contains none or its URL has a capital letter. |
| SyncKey.CapitalSetsApart | internal/dashboard/service.go:259-268 | An account with a NUL in its name whose key is its own, because logins enter the key in lower case and its URL does not fit into one. |
| SyncKey.KeyConfusesNul | internal/dashboard/service.go:259-268 | Two endpoints as a YAML file and an upstream can name them, with a NUL in a name and in a login, that share a key. |
| Synchronize.Report | internal/dashboard/service.go:371-393 | The failures are those of discovery, those of the accounts whose login equals the wanted one up to case, and that of an unknown login; there are none exactly when discovery had none, the login was found, and every such account succeeded. |
| Synchronize.FailuresExactly | internal/dashboard/service.go:382-389 | The reported failures of accounts are exactly those of matching accounts that failed, once each, with their outcome, in the order of the accounts. |
| Synchronize.SyncComplete | internal/dashboard/service.go:363-394 | When no failure is reported, the snapshot fetched for each matching account is in the history of that account, under every interleaving with other synchronizations. |
| PageScript.Script.OnDashboardReply | web/app.js:462-487 | From any reachable page to a reachable page: a reply to any but the newest refresh settles its own request and nothing else. The reply to the newest one was asked for with the filters of the page, is drawn, ends the refresh and adopts the spelling of the account; if the dashboard has the account, page 1 of its events is asked for, and otherwise the events are cleared and paging is off. |
| PageScript.Script.OnEventsReply | web/app.js:420-430 | From any reachable page to a reachable page: a reply to any but the newest live load settles its own request and nothing else; that one was asked for with the filters and page number in state, and its rows, page numbers and paging buttons are shown, or none when it failed. |
| PageScript.Script.OnPopState | web/app.js:566-571 | A history move to the same account, up to case, and period changes nothing; any other one restarts the page with the filters of the location and aborts every request made before. |
| PageScript.Script.SelectFilters | web/app.js:524-531 | The page restarts with the filters on page 1, every request made before is aborted, and the page stays reachable. |
| PageScript.Script.OnSubmit | web/app.js:558-561 | A synchronizing refresh starts, aborting every request made before, if and only if none is the newest refresh and still in flight. |
| PageScript.Script.OnNext | web/app.js:573 | The next page is asked for with the filters in state and all earlier loads are aborted, if there is a next page; otherwise nothing changes. |
| PageScript.Script.OnPrevious | web/app.js:572 | The same for the page before. |
| PageRuns.Reachable | web/app.js:376-573 | The invariant behind the following statements holds in every state the page can reach. |
| PageRuns.DashboardAnswered | web/app.js:462-478 | A dashboard reply is drawn if and only if it answers the newest refresh; then it was asked for with the filters now on the page, and exactly one pending load of the first events page follows when the dashboard has the account, and none otherwise. |
| PageRuns.EventsAnswered | web/app.js:376-431 | Only the newest events load, started by the newest refresh, is rendered; it was asked for with the filters and page number now in state, and its page numbers decide the paging buttons. |
| PageRuns.LabelExact | web/app.js:433-487 | The label says syncing if and only if the newest refresh is in flight and was started with a synchronization; the busy marks are exact as well. |
| PageRuns.ShownIsCurrent | web/app.js:464-478 | When the page is not busy, the drawn dashboard is that of the newest refresh, and any event rows were asked for with the filters on the page. |
| PageRuns.RowsAreNewest | web/app.js:413-431 | When the events are not busy either, the rows are those of the newest load, which the newest refresh led to. |

## Left out

- SQL text, drivers, pragmas, schema versions and file creation: the tables are modelled by their contents, their keys and an all-or-nothing commit. Errors of the driver, which fail the whole save or load, do not occur in the model.
- The three detail tables are kept as maps inside the row they belong to, so deletion by foreign key is the replacement of the row.
- The times at which sources, accounts and segments were first and last seen, and random source keys: no decision depends on them.
- Error texts: an ambiguous identity, an incomplete snapshot, an invalid one and a violated key are told apart; messages that differ for one of these are not.
- Updates through pointers in `aggregate.go` and in the reader (`*dst`, elements of slices of structs) are modelled as loops that assign the updated value to a sequence; aliasing between slices is not captured.
- The difference between absent and empty lists of costs and models, and the floating-point `Amount`, which is derived from the nanos.
- Overflow of 64-bit counters: counters are mathematical integers.
- Filling.FillDays: days are calendar days of a clock without time zones and daylight saving, between years 0 and 9999, for clock readings from 1970 on.
- Lower-casing and case-insensitive comparison cover the letters A to Z only.
- Discovery.Deduplicate: asks that sources be `yaml` or `docker`, the only ones the program makes; for others the comparator is not an order.
- Discovery.ResolveAccounts: answers of the endpoints are inputs; that they are asked for concurrently is not modelled.
- The goroutine runtime and singleflight are modelled as steps: one running call per key, every caller that joined gets its result, and the key is free again when the result is delivered.
- A caller whose context ended before it joined a task takes no step, as it returns at once. `Sync` without a history, and a `Sync` whose discovery failed as a whole, are not part of the model; failure messages are reduced to their target and kind.
- Dashboard.PersistedDashboard: leaves out display names, quotas and the selected account of the response, and the failures of discovery that come before its own problems. A store whose commits fall between two of its loads is modelled as one store per load.
- The live dashboard and `Events`: their summary and daily figures come from separate upstream calls that nothing ties together.
- In the page script: the browser's location and history, error lists, announcements, tables, charts, themes, and exceptions thrown while rendering. A reply that fails counts as one without data; popstate takes the filters of any location.
- `NormalizeURL`, YAML and Docker discovery, the HTTP client and server, and configuration: input checks and library calls.
