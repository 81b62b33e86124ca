/** internal/dashboard/service.go: what callers of a synchronization and the shutdown can rely on, under every interleaving. */
module SyncRuns {
  import opened Text
  import opened Usage
  import opened Store
  import opened Reachable
  import opened SyncGate
  import opened SyncKey
  import opened SharedSync
  import Registry

  // ---- what callers and waiters can rely on

  /** The counter is the number of running tasks; the channel is closed exactly when stopped with none, and never closed twice. */
  lemma DrainCounts(hash: string -> string, steps: seq<Step>, s: State)
    requires Leads(Start(hash), steps, s)
    ensures s.gate.tasks == |Running(s)|
    ensures s.gate.done == Closed <==> s.gate.stopped && Running(s) == {}
    ensures s.gate.done != Panicked
  {
    AlwaysSound(hash, steps, s);
    hide WaitersSound, TasksSound, CallersSound, KeysSound, RequestsSound, Running, Leads;
  }

  /** At most one task per key is under way. */
  lemma OneTaskPerKey(hash: string -> string, steps: seq<Step>, s: State, t: int, u: int)
    requires Leads(Start(hash), steps, s) && t in s.tasks && u in s.tasks
    requires s.tasks[t].key == s.tasks[u].key && s.tasks[t].phase != Over && s.tasks[u].phase != Over
    ensures t == u
  {
    AlwaysSound(hash, steps, s);
    hide GateSound, WaitersSound, CallersSound, KeysSound, RequestsSound, Running, Leads;
    assert Listed(s.tasks, s.calls, t) && Listed(s.tasks, s.calls, u);
  }

  /** A caller that reports no failure got the result of a task for its key in which the fetch and then the save succeeded. */
  lemma SuccessIsReal(hash: string -> string, steps: seq<Step>, s: State, c: int)
    requires Leads(Start(hash), steps, s) && c in s.callers && s.callers[c].status == Returned(Success)
    ensures s.callers[c].task in s.tasks
    ensures var task := s.tasks[s.callers[c].task];
      && KeyOf(task.job, hash) == KeyOf(s.callers[c].job, hash) && task.fetched
      && (task.job.Sync? <==> s.callers[c].job.Sync?)
      && (task.job.Sync? ==> exists k :: SavedAt(s.requests, k) && s.requests[k] == TaskRequest(task))
  {
    AlwaysSound(hash, steps, s);
    hide GateSound, WaitersSound, Running, Leads, TaskRequest, SavedAt;
    assert CallerSound(s.tasks, s.callers[c]);
    var task := s.tasks[s.callers[c].task];
    if task.job.Sync? {
      assert TaskStored(s.requests, task);
      var k :| 0 <= k < |s.requests| && s.requests[k] == TaskRequest(task);
      assert SavedAt(s.requests, k);
    }
  }

  /** The outcome of a task, exactly: success when what it was for was done, and otherwise the first thing that was not done. */
  lemma OutcomeExactly(hash: string -> string, steps: seq<Step>, s: State, t: int)
    requires Leads(Start(hash), steps, s) && t in s.tasks && (s.tasks[t].phase.Finishing? || s.tasks[t].phase.Ending?)
    ensures var task := s.tasks[t];
      && (task.phase.outcome == Success <==> task.fetched && (task.job.Sync? ==> task.saved))
      && (task.phase.outcome == FetchFailed <==> task.began && !task.fetched)
      && (task.phase.outcome == SaveFailed <==> task.job.Sync? && task.fetched && !task.saved)
      && (task.phase.outcome == Cancelled <==> !task.began)
      && (!task.began ==> s.gate.stopped)
  {
    AlwaysSound(hash, steps, s);
    hide GateSound, WaitersSound, CallersSound, KeysSound, RequestsSound, Running, Leads, Listed, TableSound;
    assert Honest(s.tasks[t]);
  }

  /** How a step changes a caller: it gets what its task has to answer, or gives up by itself. */
  lemma CallerNext(s: State, step: Step, c: int)
    requires TasksSound(s.tasks, s.calls) && CallersSound(s) && Enabled(s, step)
    requires c in Apply(s, step).callers && Apply(s, step).callers[c].status.Returned?
    ensures c in s.callers && s.callers[c].task == Apply(s, step).callers[c].task
    ensures s.callers[c].task in s.tasks
    ensures Apply(s, step).callers[c].status == s.callers[c].status
      || (step == Cancel(c) && Apply(s, step).callers[c].status.result == Cancelled)
      || Answers(s.tasks[s.callers[c].task], Apply(s, step).callers[c].status.result)
    ensures s.tasks[s.callers[c].task].phase == Over ==>
      s.callers[c].task in Apply(s, step).tasks && Apply(s, step).tasks[s.callers[c].task] == s.tasks[s.callers[c].task]
  {
    hide KeyOf, TaskRequest, Saved, RunAll, Listed, TableSound, Honest, Begun, Finished, Stopped, Result;
    assert CallerSound(s.tasks, s.callers[c]);
    if step.Work? {
      ActedKeeps(s.tasks[step.task], step.act, s.gate.stopped);
    }
    hide Acted;
  }

  /** A caller that has returned has what its task had to answer, or had given up. */
  lemma {:induction false} AnsweredOrGaveUp(hash: string -> string, steps: seq<Step>, s: State, c: int)
    requires Leads(Start(hash), steps, s) && c in s.callers && s.callers[c].status.Returned?
    ensures s.callers[c].task in s.tasks
    ensures Answers(s.tasks[s.callers[c].task], s.callers[c].status.result) || (s.callers[c].status.result == Cancelled && Cancel(c) in steps)
  {
    hide Apply, Enabled, Sound, Answers;
    if steps != [] {
      var n := |steps| - 1;
      var m :| Leads(Start(hash), steps[..n], m) && Enabled(m, steps[n]) && s == Apply(m, steps[n]);
      AlwaysSound(hash, steps[..n], m);
      AlwaysSound(hash, steps, s);
      SoundHas(m);
      SoundHas(s);
      CallerNext(m, steps[n], c);
      CallerTask(s, c);
      AnswersOver(m, s, c);
      assert steps == steps[..n] + [steps[n]];
      if s.callers[c].status == m.callers[c].status {
        AnsweredOrGaveUp(hash, steps[..n], m, c);
      }
    }
  }

  lemma SoundHas(s: State)
    requires Sound(s)
    ensures TasksSound(s.tasks, s.calls) && CallersSound(s)
  {
    hide GateSound, WaitersSound, TasksSound, CallersSound, KeysSound, RequestsSound, StopSound;
  }

  lemma CallerTask(s: State, c: int)
    requires CallersSound(s) && c in s.callers
    ensures s.callers[c].task in s.tasks
  {
    assert CallerSound(s.tasks, s.callers[c]);
  }

  lemma AnswersOver(m: State, s: State, c: int)
    requires c in m.callers && c in s.callers && m.callers[c].task == s.callers[c].task && m.callers[c].task in m.tasks
    requires m.tasks[m.callers[c].task].phase == Over ==> m.callers[c].task in s.tasks && s.tasks[m.callers[c].task] == m.tasks[m.callers[c].task]
    ensures forall o :: Answers(m.tasks[m.callers[c].task], o) ==> s.callers[c].task in s.tasks && Answers(s.tasks[s.callers[c].task], o)
  {
  }

  /** A caller that did not give up returns success if its task fetched and, for an account, committed, and only then. */
  lemma ReturnsExactly(hash: string -> string, steps: seq<Step>, s: State, c: int)
    requires Leads(Start(hash), steps, s) && c in s.callers && s.callers[c].status.Returned? && Cancel(c) !in steps
    ensures s.callers[c].task in s.tasks
    ensures var task, result := s.tasks[s.callers[c].task], s.callers[c].status.result;
      && (result == Success <==> task.fetched && (task.job.Sync? ==> task.saved))
      && (result == FetchFailed <==> task.began && !task.fetched)
      && (result == SaveFailed <==> task.job.Sync? && task.fetched && !task.saved)
      && (result == Cancelled <==> !task.began)
  {
    AnsweredOrGaveUp(hash, steps, s, c);
    AlwaysSound(hash, steps, s);
    hide GateSound, WaitersSound, CallersSound, KeysSound, RequestsSound, StopSound, Running, Leads, Listed, TableSound;
    assert Honest(s.tasks[s.callers[c].task]);
  }

  /** What a caller has returned stays what it returned. */
  lemma {:induction false} ReturnedForever(s: State, steps: seq<Step>, s': State, c: int)
    requires Leads(s, steps, s') && c in s.callers && s.callers[c].status.Returned?
    ensures c in s'.callers && s'.callers[c] == s.callers[c]
  {
    hide Apply, Enabled;
    if steps != [] {
      var n := |steps| - 1;
      var m :| Leads(s, steps[..n], m) && Enabled(m, steps[n]) && s' == Apply(m, steps[n]);
      ReturnedForever(s, steps[..n], m, c);
      ReturnedStays(m, steps[n], c);
    }
  }

  lemma ReturnedStays(s: State, step: Step, c: int)
    requires Enabled(s, step) && c in s.callers && s.callers[c].status.Returned?
    ensures c in Apply(s, step).callers && Apply(s, step).callers[c] == s.callers[c]
  {
    hide KeyOf, TaskRequest, Saved, RunAll, Acted, Begun, Finished, Stopped;
  }

  /** A waiter for the shutdown is let go exactly when no task runs. */
  lemma ReleasesExactly(hash: string -> string, steps: seq<Step>, s: State, w: int)
    requires Leads(Start(hash), steps, s) && w in s.waiters
    ensures Enabled(s, Release(w)) <==> Running(s) == {}
  {
    AlwaysSound(hash, steps, s);
    hide TasksSound, CallersSound, KeysSound, RequestsSound, StopSound, Running, Leads;
  }

  /** Every commit to the database is the request of a task that fetched the snapshot and saved it. */
  lemma CommitsExactly(hash: string -> string, steps: seq<Step>, s: State, q: Request)
    requires Leads(Start(hash), steps, s)
    ensures q in s.requests <==> exists t :: t in s.tasks && s.tasks[t].saved && s.tasks[t].job.Sync? && TaskRequest(s.tasks[t]) == q
  {
    AlwaysSound(hash, steps, s);
    hide GateSound, WaitersSound, CallersSound, KeysSound, TasksSound, StopSound, Running, Leads, TaskRequest, SavedAt;
    if t :| t in s.tasks && s.tasks[t].saved && s.tasks[t].job.Sync? && TaskRequest(s.tasks[t]) == q {
      assert TaskStored(s.requests, s.tasks[t]);
    }
    if q in s.requests {
      assert Committed(s.tasks, q);
    }
  }

  // ---- a synchronization can succeed

  /** The steps of a caller that is alone with its task. */
  function Alone(c: int, who: Identity, t: int, daily: Option<Daily>): seq<Step> {
    [Call(c, Sync(who), t), Work(t, Launch), Work(t, Fetch(true, daily)), Work(t, Save(true)), Work(t, Finish), Work(t, Deliver), Receive(c)]
  }

  /** Caller `c` waits for its task, which is this one. */
  predicate AtWork(s: State, c: int, t: int, task: Task, requests: seq<Request>) {
    && !s.gate.stopped && s.requests == requests
    && t in s.tasks && s.tasks[t] == task
    && c in s.callers && s.callers[c] == Caller(task.job, task.key, t, Waiting)
  }

  lemma Works(s: State, c: int, t: int, task: Task, requests: seq<Request>, act: Act)
    requires AtWork(s, c, t, task, requests) && Possible(requests, task, act) && !act.Deliver?
    ensures Enabled(s, Work(t, act))
    ensures AtWork(Apply(s, Work(t, act)), c, t, Acted(task, act, false),
                   if act == Save(true) then requests + [TaskRequest(task)] else requests)
  {
    ActedKeeps(task, act, false);
    hide Saved, RunAll, Acted, TaskRequest;
  }

  lemma Delivers(s: State, c: int, t: int, task: Task, requests: seq<Request>)
    requires AtWork(s, c, t, task, requests) && task.phase.Ending?
    ensures Enabled(s, Work(t, Deliver))
    ensures var after := Apply(s, Work(t, Deliver));
      after.requests == requests && c in after.callers && after.callers[c].status == Delivered(task.phase.outcome)
  {
    hide Saved, RunAll, TaskRequest;
  }

  lemma Joins(s: State, c: int, who: Identity, t: int)
    requires c !in s.callers && t !in s.tasks && KeyOf(Sync(who), s.hash) !in s.calls && !s.gate.stopped
    ensures Enabled(s, Call(c, Sync(who), t))
    ensures AtWork(Apply(s, Call(c, Sync(who), t)), c, t, Task(Sync(who), KeyOf(Sync(who), s.hash), Launched, false, false, None, false), s.requests)
  {
    hide KeyOf;
  }

  lemma Receives(s: State, c: int, outcome: Outcome)
    requires c in s.callers && s.callers[c].status == Delivered(outcome)
    ensures Enabled(s, Receive(c))
    ensures var after := Apply(s, Receive(c));
      after.requests == s.requests && c in after.callers && after.callers[c].status == Returned(outcome)
  {
  }

  /** While the service is not stopped and no one else synchronizes the account, a new caller whose snapshot the database accepts ends up with success, and the snapshot is committed. */
  lemma Succeeds(s: State, c: int, who: Identity, t: int, daily: Option<Daily>) returns (s': State)
    requires c !in s.callers && t !in s.tasks && KeyOf(Sync(who), s.hash) !in s.calls && !s.gate.stopped
    requires Saved(Database(s), Request(Registry.Source(who.source, who.name, who.url), who.login, daily)).Ok?
    ensures Leads(s, Alone(c, who, t, daily), s')
    ensures c in s'.callers && s'.callers[c].status == Returned(Success)
    ensures s'.requests == s.requests + [Request(Registry.Source(who.source, who.name, who.url), who.login, daily)]
  {
    hide Saved, RunAll, KeyOf, AtWork, Enabled, Apply, Leads;
    var task := Task(Sync(who), KeyOf(Sync(who), s.hash), Launched, false, false, None, false);
    var requests := s.requests + [Request(Registry.Source(who.source, who.name, who.url), who.login, daily)];
    Joins(s, c, who, t);
    var s1 := Apply(s, Call(c, Sync(who), t));
    Works(s1, c, t, task, s.requests, Launch);
    var s2 := Apply(s1, Work(t, Launch));
    task := task.(began := true, phase := Fetching);
    Works(s2, c, t, task, s.requests, Fetch(true, daily));
    var s3 := Apply(s2, Work(t, Fetch(true, daily)));
    task := task.(fetched := true, daily := daily, phase := Saving);
    Works(s3, c, t, task, s.requests, Save(true));
    var s4 := Apply(s3, Work(t, Save(true)));
    task := task.(saved := true, phase := Finishing(Success));
    Works(s4, c, t, task, requests, Finish);
    var s5 := Apply(s4, Work(t, Finish));
    task := task.(phase := Ending(Success));
    Delivers(s5, c, t, task, requests);
    var s6 := Apply(s5, Work(t, Deliver));
    Receives(s6, c, Success);
    s' := Apply(s6, Receive(c));
    Chain(s, Alone(c, who, t, daily), [s, s1, s2, s3, s4, s5, s6, s']);
  }

  lemma {:induction false} Chain(s: State, steps: seq<Step>, states: seq<State>)
    requires |states| == |steps| + 1 && states[0] == s
    requires forall i | 0 <= i < |steps| :: Enabled(states[i], steps[i]) && states[i + 1] == Apply(states[i], steps[i])
    ensures Leads(s, steps, states[|steps|])
  {
    hide Enabled, Apply;
    if steps != [] {
      var n := |steps| - 1;
      Chain(s, steps[..n], states[..n + 1]);
    }
  }

  /** Request `k` was made for this account. */
  predicate For(requests: seq<Request>, k: int, who: Identity) {
    && 0 <= k < |requests|
    && requests[k].source == Registry.Source(who.source, who.name, who.url)
    && Lower(requests[k].login) == Lower(who.login)
  }

  /** This snapshot of the account was saved, and is still in its history. */
  ghost predicate InHistory(requests: seq<Request>, who: Identity, daily: Option<Daily>) {
    exists k :: For(requests, k, who) && requests[k].daily == daily && SavedAt(requests, k) && Stored(requests, k)
  }

  /** A caller that reports no failure for an account whose parts contain no NUL finds the snapshot that its task fetched in the history of that very account, whatever has been saved since. */
  lemma SuccessIsStored(hash: string -> string, steps: seq<Step>, s: State, c: int)
    requires Digest(hash) && Leads(Start(hash), steps, s)
    requires c in s.callers && s.callers[c].job.Sync? && s.callers[c].status == Returned(Success)
    requires PartsNulFree(s.callers[c].job.who)
    ensures s.callers[c].task in s.tasks
    ensures InHistory(s.requests, s.callers[c].job.who, s.tasks[s.callers[c].task].daily)
  {
    SuccessIsReal(hash, steps, s, c);
    hide Leads, SavedAt, Stored, Digest, PartsNulFree, Lower, SameKey;
    var who, task := s.callers[c].job.who, s.tasks[s.callers[c].task];
    SharedKeys(who, task.job.who, hash);
    var k :| SavedAt(s.requests, k) && s.requests[k] == TaskRequest(task);
    SavedStays(s.requests, k);
    SavedInRange(s.requests, k);
    assert For(s.requests, k, who);
  }

  lemma SharedKeys(who: Identity, other: Identity, hash: string -> string)
    requires Digest(hash) && PartsNulFree(who) && KeyOf(Sync(who), hash) == KeyOf(Sync(other), hash)
    ensures SameIdentity(who, other)
  {
    hide Digest, Lower, SyncAccountKey;
    KeyIdentifies(who, other, hash);
  }

  lemma SavedInRange(requests: seq<Request>, k: int)
    requires SavedAt(requests, k)
    ensures 0 <= k < |requests|
  {
  }

  /** Nothing runs, and nothing will. */
  ghost predicate Drained(s: State) {
    s.gate.stopped && Running(s) == {}
  }

  lemma DrainedStep(s: State, step: Step)
    requires Drained(s) && Enabled(s, step)
    ensures Drained(Apply(s, step)) && Apply(s, step).requests == s.requests
  {
    RunningStep(s, step);
    StepIs(s, step);
    hide Apply, Running, Enabled;
  }

  /** Once a `WaitForSync` has returned, no task is running, and on every continuation none starts and nothing is saved. */
  lemma {:induction false} DrainedForever(hash: string -> string, before: seq<Step>, s: State, w: int, after: seq<Step>, s': State)
    requires Leads(Start(hash), before, s) && w in s.waiters && s.waiters[w]
    requires Leads(s, after, s')
    ensures Running(s) == {} && Running(s') == {} && s'.requests == s.requests
    ensures Drained(s')
    decreases |after|
  {
    hide Sound, Apply, Enabled, Running;
    if after == [] {
      AlwaysSound(hash, before, s);
      WaiterDrained(s, w);
    } else {
      var n := |after| - 1;
      var m :| Leads(s, after[..n], m) && Enabled(m, after[n]) && s' == Apply(m, after[n]);
      DrainedForever(hash, before, s, w, after[..n], m);
      DrainedStep(m, after[n]);
    }
  }

  lemma WaiterDrained(s: State, w: int)
    requires Sound(s) && w in s.waiters && s.waiters[w]
    ensures Drained(s)
  {
    hide TasksSound, CallersSound, KeysSound, RequestsSound, Running;
  }

  // ---- callers do not affect each other

  /** The states differ at most in how far caller `c` has got. */
  ghost predicate SameButCaller(s: State, s': State, c: int) {
    && s' == s.(callers := s'.callers)
    && s'.callers.Keys == s.callers.Keys
    && (forall d | d in s.callers && d != c :: s'.callers[d] == s.callers[d])
    && (c in s.callers ==> s'.callers[c] == s.callers[c].(status := s'.callers[c].status))
  }

  /** A step of the caller itself, which only it can notice. */
  predicate Own(step: Step, c: int) {
    (step.Receive? && step.caller == c) || (step.Cancel? && step.caller == c)
  }

  lemma OwnStep(s: State, s': State, c: int, step: Step)
    requires SameButCaller(s, s', c) && Own(step, c) && Enabled(s', step)
    ensures SameButCaller(s, Apply(s', step), c)
  {
  }

  lemma OtherWork(s: State, s': State, c: int, t: int, act: Act)
    requires SameButCaller(s, s', c) && t in s.tasks && CanAct(s.tasks[t], act)
    ensures SameButCaller(SideEffect(s, t, act), SideEffect(s', t, act), c)
  {
    hide CanAct, Begun, Finished, TaskRequest;
  }

  /** Changes outside `callers` keep the two states alike. */
  lemma AlikeWithTasks(s: State, s': State, c: int, tasks: map<int, Task>)
    requires SameButCaller(s, s', c)
    ensures SameButCaller(s.(tasks := tasks), s'.(tasks := tasks), c)
  {
  }

  lemma OtherStep(s: State, s': State, c: int, step: Step)
    requires SameButCaller(s, s', c) && !Own(step, c) && Enabled(s, step)
    ensures Enabled(s', step) && SameButCaller(Apply(s, step), Apply(s', step), c)
  {
    if step.Work? {
      OtherWork(s, s', c, step.task, step.act);
      AlikeWithTasks(SideEffect(s, step.task, step.act), SideEffect(s', step.task, step.act), c,
                     s.tasks[step.task := Acted(s.tasks[step.task], step.act, s.gate.stopped)]);
      hide CanAct, SideEffect, Acted, TaskRequest, Saved, RunAll;
      assert s'.tasks == s.tasks && s'.gate == s.gate;
    } else {
      hide Acted, SideEffect, Stopped, Possible, KeyOf;
    }
  }

  lemma OtherEnabled(s: State, s': State, c: int, step: Step)
    requires SameButCaller(s, s', c) && !Own(step, c) && Enabled(s', step)
    ensures Enabled(s, step)
  {
    hide Possible;
  }

  /** The steps of a run without those of caller `c`. */
  function Others(steps: seq<Step>, c: int): seq<Step> {
    if steps == [] then []
    else
      var n := |steps| - 1;
      Others(steps[..n], c) + (if Own(steps[n], c) then [] else [steps[n]])
  }

  /** Whenever and however a caller gives up or receives, all others end up as if it had done neither. */
  lemma {:induction false} CallersIndependent(s: State, steps: seq<Step>, s': State, c: int) returns (without: State)
    requires Leads(s, steps, s')
    ensures Leads(s, Others(steps, c), without)
    ensures SameButCaller(without, s', c)
  {
    hide Enabled, Apply, Own;
    if steps == [] {
      without := s;
      SameAsItself(s, c);
    } else {
      hide SameButCaller;
      var n := |steps| - 1;
      var m :| Leads(s, steps[..n], m) && Enabled(m, steps[n]) && s' == Apply(m, steps[n]);
      var w := CallersIndependent(s, steps[..n], m, c);
      if Own(steps[n], c) {
        OwnStep(w, m, c, steps[n]);
        without := w;
        assert Others(steps[..n], c) + [] == Others(steps[..n], c);
      } else {
        OtherEnabled(w, m, c, steps[n]);
        OtherStep(w, m, c, steps[n]);
        without := Apply(w, steps[n]);
        LeadsOn(s, Others(steps[..n], c), w, steps[n]);
      }
    }
  }

  lemma SameAsItself(s: State, c: int)
    ensures SameButCaller(s, s, c)
  {
  }

  lemma LeadsOn(s: State, steps: seq<Step>, m: State, step: Step)
    requires Leads(s, steps, m) && Enabled(m, step)
    ensures Leads(s, steps + [step], Apply(m, step))
  {
    hide Enabled, Apply;
    assert (steps + [step])[..|steps|] == steps;
  }
}
