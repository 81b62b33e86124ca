/**
 * internal/dashboard/service.go: synchronization tasks shared by all callers with the same key, and the database they save to.
 * Any number of callers, tasks and waiters take steps in any order.
 */
module SharedSync {
  import opened Usage
  import opened Store
  import opened Reachable
  import opened SyncGate
  import opened SyncKey
  import Registry

  /** What a caller asks for: to resolve the accounts, or to synchronize one. */
  datatype Job = Resolve | Sync(who: Identity)

  /** The two singleflight groups: one task that resolves accounts, and one task per account key. */
  datatype Key = Accounts | Account(text: string)

  function KeyOf(job: Job, hash: string -> string): Key {
    match job
    case Resolve => Accounts
    case Sync(who) => Account(SyncAccountKey(who, hash))
  }

  datatype Outcome = Success | FetchFailed | SaveFailed | Cancelled

  /** Launched: the goroutine exists. Fetching to Finishing: between `beginSyncTask` and `finishSyncTask`. Ending: the shared function has returned. */
  datatype Phase = Launched | Fetching | Saving | Finishing(outcome: Outcome) | Ending(outcome: Outcome) | Over

  /** What a task has done so far: begun before the stop, fetched this snapshot, committed it. */
  datatype Task = Task(job: Job, key: Key, phase: Phase, began: bool, fetched: bool, daily: Option<Daily>, saved: bool)

  datatype Status = Waiting | Delivered(outcome: Outcome) | Returned(result: Outcome)

  datatype Caller = Caller(job: Job, key: Key, task: int, status: Status)

  datatype State = State(
    hash: string -> string,
    gate: Gate,
    tasks: map<int, Task>,         // every task so far
    calls: map<Key, int>,          // the singleflight table
    callers: map<int, Caller>,     // every caller that joined a task
    waiters: map<int, bool>,       // callers of WaitForSync, and whether they returned
    requests: seq<Request>)        // what was saved, in the order of the commits

  function Start(hash: string -> string): State {
    State(hash, FreshGate, map[], map[], map[], map[], [])
  }

  /** The database that the saves have led to. */
  ghost function Database(s: State): Registry.Tables {
    RunAll(s.requests)
  }

  /** What a task does next. */
  datatype Act = Launch | Fetch(ok: bool, daily: Option<Daily>) | Save(ok: bool) | Finish | Deliver

  datatype Step =
    | Call(caller: int, job: Job, newTask: int)
    | Work(task: int, act: Act)
    | Receive(caller: int)
    | Cancel(caller: int)
    | Stop(waiter: int)
    | Release(waiter: int)

  predicate CanAct(task: Task, act: Act) {
    match act
    case Launch => task.phase == Launched
    case Fetch(_, _) => task.phase == Fetching
    case Save(_) => task.phase == Saving && task.job.Sync?
    case Finish => task.phase.Finishing?
    case Deliver => task.phase.Ending?
  }

  /** What `SaveDaily` is called with. */
  function TaskRequest(task: Task): Request
    requires task.job.Sync?
  {
    var who := task.job.who;
    Request(Registry.Source(who.source, who.name, who.url), who.login, task.daily)
  }

  /** A save succeeds only if the database accepts it; it can fail for other reasons too. */
  ghost predicate Possible(requests: seq<Request>, task: Task, act: Act) {
    CanAct(task, act) && (act == Save(true) ==> Saved(RunAll(requests), TaskRequest(task)).Ok?)
  }

  ghost predicate Enabled(s: State, step: Step) {
    match step
    case Call(c, _, newTask) => c !in s.callers && newTask !in s.tasks
    case Work(t, act) => t in s.tasks && Possible(s.requests, s.tasks[t], act)
    case Receive(c) => c in s.callers && s.callers[c].status.Delivered?
    case Cancel(c) => c in s.callers && !s.callers[c].status.Returned?
    case Stop(w) => w !in s.waiters
    case Release(w) => w in s.waiters && s.gate.done == Closed
  }

  function Acted(task: Task, act: Act, stopped: bool): Task
    requires CanAct(task, act)
  {
    match act
    case Launch => if stopped then task.(phase := Ending(Cancelled)) else task.(began := true, phase := Fetching)
    case Fetch(ok, daily) =>
      if !ok then task.(phase := Finishing(FetchFailed))
      else task.(fetched := true, daily := daily, phase := if task.job.Resolve? then Finishing(Success) else Saving)
    case Save(ok) =>
      if !ok then task.(phase := Finishing(SaveFailed))
      else task.(saved := true, phase := Finishing(Success))
    case Finish => task.(phase := Ending(task.phase.outcome))
    case Deliver => task.(phase := Over)
  }

  function Answered(caller: Caller, t: int, outcome: Outcome): Caller {
    if caller.task == t && caller.status.Waiting? then caller.(status := Delivered(outcome)) else caller
  }

  /** What else an act changes: the gate, the database, and on delivery the table and the callers. */
  function SideEffect(s: State, t: int, act: Act): State
    requires t in s.tasks && CanAct(s.tasks[t], act)
  {
    match act
    case Launch => s.(gate := Begun(s.gate))
    case Fetch(_, _) => s
    case Save(ok) => if ok then s.(requests := s.requests + [TaskRequest(s.tasks[t])]) else s
    case Finish => s.(gate := Finished(s.gate))
    case Deliver =>
      s.(calls := s.calls - {s.tasks[t].key},
         callers := map c | c in s.callers :: Answered(s.callers[c], t, s.tasks[t].phase.outcome))
  }

  function Joined(s: State, c: int, job: Job, newTask: int): State {
    var key := KeyOf(job, s.hash);
    if key in s.calls then s.(callers := s.callers[c := Caller(job, key, s.calls[key], Waiting)])
    else s.(tasks := s.tasks[newTask := Task(job, key, Launched, false, false, None, false)],
            calls := s.calls[key := newTask],
            callers := s.callers[c := Caller(job, key, newTask, Waiting)])
  }

  ghost function Apply(s: State, step: Step): State
    requires Enabled(s, step)
  {
    match step
    case Call(c, job, newTask) => Joined(s, c, job, newTask)
    case Work(t, act) => SideEffect(s, t, act).(tasks := s.tasks[t := Acted(s.tasks[t], act, s.gate.stopped)])
    case Receive(c) => s.(callers := s.callers[c := s.callers[c].(status := Returned(s.callers[c].status.outcome))])
    case Cancel(c) => s.(callers := s.callers[c := s.callers[c].(status := Returned(Cancelled))])
    case Stop(w) => s.(gate := Stopped(s.gate), waiters := s.waiters[w := false])
    case Release(w) => s.(waiters := s.waiters[w := true])
  }

  /** `s'` is reached from `s` by the steps. */
  ghost predicate Leads(s: State, steps: seq<Step>, s': State) {
    if steps == [] then s == s'
    else
      var n := |steps| - 1;
      exists m :: Leads(s, steps[..n], m) && Enabled(m, steps[n]) && s' == Apply(m, steps[n])
  }

  // ---- the invariant

  predicate Active(p: Phase) {
    p == Fetching || p == Saving || p.Finishing?
  }

  /** The tasks between `beginSyncTask` and `finishSyncTask`. */
  function Running(s: State): set<int> {
    set t | t in s.tasks && Active(s.tasks[t].phase)
  }

  /** What a task has to answer, given what it has done. */
  function Result(task: Task): Outcome {
    if !task.began then Cancelled
    else if !task.fetched then FetchFailed
    else if task.job.Sync? && !task.saved then SaveFailed
    else Success
  }

  ghost predicate Honest(task: Task) {
    && (task.saved ==> task.fetched && task.job.Sync?)
    && (task.fetched ==> task.began)
    && (task.phase == Launched ==> !task.began)
    && (task.phase == Fetching ==> task.began && !task.fetched)
    && (task.phase == Saving ==> task.fetched && !task.saved && task.job.Sync?)
    && (task.phase.Finishing? ==> task.began && task.phase.outcome == Result(task))
    && (task.phase.Ending? ==> task.phase.outcome == Result(task))
  }

  /** A task that is not over is the one in the table. */
  ghost predicate Listed(tasks: map<int, Task>, calls: map<Key, int>, t: int)
    requires t in tasks
  {
    tasks[t].phase != Over ==> tasks[t].key in calls && calls[tasks[t].key] == t
  }

  ghost predicate TableSound(tasks: map<int, Task>, calls: map<Key, int>, k: Key)
    requires k in calls
  {
    calls[k] in tasks && tasks[calls[k]].key == k && tasks[calls[k]].phase != Over
  }

  /** The task is over and had this to answer. */
  predicate Answers(task: Task, outcome: Outcome) {
    task.phase == Over && outcome == Result(task)
  }

  ghost predicate CallerSound(tasks: map<int, Task>, caller: Caller) {
    && caller.task in tasks && tasks[caller.task].key == caller.key
    && (caller.status == Waiting ==> tasks[caller.task].phase != Over)
    && (caller.status.Delivered? ==> Answers(tasks[caller.task], caller.status.outcome))
    && (caller.status.Returned? ==> caller.status.result == Cancelled || Answers(tasks[caller.task], caller.status.result))
  }

  ghost predicate WaitersSound(s: State) {
    forall w | w in s.waiters :: s.gate.stopped && (s.waiters[w] ==> s.gate.done == Closed)
  }

  ghost predicate TasksSound(tasks: map<int, Task>, calls: map<Key, int>) {
    && (forall t | t in tasks :: Honest(tasks[t]))
    && (forall t | t in tasks :: Listed(tasks, calls, t))
    && (forall k | k in calls :: TableSound(tasks, calls, k))
  }

  ghost predicate CallersSound(s: State) {
    forall c | c in s.callers :: CallerSound(s.tasks, s.callers[c])
  }

  /** Keys are those of the jobs asked for. */
  ghost predicate KeysSound(s: State) {
    && (forall t | t in s.tasks :: s.tasks[t].key == KeyOf(s.tasks[t].job, s.hash))
    && (forall c | c in s.callers :: s.callers[c].key == KeyOf(s.callers[c].job, s.hash))
  }

  ghost predicate TaskStored(requests: seq<Request>, task: Task) {
    task.saved && task.job.Sync? ==> TaskRequest(task) in requests
  }

  /** A task that saved asked for this. */
  ghost predicate Committed(tasks: map<int, Task>, q: Request) {
    exists t :: t in tasks && tasks[t].saved && tasks[t].job.Sync? && TaskRequest(tasks[t]) == q
  }

  /** Every commit was one that the database accepts, and the commits are those of the tasks that saved. */
  ghost predicate RequestsSound(s: State) {
    && (forall k | 0 <= k < |s.requests| :: SavedAt(s.requests, k))
    && (forall t | t in s.tasks :: TaskStored(s.requests, s.tasks[t]))
    && (forall q | q in s.requests :: Committed(s.tasks, q))
  }

  /** Only a stop keeps a task from beginning. */
  ghost predicate StopSound(s: State) {
    forall t | t in s.tasks && !s.tasks[t].began && s.tasks[t].phase != Launched :: s.gate.stopped
  }

  ghost predicate Sound(s: State) {
    && GateSound(s.gate, Running(s)) && WaitersSound(s)
    && TasksSound(s.tasks, s.calls) && CallersSound(s) && KeysSound(s) && RequestsSound(s) && StopSound(s)
  }

  lemma ActedHonest(task: Task, act: Act, stopped: bool)
    requires CanAct(task, act) && Honest(task)
    ensures Honest(Acted(task, act, stopped))
  {
  }

  /** Only delivery ends a task, and it changes nothing else. */
  lemma ActedKeeps(task: Task, act: Act, stopped: bool)
    requires CanAct(task, act)
    ensures Acted(task, act, stopped).key == task.key && Acted(task, act, stopped).job == task.job
    ensures Acted(task, act, stopped).phase == Over <==> act.Deliver?
    ensures act.Deliver? ==> Acted(task, act, stopped) == task.(phase := Over)
    ensures task.phase != Over
  {
  }

  /** Only launching makes a task active, and only finishing makes it inactive. */
  lemma ActedActive(task: Task, act: Act, stopped: bool)
    requires CanAct(task, act)
    ensures Active(task.phase) <==> !act.Launch? && !act.Deliver?
    ensures Active(Acted(task, act, stopped).phase) <==> (act.Launch? && !stopped) || act.Fetch? || act.Save?
  {
  }

  /** How a step changes the set of running tasks. */
  lemma RunningStep(s: State, step: Step)
    requires Enabled(s, step)
    ensures Running(Apply(s, step)) ==
      if step.Work? && step.act.Launch? && !s.gate.stopped then Running(s) + {step.task}
      else if step.Work? && step.act.Finish? then Running(s) - {step.task}
      else Running(s)
    ensures step.Work? ==> (step.task in Running(s) <==> !step.act.Launch? && !step.act.Deliver?)
  {
    if step.Work? {
      ActedActive(s.tasks[step.task], step.act, s.gate.stopped);
      hide Active, Acted, CanAct, TaskRequest, Saved, RunAll, KeyOf;
    }
  }

  function NextGate(g: Gate, step: Step): Gate {
    if step.Stop? then Stopped(g)
    else if step.Work? && step.act.Launch? then Begun(g)
    else if step.Work? && step.act.Finish? then Finished(g)
    else g
  }

  /** The parts of the state that a step changes in one way only. */
  lemma StepIs(s: State, step: Step)
    requires Enabled(s, step)
    ensures Apply(s, step).gate == NextGate(s.gate, step)
    ensures Apply(s, step).hash == s.hash
    ensures Apply(s, step).waiters ==
      if step.Stop? then s.waiters[step.waiter := false]
      else if step.Release? then s.waiters[step.waiter := true]
      else s.waiters
    ensures step.Release? ==> s.gate.done == Closed
    ensures step.Work? && step.act == Save(true) ==>
      step.task in s.tasks && s.tasks[step.task].job.Sync?
      && Saved(RunAll(s.requests), TaskRequest(s.tasks[step.task])).Ok?
      && Apply(s, step).requests == s.requests + [TaskRequest(s.tasks[step.task])]
    ensures !(step.Work? && step.act == Save(true)) ==> Apply(s, step).requests == s.requests
  {
    hide Begun, Finished, Stopped, Acted, TaskRequest, Saved, RunAll, KeyOf;
  }

  lemma GateStep(s: State, step: Step)
    requires GateSound(s.gate, Running(s)) && Enabled(s, step)
    ensures GateSound(Apply(s, step).gate, Running(Apply(s, step)))
  {
    StepIs(s, step);
    RunningStep(s, step);
    hide Apply, Running, Enabled, GateSound, Begun, Finished, Stopped;
    if step.Stop? {
      StoppedSound(s.gate, Running(s));
    } else if step.Work? && step.act.Launch? {
      BegunSound(s.gate, Running(s), step.task);
      BegunStopped(s.gate);
    } else if step.Work? && step.act.Finish? {
      FinishedSound(s.gate, Running(s), step.task);
    }
  }

  lemma BegunStopped(g: Gate)
    ensures g.stopped ==> Begun(g) == g
  {
  }

  lemma ActedListed(tasks: map<int, Task>, calls: map<Key, int>, t: int, act: Act, stopped: bool)
    requires TasksSound(tasks, calls) && t in tasks && CanAct(tasks[t], act)
    ensures TasksSound(tasks[t := Acted(tasks[t], act, stopped)], if act.Deliver? then calls - {tasks[t].key} else calls)
  {
    ActedHonest(tasks[t], act, stopped);
    ActedKeeps(tasks[t], act, stopped);
    hide Acted, CanAct, Honest;
    assert Listed(tasks, calls, t);
  }

  lemma TasksStep(s: State, step: Step)
    requires TasksSound(s.tasks, s.calls) && Enabled(s, step)
    ensures TasksSound(Apply(s, step).tasks, Apply(s, step).calls)
  {
    hide KeyOf, TaskRequest, Saved, RunAll;
    if step.Work? {
      ActedListed(s.tasks, s.calls, step.task, step.act, s.gate.stopped);
      hide TasksSound, Acted, CanAct, Begun, Finished;
    }
  }

  lemma CallerKept(tasks: map<int, Task>, caller: Caller, t: int, act: Act, stopped: bool)
    requires CallerSound(tasks, caller) && t in tasks && CanAct(tasks[t], act)
    requires Honest(tasks[t])
    ensures CallerSound(tasks[t := Acted(tasks[t], act, stopped)],
                        if act.Deliver? then Answered(caller, t, tasks[t].phase.outcome) else caller)
  {
    ActedKeeps(tasks[t], act, stopped);
    hide Acted, Result;
    DeliveredResult(tasks[t]);
  }

  lemma DeliveredResult(task: Task)
    ensures Result(task.(phase := Over)) == Result(task)
  {
  }

  lemma CallersStep(s: State, step: Step)
    requires TasksSound(s.tasks, s.calls) && CallersSound(s) && Enabled(s, step)
    ensures CallersSound(Apply(s, step))
  {
    hide KeyOf, TaskRequest, Saved, RunAll;
    var s' := Apply(s, step);
    forall c | c in s'.callers
      ensures CallerSound(s'.tasks, s'.callers[c])
    {
      if step.Work? {
        CallerKept(s.tasks, s.callers[c], step.task, step.act, s.gate.stopped);
        hide Acted, CanAct, CallerSound, Answered, Honest, Begun, Finished;
      }
    }
  }

  lemma KeysStep(s: State, step: Step)
    requires KeysSound(s) && Enabled(s, step)
    ensures KeysSound(Apply(s, step))
  {
    hide KeyOf, TaskRequest, Saved, RunAll;
    if step.Work? {
      ActedKeeps(s.tasks[step.task], step.act, s.gate.stopped);
      hide Acted, CanAct, Begun, Finished;
    }
  }

  lemma WaitersStep(s: State, step: Step)
    requires GateSound(s.gate, Running(s)) && WaitersSound(s) && Enabled(s, step)
    ensures WaitersSound(Apply(s, step))
  {
    StepIs(s, step);
    RunningStep(s, step);
    hide Apply, Running, Enabled;
  }

  lemma AppendSaved(requests: seq<Request>, q: Request)
    requires forall k | 0 <= k < |requests| :: SavedAt(requests, k)
    requires Saved(RunAll(requests), q).Ok?
    ensures forall k | 0 <= k < |requests| + 1 :: SavedAt(requests + [q], k)
  {
    hide Saved, RunAll;
    var all := requests + [q];
    forall k | 0 <= k < |all|
      ensures SavedAt(all, k)
    {
      if k < |requests| {
        assert SavedAt(requests, k) && all[..k] == requests[..k];
      } else {
        assert all[..k] == requests;
      }
    }
  }

  /** What a task asked the database for is settled once it has saved. */
  lemma ActedStored(task: Task, act: Act, stopped: bool, requests: seq<Request>)
    requires CanAct(task, act) && Honest(task) && TaskStored(requests, task)
    requires act == Save(true) ==> TaskRequest(task) in requests
    ensures TaskStored(requests, Acted(task, act, stopped))
  {
  }

  lemma CommittedStays(tasks: map<int, Task>, t: int, act: Act, stopped: bool, q: Request)
    requires t in tasks && CanAct(tasks[t], act) && Honest(tasks[t]) && Committed(tasks, q)
    ensures Committed(tasks[t := Acted(tasks[t], act, stopped)], q)
  {
    var u :| u in tasks && tasks[u].saved && tasks[u].job.Sync? && TaskRequest(tasks[u]) == q;
    var after := tasks[t := Acted(tasks[t], act, stopped)];
    assert after[u].saved && TaskRequest(after[u]) == q;
  }

  lemma CommittedHere(tasks: map<int, Task>, t: int, stopped: bool)
    requires t in tasks && CanAct(tasks[t], Save(true))
    ensures Committed(tasks[t := Acted(tasks[t], Save(true), stopped)], TaskRequest(tasks[t]))
  {
    var after := tasks[t := Acted(tasks[t], Save(true), stopped)];
    assert after[t].saved && TaskRequest(after[t]) == TaskRequest(tasks[t]);
  }

  lemma CommittedGrows(tasks: map<int, Task>, after: map<int, Task>, q: Request)
    requires Committed(tasks, q) && forall t | t in tasks :: t in after && after[t] == tasks[t]
    ensures Committed(after, q)
  {
    var u :| u in tasks && tasks[u].saved && tasks[u].job.Sync? && TaskRequest(tasks[u]) == q;
    assert after[u] == tasks[u];
  }

  lemma MoreStored(task: Task, requests: seq<Request>, more: seq<Request>)
    requires TaskStored(requests, task)
    ensures TaskStored(requests + more, task)
  {
    hide TaskRequest;
  }

  /** The tasks after a step: those before it, with one of them changed or a new one added. */
  lemma TasksAre(s: State, step: Step)
    requires Enabled(s, step)
    ensures step.Work? ==> step.task in s.tasks && CanAct(s.tasks[step.task], step.act)
    ensures step.Work? ==> Apply(s, step).tasks == s.tasks[step.task := Acted(s.tasks[step.task], step.act, s.gate.stopped)]
    ensures !step.Work? ==> forall t | t in Apply(s, step).tasks ::
      (t in s.tasks && Apply(s, step).tasks[t] == s.tasks[t]) || !Apply(s, step).tasks[t].saved
    ensures !step.Work? ==> forall t | t in s.tasks :: t in Apply(s, step).tasks && Apply(s, step).tasks[t] == s.tasks[t]
    ensures !step.Work? ==> forall t | t in Apply(s, step).tasks && t !in s.tasks :: Apply(s, step).tasks[t].phase == Launched
  {
    hide KeyOf, TaskRequest, Saved, RunAll, Acted, CanAct, Begun, Finished;
  }

  lemma RequestsStep(s: State, step: Step)
    requires RequestsSound(s) && TasksSound(s.tasks, s.calls) && Enabled(s, step)
    ensures RequestsSound(Apply(s, step))
  {
    StepIs(s, step);
    TasksAre(s, step);
    hide Apply, Enabled, TaskRequest, Saved, SavedAt, RunAll, Acted, CanAct, Honest, Listed, TableSound;
    var saves := step.Work? && step.act == Save(true);
    var more := if saves then [TaskRequest(s.tasks[step.task])] else [];
    var requests := s.requests + more;
    if saves {
      AppendSaved(s.requests, more[0]);
    } else {
      assert requests == s.requests;
    }
    var after := Apply(s, step);
    forall t | t in after.tasks
      ensures TaskStored(requests, after.tasks[t])
    {
      if t in s.tasks {
        MoreStored(s.tasks[t], s.requests, more);
        if step.Work? && t == step.task {
          ActedStored(s.tasks[t], step.act, s.gate.stopped, requests);
        }
      }
    }
    CommitsStep(s, step, requests);
  }

  lemma CommitsStep(s: State, step: Step, requests: seq<Request>)
    requires TasksSound(s.tasks, s.calls) && Enabled(s, step) && forall q | q in s.requests :: Committed(s.tasks, q)
    requires requests == s.requests + (if step.Work? && step.act == Save(true) && step.task in s.tasks && s.tasks[step.task].job.Sync? then [TaskRequest(s.tasks[step.task])] else [])
    ensures forall q | q in requests :: Committed(Apply(s, step).tasks, q)
  {
    TasksAre(s, step);
    hide Apply, Enabled, TaskRequest, Saved, RunAll, Acted, CanAct, Honest, Listed, TableSound, Committed;
    forall q | q in requests
      ensures Committed(Apply(s, step).tasks, q)
    {
      if q in s.requests {
        if step.Work? {
          CommittedStays(s.tasks, step.task, step.act, s.gate.stopped, q);
        } else {
          CommittedGrows(s.tasks, Apply(s, step).tasks, q);
        }
      } else {
        CommittedHere(s.tasks, step.task, s.gate.stopped);
      }
    }
  }

  lemma StopStep(s: State, step: Step)
    requires StopSound(s) && TasksSound(s.tasks, s.calls) && Enabled(s, step)
    ensures StopSound(Apply(s, step))
  {
    StepIs(s, step);
    TasksAre(s, step);
    hide Apply, Enabled, Listed, TableSound, Honest;
    if step.Work? {
      StopActed(s.tasks[step.task], step.act, s.gate.stopped);
    }
    hide Acted, CanAct;
  }

  lemma StopActed(task: Task, act: Act, stopped: bool)
    requires CanAct(task, act)
    ensures var after := Acted(task, act, stopped);
      !after.began && after.phase != Launched ==> !task.began && (stopped || task.phase != Launched)
  {
  }

  lemma SoundStep(s: State, step: Step)
    requires Sound(s) && Enabled(s, step)
    ensures Sound(Apply(s, step))
  {
    hide GateSound, WaitersSound, TasksSound, CallersSound, KeysSound, RequestsSound, StopSound, Apply, Enabled, Running;
    GateStep(s, step);
    WaitersStep(s, step);
    TasksStep(s, step);
    CallersStep(s, step);
    KeysStep(s, step);
    RequestsStep(s, step);
    StopStep(s, step);
  }

  /** In every reachable state the invariant holds. */
  lemma {:induction false} AlwaysSound(hash: string -> string, steps: seq<Step>, s: State)
    requires Leads(Start(hash), steps, s)
    ensures Sound(s) && s.hash == hash
  {
    hide Sound, Apply, Enabled;
    if steps == [] {
      StartSound(hash);
    } else {
      var n := |steps| - 1;
      var m :| Leads(Start(hash), steps[..n], m) && Enabled(m, steps[n]) && s == Apply(m, steps[n]);
      AlwaysSound(hash, steps[..n], m);
      SoundStep(m, steps[n]);
      StepIs(m, steps[n]);
    }
  }

  lemma StartSound(hash: string -> string)
    ensures Sound(Start(hash))
  {
    assert Running(Start(hash)) == {};
  }
}
