/** internal/dashboard/service.go: counting synchronization tasks, and refusing new ones at shutdown. */
module SyncGate {

  /** The channel `syncDone`; closing one that is not open panics. */
  datatype Channel = Unmade | Open | Closed | Panicked

  datatype Gate = Gate(tasks: int, stopped: bool, done: Channel)

  const FreshGate := Gate(0, false, Unmade)

  function Close(c: Channel): Channel {
    if c == Open then Closed else Panicked
  }

  /** A task may begin only before the stop. */
  function Begun(g: Gate): Gate {
    if g.stopped then g else g.(tasks := g.tasks + 1)
  }

  /** The task that ends last after the stop closes the channel. */
  function Finished(g: Gate): Gate {
    var tasks := g.tasks - 1;
    g.(tasks := tasks, done := if g.stopped && tasks == 0 then Close(g.done) else g.done)
  }

  /** Only the first stop makes the channel, already closed when nothing runs. */
  function Stopped(g: Gate): Gate {
    if g.stopped then g
    else g.(stopped := true, done := if g.tasks == 0 then Close(Open) else Open)
  }

  /** The counter counts the running tasks; the channel is made by the stop, and closed exactly when nothing runs after it. */
  ghost predicate GateSound(g: Gate, running: set<int>) {
    && g.tasks == |running|
    && g.done == (if !g.stopped then Unmade else if running == {} then Closed else Open)
  }

  lemma BegunSound(g: Gate, running: set<int>, task: int)
    requires GateSound(g, running) && task !in running
    ensures GateSound(Begun(g), if g.stopped then running else running + {task})
  {
  }

  /** The last task to finish after the stop finds the channel open. */
  lemma FinishedSound(g: Gate, running: set<int>, task: int)
    requires GateSound(g, running) && task in running
    ensures GateSound(Finished(g), running - {task})
  {
    assert running - {task} == {} <==> |running - {task}| == 0;
  }

  lemma StoppedSound(g: Gate, running: set<int>)
    requires GateSound(g, running)
    ensures GateSound(Stopped(g), running)
  {
    assert running == {} <==> |running| == 0;
  }

  /** The fields of `Service` that the mutex guards, and the tasks that run. */
  class Service {
    var syncTasks: int
    var syncStopped: bool
    var syncDone: Channel
    ghost var running: set<int>

    function State(): Gate
      reads this
    {
      Gate(syncTasks, syncStopped, syncDone)
    }

    ghost predicate Valid()
      reads this
    {
      GateSound(State(), running)
    }

    constructor ()
      ensures Valid() && running == {} && !syncStopped && State() == FreshGate
    {
      syncTasks, syncStopped, syncDone, running := 0, false, Unmade, {};
    }

    /** A task that may not begin is not run. */
    method BeginSyncTask(ghost task: int) returns (begun: bool)
      requires Valid() && task !in running
      modifies this
      ensures Valid() && syncStopped == old(syncStopped)
      ensures begun <==> !syncStopped
      ensures running == old(running) + (if begun then {task} else {})
      ensures State() == Begun(old(State()))
    {
      BegunSound(State(), running, task);
      if syncStopped {
        return false;
      }
      syncTasks, running := syncTasks + 1, running + {task};
      begun := true;
    }

    /** Closing never panics. */
    method FinishSyncTask(ghost task: int)
      requires Valid() && task in running
      modifies this
      ensures Valid() && syncStopped == old(syncStopped)
      ensures running == old(running) - {task}
      ensures syncDone != Panicked && (syncDone == Closed <==> syncStopped && running == {})
      ensures State() == Finished(old(State()))
    {
      FinishedSound(State(), running, task);
      syncTasks, running := syncTasks - 1, running - {task};
      if syncStopped && syncTasks == 0 {
        syncDone := Close(syncDone);
      }
    }

    /** `WaitForSync` up to the wait on the channel. */
    method StopSync()
      requires Valid()
      modifies this
      ensures Valid() && syncStopped && running == old(running)
      ensures syncDone != Panicked && (syncDone == Closed <==> running == {})
      ensures State() == Stopped(old(State()))
    {
      StoppedSound(State(), running);
      if !syncStopped {
        syncStopped := true;
        syncDone := Open;
        if syncTasks == 0 {
          syncDone := Close(syncDone);
        }
      }
    }
  }
}
