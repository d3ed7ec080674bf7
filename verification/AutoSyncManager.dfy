/** The auto-sync manager as the source writes it: loops over the registered
    tasks that update the store and the map of promises in flight. */
module AutoSyncManager {
  import E = AutoSyncEffects
  import opened AutoSyncGuarantees
  import opened InsertionOrder
  import M = AutoSyncModel
  import opened Wrappers

  /** The duplicate check that creating a manager starts with: the first id seen twice, if any. */
  method FindDuplicate(ids: seq<string>) returns (duplicate: Option<string>)
    ensures duplicate.None? <==> Distinct(ids)
    ensures duplicate.Some? ==>
      exists i, j :: 0 <= i < j < |ids| && ids[i] == ids[j] == duplicate.value && Distinct(ids[..j])
  {
    var seen: set<string> := {};
    for j := 0 to |ids|
      invariant Distinct(ids[..j])
      invariant forall id :: id in seen <==> id in ids[..j]
    {
      if ids[j] in seen {
        var i :| 0 <= i < j && ids[..j][i] == ids[j];
        assert ids[i] == ids[j];
        return Some(ids[j]);
      }
      seen := seen + {ids[j]};
      assert ids[..j + 1] == ids[..j] + [ids[j]];
    }
    assert ids[..|ids|] == ids;
    duplicate := None;
  }

  class Manager {
    const settings: M.Settings
    const ids: seq<string>
    var tasks: map<string, M.TaskState>
    var lastRunAt: Option<real>
    var lastManualAt: Option<real>
    var isSyncing: bool
    var inFlightPromises: set<string>
    var executions: multiset<string>
    ghost var history: seq<M.Event>

    ghost function Snapshot(): M.State
      reads this
    {
      M.State(settings, ids, tasks, lastRunAt, lastManualAt, isSyncing, inFlightPromises, executions, history)
    }

    constructor (settings: M.Settings, ids: seq<string>)
      requires Distinct(ids)
      ensures Snapshot() == M.Initial(settings, ids) && Inv(Snapshot())
      ensures forall id :: id in ids ==> id in tasks && tasks[id] == M.TaskState(false, 0, None, None, None)
      ensures lastRunAt == lastManualAt == None && !isSyncing && inFlightPromises == {} && executions == multiset{}
    {
      this.settings, this.ids := settings, ids;
      tasks := map id | id in ids :: M.FRESH_TASK;
      lastRunAt, lastManualAt, isSyncing := None, None, false;
      inFlightPromises, executions, history := {}, multiset{}, [];
      InitialInv(settings, ids);
    }

    method UpdateIsSyncing()
      modifies this`isSyncing
      ensures Snapshot() == M.UpdateIsSyncing(old(Snapshot()))
    {
      isSyncing := exists id :: id in tasks && tasks[id].inFlight;
    }

    /** Starts one task, unless its promise is already stored or it is disabled. */
    method RunTask(id: string, at: M.Moment)
      modifies this
      ensures Snapshot() == M.RunTask(old(Snapshot()), id, at)
    {
      hide M.RunThrowingTask, M.SuccessDelay, M.SomeInFlight;
      if id in inFlightPromises {
        return;
      }
      if id !in tasks {
        return;
      }
      if id !in at.enabled {
        SkipDisabled(id, at);
        return;
      }
      if id in at.throws {
        RunThrows(id, at);
        return;
      }
      tasks := tasks[id := tasks[id].(inFlight := true)];
      UpdateIsSyncing();
      executions := executions + multiset{id};
      history := history + [M.Started(id, at.now)];
      inFlightPromises := inFlightPromises + {id};
    }

    method SkipDisabled(id: string, at: M.Moment)
      requires id in tasks && id !in at.enabled && id !in inFlightPromises
      modifies this`tasks
      ensures Snapshot() == M.RunTask(old(Snapshot()), id, at)
    {
      var nextAttemptAt := at.now + M.SuccessDelay(settings, M.Draw(at, id));
      tasks := tasks[id := tasks[id].(lastError := None, nextAttemptAt := Some(nextAttemptAt))];
    }

    /** The wrapper of a `run` that throws at once is done before its promise is stored. */
    method RunThrows(id: string, at: M.Moment)
      requires id in tasks && id in at.throws && id !in inFlightPromises
      modifies this
      ensures Snapshot() == M.RunThrowingTask(old(Snapshot()), id, at)
    {
      hide M.BackoffDelay, M.SomeInFlight;
      tasks := tasks[id := tasks[id].(inFlight := true)];
      UpdateIsSyncing();
      var state := tasks[id];
      var consecutiveFailures := state.consecutiveFailures + 1;
      var nextDelayMs := M.BackoffDelay(settings, consecutiveFailures, M.Draw(at, id));
      tasks := tasks[id := state.(inFlight := false, consecutiveFailures := consecutiveFailures,
                                  lastError := Some(at.throws[id]), nextAttemptAt := Some(at.now + nextDelayMs))];
      assert tasks == old(tasks)[id := tasks[id]];
      inFlightPromises := inFlightPromises - {id};
      UpdateIsSyncing();
      inFlightPromises := inFlightPromises + {id};
      history := history + [M.Started(id, at.now), M.Failed(id), M.Threw(id)];
    }

    method RunAllEligible(ignoreBackoff: bool, at: M.Moment)
      modifies this
      ensures Snapshot() == M.RunAllEligible(old(Snapshot()), ignoreBackoff, at)
    {
      hide M.RunTask, M.IsEligible;
      if !at.connected {
        return;
      }
      lastRunAt := Some(at.now);
      ghost var begun := Snapshot();
      var runIds := SelectEligible(ignoreBackoff, at.now);
      for i := 0 to |runIds|
        invariant Snapshot() == M.RunTasks(begun, runIds[..i], at)
      {
        assert runIds[..i + 1][..i] == runIds[..i];
        RunTask(runIds[i], at);
      }
      assert runIds[..|runIds|] == runIds;
    }

    method SelectEligible(ignoreBackoff: bool, now: real) returns (runIds: seq<string>)
      ensures runIds == M.Eligible(tasks, ids, ignoreBackoff, now)
    {
      runIds := [];
      for i := 0 to |ids|
        invariant runIds == M.Eligible(tasks, ids[..i], ignoreBackoff, now)
      {
        assert ids[..i + 1][..i] == ids[..i];
        var id := ids[i];
        if id !in tasks {
          continue;
        }
        var state := tasks[id];
        if state.inFlight {
          continue;
        }
        if !ignoreBackoff {
          if state.nextAttemptAt.Some? && state.nextAttemptAt.value > now {
            continue;
          }
        }
        runIds := runIds + [id];
      }
      assert ids[..|ids|] == ids;
    }

    method HandleConnected(at: M.Moment)
      requires Inv(Snapshot())
      modifies this
      ensures Snapshot() == M.Step(old(Snapshot()), M.Connect(at)) && Inv(Snapshot())
      ensures E.Reconnects(old(Snapshot()), Snapshot(), at)
    {
      hide M.RunAllEligible, M.ResetTask, E.Reconnects;
      E.ReconnectEffect(Snapshot(), at);
      StepKeeps(Snapshot(), M.Connect(at));
      tasks := ResetEachTask(at.now);
      history := history + [M.Reconnected];
      RunAllEligible(true, at);
    }

    method ResetEachTask(now: real) returns (nextTasks: map<string, M.TaskState>)
      requires forall id :: id in ids <==> id in tasks
      ensures nextTasks == map id | id in tasks :: M.ResetTask(tasks[id], now)
    {
      nextTasks := tasks;
      for i := 0 to |ids|
        invariant nextTasks.Keys == tasks.Keys
        invariant forall id :: id in tasks && id in ids[..i] ==> nextTasks[id] == M.ResetTask(tasks[id], now)
        invariant forall id :: id in tasks && id !in ids[..i] ==> nextTasks[id] == tasks[id]
      {
        var id := ids[i];
        assert ids[..i + 1] == ids[..i] + [id];
        if id in nextTasks {
          nextTasks := nextTasks[id :=
            nextTasks[id].(consecutiveFailures := 0, lastError := None, nextAttemptAt := Some(now))];
        }
      }
      assert ids[..|ids|] == ids;
    }

    method Tick(at: M.Moment)
      requires Inv(Snapshot())
      modifies this
      ensures Snapshot() == M.Step(old(Snapshot()), M.Tick(at)) && Inv(Snapshot())
      ensures E.RunsAll(old(Snapshot()), Snapshot(), false, at)
    {
      hide E.RunsAll;
      E.TickEffect(Snapshot(), at);
      StepKeeps(Snapshot(), M.Tick(at));
      RunAllEligible(false, at);
    }

    method SyncAllNow(at: M.Moment)
      requires Inv(Snapshot())
      modifies this
      ensures Snapshot() == M.Step(old(Snapshot()), M.Manual(at)) && Inv(Snapshot())
      ensures E.SyncsAll(old(Snapshot()), Snapshot(), at)
    {
      hide M.RunTasks, M.Eligible, E.SyncsAll;
      E.ManualEffect(Snapshot(), at);
      StepKeeps(Snapshot(), M.Manual(at));
      if !at.connected {
        return;
      }
      lastManualAt := Some(at.now);
      RunAllEligible(true, at);
    }

    /** The rest of a task's wrapper, once its execution has settled. */
    method OnSettled(id: string, error: Option<string>, at: M.Moment)
      requires Inv(Snapshot()) && id in tasks && id in executions
      modifies this
      ensures Snapshot() == M.CompleteTask(old(Snapshot()), id, error, at) && Inv(Snapshot())
      ensures E.Settles(old(Snapshot()), Snapshot(), id, error, at)
    {
      hide M.SuccessDelay, M.BackoffDelay, M.SomeInFlight, Inv, E.Settles;
      E.SettleEffect(Snapshot(), id, error, at);
      CompleteKeeps(Snapshot(), id, error, at);
      var state := tasks[id];
      executions := executions - multiset{id};
      if error.None? {
        var nextDelayMs := M.SuccessDelay(settings, M.Draw(at, id));
        tasks := tasks[id :=
          state.(inFlight := false, consecutiveFailures := 0, lastSuccessAt := Some(at.now), lastError := None,
                                    nextAttemptAt := Some(at.now + nextDelayMs))];
        history := history + [M.Succeeded(id)];
      } else {
        var consecutiveFailures := state.consecutiveFailures + 1;
        var nextDelayMs := M.BackoffDelay(settings, consecutiveFailures, M.Draw(at, id));
        tasks := tasks[id := state.(inFlight := false, consecutiveFailures := consecutiveFailures, lastError := error,
                                    nextAttemptAt := Some(at.now + nextDelayMs))];
        history := history + [M.Failed(id)];
      }
      inFlightPromises := inFlightPromises - {id};
      UpdateIsSyncing();
    }
  }
}
