/** How the registry's history grows: steps only append to it, and a settled
    promise keeps its outcome. */
module TaskRegistryRuns {
  import opened InsertionOrder
  import opened TaskRegistryInvariant
  import opened TaskRegistryModel
  import opened Text
  import opened Wrappers

  // ---------- History only grows ----------

  ghost predicate Extends(s: State, r: State) {
    s.log <= r.log && s.waiters <= r.waiters && s.limits == r.limits
  }

  /** `t` was evicted from `buffered` or `terminal` after the history was `past`. */
  ghost predicate EvictedSince(past: seq<Event>, log: seq<Event>, t: string) {
    exists i :: |past| <= i < |log| && log[i] == Evicted(t)
  }

  lemma {:induction false} EvictionsExtend(log: seq<Event>, tasks: seq<string>)
    ensures log <= LogEvictions(log, tasks)
    ensures forall t :: t in tasks ==> EvictedSince(log, LogEvictions(log, tasks), t)
    decreases |tasks|
  {
    if tasks != [] {
      var next := log + [Evicted(tasks[0])];
      EvictionsExtend(next, tasks[1..]);
      assert LogEvictions(log, tasks)[|log|] == next[|log|] == Evicted(tasks[0]);
      assert forall t :: EvictedSince(next, LogEvictions(log, tasks), t) ==>
        EvictedSince(log, LogEvictions(log, tasks), t);
    }
  }

  lemma MarkFrame(s: State, t: string)
    ensures var r := Mark(s, t); r == s.(terminal := r.terminal, log := r.log)
  {
  }

  lemma CloseFrame(s: State, t: string)
    requires t in s.pending
    ensures var r := Close(s, t);
      r == s.(pending := s.pending - {t}, timers := s.timers - {s.pending[t].timer},
        connectionByTask := Remove(s.connectionByTask, t),
              tasksByConnection := r.tasksByConnection, terminal := r.terminal, log := r.log)
  {
  }

  lemma MarkExtends(s: State, t: string)
    ensures Extends(s, Mark(s, t))
  {
    EvictionsExtend(s.log + [Marked(t)], Older(Put(Remove(s.terminal, t), t, true).keys, s.limits.maxTerminal));
  }

  lemma CloseExtends(s: State, t: string)
    requires t in s.pending
    ensures Extends(s, Close(s, t))
  {
    hide Mark, ClearAssociation;
    var entry := s.pending[t];
    var open := s.(pending := s.pending - {t}, timers := s.timers - {entry.timer});
    ClearFrame(open, t, entry.connection);
    MarkExtends(ClearAssociation(open, t, entry.connection), t);
  }

  lemma RejectTaskExtends(s: State, t: string, c: string)
    ensures Extends(s, RejectTask(s, t, c))
  {
    hide Mark, ClearAssociation, Close, KeepNewest;
    if t in s.pending {
      CloseExtends(s.(preWaitErrors := Remove(s.preWaitErrors, t)), t);
    } else if t in s.buffered.entries {
      ClearFrame(s, t, None);
    } else {
      var kept := KeepNewest(Put(Remove(s.preWaitErrors, t), t, c), s.limits.maxTerminal);
      ClearFrame(s.(preWaitErrors := kept), t, None);
      MarkExtends(ClearAssociation(s.(preWaitErrors := kept), t, None), t);
    }
  }

  lemma {:induction false} RejectTasksExtends(s: State, tasks: seq<string>, c: string)
    ensures Extends(s, RejectTasks(s, tasks, c).0)
    decreases |tasks|
  {
    hide RejectTask;
    if tasks != [] {
      RejectTaskExtends(s, tasks[0], c);
      RejectTasksExtends(RejectTask(s, tasks[0], c), tasks[1..], c);
    }
  }

  lemma SetAssociationFrame(s: State, t: string, c: string)
    ensures var r := SetAssociation(s, t, c);
      r == s.(connectionByTask := r.connectionByTask, tasksByConnection := r.tasksByConnection,
        preWaitErrors := r.preWaitErrors)
  {
  }

  lemma WaitExtends(s: State, t: string, ms: Option<real>, c: Option<string>)
    ensures Extends(s, WaitTask(s, t, ms, c).0)
  {
    hide Mark, ClearAssociation, SetAssociation, Remove;
    if t == "" {
    } else if t in s.preWaitErrors.entries {
      var next := s.(preWaitErrors := Remove(s.preWaitErrors, t));
      ClearFrame(next, t, None);
      MarkExtends(ClearAssociation(next, t, None), t);
    } else if t in s.terminal.entries {
    } else if t in s.buffered.entries {
      var next := s.(buffered := Remove(s.buffered, t), preWaitErrors := Remove(s.preWaitErrors, t));
      ClearFrame(next, t, None);
      MarkExtends(ClearAssociation(next, t, None), t);
    } else if t !in s.pending {
      var connection := ConnectionFor(s, t, c);
      if connection.Some? {
        var entry := PendingWait(|s.waiters|, s.timersIssued, connection);
        var timer := Timer(t, AtLeastOne(ms, s.limits.defaultTimeoutMs));
        SetAssociationFrame(s.(pending := s.pending[t := entry],
                               timers := s.timers[s.timersIssued := timer],
                               timersIssued := s.timersIssued + 1, waiters := s.waiters + [t]), t, connection.value);
      }
    }
  }

  lemma ResolveExtends(s: State, t: string, result: TaskResult)
    ensures Extends(s, ResolveTask(s, t, result).0)
  {
    hide Mark, ClearAssociation, Close, KeepNewest, Remove;
    if t in s.pending {
      CloseExtends(s.(preWaitErrors := Remove(s.preWaitErrors, t), log := s.log + [Accepted(t)]), t);
    } else {
      var next := s.(preWaitErrors := Remove(s.preWaitErrors, t));
      EvictionsExtend(s.log + [Accepted(t)], Older(Put(s.buffered, t, result).keys, s.limits.maxBuffered));
      ClearFrame(Buffer(next, t, result), t, None);
    }
  }

  lemma StepExtends(s: State, op: Op)
    requires Inv(s)
    ensures Extends(s, Step(s, op).0)
  {
    hide WaitTask, ResolveTask, SetAssociation, RejectTasks, FireTimer, Trim, InvDuring, Close;
    match op
    case Associate(t, c) => SetAssociationFrame(s, Trim(t), Trim(c));
    case Wait(t, ms, c) => WaitExtends(s, Trim(t), ms, if c.Some? then Some(Trim(c.value)) else None);
    case Resolve(t, result) => ResolveExtends(s, Trim(t), result);
    case RejectAll(raw) =>
      var c := Trim(raw);
      if c in s.tasksByConnection {
        RejectTasksExtends(s.(tasksByConnection := s.tasksByConnection - {c}), s.tasksByConnection[c], c);
      }
    case TimerFires(timer) =>
      if timer in s.timers {
        FireTimerKeeps(s, timer);
        CloseExtends(s, s.timers[timer].task);
      }
  }

  lemma {:induction false} RunExtends(s: State, ops: seq<Op>)
    requires Inv(s)
    ensures Extends(s, Run(s, ops))
    decreases |ops|
  {
    hide Step, Inv;
    if ops != [] {
      StepExtends(s, ops[0]);
      StepKeeps(s, ops[0]);
      RunExtends(Step(s, ops[0]).0, ops[1..]);
    }
  }

  /** What was settled stays settled the same way. */
  lemma {:induction false} OutcomesGrow(log: seq<Event>, more: seq<Event>)
    requires Lawful(log + more)
    ensures Outcomes(log).Keys <= Outcomes(log + more).Keys
    ensures forall p: nat :: p in Outcomes(log) ==> Outcomes(log + more)[p] == Outcomes(log)[p]
    decreases |more|
  {
    if more == [] {
      assert log + more == log;
    } else {
      var most := more[..|more| - 1];
      assert log + more == (log + most) + [more[|more| - 1]];
      HistoryAfter(log + most, more[|more| - 1]);
      OutcomesGrow(log, most);
    }
  }
}
