/** The task result registry as the source writes it: six maps updated in place,
    eviction loops over insertion order, and timers whose callbacks run later. */
module TaskResultRegistry {
  import E = TaskRegistryEffects
  import opened InsertionOrder
  import M = TaskRegistryModel
  import opened TaskRegistryInvariant
  import opened Text
  import opened Wrappers

  /** `r` is what is left of `m` without its first `dropped` entries. */
  predicate IsTail<V(==)>(m: OrderedMap<V>, r: OrderedMap<V>, dropped: nat) {
    && dropped <= |m.keys| && r.keys == m.keys[dropped..]
    && forall k :: k in r.entries ==> k in m.entries && r.entries[k] == m.entries[k]
  }

  lemma TailWithoutOldest<V>(m: OrderedMap<V>, r: OrderedMap<V>, dropped: nat)
    requires IsTail(m, r, dropped) && r.keys != []
    ensures IsTail(m, Remove(r, r.keys[0]), dropped + 1)
    ensures r.keys[0] in m.entries && |Remove(r, r.keys[0]).keys| == |r.keys| - 1
  {
    WithoutFirst(r.keys);
    assert r.keys[0] in r.keys;
  }

  lemma TailIsNewest<V>(m: OrderedMap<V>, r: OrderedMap<V>, dropped: nat, n: nat)
    requires IsTail(m, r, dropped) && |r.keys| <= n && (dropped == 0 || |r.keys| == n)
    ensures r == KeepNewest(m, n)
  {
    assert r.keys == Newest(m.keys, n);
    hide Newest, Distinct;
    SameKeysSameMap(m, r, KeepNewest(m, n));
  }

  lemma SameKeysSameMap<V>(m: OrderedMap<V>, a: OrderedMap<V>, b: OrderedMap<V>)
    requires a.keys == b.keys
    requires forall k :: k in a.entries ==> k in m.entries && a.entries[k] == m.entries[k]
    requires forall k :: k in b.entries ==> k in m.entries && b.entries[k] == m.entries[k]
    ensures a == b
  {
    forall k ensures k in a.entries <==> k in b.entries {
      assert k in a.keys <==> k in b.keys;
    }
    assert a.entries == b.entries;
  }

  /** Drops the oldest entries until at most `maxEntries` are left. */
  method EvictOldest<V>(m: OrderedMap<V>, maxEntries: nat) returns (r: OrderedMap<V>)
    requires "" !in m.entries
    ensures r == KeepNewest(m, maxEntries)
  {
    hide Remove, Newest, Distinct;
    r := m;
    ghost var dropped := 0;
    while |r.keys| > maxEntries
      invariant IsTail(m, r, dropped) && (dropped == 0 || |r.keys| >= maxEntries)
      decreases |r.keys|
    {
      var oldest := r.keys[0];
      TailWithoutOldest(m, r, dropped);
      if oldest == "" {
        break;
      }
      r := Remove(r, oldest);
      dropped := dropped + 1;
    }
    TailIsNewest(m, r, dropped, maxEntries);
  }

  /** Clearing an association commutes with everything that happens to `buffered` and the history. */
  lemma ClearCommutes(s: M.State, t: string, fallback: Option<string>, buffered: OrderedMap<M.TaskResult>,
                      log: seq<M.Event>)
    ensures M.ClearAssociation(s, t, fallback).(buffered := buffered, log := log)
         == M.ClearAssociation(s.(buffered := buffered, log := log), t, fallback)
  {
  }

  lemma InvBasics(s: M.State, gone: string, rest: seq<string>)
    requires InvDuring(s, gone, rest)
    ensures Named(s) && Bounded(s)
    ensures rest != [] ==> rest[0] != ""
  {
    hide TimersMatch, PromisesMatch, HistoryMatches, Separate;
  }

  /** One round of the disconnect loop, and its end. */
  lemma RejectRound(s: M.State, tasks: seq<string>, i: nat, c: string)
    requires i <= |tasks|
    ensures var now := M.RejectTasks(s, tasks[i..], c);
      if i == |tasks| then now == (s, 0)
      else
        var later := M.RejectTasks(M.RejectTask(s, tasks[i], c), tasks[i + 1..], c);
        now.0 == later.0 && now.1 == later.1 + if tasks[i] in s.pending then 1 else 0
  {
    if i < |tasks| {
      assert tasks[i..][1..] == tasks[i + 1..];
    }
  }

  class Registry {
    const limits: M.Limits
    var pending: map<string, M.PendingWait>
    var buffered: OrderedMap<M.TaskResult>
    var preWaitErrors: OrderedMap<string>
    var terminal: OrderedMap<bool>
    var tasksByConnection: map<string, seq<string>>
    var connectionByTask: OrderedMap<string>

    // The runtime's side: armed timers, the handles given out, and for which task each promise was made.
    var timers: map<nat, M.Timer>
    var timersIssued: nat
    var waiters: seq<string>
    ghost var log: seq<M.Event>

    ghost function Snapshot(): M.State
      reads this
    {
      M.State(limits, pending, buffered, preWaitErrors, terminal, tasksByConnection, connectionByTask,
              timers, timersIssued, waiters, log)
    }

    constructor (timeoutMs: Option<real>, maxBuffered: Option<real>, maxTerminal: Option<real>,
                 maxAssociations: Option<real>)
      ensures Snapshot() == M.Initial(M.MakeLimits(timeoutMs, maxBuffered, maxTerminal, maxAssociations))
      ensures pending == map[] && buffered.keys == preWaitErrors.keys == []
      ensures terminal.keys == connectionByTask.keys == []
      ensures tasksByConnection == map[] && timers == map[] && waiters == []
      ensures E.FloorsTo(limits.defaultTimeoutMs, timeoutMs, 30000)
      ensures E.FloorsTo(limits.maxBuffered, maxBuffered, 10000) && E.FloorsTo(limits.maxTerminal, maxTerminal, 50000)
      ensures E.FloorsTo(limits.maxAssociations, maxAssociations, limits.maxTerminal)
      ensures Inv(Snapshot())
    {
      limits := M.MakeLimits(timeoutMs, maxBuffered, maxTerminal, maxAssociations);
      pending, buffered, preWaitErrors, terminal := map[], Empty(), Empty(), Empty();
      tasksByConnection, connectionByTask := map[], Empty();
      timers, timersIssued, waiters, log := map[], 0, [], [];
      InitialInv(M.MakeLimits(timeoutMs, maxBuffered, maxTerminal, maxAssociations));
      E.LimitsAsConfigured(timeoutMs, maxBuffered, maxTerminal, maxAssociations);
    }

    method GetAssociatedConnectionId(taskId: string) returns (connectionId: Option<string>)
      requires Inv(Snapshot())
      ensures connectionId.Some? <==> exists c :: Lists(tasksByConnection, c, Trim(taskId))
      ensures connectionId.Some? ==> Lists(tasksByConnection, connectionId.value, Trim(taskId))
    {
      var t := Trim(taskId);
      if |t| == 0 {
        connectionId := None;
      } else {
        connectionId := Lookup(connectionByTask, t);
      }
      InverseIsNamed(connectionByTask.entries, tasksByConnection);
      assert t in connectionByTask.entries ==> Lists(tasksByConnection, connectionByTask.entries[t], t);
    }

    method Associate(taskId: string, connectionId: string)
      requires Inv(Snapshot())
      modifies this
      ensures Snapshot() == M.Step(old(Snapshot()), M.Associate(taskId, connectionId)).0
      ensures E.Associates(old(Snapshot()), Snapshot(), Trim(taskId), Trim(connectionId))
      ensures Inv(Snapshot())
    {
      hide InvDuring, M.SetAssociation, E.Associates;
      E.AssociateEffect(Snapshot(), taskId, connectionId);
      StepKeeps(Snapshot(), M.Associate(taskId, connectionId));
      InvBasics(Snapshot(), "", []);
      var t, c := Trim(taskId), Trim(connectionId);
      if |t| == 0 || |c| == 0 || t in terminal.entries {
        return;
      }
      var entry := if t in pending then Some(pending[t]) else None;
      SetAssociation(t, c);
      if entry.Some? && entry.value.connection.None? {
        pending := pending[t := entry.value.(connection := Some(c))];
      }
    }

    method Wait(taskId: string, timeoutMs: Option<real>, connection: Option<string>) returns (reply: M.WaitReply)
      requires Inv(Snapshot())
      modifies this
      ensures (Snapshot(), M.Waited(reply)) == M.Step(old(Snapshot()), M.Wait(taskId, timeoutMs, connection))
      ensures E.Waits(old(Snapshot()), Snapshot(), Trim(taskId), timeoutMs,
                      if connection.Some? then Some(Trim(connection.value)) else None, reply)
      ensures Inv(Snapshot())
    {
      hide InvDuring, M.ClearAssociation, M.Mark, M.Open, Remove, E.Waits;
      E.WaitEffect(Snapshot(), taskId, timeoutMs, connection);
      StepKeeps(Snapshot(), M.Wait(taskId, timeoutMs, connection));
      InvBasics(Snapshot(), "", []);
      var t := Trim(taskId);
      if |t| == 0 {
        return M.Refused(M.TaskIdRequired);
      }
      if t in preWaitErrors.entries {
        reply := M.Refused(M.ConnectionLost(preWaitErrors.entries[t]));
        preWaitErrors := Remove(preWaitErrors, t);
        ClearAssociation(t, None);
        MarkTerminal(t);
        return;
      }
      if t in terminal.entries {
        return M.Refused(M.NoLongerAvailable);
      }
      if t in buffered.entries {
        reply := M.Ready(buffered.entries[t]);
        buffered := Remove(buffered, t);
        preWaitErrors := Remove(preWaitErrors, t);
        ClearAssociation(t, None);
        MarkTerminal(t);
        return;
      }
      if t in pending {
        return M.Awaiting(pending[t].promise);
      }
      var delayMs := M.AtLeastOne(timeoutMs, limits.defaultTimeoutMs);
      var explicit := if connection.Some? then Trim(connection.value) else "";
      var associated := Lookup(connectionByTask, t);
      var chosen := if explicit != "" then Some(explicit) else associated;
      reply := M.Awaiting(|waiters|);
      OpenWait(t, delayMs, if chosen.Some? && |chosen.value| > 0 then chosen else None);
    }

    /** Makes the promise and arms the timer of a new wait. */
    method OpenWait(t: string, delayMs: int, connection: Option<string>)
      requires Named(Snapshot()) && Bounded(Snapshot()) && t != ""
      modifies this
      ensures Snapshot() == M.Open(old(Snapshot()), t, delayMs, connection)
    {
      hide M.SetAssociation;
      var entry := M.PendingWait(|waiters|, timersIssued, connection);
      waiters := waiters + [t];
      timers, timersIssued := timers[entry.timer := M.Timer(t, delayMs)], timersIssued + 1;
      pending := pending[t := entry];
      if entry.connection.Some? {
        SetAssociation(t, entry.connection.value);
      }
    }

    method Resolve(taskId: string, result: M.TaskResult) returns (accepted: bool)
      requires Inv(Snapshot())
      modifies this
      ensures (Snapshot(), M.Resolved(accepted)) == M.Step(old(Snapshot()), M.Resolve(taskId, result))
      ensures E.Resolves(old(Snapshot()), Snapshot(), Trim(taskId), result, accepted)
      ensures Inv(Snapshot())
    {
      hide InvDuring, M.ClearAssociation, M.Close, M.LogEvictions, Remove, KeepNewest, Older, E.Resolves;
      E.ResolveEffect(Snapshot(), taskId, result);
      StepKeeps(Snapshot(), M.Resolve(taskId, result));
      InvBasics(Snapshot(), "", []);
      var t := Trim(taskId);
      if |t| == 0 || t in terminal.entries {
        return false;
      }
      if t in pending {
        log := log + [M.Accepted(t)];
        var promise := pending[t].promise;
        preWaitErrors := Remove(preWaitErrors, t);
        CloseWait(t);
        log := log + [M.Settled(promise, M.Fulfilled(result))];
        return true;
      }
      if t in buffered.entries {
        return false;
      }
      BufferResult(t, result);
      accepted := true;
    }

    /** Keeps a result that nobody waits for yet. */
    method BufferResult(t: string, result: M.TaskResult)
      requires t != "" && "" !in buffered.entries
      modifies this
      ensures var s := old(Snapshot());
        var next := s.(preWaitErrors := Remove(s.preWaitErrors, t));
        Snapshot() == M.ClearAssociation(M.Buffer(next, t, result), t, None)
    {
      hide M.ClearAssociation, M.LogEvictions, Remove, KeepNewest, Older;
      ghost var all := Put(buffered, t, result);
      buffered := Put(buffered, t, result);
      preWaitErrors := Remove(preWaitErrors, t);
      ghost var before := Snapshot();
      ClearAssociation(t, None);
      buffered := EvictOldest(buffered, limits.maxBuffered);
      log := M.LogEvictions(log + [M.Accepted(t)], Older(all.keys, limits.maxBuffered));
      ClearCommutes(before, t, None, buffered, log);
    }

    method RejectAllForConnection(connectionId: string) returns (rejected: nat)
      requires Inv(Snapshot())
      modifies this
      ensures (Snapshot(), M.Rejected(rejected)) == M.Step(old(Snapshot()), M.RejectAll(connectionId))
      ensures var s, c := old(Snapshot()), Trim(connectionId);
        var detached := s.(tasksByConnection := s.tasksByConnection - {c});
        E.LoseInTurn(detached, Snapshot(), E.Listed(s.tasksByConnection, c), c)
      ensures Inv(Snapshot())
    {
      hide InvDuring, M.RejectTask, M.RejectTasks, Trim, E.LoseInTurn, E.Listed;
      E.DisconnectEffect(Snapshot(), connectionId);
      StepKeeps(Snapshot(), M.RejectAll(connectionId));
      var c := Trim(connectionId);
      if |c| == 0 || c !in tasksByConnection || |tasksByConnection[c]| == 0 {
        return 0;
      }
      var taskIds := tasksByConnection[c];
      DetachKeeps(Snapshot(), c);
      tasksByConnection := tasksByConnection - {c};
      ghost var target := M.RejectTasks(Snapshot(), taskIds, c);
      rejected := 0;
      for i := 0 to |taskIds|
        invariant InvDuring(Snapshot(), c, taskIds[i..])
        invariant target ==
          (M.RejectTasks(Snapshot(), taskIds[i..], c).0, M.RejectTasks(Snapshot(), taskIds[i..], c).1 + rejected)
      {
        assert taskIds[i..][0] == taskIds[i] && taskIds[i..][1..] == taskIds[i + 1..];
        RejectRound(Snapshot(), taskIds, i, c);
        RejectTaskKeeps(Snapshot(), c, taskIds[i..]);
        var hit := RejectOne(taskIds[i], c, taskIds[i..]);
        if hit {
          rejected := rejected + 1;
        }
      }
      RejectRound(Snapshot(), taskIds, |taskIds|, c);
    }

    /** The body of the disconnect loop for one task. */
    method RejectOne(t: string, c: string, ghost rest: seq<string>) returns (hit: bool)
      requires InvDuring(Snapshot(), c, rest) && rest != [] && rest[0] == t && c != ""
      modifies this
      ensures Snapshot() == M.RejectTask(old(Snapshot()), t, c)
      ensures hit == (t in old(pending))
    {
      hide TimersMatch, PromisesMatch, HistoryMatches, Inverse, Separate, M.ClearAssociation, M.Mark, M.Close, Remove,
        Put;
      InvBasics(Snapshot(), c, rest);
      hit := t in pending;
      if hit {
        var promise := pending[t].promise;
        preWaitErrors := Remove(preWaitErrors, t);
        CloseWait(t);
        log := log + [M.Settled(promise, M.Disconnected(c))];
      } else if t in buffered.entries {
        ClearAssociation(t, None);
      } else {
        KeepError(t, c);
        ClearAssociation(t, None);
        MarkTerminal(t);
      }
    }

    /** Keeps the disconnect of `c` for a later wait on `t`. */
    method KeepError(t: string, c: string)
      requires t != "" && "" !in preWaitErrors.entries
      modifies this`preWaitErrors
      ensures preWaitErrors == KeepNewest(Put(Remove(old(preWaitErrors), t), t, c), limits.maxTerminal)
    {
      hide Put, Remove, KeepNewest;
      MoveToEndLaw(preWaitErrors, t, c);
      preWaitErrors := Remove(preWaitErrors, t);
      preWaitErrors := Put(preWaitErrors, t, c);
      preWaitErrors := EvictOldest(preWaitErrors, limits.maxTerminal);
    }

    /** The callback of an armed timer. */
    method OnTimeout(timer: nat)
      requires Inv(Snapshot()) && timer in timers
      modifies this
      ensures Snapshot() == M.Step(old(Snapshot()), M.TimerFires(timer)).0
      ensures var t := old(timers[timer].task);
        t in old(pending) && E.Ends(old(Snapshot()), Snapshot(), t, old(log), M.TimedOut)
      ensures Inv(Snapshot())
    {
      hide InvDuring, M.ClearAssociation, M.Mark, E.Ends;
      E.TimerEffect(Snapshot(), timer);
      StepKeeps(Snapshot(), M.TimerFires(timer));
      InvBasics(Snapshot(), "", []);
      var t := timers[timer].task;
      timers := timers - {timer};
      if t !in pending {
        return;
      }
      var entry := pending[t];
      pending := pending - {t};
      ClearAssociation(t, entry.connection);
      MarkTerminal(t);
      log := log + [M.Settled(entry.promise, M.TimedOut)];
    }

    /** Clears the timer of the pending wait of `t`, removes it and marks `t` terminal. */
    method CloseWait(t: string)
      requires t in pending && t != "" && "" !in terminal.entries
      modifies this
      ensures Snapshot() == M.Close(old(Snapshot()), t)
    {
      hide M.ClearAssociation, M.Mark;
      var entry := pending[t];
      timers := timers - {entry.timer};
      pending := pending - {t};
      ClearAssociation(t, entry.connection);
      MarkTerminal(t);
    }

    method MarkTerminal(t: string)
      requires t != "" && "" !in terminal.entries
      modifies this`terminal, this`log
      ensures Snapshot() == M.Mark(old(Snapshot()), t)
    {
      hide Put, Remove;
      MoveToEndLaw(terminal, t, true);
      terminal := Remove(terminal, t);
      terminal := Put(terminal, t, true);
      ghost var all := terminal;
      terminal := EvictOldest(terminal, limits.maxTerminal);
      log := M.LogEvictions(log + [M.Marked(t)], Older(all.keys, limits.maxTerminal));
    }

    method ClearAssociation(t: string, fallbackConnectionId: Option<string>)
      modifies this`connectionByTask, this`tasksByConnection
      ensures Snapshot() == M.ClearAssociation(old(Snapshot()), t, fallbackConnectionId)
    {
      var connectionId := if t in connectionByTask.entries then Some(connectionByTask.entries[t])
        else fallbackConnectionId;
      connectionByTask := Remove(connectionByTask, t);
      if connectionId.Some? && connectionId.value != "" {
        RemoveTaskFromConnectionIndex(t, connectionId.value);
      }
    }

    method SetAssociation(t: string, c: string)
      requires t != "" && "" !in connectionByTask.entries
      requires limits.maxAssociations >= 1 && |connectionByTask.keys| <= limits.maxAssociations
      modifies this`connectionByTask, this`tasksByConnection, this`preWaitErrors
      ensures Snapshot() == M.SetAssociation(old(Snapshot()), t, c)
    {
      hide Put, Remove, M.DropFromIndex;
      MoveToEndLaw(connectionByTask, t, c);
      RemoveLaw(connectionByTask, t);
      var prev := Lookup(connectionByTask, t);
      if prev.Some? && prev.value != "" && prev.value != c {
        RemoveTaskFromConnectionIndex(t, prev.value);
      }
      connectionByTask := Remove(connectionByTask, t);
      connectionByTask := Put(connectionByTask, t, c);
      var tasks := if c in tasksByConnection then tasksByConnection[c] else [];
      tasksByConnection := tasksByConnection[c := if t in tasks then tasks else tasks + [t]];
      assert Snapshot() == M.Associated(old(Snapshot()), t, c);
      EvictAssociations();
    }

    method EvictAssociations()
      requires "" !in connectionByTask.entries
      requires limits.maxAssociations >= 1 && |connectionByTask.keys| <= limits.maxAssociations + 1
      modifies this`connectionByTask, this`tasksByConnection, this`preWaitErrors
      ensures Snapshot() ==
        if |old(connectionByTask).keys| > limits.maxAssociations then M.DropOldestAssociation(old(Snapshot()))
          else old(Snapshot())
    {
      hide Remove, M.DropFromIndex;
      ghost var associated := Snapshot();
      while |connectionByTask.keys| > limits.maxAssociations
        invariant "" !in connectionByTask.entries
        invariant |connectionByTask.keys| <= limits.maxAssociations + 1
        invariant Snapshot() == if |associated.connectionByTask.keys| > limits.maxAssociations &&
          |connectionByTask.keys| <= limits.maxAssociations
                                then M.DropOldestAssociation(associated) else associated
        decreases |connectionByTask.keys|
      {
        var oldest := connectionByTask.keys[0];
        if oldest == "" {
          break;
        }
        var oldConnection := connectionByTask.entries[oldest];
        RemoveLaw(connectionByTask, oldest);
        connectionByTask := Remove(connectionByTask, oldest);
        preWaitErrors := Remove(preWaitErrors, oldest);
        if oldConnection != "" {
          RemoveTaskFromConnectionIndex(oldest, oldConnection);
        }
      }
    }

    method RemoveTaskFromConnectionIndex(t: string, c: string)
      modifies this`tasksByConnection
      ensures tasksByConnection == M.DropFromIndex(old(tasksByConnection), t, c)
    {
      if c !in tasksByConnection {
        return;
      }
      var tasks := Without(tasksByConnection[c], t);
      tasksByConnection := tasksByConnection[c := tasks];
      if |tasks| == 0 {
        tasksByConnection := tasksByConnection - {c};
      }
    }
  }
}
