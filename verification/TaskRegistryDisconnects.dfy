/** What becomes of the error of a connection that died before anyone waited for its tasks. */
module TaskRegistryDisconnects {
  import opened InsertionOrder
  import opened TaskRegistryGuarantees
  import opened TaskRegistryInvariant
  import opened TaskRegistryModel
  import opened TaskRegistryRuns
  import opened Text
  import opened Wrappers

  // ---------- Within one disconnect ----------

  /** Nobody waits for `t` and its result is not here yet. */
  predicate Unheard(s: State, t: string) {
    t !in s.pending && t !in s.buffered.entries
  }

  function UnheardIn(s: State, tasks: seq<string>): nat
    decreases |tasks|
  {
    if tasks == [] then 0 else (if Unheard(s, tasks[0]) then 1 else 0) + UnheardIn(s, tasks[1..])
  }

  lemma {:induction false} UnheardSame(s: State, next: State, u: string, tasks: seq<string>)
    requires u !in tasks && next.pending == s.pending - {u} && next.buffered == s.buffered
    ensures UnheardIn(next, tasks) == UnheardIn(s, tasks)
    decreases |tasks|
  {
    if tasks != [] {
      assert tasks[0] in tasks;
      UnheardSame(s, next, u, tasks[1..]);
    }
  }

  /** Rejecting another task pushes one more error behind that of `t`, if nobody heard of it. */
  lemma ErrorAfterOther(s: State, c: string, rest: seq<string>, t: string)
    requires InvDuring(s, c, rest) && c != "" && rest != [] && t != rest[0]
    ensures var u, r := rest[0], RejectTask(s, rest[0], c);
      var behind := After(s.preWaitErrors.keys, t);
      var follow := if Unheard(s, u) then Without(behind, u) + [u] else behind;
      && r.limits == s.limits && |s.preWaitErrors.keys| <= s.limits.maxTerminal
      && (t !in s.preWaitErrors.entries ==> t !in r.preWaitErrors.entries)
      && (t in s.preWaitErrors.entries && !Unheard(s, u) ==> t in r.preWaitErrors.entries)
      && (t in s.preWaitErrors.entries && Unheard(s, u) ==>
        (t in r.preWaitErrors.entries <==> |follow| < s.limits.maxTerminal))
      && (t in r.preWaitErrors.entries ==>
            After(r.preWaitErrors.keys, t) == follow && r.preWaitErrors.entries[t] == s.preWaitErrors.entries[t])
  {
    hide TimersMatch, PromisesMatch, HistoryMatches, Inverse, Mark, ClearAssociation, Close, Put, Remove, KeepNewest,
      After, Without;
    var u := rest[0];
    if u in s.pending {
      PendingHasNoError(s, u);
      CloseFrame(s, u);
    } else if u in s.buffered.entries {
      ClearFrame(s, u, None);
    } else {
      var kept := KeepNewest(Put(Remove(s.preWaitErrors, u), u, c), s.limits.maxTerminal);
      ClearFrame(s.(preWaitErrors := kept), u, None);
      MarkFrame(ClearAssociation(s.(preWaitErrors := kept), u, None), u);
      if t in s.preWaitErrors.entries {
        AfterMove(s.preWaitErrors, u, c, s.limits.maxTerminal, t);
      } else {
        StrangerStaysOut(s.preWaitErrors, u, c, s.limits.maxTerminal, t);
      }
    }
  }

  lemma StrangerStaysOut<V>(m: OrderedMap<V>, u: string, v: V, n: nat, t: string)
    requires t != u && t !in m.entries
    ensures t !in KeepNewest(Put(Remove(m, u), u, v), n).entries
  {
    RemoveLaw(m, u);
  }

  lemma {:induction false} DroppedStaysOut(s: State, c: string, rest: seq<string>, t: string)
    requires InvDuring(s, c, rest) && c != "" && t !in rest && t !in s.preWaitErrors.entries
    ensures t !in RejectTasks(s, rest, c).0.preWaitErrors.entries
    decreases |rest|
  {
    hide InvDuring, RejectTask, Without, After;
    if rest != [] {
      RejectTaskKeeps(s, c, rest);
      ErrorAfterOther(s, c, rest, t);
      DroppedStaysOut(RejectTask(s, rest[0], c), c, rest[1..], t);
    }
  }

  /** While `rest` is being rejected, the error kept for `t` stays exactly if it has room for the errors to come. */
  lemma {:induction false} KeptErrorStaysExactly(s: State, c: string, rest: seq<string>, t: string)
    requires InvDuring(s, c, rest) && c != "" && t !in rest && t in s.preWaitErrors.entries
    requires forall u :: u in After(s.preWaitErrors.keys, t) ==> u !in rest
    requires |After(s.preWaitErrors.keys, t)| < s.limits.maxTerminal
    ensures var r := RejectTasks(s, rest, c).0;
      && (t in r.preWaitErrors.entries <==>
        |After(s.preWaitErrors.keys, t)| + UnheardIn(s, rest) < s.limits.maxTerminal)
      && (t in r.preWaitErrors.entries ==> r.preWaitErrors.entries[t] == s.preWaitErrors.entries[t])
    decreases |rest|
  {
    hide InvDuring, RejectTask, After, Without, Unheard;
    if rest != [] {
      var u, next := rest[0], RejectTask(s, rest[0], c);
      RejectTaskKeeps(s, c, rest);
      RejectTaskEffect(s, c, rest);
      RestIsDistinct(s, c, rest);
      ErrorAfterOther(s, c, rest, t);
      UnheardSame(s, next, u, rest[1..]);
      if t in next.preWaitErrors.entries {
        KeptErrorStaysExactly(next, c, rest[1..], t);
      } else {
        DroppedStaysOut(next, c, rest[1..], t);
      }
    }
  }

  lemma ErrorJustKept(s: State, t: string, c: string)
    requires Unheard(s, t) && s.limits.maxTerminal >= 1
    ensures var r := RejectTask(s, t, c);
      t in r.preWaitErrors.entries && r.preWaitErrors.entries[t] == c && After(r.preWaitErrors.keys, t) == []
  {
    hide Mark, ClearAssociation, Put, Remove, KeepNewest, After;
    var kept := KeepNewest(Put(Remove(s.preWaitErrors, t), t, c), s.limits.maxTerminal);
    ClearFrame(s.(preWaitErrors := kept), t, None);
    MarkFrame(ClearAssociation(s.(preWaitErrors := kept), t, None), t);
    NothingAfterMoved(s.preWaitErrors, t, c, s.limits.maxTerminal);
  }

  lemma {:induction false} UnheardDisconnectIsKept(s: State, c: string, rest: seq<string>, t: string)
    requires InvDuring(s, c, rest) && c != "" && t in rest && Unheard(s, t)
    ensures var r := RejectTasks(s, rest, c).0;
      && (t in r.preWaitErrors.entries <==> UnheardIn(s, After(rest, t)) < s.limits.maxTerminal)
      && (t in r.preWaitErrors.entries ==> r.preWaitErrors.entries[t] == c)
    decreases |rest|
  {
    hide InvDuring, RejectTask;
    var next := RejectTask(s, rest[0], c);
    RejectTaskKeeps(s, c, rest);
    RejectTaskEffect(s, c, rest);
    RestIsDistinct(s, c, rest);
    RejectTaskExtends(s, rest[0], c);
    LimitsArePositive(s, c, rest);
    if t == rest[0] {
      ErrorJustKept(s, t, c);
      UnheardSame(s, next, t, rest[1..]);
      KeptErrorStaysExactly(next, c, rest[1..], t);
    } else {
      UnheardDisconnectIsKept(next, c, rest[1..], t);
      AfterIsInside(rest[1..], t);
      UnheardSame(s, next, rest[0], After(rest[1..], t));
    }
  }

  lemma LimitsArePositive(s: State, c: string, rest: seq<string>)
    requires InvDuring(s, c, rest)
    ensures s.limits.maxTerminal >= 1
  {
  }

  lemma {:induction false} AfterIsInside(s: seq<string>, t: string)
    ensures forall u :: u in After(s, t) ==> u in s
  {
    if s != [] && s[0] != t {
      AfterIsInside(s[1..], t);
    }
  }

  /** An associated task that nobody waits for and whose result is not here yet: the wait that follows the disconnect
      is refused with it exactly when fewer such tasks than the registry keeps errors come after it. */
  lemma DisconnectReachesNextWait(s: State, connectionId: string, task: string, ms: Option<real>,
                                  connection: Option<string>)
    requires Inv(s) && Unheard(s, Trim(task))
    requires Trim(task) in s.connectionByTask.entries && s.connectionByTask.entries[Trim(task)] == Trim(connectionId)
    ensures Trim(connectionId) in s.tasksByConnection
    ensures var reply := Step(Step(s, RejectAll(connectionId)).0, Wait(task, ms, connection)).1;
      var behind := After(s.tasksByConnection[Trim(connectionId)], Trim(task));
      reply == Waited(Refused(ConnectionLost(Trim(connectionId)))) <==> UnheardIn(s, behind) < s.limits.maxTerminal
  {
    hide TimersMatch, PromisesMatch, HistoryMatches, Separate, Inverse, Trim, RejectTasks, Mark, ClearAssociation,
      Open, After,
      UnheardIn;
    var t, c := Trim(task), Trim(connectionId);
    AssociatedAreListed(s, c);
    DetachKeeps(s, c);
    var detached := s.(tasksByConnection := s.tasksByConnection - {c});
    UnheardDisconnectIsKept(detached, c, s.tasksByConnection[c], t);
    DetachedHearsTheSame(s, detached, After(s.tasksByConnection[c], t));
    var explicit := if connection.Some? then Some(Trim(connection.value)) else None;
    WaitIsRefusedByError(RejectConnection(s, c).0, t, ms, explicit);
    TaskIsNamed(s, t);
  }

  lemma TaskIsNamed(s: State, t: string)
    requires Inv(s) && t in s.connectionByTask.entries
    ensures t != ""
  {
  }

  lemma {:induction false} DetachedHearsTheSame(s: State, detached: State, tasks: seq<string>)
    requires detached.pending == s.pending && detached.buffered == s.buffered
    ensures UnheardIn(detached, tasks) == UnheardIn(s, tasks)
    decreases |tasks|
  {
    if tasks != [] {
      DetachedHearsTheSame(s, detached, tasks[1..]);
    }
  }

  /** A wait is refused with a disconnect exactly when its error is kept. */
  lemma WaitIsRefusedByError(s: State, t: string, ms: Option<real>, explicit: Option<string>)
    requires t != ""
    ensures WaitTask(s, t, ms, explicit).1.Refused? && WaitTask(s, t, ms, explicit).1.error.ConnectionLost? <==>
      t in s.preWaitErrors.entries
    ensures t in s.preWaitErrors.entries ==>
      WaitTask(s, t, ms, explicit).1 == Refused(ConnectionLost(s.preWaitErrors.entries[t]))
  {
    hide Mark, ClearAssociation, Open, Remove;
  }

  // ---------- Over whole runs ----------

  /** The error of `t` is kept, and what could push it out of `preWaitErrors` would push `t` out of `terminal`. */
  predicate Shielded(errors: OrderedMap<string>, terminal: OrderedMap<bool>, t: string, c: string) {
    && t in errors.entries && errors.entries[t] == c && t in terminal.entries
    && forall u :: u in After(errors.keys, t) ==> u in After(terminal.keys, t)
  }

  predicate ErrorKept(s: State, t: string, c: string) {
    Shielded(s.preWaitErrors, s.terminal, t, c)
  }

  /** The error of `t` is still kept, or `t` was evicted since the history was `past`. */
  ghost predicate KeptOrEvicted(past: seq<Event>, s: State, t: string, c: string) {
    ErrorKept(s, t, c) || EvictedSince(past, s.log, t)
  }

  lemma ForgettingAnother(errors: OrderedMap<string>, terminal: OrderedMap<bool>, t: string, c: string, u: string)
    requires Shielded(errors, terminal, t, c) && u != t
    ensures Shielded(Remove(errors, u), terminal, t, c)
  {
    hide After;
    KeyIsEntry(errors, t);
    AfterWithout(errors.keys, u, t);
    RemoveLaw(errors, u);
  }

  lemma MarkingAnother(errors: OrderedMap<string>, terminal: OrderedMap<bool>, t: string, c: string, u: string, n: nat)
    requires Shielded(errors, terminal, t, c) && u != t && n >= 1
    ensures var marked := KeepNewest(Put(Remove(terminal, u), u, true), n);
      t in marked.entries ==> Shielded(errors, marked, t, c)
  {
    hide After, Put, Remove, KeepNewest;
    AfterMove(terminal, u, true, n, t);
  }

  lemma KeepingAnother(errors: OrderedMap<string>, terminal: OrderedMap<bool>, t: string, c: string, u: string,
                       d: string, n: nat)
    requires Shielded(errors, terminal, t, c) && u != t && n >= 1
    ensures var marked,
      kept := KeepNewest(Put(Remove(terminal, u), u, true), n), KeepNewest(Put(Remove(errors, u), u, d), n);
      t in marked.entries ==> Shielded(kept, marked, t, c)
  {
    hide After, Put, Remove, KeepNewest, Without, Distinct;
    AfterMove(terminal, u, true, n, t);
    AfterMove(errors, u, d, n, t);
    var behind := Without(After(errors.keys, t), u) + [u];
    var behindMarked := Without(After(terminal.keys, t), u) + [u];
    MovedTailIsDistinct(errors.keys, t, u);
    NoLonger(behind, behindMarked);
  }

  lemma MovedTailIsDistinct(keys: seq<string>, t: string, u: string)
    requires Distinct(keys)
    ensures Distinct(Without(After(keys, t), u) + [u])
  {
    TailIsDistinct(keys, t);
  }

  lemma {:induction false} TailIsDistinct(keys: seq<string>, t: string)
    requires Distinct(keys)
    ensures Distinct(After(keys, t))
  {
    if keys != [] && keys[0] != t {
      assert Distinct(keys[1..]);
      TailIsDistinct(keys[1..], t);
    }
  }

  lemma EvictedOrStays(s: State, u: string, t: string)
    requires t in s.terminal.entries && u != t
    ensures t in Mark(s, u).terminal.entries || EvictedSince(s.log, Mark(s, u).log, t)
  {
    hide LogEvictions, Newest, Older, EvictedSince;
    var all, n := Put(Remove(s.terminal, u), u, true), s.limits.maxTerminal;
    KeyIsEntry(all, t);
    Partition(all.keys, n);
    KeyIsEntry(KeepNewest(all, n), t);
    EvictionsExtend(s.log + [Marked(u)], Older(all.keys, n));
    EvictedEarlier(s.log, s.log + [Marked(u)], Mark(s, u).log, t);
  }

  lemma EvictedEarlier(past: seq<Event>, most: seq<Event>, log: seq<Event>, t: string)
    requires past <= most <= log
    ensures EvictedSince(past, most, t) || EvictedSince(most, log, t) ==> EvictedSince(past, log, t)
  {
  }

  lemma MarkKeepsError(s: State, u: string, t: string, c: string)
    requires ErrorKept(s, t, c) && u != t && s.limits.maxTerminal >= 1
    ensures KeptOrEvicted(s.log, Mark(s, u), t, c)
  {
    hide EvictedSince, Shielded, LogEvictions, KeepNewest, Put, Remove;
    ErrorMeansTerminal(s, t, c);
    EvictedOrStays(s, u, t);
    MarkFrame(s, u);
    MarkingAnother(s.preWaitErrors, s.terminal, t, c, u, s.limits.maxTerminal);
  }

  lemma ErrorMeansTerminal(s: State, t: string, c: string)
    requires ErrorKept(s, t, c)
    ensures t in s.terminal.entries && t in s.preWaitErrors.entries && s.preWaitErrors.entries[t] == c
  {
  }

  /** Later is no worse: what was kept or evicted by `most` and then kept or evicted again. */
  lemma KeptThrough(past: seq<Event>, most: seq<Event>, s: State, t: string, c: string)
    requires past <= most <= s.log && KeptOrEvicted(most, s, t, c)
    ensures KeptOrEvicted(past, s, t, c)
  {
    hide ErrorKept;
    EvictedEarlier(past, most, s.log, t);
  }

  lemma CloseKeepsError(s: State, u: string, t: string, c: string)
    requires ErrorKept(s, t, c) && u in s.pending && u != t && s.limits.maxTerminal >= 1
    ensures KeptOrEvicted(s.log, Close(s, u), t, c)
  {
    hide Shielded, EvictedSince, Mark, ClearAssociation;
    var entry := s.pending[u];
    var open := s.(pending := s.pending - {u}, timers := s.timers - {entry.timer});
    ClearFrame(open, u, entry.connection);
    MarkKeepsError(ClearAssociation(open, u, entry.connection), u, t, c);
  }

  lemma SettleKeepsError(past: seq<Event>, s: State, promise: nat, how: Settlement, t: string, c: string)
    requires past <= s.log && KeptOrEvicted(past, s, t, c)
    ensures KeptOrEvicted(past, Settle(s, promise, how), t, c)
  {
    hide Shielded;
    EvictedEarlier(past, s.log, Settle(s, promise, how).log, t);
  }

  /** A new association evicts at most one other task's error: never that of a terminal task. */
  lemma AssociatingKeepsError(s: State, u: string, d: string, t: string, c: string)
    requires ErrorKept(s, t, c) && u != t && t !in s.connectionByTask.entries
    ensures ErrorKept(SetAssociation(s, u, d), t, c)
  {
    hide Shielded, AddToIndex, DropFromIndex, Remove, Put;
    var next := Associated(s, u, d);
    MoveToEndLaw(s.connectionByTask, u, d);
    if |next.connectionByTask.keys| > s.limits.maxAssociations {
      var oldest := next.connectionByTask.keys[0];
      assert oldest in next.connectionByTask.keys;
      ForgettingAnother(s.preWaitErrors, s.terminal, t, c, oldest);
    }
  }

  lemma TerminalIsUnassociated(s: State, c: string, rest: seq<string>, t: string)
    requires InvDuring(s, c, rest) && t in s.terminal.entries
    ensures t !in s.connectionByTask.entries && t !in s.pending && t !in s.buffered.entries && t !in rest
    ensures s.limits.maxTerminal >= 1
  {
    hide TimersMatch, PromisesMatch, HistoryMatches;
    assert forall u :: u in rest ==> u in s.connectionByTask.entries;
  }

  lemma WaitKeepsError(s: State, u: string, ms: Option<real>, d: Option<string>, t: string, c: string)
    requires Inv(s) && ErrorKept(s, t, c) && u != t
    ensures KeptOrEvicted(s.log, WaitTask(s, u, ms, d).0, t, c)
  {
    hide InvDuring, Shielded, EvictedSince, Mark, ClearAssociation, SetAssociation, Remove;
    ErrorMeansTerminal(s, t, c);
    TerminalIsUnassociated(s, "", [], t);
    ForgettingAnother(s.preWaitErrors, s.terminal, t, c, u);
    if u == "" {
    } else if u in s.preWaitErrors.entries {
      var next := s.(preWaitErrors := Remove(s.preWaitErrors, u));
      ClearFrame(next, u, None);
      MarkKeepsError(ClearAssociation(next, u, None), u, t, c);
    } else if u in s.terminal.entries {
    } else if u in s.buffered.entries {
      var next := s.(buffered := Remove(s.buffered, u), preWaitErrors := Remove(s.preWaitErrors, u));
      ClearFrame(next, u, None);
      MarkKeepsError(ClearAssociation(next, u, None), u, t, c);
    } else if u !in s.pending {
      OpenKeepsError(s, u, AtLeastOne(ms, s.limits.defaultTimeoutMs), ConnectionFor(s, u, d), t, c);
    }
  }

  lemma OpenKeepsError(s: State, u: string, delayMs: int, d: Option<string>, t: string, c: string)
    requires ErrorKept(s, t, c) && u != t && t !in s.connectionByTask.entries
    ensures ErrorKept(Open(s, u, delayMs, d), t, c)
  {
    hide Shielded, SetAssociation;
    if d.Some? {
      var entry := PendingWait(|s.waiters|, s.timersIssued, d);
      var next := s.(pending := s.pending[u := entry], timers := s.timers[s.timersIssued := Timer(u, delayMs)],
                     timersIssued := s.timersIssued + 1, waiters := s.waiters + [u]);
      AssociatingKeepsError(next, u, d.value, t, c);
    }
  }

  lemma ResolveKeepsError(s: State, u: string, result: TaskResult, t: string, c: string)
    requires Inv(s) && ErrorKept(s, t, c)
    ensures KeptOrEvicted(s.log, ResolveTask(s, u, result).0, t, c)
  {
    hide InvDuring, Shielded, EvictedSince, Close, ClearAssociation, Remove, KeepNewest, LogEvictions;
    ErrorMeansTerminal(s, t, c);
    TerminalIsUnassociated(s, "", [], t);
    if u == "" || u in s.terminal.entries {
    } else {
      ForgettingAnother(s.preWaitErrors, s.terminal, t, c, u);
      if u in s.pending {
        var accepted := s.(preWaitErrors := Remove(s.preWaitErrors, u), log := s.log + [Accepted(u)]);
        CloseKeepsError(accepted, u, t, c);
        CloseExtends(accepted, u);
        KeptThrough(s.log, accepted.log, Close(accepted, u), t, c);
        SettleKeepsError(s.log, Close(accepted, u), s.pending[u].promise, Fulfilled(result), t, c);
      } else {
        ClearFrame(Buffer(s.(preWaitErrors := Remove(s.preWaitErrors, u)), u, result), u, None);
      }
    }
  }

  lemma RejectTaskKeepsError(s: State, d: string, rest: seq<string>, t: string, c: string)
    requires InvDuring(s, d, rest) && d != "" && rest != [] && ErrorKept(s, t, c)
    ensures KeptOrEvicted(s.log, RejectTask(s, rest[0], d), t, c)
  {
    hide InvDuring, Shielded, EvictedSince, Close, Mark, ClearAssociation, Remove, KeepNewest, Put;
    var u := rest[0];
    ErrorMeansTerminal(s, t, c);
    TerminalIsUnassociated(s, d, rest, t);
    ForgettingAnother(s.preWaitErrors, s.terminal, t, c, u);
    if u in s.pending {
      var next := s.(preWaitErrors := Remove(s.preWaitErrors, u));
      CloseKeepsError(next, u, t, c);
      CloseExtends(next, u);
      SettleKeepsError(s.log, Close(next, u), s.pending[u].promise, Disconnected(d), t, c);
    } else if u in s.buffered.entries {
      ClearFrame(s, u, None);
    } else {
      NewErrorKeepsError(s, u, d, t, c);
    }
  }

  lemma NewErrorKeepsError(s: State, u: string, d: string, t: string, c: string)
    requires ErrorKept(s, t, c) && u != t && s.limits.maxTerminal >= 1
    ensures var kept := KeepNewest(Put(Remove(s.preWaitErrors, u), u, d), s.limits.maxTerminal);
      KeptOrEvicted(s.log, Mark(ClearAssociation(s.(preWaitErrors := kept), u, None), u), t, c)
  {
    hide Shielded, EvictedSince, ClearAssociation, Remove, KeepNewest, Put, LogEvictions;
    var kept := KeepNewest(Put(Remove(s.preWaitErrors, u), u, d), s.limits.maxTerminal);
    var next := ClearAssociation(s.(preWaitErrors := kept), u, None);
    ClearFrame(s.(preWaitErrors := kept), u, None);
    ErrorMeansTerminal(s, t, c);
    EvictedOrStays(next, u, t);
    MarkFrame(next, u);
    KeepingAnother(s.preWaitErrors, s.terminal, t, c, u, d, s.limits.maxTerminal);
  }

  lemma {:induction false} RejectTasksKeepError(s: State, d: string, rest: seq<string>, t: string, c: string)
    requires InvDuring(s, d, rest) && d != "" && ErrorKept(s, t, c)
    ensures KeptOrEvicted(s.log, RejectTasks(s, rest, d).0, t, c)
    decreases |rest|
  {
    hide InvDuring, ErrorKept, RejectTask, EvictedSince;
    if rest != [] {
      var next, r := RejectTask(s, rest[0], d), RejectTasks(s, rest, d).0;
      RejectTaskKeeps(s, d, rest);
      RejectTaskKeepsError(s, d, rest, t, c);
      RejectTaskExtends(s, rest[0], d);
      RejectTasksExtends(next, rest[1..], d);
      if ErrorKept(next, t, c) {
        RejectTasksKeepError(next, d, rest[1..], t, c);
      }
      EvictedEarlier(s.log, next.log, r.log, t);
    }
  }

  /** No operation but a wait for its task loses or changes a kept error, unless the task is evicted. */
  lemma StepKeepsError(s: State, op: Op, t: string, c: string)
    requires Inv(s) && ErrorKept(s, t, c) && !IsWaitFor(op, t)
    ensures KeptOrEvicted(s.log, Step(s, op).0, t, c)
  {
    hide InvDuring, Shielded, EvictedSince, Trim, WaitTask, ResolveTask, SetAssociation, RejectTasks, Close;
    ErrorMeansTerminal(s, t, c);
    TerminalIsUnassociated(s, "", [], t);
    match op
    case Associate(u, d) =>
      if Trim(u) != t {
        AssociatingKeepsError(s, Trim(u), Trim(d), t, c);
      }
    case Wait(u, ms, d) => WaitKeepsError(s, Trim(u), ms, if d.Some? then Some(Trim(d.value)) else None, t, c);
    case Resolve(u, result) => ResolveKeepsError(s, Trim(u), result, t, c);
    case RejectAll(raw) =>
      var d := Trim(raw);
      if d in s.tasksByConnection {
        DetachKeeps(s, d);
        if d != "" {
          RejectTasksKeepError(s.(tasksByConnection := s.tasksByConnection - {d}), d, s.tasksByConnection[d], t, c);
        }
      }
    case TimerFires(timer) =>
      if timer in s.timers {
        FireTimerKeeps(s, timer);
        var u := s.timers[timer].task;
        CloseKeepsError(s, u, t, c);
        CloseExtends(s, u);
        SettleKeepsError(s.log, Close(s, u), s.pending[u].promise, TimedOut, t, c);
      }
  }

  lemma {:induction false} RunKeepsError(s: State, ops: seq<Op>, t: string, c: string)
    requires Inv(s) && ErrorKept(s, t, c) && forall op :: op in ops ==> !IsWaitFor(op, t)
    ensures KeptOrEvicted(s.log, Run(s, ops), t, c)
    decreases |ops|
  {
    hide Step, Inv, ErrorKept, EvictedSince, IsWaitFor;
    if ops != [] {
      var next := Step(s, ops[0]).0;
      StepKeeps(s, ops[0]);
      StepExtends(s, ops[0]);
      assert ops[0] in ops;
      StepKeepsError(s, ops[0], t, c);
      RunExtends(next, ops[1..]);
      if ErrorKept(next, t, c) {
        RunKeepsError(next, ops[1..], t, c);
      }
      EvictedEarlier(s.log, next.log, Run(next, ops[1..]).log, t);
    }
  }

  /** A kept error is what the next wait for its task is refused with, over any run in between, unless the
      task was evicted from the terminal memory. */
  lemma KeptErrorReachesNextWait(s: State, task: string, c: string, ops: seq<Op>, ms: Option<real>,
                                 connection: Option<string>)
    requires Inv(s) && ErrorKept(s, Trim(task), c) && forall op :: op in ops ==> !IsWaitFor(op, Trim(task))
    ensures var later := Run(s, ops);
      || Step(later, Wait(task, ms, connection)).1 == Waited(Refused(ConnectionLost(c)))
      || EvictedSince(s.log, later.log, Trim(task))
  {
    hide InvDuring, Shielded, EvictedSince, Trim, WaitTask, Run, IsWaitFor;
    var t, later := Trim(task), Run(s, ops);
    RunKeepsError(s, ops, t, c);
    RunKeeps(s, ops);
    if ErrorKept(later, t, c) {
      ErrorMeansTerminal(later, t, c);
      TerminalIsNamed(later, t);
      WaitIsRefusedByError(later, t, ms, if connection.Some? then Some(Trim(connection.value)) else None);
    }
  }

  lemma TerminalIsNamed(s: State, t: string)
    requires Inv(s) && t in s.terminal.entries
    ensures t != ""
  {
  }

  /** Right after an unheard task was rejected, its error is kept in that sense. */
  lemma RejectedTaskIsShielded(s: State, t: string, c: string)
    requires Unheard(s, t) && s.limits.maxTerminal >= 1
    ensures ErrorKept(RejectTask(s, t, c), t, c)
  {
    hide Mark, ClearAssociation, Put, Remove, KeepNewest, After;
    var next := s.(preWaitErrors := KeepNewest(Put(Remove(s.preWaitErrors, t), t, c), s.limits.maxTerminal));
    ErrorJustKept(s, t, c);
    ClearFrame(next, t, None);
    CloseMarksTerminal(ClearAssociation(next, t, None), t);
  }

  lemma CloseMarksTerminal(s: State, t: string)
    requires s.limits.maxTerminal >= 1
    ensures t in Mark(s, t).terminal.entries
  {
    NothingAfterMoved(s.terminal, t, true, s.limits.maxTerminal);
  }

  lemma {:induction false} RejectionShields(s: State, c: string, rest: seq<string>, t: string)
    requires InvDuring(s, c, rest) && c != "" && t in rest && Unheard(s, t)
    ensures KeptOrEvicted(s.log, RejectTasks(s, rest, c).0, t, c)
    decreases |rest|
  {
    hide InvDuring, RejectTask, ErrorKept, EvictedSince;
    var next, r := RejectTask(s, rest[0], c), RejectTasks(s, rest, c).0;
    RejectTaskKeeps(s, c, rest);
    RejectTaskEffect(s, c, rest);
    RestIsDistinct(s, c, rest);
    RejectTaskExtends(s, rest[0], c);
    RejectTasksExtends(next, rest[1..], c);
    LimitsArePositive(s, c, rest);
    if t == rest[0] {
      RejectedTaskIsShielded(s, t, c);
      RejectTasksKeepError(next, c, rest[1..], t, c);
    } else {
      RejectionShields(next, c, rest[1..], t);
    }
    EvictedEarlier(s.log, next.log, r.log, t);
  }

  /** Over any run after the disconnect, the next wait for a task nobody had heard of is refused with that
      disconnect, unless the task was evicted from the terminal memory meanwhile. */
  lemma DisconnectReachesLaterWait(s: State, connectionId: string, task: string, ops: seq<Op>, ms: Option<real>,
                                   connection: Option<string>)
    requires Inv(s) && Unheard(s, Trim(task)) && forall op :: op in ops ==> !IsWaitFor(op, Trim(task))
    requires Trim(task) in s.connectionByTask.entries && s.connectionByTask.entries[Trim(task)] == Trim(connectionId)
    ensures var later := Run(Step(s, RejectAll(connectionId)).0, ops);
      || Step(later, Wait(task, ms, connection)).1 == Waited(Refused(ConnectionLost(Trim(connectionId))))
      || EvictedSince(s.log, later.log, Trim(task))
  {
    hide InvDuring, ErrorKept, EvictedSince, Trim, RejectTasks, WaitTask, Run, Unheard, IsWaitFor;
    var t, c := Trim(task), Trim(connectionId);
    var rejected := Step(s, RejectAll(connectionId)).0;
    AssociatedAreListed(s, c);
    DetachKeeps(s, c);
    StepKeeps(s, RejectAll(connectionId));
    StepExtends(s, RejectAll(connectionId));
    RunExtends(rejected, ops);
    var detached := s.(tasksByConnection := s.tasksByConnection - {c});
    assert Unheard(detached, t) by {
      SameHearing(s, detached, t);
    }
    RejectionShields(detached, c, s.tasksByConnection[c], t);
    if ErrorKept(rejected, t, c) {
      KeptErrorReachesNextWait(rejected, task, c, ops, ms, connection);
    }
    EvictedEarlier(s.log, rejected.log, Run(rejected, ops).log, t);
  }

  lemma SameHearing(s: State, detached: State, t: string)
    requires Unheard(s, t) && detached.pending == s.pending && detached.buffered == s.buffered
    ensures Unheard(detached, t)
  {
  }
}
