/** What each operation of the task result registry does, said of the maps
    before and after it. */
module TaskRegistryEffects {
  import opened InsertionOrder
  import opened TaskRegistryInvariant
  import opened TaskRegistryModel
  import opened TaskRegistryRuns
  import opened Text
  import opened Wrappers

  // ---------- Bounded memories ----------

  /** The oldest key, when `t` becomes the newest of a memory whose other keys already fill it. */
  function PushedOut(keys: seq<string>, t: string, bound: nat): seq<string> {
    var others := Without(keys, t);
    if |others| < bound || others == [] then [] else [others[0]]
  }

  /** `r` is `m` with `t` as its newest key, less the oldest other key when those filled the memory. */
  ghost predicate BecomesNewest<V>(m: OrderedMap<V>, r: OrderedMap<V>, t: string, v: V, bound: nat) {
    && PushedOut(m.keys, t, bound) + r.keys == Without(m.keys, t) + [t]
    && t in r.entries && r.entries[t] == v
    && forall u :: u in r.entries && u != t ==> u in m.entries && r.entries[u] == m.entries[u]
  }

  lemma MovedIsNewest<V>(m: OrderedMap<V>, t: string, v: V, n: nat)
    requires n >= 1 && |m.keys| <= n
    ensures var all := Put(Remove(m, t), t, v);
      BecomesNewest(m, KeepNewest(all, n), t, v, n) && Older(all.keys, n) == PushedOut(m.keys, t, n)
  {
    hide Distinct, Put, Remove;
    MoveToEndLaw(m, t, v);
    var all := Put(Remove(m, t), t, v);
    NothingAfterMoved(m, t, v, n);
    WindowOfMoved(m.keys, all.keys, t, n);
  }

  lemma WindowOfMoved(keys: seq<string>, all: seq<string>, t: string, n: nat)
    requires n >= 1 && |keys| <= n && all == Without(keys, t) + [t]
    ensures PushedOut(keys, t, n) + Newest(all, n) == all && Older(all, n) == PushedOut(keys, t, n)
  {
    WithoutIsNoLonger(keys, t);
    if |Without(keys, t)| >= n {
      assert all == [all[0]] + all[1..];
    }
  }

  lemma MarkedIsNewest(s: State, t: string)
    requires s.limits.maxTerminal >= 1 && |s.terminal.keys| <= s.limits.maxTerminal
    ensures Marks(s, Mark(s, t), t, s.log, [])
  {
    hide Put, Remove, KeepNewest, Older, BecomesNewest, PushedOut;
    MovedIsNewest(s.terminal, t, true, s.limits.maxTerminal);
    EvictionsLog(s.log + [Marked(t)], s.terminal.keys, t, s.limits.maxTerminal);
  }

  function Evictions(pushed: seq<string>): seq<Event> {
    if pushed == [] then [] else [Evicted(pushed[0])]
  }

  lemma EvictionsLog(log: seq<Event>, keys: seq<string>, t: string, n: nat)
    ensures LogEvictions(log, PushedOut(keys, t, n)) == log + Evictions(PushedOut(keys, t, n))
  {
    var pushed := PushedOut(keys, t, n);
    if pushed != [] {
      assert pushed[1..] == [];
      assert LogEvictions(log + [Evicted(pushed[0])], pushed[1..]) == log + [Evicted(pushed[0])];
    }
  }

  /** `t` became the newest terminal task; the history grew from `past` by that marking, by the
      eviction it forced and by `more`. */
  ghost predicate Marks(s: State, r: State, t: string, past: seq<Event>, more: seq<Event>) {
    && BecomesNewest(s.terminal, r.terminal, t, true, s.limits.maxTerminal)
    && r.log == past + [Marked(t)] + Evictions(PushedOut(s.terminal.keys, t, s.limits.maxTerminal)) + more
  }

  /** `r` is `m` without `t`. */
  ghost predicate Forgets<V>(m: OrderedMap<V>, r: OrderedMap<V>, t: string) {
    r.keys == Without(m.keys, t) && r.entries == m.entries - {t}
  }

  lemma RemovedIsForgotten<V>(m: OrderedMap<V>, t: string)
    ensures Forgets(m, Remove(m, t), t)
  {
  }

  // ---------- Associations ----------

  /** Each connection lists exactly the tasks associated with it. */
  ghost predicate Indexed(byTask: map<string, string>, index: map<string, seq<string>>) {
    forall c, t :: Lists(index, c, t) <==> t in byTask && byTask[t] == c
  }

  /** The tasks of `c` in the index, none when it has no list. */
  function Listed(index: map<string, seq<string>>, c: string): seq<string> {
    if c in index then index[c] else []
  }

  /** How one connection's list changes: `t` leaves it, or joins it last if it is the list of `t`'s new connection. */
  function Relisted(tasks: seq<string>, t: string, isNew: bool, pushed: seq<string>): seq<string> {
    var now := if isNew then (if t in tasks then tasks else tasks + [t]) else Without(tasks, t);
    if pushed == [] then now else Without(now, pushed[0])
  }

  /** The association of `t` to `c` became the newest, the oldest one was dropped, with the error kept for its task,
      if it had to make room, and every other association stayed. */
  ghost predicate Connects(s: State, r: State, t: string, c: string) {
    var pushed := PushedOut(s.connectionByTask.keys, t, s.limits.maxAssociations);
    && BecomesNewest(s.connectionByTask, r.connectionByTask, t, c, s.limits.maxAssociations)
    && Indexed(r.connectionByTask.entries, r.tasksByConnection)
    && (forall d :: Listed(r.tasksByConnection, d) == Relisted(Listed(s.tasksByConnection, d), t, d == c, pushed))
    && if pushed == [] then r.preWaitErrors == s.preWaitErrors
       else Forgets(s.preWaitErrors, r.preWaitErrors, pushed[0])
  }

  /** What `associate` does with trimmed ids: nothing for a blank id or a terminal task; otherwise the association
      becomes the newest, and a pending wait that knew no connection now has this one. */
  ghost predicate Associates(s: State, r: State, t: string, c: string) {
    if t == "" || c == "" || t in s.terminal.entries then r == s
    else
      && Connects(s, r, t, c)
      && r.pending == (if t in s.pending && s.pending[t].connection.None?
                       then s.pending[t := PendingWait(s.pending[t].promise, s.pending[t].timer, Some(c))]
                       else s.pending)
      && r == s.(connectionByTask := r.connectionByTask, tasksByConnection := r.tasksByConnection,
                 preWaitErrors := r.preWaitErrors, pending := r.pending)
  }

  lemma SetAssociationConnects(s: State, t: string, c: string)
    requires Inverse(s.connectionByTask.entries, s.tasksByConnection, "", []) && Bounded(s) && Named(s)
    requires t != "" && c != ""
    ensures var r := SetAssociation(s, t, c);
      && Connects(s, r, t, c)
      && r == s.(connectionByTask := r.connectionByTask, tasksByConnection := r.tasksByConnection,
                 preWaitErrors := r.preWaitErrors)
  {
    hide Inverse, Associated, Remove, Without, Distinct, BecomesNewest, Indexed, Forgets, PushedOut, DropFromIndex,
      Listed;
    AssociatedKeeps(s, t, c);
    var next, r := Associated(s, t, c), SetAssociation(s, t, c);
    SetAssociationKeeps(s, t, c);
    InverseIsIndexed(r);
    DroppingOldestMakesNewest(s.connectionByTask, next.connectionByTask, r.connectionByTask, t, c,
                              s.limits.maxAssociations);
    var pushed := PushedOut(s.connectionByTask.keys, t, s.limits.maxAssociations);
    forall d ensures Listed(r.tasksByConnection, d) == Relisted(Listed(s.tasksByConnection, d), t, d == c, pushed) {
      AssociatedList(s, t, c, d);
      if |next.connectionByTask.keys| > s.limits.maxAssociations {
        DroppedList(next.connectionByTask.entries, next.tasksByConnection, "", [], pushed[0], d);
      }
    }
    if |next.connectionByTask.keys| > s.limits.maxAssociations {
      RemovedIsForgotten(next.preWaitErrors, next.connectionByTask.keys[0]);
    }
  }

  lemma DroppedList(byTask: map<string, string>, index: map<string, seq<string>>, gone: string, rest: seq<string>,
                    t: string, d: string)
    requires Inverse(byTask, index, gone, rest) && (gone == "" ==> rest == []) && t in byTask
    ensures byTask[t] != ""
    ensures Listed(DropFromIndex(index, t, byTask[t]), d) == Without(Listed(index, d), t)
  {
    assert Lists(index, d, t) <==> byTask[t] == d && d != gone;
    assert Lists(index, "", t) <==> byTask[t] == "" && "" != gone;
  }

  lemma AssociatedList(s: State, t: string, c: string, d: string)
    requires Inverse(s.connectionByTask.entries, s.tasksByConnection, "", []) && c != ""
    ensures Listed(Associated(s, t, c).tasksByConnection, d) == Relisted(Listed(s.tasksByConnection, d), t, d == c, [])
  {
    hide DropFromIndex, Put, Remove;
    var byTask, index := s.connectionByTask.entries, s.tasksByConnection;
    assert Lists(index, d, t) <==> t in byTask && byTask[t] == d && d != "";
    if t in byTask {
      DroppedList(byTask, index, "", [], t, d);
    }
  }

  /** Making `t` the newest key and dropping the oldest one if there are too many. */
  lemma DroppingOldestMakesNewest<V>(m: OrderedMap<V>, all: OrderedMap<V>, r: OrderedMap<V>, t: string, v: V, n: nat)
    requires n >= 1 && |m.keys| <= n
    requires all.keys == Without(m.keys, t) + [t] && all.entries == m.entries[t := v]
    requires r == if |all.keys| > n then Remove(all, all.keys[0]) else all
    ensures BecomesNewest(m, r, t, v, n)
    ensures PushedOut(m.keys, t, n) == if |all.keys| > n then [all.keys[0]] else []
  {
    hide Distinct, PushedOut, Without, Remove;
    OldestIsNotNewest(m.keys, t, n);
    KeysOfWindow(m.keys, all, t, n);
    if |all.keys| > n {
      EntriesOfWindow(m, all, t, v);
    }
  }

  lemma EntriesOfWindow<V>(m: OrderedMap<V>, all: OrderedMap<V>, t: string, v: V)
    requires all.keys != [] && all.keys[0] != t && all.entries == m.entries[t := v]
    ensures var r := Remove(all, all.keys[0]);
      && t in r.entries && r.entries[t] == v
      && forall u :: u in r.entries && u != t ==> u in m.entries && r.entries[u] == m.entries[u]
  {
    RemoveLaw(all, all.keys[0]);
  }

  lemma KeysOfWindow<V>(keys: seq<string>, all: OrderedMap<V>, t: string, n: nat)
    requires n >= 1 && |keys| <= n && all.keys == Without(keys, t) + [t]
    ensures |all.keys| > n ==> Remove(all, all.keys[0]).keys == all.keys[1..]
    ensures PushedOut(keys, t, n) == if |all.keys| > n then [all.keys[0]] else []
    ensures PushedOut(keys, t, n) + (if |all.keys| > n then all.keys[1..] else all.keys) == all.keys
  {
    WithoutIsNoLonger(keys, t);
    if |all.keys| > n {
      WithoutFirst(all.keys);
      assert all.keys == [all.keys[0]] + all.keys[1..];
    }
  }

  lemma InverseIsIndexed(s: State)
    requires Inverse(s.connectionByTask.entries, s.tasksByConnection, "", [])
    ensures Indexed(s.connectionByTask.entries, s.tasksByConnection)
  {
    InverseIsNamed(s.connectionByTask.entries, s.tasksByConnection);
  }

  lemma AssociateEffect(s: State, taskId: string, connectionId: string)
    requires Inv(s)
    ensures Associates(s, Step(s, Associate(taskId, connectionId)).0, Trim(taskId), Trim(connectionId))
  {
    hide TimersMatch, PromisesMatch, HistoryMatches, Separate, Inverse, Trim, SetAssociation, BecomesNewest, Indexed,
      PushedOut, Forgets, Listed, Relisted;
    var t, c := Trim(taskId), Trim(connectionId);
    if t != "" && c != "" {
      SetAssociationConnects(s, t, c);
    }
  }

  /** The association of `t`, if any, is gone, and every other one stayed in its place. */
  ghost predicate Unlinks(s: State, r: State, t: string) {
    && Forgets(s.connectionByTask, r.connectionByTask, t)
    && forall d :: Listed(r.tasksByConnection, d) == Without(Listed(s.tasksByConnection, d), t)
  }

  lemma ClearUnlinks(s: State, t: string, fallback: Option<string>, gone: string, rest: seq<string>)
    requires Inverse(s.connectionByTask.entries, s.tasksByConnection, gone, rest) && (gone == "" ==> rest == [])
    requires fallback != Some("")
    ensures Unlinks(s, ClearAssociation(s, t, fallback), t)
  {
    hide DropFromIndex, Inverse;
    var byTask, index := s.connectionByTask.entries, s.tasksByConnection;
    RemovedIsForgotten(s.connectionByTask, t);
    forall d ensures Listed(ClearAssociation(s, t, fallback).tasksByConnection, d) == Without(Listed(index, d), t) {
      if t in byTask {
        DroppedList(byTask, index, gone, rest, t, d);
      } else {
        StrangerUnlisted(byTask, index, gone, rest, t, d, if fallback.Some? then fallback.value else d);
      }
    }
  }

  lemma StrangerUnlisted(byTask: map<string, string>, index: map<string, seq<string>>, gone: string,
                         rest: seq<string>, t: string, d: string, fallback: string)
    requires Inverse(byTask, index, gone, rest) && t !in byTask
    ensures Listed(index, d) == Without(Listed(index, d), t)
    ensures Listed(DropFromIndex(index, t, fallback), d) == Listed(index, d)
  {
    assert !Lists(index, d, t) && !Lists(index, fallback, t);
  }

  // ---------- Waiting ----------

  /** `n` is the number asked for, or the default, cut to a whole number that is at least one. */
  predicate FloorsTo(n: int, requested: Option<real>, default: int) {
    var asked := if requested.Some? then requested.value else default as real;
    n >= 1 && if asked < 2.0 then n == 1 else asked - 1.0 < n as real <= asked
  }

  lemma AtLeastOneFloors(requested: Option<real>, default: int)
    ensures FloorsTo(AtLeastOne(requested, default), requested, default)
  {
  }

  /** The configured bounds and the default delay, with what stands in for each that is not given. */
  lemma LimitsAsConfigured(timeoutMs: Option<real>, buffered: Option<real>, terminal: Option<real>,
                           associations: Option<real>)
    ensures var limits := MakeLimits(timeoutMs, buffered, terminal, associations);
      && FloorsTo(limits.defaultTimeoutMs, timeoutMs, 30000) && FloorsTo(limits.maxBuffered, buffered, 10000)
      && FloorsTo(limits.maxTerminal, terminal, 50000)
      && FloorsTo(limits.maxAssociations, associations, limits.maxTerminal)
  {
    hide FloorsTo, AtLeastOne;
    AtLeastOneFloors(timeoutMs, 30000);
    AtLeastOneFloors(buffered, 10000);
    AtLeastOneFloors(terminal, 50000);
    AtLeastOneFloors(associations, AtLeastOne(terminal, 50000));
  }

  /** An answer given at once forgets everything about `t` but that it is terminal now. */
  ghost predicate Answers(s: State, r: State, t: string) {
    && Forgets(s.buffered, r.buffered, t) && Forgets(s.preWaitErrors, r.preWaitErrors, t)
    && Unlinks(s, r, t) && Marks(s, r, t, s.log, [])
    && r == s.(buffered := r.buffered, preWaitErrors := r.preWaitErrors, connectionByTask := r.connectionByTask,
               tasksByConnection := r.tasksByConnection, terminal := r.terminal, log := r.log)
  }

  /** A new wait for `t` gets the next promise and the next timer, and is associated with the connection it names or,
      when it names none, with the one known already. */
  ghost predicate Opens(s: State, r: State, t: string, timeoutMs: Option<real>, explicit: Option<string>) {
    var known := if t in s.connectionByTask.entries then Some(s.connectionByTask.entries[t]) else None;
    var c := if explicit.None? || explicit.value == "" then known else explicit;
    && r.waiters == s.waiters + [t] && r.timersIssued == s.timersIssued + 1
    && r.pending == s.pending[t := PendingWait(|s.waiters|, s.timersIssued, c)]
    && s.timersIssued in r.timers && FloorsTo(r.timers[s.timersIssued].delayMs, timeoutMs, s.limits.defaultTimeoutMs)
    && r.timers == s.timers[s.timersIssued := Timer(t, r.timers[s.timersIssued].delayMs)]
    && (c.Some? ==> Connects(s, r, t, c.value))
    && r == s.(waiters := r.waiters, timersIssued := r.timersIssued, pending := r.pending, timers := r.timers,
               connectionByTask := if c.Some? then r.connectionByTask else s.connectionByTask,
               tasksByConnection := if c.Some? then r.tasksByConnection else s.tasksByConnection,
               preWaitErrors := if c.Some? then r.preWaitErrors else s.preWaitErrors)
  }

  /** What `wait` does with trimmed ids, and its reply. */
  ghost predicate Waits(s: State, r: State, t: string, timeoutMs: Option<real>, explicit: Option<string>,
                        reply: WaitReply) {
    if t == "" then r == s && reply == Refused(TaskIdRequired)
    else if t in s.preWaitErrors.entries then
      Answers(s, r, t) && reply == Refused(ConnectionLost(s.preWaitErrors.entries[t]))
    else if t in s.terminal.entries then r == s && reply == Refused(NoLongerAvailable)
    else if t in s.buffered.entries then Answers(s, r, t) && reply == Ready(s.buffered.entries[t])
    else if t in s.pending then r == s && reply == Awaiting(s.pending[t].promise)
    else Opens(s, r, t, timeoutMs, explicit) && reply == Awaiting(|s.waiters|)
  }

  lemma AnsweringEffect(s: State, t: string)
    requires Inv(s)
    ensures var next := s.(buffered := Remove(s.buffered, t), preWaitErrors := Remove(s.preWaitErrors, t));
      Answers(s, Mark(ClearAssociation(next, t, None), t), t)
  {
    hide TimersMatch, PromisesMatch, HistoryMatches, Separate, Inverse, Marks, Mark, ClearAssociation, Forgets, Remove;
    var next := s.(buffered := Remove(s.buffered, t), preWaitErrors := Remove(s.preWaitErrors, t));
    RemovedIsForgotten(s.buffered, t);
    RemovedIsForgotten(s.preWaitErrors, t);
    ForgettingEffect(s, next, t, None, "", []);
  }

  /** Forgetting the association of `t` and marking it, after changes to the other maps. */
  lemma ForgettingEffect(s: State, next: State, t: string, fallback: Option<string>, gone: string, rest: seq<string>)
    requires InvDuring(s, gone, rest) && (gone == "" ==> rest == []) && fallback != Some("")
    requires next == s.(pending := next.pending, timers := next.timers, buffered := next.buffered,
                        preWaitErrors := next.preWaitErrors, log := next.log)
    ensures var r := Mark(ClearAssociation(next, t, fallback), t);
      && Unlinks(s, r, t) && Marks(s, r, t, next.log, [])
      && r == next.(connectionByTask := r.connectionByTask, tasksByConnection := r.tasksByConnection,
                    terminal := r.terminal, log := r.log)
  {
    hide TimersMatch, PromisesMatch, Separate, Inverse, Recent, Held, Lawful, Mark, ClearAssociation, Forgets,
      BecomesNewest, PushedOut, Evictions;
    ClearUnlinks(next, t, fallback, gone, rest);
    ClearFrame(next, t, fallback);
    var cleared := ClearAssociation(next, t, fallback);
    MarkedIsNewest(cleared, t);
    MarkFrame(cleared, t);
  }

  lemma WaitEffect(s: State, taskId: string, timeoutMs: Option<real>, connection: Option<string>)
    requires Inv(s)
    ensures var (r, reply) := Step(s, Wait(taskId, timeoutMs, connection));
      reply.Waited? && Waits(s, r, Trim(taskId), timeoutMs,
        if connection.Some? then Some(Trim(connection.value)) else None, reply.reply)
  {
    hide InvDuring, Trim, Answers, Opens, Open, Mark, ClearAssociation, Remove;
    var t := Trim(taskId);
    var explicit := if connection.Some? then Some(Trim(connection.value)) else None;
    if t in s.preWaitErrors.entries || t in s.buffered.entries {
      AnsweringEffect(s, t);
      NotInBoth(s, t);
    } else if t != "" && t !in s.terminal.entries && t !in s.pending {
      OpeningEffect(s, t, timeoutMs, explicit);
    }
  }

  lemma NotInBoth(s: State, t: string)
    requires Inv(s)
    ensures t in s.preWaitErrors.entries ==> Remove(s.buffered, t) == s.buffered
  {
    hide TimersMatch, PromisesMatch, HistoryMatches, Inverse;
    RemoveLaw(s.buffered, t);
  }

  lemma OpeningEffect(s: State, t: string, timeoutMs: Option<real>, explicit: Option<string>)
    requires Inv(s) && t != "" && t !in s.pending
    ensures Opens(s, Open(s, t, AtLeastOne(timeoutMs, s.limits.defaultTimeoutMs), ConnectionFor(s, t, explicit)), t,
                  timeoutMs, explicit)
  {
    hide TimersMatch, PromisesMatch, HistoryMatches, Separate, Inverse, SetAssociation, BecomesNewest, Indexed, Listed,
      Relisted, Forgets, PushedOut, FloorsTo, AtLeastOne;
    AtLeastOneFloors(timeoutMs, s.limits.defaultTimeoutMs);
    InverseIsNamed(s.connectionByTask.entries, s.tasksByConnection);
    var c, delayMs := ConnectionFor(s, t, explicit), AtLeastOne(timeoutMs, s.limits.defaultTimeoutMs);
    var known := if t in s.connectionByTask.entries then Some(s.connectionByTask.entries[t]) else None;
    assert c == if explicit.None? || explicit.value == "" then known else explicit;
    hide ConnectionFor;
    if c.Some? {
      var entry := PendingWait(|s.waiters|, s.timersIssued, c);
      SetAssociationConnects(s.(pending := s.pending[t := entry],
                                timers := s.timers[s.timersIssued := Timer(t, delayMs)],
                                timersIssued := s.timersIssued + 1, waiters := s.waiters + [t]), t, c.value);
    }
  }

  // ---------- Resolving and expiring ----------

  /** The wait for `t` ends as `how`; the history grew from `past`. */
  ghost predicate Ends(s: State, r: State, t: string, past: seq<Event>, how: Settlement)
    requires t in s.pending
  {
    && r.pending == s.pending - {t} && r.timers == s.timers - {s.pending[t].timer}
    && Unlinks(s, r, t) && Marks(s, r, t, past, [Settled(s.pending[t].promise, how)])
    && r == s.(pending := r.pending, timers := r.timers, connectionByTask := r.connectionByTask,
               tasksByConnection := r.tasksByConnection, terminal := r.terminal, log := r.log)
  }

  /** What `resolve` does with a trimmed id, and whether it takes the result. */
  ghost predicate Resolves(s: State, r: State, t: string, result: TaskResult, accepted: bool) {
    if t == "" || t in s.terminal.entries then r == s && !accepted
    else if t in s.pending then accepted && Ends(s, r, t, s.log + [Accepted(t)], Fulfilled(result))
    else if t in s.buffered.entries then r == s && !accepted
    else
      && accepted
      && BecomesNewest(s.buffered, r.buffered, t, result, s.limits.maxBuffered)
      && r.log == s.log + [Accepted(t)] + Evictions(PushedOut(s.buffered.keys, t, s.limits.maxBuffered))
      && Forgets(s.preWaitErrors, r.preWaitErrors, t) && Unlinks(s, r, t)
      && r == s.(buffered := r.buffered, log := r.log, preWaitErrors := r.preWaitErrors,
                 connectionByTask := r.connectionByTask, tasksByConnection := r.tasksByConnection)
  }

  lemma EndingEffect(s: State, t: string, past: seq<Event>, how: Settlement, gone: string, rest: seq<string>)
    requires InvDuring(s, gone, rest) && (gone == "" ==> rest == []) && t in s.pending
    ensures Ends(s, Settle(Close(s.(log := past), t), s.pending[t].promise, how), t, past, how)
  {
    hide TimersMatch, PromisesMatch, HistoryMatches, Separate, Inverse, Mark, ClearAssociation, Forgets, BecomesNewest,
      PushedOut, Evictions, Listed;
    var entry := s.pending[t];
    assert entry.connection != Some("");
    var open := s.(log := past, pending := s.pending - {t}, timers := s.timers - {entry.timer});
    ForgettingEffect(s, open, t, entry.connection, gone, rest);
  }

  lemma BufferingEffect(s: State, t: string, result: TaskResult)
    requires Inv(s) && t !in s.buffered.entries
    ensures var next := s.(preWaitErrors := Remove(s.preWaitErrors, t));
      var r := ClearAssociation(Buffer(next, t, result), t, None);
      && BecomesNewest(s.buffered, r.buffered, t, result, s.limits.maxBuffered)
      && r.log == s.log + [Accepted(t)] + Evictions(PushedOut(s.buffered.keys, t, s.limits.maxBuffered))
      && Forgets(s.preWaitErrors, r.preWaitErrors, t) && Unlinks(s, r, t)
      && r == s.(buffered := r.buffered, log := r.log, preWaitErrors := r.preWaitErrors,
                 connectionByTask := r.connectionByTask, tasksByConnection := r.tasksByConnection)
  {
    hide TimersMatch, PromisesMatch, HistoryMatches, Separate, Inverse, ClearAssociation, Forgets, BecomesNewest,
      PushedOut, Evictions, Listed, KeepNewest, Older, LogEvictions, Put, Remove;
    var n := s.limits.maxBuffered;
    RemoveLaw(s.buffered, t);
    RemovedIsForgotten(s.preWaitErrors, t);
    MovedIsNewest(s.buffered, t, result, n);
    EvictionsLog(s.log + [Accepted(t)], s.buffered.keys, t, n);
    var held := Buffer(s.(preWaitErrors := Remove(s.preWaitErrors, t)), t, result);
    ClearUnlinks(held, t, None, "", []);
    ClearFrame(held, t, None);
  }

  lemma ResolveEffect(s: State, taskId: string, result: TaskResult)
    requires Inv(s)
    ensures var (r, reply) := Step(s, Resolve(taskId, result));
      reply.Resolved? && Resolves(s, r, Trim(taskId), result, reply.accepted)
  {
    hide InvDuring, Trim, Ends, Close, Buffer, ClearAssociation, Remove, BecomesNewest, Unlinks, Forgets, PushedOut,
      Evictions;
    var t := Trim(taskId);
    if t != "" && t !in s.terminal.entries {
      if t in s.pending {
        EndingEffect(s, t, s.log + [Accepted(t)], Fulfilled(result), "", []);
        NoErrorWhilePending(s, t, "", []);
      } else if t !in s.buffered.entries {
        BufferingEffect(s, t, result);
      }
    }
  }

  lemma NoErrorWhilePending(s: State, t: string, gone: string, rest: seq<string>)
    requires InvDuring(s, gone, rest) && t in s.pending
    ensures Remove(s.preWaitErrors, t) == s.preWaitErrors
  {
    hide TimersMatch, PromisesMatch, HistoryMatches, Inverse;
    PendingHasNoError(s, t);
  }

  /** A timer going off ends the wait that armed it as timed out. */
  lemma TimerEffect(s: State, timer: nat)
    requires Inv(s)
    ensures var r := Step(s, TimerFires(timer)).0;
      if timer !in s.timers then r == s
      else
        var t := s.timers[timer].task;
        t in s.pending && s.pending[t].timer == timer && Ends(s, r, t, s.log, TimedOut)
  {
    hide InvDuring, Ends, Close, FireTimer;
    if timer in s.timers {
      FireTimerKeeps(s, timer);
      EndingEffect(s, s.timers[timer].task, s.log, TimedOut, "", []);
    }
  }

  // ---------- Disconnects ----------

  /** What the death of `c` does to one of its tasks: its wait ends; a result that is here stays; and otherwise
      the error becomes the newest one kept and the task is marked. */
  ghost predicate Loses(s: State, r: State, t: string, c: string) {
    if t in s.pending then Ends(s, r, t, s.log, Disconnected(c))
    else
      && Unlinks(s, r, t)
      && r == s.(connectionByTask := r.connectionByTask, tasksByConnection := r.tasksByConnection,
                 preWaitErrors := r.preWaitErrors, terminal := r.terminal, log := r.log)
      && if t in s.buffered.entries then
           r.preWaitErrors == s.preWaitErrors && r.terminal == s.terminal && r.log == s.log
         else
           && BecomesNewest(s.preWaitErrors, r.preWaitErrors, t, c, s.limits.maxTerminal)
           && Marks(s, r, t, s.log, [])
  }

  lemma LosingEffect(s: State, c: string, rest: seq<string>)
    requires InvDuring(s, c, rest) && c != "" && rest != []
    ensures Loses(s, RejectTask(s, rest[0], c), rest[0], c)
  {
    hide TimersMatch, PromisesMatch, HistoryMatches, Separate, Inverse, Mark, ClearAssociation, Forgets, BecomesNewest,
      PushedOut, Evictions, Listed, Close, KeepNewest, Put, Remove;
    var t := rest[0];
    if t in s.pending {
      EndingEffect(s, t, s.log, Disconnected(c), c, rest);
      NoErrorWhilePending(s, t, c, rest);
    } else if t in s.buffered.entries {
      ClearUnlinks(s, t, None, c, rest);
      ClearFrame(s, t, None);
    } else {
      var kept := KeepNewest(Put(Remove(s.preWaitErrors, t), t, c), s.limits.maxTerminal);
      MovedIsNewest(s.preWaitErrors, t, c, s.limits.maxTerminal);
      ForgettingEffect(s, s.(preWaitErrors := kept), t, None, c, rest);
    }
  }

  /** The tasks of `c` lose their connection one after the other. */
  ghost predicate LoseInTurn(s: State, r: State, tasks: seq<string>, c: string)
    decreases |tasks|
  {
    if tasks == [] then r == s
    else exists next :: Loses(s, next, tasks[0], c) && LoseInTurn(next, r, tasks[1..], c)
  }

  lemma {:induction false} LosingInTurn(s: State, c: string, rest: seq<string>)
    requires InvDuring(s, c, rest) && c != ""
    ensures LoseInTurn(s, RejectTasks(s, rest, c).0, rest, c)
    decreases |rest|
  {
    hide InvDuring, RejectTask, Loses;
    if rest != [] {
      LosingEffect(s, c, rest);
      RejectTaskKeeps(s, c, rest);
      LosingInTurn(RejectTask(s, rest[0], c), c, rest[1..]);
    }
  }

  /** A disconnect takes the list of its connection, and those tasks lose it in the order of the list. */
  lemma DisconnectEffect(s: State, connectionId: string)
    requires Inv(s)
    ensures var c := Trim(connectionId);
      LoseInTurn(s.(tasksByConnection := s.tasksByConnection - {c}), Step(s, RejectAll(connectionId)).0,
                 Listed(s.tasksByConnection, c), c)
  {
    hide InvDuring, RejectTasks, Trim;
    var c := Trim(connectionId);
    ListsAreProper(s, c);
    if c in s.tasksByConnection {
      DetachKeeps(s, c);
      LosingInTurn(s.(tasksByConnection := s.tasksByConnection - {c}), c, s.tasksByConnection[c]);
    } else {
      assert s.tasksByConnection - {c} == s.tasksByConnection;
    }
  }

  lemma ListsAreProper(s: State, c: string)
    requires Inv(s)
    ensures c in s.tasksByConnection ==> c != "" && s.tasksByConnection[c] != []
  {
  }
}
