/** The invariant of the task result registry and its preservation by every
    operation. */
module TaskRegistryInvariant {
  import opened InsertionOrder
  import opened TaskRegistryModel
  import opened Text
  import opened Wrappers

  // ---------- What the history says ----------

  /** The tasks whose last accepted result has not been evicted since. */
  function Held(log: seq<Event>): set<string> {
    if log == [] then {}
    else
      var past := Held(log[..|log| - 1]);
      match log[|log| - 1]
      case Accepted(t) => past + {t}
      case Evicted(t) => past - {t}
      case _ => past
  }

  /** The distinct tasks marked terminal, in the order of their latest marking. */
  function Recent(log: seq<Event>): seq<string> {
    if log == [] then []
    else
      var past := Recent(log[..|log| - 1]);
      match log[|log| - 1]
      case Marked(t) => Without(past, t) + [t]
      case _ => past
  }

  /** How each settled promise was settled. */
  function Outcomes(log: seq<Event>): map<nat, Settlement> {
    if log == [] then map[]
    else
      var past := Outcomes(log[..|log| - 1]);
      match log[|log| - 1]
      case Settled(p, how) => past[p := how]
      case _ => past
  }

  /** No promise is settled twice, and no task is accepted again while held. */
  predicate Lawful(log: seq<Event>) {
    log == [] ||
    var past := log[..|log| - 1];
    && Lawful(past)
    && match log[|log| - 1] {
      case Accepted(t) => t !in Held(past)
      case Settled(p, _) => p !in Outcomes(past)
      case _ => true
    }
  }

  lemma {:induction false} RecentIsDistinct(log: seq<Event>)
    ensures Distinct(Recent(log))
  {
    if log != [] {
      RecentIsDistinct(log[..|log| - 1]);
    }
  }

  lemma {:induction false} HistoryAfter(log: seq<Event>, e: Event)
    ensures Held(log + [e]) ==
      match e { case Accepted(t) => Held(log) + {t} case Evicted(t) => Held(log) - {t} case _ => Held(log) }
    ensures Recent(log + [e]) == if e.Marked? then Without(Recent(log), e.task) + [e.task] else Recent(log)
    ensures Outcomes(log + [e]) == if e.Settled? then Outcomes(log)[e.promise := e.how] else Outcomes(log)
    ensures Lawful(log + [e]) ==
      (Lawful(log) && (e.Accepted? ==> e.task !in Held(log)) && (e.Settled? ==> e.promise !in Outcomes(log)))
  {
    assert (log + [e])[..|log + [e]| - 1] == log;
  }

  lemma {:induction false} HistoryAfterEvictions(log: seq<Event>, tasks: seq<string>)
    ensures Held(LogEvictions(log, tasks)) == Held(log) - set t | t in tasks
    ensures Recent(LogEvictions(log, tasks)) == Recent(log)
    ensures Outcomes(LogEvictions(log, tasks)) == Outcomes(log)
    ensures Lawful(LogEvictions(log, tasks)) == Lawful(log)
    decreases |tasks|
  {
    if tasks != [] {
      HistoryAfter(log, Evicted(tasks[0]));
      HistoryAfterEvictions(log + [Evicted(tasks[0])], tasks[1..]);
    }
  }

  // ---------- The invariant ----------

  /** Live timers and pending waits correspond one to one. */
  ghost predicate TimersMatch(pending: map<string, PendingWait>, timers: map<nat, Timer>, issued: nat) {
    && (forall t :: t in pending ==> pending[t].timer in timers && timers[pending[t].timer].task == t)
    && (forall h :: h in timers ==>
          h < issued && timers[h].task in pending && pending[timers[h].task].timer == h)
  }

  /** Every promise ever handed out is either settled or held by the pending wait
      of its task, and never both. */
  ghost predicate PromisesMatch(pending: map<string, PendingWait>, waiters: seq<string>,
                                settled: map<nat, Settlement>) {
    && (forall t :: t in pending ==> pending[t].promise < |waiters| && waiters[pending[t].promise] == t)
    && (forall p: nat :: p in settled ==> p < |waiters|)
    && (forall p: nat :: p < |waiters| ==>
          (p !in settled <==> waiters[p] in pending && pending[waiters[p]].promise == p))
  }

  ghost predicate Separate(pending: set<string>, buffered: set<string>, preWaitErrors: set<string>,
                           terminal: set<string>) {
    && pending !! buffered && pending !! terminal && buffered !! terminal
    && preWaitErrors !! pending && preWaitErrors !! buffered
  }

  /** The history explains `terminal`, and an accepted result is still remembered unless it was evicted. */
  ghost predicate HistoryMatches(log: seq<Event>, buffered: set<string>, terminal: OrderedMap<bool>, maxTerminal: nat) {
    && Lawful(log)
    && terminal.keys == Newest(Recent(log), maxTerminal)
    && Held(log) <= buffered + terminal.entries.Keys
  }

  predicate Lists(index: map<string, seq<string>>, c: string, t: string) {
    c in index && t in index[c]
  }

  ghost predicate Proper(index: map<string, seq<string>>) {
    "" !in index && forall c :: c in index ==> index[c] != [] && Distinct(index[c])
  }

  /** `index` inverts `byTask`, except for the connection `gone`, whose tasks are `rest`. */
  ghost predicate Inverse(byTask: map<string, string>, index: map<string, seq<string>>, gone: string,
                          rest: seq<string>) {
    && Proper(index)
    && Distinct(rest)
    && (forall c, t :: Lists(index, c, t) <==> t in byTask && byTask[t] == c && c != gone)
    && (forall t :: t in rest <==> t in byTask && byTask[t] == gone)
  }

  ghost predicate Bounded(s: State) {
    && s.limits.maxBuffered >= 1 && s.limits.maxTerminal >= 1 && s.limits.maxAssociations >= 1
    && |s.buffered.keys| <= s.limits.maxBuffered
    && |s.preWaitErrors.keys| <= s.limits.maxTerminal
    && |s.connectionByTask.keys| <= s.limits.maxAssociations
  }

  /** No blank id is stored anywhere, which is what keeps the eviction loops going. */
  ghost predicate Named(s: State) {
    && "" !in s.pending && "" !in s.buffered.entries && "" !in s.preWaitErrors.entries
    && "" !in s.terminal.entries && "" !in s.connectionByTask.entries
  }

  /** A wait's promise and timer were numbered together, and its connection is no blank id. */
  ghost predicate EntriesMatch(pending: map<string, PendingWait>, issued: nat, waits: nat) {
    && issued == waits
    && forall t :: t in pending ==> pending[t].timer == pending[t].promise && pending[t].connection != Some("")
  }

  /** The invariant while the tasks `rest` of a dead connection `gone` are still to be rejected. */
  ghost predicate InvDuring(s: State, gone: string, rest: seq<string>) {
    && TimersMatch(s.pending, s.timers, s.timersIssued)
    && PromisesMatch(s.pending, s.waiters, Outcomes(s.log))
    && Separate(s.pending.Keys, s.buffered.entries.Keys, s.preWaitErrors.entries.Keys, s.terminal.entries.Keys)
    && HistoryMatches(s.log, s.buffered.entries.Keys, s.terminal, s.limits.maxTerminal)
    && Inverse(s.connectionByTask.entries, s.tasksByConnection, gone, rest)
    && s.connectionByTask.entries.Keys !! s.terminal.entries.Keys
    && Bounded(s) && Named(s) && EntriesMatch(s.pending, s.timersIssued, |s.waiters|)
  }

  ghost predicate Inv(s: State) {
    InvDuring(s, "", [])
  }

  // ---------- Preservation, piece by piece ----------

  lemma WindowLaw(m: OrderedMap<bool>, history: seq<string>, t: string, n: nat)
    requires n >= 1 && Distinct(history) && m.keys == Newest(history, n)
    ensures var all := Put(Remove(m, t), t, true);
      && KeepNewest(all, n).keys == Newest(Without(history, t) + [t], n)
      && t in KeepNewest(all, n).keys
      && (forall u :: u in Older(all.keys, n) ==> u in m.keys && u != t && u !in KeepNewest(all, n).keys)
      && (forall u :: u in m.keys ==> u in KeepNewest(all, n).keys || u in Older(all.keys, n))
  {
    hide Put, Remove, Without;
    var all := Put(Remove(m, t), t, true);
    MoveToEndLaw(m, t, true);
    NewestAfterMove(history, t, n);
    Partition(all.keys, n);
    hide Older, Newest, Distinct;
    NewestEndsWith(Without(m.keys, t), t, n);
  }

  lemma NewestEndsWith(s: seq<string>, t: string, n: nat)
    requires n >= 1
    ensures t in Newest(s + [t], n)
  {
    var kept := Newest(s + [t], n);
    assert kept[|kept| - 1] == t;
  }

  lemma MarkKeepsHistory(s: State, t: string)
    requires Lawful(s.log) && s.terminal.keys == Newest(Recent(s.log), s.limits.maxTerminal) &&
      s.limits.maxTerminal >= 1
    requires Held(s.log) <= s.buffered.entries.Keys + s.terminal.entries.Keys + {t}
    ensures var m := Mark(s, t);
      && HistoryMatches(m.log, s.buffered.entries.Keys, m.terminal, s.limits.maxTerminal)
      && Outcomes(m.log) == Outcomes(s.log)
      && (t in Held(s.log) ==> t in Held(m.log))
      && t in m.terminal.entries
      && m.terminal.entries.Keys <= s.terminal.entries.Keys + {t}
  {
    HistoryAfter(s.log, Marked(t));
    HistoryAfterEvictions(s.log + [Marked(t)], Older(Put(Remove(s.terminal, t), t, true).keys, s.limits.maxTerminal));
    RecentIsDistinct(s.log);
    WindowLaw(s.terminal, Recent(s.log), t, s.limits.maxTerminal);
  }

  lemma DropFromIndexLaw(index: map<string, seq<string>>, t: string, c: string)
    requires Proper(index)
    ensures var r := DropFromIndex(index, t, c);
      Proper(r) && forall d, u :: Lists(r, d, u) <==> Lists(index, d, u) && !(d == c && u == t)
  {
  }

  lemma AddToIndexLaw(index: map<string, seq<string>>, t: string, c: string)
    requires Proper(index) && c != ""
    ensures var r := AddToIndex(index, t, c);
      Proper(r) && forall d, u :: Lists(r, d, u) <==> Lists(index, d, u) || (d == c && u == t)
  {
  }

  lemma RemoveKeepsInverse(byTask: map<string, string>, index: map<string, seq<string>>, t: string, c: string,
                           gone: string, rest: seq<string>)
    requires Inverse(byTask, index, gone, rest)
    requires t in byTask ==> byTask[t] == c
    ensures Inverse(byTask - {t}, DropFromIndex(index, t, c), gone, Without(rest, t))
  {
    DropFromIndexLaw(index, t, c);
  }

  lemma ClearKeepsInverse(s: State, t: string, fallback: Option<string>, gone: string, rest: seq<string>)
    requires Inverse(s.connectionByTask.entries, s.tasksByConnection, gone, rest)
    requires (gone == "" ==> rest == []) && fallback != Some("")
    ensures var r := ClearAssociation(s, t, fallback);
      && Inverse(r.connectionByTask.entries, r.tasksByConnection, gone, Without(rest, t))
      && r.connectionByTask.entries == s.connectionByTask.entries - {t}
      && |r.connectionByTask.keys| <= |s.connectionByTask.keys|
  {
    var byTask, index := s.connectionByTask.entries, s.tasksByConnection;
    if t in byTask {
      assert byTask[t] != "" by {
        assert Lists(index, byTask[t], t) || byTask[t] == gone;
      }
      RemoveKeepsInverse(byTask, index, t, byTask[t], gone, rest);
    } else if fallback.Some? {
      RemoveKeepsInverse(byTask, index, t, fallback.value, gone, rest);
    } else {
      assert byTask - {t} == byTask;
    }
  }

  lemma SeparateAfterForgetting(pending: set<string>, buffered: set<string>, errors: set<string>, terminal: set<string>,
                                associated: set<string>, terminal': set<string>, t: string)
    requires Separate(pending, buffered, errors, terminal) && associated !! terminal && terminal' <= terminal + {t}
    ensures t in pending ==> Separate(pending - {t}, buffered, errors, terminal')
    ensures t in buffered || t in errors ==> Separate(pending, buffered - {t}, errors - {t}, terminal')
    ensures t !in pending + buffered ==> Separate(pending, buffered, errors + {t}, terminal')
    ensures associated - {t} !! terminal'
  {
  }

  /** What forgetting the association of `t` and marking it terminal changes. */
  lemma ForgettingLaw(s: State, t: string, fallback: Option<string>, gone: string, rest: seq<string>)
    requires Inverse(s.connectionByTask.entries, s.tasksByConnection, gone, rest) && (gone == "" ==> rest == [])
    requires fallback != Some("") && s.limits.maxTerminal >= 1
    requires Lawful(s.log) && s.terminal.keys == Newest(Recent(s.log), s.limits.maxTerminal)
    requires Held(s.log) <= s.buffered.entries.Keys + s.terminal.entries.Keys + {t}
    ensures var r := Mark(ClearAssociation(s, t, fallback), t);
      && r == s.(connectionByTask := r.connectionByTask, tasksByConnection := r.tasksByConnection,
        terminal := r.terminal, log := r.log)
      && Inverse(r.connectionByTask.entries, r.tasksByConnection, gone, Without(rest, t))
      && r.connectionByTask.entries.Keys == s.connectionByTask.entries.Keys - {t}
      && |r.connectionByTask.keys| <= |s.connectionByTask.keys|
      && HistoryMatches(r.log, s.buffered.entries.Keys, r.terminal, s.limits.maxTerminal)
      && Outcomes(r.log) == Outcomes(s.log)
      && (t in Held(s.log) ==> t in Held(r.log))
      && t in r.terminal.entries && r.terminal.entries.Keys <= s.terminal.entries.Keys + {t}
  {
    hide Inverse, Held, Recent, Outcomes, Lawful, LogEvictions, DropFromIndex;
    ClearKeepsInverse(s, t, fallback, gone, rest);
    MarkKeepsHistory(ClearAssociation(s, t, fallback), t);
  }

  lemma ClosingKeepsMatches(s: State, t: string, how: Settlement)
    requires TimersMatch(s.pending, s.timers, s.timersIssued) && t in s.pending
    requires PromisesMatch(s.pending, s.waiters, Outcomes(s.log))
    ensures TimersMatch(s.pending - {t}, s.timers - {s.pending[t].timer}, s.timersIssued)
    ensures PromisesMatch(s.pending - {t}, s.waiters, Outcomes(s.log)[s.pending[t].promise := how])
    ensures s.pending[t].promise !in Outcomes(s.log)
  {
  }

  lemma PendingIsApart(s: State, t: string)
    requires Separate(s.pending.Keys, s.buffered.entries.Keys, s.preWaitErrors.entries.Keys, s.terminal.entries.Keys)
    requires Held(s.log) <= s.buffered.entries.Keys + s.terminal.entries.Keys
    requires t in s.pending
    ensures t !in s.buffered.entries && t !in s.preWaitErrors.entries && t !in s.terminal.entries && t !in Held(s.log)
  {
  }

  lemma SettledKeepsHistory(s: State, p: nat, how: Settlement)
    requires HistoryMatches(s.log, s.buffered.entries.Keys, s.terminal, s.limits.maxTerminal) && p !in Outcomes(s.log)
    ensures var log := Settle(s, p, how).log;
      && HistoryMatches(log, s.buffered.entries.Keys, s.terminal, s.limits.maxTerminal)
      && Outcomes(log) == Outcomes(s.log)[p := how] && Held(log) == Held(s.log)
  {
    HistoryAfter(s.log, Settled(p, how));
  }

  /** Settling the pending wait of `t` when the history is `log`, which may have just accepted `t`. */
  lemma SettlingWith(s: State, t: string, log: seq<Event>, how: Settlement, gone: string, rest: seq<string>)
    requires InvDuring(s, gone, rest) && (gone == "" ==> rest == [])
    requires t in s.pending
    requires Lawful(log) && s.terminal.keys == Newest(Recent(log), s.limits.maxTerminal) &&
      Outcomes(log) == Outcomes(s.log)
    requires Held(log) <= s.buffered.entries.Keys + s.terminal.entries.Keys + {t}
    ensures var p := s.pending[t].promise;
      var r := Settle(Close(s.(log := log), t), p, how);
      && InvDuring(r, gone, Without(rest, t)) && Outcomes(r.log) == Outcomes(s.log)[p := how]
      && p !in Outcomes(s.log)
      && (t in Held(log) ==> t in Held(r.log))
  {
    hide TimersMatch, PromisesMatch, Inverse, HistoryMatches, Held, Recent, Outcomes, Lawful, Mark, ClearAssociation,
      Remove, Separate, Newest;
    var entry := s.pending[t];
    assert entry.connection != Some("");
    ClosingKeepsMatches(s, t, how);
    assert (s.pending - {t}).Keys == s.pending.Keys - {t};
    var open := s.(log := log, pending := s.pending - {t}, timers := s.timers - {entry.timer});
    ForgettingLaw(open, t, entry.connection, gone, rest);
    var marked := Mark(ClearAssociation(open, t, entry.connection), t);
    SettledKeepsHistory(marked, entry.promise, how);
    SeparateAfterForgetting(s.pending.Keys, s.buffered.entries.Keys, s.preWaitErrors.entries.Keys,
                            s.terminal.entries.Keys,
                            s.connectionByTask.entries.Keys, marked.terminal.entries.Keys, t);
  }

  lemma SettlingKeeps(s: State, t: string, accepting: bool, how: Settlement, gone: string, rest: seq<string>)
    requires InvDuring(s, gone, rest) && (gone == "" ==> rest == [])
    requires t in s.pending
    ensures var log := if accepting then s.log + [Accepted(t)] else s.log;
      var p := s.pending[t].promise;
      var r := Settle(Close(s.(log := log), t), p, how);
      && InvDuring(r, gone, Without(rest, t)) && Outcomes(r.log) == Outcomes(s.log)[p := how]
      && p !in Outcomes(s.log)
      && (t in Held(log) ==> t in Held(r.log))
  {
    hide TimersMatch, PromisesMatch, Inverse, Held, Recent, Outcomes, Lawful, Close, Separate;
    PendingIsApart(s, t);
    HistoryAfter(s.log, Accepted(t));
    SettlingWith(s, t, if accepting then s.log + [Accepted(t)] else s.log, how, gone, rest);
  }

  // ---------- Associations ----------

  lemma ReassignKeepsInverse(byTask: map<string, string>, index: map<string, seq<string>>,
                             freed: map<string, seq<string>>, t: string, c: string)
    requires Inverse(byTask, index, "", []) && c != ""
    requires freed == if t in byTask && byTask[t] != c then DropFromIndex(index, t, byTask[t]) else index
    ensures Inverse(byTask[t := c], AddToIndex(freed, t, c), "", [])
  {
    if t in byTask && byTask[t] != c {
      DropFromIndexLaw(index, t, byTask[t]);
    }
    AddToIndexLaw(freed, t, c);
    var r := AddToIndex(freed, t, c);
    forall d, u ensures Lists(r, d, u) <==> u in byTask[t := c] && byTask[t := c][u] == d && d != "" {
      assert Lists(index, d, u) <==> u in byTask && byTask[u] == d && d != "";
    }
  }

  lemma InverseIsNamed(byTask: map<string, string>, index: map<string, seq<string>>)
    requires Inverse(byTask, index, "", [])
    ensures forall t :: t in byTask ==> byTask[t] != ""
  {
  }

  lemma AssociatedKeeps(s: State, t: string, c: string)
    requires Inverse(s.connectionByTask.entries, s.tasksByConnection, "", []) && c != ""
    ensures var r := Associated(s, t, c);
      && Inverse(r.connectionByTask.entries, r.tasksByConnection, "", [])
      && r.connectionByTask.entries == s.connectionByTask.entries[t := c]
      && r.connectionByTask.keys == Without(s.connectionByTask.keys, t) + [t]
      && r == s.(connectionByTask := r.connectionByTask, tasksByConnection := r.tasksByConnection)
  {
    hide Inverse, DropFromIndex, AddToIndex, Put, Remove;
    var byTask, index := s.connectionByTask.entries, s.tasksByConnection;
    InverseIsNamed(byTask, index);
    MoveToEndLaw(s.connectionByTask, t, c);
    var freed := if t in byTask && byTask[t] != c then DropFromIndex(index, t, byTask[t]) else index;
    ReassignKeepsInverse(byTask, index, freed, t, c);
  }

  lemma DropOldestKeeps(s: State)
    requires Inverse(s.connectionByTask.entries, s.tasksByConnection, "", []) && s.connectionByTask.keys != []
    ensures var r, oldest := DropOldestAssociation(s), s.connectionByTask.keys[0];
      && Inverse(r.connectionByTask.entries, r.tasksByConnection, "", [])
      && r.connectionByTask.entries == s.connectionByTask.entries - {oldest}
      && |r.connectionByTask.keys| == |s.connectionByTask.keys| - 1
      && r.preWaitErrors == Remove(s.preWaitErrors, oldest)
      && r == s.(connectionByTask := r.connectionByTask, tasksByConnection := r.tasksByConnection,
        preWaitErrors := r.preWaitErrors)
  {
    hide Inverse, DropFromIndex;
    var byTask, oldest := s.connectionByTask.entries, s.connectionByTask.keys[0];
    InverseIsNamed(byTask, s.tasksByConnection);
    RemoveKeepsInverse(byTask, s.tasksByConnection, oldest, byTask[oldest], "", []);
  }

  /** A list that grows past its bound by moving `t` to its end holds something older than `t`. */
  lemma OldestIsNotNewest(keys: seq<string>, t: string, n: nat)
    requires |keys| <= n && n >= 1
    ensures var moved := Without(keys, t) + [t];
      |moved| <= n + 1 && (|moved| > n ==> moved[0] != t)
  {
    WithoutIsNoLonger(keys, t);
    var rest := Without(keys, t);
    assert rest != [] ==> rest[0] in rest;
  }

  lemma SetAssociationKeeps(s: State, t: string, c: string)
    requires Inverse(s.connectionByTask.entries, s.tasksByConnection, "", []) && Bounded(s) && Named(s) && t != "" &&
      c != ""
    ensures var r := SetAssociation(s, t, c);
      && Inverse(r.connectionByTask.entries, r.tasksByConnection, "", []) && Bounded(r) && Named(r)
      && t in r.connectionByTask.entries && r.connectionByTask.entries[t] == c
      && r.connectionByTask.entries.Keys <= s.connectionByTask.entries.Keys + {t}
      && r.preWaitErrors.entries.Keys <= s.preWaitErrors.entries.Keys
      && r == s.(connectionByTask := r.connectionByTask, tasksByConnection := r.tasksByConnection,
        preWaitErrors := r.preWaitErrors)
  {
    hide Inverse, Associated, DropOldestAssociation, Remove, Without, Distinct;
    AssociatedKeeps(s, t, c);
    var next := Associated(s, t, c);
    OldestIsNotNewest(s.connectionByTask.keys, t, s.limits.maxAssociations);
    if |next.connectionByTask.keys| > s.limits.maxAssociations {
      DropOldestKeeps(next);
      RemoveLaw(next.preWaitErrors, next.connectionByTask.keys[0]);
    }
  }

  lemma AssociateKeeps(s: State, t: string, c: string)
    requires Inv(s)
    ensures Inv(AssociateTask(s, t, c))
  {
    hide TimersMatch, PromisesMatch, Inverse, HistoryMatches, SetAssociation, EntriesMatch;
    if t != "" && c != "" && t !in s.terminal.entries {
      SetAssociationKeeps(s, t, c);
      if t in s.pending {
        ConnectingKeepsMatches(s, t, c);
      }
    }
  }

  lemma ConnectingKeepsMatches(s: State, t: string, c: string)
    requires TimersMatch(s.pending, s.timers, s.timersIssued) && t in s.pending
    requires PromisesMatch(s.pending, s.waiters, Outcomes(s.log))
    requires EntriesMatch(s.pending, s.timersIssued, |s.waiters|) && c != ""
    ensures var known := s.pending[t := s.pending[t].(connection := Some(c))];
      && known.Keys == s.pending.Keys
      && TimersMatch(known, s.timers, s.timersIssued)
      && PromisesMatch(known, s.waiters, Outcomes(s.log))
      && EntriesMatch(known, s.timersIssued, |s.waiters|)
  {
  }

  // ---------- Waiting ----------

  /** `wait` forgetting a task it answers at once: it leaves `buffered` and `preWaitErrors` and becomes terminal. */
  lemma AnsweringKeeps(s: State, t: string)
    requires Inv(s) && (t in s.buffered.entries || t in s.preWaitErrors.entries)
    ensures var next := s.(buffered := Remove(s.buffered, t), preWaitErrors := Remove(s.preWaitErrors, t));
      Inv(Mark(ClearAssociation(next, t, None), t))
  {
    hide TimersMatch, PromisesMatch, Inverse, Held, Recent, Outcomes, Lawful, Mark, ClearAssociation, Remove, Separate;
    RemoveLaw(s.buffered, t);
    RemoveLaw(s.preWaitErrors, t);
    var next := s.(buffered := Remove(s.buffered, t), preWaitErrors := Remove(s.preWaitErrors, t));
    ForgettingLaw(next, t, None, "", []);
    SeparateAfterForgetting(s.pending.Keys, s.buffered.entries.Keys, s.preWaitErrors.entries.Keys,
                            s.terminal.entries.Keys,
                            s.connectionByTask.entries.Keys,
                              Mark(ClearAssociation(next, t, None), t).terminal.entries.Keys, t);
  }

  lemma OpeningKeepsMatches(s: State, t: string, delayMs: int, c: Option<string>)
    requires TimersMatch(s.pending, s.timers, s.timersIssued) && t !in s.pending
    requires PromisesMatch(s.pending, s.waiters, Outcomes(s.log))
    requires EntriesMatch(s.pending, s.timersIssued, |s.waiters|) && c != Some("")
    ensures var grown := s.pending[t := PendingWait(|s.waiters|, s.timersIssued, c)];
      && TimersMatch(grown, s.timers[s.timersIssued := Timer(t, delayMs)], s.timersIssued + 1)
      && PromisesMatch(grown, s.waiters + [t], Outcomes(s.log))
      && EntriesMatch(grown, s.timersIssued + 1, |s.waiters| + 1)
  {
  }

  lemma OpenKeeps(s: State, t: string, delayMs: int, c: Option<string>)
    requires Inv(s) && t != "" && c != Some("")
    requires t !in s.pending && t !in s.buffered.entries && t !in s.preWaitErrors.entries && t !in s.terminal.entries
    ensures Inv(Open(s, t, delayMs, c))
  {
    hide TimersMatch, PromisesMatch, Inverse, HistoryMatches, SetAssociation, EntriesMatch;
    var entry := PendingWait(|s.waiters|, s.timersIssued, c);
    var next := s.(pending := s.pending[t := entry], timers := s.timers[s.timersIssued := Timer(t, delayMs)],
                   timersIssued := s.timersIssued + 1, waiters := s.waiters + [t]);
    OpeningKeepsMatches(s, t, delayMs, c);
    if c.Some? {
      SetAssociationKeeps(next, t, c.value);
    }
  }

  lemma WaitKeeps(s: State, t: string, timeoutMs: Option<real>, explicit: Option<string>)
    requires Inv(s)
    ensures Inv(WaitTask(s, t, timeoutMs, explicit).0)
  {
    hide TimersMatch, PromisesMatch, Inverse, HistoryMatches, SetAssociation, Mark;
    if t == "" {
    } else if t in s.preWaitErrors.entries {
      AnsweringKeeps(s, t);
      assert Remove(s.buffered, t) == s.buffered;
    } else if t in s.terminal.entries {
    } else if t in s.buffered.entries {
      AnsweringKeeps(s, t);
    } else if t !in s.pending {
      OpenKeeps(s, t, AtLeastOne(timeoutMs, s.limits.defaultTimeoutMs), ConnectionFor(s, t, explicit));
    }
  }

  // ---------- Resolving ----------

  lemma BufferLaw(s: State, t: string, result: TaskResult)
    requires HistoryMatches(s.log, s.buffered.entries.Keys, s.terminal, s.limits.maxTerminal)
    requires t !in s.buffered.entries && t !in s.terminal.entries && s.limits.maxBuffered >= 1
    ensures var r := Buffer(s, t, result);
      && r == s.(buffered := r.buffered, log := r.log)
      && HistoryMatches(r.log, r.buffered.entries.Keys, s.terminal, s.limits.maxTerminal)
      && Outcomes(r.log) == Outcomes(s.log)
      && r.buffered.entries.Keys <= s.buffered.entries.Keys + {t}
      && |r.buffered.keys| <= s.limits.maxBuffered
      && t in r.buffered.entries && r.buffered.entries[t] == result && t in Held(r.log)
  {
    hide Recent, Lawful, Outcomes;
    var all := Put(s.buffered, t, result);
    var dropped := Older(all.keys, s.limits.maxBuffered);
    HistoryAfter(s.log, Accepted(t));
    HistoryAfterEvictions(s.log + [Accepted(t)], dropped);
    Partition(all.keys, s.limits.maxBuffered);
    var kept := Newest(all.keys, s.limits.maxBuffered);
    assert kept[|kept| - 1] == t;
  }

  lemma SeparateAfterBuffering(pending: set<string>, buffered: set<string>, errors: set<string>, terminal: set<string>,
                               buffered': set<string>, t: string)
    requires Separate(pending, buffered, errors, terminal) && t !in pending && t !in terminal &&
      buffered' <= buffered + {t}
    ensures Separate(pending, buffered', errors - {t}, terminal)
  {
  }

  lemma BufferingKeeps(s: State, t: string, result: TaskResult)
    requires Inv(s) && t != "" && t !in s.terminal.entries && t !in s.pending && t !in s.buffered.entries
    ensures Inv(ClearAssociation(Buffer(s.(preWaitErrors := Remove(s.preWaitErrors, t)), t, result), t, None))
  {
    hide TimersMatch, PromisesMatch, Inverse, HistoryMatches, Outcomes, Buffer, ClearAssociation, Remove, Separate;
    RemoveLaw(s.preWaitErrors, t);
    var next := s.(preWaitErrors := Remove(s.preWaitErrors, t));
    BufferLaw(next, t, result);
    var held := Buffer(next, t, result);
    ClearKeepsInverse(held, t, None, "", []);
    ClearFrame(held, t, None);
    SeparateAfterBuffering(s.pending.Keys, s.buffered.entries.Keys, s.preWaitErrors.entries.Keys,
      s.terminal.entries.Keys,
                           held.buffered.entries.Keys, t);
  }

  lemma ClearFrame(s: State, t: string, fallback: Option<string>)
    ensures var r := ClearAssociation(s, t, fallback);
      r == s.(connectionByTask := r.connectionByTask, tasksByConnection := r.tasksByConnection)
  {
  }

  lemma ResolveKeeps(s: State, t: string, result: TaskResult)
    requires Inv(s)
    ensures Inv(ResolveTask(s, t, result).0)
  {
    hide TimersMatch, PromisesMatch, Inverse, HistoryMatches, Close, Buffer, ClearAssociation, Separate, Remove;
    if t == "" || t in s.terminal.entries {
    } else if t in s.pending {
      SettlingKeeps(s, t, true, Fulfilled(result), "", []);
      PendingHasNoError(s, t);
    } else if t !in s.buffered.entries {
      BufferingKeeps(s, t, result);
    }
  }

  lemma PendingHasNoError(s: State, t: string)
    requires Separate(s.pending.Keys, s.buffered.entries.Keys, s.preWaitErrors.entries.Keys, s.terminal.entries.Keys)
    requires t in s.pending
    ensures Remove(s.preWaitErrors, t) == s.preWaitErrors
  {
    RemoveLaw(s.preWaitErrors, t);
  }

  // ---------- Disconnects and timers ----------

  /** The error of a task nobody waited for is kept, and the task becomes terminal. */
  lemma KeepingErrorKeeps(s: State, t: string, c: string, rest: seq<string>)
    requires InvDuring(s, c, rest) && c != "" && t != "" && t !in s.pending && t !in s.buffered.entries
    ensures var kept := KeepNewest(Put(Remove(s.preWaitErrors, t), t, c), s.limits.maxTerminal);
      InvDuring(Mark(ClearAssociation(s.(preWaitErrors := kept), t, None), t), c, Without(rest, t))
  {
    hide TimersMatch, PromisesMatch, Inverse, Held, Recent, Outcomes, Lawful, Mark, ClearAssociation, Separate, Put,
      Remove, KeepNewest, Newest;
    MoveToEndLaw(s.preWaitErrors, t, c);
    var kept := KeepNewest(Put(Remove(s.preWaitErrors, t), t, c), s.limits.maxTerminal);
    var next := s.(preWaitErrors := kept);
    ForgettingLaw(next, t, None, c, rest);
    var r := Mark(ClearAssociation(next, t, None), t);
    SeparateAfterForgetting(s.pending.Keys, s.buffered.entries.Keys, s.preWaitErrors.entries.Keys,
                            s.terminal.entries.Keys,
                            s.connectionByTask.entries.Keys, r.terminal.entries.Keys, t);
    SeparateWithFewerErrors(s.pending.Keys, s.buffered.entries.Keys, s.preWaitErrors.entries.Keys + {t},
      r.terminal.entries.Keys,
                            kept.entries.Keys);
  }

  lemma SeparateWithFewerErrors(pending: set<string>, buffered: set<string>, errors: set<string>,
                                terminal: set<string>, fewer: set<string>)
    requires Separate(pending, buffered, errors, terminal) && fewer <= errors
    ensures Separate(pending, buffered, fewer, terminal)
  {
  }

  lemma RejectTaskKeeps(s: State, c: string, rest: seq<string>)
    requires InvDuring(s, c, rest) && c != "" && rest != []
    ensures InvDuring(RejectTask(s, rest[0], c), c, rest[1..])
  {
    hide TimersMatch, PromisesMatch, HistoryMatches, Close, ClearAssociation, Separate, Mark, Remove, Put, KeepNewest;
    var t := rest[0];
    WithoutFirst(rest);
    assert t in s.connectionByTask.entries;
    if t in s.pending {
      SettlingKeeps(s, t, false, Disconnected(c), c, rest);
      PendingHasNoError(s, t);
    } else if t in s.buffered.entries {
      ClearKeepsInverse(s, t, None, c, rest);
      ClearFrame(s, t, None);
    } else {
      KeepingErrorKeeps(s, t, c, rest);
    }
  }

  lemma WithoutFirst(rest: seq<string>)
    requires rest != [] && Distinct(rest)
    ensures Without(rest, rest[0]) == rest[1..]
  {
    assert rest[0] !in rest[1..];
  }

  lemma {:induction false} RejectTasksKeeps(s: State, c: string, rest: seq<string>)
    requires InvDuring(s, c, rest) && c != ""
    ensures InvDuring(RejectTasks(s, rest, c).0, c, [])
    decreases |rest|
  {
    hide InvDuring, RejectTask;
    if rest != [] {
      RejectTaskKeeps(s, c, rest);
      RejectTasksKeeps(RejectTask(s, rest[0], c), c, rest[1..]);
    }
  }

  /** Taking `c` out of the index leaves its tasks to be rejected. */
  lemma DetachKeeps(s: State, c: string)
    requires Inv(s) && c in s.tasksByConnection
    ensures InvDuring(s.(tasksByConnection := s.tasksByConnection - {c}), c, s.tasksByConnection[c])
  {
    hide TimersMatch, PromisesMatch, HistoryMatches, Separate;
    var index := s.tasksByConnection;
    forall d, t ensures Lists(index - {c}, d, t) <==> Lists(index, d, t) && d != c {
    }
    forall t ensures t in index[c] <==> t in s.connectionByTask.entries && s.connectionByTask.entries[t] == c {
      assert Lists(index, c, t) <==> t in index[c];
    }
  }

  lemma ReattachKeeps(s: State, c: string)
    requires InvDuring(s, c, [])
    ensures Inv(s)
  {
    hide TimersMatch, PromisesMatch, HistoryMatches, Separate;
    forall d, t ensures Lists(s.tasksByConnection, d, t) <==>
      t in s.connectionByTask.entries && s.connectionByTask.entries[t] == d && d != "" {
      assert d == "" ==> !Lists(s.tasksByConnection, d, t);
    }
    forall t | t in s.connectionByTask.entries ensures s.connectionByTask.entries[t] != "" {
      assert !Lists(s.tasksByConnection, "", t);
    }
  }

  lemma RejectConnectionKeeps(s: State, c: string)
    requires Inv(s)
    ensures Inv(RejectConnection(s, c).0)
  {
    hide InvDuring, RejectTasks;
    if c != "" && c in s.tasksByConnection && s.tasksByConnection[c] != [] {
      DetachKeeps(s, c);
      RejectTasksKeeps(s.(tasksByConnection := s.tasksByConnection - {c}), c, s.tasksByConnection[c]);
      ReattachKeeps(RejectConnection(s, c).0, c);
    }
  }

  lemma FireTimerKeeps(s: State, timer: nat)
    requires Inv(s) && timer in s.timers
    ensures var t := s.timers[timer].task;
      && t in s.pending && s.pending[t].timer == timer
      && FireTimer(s, timer) == Settle(Close(s, t), s.pending[t].promise, TimedOut)
      && Inv(FireTimer(s, timer))
  {
    hide PromisesMatch, HistoryMatches, Separate, Inverse, Mark, ClearAssociation;
    var t := s.timers[timer].task;
    SettlingKeeps(s, t, false, TimedOut, "", []);
  }

  lemma StepKeeps(s: State, op: Op)
    requires Inv(s)
    ensures Inv(Step(s, op).0)
  {
    hide InvDuring, AssociateTask, WaitTask, ResolveTask, RejectConnection, FireTimer, Trim;
    match op
    case Associate(t, c) => AssociateKeeps(s, Trim(t), Trim(c));
    case Wait(t, ms, c) => WaitKeeps(s, Trim(t), ms, if c.Some? then Some(Trim(c.value)) else None);
    case Resolve(t, result) => ResolveKeeps(s, Trim(t), result);
    case RejectAll(c) => RejectConnectionKeeps(s, Trim(c));
    case TimerFires(timer) => if timer in s.timers { FireTimerKeeps(s, timer); }
  }

  lemma InitialInv(limits: Limits)
    requires limits.maxBuffered >= 1 && limits.maxTerminal >= 1 && limits.maxAssociations >= 1
    ensures Inv(Initial(limits))
  {
    assert Recent([]) == [] && Held([]) == {} && Outcomes([]) == map[];
  }

  lemma {:induction false} RunKeeps(s: State, ops: seq<Op>)
    requires Inv(s)
    ensures Inv(Run(s, ops))
    decreases |ops|
  {
    hide Inv, Step;
    if ops != [] {
      StepKeeps(s, ops[0]);
      RunKeeps(Step(s, ops[0]).0, ops[1..]);
    }
  }
}
