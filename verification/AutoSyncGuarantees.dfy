/** What holds of the auto-sync manager in every run. */
module AutoSyncGuarantees {
  import opened AutoSyncDelays
  import opened AutoSyncModel
  import opened InsertionOrder
  import opened Wrappers

  // ---------- Counting failures ----------

  /** Position `i` is a failure of `id` after its last success and the last reconnect. */
  predicate IsRecentFailure(history: seq<Event>, id: string, i: int) {
    0 <= i < |history| && history[i] == Failed(id)
    && forall j :: i < j < |history| ==> history[j] != Succeeded(id) && history[j] != Reconnected
  }

  function RecentFailures(history: seq<Event>, id: string): set<int> {
    set i | 0 <= i < |history| && IsRecentFailure(history, id, i)
  }

  /** `e` ends the failures of `id` so far. */
  predicate Clears(e: Event, id: string) {
    e == Succeeded(id) || e == Reconnected
  }

  lemma RecentFailureAfter(history: seq<Event>, e: Event, id: string, i: int)
    ensures IsRecentFailure(history + [e], id, i) <==>
      (i == |history| && e == Failed(id)) || (IsRecentFailure(history, id, i) && !Clears(e, id))
  {
    var grown := history + [e];
    if 0 <= i < |history| {
      assert grown[i] == history[i] && grown[|history|] == e;
      if IsRecentFailure(grown, id, i) {
        forall j | i < j < |history| ensures history[j] == grown[j] {
        }
      }
    }
  }

  lemma RecentFailuresAfter(history: seq<Event>, e: Event, id: string)
    ensures |RecentFailures(history + [e], id)| ==
      if e == Failed(id) then |RecentFailures(history, id)| + 1
      else if Clears(e, id) then 0
      else |RecentFailures(history, id)|
  {
    hide IsRecentFailure;
    var past, all := RecentFailures(history, id), RecentFailures(history + [e], id);
    RecentIsInside(history, id);
    RecentIsInside(history + [e], id);
    forall i ensures i in all <==> (i == |history| && e == Failed(id)) || (i in past && !Clears(e, id)) {
      RecentFailureAfter(history, e, id, i);
    }
    if e == Failed(id) {
      assert all == past + {|history|};
    } else if Clears(e, id) {
      assert all == {};
    } else {
      assert all == past;
    }
  }

  lemma RecentIsInside(history: seq<Event>, id: string)
    ensures forall i :: IsRecentFailure(history, id, i) ==> 0 <= i < |history|
  {
  }

  // ---------- The invariant ----------

  /** The tasks whose `run` ever threw instead of returning a promise. */
  function HaveThrown(history: seq<Event>): set<string> {
    set e | e in history && e.Threw? :: e.task
  }

  /** A promise is stored for the tasks in flight and for those that ever threw, of which none is in
      flight; and exactly the tasks in flight have an execution, each one. */
  ghost predicate FlightsMatch(tasks: map<string, TaskState>, promises: set<string>, executions: multiset<string>,
                               threw: set<string>) {
    && threw <= promises
    && (forall id :: id in promises && id !in threw <==> id in tasks && tasks[id].inFlight)
    && executions == multiset(promises - threw)
  }

  ghost predicate CountsMatch(tasks: map<string, TaskState>, history: seq<Event>) {
    forall id :: id in tasks ==> tasks[id].consecutiveFailures == |RecentFailures(history, id)|
  }

  ghost predicate Inv(s: State) {
    && Distinct(s.ids)
    && (forall id :: id in s.ids <==> id in s.tasks)
    && FlightsMatch(s.tasks, s.promises, s.executions, HaveThrown(s.history))
    && s.isSyncing == SomeInFlight(s.tasks)
    && CountsMatch(s.tasks, s.history)
  }

  lemma InitialInv(settings: Settings, ids: seq<string>)
    requires Distinct(ids)
    ensures Inv(Initial(settings, ids))
  {
  }

  lemma RunTaskKeeps(s: State, id: string, m: Moment)
    requires Inv(s)
    ensures Inv(RunTask(s, id, m))
  {
    hide RecentFailures, SomeInFlight, SuccessDelay, CountsMatch, Distinct, HaveThrown, RunThrowingTask, FlightsMatch;
    if id !in s.promises && id in s.tasks {
      if id !in m.enabled {
        var r := RunTask(s, id, m);
        FlightsUnchanged(s.tasks, r.tasks, s.promises, s.executions, HaveThrown(s.history));
        SyncingUnchanged(s.tasks, r.tasks);
        CountsUnchanged(s.tasks, r.tasks, s.history);
      } else if id in m.throws {
        ThrowingKeeps(s, id, m);
      } else {
        StartingKeeps(s, id, m);
      }
    }
  }

  lemma FlightsUnchanged(a: map<string, TaskState>, b: map<string, TaskState>, promises: set<string>,
                         executions: multiset<string>,
                         threw: set<string>)
    requires FlightsMatch(a, promises, executions, threw)
    requires a.Keys == b.Keys && forall id :: id in a ==> a[id].inFlight == b[id].inFlight
    ensures FlightsMatch(b, promises, executions, threw)
  {
    assert forall id :: id in a <==> id in b;
  }

  lemma StartingKeeps(s: State, id: string, m: Moment)
    requires Inv(s) && id in s.tasks && id !in s.promises && id in m.enabled && id !in m.throws
    ensures Inv(RunTask(s, id, m))
  {
    hide RecentFailures, SomeInFlight, CountsMatch, Distinct, HaveThrown;
    var r, threw := RunTask(s, id, m), HaveThrown(s.history);
    CountsCarryOver(s.tasks, r.tasks, s.history, Started(id, m.now));
    ThrownAfter(s.history, Started(id, m.now));
    assert s.promises + {id} - threw == s.promises - threw + {id};
    assert multiset(s.promises - threw + {id}) == multiset(s.promises - threw) + multiset{id};
  }

  lemma ThrownAfter(history: seq<Event>, e: Event)
    ensures HaveThrown(history + [e]) == HaveThrown(history) + if e.Threw? then {e.task} else {}
  {
  }

  lemma ThrowingKeeps(s: State, id: string, m: Moment)
    requires Inv(s) && id in s.tasks && id !in s.promises && id in m.throws
    ensures Inv(RunThrowingTask(s, id, m))
  {
    hide RecentFailures, SomeInFlight, CountsMatch, Distinct, HaveThrown, BackoffDelay;
    var r, threw := RunThrowingTask(s, id, m), HaveThrown(s.history);
    var begun := s.history + [Started(id, m.now)];
    var failed := begun + [Failed(id)];
    CountsCarryOver(s.tasks, s.tasks, s.history, Started(id, m.now));
    CountsAfterSettling(s.tasks, id, r.tasks[id], begun, true);
    CountsCarryOver(r.tasks, r.tasks, failed, Threw(id));
    ThrownAfter(s.history, Started(id, m.now));
    ThrownAfter(begun, Failed(id));
    ThrownAfter(failed, Threw(id));
    assert r.history == failed + [Threw(id)];
    assert s.promises + {id} - (threw + {id}) == s.promises - threw;
  }

  lemma CountsUnchanged(a: map<string, TaskState>, b: map<string, TaskState>, history: seq<Event>)
    requires CountsMatch(a, history) && a.Keys == b.Keys
    requires forall id :: id in a ==> a[id].consecutiveFailures == b[id].consecutiveFailures
    ensures CountsMatch(b, history)
  {
    hide RecentFailures;
    assert forall id :: id in b ==> id in a;
  }

  lemma CountsCarryOver(a: map<string, TaskState>, b: map<string, TaskState>, history: seq<Event>, e: Event)
    requires CountsMatch(a, history) && a.Keys == b.Keys && (e.Started? || e.Threw?)
    requires forall id :: id in a ==> a[id].consecutiveFailures == b[id].consecutiveFailures
    ensures CountsMatch(b, history + [e])
  {
    hide RecentFailures;
    forall id | id in b ensures b[id].consecutiveFailures == |RecentFailures(history + [e], id)| {
      assert id in a;
      RecentFailuresAfter(history, e, id);
    }
  }

  /** A settled execution counts as a failure, or clears the failures, of its own task. */
  lemma CountsAfterSettling(tasks: map<string, TaskState>, id: string, next: TaskState, history: seq<Event>,
                            failed: bool)
    requires CountsMatch(tasks, history) && id in tasks
    requires next.consecutiveFailures == if failed then tasks[id].consecutiveFailures + 1 else 0
    ensures CountsMatch(tasks[id := next], history + [if failed then Failed(id) else Succeeded(id)])
  {
    hide RecentFailures;
    forall other {
      RecentFailuresAfter(history, if failed then Failed(id) else Succeeded(id), other);
    }
  }

  lemma SyncingUnchanged(a: map<string, TaskState>, b: map<string, TaskState>)
    requires a.Keys == b.Keys && forall id :: id in a ==> a[id].inFlight == b[id].inFlight
    ensures SomeInFlight(a) == SomeInFlight(b)
  {
    assert forall id :: id in a <==> id in b;
  }

  lemma {:induction false} RunTasksKeeps(s: State, ids: seq<string>, m: Moment)
    requires Inv(s)
    ensures Inv(RunTasks(s, ids, m))
  {
    hide Inv, RunTask;
    if ids != [] {
      RunTasksKeeps(s, ids[..|ids| - 1], m);
      RunTaskKeeps(RunTasks(s, ids[..|ids| - 1], m), ids[|ids| - 1], m);
    }
  }

  lemma ResetKeeps(s: State, now: real)
    requires Inv(s)
    ensures Inv(ResetFailures(s, now))
  {
    hide RecentFailures, HaveThrown;
    forall id {
      RecentFailuresAfter(s.history, Reconnected, id);
    }
    ThrownAfter(s.history, Reconnected);
    SyncingUnchanged(s.tasks, ResetFailures(s, now).tasks);
  }

  lemma CompleteKeeps(s: State, id: string, error: Option<string>, m: Moment)
    requires Inv(s) && id in s.tasks && id in s.executions
    ensures Inv(CompleteTask(s, id, error, m))
  {
    hide RecentFailures, BackoffDelay, SuccessDelay, CountsMatch, Distinct, SomeInFlight, HaveThrown;
    var r, threw := CompleteTask(s, id, error, m), HaveThrown(s.history);
    CountsAfterSettling(s.tasks, id, r.tasks[id], s.history, error.Some?);
    ThrownAfter(s.history, if error.None? then Succeeded(id) else Failed(id));
    assert id in s.promises - threw;
    assert s.promises - {id} - threw == s.promises - threw - {id};
    assert multiset(s.promises - threw - {id}) == multiset(s.promises - threw) - multiset{id};
  }

  lemma StepKeeps(s: State, op: Op)
    requires Inv(s) && Enabled(s, op)
    ensures Inv(Step(s, op))
  {
    hide RunTasks, Eligible, ResetFailures, CompleteTask, RecentFailures;
    match op
    case Tick(m) => RunTasksKeeps(s.(lastRunAt := Some(m.now)), Eligible(s.tasks, s.ids, false, m.now), m);
    case Connect(m) =>
      var reset := ResetFailures(s, m.now);
      ResetKeeps(s, m.now);
      RunTasksKeeps(reset.(lastRunAt := Some(m.now)), Eligible(reset.tasks, reset.ids, true, m.now), m);
    case Manual(m) =>
      RunTasksKeeps(s.(lastManualAt := Some(m.now), lastRunAt := Some(m.now)), Eligible(s.tasks, s.ids, true, m.now),
        m);
    case Complete(id, error, m) => CompleteKeeps(s, id, error, m);
  }

  lemma {:induction false} RunKeeps(s: State, ops: seq<Op>)
    requires Inv(s) && Possible(s, ops)
    ensures Inv(Run(s, ops))
    decreases |ops|
  {
    hide Inv, Step;
    if ops != [] {
      StepKeeps(s, ops[0]);
      RunKeeps(Step(s, ops[0]), ops[1..]);
    }
  }

  /** At every step boundary of every run: a promise is stored for a task exactly while it is in flight or
      after its `run` threw; a task in flight has one execution and any other has none; syncing exactly when some
      task is in flight; and failure counts that count the failures since the last success or reconnect. */
  lemma EveryRunIsConsistent(settings: Settings, ids: seq<string>, ops: seq<Op>)
    requires Distinct(ids) && Possible(Initial(settings, ids), ops)
    ensures var s := Run(Initial(settings, ids), ops);
      && (forall id :: id in s.tasks <==> id in ids)
      && (forall id :: id in s.tasks ==> (id in s.promises <==> s.tasks[id].inFlight || id in HaveThrown(s.history)))
      && (forall id :: s.executions[id] == if id in s.tasks && s.tasks[id].inFlight then 1 else 0)
      && (s.isSyncing <==> exists id :: id in s.tasks && s.tasks[id].inFlight)
      && (forall id :: id in s.tasks ==> s.tasks[id].consecutiveFailures == |RecentFailures(s.history, id)|)
  {
    hide RecentFailures, Step, HaveThrown;
    InitialInv(settings, ids);
    RunKeeps(Initial(settings, ids), ops);
    IdsStay(Initial(settings, ids), ops);
  }

  /** Tasks are marked in flight exactly when their promises are stored, and syncing means that a promise is,
      exactly as long as every call of `run` returned a promise. */
  lemma FlightsMatchPromisesExactly(s: State)
    requires Inv(s)
    ensures (forall id :: id in s.promises <==> id in s.tasks && s.tasks[id].inFlight) <==> HaveThrown(s.history) == {}
    ensures HaveThrown(s.history) == {} ==> (s.isSyncing <==> s.promises != {})
  {
    hide RecentFailures, HaveThrown;
    if id :| id in HaveThrown(s.history) {
      assert id in s.promises;
    }
    if s.promises != {} {
      var id :| id in s.promises;
      assert (id in s.tasks && s.tasks[id].inFlight) || id in HaveThrown(s.history);
    }
  }

  lemma {:induction false} RunTasksFrame(s: State, ids: seq<string>, m: Moment)
    ensures var r := RunTasks(s, ids, m);
      r.ids == s.ids && r.settings == s.settings && r.tasks.Keys == s.tasks.Keys
  {
    hide UpdateIsSyncing, SuccessDelay;
    if ids != [] {
      RunTasksFrame(s, ids[..|ids| - 1], m);
      RunTaskFrame(RunTasks(s, ids[..|ids| - 1], m), ids[|ids| - 1], m);
    }
  }

  lemma RunTaskFrame(s: State, id: string, m: Moment)
    ensures var r := RunTask(s, id, m);
      && r.ids == s.ids && r.settings == s.settings && r.tasks.Keys == s.tasks.Keys
      && (forall other :: other in s.tasks && other != id ==> r.tasks[other] == s.tasks[other])
  {
  }

  lemma {:induction false} IdsStay(s: State, ops: seq<Op>)
    requires Possible(s, ops)
    ensures Run(s, ops).ids == s.ids && Run(s, ops).settings == s.settings
    decreases |ops|
  {
    hide RunTasks, Eligible;
    if ops != [] {
      var m, op := ops[0].at, ops[0];
      RunTasksFrame(s.(lastRunAt := Some(m.now)), Eligible(s.tasks, s.ids, false, m.now), m);
      var reset := ResetFailures(s, m.now);
      RunTasksFrame(reset.(lastRunAt := Some(m.now)), Eligible(reset.tasks, reset.ids, true, m.now), m);
      RunTasksFrame(s.(lastManualAt := Some(m.now), lastRunAt := Some(m.now)), Eligible(s.tasks, s.ids, true, m.now),
        m);
      IdsStay(Step(s, ops[0]), ops[1..]);
    }
  }

  // ---------- Backoff ----------

  /** The n-th failure in a row schedules the next attempt for the interval doubled n - 1 times, or for the cap if that
      is less, moved by the jitter fraction at most, plus one half for rounding. */
  lemma BackoffWithinJitter(s: State, id: string, error: string, m: Moment)
    requires Inv(s) && Enabled(s, Complete(id, Some(error), m))
    requires s.settings.intervalMs >= 0.0 && s.settings.backoffCapMs >= 0.0 && 0.0 <= Draw(m, id) <= 1.0
    ensures var r, c := Step(s, Complete(id, Some(error), m)), s.settings;
      var n := |RecentFailures(r.history, id)|;
      && n >= 1 && id in r.tasks && r.tasks[id].nextAttemptAt.Some?
      && var base := Smaller(c.backoffCapMs, Doubled(c.intervalMs, n - 1));
        var delay := r.tasks[id].nextAttemptAt.value - m.now;
        && delay >= 0.0
        && (c.jitterPct <= 0.0 ==> delay == base)
        && (c.jitterPct > 0.0 ==> base - base * c.jitterPct - 0.5 <= delay <= base + base * c.jitterPct + 0.5)
  {
    hide RecentFailures, IsJittered, Step;
    FailureSchedulesBackoff(s, id, error, m);
    var r := Step(s, Complete(id, Some(error), m));
    var n := |RecentFailures(r.history, id)|;
    DoubledGrows(s.settings.intervalMs, n - 1);
    JitteredWithin(s.settings, Backoff(s.settings, n), Draw(m, id), r.tasks[id].nextAttemptAt.value - m.now);
  }

  // ---------- No early restart ----------

  /** `id` rests until `due`. */
  predicate Resting(s: State, id: string, due: real) {
    id in s.tasks && !s.tasks[id].inFlight && s.tasks[id].nextAttemptAt == Some(due)
  }

  /** A failure puts the task to rest, for the jittered delay that its count of recent failures calls for. */
  lemma FailureSchedulesBackoff(s: State, id: string, error: string, m: Moment)
    requires Inv(s) && Enabled(s, Complete(id, Some(error), m))
    ensures var r, c := Step(s, Complete(id, Some(error), m)), s.settings;
      var n := |RecentFailures(r.history, id)|;
      && n >= 1 && id in r.tasks && r.tasks[id].nextAttemptAt.Some?
      && Resting(r, id, r.tasks[id].nextAttemptAt.value)
      && IsJittered(c, Smaller(c.backoffCapMs, Doubled(c.intervalMs, n - 1)), Draw(m, id),
                    r.tasks[id].nextAttemptAt.value - m.now)
  {
    hide RecentFailures, BackoffDelay, IsJittered, Doubled, Smaller;
    RecentFailuresAfter(s.history, Failed(id), id);
    BackoffDelayLaw(s.settings, s.tasks[id].consecutiveFailures + 1, Draw(m, id));
  }

  /** No tick before `due` and no completion touches the task. */
  predicate Early(op: Op, id: string, due: real) {
    (op.Tick? && op.at.now < due) || (op.Complete? && op.id != id)
  }

  lemma {:induction false} NotEligible(tasks: map<string, TaskState>, ids: seq<string>, now: real, id: string)
    requires id in tasks && !IsEligible(tasks[id], false, now)
    ensures id !in Eligible(tasks, ids, false, now)
  {
    if ids != [] {
      NotEligible(tasks, ids[..|ids| - 1], now, id);
    }
  }

  lemma {:induction false} RunTasksSkips(s: State, ids: seq<string>, m: Moment, id: string)
    requires id !in ids && id in s.tasks
    ensures var r := RunTasks(s, ids, m);
      && id in r.tasks && r.tasks[id] == s.tasks[id] && (id in r.promises <==> id in s.promises)
      && s.history <= r.history && NeverStarted(s.history, r.history, id)
  {
    hide RunTask, NeverStarted;
    if ids != [] {
      var front, last := RunTasks(s, ids[..|ids| - 1], m), ids[|ids| - 1];
      RunTasksSkips(s, ids[..|ids| - 1], m, id);
      RunTaskFrame(front, last, m);
      RunTaskSkips(front, last, m, id);
      NeverStartedYet(s.history, front.history, RunTask(front, last, m).history, id);
    } else {
      NothingStarted(s.history, id);
    }
  }

  /** Since the history was `past`, no call of `run` for `id` began. */
  predicate NeverStarted(past: seq<Event>, history: seq<Event>, id: string) {
    forall i :: |past| <= i < |history| && history[i].Started? ==> history[i].task != id
  }

  lemma NothingStarted(history: seq<Event>, id: string)
    ensures NeverStarted(history, history, id)
  {
  }

  lemma NeverStartedYet(past: seq<Event>, most: seq<Event>, history: seq<Event>, id: string)
    requires past <= most <= history && NeverStarted(past, most, id) && NeverStarted(most, history, id)
    ensures NeverStarted(past, history, id)
  {
  }

  lemma RunTaskSkips(s: State, other: string, m: Moment, id: string)
    requires other != id || other in s.promises
    ensures var r := RunTask(s, other, m);
      && s.history <= r.history && NeverStarted(s.history, r.history, id)
      && s.promises <= r.promises && (id in r.promises <==> id in s.promises)
  {
    hide UpdateIsSyncing, BackoffDelay, SuccessDelay;
  }

  /** With no reconnect and no manual sync, ticks before the end of the backoff never start the task. */
  lemma {:induction false} NoEarlyRestart(s: State, id: string, due: real, ops: seq<Op>)
    requires Resting(s, id, due) && Possible(s, ops)
    requires forall op :: op in ops ==> Early(op, id, due)
    ensures var r := Run(s, ops);
      && Resting(r, id, due)
      && s.history <= r.history && NeverStarted(s.history, r.history, id)
    decreases |ops|
  {
    hide Step, NeverStarted, Resting, Early;
    if ops == [] {
      NothingStarted(s.history, id);
    } else {
      var op, next := ops[0], Step(s, ops[0]);
      EarlyStep(s, id, due, op);
      NoEarlyRestart(next, id, due, ops[1..]);
      NeverStartedYet(s.history, next.history, Run(next, ops[1..]).history, id);
    }
  }

  lemma EarlyStep(s: State, id: string, due: real, op: Op)
    requires Resting(s, id, due) && Enabled(s, op) && Early(op, id, due)
    ensures var r := Step(s, op);
      && Resting(r, id, due)
      && s.history <= r.history && NeverStarted(s.history, r.history, id)
  {
    hide RunTasks, Eligible, SuccessDelay, BackoffDelay;
    if op.Tick? && op.at.connected {
      NotEligible(s.tasks, s.ids, op.at.now, id);
      RunTasksSkips(s.(lastRunAt := Some(op.at.now)), Eligible(s.tasks, s.ids, false, op.at.now), op.at, id);
    }
  }

  lemma {:induction false} EligibleListed(tasks: map<string, TaskState>, ids: seq<string>, ignoreBackoff: bool,
                                          now: real)
    ensures forall id :: id in Eligible(tasks, ids, ignoreBackoff, now) <==>
      id in ids && id in tasks && IsEligible(tasks[id], ignoreBackoff, now)
  {
    if ids != [] {
      EligibleListed(tasks, ids[..|ids| - 1], ignoreBackoff, now);
      assert ids == ids[..|ids| - 1] + [ids[|ids| - 1]];
    }
  }

  /** Running a list of tasks stores a promise for each enabled one and forgets none. */
  lemma {:induction false} RunTasksStarts(s: State, ids: seq<string>, m: Moment, id: string)
    requires id in ids && id in s.tasks && id in m.enabled
    ensures var r := RunTasks(s, ids, m);
      && id in r.promises
      && (id in m.throws && id !in s.promises ==> id in HaveThrown(r.history))
  {
    hide RunTask, HaveThrown;
    var front, last := ids[..|ids| - 1], ids[|ids| - 1];
    assert ids == front + [last];
    var most := RunTasks(s, front, m);
    RunTasksFrame(s, front, m);
    RunTaskStarts(most, last, m, id);
    if id in front {
      RunTasksStarts(s, front, m, id);
    } else {
      RunTasksSkips(s, front, m, id);
    }
  }

  lemma RunTaskStarts(s: State, last: string, m: Moment, id: string)
    ensures var r := RunTask(s, last, m);
      && s.promises <= r.promises && HaveThrown(s.history) <= HaveThrown(r.history)
      && (last == id && id in s.tasks && id in m.enabled ==> id in r.promises)
      && (last == id && id in s.tasks && id in m.enabled && id in m.throws && id !in s.promises ==>
        id in HaveThrown(r.history))
  {
    hide UpdateIsSyncing, BackoffDelay, SuccessDelay;
    var r := RunTask(s, last, m);
    if last in s.tasks && last in m.enabled && last in m.throws && last !in s.promises {
      assert Threw(last) in r.history;
    }
  }

  /** A task throws only where the moment says so. */
  lemma {:induction false} OnlyThrowersThrow(s: State, ids: seq<string>, m: Moment)
    ensures HaveThrown(RunTasks(s, ids, m).history) <= HaveThrown(s.history) + m.throws.Keys
  {
    hide RunTask, HaveThrown;
    if ids != [] {
      OnlyThrowersThrow(s, ids[..|ids| - 1], m);
      OnlyThrowerThrows(RunTasks(s, ids[..|ids| - 1], m), ids[|ids| - 1], m);
    }
  }

  lemma OnlyThrowerThrows(s: State, id: string, m: Moment)
    ensures HaveThrown(RunTask(s, id, m).history) <= HaveThrown(s.history) + m.throws.Keys
  {
    hide UpdateIsSyncing, BackoffDelay, SuccessDelay;
  }

  /** The tasks a step goes on to run, and the state it runs them from. */
  function Begun(s: State, op: Op): (State, seq<string>)
    requires !op.Complete?
  {
    var ready := match op
      case Connect(m) => ResetFailures(s, m.now)
      case Manual(m) => s.(lastManualAt := Some(m.now))
      case _ => s;
    (ready.(lastRunAt := Some(op.at.now)), Eligible(ready.tasks, ready.ids, !op.Tick?, op.at.now))
  }

  lemma StepRunsBegun(s: State, op: Op)
    requires !op.Complete? && op.at.connected
    ensures Step(s, op) == RunTasks(Begun(s, op).0, Begun(s, op).1, op.at)
  {
    hide RunTasks, Eligible, ResetTask;
  }

  predicate Due(s: State, op: Op, id: string) {
    && id in s.tasks && !op.Complete? && op.at.connected && id in op.at.enabled
    && (op.Tick? ==> s.tasks[id].nextAttemptAt.None? || s.tasks[id].nextAttemptAt.value <= op.at.now)
  }

  lemma BegunKeepsPromises(s: State, op: Op)
    requires !op.Complete?
    ensures var begun := Begun(s, op).0;
      begun.promises == s.promises && s.history <= begun.history && HaveThrown(begun.history) == HaveThrown(s.history)
    ensures forall id :: NeverStarted(s.history, Begun(s, op).0.history, id)
  {
    hide Eligible, HaveThrown;
    ThrownAfter(s.history, Reconnected);
  }

  lemma DueIsBegun(s: State, op: Op, id: string)
    requires Inv(s) && Due(s, op, id) && !s.tasks[id].inFlight
    ensures var (begun, ids) := Begun(s, op); id in ids && id in begun.tasks
  {
    hide RecentFailures, Eligible, FlightsMatch, CountsMatch;
    var ready := if op.Connect? then ResetFailures(s, op.at.now) else s;
    EligibleListed(ready.tasks, ready.ids, !op.Tick?, op.at.now);
  }

  /** The first tick at or after the end of the backoff does start a task that never threw, if connected and
      enabled; a reconnect or a manual sync starts it at once. */
  lemma DueTaskStarts(s: State, op: Op, id: string)
    requires Inv(s) && Due(s, op, id) && id !in HaveThrown(s.history) && id !in op.at.throws
    ensures var r := Step(s, op);
      id in r.tasks && r.tasks[id].inFlight && r.executions[id] == 1
  {
    hide RecentFailures, HaveThrown, RunTasks, CountsMatch, Begun, Step;
    var (begun, ids) := Begun(s, op);
    StepKeeps(s, op);
    StepRunsBegun(s, op);
    BegunKeepsPromises(s, op);
    RunTasksKeepPromise(begun, ids, op.at, id);
    OnlyThrowersThrow(begun, ids, op.at);
    if !s.tasks[id].inFlight {
      DueIsBegun(s, op, id);
      RunTasksStarts(begun, ids, op.at, id);
    }
  }

  // ---------- What the promise assumption buys ----------

  /** A stored promise is kept, and its task is not started. */
  lemma {:induction false} RunTasksKeepPromise(s: State, ids: seq<string>, m: Moment, id: string)
    ensures var r := RunTasks(s, ids, m);
      && s.history <= r.history
      && (id in s.promises ==> id in r.promises && NeverStarted(s.history, r.history, id))
  {
    hide RunTask, NeverStarted;
    NothingStarted(s.history, id);
    if ids != [] {
      var front, last := RunTasks(s, ids[..|ids| - 1], m), ids[|ids| - 1];
      RunTasksKeepPromise(s, ids[..|ids| - 1], m, id);
      RunTaskGrows(front, last, m, id);
      if id in s.promises {
        NeverStartedYet(s.history, front.history, RunTask(front, last, m).history, id);
      }
    }
  }

  lemma RunTaskGrows(s: State, other: string, m: Moment, id: string)
    ensures var r := RunTask(s, other, m);
      && s.history <= r.history && s.promises <= r.promises
      && (id in s.promises ==> NeverStarted(s.history, r.history, id))
  {
    hide UpdateIsSyncing, BackoffDelay, SuccessDelay;
  }

  lemma ThrownStay(past: seq<Event>, history: seq<Event>)
    requires past <= history
    ensures HaveThrown(past) <= HaveThrown(history)
  {
    forall e | e in past ensures e in history {
      var i :| 0 <= i < |past| && past[i] == e;
      assert history[i] == e;
    }
  }

  lemma WedgedStep(s: State, op: Op, id: string)
    requires Inv(s) && Enabled(s, op) && id in HaveThrown(s.history)
    ensures var r := Step(s, op);
      s.history <= r.history && id in HaveThrown(r.history) && NeverStarted(s.history, r.history, id)
  {
    hide RecentFailures, HaveThrown, CountsMatch, RunTasks, Begun, Step;
    if op.Complete? {
      CompletionStartsNothing(s, op, id);
    } else if op.at.connected {
      var (begun, ids) := Begun(s, op);
      StepRunsBegun(s, op);
      BegunKeepsPromises(s, op);
      RunTasksKeepPromise(begun, ids, op.at, id);
      NeverStartedYet(s.history, begun.history, Step(s, op).history, id);
    } else {
      DisconnectedStartsNothing(s, op, id);
    }
    ThrownStay(s.history, Step(s, op).history);
  }

  lemma CompletionStartsNothing(s: State, op: Op, id: string)
    requires Enabled(s, op) && op.Complete?
    ensures var r := Step(s, op); s.history <= r.history && NeverStarted(s.history, r.history, id)
  {
    hide UpdateIsSyncing, BackoffDelay, SuccessDelay;
  }

  lemma DisconnectedStartsNothing(s: State, op: Op, id: string)
    requires !op.Complete? && !op.at.connected
    ensures var r := Step(s, op); s.history <= r.history && NeverStarted(s.history, r.history, id)
  {
    hide ResetTask;
  }

  /** A task whose `run` once threw synchronously is never in flight and never started again, whatever happens. */
  lemma {:induction false} SynchronousThrowWedgesTask(s: State, id: string, ops: seq<Op>)
    requires Inv(s) && id in HaveThrown(s.history) && Possible(s, ops)
    ensures var r := Run(s, ops);
      && id in r.promises && r.executions[id] == 0 && (id in r.tasks ==> !r.tasks[id].inFlight)
      && s.history <= r.history && NeverStarted(s.history, r.history, id)
    decreases |ops|
  {
    hide Step, RecentFailures, HaveThrown, NeverStarted, CountsMatch, Distinct;
    if ops == [] {
      NothingStarted(s.history, id);
    } else {
      var next := Step(s, ops[0]);
      StepKeeps(s, ops[0]);
      WedgedStep(s, ops[0], id);
      SynchronousThrowWedgesTask(next, id, ops[1..]);
      NeverStartedYet(s.history, next.history, Run(next, ops[1..]).history, id);
    }
  }

  /** One synchronous throw is enough: after the tick, reconnect or manual sync that calls such a `run`, the task has
      a promise stored but no execution, and no later operation of any kind ever starts it again. */
  lemma ThrowLeavesTaskWedged(s: State, op: Op, id: string, ops: seq<Op>)
    requires Inv(s) && Due(s, op, id) && id !in s.promises && id in op.at.throws
    requires Possible(Step(s, op), ops)
    ensures var thrown := Step(s, op);
      var r := Run(thrown, ops);
      && id in HaveThrown(thrown.history)
      && id in r.promises && r.executions[id] == 0 && (id in r.tasks ==> !r.tasks[id].inFlight)
      && NeverStarted(thrown.history, r.history, id)
  {
    hide RecentFailures, HaveThrown, RunTasks, CountsMatch, Begun, Step, NeverStarted, Run, Possible;
    var (begun, ids) := Begun(s, op);
    StepKeeps(s, op);
    StepRunsBegun(s, op);
    BegunKeepsPromises(s, op);
    DueIsBegun(s, op, id);
    RunTasksStarts(begun, ids, op.at, id);
    SynchronousThrowWedgesTask(Step(s, op), id, ops);
  }

  /** `op` calls the `run` of some task, and that call throws. */
  ghost predicate StepThrows(s: State, op: Op) {
    exists id :: Due(s, op, id) && id !in s.promises && id in op.at.throws
  }

  ghost predicate RunThrows(s: State, ops: seq<Op>)
    requires Possible(s, ops)
    decreases |ops|
  {
    ops != [] && (StepThrows(s, ops[0]) || RunThrows(Step(s, ops[0]), ops[1..]))
  }

  /** What running a list of tasks throws: enabled tasks of the list without a stored promise. */
  lemma {:induction false} WhoHasThrown(s: State, ids: seq<string>, m: Moment)
    ensures forall id :: id in HaveThrown(RunTasks(s, ids, m).history) && id !in HaveThrown(s.history) ==>
      id in ids && id in s.tasks && id in m.enabled && id in m.throws && id !in s.promises
  {
    hide RunTask, HaveThrown;
    if ids != [] {
      var front, last := ids[..|ids| - 1], ids[|ids| - 1];
      assert ids == front + [last];
      WhoHasThrown(s, front, m);
      RunTasksFrame(s, front, m);
      WhoThrows(RunTasks(s, front, m), last, m);
      forall id | id in s.promises ensures id in RunTasks(s, front, m).promises {
        RunTasksKeepPromise(s, front, m, id);
      }
    }
  }

  lemma WhoThrows(s: State, last: string, m: Moment)
    ensures forall id :: id in HaveThrown(RunTask(s, last, m).history) && id !in HaveThrown(s.history) ==>
      id == last && id in s.tasks && id in m.enabled && id in m.throws && id !in s.promises
  {
    hide UpdateIsSyncing, BackoffDelay, SuccessDelay;
  }

  lemma BegunIsDue(s: State, op: Op, id: string)
    requires !op.Complete? && op.at.connected && id in op.at.enabled && id in Begun(s, op).1
    ensures Due(s, op, id)
  {
    hide Eligible;
    var ready := if op.Connect? then ResetFailures(s, op.at.now) else s;
    EligibleListed(ready.tasks, ready.ids, !op.Tick?, op.at.now);
  }

  /** A step adds to the tasks that threw exactly when it calls a `run` that throws. */
  lemma StepThrowsExactly(s: State, op: Op)
    requires Inv(s) && Enabled(s, op)
    ensures HaveThrown(s.history) <= HaveThrown(Step(s, op).history)
    ensures HaveThrown(Step(s, op).history) != HaveThrown(s.history) <==> StepThrows(s, op)
  {
    hide HaveThrown, Step, StepThrows, Inv;
    if op.Complete? {
      CompletionThrowsNothing(s, op);
    } else if op.at.connected {
      ConnectedThrowsExactly(s, op);
    } else {
      DisconnectedThrowsNothing(s, op);
    }
  }

  lemma CompletionThrowsNothing(s: State, op: Op)
    requires op.Complete? && Enabled(s, op)
    ensures HaveThrown(Step(s, op).history) == HaveThrown(s.history) && !StepThrows(s, op)
  {
    hide HaveThrown, BackoffDelay, SuccessDelay, UpdateIsSyncing;
    ThrownAfter(s.history, if op.error.None? then Succeeded(op.id) else Failed(op.id));
  }

  lemma DisconnectedThrowsNothing(s: State, op: Op)
    requires !op.Complete? && !op.at.connected
    ensures HaveThrown(Step(s, op).history) == HaveThrown(s.history) && !StepThrows(s, op)
  {
    hide HaveThrown, ResetTask;
    ThrownAfter(s.history, Reconnected);
  }

  lemma ConnectedThrowsExactly(s: State, op: Op)
    requires Inv(s) && !op.Complete? && op.at.connected
    ensures HaveThrown(s.history) <= HaveThrown(Step(s, op).history)
    ensures HaveThrown(Step(s, op).history) != HaveThrown(s.history) <==> StepThrows(s, op)
  {
    hide HaveThrown, RunTasks, Begun, Step, Due, RecentFailures, CountsMatch;
    var (begun, ids) := Begun(s, op);
    var past, r := HaveThrown(s.history), HaveThrown(Step(s, op).history);
    StepRunsBegun(s, op);
    BegunKeepsPromises(s, op);
    RunTasksKeepPromise(begun, ids, op.at, "");
    ThrownStay(begun.history, Step(s, op).history);
    WhoHasThrown(begun, ids, op.at);
    if id :| id in r && id !in past {
      BegunIsDue(s, op, id);
    }
    if StepThrows(s, op) {
      var id :| Due(s, op, id) && id !in s.promises && id in op.at.throws;
      ThrowerIsIdle(s, op, id);
      DueIsBegun(s, op, id);
      RunTasksStarts(begun, ids, op.at, id);
    }
  }

  lemma ThrowerIsIdle(s: State, op: Op, id: string)
    requires Inv(s) && Due(s, op, id) && id !in s.promises
    ensures !s.tasks[id].inFlight && id !in HaveThrown(s.history) && id in op.at.enabled
  {
    hide RecentFailures, HaveThrown;
  }

  lemma {:induction false} RunThrowsExactly(s: State, ops: seq<Op>)
    requires Inv(s) && Possible(s, ops)
    ensures HaveThrown(s.history) <= HaveThrown(Run(s, ops).history)
    ensures HaveThrown(Run(s, ops).history) != HaveThrown(s.history) <==> RunThrows(s, ops)
    decreases |ops|
  {
    hide HaveThrown, Step, Inv, StepThrows;
    if ops != [] {
      StepKeeps(s, ops[0]);
      StepThrowsExactly(s, ops[0]);
      RunThrowsExactly(Step(s, ops[0]), ops[1..]);
    }
  }

  /** After a run, tasks are in flight exactly when their promises are stored, unless the run called
      a `run` that threw instead of returning a promise; and then it is not so. */
  lemma FlightsMatchUnlessRunThrows(settings: Settings, ids: seq<string>, ops: seq<Op>)
    requires Distinct(ids) && Possible(Initial(settings, ids), ops)
    ensures var s := Run(Initial(settings, ids), ops);
      (forall id :: id in s.promises <==> id in s.tasks && s.tasks[id].inFlight) <==>
      !RunThrows(Initial(settings, ids), ops)
  {
    hide HaveThrown, Run, Possible, RunThrows;
    InitialInv(settings, ids);
    RunKeeps(Initial(settings, ids), ops);
    RunThrowsExactly(Initial(settings, ids), ops);
    FlightsMatchPromisesExactly(Run(Initial(settings, ids), ops));
    NothingThrownYet();
  }

  lemma NothingThrownYet()
    ensures HaveThrown([]) == {}
  {
  }
}
