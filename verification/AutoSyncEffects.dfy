/** What each step of the auto-sync manager does to the tasks, said of the store
    before and after it. */
module AutoSyncEffects {
  import opened AutoSyncDelays
  import opened AutoSyncGuarantees
  import opened AutoSyncModel
  import opened InsertionOrder
  import opened Wrappers

  /** The next attempt lies a jittered `base` after the moment. */
  predicate Scheduled(c: Settings, t: TaskState, base: real, m: Moment, id: string) {
    t.nextAttemptAt.Some? && IsJittered(c, base, Draw(m, id), t.nextAttemptAt.value - m.now)
  }

  /** One failure more: the backoff is the interval doubled for each failure before, up to the cap. */
  predicate FailsWith(c: Settings, t: TaskState, r: TaskState, error: string, m: Moment, id: string) {
    && Scheduled(c, r, Smaller(c.backoffCapMs, Doubled(c.intervalMs, t.consecutiveFailures)), m, id)
    && r == TaskState(false, t.consecutiveFailures + 1, t.lastSuccessAt, Some(error), r.nextAttemptAt)
  }

  predicate SucceedsAt(c: Settings, r: TaskState, m: Moment, id: string) {
    && Scheduled(c, r, c.intervalMs, m, id)
    && r == TaskState(false, 0, Some(m.now), None, r.nextAttemptAt)
  }

  /** A disabled task is due again an interval later, and its error is forgotten. */
  predicate PassesOver(c: Settings, t: TaskState, r: TaskState, m: Moment, id: string) {
    && Scheduled(c, r, c.intervalMs, m, id)
    && r == TaskState(t.inFlight, t.consecutiveFailures, t.lastSuccessAt, None, r.nextAttemptAt)
  }

  // ---------- Settling ----------

  predicate Settles(s: State, r: State, id: string, error: Option<string>, m: Moment)
    requires id in s.tasks
  {
    && id in r.tasks && r.tasks == s.tasks[id := r.tasks[id]]
    && (if error.None? then SucceedsAt(s.settings, r.tasks[id], m, id)
        else FailsWith(s.settings, s.tasks[id], r.tasks[id], error.value, m, id))
    && r.promises == s.promises - {id} && r.executions == s.executions - multiset{id}
    && r.history == s.history + [if error.None? then Succeeded(id) else Failed(id)]
    && r == s.(tasks := r.tasks, isSyncing := r.isSyncing, promises := r.promises, executions := r.executions,
               history := r.history)
  }

  lemma SettleEffect(s: State, id: string, error: Option<string>, m: Moment)
    requires id in s.tasks
    ensures Settles(s, CompleteTask(s, id, error, m), id, error, m)
  {
    hide IsJittered, SomeInFlight, Doubled, BackoffDelay, SuccessDelay;
    SuccessDelayLaw(s.settings, Draw(m, id));
    BackoffDelayLaw(s.settings, s.tasks[id].consecutiveFailures + 1, Draw(m, id));
  }

  // ---------- One round over the tasks ----------

  /** The round reaches the task: no promise is stored for it, it is idle and, unless delays are ignored, due. */
  predicate Reached(s: State, ignoreBackoff: bool, m: Moment, id: string) {
    && id in s.tasks && id !in s.promises && !s.tasks[id].inFlight
    && (ignoreBackoff || s.tasks[id].nextAttemptAt.None? || s.tasks[id].nextAttemptAt.value <= m.now)
  }

  /** What a round makes of one task: one that it does not reach stays as it is. */
  predicate Rounded(s: State, r: State, ignoreBackoff: bool, m: Moment, id: string) {
    id in s.tasks && id in r.tasks &&
    if !Reached(s, ignoreBackoff, m, id) then r.tasks[id] == s.tasks[id]
    else if id !in m.enabled then PassesOver(s.settings, s.tasks[id], r.tasks[id], m, id)
    else if id in m.throws then FailsWith(s.settings, s.tasks[id], r.tasks[id], m.throws[id], m, id)
    else r.tasks[id] == s.tasks[id].(inFlight := true)
  }

  predicate Starts(s: State, ignoreBackoff: bool, m: Moment, id: string) {
    Reached(s, ignoreBackoff, m, id) && id in m.enabled
  }

  /** The calls of `run` in a round: the reached and enabled tasks in registration order. */
  function Calls(s: State, ids: seq<string>, ignoreBackoff: bool, m: Moment): seq<Event> {
    if ids == [] then []
    else
      var id := ids[|ids| - 1];
      Calls(s, ids[..|ids| - 1], ignoreBackoff, m) +
      if !Starts(s, ignoreBackoff, m, id) then []
      else if id in m.throws then [Started(id, m.now), Failed(id), Threw(id)]
      else [Started(id, m.now)]
  }

  /** A round over the tasks `ids`: only they can change, and only those started have a promise stored. */
  ghost predicate RoundOver(s: State, r: State, ids: seq<string>, ignoreBackoff: bool, m: Moment) {
    && r.tasks.Keys == s.tasks.Keys
    && (forall id :: id in ids && id in s.tasks ==> Rounded(s, r, ignoreBackoff, m, id))
    && (forall id :: id in s.tasks && id !in ids ==> r.tasks[id] == s.tasks[id])
    && (forall id :: id in r.promises <==> id in s.promises || (id in ids && Starts(s, ignoreBackoff, m, id)))
    && r.history == s.history + Calls(s, ids, ignoreBackoff, m)
    && r == s.(tasks := r.tasks, isSyncing := r.isSyncing, promises := r.promises, executions := r.executions,
               history := r.history)
  }

  /** What calling one task does to it and to the history. */
  lemma CallEffect(s: State, id: string, ignoreBackoff: bool, m: Moment)
    requires id in s.tasks && IsEligible(s.tasks[id], ignoreBackoff, m.now)
    ensures var r := RunTask(s, id, m);
      && Rounded(s, r, ignoreBackoff, m, id)
      && r.tasks == s.tasks[id := r.tasks[id]]
      && r.promises == s.promises + (if Starts(s, ignoreBackoff, m, id) then {id} else {})
      && r.history == s.history + (if !Starts(s, ignoreBackoff, m, id) then []
                                   else if id in m.throws then [Started(id, m.now), Failed(id), Threw(id)]
                                   else [Started(id, m.now)])
      && r == s.(tasks := r.tasks, isSyncing := r.isSyncing, promises := r.promises, executions := r.executions,
                 history := r.history)
  {
    hide IsJittered, SomeInFlight, Doubled, Smaller, BackoffDelay, SuccessDelay;
    SuccessDelayLaw(s.settings, Draw(m, id));
    BackoffDelayLaw(s.settings, s.tasks[id].consecutiveFailures + 1, Draw(m, id));
  }

  lemma RoundOverNone(s: State, ignoreBackoff: bool, m: Moment)
    ensures RoundOver(s, s, [], ignoreBackoff, m)
  {
  }

  /** Whether and how a task is reached depends on that task alone. */
  lemma ReachedAlike(s: State, most: State, r: State, ignoreBackoff: bool, m: Moment, id: string)
    requires id in s.tasks && id in most.tasks && most.tasks[id] == s.tasks[id] && most.settings == s.settings
    requires id in most.promises <==> id in s.promises
    ensures Starts(most, ignoreBackoff, m, id) == Starts(s, ignoreBackoff, m, id)
    ensures Rounded(most, r, ignoreBackoff, m, id) ==> Rounded(s, r, ignoreBackoff, m, id)
  {
    hide FailsWith, PassesOver;
  }

  lemma CallsGrow(s: State, front: seq<string>, id: string, ignoreBackoff: bool, m: Moment)
    ensures Calls(s, front + [id], ignoreBackoff, m) == Calls(s, front, ignoreBackoff, m) +
      if !Starts(s, ignoreBackoff, m, id) then []
      else if id in m.throws then [Started(id, m.now), Failed(id), Threw(id)]
      else [Started(id, m.now)]
  {
    hide Starts;
    assert (front + [id])[..|front|] == front;
  }

  lemma StillRounded(s: State, most: State, r: State, ignoreBackoff: bool, m: Moment, other: string)
    requires Rounded(s, most, ignoreBackoff, m, other) && other in r.tasks && r.tasks[other] == most.tasks[other]
    ensures Rounded(s, r, ignoreBackoff, m, other)
  {
    hide FailsWith, PassesOver, Reached;
  }

  /** Adding a task to a round. */
  lemma RoundGrows(s: State, most: State, r: State, front: seq<string>, id: string, ignoreBackoff: bool, m: Moment)
    requires RoundOver(s, most, front, ignoreBackoff, m) && id !in front
    requires if id in s.tasks && IsEligible(s.tasks[id], ignoreBackoff, m.now) then r == RunTask(most, id, m)
             else r == most
    ensures RoundOver(s, r, front + [id], ignoreBackoff, m)
  {
    hide RunTask, Rounded, Starts, Calls;
    assert id in s.tasks <==> id in most.tasks;
    CallsGrow(s, front, id, ignoreBackoff, m);
    if id in s.tasks && IsEligible(s.tasks[id], ignoreBackoff, m.now) {
      CallEffect(most, id, ignoreBackoff, m);
      ReachedAlike(s, most, r, ignoreBackoff, m, id);
    } else {
      PassedBy(s, most, ignoreBackoff, m, id);
    }
    forall other | other in front && other in s.tasks ensures Rounded(s, r, ignoreBackoff, m, other) {
      assert other in r.tasks <==> other in most.tasks;
      StillRounded(s, most, r, ignoreBackoff, m, other);
    }
  }

  lemma PassedBy(s: State, most: State, ignoreBackoff: bool, m: Moment, id: string)
    requires !(id in s.tasks && IsEligible(s.tasks[id], ignoreBackoff, m.now))
    requires id in s.tasks ==> id in most.tasks && most.tasks[id] == s.tasks[id]
    ensures !Starts(s, ignoreBackoff, m, id) && (id in s.tasks ==> Rounded(s, most, ignoreBackoff, m, id))
  {
    hide FailsWith, PassesOver;
  }

  lemma {:induction false} RoundEffect(s: State, ids: seq<string>, ignoreBackoff: bool, m: Moment)
    requires Distinct(ids)
    ensures RoundOver(s, RunTasks(s, Eligible(s.tasks, ids, ignoreBackoff, m.now), m), ids, ignoreBackoff, m)
  {
    hide RoundOver, RunTask, IsEligible;
    if ids == [] {
      RoundOverNone(s, ignoreBackoff, m);
    } else {
      var front, id := ids[..|ids| - 1], ids[|ids| - 1];
      assert ids == front + [id];
      RoundEffect(s, front, ignoreBackoff, m);
      var ready, all := Eligible(s.tasks, front, ignoreBackoff, m.now), Eligible(s.tasks, ids, ignoreBackoff, m.now);
      if id in s.tasks && IsEligible(s.tasks[id], ignoreBackoff, m.now) {
        assert all == ready + [id] && all[..|all| - 1] == ready;
      } else {
        assert all == ready;
      }
      RoundGrows(s, RunTasks(s, ready, m), RunTasks(s, all, m), front, id, ignoreBackoff, m);
    }
  }

  // ---------- Ticks, reconnects and manual syncs ----------

  /** A connected moment is recorded and goes round all tasks; a disconnected one changes nothing. */
  ghost predicate RunsAll(s: State, r: State, ignoreBackoff: bool, m: Moment) {
    if !m.connected then r == s
    else RoundOver(s.(lastRunAt := Some(m.now)), r, s.ids, ignoreBackoff, m)
  }

  /** A reconnect forgets every failure and makes every task due, and goes on from there. */
  ghost predicate Reconnects(s: State, r: State, m: Moment) {
    var reset := s.(tasks := map id | id in s.tasks ::
                      TaskState(s.tasks[id].inFlight, 0, s.tasks[id].lastSuccessAt, None, Some(m.now)),
                    history := s.history + [Reconnected]);
    RunsAll(reset, r, true, m)
  }

  /** A manual sync is recorded only while connected. */
  ghost predicate SyncsAll(s: State, r: State, m: Moment) {
    if !m.connected then r == s else RunsAll(s.(lastManualAt := Some(m.now)), r, true, m)
  }

  lemma RunAllEffect(s: State, ignoreBackoff: bool, m: Moment)
    requires Distinct(s.ids)
    ensures RunsAll(s, RunAllEligible(s, ignoreBackoff, m), ignoreBackoff, m)
  {
    hide RoundOver, RunTasks, Eligible;
    if m.connected {
      RoundEffect(s.(lastRunAt := Some(m.now)), s.ids, ignoreBackoff, m);
    }
  }

  lemma TickEffect(s: State, m: Moment)
    requires Inv(s)
    ensures RunsAll(s, Step(s, Tick(m)), false, m)
  {
    hide RunsAll, RunAllEligible, FlightsMatch, CountsMatch;
    RunAllEffect(s, false, m);
  }

  lemma ReconnectEffect(s: State, m: Moment)
    requires Inv(s)
    ensures Reconnects(s, Step(s, Connect(m)), m)
  {
    hide RunsAll, RunAllEligible, FlightsMatch, CountsMatch;
    RunAllEffect(ResetFailures(s, m.now), true, m);
    assert ResetFailures(s, m.now).tasks == map id | id in s.tasks ::
      TaskState(s.tasks[id].inFlight, 0, s.tasks[id].lastSuccessAt, None, Some(m.now));
  }

  lemma ManualEffect(s: State, m: Moment)
    requires Inv(s)
    ensures SyncsAll(s, Step(s, Manual(m)), m)
  {
    hide RunsAll, RunAllEligible, FlightsMatch, CountsMatch;
    RunAllEffect(s.(lastManualAt := Some(m.now)), true, m);
  }
}
