/** The auto-sync manager as a state machine: what each tick, reconnect, manual
    sync and task completion does to the store and to the promises in flight. */
module AutoSyncModel {
  import opened Powers
  import opened Wrappers

  datatype TaskState = TaskState(
    inFlight: bool,
    consecutiveFailures: nat,
    lastSuccessAt: Option<real>,
    lastError: Option<string>,
    nextAttemptAt: Option<real>)

  datatype Settings = Settings(intervalMs: real, backoffCapMs: real, jitterPct: real)

  /** `Threw`: the call of `run` threw instead of returning a promise. */
  datatype Event = Started(task: string, at: real) | Succeeded(task: string) | Failed(task: string)
    | Threw(task: string) | Reconnected

  datatype State = State(
    settings: Settings,
    ids: seq<string>,             // the task ids in registration order
    tasks: map<string, TaskState>,
    lastRunAt: Option<real>,
    lastManualAt: Option<real>,
    isSyncing: bool,
    promises: set<string>,        // the keys of inFlightPromises
    executions: multiset<string>, // the calls of `run` that have not settled yet
    history: seq<Event>)

  /** What one synchronous stretch of code observes: the clock, the connection, which tasks are enabled,
      the random number each task draws, and the errors that calls of `run` throw at once. */
  datatype Moment = Moment(now: real, connected: bool, enabled: set<string>, draws: map<string, real>,
    throws: map<string, string>)

  function Draw(m: Moment, id: string): real {
    if id in m.draws then m.draws[id] else 0.5
  }

  const FRESH_TASK := TaskState(false, 0, None, None, None)

  function Initial(settings: Settings, ids: seq<string>): State {
    State(settings, ids, map id | id in ids :: FRESH_TASK, None, None, false, {}, multiset{}, [])
  }

  // ---------- Delays ----------

  /** Rounds halves up, as the source's runtime does. */
  function Round(x: real): int {
    (x + 0.5).Floor
  }

  function Jitter(baseMs: real, jitterPct: real, signed: real): real {
    baseMs * jitterPct * signed
  }

  function JitteredDelay(c: Settings, baseMs: real, draw: real): real {
    if c.jitterPct <= 0.0 then baseMs
    else
      var signed := draw * 2.0 - 1.0;
      var rounded := Round(baseMs + Jitter(baseMs, c.jitterPct, signed));
      if rounded < 0 then 0.0 else rounded as real
  }

  function CappedBackoff(c: Settings, failures: nat): real {
    var base := c.intervalMs * Power2(if failures == 0 then 0 else failures - 1) as real;
    if c.backoffCapMs < base then c.backoffCapMs else base
  }

  function BackoffDelay(c: Settings, failures: nat, draw: real): real {
    JitteredDelay(c, CappedBackoff(c, failures), draw)
  }

  function SuccessDelay(c: Settings, draw: real): real {
    JitteredDelay(c, c.intervalMs, draw)
  }

  // ---------- Running tasks ----------

  function SomeInFlight(tasks: map<string, TaskState>): bool {
    exists id :: id in tasks && tasks[id].inFlight
  }

  function UpdateIsSyncing(s: State): State {
    s.(isSyncing := SomeInFlight(s.tasks))
  }

  function Failure(c: Settings, t: TaskState, error: string, m: Moment, id: string): TaskState {
    t.(inFlight := false, consecutiveFailures := t.consecutiveFailures + 1, lastError := Some(error),
       nextAttemptAt := Some(m.now + BackoffDelay(c, t.consecutiveFailures + 1, Draw(m, id))))
  }

  /** `run` throws instead of returning a promise: the failure is recorded and the absent promise
      deleted first, and only then is the promise of the finished wrapper stored. */
  function RunThrowingTask(s: State, id: string, m: Moment): State
    requires id in s.tasks && id in m.throws
  {
    UpdateIsSyncing(s.(tasks := s.tasks[id := Failure(s.settings, s.tasks[id], m.throws[id], m, id)]))
    .(promises := s.promises + {id}, history := s.history + [Started(id, m.now), Failed(id), Threw(id)])
  }

  function RunTask(s: State, id: string, m: Moment): State {
    if id in s.promises || id !in s.tasks then s
    else if id !in m.enabled then
      s.(tasks := s.tasks[id :=
        s.tasks[id].(lastError := None, nextAttemptAt := Some(m.now + SuccessDelay(s.settings, Draw(m, id))))])
    else if id in m.throws then RunThrowingTask(s, id, m)
    else
      UpdateIsSyncing(s.(tasks := s.tasks[id := s.tasks[id].(inFlight := true)]))
      .(promises := s.promises + {id}, executions := s.executions + multiset{id},
        history := s.history + [Started(id, m.now)])
  }

  predicate IsEligible(t: TaskState, ignoreBackoff: bool, now: real) {
    !t.inFlight && (ignoreBackoff || t.nextAttemptAt.None? || t.nextAttemptAt.value <= now)
  }

  function Eligible(tasks: map<string, TaskState>, ids: seq<string>, ignoreBackoff: bool, now: real): seq<string> {
    if ids == [] then []
    else
      var id := ids[|ids| - 1];
      Eligible(tasks, ids[..|ids| - 1], ignoreBackoff, now)
      + if id in tasks && IsEligible(tasks[id], ignoreBackoff, now) then [id] else []
  }

  function RunTasks(s: State, ids: seq<string>, m: Moment): State {
    if ids == [] then s else RunTask(RunTasks(s, ids[..|ids| - 1], m), ids[|ids| - 1], m)
  }

  function RunAllEligible(s: State, ignoreBackoff: bool, m: Moment): State {
    if !m.connected then s
    else RunTasks(s.(lastRunAt := Some(m.now)), Eligible(s.tasks, s.ids, ignoreBackoff, m.now), m)
  }

  function ResetTask(t: TaskState, now: real): TaskState {
    t.(consecutiveFailures := 0, lastError := None, nextAttemptAt := Some(now))
  }

  function ResetFailures(s: State, now: real): State {
    s.(tasks := map id | id in s.tasks :: ResetTask(s.tasks[id], now),
       history := s.history + [Reconnected])
  }

  /** An execution of `id` settles: `error` is None when its promise resolved. */
  function CompleteTask(s: State, id: string, error: Option<string>, m: Moment): State
    requires id in s.tasks
  {
    var t := s.tasks[id];
    var next :=
      if error.None? then
        t.(inFlight := false, consecutiveFailures := 0, lastSuccessAt := Some(m.now), lastError := None,
           nextAttemptAt := Some(m.now + SuccessDelay(s.settings, Draw(m, id))))
      else Failure(s.settings, t, error.value, m, id);
    UpdateIsSyncing(s.(tasks := s.tasks[id := next]))
    .(promises := s.promises - {id}, executions := s.executions - multiset{id},
      history := s.history + [if error.None? then Succeeded(id) else Failed(id)])
  }

  // ---------- Runs ----------

  datatype Op =
    | Tick(at: Moment)
    | Connect(at: Moment)
    | Manual(at: Moment)
    | Complete(id: string, error: Option<string>, at: Moment)

  /** Only an execution that is under way can settle. */
  predicate Enabled(s: State, op: Op) {
    op.Complete? ==> op.id in s.tasks && op.id in s.executions
  }

  function Step(s: State, op: Op): State
    requires Enabled(s, op)
  {
    match op
    case Tick(m) => RunAllEligible(s, false, m)
    case Connect(m) => RunAllEligible(ResetFailures(s, m.now), true, m)
    case Manual(m) => if m.connected then RunAllEligible(s.(lastManualAt := Some(m.now)), true, m) else s
    case Complete(id, error, m) => CompleteTask(s, id, error, m)
  }

  predicate Possible(s: State, ops: seq<Op>)
    decreases |ops|
  {
    ops == [] || (Enabled(s, ops[0]) && Possible(Step(s, ops[0]), ops[1..]))
  }

  function Run(s: State, ops: seq<Op>): State
    requires Possible(s, ops)
    decreases |ops|
  {
    if ops == [] then s else Run(Step(s, ops[0]), ops[1..])
  }
}
