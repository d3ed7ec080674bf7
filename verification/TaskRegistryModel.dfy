/** What each public operation of the task result registry does to its six maps,
    to the timers it armed and to the promises it handed out. The class in
    TaskResultRegistry is proved against these functions. */
module TaskRegistryModel {
  import opened InsertionOrder
  import opened Text
  import opened Wrappers

  datatype TaskResult = TaskResult(ok: bool, body: string)

  datatype Settlement = Fulfilled(result: TaskResult) | TimedOut | Disconnected(connection: string)

  datatype WaitError = TaskIdRequired | NoLongerAvailable | ConnectionLost(connection: string)

  /** What `wait` hands back: a promise already rejected, one already resolved,
      or the promise numbered `promise`, to be settled later. */
  datatype WaitReply = Refused(error: WaitError) | Ready(result: TaskResult) | Awaiting(promise: nat)

  datatype PendingWait = PendingWait(promise: nat, timer: nat, connection: Option<string>)

  /** An armed timer, with the task id its callback captured. */
  datatype Timer = Timer(task: string, delayMs: int)

  /** The registry's history: an id was marked terminal, dropped from `buffered`
      or `terminal` to keep them bounded, or accepted a result; a promise was
      settled. */
  datatype Event = Marked(task: string) | Evicted(task: string) | Accepted(task: string)
                 | Settled(promise: nat, how: Settlement)

  datatype Limits = Limits(defaultTimeoutMs: int, maxBuffered: nat, maxTerminal: nat, maxAssociations: nat)

  datatype State = State(
    limits: Limits,
    pending: map<string, PendingWait>,
    buffered: OrderedMap<TaskResult>,
    preWaitErrors: OrderedMap<string>,
    terminal: OrderedMap<bool>,
    tasksByConnection: map<string, seq<string>>,
    connectionByTask: OrderedMap<string>,
    timers: map<nat, Timer>,
    timersIssued: nat,
    waiters: seq<string>,
    log: seq<Event>)

  function AtLeastOne(requested: Option<real>, default: int): int {
    var n := if requested.Some? then requested.value.Floor else default;
    if n < 1 then 1 else n
  }

  function MakeLimits(timeoutMs: Option<real>, buffered: Option<real>, terminal: Option<real>,
                      associations: Option<real>): Limits {
    var maxTerminal := AtLeastOne(terminal, 50000);
    Limits(AtLeastOne(timeoutMs, 30000), AtLeastOne(buffered, 10000), maxTerminal,
           AtLeastOne(associations, maxTerminal))
  }

  function Initial(limits: Limits): State {
    State(limits, map[], Empty(), Empty(), Empty(), map[], Empty(), map[], 0, [], [])
  }

  // ---------- The two-way task and connection index ----------

  function DropFromIndex(index: map<string, seq<string>>, t: string, c: string): map<string, seq<string>> {
    if c !in index then index
    else
      var rest := Without(index[c], t);
      if rest == [] then index - {c} else index[c := rest]
  }

  function AddToIndex(index: map<string, seq<string>>, t: string, c: string): map<string, seq<string>> {
    var known := if c in index then index[c] else [];
    index[c := if t in known then known else known + [t]]
  }

  function ClearAssociation(s: State, t: string, fallback: Option<string>): State {
    var c := if t in s.connectionByTask.entries then Some(s.connectionByTask.entries[t]) else fallback;
    s.(connectionByTask := Remove(s.connectionByTask, t),
       tasksByConnection := if c.Some? && c.value != "" then DropFromIndex(s.tasksByConnection, t, c.value)
                            else s.tasksByConnection)
  }

  /** Drops the oldest association, and any disconnect error kept for its task. */
  function DropOldestAssociation(s: State): State
    requires s.connectionByTask.keys != []
  {
    var t := s.connectionByTask.keys[0];
    var c := s.connectionByTask.entries[t];
    s.(connectionByTask := Remove(s.connectionByTask, t),
       preWaitErrors := Remove(s.preWaitErrors, t),
       tasksByConnection := if c != "" then DropFromIndex(s.tasksByConnection, t, c) else s.tasksByConnection)
  }

  /** The association `t` to `c` made the newest, before the bound is restored. */
  function Associated(s: State, t: string, c: string): State {
    var prev := Lookup(s.connectionByTask, t);
    var index := if prev.Some? && prev.value != "" && prev.value != c
                 then DropFromIndex(s.tasksByConnection, t, prev.value) else s.tasksByConnection;
    s.(connectionByTask := Put(Remove(s.connectionByTask, t), t, c),
       tasksByConnection := AddToIndex(index, t, c))
  }

  function SetAssociation(s: State, t: string, c: string): State {
    var next := Associated(s, t, c);
    if |next.connectionByTask.keys| > s.limits.maxAssociations then DropOldestAssociation(next) else next
  }

  // ---------- The bounded memories ----------

  function LogEvictions(log: seq<Event>, tasks: seq<string>): seq<Event>
    decreases |tasks|
  {
    if tasks == [] then log else LogEvictions(log + [Evicted(tasks[0])], tasks[1..])
  }

  function Mark(s: State, t: string): State {
    var all := Put(Remove(s.terminal, t), t, true);
    s.(terminal := KeepNewest(all, s.limits.maxTerminal),
       log := LogEvictions(s.log + [Marked(t)], Older(all.keys, s.limits.maxTerminal)))
  }

  function Buffer(s: State, t: string, result: TaskResult): State {
    var all := Put(s.buffered, t, result);
    s.(buffered := KeepNewest(all, s.limits.maxBuffered),
       log := LogEvictions(s.log + [Accepted(t)], Older(all.keys, s.limits.maxBuffered)))
  }

  // ---------- Settling a pending wait ----------

  /** Removes the pending wait of `t` and its timer, forgets its association and marks `t` terminal. */
  function Close(s: State, t: string): State
    requires t in s.pending
  {
    var entry := s.pending[t];
    var open := s.(pending := s.pending - {t}, timers := s.timers - {entry.timer});
    Mark(ClearAssociation(open, t, entry.connection), t)
  }

  function Settle(s: State, promise: nat, how: Settlement): State {
    s.(log := s.log + [Settled(promise, how)])
  }

  // ---------- The public operations, on trimmed ids ----------

  function AssociateTask(s: State, t: string, c: string): State {
    if t == "" || c == "" || t in s.terminal.entries then s
    else
      var next := SetAssociation(s, t, c);
      if t in s.pending && s.pending[t].connection.None? then
        next.(pending := s.pending[t := s.pending[t].(connection := Some(c))])
      else next
  }

  function ConnectionFor(s: State, t: string, explicit: Option<string>): Option<string> {
    if explicit.Some? && explicit.value != "" then explicit
    else
      var known := Lookup(s.connectionByTask, t);
      if known.Some? && known.value != "" then known else None
  }

  /** Arms a timer and records a fresh promise for `t`. */
  function Open(s: State, t: string, delayMs: int, c: Option<string>): State {
    var entry := PendingWait(|s.waiters|, s.timersIssued, c);
    var next := s.(pending := s.pending[t := entry],
                   timers := s.timers[s.timersIssued := Timer(t, delayMs)],
                   timersIssued := s.timersIssued + 1,
                   waiters := s.waiters + [t]);
    if c.Some? then SetAssociation(next, t, c.value) else next
  }

  function WaitTask(s: State, t: string, timeoutMs: Option<real>, explicit: Option<string>): (State, WaitReply) {
    if t == "" then (s, Refused(TaskIdRequired))
    else if t in s.preWaitErrors.entries then
      var next := ClearAssociation(s.(preWaitErrors := Remove(s.preWaitErrors, t)), t, None);
      (Mark(next, t), Refused(ConnectionLost(s.preWaitErrors.entries[t])))
    else if t in s.terminal.entries then (s, Refused(NoLongerAvailable))
    else if t in s.buffered.entries then
      var next := s.(buffered := Remove(s.buffered, t), preWaitErrors := Remove(s.preWaitErrors, t));
      (Mark(ClearAssociation(next, t, None), t), Ready(s.buffered.entries[t]))
    else if t in s.pending then (s, Awaiting(s.pending[t].promise))
    else
      (Open(s, t, AtLeastOne(timeoutMs, s.limits.defaultTimeoutMs), ConnectionFor(s, t, explicit)),
       Awaiting(|s.waiters|))
  }

  function ResolveTask(s: State, t: string, result: TaskResult): (State, bool) {
    if t == "" || t in s.terminal.entries then (s, false)
    else if t in s.pending then
      var accepted := s.(preWaitErrors := Remove(s.preWaitErrors, t), log := s.log + [Accepted(t)]);
      (Settle(Close(accepted, t), s.pending[t].promise, Fulfilled(result)), true)
    else if t in s.buffered.entries then (s, false)
    else
      var next := s.(preWaitErrors := Remove(s.preWaitErrors, t));
      (ClearAssociation(Buffer(next, t, result), t, None), true)
  }

  /** One task of a connection that died: its wait is rejected, a result already
      here stays, and otherwise the error is kept for a later wait. */
  function RejectTask(s: State, t: string, c: string): State {
    if t in s.pending then
      var next := s.(preWaitErrors := Remove(s.preWaitErrors, t));
      Settle(Close(next, t), s.pending[t].promise, Disconnected(c))
    else if t in s.buffered.entries then ClearAssociation(s, t, None)
    else
      var kept := KeepNewest(Put(Remove(s.preWaitErrors, t), t, c), s.limits.maxTerminal);
      Mark(ClearAssociation(s.(preWaitErrors := kept), t, None), t)
  }

  function RejectTasks(s: State, tasks: seq<string>, c: string): (State, nat)
    decreases |tasks|
  {
    if tasks == [] then (s, 0)
    else
      var (next, n) := RejectTasks(RejectTask(s, tasks[0], c), tasks[1..], c);
      (next, n + if tasks[0] in s.pending then 1 else 0)
  }

  function RejectConnection(s: State, c: string): (State, nat) {
    if c == "" || c !in s.tasksByConnection || s.tasksByConnection[c] == [] then (s, 0)
    else
      RejectTasks(s.(tasksByConnection := s.tasksByConnection - {c}), s.tasksByConnection[c], c)
  }

  /** An armed timer goes off. Its callback expires whatever wait its task id has by then. */
  function FireTimer(s: State, timer: nat): State
    requires timer in s.timers
  {
    var t := s.timers[timer].task;
    var fired := s.(timers := s.timers - {timer});
    if t !in s.pending then fired
    else
      var entry := s.pending[t];
      var open := fired.(pending := s.pending - {t});
      Settle(Mark(ClearAssociation(open, t, entry.connection), t), entry.promise, TimedOut)
  }

  // ---------- Runs ----------

  datatype Op =
    | Associate(taskId: string, connectionId: string)
    | Wait(taskId: string, timeoutMs: Option<real>, connection: Option<string>)
    | Resolve(taskId: string, result: TaskResult)
    | RejectAll(connectionId: string)
    | TimerFires(timer: nat)

  datatype Reply = Done | Waited(reply: WaitReply) | Resolved(accepted: bool) | Rejected(count: nat)

  /** One operation on ids as callers pass them. A timer that is not armed never fires. */
  function Step(s: State, op: Op): (State, Reply) {
    match op
    case Associate(t, c) => (AssociateTask(s, Trim(t), Trim(c)), Done)
    case Wait(t, ms, c) =>
      var r := WaitTask(s, Trim(t), ms, if c.Some? then Some(Trim(c.value)) else None);
      (r.0, Waited(r.1))
    case Resolve(t, result) => var r := ResolveTask(s, Trim(t), result); (r.0, Resolved(r.1))
    case RejectAll(c) => var r := RejectConnection(s, Trim(c)); (r.0, Rejected(r.1))
    case TimerFires(timer) => (if timer in s.timers then FireTimer(s, timer) else s, Done)
  }

  function Run(s: State, ops: seq<Op>): State
    decreases |ops|
  {
    if ops == [] then s else Run(Step(s, ops[0]).0, ops[1..])
  }
}
