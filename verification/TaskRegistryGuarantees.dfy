/** What callers of the task result registry may rely on in every reachable state. */
module TaskRegistryGuarantees {
  import opened InsertionOrder
  import opened TaskRegistryInvariant
  import opened TaskRegistryModel
  import opened TaskRegistryRuns
  import opened Text
  import opened Wrappers

  /** Every state that any sequence of operations and timer firings reaches. */
  lemma ReachableInv(timeoutMs: Option<real>, buffered: Option<real>, terminal: Option<real>,
                     associations: Option<real>, ops: seq<Op>)
    ensures Inv(Run(Initial(MakeLimits(timeoutMs, buffered, terminal, associations)), ops))
  {
    hide Inv, Step, Run;
    InitialInv(MakeLimits(timeoutMs, buffered, terminal, associations));
    RunKeeps(Initial(MakeLimits(timeoutMs, buffered, terminal, associations)), ops);
  }

  // ---------- Timers and promises ----------

  /** The timer of wait number `h` is armed exactly while promise `h` is unsettled;
      when it goes off it expires that wait and no other, whatever has happened to
      the task id in between. */
  lemma TimerExpiresItsOwnWait(s: State, h: nat)
    requires Inv(s)
    ensures h in s.timers <==> h < |s.waiters| && h !in Outcomes(s.log)
    ensures h in s.timers ==>
      var t, r := s.waiters[h], Step(s, TimerFires(h)).0;
      && t in s.pending && s.pending[t].promise == h
      && r.pending == s.pending - {t} && r.timers == s.timers - {h}
      && Outcomes(r.log) == Outcomes(s.log)[h := TimedOut]
      && r.buffered == s.buffered && r.preWaitErrors == s.preWaitErrors && t in r.terminal.entries
  {
    hide Outcomes, InvDuring, Mark, ClearAssociation, Close;
    TimersAreUnsettledWaits(s, h);
    if h in s.timers {
      var t := s.timers[h].task;
      FireTimerKeeps(s, h);
      SettlingKeeps(s, t, false, TimedOut, "", []);
      CloseFrame(s, t);
      CloseMarks(s, t);
    }
  }

  lemma TimersAreUnsettledWaits(s: State, h: nat)
    requires Inv(s)
    ensures h in s.timers <==> h < |s.waiters| && h !in Outcomes(s.log)
    ensures h in s.timers ==> s.waiters[h] == s.timers[h].task && s.waiters[h] in s.pending
    ensures h in s.timers ==> s.pending[s.waiters[h]].promise == h == s.pending[s.waiters[h]].timer
    ensures s.limits.maxTerminal >= 1
  {
    hide Outcomes, Inverse, HistoryMatches, Separate;
    if h < |s.waiters| && h !in Outcomes(s.log) {
      assert s.pending[s.waiters[h]].timer == h;
    }
  }

  lemma CloseMarks(s: State, t: string)
    requires t in s.pending && s.limits.maxTerminal >= 1
    ensures t in Close(s, t).terminal.entries
  {
    var all := Put(Remove(s.terminal, t), t, true);
    MoveToEndLaw(s.terminal, t, true);
    var kept := Newest(all.keys, s.limits.maxTerminal);
    assert kept[|kept| - 1] == t;
  }

  lemma {:induction false} LawfulPrefix(log: seq<Event>, n: nat)
    requires Lawful(log) && n <= |log|
    ensures Lawful(log[..n])
    decreases |log| - n
  {
    if n < |log| {
      LawfulPrefix(log, n + 1);
      assert log[..n + 1][..n] == log[..n];
    } else {
      assert log[..n] == log;
    }
  }

  lemma {:induction false} SettledIsRecorded(log: seq<Event>, i: nat)
    requires i < |log| && log[i].Settled?
    ensures log[i].promise in Outcomes(log)
  {
    if i < |log| - 1 {
      SettledIsRecorded(log[..|log| - 1], i);
    }
  }

  /** How a promise ended is what the one settlement of it in the history says. */
  lemma {:induction false} OutcomeIsRecorded(log: seq<Event>, p: nat, how: Settlement)
    requires Lawful(log)
    ensures p in Outcomes(log) && Outcomes(log)[p] == how <==> Settled(p, how) in log
  {
    if log != [] {
      var past, last := log[..|log| - 1], log[|log| - 1];
      OutcomeIsRecorded(past, p, how);
      assert log == past + [last];
    }
  }

  /** No promise is ever settled a second time. */
  lemma SettledAtMostOnce(s: State, i: nat, j: nat)
    requires Inv(s) && i < j < |s.log| && s.log[i].Settled? && s.log[j].Settled?
    ensures s.log[i].promise != s.log[j].promise
  {
    LawfulPrefix(s.log, j + 1);
    assert s.log[..j + 1][..j] == s.log[..j];
    SettledIsRecorded(s.log[..j], i);
  }

  /** Every promise handed out is settled or still held by the pending wait of its task, and
      while it is unsettled every further wait for the task shares it and changes nothing. */
  lemma UnsettledPromiseIsShared(s: State, task: string, ms: Option<real>, c: Option<string>, ops: seq<Op>,
                                 task': string, ms': Option<real>, c': Option<string>)
    requires Inv(s) && Trim(task') == Trim(task)
    requires Step(s, Wait(task, ms, c)).1.reply.Awaiting?
    ensures var (first, reply) := Step(s, Wait(task, ms, c));
      var later, p := Run(first, ops), reply.reply.promise;
      p !in Outcomes(later.log) ==> Step(later, Wait(task', ms', c')) == (later, Waited(Awaiting(p)))
  {
    hide InvDuring, WaitTask, Outcomes, Trim, Run;
    var (first, reply) := Step(s, Wait(task, ms, c));
    var p := reply.reply.promise;
    StepKeeps(s, Wait(task, ms, c));
    WaiterOf(s, Trim(task), ms, if c.Some? then Some(Trim(c.value)) else None);
    RunKeeps(first, ops);
    RunExtends(first, ops);
    if p !in Outcomes(Run(first, ops).log) {
      SharedWait(Run(first, ops), Trim(task), p, task', ms', c');
    }
  }

  lemma WaiterOf(s: State, t: string, ms: Option<real>, c: Option<string>)
    requires Inv(s) && WaitTask(s, t, ms, c).1.Awaiting?
    ensures var (r, reply) := WaitTask(s, t, ms, c);
      t != "" && reply.promise < |r.waiters| && r.waiters[reply.promise] == t
  {
    hide TimersMatch, Separate, HistoryMatches, Inverse, Outcomes, Mark, ClearAssociation, SetAssociation;
    var connection := ConnectionFor(s, t, c);
    if t !in s.pending && connection.Some? {
      var entry := PendingWait(|s.waiters|, s.timersIssued, connection);
      SetAssociationFrame(s.(pending := s.pending[t := entry],
                    timers := s.timers[s.timersIssued := Timer(t, AtLeastOne(ms, s.limits.defaultTimeoutMs))],
                             timersIssued := s.timersIssued + 1, waiters := s.waiters + [t]), t, connection.value);
    }
  }

  lemma SharedWait(s: State, t: string, p: nat, task: string, ms: Option<real>, c: Option<string>)
    requires Inv(s) && Trim(task) == t && t != ""
    requires p < |s.waiters| && s.waiters[p] == t && p !in Outcomes(s.log)
    ensures Step(s, Wait(task, ms, c)) == (s, Waited(Awaiting(p)))
  {
    hide TimersMatch, HistoryMatches, Inverse, Outcomes, Mark, ClearAssociation, SetAssociation, Trim, Open;
    assert t in s.pending && s.pending[t].promise == p;
  }

  // ---------- Hand-over of results ----------

  /** A result for a task somebody waits for settles that wait's promise with it. */
  lemma ResultReachesPendingWait(s: State, task: string, result: TaskResult)
    requires Inv(s) && Trim(task) in s.pending
    ensures var t := Trim(task);
      var (r, reply) := Step(s, Resolve(task, result));
      && reply == Resolved(true)
      && Outcomes(r.log) == Outcomes(s.log)[s.pending[t].promise := Fulfilled(result)]
      && r.pending == s.pending - {t} && r.buffered == s.buffered && r.preWaitErrors == s.preWaitErrors
      && t in r.terminal.entries
  {
    hide TimersMatch, PromisesMatch, Inverse, Held, Recent, Outcomes, Lawful, Close, Separate, Trim, Remove;
    var t := Trim(task);
    SettlingKeeps(s, t, true, Fulfilled(result), "", []);
    PendingHasNoError(s, t);
    PendingIsApart(s, t);
    CloseFrame(s.(log := s.log + [Accepted(t)]), t);
    CloseMarks(s.(log := s.log + [Accepted(t)]), t);
  }

  predicate IsWaitFor(op: Op, t: string) {
    op.Wait? && Trim(op.taskId) == t
  }

  lemma WaitKeepsOtherResults(s: State, u: string, ms: Option<real>, c: Option<string>, t: string)
    requires t in s.buffered.entries && t != u
    ensures var r := WaitTask(s, u, ms, c).0;
      t in r.buffered.entries && r.buffered.entries[t] == s.buffered.entries[t]
  {
    hide Mark, ClearAssociation, SetAssociation;
    if u in s.preWaitErrors.entries {
      var next := s.(preWaitErrors := Remove(s.preWaitErrors, u));
      ClearFrame(next, u, None);
      MarkFrame(ClearAssociation(next, u, None), u);
    } else if u in s.buffered.entries {
      var next := s.(buffered := Remove(s.buffered, u), preWaitErrors := Remove(s.preWaitErrors, u));
      RemoveLaw(s.buffered, u);
      ClearFrame(next, u, None);
      MarkFrame(ClearAssociation(next, u, None), u);
    } else {
      var connection := ConnectionFor(s, u, c);
      if connection.Some? {
        var entry := PendingWait(|s.waiters|, s.timersIssued, connection);
        var timer := Timer(u, AtLeastOne(ms, s.limits.defaultTimeoutMs));
        SetAssociationFrame(s.(pending := s.pending[u := entry],
                               timers := s.timers[s.timersIssued := timer],
                               timersIssued := s.timersIssued + 1, waiters := s.waiters + [u]), u, connection.value);
      }
    }
  }

  lemma ResolveKeepsResults(s: State, u: string, result: TaskResult, t: string)
    requires Inv(s) && t in s.buffered.entries
    ensures var r := ResolveTask(s, u, result).0;
      || (t in r.buffered.entries && r.buffered.entries[t] == s.buffered.entries[t])
      || EvictedSince(s.log, r.log, t)
  {
    hide TimersMatch, PromisesMatch, HistoryMatches, Inverse, ClearAssociation, Close;
    if u in s.pending {
      CloseFrame(s.(preWaitErrors := Remove(s.preWaitErrors, u), log := s.log + [Accepted(u)]), u);
    } else if u != "" && u !in s.terminal.entries && u !in s.buffered.entries {
      var all := Put(s.buffered, u, result);
      var dropped := Older(all.keys, s.limits.maxBuffered);
      var next := s.(preWaitErrors := Remove(s.preWaitErrors, u));
      ClearFrame(Buffer(next, u, result), u, None);
      Partition(all.keys, s.limits.maxBuffered);
      EvictionsExtend(s.log + [Accepted(u)], dropped);
      var log := LogEvictions(s.log + [Accepted(u)], dropped);
      assert EvictedSince(s.log + [Accepted(u)], log, t) ==> EvictedSince(s.log, log, t);
    }
  }

  lemma {:induction false} RejectTasksKeepsResults(s: State, tasks: seq<string>, c: string)
    ensures RejectTasks(s, tasks, c).0.buffered == s.buffered
    decreases |tasks|
  {
    hide Mark, ClearAssociation, Close, KeepNewest, Remove, Put;
    if tasks != [] {
      var t := tasks[0];
      if t in s.pending {
        CloseFrame(s.(preWaitErrors := Remove(s.preWaitErrors, t)), t);
      } else {
        var kept := KeepNewest(Put(Remove(s.preWaitErrors, t), t, c), s.limits.maxTerminal);
        ClearFrame(s, t, None);
        ClearFrame(s.(preWaitErrors := kept), t, None);
        MarkFrame(ClearAssociation(s.(preWaitErrors := kept), t, None), t);
      }
      RejectTasksKeepsResults(RejectTask(s, t, c), tasks[1..], c);
    }
  }

  /** A buffered result survives every operation but a wait for its task, unless it is evicted. */
  lemma BufferedResultSurvives(s: State, t: string, op: Op)
    requires Inv(s) && t in s.buffered.entries && !IsWaitFor(op, t)
    ensures var r := Step(s, op).0;
      || (t in r.buffered.entries && r.buffered.entries[t] == s.buffered.entries[t])
      || EvictedSince(s.log, r.log, t)
  {
    hide TimersMatch, PromisesMatch, HistoryMatches, Inverse, Trim, Mark, ClearAssociation, SetAssociation, Close,
      Remove, KeepNewest, RejectTasks;
    match op
    case Associate(u, c) => SetAssociationFrame(s, Trim(u), Trim(c));
    case Wait(u, ms, c) => WaitKeepsOtherResults(s, Trim(u), ms, if c.Some? then Some(Trim(c.value)) else None, t);
    case Resolve(u, result) => ResolveKeepsResults(s, Trim(u), result, t);
    case RejectAll(raw) =>
      var c := Trim(raw);
      if c in s.tasksByConnection {
        RejectTasksKeepsResults(s.(tasksByConnection := s.tasksByConnection - {c}), s.tasksByConnection[c], c);
      }
    case TimerFires(h) =>
      if h in s.timers {
        FireTimerKeeps(s, h);
        CloseFrame(s, s.timers[h].task);
      }
  }

  lemma {:induction false} BufferedResultSurvivesRun(s: State, t: string, ops: seq<Op>)
    requires Inv(s) && t in s.buffered.entries
    requires forall op :: op in ops ==> !IsWaitFor(op, t)
    ensures var r := Run(s, ops);
      || (t in r.buffered.entries && r.buffered.entries[t] == s.buffered.entries[t])
      || EvictedSince(s.log, r.log, t)
    decreases |ops|
  {
    hide Step, Inv;
    if ops != [] {
      var next := Step(s, ops[0]).0;
      StepKeeps(s, ops[0]);
      StepExtends(s, ops[0]);
      BufferedResultSurvives(s, t, ops[0]);
      RunExtends(next, ops[1..]);
      var r := Run(next, ops[1..]);
      if EvictedSince(s.log, next.log, t) {
        assert EvictedSince(s.log, r.log, t);
      } else {
        BufferedResultSurvivesRun(next, t, ops[1..]);
        assert EvictedSince(next.log, r.log, t) ==> EvictedSince(s.log, r.log, t);
      }
    }
  }

  /** A result that arrives before anyone waits is what the next wait for the task
      gets, unless the bounded buffer had to evict it in between. */
  lemma EarlyResultReachesNextWait(s: State, task: string, result: TaskResult, ops: seq<Op>, task': string,
                                   ms: Option<real>, c: Option<string>)
    requires Inv(s) && Trim(task') == Trim(task) && Trim(task) !in s.pending
    requires forall op :: op in ops ==> !IsWaitFor(op, Trim(task))
    ensures var (first, reply) := Step(s, Resolve(task, result));
      var later := Run(first, ops);
      reply == Resolved(true) ==>
        || Step(later, Wait(task', ms, c)).1 == Waited(Ready(result))
        || EvictedSince(first.log, later.log, Trim(task))
  {
    hide InvDuring, ResolveTask, WaitTask, Run, EvictedSince, Trim, IsWaitFor;
    var t := Trim(task);
    var (first, reply) := Step(s, Resolve(task, result));
    if reply == Resolved(true) {
      StepKeeps(s, Resolve(task, result));
      BufferedAfterResolve(s, t, result);
      BufferedResultSurvivesRun(first, t, ops);
      RunKeeps(first, ops);
      WaitTakesBuffered(Run(first, ops), t, ms, if c.Some? then Some(Trim(c.value)) else None);
    }
  }

  lemma BufferedAfterResolve(s: State, t: string, result: TaskResult)
    requires Inv(s) && t !in s.pending && ResolveTask(s, t, result).1
    ensures var r := ResolveTask(s, t, result).0;
      t in r.buffered.entries && r.buffered.entries[t] == result && t in Held(r.log)
  {
    hide TimersMatch, PromisesMatch, HistoryMatches, Inverse, ClearAssociation, Buffer, Held;
    var next := s.(preWaitErrors := Remove(s.preWaitErrors, t));
    BufferLaw(next, t, result);
    ClearFrame(Buffer(next, t, result), t, None);
  }

  lemma WaitTakesBuffered(s: State, t: string, ms: Option<real>, c: Option<string>)
    requires Inv(s)
    ensures t in s.buffered.entries ==> WaitTask(s, t, ms, c).1 == Ready(s.buffered.entries[t])
  {
    hide TimersMatch, PromisesMatch, HistoryMatches, Inverse, ClearAssociation, Mark, Open;
  }

  // ---------- A result is accepted twice only after an eviction ----------

  lemma {:induction false} HeldUnlessEvicted(past: seq<Event>, log: seq<Event>, t: string)
    requires past <= log && t in Held(past) && !EvictedSince(past, log, t)
    ensures t in Held(log)
    decreases |log|
  {
    if |past| < |log| {
      var most := log[..|log| - 1];
      assert EvictedSince(past, most, t) ==> EvictedSince(past, log, t);
      HeldUnlessEvicted(past, most, t);
      assert log[|log| - 1] != Evicted(t);
    } else {
      assert past == log;
    }
  }

  lemma AcceptedIsHeld(s: State, t: string, result: TaskResult)
    requires Inv(s)
    ensures ResolveTask(s, t, result).1 ==> t in Held(ResolveTask(s, t, result).0.log)
  {
    hide TimersMatch, PromisesMatch, Inverse, Held, Recent, Outcomes, Lawful, Close, Separate, Remove, Buffer,
      ClearAssociation;
    if t in s.pending {
      HistoryAfter(s.log, Accepted(t));
      SettlingKeeps(s, t, true, Fulfilled(result), "", []);
      PendingHasNoError(s, t);
    } else if ResolveTask(s, t, result).1 {
      BufferedAfterResolve(s, t, result);
    }
  }

  lemma HeldIsRefused(s: State, t: string, result: TaskResult)
    requires Inv(s) && t in Held(s.log)
    ensures !ResolveTask(s, t, result).1
  {
    hide TimersMatch, PromisesMatch, Inverse, Held, Recent, Outcomes, Lawful, Close, Buffer, ClearAssociation;
  }

  lemma SecondAcceptNeedsEviction(s: State, task: string, result: TaskResult, ops: seq<Op>, task': string,
                                  result': TaskResult)
    requires Inv(s) && Trim(task') == Trim(task)
    ensures var (first, reply) := Step(s, Resolve(task, result));
      var later := Run(first, ops);
      reply == Step(later, Resolve(task', result')).1 == Resolved(true) ==>
        EvictedSince(first.log, later.log, Trim(task))
  {
    hide InvDuring, ResolveTask, Run, EvictedSince, Trim;
    var t := Trim(task);
    var (first, reply) := Step(s, Resolve(task, result));
    var later := Run(first, ops);
    StepKeeps(s, Resolve(task, result));
    RunKeeps(first, ops);
    RunExtends(first, ops);
    if reply == Resolved(true) && !EvictedSince(first.log, later.log, t) {
      AcceptedIsHeld(s, t, result);
      HeldUnlessEvicted(first.log, later.log, t);
      HeldIsRefused(later, t, result');
    }
  }

  // ---------- Disconnects ----------

  /** The tasks of `rest` that somebody waits for. */
  function Awaited(s: State, rest: seq<string>): set<string> {
    set t | t in rest && t in s.pending
  }

  lemma RejectTaskEffect(s: State, c: string, rest: seq<string>)
    requires InvDuring(s, c, rest) && c != "" && rest != []
    ensures var t, r := rest[0], RejectTask(s, rest[0], c);
      && r.pending == s.pending - {t}
      && r.buffered == s.buffered && r.waiters == s.waiters
      && r.connectionByTask.entries == s.connectionByTask.entries - {t}
      && Outcomes(r.log) ==
        (if t in s.pending then Outcomes(s.log)[s.pending[t].promise := Disconnected(c)] else Outcomes(s.log))
      && (t in s.pending ==> s.pending[t].promise !in Outcomes(s.log))
  {
    hide TimersMatch, PromisesMatch, Inverse, Held, Recent, Outcomes, Lawful, Close, Separate, Mark, ClearAssociation;
    var t := rest[0];
    if t in s.pending {
      SettlingKeeps(s, t, false, Disconnected(c), c, rest);
      PendingHasNoError(s, t);
      CloseFrame(s, t);
    } else if t in s.buffered.entries {
      ClearKeepsInverse(s, t, None, c, rest);
      ClearFrame(s, t, None);
      assert s.pending - {t} == s.pending;
    } else {
      var next := s.(preWaitErrors := KeepNewest(Put(Remove(s.preWaitErrors, t), t, c), s.limits.maxTerminal));
      ClearKeepsInverse(next, t, None, c, rest);
      ClearFrame(next, t, None);
      MarkFrame(ClearAssociation(next, t, None), t);
      MarkKeepsHistory(ClearAssociation(next, t, None), t);
      assert s.pending - {t} == s.pending;
    }
  }

  lemma {:induction false} RejectTasksEffect(s: State, c: string, rest: seq<string>)
    requires InvDuring(s, c, rest) && c != ""
    ensures var (r, n) := RejectTasks(s, rest, c);
      && n == |Awaited(s, rest)|
      && (forall t :: t in r.pending <==> t in s.pending && t !in rest)
      && (forall t :: t in r.pending ==> r.pending[t] == s.pending[t])
      && r.buffered == s.buffered && r.waiters == s.waiters
      && (forall t :: t in r.connectionByTask.entries <==> t in s.connectionByTask.entries && t !in rest)
      && (forall t :: t in r.connectionByTask.entries ==>
        r.connectionByTask.entries[t] == s.connectionByTask.entries[t])
    decreases |rest|
  {
    hide InvDuring, RejectTask, Outcomes;
    if rest != [] {
      var next := RejectTask(s, rest[0], c);
      RejectTaskKeeps(s, c, rest);
      RejectTaskEffect(s, c, rest);
      RejectTasksEffect(next, c, rest[1..]);
      RestIsDistinct(s, c, rest);
      AwaitedStep(s, next, rest);
    }
  }

  lemma {:induction false} RejectTasksSettle(s: State, c: string, rest: seq<string>)
    requires InvDuring(s, c, rest) && c != ""
    ensures var r := RejectTasks(s, rest, c).0;
      && (forall t :: t in Awaited(s, rest) ==> EndsAs(r.log, s.pending[t].promise, Disconnected(c)))
      && (forall p: nat :: p in Outcomes(s.log) ==> EndsAs(r.log, p, Outcomes(s.log)[p]))
    decreases |rest|
  {
    hide InvDuring, RejectTask, Outcomes;
    if rest != [] {
      var t, next := rest[0], RejectTask(s, rest[0], c);
      RejectTaskKeeps(s, c, rest);
      RejectTaskEffect(s, c, rest);
      RejectTasksSettle(next, c, rest[1..]);
      RestIsDistinct(s, c, rest);
      var r := RejectTasks(next, rest[1..], c).0;
      forall p: nat | p in Outcomes(s.log) ensures EndsAs(r.log, p, Outcomes(s.log)[p]) {
        assert p in Outcomes(next.log) && Outcomes(next.log)[p] == Outcomes(s.log)[p];
      }
      forall u | u in Awaited(s, rest) ensures EndsAs(r.log, s.pending[u].promise, Disconnected(c)) {
        if u == t {
          assert s.pending[t].promise in Outcomes(next.log);
        } else {
          assert u in Awaited(next, rest[1..]);
        }
      }
    }
  }

  lemma AwaitedStep(s: State, next: State, rest: seq<string>)
    requires rest != [] && rest[0] !in rest[1..] && next.pending == s.pending - {rest[0]}
    ensures |Awaited(s, rest)| == |Awaited(next, rest[1..])| + if rest[0] in s.pending then 1 else 0
    ensures forall u :: u in Awaited(s, rest) <==> (u == rest[0] && u in s.pending) || u in Awaited(next, rest[1..])
    ensures forall u :: u in rest <==> u == rest[0] || u in rest[1..]
  {
    assert Awaited(s, rest) == Awaited(next, rest[1..]) + (if rest[0] in s.pending then {rest[0]} else {});
  }

  lemma RestIsDistinct(s: State, c: string, rest: seq<string>)
    requires InvDuring(s, c, rest) && rest != []
    ensures rest[0] !in rest[1..]
  {
  }

  lemma AssociatedAreListed(s: State, c: string)
    requires Inv(s)
    ensures forall t :: t in s.connectionByTask.entries && s.connectionByTask.entries[t] == c <==>
      c != "" && Lists(s.tasksByConnection, c, t)
  {
    hide TimersMatch, PromisesMatch, HistoryMatches, Separate;
  }

  lemma NewlySettled(s: State, r: State, hit: set<string>)
    requires PromisesMatch(s.pending, s.waiters, Outcomes(s.log)) &&
      PromisesMatch(r.pending, r.waiters, Outcomes(r.log))
    requires r.waiters == s.waiters && hit <= s.pending.Keys
    requires forall t :: t in r.pending <==> t in s.pending && t !in hit
    requires forall t :: t in r.pending ==> r.pending[t] == s.pending[t]
    ensures forall p: nat :: p in Outcomes(r.log) <==>
      p in Outcomes(s.log) || exists t :: t in hit && s.pending[t].promise == p
  {
    hide Outcomes;
    forall p: nat | p in Outcomes(r.log) && p !in Outcomes(s.log)
      ensures exists t :: t in hit && s.pending[t].promise == p
    {
      assert s.waiters[p] in hit;
    }
  }

  /** The promise `p` was settled with `outcome`. */
  predicate EndsAs(log: seq<Event>, p: nat, outcome: Settlement) {
    p in Outcomes(log) && Outcomes(log)[p] == outcome
  }

  /** A disconnect rejects exactly the pending waits whose task is associated with
      the connection, reports how many, and leaves every other wait, every result
      and every other association alone. */
  lemma DisconnectRejectsExactlyItsWaits(s: State, connectionId: string)
    requires Inv(s)
    ensures var c := Trim(connectionId);
      var byTask := s.connectionByTask.entries;
      var hit := set t | t in s.pending && t in byTask && byTask[t] == c;
      var (r, reply) := Step(s, RejectAll(connectionId));
      && reply == Rejected(|hit|)
      && (forall t :: t in r.pending <==> t in s.pending && t !in hit)
      && (forall t :: t in r.pending ==> r.pending[t] == s.pending[t])
      && (forall p: nat :: p in Outcomes(r.log) <==>
        p in Outcomes(s.log) || exists t :: t in hit && s.pending[t].promise == p)
      && (forall t :: t in hit ==> EndsAs(r.log, s.pending[t].promise, Disconnected(c)))
      && (forall p: nat :: p in Outcomes(s.log) ==> EndsAs(r.log, p, Outcomes(s.log)[p]))
      && r.buffered == s.buffered
      && (forall t :: t in r.connectionByTask.entries <==> t in byTask && byTask[t] != c)
      && (forall t :: t in r.connectionByTask.entries ==> r.connectionByTask.entries[t] == byTask[t])
  {
    hide TimersMatch, PromisesMatch, HistoryMatches, Separate, Inverse, Outcomes, RejectTasks, Trim;
    var c := Trim(connectionId);
    var byTask := s.connectionByTask.entries;
    var hit := set t | t in s.pending && t in byTask && byTask[t] == c;
    AssociatedAreListed(s, c);
    if c != "" && c in s.tasksByConnection {
      var rest := s.tasksByConnection[c];
      var detached := s.(tasksByConnection := s.tasksByConnection - {c});
      DetachKeeps(s, c);
      RejectTasksEffect(detached, c, rest);
      RejectTasksSettle(detached, c, rest);
      assert Awaited(detached, rest) == hit;
      RejectConnectionKeeps(s, c);
      NewlySettled(s, RejectConnection(s, c).0, hit);
    } else {
      assert hit == {};
    }
  }

  // ---------- What the bounded memories remember ----------

  /** The position of the latest marking of `t`, or -1. */
  function LastMark(log: seq<Event>, t: string): int {
    if log == [] then -1
    else if log[|log| - 1] == Marked(t) then |log| - 1
    else LastMark(log[..|log| - 1], t)
  }

  lemma {:induction false} LastMarkBelow(log: seq<Event>, t: string)
    ensures -1 <= LastMark(log, t) < |log|
  {
    if log != [] {
      LastMarkBelow(log[..|log| - 1], t);
    }
  }

  lemma {:induction false} RecentByLastMark(log: seq<Event>)
    ensures Distinct(Recent(log))
    ensures forall t :: t in Recent(log) <==> LastMark(log, t) >= 0
    ensures Ascending(log, Recent(log))
  {
    hide Distinct, Ascending, Without;
    if log == [] {
      NothingRecent();
    } else {
      var past, e := log[..|log| - 1], log[|log| - 1];
      RecentByLastMark(past);
      if e.Marked? {
        WithoutKeepsOrder(past, Recent(past), e.task);
        MarkedBecomesNewest(log, past, Without(Recent(past), e.task), e.task);
      } else {
        SameMarksSameOrder(past, log, Recent(past));
      }
    }
  }

  lemma NothingRecent()
    ensures Distinct<string>([]) && Ascending([], [])
  {
  }

  lemma SameMarksSameOrder(past: seq<Event>, log: seq<Event>, s: seq<string>)
    requires Ascending(past, s) && forall t :: LastMark(log, t) == LastMark(past, t)
    ensures Ascending(log, s)
  {
    hide LastMark;
  }

  lemma MarkedBecomesNewest(log: seq<Event>, past: seq<Event>, kept: seq<string>, t: string)
    requires log != [] && past == log[..|log| - 1] && log[|log| - 1] == Marked(t)
    requires Ascending(past, kept) && Distinct(kept) && t !in kept
    ensures Ascending(log, kept + [t]) && Distinct(kept + [t])
  {
    assert forall i :: 0 <= i < |kept| ==> kept[i] in kept;
    forall u ensures LastMark(past, u) < |log| - 1 {
      LastMarkBelow(past, u);
    }
  }

  ghost predicate Ascending(log: seq<Event>, s: seq<string>) {
    forall i, j :: 0 <= i < j < |s| ==> LastMark(log, s[i]) < LastMark(log, s[j])
  }

  lemma {:induction false} WithoutKeepsOrder(log: seq<Event>, s: seq<string>, x: string)
    requires Ascending(log, s)
    ensures Ascending(log, Without(s, x))
  {
    hide LastMark;
    if s != [] {
      WithoutKeepsOrder(log, s[1..], x);
      var rest := Without(s[1..], x);
      forall j | 0 <= j < |rest| ensures LastMark(log, s[0]) < LastMark(log, rest[j]) {
        assert rest[j] in s[1..];
      }
      if s[0] != x {
        assert Without(s, x) == [s[0]] + rest;
      } else {
        assert Without(s, x) == rest;
      }
    }
  }

  /** `terminal` holds exactly the `maxTerminal` tasks whose latest marking is newest, oldest first. */
  lemma TerminalIsMostRecentlyMarked(s: State)
    requires Inv(s)
    ensures |s.terminal.keys| <= s.limits.maxTerminal
    ensures forall t :: t in s.terminal.entries ==> LastMark(s.log, t) >= 0
    ensures forall t :: LastMark(s.log, t) >= 0 && t !in s.terminal.entries ==>
      && |s.terminal.keys| == s.limits.maxTerminal
      && forall u :: u in s.terminal.entries ==> LastMark(s.log, t) < LastMark(s.log, u)
    ensures Ascending(s.log, s.terminal.keys)
  {
    hide TimersMatch, PromisesMatch, Separate, Inverse, Held, Outcomes, Lawful, Recent, LastMark;
    RecentByLastMark(s.log);
    var all, n := Recent(s.log), s.limits.maxTerminal;
    Partition(all, n);
    WindowIsNewest(s.log, all, n);
  }

  lemma WindowIsNewest(log: seq<Event>, all: seq<string>, n: nat)
    requires Ascending(log, all)
    ensures var window := Newest(all, n);
      && Ascending(log, window)
      && (forall t, u :: t in Older(all, n) && u in window ==> LastMark(log, t) < LastMark(log, u))
      && (Older(all, n) != [] ==> |window| == n)
  {
  }

  /** In every reachable state the two association maps are exact inverses, hold no
      empty set, no terminal task and at most `maxAssociations` tasks. */
  lemma AssociationsAreExactInverses(s: State)
    requires Inv(s)
    ensures forall c, t :: Lists(s.tasksByConnection, c, t) <==>
      t in s.connectionByTask.entries && s.connectionByTask.entries[t] == c
    ensures forall c :: c in s.tasksByConnection ==> s.tasksByConnection[c] != []
    ensures forall t :: t in s.connectionByTask.entries ==> t !in s.terminal.entries
    ensures |s.connectionByTask.keys| <= s.limits.maxAssociations
  {
    hide TimersMatch, PromisesMatch, HistoryMatches, Separate;
    InverseIsNamed(s.connectionByTask.entries, s.tasksByConnection);
  }

  /** In every run no task is in two of the memories, but that a terminal task may have a disconnect
      error kept for it, and every memory stays within its bound. */
  lemma MemoriesStayDisjoint(timeoutMs: Option<real>, buffered: Option<real>, terminal: Option<real>,
                             associations: Option<real>, ops: seq<Op>)
    ensures var limits := MakeLimits(timeoutMs, buffered, terminal, associations);
      var s := Run(Initial(limits), ops);
      && (forall t :: t in s.pending ==>
        t !in s.buffered.entries && t !in s.terminal.entries && t !in s.preWaitErrors.entries)
      && (forall t :: t in s.buffered.entries ==> t !in s.terminal.entries && t !in s.preWaitErrors.entries)
      && |s.buffered.keys| <= limits.maxBuffered && |s.terminal.keys| <= limits.maxTerminal
      && |s.preWaitErrors.keys| <= limits.maxTerminal && |s.connectionByTask.keys| <= limits.maxAssociations
  {
    hide TimersMatch, PromisesMatch, Inverse, Run, Recent, Outcomes, Held, Lawful;
    var limits := MakeLimits(timeoutMs, buffered, terminal, associations);
    ReachableInv(timeoutMs, buffered, terminal, associations, ops);
    InitialInv(limits);
    RunExtends(Initial(limits), ops);
  }
}
