/** What an association is for: over any run that leaves a task alone, a disconnect
    of its connection still reaches whoever waits for it. */
module TaskRegistryAssociations {
  import opened InsertionOrder
  import opened TaskRegistryEffects
  import opened TaskRegistryGuarantees
  import opened TaskRegistryInvariant
  import opened TaskRegistryModel
  import opened TaskRegistryRuns
  import opened Text
  import opened Wrappers

  /** The operation concerns `t`, which is associated with `c`. */
  predicate Concerns(s: State, op: Op, t: string, c: string) {
    match op
    case Associate(u, _) => Trim(u) == t
    case Wait(u, _, _) => Trim(u) == t
    case Resolve(u, _) => Trim(u) == t
    case RejectAll(d) => Trim(d) == c
    case TimerFires(timer) => timer in s.timers && s.timers[timer].task == t
  }

  ghost predicate LeavesAlone(s: State, ops: seq<Op>, t: string, c: string)
    decreases |ops|
  {
    ops == [] || (!Concerns(s, ops[0], t, c) && LeavesAlone(Step(s, ops[0]).0, ops[1..], t, c))
  }

  /** The operations that may associate some task. */
  function Associating(op: Op): nat {
    if op.Associate? || op.Wait? then 1 else 0
  }

  function AllAssociating(ops: seq<Op>): nat
    decreases |ops|
  {
    if ops == [] then 0 else Associating(ops[0]) + AllAssociating(ops[1..])
  }

  // ---------- One association among the others ----------

  /** `t` keeps its association, with at most `more` newer ones than before; or it had no room left. */
  ghost predicate KeepsPlace(m: OrderedMap<string>, r: OrderedMap<string>, t: string, more: nat, bound: nat) {
    if t in m.entries then
      if t in r.entries then
        r.entries[t] == m.entries[t] && |After(r.keys, t)| <= |After(m.keys, t)| + more
      else more == 1 && |After(m.keys, t)| + 1 >= bound
    else t !in r.entries
  }

  lemma ForgettingKeepsPlace(m: OrderedMap<string>, r: OrderedMap<string>, u: string, t: string, bound: nat)
    requires Forgets(m, r, u) && u != t
    ensures KeepsPlace(m, r, t, 0, bound)
  {
    hide After, Without;
    if t in m.entries {
      KeyIsEntry(m, t);
      AfterWithout(m.keys, u, t);
      WithoutIsNoLonger(After(m.keys, t), u);
    }
  }

  lemma ConnectingKeepsPlace(m: OrderedMap<string>, r: OrderedMap<string>, u: string, c: string, t: string, bound: nat)
    requires BecomesNewest(m, r, u, c, bound) && u != t && bound >= 1 && |m.keys| <= bound
    ensures KeepsPlace(m, r, t, 1, bound)
  {
    hide After, Without, Newest;
    KeyIsEntry(m, t);
    KeyIsEntry(r, t);
    if t in m.entries {
      var others := Without(m.keys, u);
      NewestOfMoved(m.keys, r.keys, u, bound);
      AfterWithout(m.keys, u, t);
      WithoutIsNoLonger(After(m.keys, t), u);
      AfterAppend(others, u, t);
      AfterNewest(others + [u], t, bound);
    } else {
      StrangerIsNotKept(m.keys, r.keys, u, t, bound);
    }
  }

  lemma NewestOfMoved(keys: seq<string>, kept: seq<string>, u: string, bound: nat)
    requires Distinct(keys) && |keys| <= bound && bound >= 1
    requires PushedOut(keys, u, bound) + kept == Without(keys, u) + [u]
    ensures kept == Newest(Without(keys, u) + [u], bound) && Distinct(Without(keys, u) + [u])
  {
    var all := Without(keys, u) + [u];
    WithoutIsNoLonger(keys, u);
    assert kept == all[|PushedOut(keys, u, bound)|..];
  }

  lemma StrangerIsNotKept(keys: seq<string>, kept: seq<string>, u: string, t: string, bound: nat)
    requires PushedOut(keys, u, bound) + kept == Without(keys, u) + [u] && t !in keys && t != u
    ensures t !in kept
  {
    assert t !in Without(keys, u) + [u];
    assert t in kept ==> t in PushedOut(keys, u, bound) + kept;
  }

  /** What happens to `t` while nothing concerns it: its wait stays as it is, no result and no error comes up for it,
      and its association keeps its place but for `more` newer ones. */
  ghost predicate Undisturbed(s: State, r: State, t: string, more: nat) {
    && (t in s.pending <==> t in r.pending) && (t in s.pending ==> r.pending[t] == s.pending[t])
    && (t in r.buffered.entries ==> t in s.buffered.entries)
    && (t in r.preWaitErrors.entries ==> t in s.preWaitErrors.entries)
    && r.limits == s.limits
    && KeepsPlace(s.connectionByTask, r.connectionByTask, t, more, s.limits.maxAssociations)
  }

  lemma NothingKeepsPlace(m: OrderedMap<string>, t: string, more: nat, bound: nat)
    ensures KeepsPlace(m, m, t, more, bound)
  {
  }

  lemma LimitsHold(s: State, gone: string, rest: seq<string>)
    requires InvDuring(s, gone, rest)
    ensures s.limits.maxAssociations >= 1 && |s.connectionByTask.keys| <= s.limits.maxAssociations
    ensures forall u :: u in rest ==> u in s.connectionByTask.entries && s.connectionByTask.entries[u] == gone
  {
  }

  lemma ConnectingUndisturbs(s: State, r: State, u: string, c: string, t: string)
    requires Inv(s) && Connects(s, r, u, c) && u != t && r.limits == s.limits
    requires r.buffered == s.buffered
    requires (t in s.pending <==> t in r.pending) && (t in s.pending ==> r.pending[t] == s.pending[t])
    ensures Undisturbed(s, r, t, 1)
  {
    hide InvDuring, KeepsPlace, BecomesNewest, PushedOut, Indexed, Listed, Relisted;
    LimitsHold(s, "", []);
    ConnectingKeepsPlace(s.connectionByTask, r.connectionByTask, u, c, t, s.limits.maxAssociations);
    KeyIsEntry(s.preWaitErrors, t);
    KeyIsEntry(r.preWaitErrors, t);
  }

  lemma WaitUndisturbs(s: State, r: State, u: string, ms: Option<real>, explicit: Option<string>, reply: WaitReply,
                       t: string)
    requires Inv(s) && Waits(s, r, u, ms, explicit, reply) && u != t
    ensures Undisturbed(s, r, t, 1)
  {
    hide InvDuring, KeepsPlace, Connects, Marks, FloorsTo, Listed;
    NothingKeepsPlace(s.connectionByTask, t, 1, s.limits.maxAssociations);
    if r != s {
      if u in s.preWaitErrors.entries || u in s.buffered.entries {
        ForgettingKeepsPlace(s.connectionByTask, r.connectionByTask, u, t, s.limits.maxAssociations);
        PlaceIsMonotone(s.connectionByTask, r.connectionByTask, t, s.limits.maxAssociations);
      } else {
        var known := if u in s.connectionByTask.entries then Some(s.connectionByTask.entries[u]) else None;
        var c := if explicit.None? || explicit.value == "" then known else explicit;
        if c.Some? {
          ConnectingUndisturbs(s, r, u, c.value, t);
        }
      }
    }
  }

  lemma PlaceIsMonotone(m: OrderedMap<string>, r: OrderedMap<string>, t: string, bound: nat)
    requires KeepsPlace(m, r, t, 0, bound)
    ensures KeepsPlace(m, r, t, 1, bound)
  {
  }

  lemma EndingUndisturbs(s: State, r: State, u: string, past: seq<Event>, how: Settlement, t: string)
    requires u in s.pending && Ends(s, r, u, past, how) && u != t
    ensures Undisturbed(s, r, t, 0)
  {
    hide KeepsPlace, Marks, Listed;
    ForgettingKeepsPlace(s.connectionByTask, r.connectionByTask, u, t, s.limits.maxAssociations);
  }

  lemma ResolveUndisturbs(s: State, r: State, u: string, result: TaskResult, accepted: bool, t: string)
    requires Inv(s) && Resolves(s, r, u, result, accepted) && u != t
    ensures Undisturbed(s, r, t, 0)
  {
    hide InvDuring, KeepsPlace, Marks, Listed, Ends, Forgets;
    NothingKeepsPlace(s.connectionByTask, t, 0, s.limits.maxAssociations);
    if r != s {
      if u in s.pending {
        EndingUndisturbs(s, r, u, s.log + [Accepted(u)], Fulfilled(result), t);
      } else {
        ForgettingKeepsPlace(s.connectionByTask, r.connectionByTask, u, t, s.limits.maxAssociations);
        ForgottenIsGone(s.preWaitErrors, r.preWaitErrors, u);
      }
    }
  }

  lemma ForgottenIsGone<V>(m: OrderedMap<V>, r: OrderedMap<V>, u: string)
    requires Forgets(m, r, u)
    ensures r.entries == m.entries - {u}
  {
  }

  lemma LosingUndisturbs(s: State, r: State, u: string, c: string, t: string)
    requires Loses(s, r, u, c) && u != t
    ensures Undisturbed(s, r, t, 0)
  {
    hide KeepsPlace, Marks, Listed, Ends;
    if u in s.pending {
      EndingUndisturbs(s, r, u, s.log, Disconnected(c), t);
    } else {
      ForgettingKeepsPlace(s.connectionByTask, r.connectionByTask, u, t, s.limits.maxAssociations);
    }
  }

  lemma PlacesCompose(s: State, next: State, r: State, t: string)
    requires Undisturbed(s, next, t, 0) && Undisturbed(next, r, t, 0)
    ensures Undisturbed(s, r, t, 0)
  {
    hide After;
  }

  lemma {:induction false} LosingInTurnUndisturbs(s: State, r: State, tasks: seq<string>, c: string, t: string)
    requires LoseInTurn(s, r, tasks, c) && t !in tasks
    ensures Undisturbed(s, r, t, 0)
    decreases |tasks|
  {
    hide KeepsPlace, Loses;
    if tasks == [] {
      NothingKeepsPlace(s.connectionByTask, t, 0, s.limits.maxAssociations);
    } else {
      var next :| Loses(s, next, tasks[0], c) && LoseInTurn(next, r, tasks[1..], c);
      LosingUndisturbs(s, next, tasks[0], c, t);
      LosingInTurnUndisturbs(next, r, tasks[1..], c, t);
      PlacesCompose(s, next, r, t);
    }
  }

  lemma StepUndisturbs(s: State, op: Op, t: string, c: string)
    requires Inv(s) && !Concerns(s, op, t, c)
    requires t in s.connectionByTask.entries ==> s.connectionByTask.entries[t] == c
    ensures Undisturbed(s, Step(s, op).0, t, Associating(op))
  {
    hide InvDuring, KeepsPlace, Connects, Waits, Resolves, Ends, LoseInTurn, Trim, AssociateTask, WaitTask, ResolveTask,
      RejectConnection, FireTimer;
    var r := Step(s, op).0;
    NothingKeepsPlace(s.connectionByTask, t, Associating(op), s.limits.maxAssociations);
    match op
    case Associate(u, d) =>
      AssociateEffect(s, u, d);
      if r != s {
        ConnectingUndisturbs(s, r, Trim(u), Trim(d), t);
      }
    case Wait(u, ms, d) =>
      WaitEffect(s, u, ms, d);
      WaitUndisturbs(s, r, Trim(u), ms, if d.Some? then Some(Trim(d.value)) else None, Step(s, op).1.reply, t);
    case Resolve(u, result) =>
      ResolveEffect(s, u, result);
      ResolveUndisturbs(s, r, Trim(u), result, Step(s, op).1.accepted, t);
    case RejectAll(d) =>
      DisconnectEffect(s, d);
      AssociatedAreListed(s, Trim(d));
      ListsAreProper(s, Trim(d));
      assert t in Listed(s.tasksByConnection, Trim(d)) ==> Lists(s.tasksByConnection, Trim(d), t);
      var detached := s.(tasksByConnection := s.tasksByConnection - {Trim(d)});
      LosingInTurnUndisturbs(detached, r, Listed(s.tasksByConnection, Trim(d)), Trim(d), t);
    case TimerFires(timer) =>
      TimerEffect(s, timer);
      if timer in s.timers {
        EndingUndisturbs(s, r, s.timers[timer].task, s.log, TimedOut, t);
      }
  }

  // ---------- Whole runs ----------

  /** While nothing concerns `t`, it stays as it is; only as many newer associations as the registry has room for
      can push its own out, and once pushed out it does not come back. */
  lemma {:induction false} RunUndisturbs(s: State, ops: seq<Op>, t: string, c: string)
    requires Inv(s) && LeavesAlone(s, ops, t, c)
    requires t in s.connectionByTask.entries ==> s.connectionByTask.entries[t] == c
    ensures var r := Run(s, ops);
      && (t in s.pending <==> t in r.pending) && (t in s.pending ==> r.pending[t] == s.pending[t])
      && (t in r.buffered.entries ==> t in s.buffered.entries)
      && (t in r.preWaitErrors.entries ==> t in s.preWaitErrors.entries)
      && (t in r.connectionByTask.entries ==> t in s.connectionByTask.entries && r.connectionByTask.entries[t] == c)
      && (t in s.connectionByTask.entries &&
          |After(s.connectionByTask.keys, t)| + AllAssociating(ops) < s.limits.maxAssociations ==>
            t in r.connectionByTask.entries)
    decreases |ops|
  {
    hide InvDuring, Concerns, Step, After;
    if ops != [] {
      var next := Step(s, ops[0]).0;
      StepKeeps(s, ops[0]);
      StepUndisturbs(s, ops[0], t, c);
      RunUndisturbs(next, ops[1..], t, c);
    }
  }

  /** A pending wait of a task associated with `c` is what a disconnect of `c` rejects. */
  lemma DisconnectReachesAssociated(s: State, t: string, connectionId: string)
    requires Inv(s) && t in s.pending && t in s.connectionByTask.entries
    requires s.connectionByTask.entries[t] == Trim(connectionId)
    ensures EndsAs(Step(s, RejectAll(connectionId)).0.log, s.pending[t].promise, Disconnected(Trim(connectionId)))
  {
    hide InvDuring, EndsAs, Step, Trim;
    DisconnectRejectsExactlyItsWaits(s, connectionId);
  }

  /** Right after an association nothing is newer than it. */
  lemma ConnectedIsNewest(s: State, r: State, t: string, c: string)
    requires Connects(s, r, t, c)
    ensures t in r.connectionByTask.entries && r.connectionByTask.entries[t] == c
    ensures After(r.connectionByTask.keys, t) == []
  {
    hide Indexed, Listed, Relisted, Forgets, BecomesNewest, PushedOut, After;
    NothingAfterNewest(s.connectionByTask, r.connectionByTask, t, c, s.limits.maxAssociations);
  }

  lemma NothingAfterNewest(m: OrderedMap<string>, r: OrderedMap<string>, t: string, c: string, bound: nat)
    requires BecomesNewest(m, r, t, c, bound)
    ensures t in r.entries && r.entries[t] == c && After(r.keys, t) == []
  {
    hide PushedOut, Without, After, Distinct;
    KeyIsEntry(r, t);
    KeysAreDistinct(r);
    LastOfConcat(PushedOut(m.keys, t, bound), r.keys, Without(m.keys, t), t);
    AfterIndex(r.keys, t, |r.keys| - 1);
  }

  lemma KeysAreDistinct(m: OrderedMap<string>)
    ensures Distinct(m.keys)
  {
  }

  lemma LastOfConcat(a: seq<string>, b: seq<string>, others: seq<string>, t: string)
    requires a + b == others + [t] && b != []
    ensures b[|b| - 1] == t
  {
    assert (a + b)[|a + b| - 1] == b[|b| - 1];
  }

  /** A new task is associated with a connection, any run that leaves it alone follows, then somebody waits for it
      without naming another connection. When that connection dies, the promise is rejected with its disconnect, so
      long as the association was not pushed out meanwhile, which takes as many others as the registry holds. */
  lemma AssociatedWaitIsDisconnected(s: State, taskId: string, connectionId: string, ops: seq<Op>, taskId': string,
                                     timeoutMs: Option<real>, connection: Option<string>)
    requires Inv(s) && Trim(taskId) == Trim(taskId') != "" && Trim(connectionId) != ""
    requires Trim(taskId) !in s.terminal.entries && Trim(taskId) !in s.buffered.entries
    requires Trim(taskId) !in s.preWaitErrors.entries
    requires connection.None? || Trim(connection.value) == "" || Trim(connection.value) == Trim(connectionId)
    requires LeavesAlone(Step(s, Associate(taskId, connectionId)).0, ops, Trim(taskId), Trim(connectionId))
    ensures var t, c := Trim(taskId), Trim(connectionId);
      var later := Run(Step(s, Associate(taskId, connectionId)).0, ops);
      var (waiting, reply) := Step(later, Wait(taskId', timeoutMs, connection));
      && (AllAssociating(ops) < s.limits.maxAssociations ==> t in later.connectionByTask.entries)
      && (t in later.connectionByTask.entries ==>
        && reply.Waited? && reply.reply.Awaiting?
        && EndsAs(Step(waiting, RejectAll(connectionId)).0.log, reply.reply.promise, Disconnected(c)))
  {
    hide InvDuring, EndsAs, Step, Trim, Run, LeavesAlone, Connects, After, AllAssociating;
    var t, c := Trim(taskId), Trim(connectionId);
    var associated := Step(s, Associate(taskId, connectionId)).0;
    var later := Run(associated, ops);
    AssociateEffect(s, taskId, connectionId);
    ErrorsShrink(s, associated, t, c);
    ConnectedIsNewest(s, associated, t, c);
    StepKeeps(s, Associate(taskId, connectionId));
    RunKeeps(associated, ops);
    RunUndisturbs(associated, ops, t, c);
    if t in later.connectionByTask.entries {
      WaitJoinsAssociation(later, taskId', timeoutMs, connection, c);
      var waiting := Step(later, Wait(taskId', timeoutMs, connection)).0;
      StepKeeps(later, Wait(taskId', timeoutMs, connection));
      DisconnectReachesAssociated(waiting, t, connectionId);
    }
  }

  lemma ErrorsShrink(s: State, r: State, t: string, c: string)
    requires Connects(s, r, t, c)
    ensures forall u :: u in r.preWaitErrors.entries ==> u in s.preWaitErrors.entries
  {
    hide Indexed, Listed, Relisted, BecomesNewest, PushedOut;
  }

  /** A wait for an associated task that names no other connection leaves it waiting, and associated. */
  lemma WaitJoinsAssociation(s: State, taskId: string, timeoutMs: Option<real>, connection: Option<string>, c: string)
    requires Inv(s) && Trim(taskId) in s.connectionByTask.entries && s.connectionByTask.entries[Trim(taskId)] == c
    requires Trim(taskId) !in s.buffered.entries && Trim(taskId) !in s.preWaitErrors.entries && Trim(taskId) != ""
    requires connection.None? || Trim(connection.value) == "" || Trim(connection.value) == c
    ensures var t := Trim(taskId);
      var (r, reply) := Step(s, Wait(taskId, timeoutMs, connection));
      && t in r.pending && reply == Waited(Awaiting(r.pending[t].promise))
      && t in r.connectionByTask.entries && r.connectionByTask.entries[t] == c
  {
    hide InvDuring, Step, Trim, Connects, Answers, FloorsTo;
    var t, r := Trim(taskId), Step(s, Wait(taskId, timeoutMs, connection)).0;
    WaitEffect(s, taskId, timeoutMs, connection);
    AssociatedIsNotTerminal(s, t);
    if t !in s.pending {
      ConnectedIsNewest(s, r, t, c);
    }
  }

  lemma AssociatedIsNotTerminal(s: State, t: string)
    requires Inv(s) && t in s.connectionByTask.entries
    ensures t !in s.terminal.entries
  {
  }

  /** The same of a new wait that names its connection itself. */
  lemma ConnectedWaitIsDisconnected(s: State, taskId: string, timeoutMs: Option<real>, connectionId: string,
                                    ops: seq<Op>)
    requires Inv(s) && Trim(taskId) !in s.pending && Trim(connectionId) != ""
    requires Step(s, Wait(taskId, timeoutMs, Some(connectionId))).1.reply.Awaiting?
    requires LeavesAlone(Step(s, Wait(taskId, timeoutMs, Some(connectionId))).0, ops, Trim(taskId), Trim(connectionId))
    ensures var t, c := Trim(taskId), Trim(connectionId);
      var (waiting, reply) := Step(s, Wait(taskId, timeoutMs, Some(connectionId)));
      var later := Run(waiting, ops);
      && (AllAssociating(ops) < s.limits.maxAssociations ==> t in later.connectionByTask.entries)
      && (t in later.connectionByTask.entries ==>
        EndsAs(Step(later, RejectAll(connectionId)).0.log, reply.reply.promise, Disconnected(c)))
  {
    hide InvDuring, EndsAs, Trim, Run, LeavesAlone, Connects, After, AllAssociating, WaitTask, Answers, FloorsTo,
      RejectConnection;
    var t, c := Trim(taskId), Trim(connectionId);
    var waiting := Step(s, Wait(taskId, timeoutMs, Some(connectionId))).0;
    WaitEffect(s, taskId, timeoutMs, Some(connectionId));
    ConnectedIsNewest(s, waiting, t, c);
    StepKeeps(s, Wait(taskId, timeoutMs, Some(connectionId)));
    RunKeeps(waiting, ops);
    RunUndisturbs(waiting, ops, t, c);
    if t in Run(waiting, ops).connectionByTask.entries {
      DisconnectReachesAssociated(Run(waiting, ops), t, connectionId);
    }
  }
}
