/** What holds of the location beacon stream under every interleaving. */
module LocationStreamGuarantees {
  import opened LocationStreamModel
  import opened Subsequences
  import opened Wrappers

  // ---------- Native watches ----------

  /** The live native watches are exactly what `watchId` and the suspended reconcile account for. */
  predicate WatchesAccounted(s: State) {
    && (s.watchId.Some? <==> s.activeOptions.Some?)
    && (!s.phase.Idle? ==> s.watchId.None?)
    && match s.phase {
      case Idle => s.device.live == if s.watchId.Some? &&
        s.activeOptions.Some? then map[s.watchId.value := s.activeOptions.value] else map[]
      case Clearing(watch, _) => s.device.live.Keys == WatchSet(watch)
      case Requesting(_, _) => s.device.live == map[]
      case Starting(started, _, options) => s.device.live == map[started := options]
      case ClearingStale(stale) => s.device.live.Keys == {stale}
    }
  }

  function Wanted(env: Platform, s: State): Option<WatchOptions> {
    if Streaming(env, s) then Some(BuildNativeWatchOptions(s.desiredConfig.value)) else None
  }

  /** With no further reconcile behind it, the running or last reconcile works for the latest desire. */
  predicate HeadIsCurrent(env: Platform, s: State) {
    s.reconciles == 0 ==>
      match s.phase
      case Idle => s.device.reconcileFailed || s.activeOptions == Wanted(env, s)
      case Clearing(_, next) => next == Wanted(env, s)
      case Requesting(revision, options) => revision == s.revision && Some(options) == Wanted(env, s)
      case Starting(_, revision, options) => revision == s.revision && Some(options) == Wanted(env, s)
      case ClearingStale(_) => false
  }

  predicate WatchInv(env: Platform, s: State) {
    WatchesAccounted(s) && HeadIsCurrent(env, s)
  }

  lemma ReplyKeepsWatchInv(env: Platform, s: State, op: Op)
    requires WatchInv(env, s) && Enabled(s, op) && IsLifecycle(op) && !op.Reconcile?
    ensures WatchInv(env, Step(env, s, op))
  {
    hide BuildNativeWatchOptions;
    hide AfterPermission, AfterWatch;
    match op
    case ClearReply => assert (s.device.live - WatchSet(s.phase.watch)).Keys == {};
    case PermissionReply(granted) => PermissionKeepsWatchInv(env, s, granted);
    case WatchReply(started) => StartedKeepsWatchInv(env, s, started);
    case StaleClearReply => assert (s.device.live - {s.phase.stale}).Keys == {};
  }

  lemma PermissionKeepsWatchInv(env: Platform, s: State, granted: bool)
    requires WatchInv(env, s) && s.phase.Requesting?
    ensures WatchInv(env, AfterPermission(env, s, granted))
  {
    hide BuildNativeWatchOptions;
  }

  lemma StartedKeepsWatchInv(env: Platform, s: State, started: bool)
    requires WatchInv(env, s) && s.phase.Starting?
    ensures WatchInv(env, AfterWatch(env, s, started))
  {
    hide BuildNativeWatchOptions;
    assert (s.device.live - {s.phase.started}).Keys == {};
  }

  lemma ReconcileKeepsWatchInv(env: Platform, s: State)
    requires WatchInv(env, s) && Enabled(s, Reconcile)
    ensures WatchInv(env, BeginReconcile(env, s))
  {
    hide BuildNativeWatchOptions;
  }

  lemma SamplesLeaveWatches(env: Platform, s: State, op: Op)
    requires Enabled(s, op) && !IsLifecycle(op) && !op.Start? && !op.Stop?
    ensures var r := Step(env, s, op);
      r == s.(activeConfig := r.activeConfig, lastSent := r.lastSent, lastQueued := r.lastQueued,
        sends := r.sends, emitting := r.emitting,
              hidden := r.hidden, errorsReported := r.errorsReported, trace := r.trace)
  {
    hide ShouldSendSample, IsBackgroundBlocked;
  }

  lemma StepKeepsWatchInv(env: Platform, s: State, op: Op)
    requires WatchInv(env, s) && Enabled(s, op)
    ensures WatchInv(env, Step(env, s, op))
  {
    hide BuildNativeWatchOptions, BeginReconcile, AfterClear, AfterPermission, AfterWatch, AfterStaleClear,
      HandlePosition, BeginSend, AfterSend;
    match op
    case Start(_) =>
    case Stop =>
    case Reconcile => ReconcileKeepsWatchInv(env, s);
    case Position(_, _) => SamplesLeaveWatches(env, s, op);
    case PositionError =>
    case Visibility(_) =>
    case SendTurn => SamplesLeaveWatches(env, s, op);
    case SendReply(_) => SamplesLeaveWatches(env, s, op);
    case _ => ReplyKeepsWatchInv(env, s, op);
  }

  lemma {:induction false} RunKeepsWatchInv(env: Platform, s: State, ops: seq<Op>)
    requires WatchInv(env, s) && Possible(env, s, ops)
    ensures WatchInv(env, Run(env, s, ops))
    decreases |ops|
  {
    if ops != [] {
      StepKeepsWatchInv(env, s, ops[0]);
      RunKeepsWatchInv(env, Step(env, s, ops[0]), ops[1..]);
    }
  }

  /** At most one native watch is live at any moment of any run. */
  lemma AtMostOneLiveWatch(env: Platform, hidden: bool, ops: seq<Op>)
    requires Possible(env, Initial(hidden), ops)
    ensures |Run(env, Initial(hidden), ops).device.live| <= 1
  {
    RunKeepsWatchInv(env, Initial(hidden), ops);
    var s := Run(env, Initial(hidden), ops);
    assert |s.device.live.Keys| <= 1;
  }

  /** Once the reconcile chain is empty and its last reconcile met no native error, a
      watch is live exactly when streaming is desired on a native platform, and it
      runs with the options of the latest desired configuration. */
  lemma QuietStreamMatchesDesire(env: Platform, hidden: bool, ops: seq<Op>)
    requires Possible(env, Initial(hidden), ops)
    ensures var s := Run(env, Initial(hidden), ops);
      s.phase.Idle? && s.reconciles == 0 && !s.device.reconcileFailed ==>
        if Streaming(env, s)
        then s.watchId.Some? && s.device.live == map[s.watchId.value := BuildNativeWatchOptions(s.desiredConfig.value)]
        else s.watchId.None? && s.device.live == map[]
  {
    RunKeepsWatchInv(env, Initial(hidden), ops);
  }

  /** How many native replies the chain may still need. */
  function Remaining(s: State): nat {
    5 * s.reconciles +
    match s.phase
    case Idle => 0
    case ClearingStale(_) => 1
    case Starting(_, _, _) => 2
    case Requesting(_, _) => 3
    case Clearing(_, _) => 4
  }

  predicate IsLifecycle(op: Op) {
    op.Reconcile? || op.ClearReply? || op.PermissionReply? || op.WatchReply? || op.StaleClearReply?
  }

  /** Every step of the chain brings it closer to empty; only `start` and `stop` lengthen it. */
  lemma ChainDrains(env: Platform, s: State, op: Op)
    requires Enabled(s, op)
    ensures IsLifecycle(op) ==> Remaining(Step(env, s, op)) < Remaining(s)
    ensures !IsLifecycle(op) && !op.Start? && !op.Stop? ==> Remaining(Step(env, s, op)) == Remaining(s)
  {
    hide BuildNativeWatchOptions, IsStartStillDesired, Streaming, HandlePosition, BeginSend, AfterSend;
    match op
    case Position(_, _) => SamplesLeaveWatches(env, s, op);
    case SendTurn => SamplesLeaveWatches(env, s, op);
    case SendReply(_) => SamplesLeaveWatches(env, s, op);
    case _ =>
  }

  /** Unless the chain is empty, one of its steps is possible. */
  lemma ChainNeverStalls(s: State) returns (next: Op)
    requires Remaining(s) > 0
    ensures IsLifecycle(next) && Enabled(s, next)
  {
    next := match s.phase
      case Idle => Reconcile
      case Clearing(_, _) => ClearReply
      case Requesting(_, _) => PermissionReply(true)
      case Starting(_, _, _) => WatchReply(true)
      case ClearingStale(_) => StaleClearReply;
  }

  // ---------- The send chain ----------

  /** The operations that concern native watches alone leave the samples untouched. */
  lemma LifecycleLeavesSamples(env: Platform, s: State, op: Op)
    requires Enabled(s, op) && (IsLifecycle(op) || op.PositionError? || op.Visibility?)
    ensures var r := Step(env, s, op);
      r == s.(watchId := r.watchId, activeOptions := r.activeOptions, reconciles := r.reconciles,
        phase := r.phase, hidden := r.hidden,
              device := r.device, errorsReported := r.errorsReported)
  {
    hide BeginReconcile, AfterPermission, AfterWatch;
    match op
    case Reconcile => ReconcileLeavesSamples(env, s);
    case PermissionReply(granted) => AnswersLeaveSamples(env, s, granted);
    case WatchReply(started) => AnswersLeaveSamples(env, s, started);
    case _ =>
  }

  lemma ReconcileLeavesSamples(env: Platform, s: State)
    ensures var r := BeginReconcile(env, s);
      r == s.(watchId := r.watchId, activeOptions := r.activeOptions, reconciles := r.reconciles, phase := r.phase,
              device := r.device)
  {
    hide BuildNativeWatchOptions, Streaming;
  }

  lemma AnswersLeaveSamples(env: Platform, s: State, yes: bool)
    ensures s.phase.Requesting? ==>
      var r := AfterPermission(env, s, yes);
      r == s.(phase := r.phase, device := r.device, errorsReported := r.errorsReported)
    ensures s.phase.Starting? ==>
      var r := AfterWatch(env, s, yes);
      r == s.(watchId := r.watchId, activeOptions := r.activeOptions, phase := r.phase, device := r.device,
              errorsReported := r.errorsReported)
  {
    hide IsStartStillDesired;
  }

  /** Queued samples are distinct objects, all made before now. */
  predicate SendsAreFresh(s: State) {
    && (forall i :: 0 <= i < |s.sends| ==> s.sends[i].id < s.trace.samplesMade)
    && (forall i, j :: 0 <= i < j < |s.sends| ==> s.sends[i].id != s.sends[j].id)
  }

  /** Delivered beacons, followed by those still to be sent, keep the order of acceptance. */
  predicate InOrder(s: State) {
    Subsequence(s.trace.delivered + s.sends, s.trace.accepted)
  }

  lemma StepKeepsOrder(env: Platform, s: State, op: Op)
    requires Enabled(s, op) && SendsAreFresh(s) && InOrder(s)
    ensures SendsAreFresh(Step(env, s, op)) && InOrder(Step(env, s, op))
  {
    hide BeginReconcile, AfterClear, AfterPermission, AfterWatch, AfterStaleClear, HandlePosition, Lose, Subsequence;
    match op
    case Start(_) =>
    case Stop =>
    case Position(at, coords) => AcceptingKeepsOrder(env, s, at, coords);
    case SendTurn => LosingKeepsOrder(s);
    case SendReply(acknowledged) =>
      LosingKeepsOrder(s);
      assert s.trace.delivered + s.sends == s.trace.delivered + [s.sends[0]] + s.sends[1..];
    case _ => LifecycleLeavesSamples(env, s, op);
  }

  lemma AcceptingKeepsOrder(env: Platform, s: State, at: real, coords: Coords)
    requires SendsAreFresh(s) && InOrder(s)
    ensures SendsAreFresh(HandlePosition(env, s, at, coords)) && InOrder(HandlePosition(env, s, at, coords))
  {
    hide Subsequence, ShouldSendSample, IsBackgroundBlocked;
    var r := HandlePosition(env, s, at, coords);
    if r.trace.accepted != s.trace.accepted {
      var sample := r.trace.accepted[|s.trace.accepted|];
      AppendBoth(s.trace.delivered + s.sends, s.trace.accepted, sample);
      assert s.trace.delivered + s.sends + [sample] == r.trace.delivered + r.sends;
    }
  }

  lemma LosingKeepsOrder(s: State)
    requires SendsAreFresh(s) && InOrder(s) && s.sends != []
    ensures SendsAreFresh(Lose(s)) && InOrder(Lose(s))
  {
    hide Subsequence;
    assert s.trace.delivered + s.sends == s.trace.delivered + [s.sends[0]] + s.sends[1..];
    LeaveOut(s.trace.delivered, s.sends[0], s.sends[1..], s.trace.accepted);
  }

  /** In every run, the delivered beacons are a subsequence of the accepted samples. */
  lemma {:induction false} DeliveredInOrder(env: Platform, s: State, ops: seq<Op>)
    requires Possible(env, s, ops) && SendsAreFresh(s) && InOrder(s)
    ensures var r := Run(env, s, ops);
      InOrder(r) && SendsAreFresh(r) && Subsequence(r.trace.delivered, r.trace.accepted)
    decreases |ops|
  {
    if ops != [] {
      StepKeepsOrder(env, s, ops[0]);
      DeliveredInOrder(env, Step(env, s, ops[0]), ops[1..]);
    } else {
      LeaveOutTail(s.trace.delivered, s.sends, s.trace.accepted);
    }
  }

  /** What every step of the stream keeps, about watches and about sends. */
  predicate StreamInv(env: Platform, s: State) {
    WatchInv(env, s) && SendsAreFresh(s) && InOrder(s)
  }

  lemma StepKeepsStreamInv(env: Platform, s: State, op: Op)
    requires StreamInv(env, s) && Enabled(s, op)
    ensures StreamInv(env, Step(env, s, op))
    ensures |Step(env, s, op).device.live| <= 1
  {
    hide WatchInv, SendsAreFresh, InOrder, Step, Enabled;
    StepKeepsWatchInv(env, s, op);
    StepKeepsOrder(env, s, op);
    OneWatch(env, Step(env, s, op));
  }

  lemma OneWatch(env: Platform, s: State)
    requires WatchInv(env, s)
    ensures |s.device.live| <= 1
  {
    hide HeadIsCurrent;
    assert |s.device.live.Keys| <= 1;
  }

  // ---------- Baselines ----------

  /** `op` discards the baselines: a stop, or a start with another configuration. */
  predicate Resets(env: Platform, s: State, op: Op) {
    op.Stop? || (op.Start? && (!op.config.streamEnabled || !env.native || s.activeConfig != Some(op.config)))
  }

  predicate NoReset(env: Platform, s: State, ops: seq<Op>)
    requires Possible(env, s, ops)
    decreases |ops|
  {
    ops == [] || (!Resets(env, s, ops[0]) && NoReset(env, Step(env, s, ops[0]), ops[1..]))
  }

  /** The queued baseline is the newest sample still to be sent, or the last one sent. */
  predicate BaselinesAgree(s: State) {
    s.lastQueued == if s.sends == [] then s.lastSent else Some(s.sends[|s.sends| - 1])
  }

  /** A start with the configuration already active leaves the samples alone. */
  lemma RestartLeavesSamples(env: Platform, s: State, op: Op)
    requires op.Start? && !Resets(env, s, op)
    ensures var r := StartStream(env, s, op.config);
      r == s.(desiredConfig := r.desiredConfig, revision := r.revision, reconciles := r.reconciles)
  {
  }

  lemma StepKeepsBaselines(env: Platform, s: State, op: Op)
    requires Enabled(s, op) && !Resets(env, s, op) && SendsAreFresh(s) && BaselinesAgree(s)
    ensures BaselinesAgree(Step(env, s, op))
    ensures Step(env, s, op).activeConfig == s.activeConfig
  {
    hide BeginReconcile, AfterClear, AfterPermission, AfterWatch, AfterStaleClear, ShouldSendSample, StartStream;
    match op
    case Start(_) => RestartLeavesSamples(env, s, op);
    case Position(_, _) =>
    case SendTurn => LosingKeepsBaselines(s);
    case SendReply(_) => LosingKeepsBaselines(s);
    case _ => LifecycleLeavesSamples(env, s, op);
  }

  lemma LosingKeepsBaselines(s: State)
    requires SendsAreFresh(s) && BaselinesAgree(s) && s.sends != []
    ensures BaselinesAgree(Lose(s))
    ensures |s.sends| > 1 ==> s.sends[1..][|s.sends| - 2] == s.sends[|s.sends| - 1]
  {
    assert |s.sends| > 1 ==> s.sends[0].id != s.sends[|s.sends| - 1].id;
  }

  /** Over any stretch without a reset that starts with an empty queue and equal
      baselines, the two baselines are equal again whenever the queue is empty. */
  lemma {:induction false} BaselinesMeetWhenQueueIsEmpty(env: Platform, s: State, ops: seq<Op>)
    requires Possible(env, s, ops) && NoReset(env, s, ops) && SendsAreFresh(s) && InOrder(s) && BaselinesAgree(s)
    ensures var r := Run(env, s, ops);
      BaselinesAgree(r) && (r.sends == [] ==> r.lastQueued == r.lastSent)
    decreases |ops|
  {
    if ops != [] {
      StepKeepsBaselines(env, s, ops[0]);
      StepKeepsOrder(env, s, ops[0]);
      BaselinesMeetWhenQueueIsEmpty(env, Step(env, s, ops[0]), ops[1..]);
    }
  }

  // ---------- Baselines across resets ----------

  /** How many samples had been accepted and delivered right after a reset. */
  datatype Counts = Counts(accepts: nat, deliveries: nat)

  function Counted(s: State): Counts {
    Counts(|s.trace.accepted|, |s.trace.delivered|)
  }

  /** The counts at the last reset of a run; `start` where the run has none. */
  function AtLastReset(env: Platform, s: State, ops: seq<Op>, start: Counts): Counts
    requires Possible(env, s, ops)
    decreases |ops|
  {
    if ops == [] then start
    else
      var next := Step(env, s, ops[0]);
      AtLastReset(env, next, ops[1..], if Resets(env, s, ops[0]) then Counted(next) else start)
  }

  /** Once a sample was accepted after the reset the baselines agree. Until then nothing is queued
      as baseline, and the sent one is set exactly when an older sample was delivered meanwhile. */
  predicate SinceReset(s: State, c: Counts) {
    && c.accepts <= |s.trace.accepted| && c.deliveries <= |s.trace.delivered|
    && if |s.trace.accepted| > c.accepts then BaselinesAgree(s)
       else s.lastQueued.None? && (s.lastSent.None? <==> |s.trace.delivered| == c.deliveries)
  }

  lemma ResetStartsOver(env: Platform, s: State, op: Op)
    requires Enabled(s, op) && Resets(env, s, op)
    ensures var r := Step(env, s, op);
      && r.lastSent.None? && r.lastQueued.None? && r.sends == s.sends && r.emitting == s.emitting
      && SinceReset(r, Counted(r))
  {
    hide BaselinesAgree;
  }

  lemma StepKeepsSinceReset(env: Platform, s: State, op: Op, c: Counts)
    requires Enabled(s, op) && !Resets(env, s, op) && SendsAreFresh(s) && SinceReset(s, c)
    ensures SinceReset(Step(env, s, op), c)
  {
    hide BeginReconcile, AfterClear, AfterPermission, AfterWatch, AfterStaleClear, ShouldSendSample, StartStream,
      HandlePosition,
      BaselinesAgree, SendsAreFresh;
    var r := Step(env, s, op);
    if |s.trace.accepted| > c.accepts {
      StepKeepsBaselines(env, s, op);
    }
    match op
    case Start(_) => RestartLeavesSamples(env, s, op);
    case Position(at, coords) => PositionSinceReset(env, s, at, coords, c);
    case SendTurn =>
    case SendReply(_) =>
    case _ => LifecycleLeavesSamples(env, s, op);
  }

  lemma PositionSinceReset(env: Platform, s: State, at: real, coords: Coords, c: Counts)
    requires SinceReset(s, c)
    ensures SinceReset(HandlePosition(env, s, at, coords), c)
  {
    hide HandlePosition;
    var r := HandlePosition(env, s, at, coords);
    if r.trace.accepted == s.trace.accepted {
      RefusedPosition(env, s, at, coords);
    } else {
      var sample := AcceptedSample(env, s, at, coords);
    }
  }

  lemma {:induction false} RunKeepsSinceReset(env: Platform, s: State, ops: seq<Op>, c: Counts)
    requires Possible(env, s, ops) && SendsAreFresh(s) && InOrder(s) && SinceReset(s, c)
    ensures SinceReset(Run(env, s, ops), AtLastReset(env, s, ops, c))
    decreases |ops|
  {
    hide Step, SinceReset, Resets, SendsAreFresh, InOrder;
    if ops != [] {
      var next := Step(env, s, ops[0]);
      StepKeepsOrder(env, s, ops[0]);
      if Resets(env, s, ops[0]) {
        ResetStartsOver(env, s, ops[0]);
        RunKeepsSinceReset(env, next, ops[1..], Counted(next));
      } else {
        StepKeepsSinceReset(env, s, ops[0], c);
        RunKeepsSinceReset(env, next, ops[1..], c);
      }
    }
  }

  /** In every run, resets included, an empty queue finds the baselines equal exactly when a sample
      was accepted after the last reset, or none was delivered after it. */
  lemma BaselinesMeetExactly(env: Platform, hidden: bool, ops: seq<Op>)
    requires Possible(env, Initial(hidden), ops)
    ensures var r, c := Run(env, Initial(hidden), ops), AtLastReset(env, Initial(hidden), ops, Counts(0, 0));
      r.sends == [] ==>
        (r.lastQueued == r.lastSent <==> |r.trace.accepted| > c.accepts || |r.trace.delivered| == c.deliveries)
  {
    hide Run, Possible, AtLastReset;
    RunKeepsSinceReset(env, Initial(hidden), ops, Counts(0, 0));
  }

  /** What `ops` lead to, at an empty queue, is two different baselines. */
  predicate EndsSplit(env: Platform, s: State, ops: seq<Op>) {
    && Possible(env, s, ops) && NoReset(env, s, ops)
    && var r := Run(env, s, ops); r.sends == [] && r.lastQueued != r.lastSent
  }

  /** A reset does harm, on some way to an empty queue, exactly when a beacon is under way, or when samples
      are queued and the stream goes on with another configuration. */
  lemma ResetSplitsExactlyUnderWay(env: Platform, s: State, op: Op)
    requires Enabled(s, op) && Resets(env, s, op) && SendsAreFresh(s) && InOrder(s)
    ensures (exists ops :: EndsSplit(env, Step(env, s, op), ops)) <==>
      s.sends != [] && (s.emitting || Step(env, s, op).activeConfig.Some?)
  {
    hide Step, EndsSplit, SendsAreFresh, InOrder;
    var r := Step(env, s, op);
    ResetStartsOver(env, s, op);
    if s.sends != [] && (s.emitting || r.activeConfig.Some?) {
      var ops := SplittingContinuation(env, r);
      assert EndsSplit(env, r, ops);
    } else {
      StepKeepsOrder(env, s, op);
      forall ops ensures !EndsSplit(env, r, ops) {
        HarmlessContinuation(env, r, ops);
      }
    }
  }

  lemma HarmlessContinuation(env: Platform, s: State, ops: seq<Op>)
    requires SendsAreFresh(s) && InOrder(s) && s.lastSent.None? && s.lastQueued.None?
    requires s.sends == [] || (!s.emitting && s.activeConfig.None?)
    ensures !EndsSplit(env, s, ops)
  {
    hide Possible, NoReset, Run, SendsAreFresh, InOrder;
    if Possible(env, s, ops) && NoReset(env, s, ops) {
      if s.sends == [] {
        BaselinesMeetWhenQueueIsEmpty(env, s, ops);
      } else {
        StoppedStaysEmpty(env, s, ops);
      }
    }
  }

  /** A stopped stream with no beacon under way delivers and accepts nothing until it is started again. */
  lemma {:induction false} StoppedStaysEmpty(env: Platform, s: State, ops: seq<Op>)
    requires Possible(env, s, ops) && NoReset(env, s, ops)
    requires !s.emitting && s.activeConfig.None? && s.lastSent.None? && s.lastQueued.None?
    ensures var r := Run(env, s, ops); r.lastSent.None? && r.lastQueued.None?
    decreases |ops|
  {
    hide Step, Resets;
    if ops != [] {
      StoppedStep(env, s, ops[0]);
      StoppedStaysEmpty(env, Step(env, s, ops[0]), ops[1..]);
    }
  }

  lemma StoppedStep(env: Platform, s: State, op: Op)
    requires Enabled(s, op) && !Resets(env, s, op)
    requires !s.emitting && s.activeConfig.None? && s.lastSent.None? && s.lastQueued.None?
    ensures var r := Step(env, s, op); !r.emitting && r.activeConfig.None? && r.lastSent.None? && r.lastQueued.None?
  {
    hide BeginReconcile, AfterClear, AfterPermission, AfterWatch, AfterStaleClear, ShouldSendSample, StartStream;
    match op
    case Start(_) => RestartLeavesSamples(env, s, op);
    case Position(_, _) =>
    case SendTurn =>
    case _ => LifecycleLeavesSamples(env, s, op);
  }

  lemma Prepend(env: Platform, s: State, op: Op, ops: seq<Op>)
    requires Enabled(s, op) && Possible(env, Step(env, s, op), ops)
    ensures Possible(env, s, [op] + ops) && Run(env, s, [op] + ops) == Run(env, Step(env, s, op), ops)
    ensures !Resets(env, s, op) && NoReset(env, Step(env, s, op), ops) ==> NoReset(env, s, [op] + ops)
  {
    hide Step, Resets, Enabled;
    assert ([op] + ops)[1..] == ops;
  }

  lemma PrependSplit(env: Platform, s: State, op: Op, ops: seq<Op>)
    requires Enabled(s, op) && !Resets(env, s, op) && EndsSplit(env, Step(env, s, op), ops)
    ensures EndsSplit(env, s, [op] + ops)
  {
    hide Step, Resets, Enabled, Possible, NoReset, Run;
    Prepend(env, s, op, ops);
  }

  /** A queue can always be emptied by losing what is in it. */
  lemma {:induction false} LosingTheRest(env: Platform, s: State) returns (ops: seq<Op>)
    requires s.lastSent.Some? && s.lastQueued.None?
    ensures EndsSplit(env, s, ops)
    decreases |s.sends|, !s.emitting
  {
    hide EndsSplit, Step;
    if s.sends == [] {
      ops := [];
      NothingToLose(env, s);
    } else {
      var op := if s.emitting then SendReply(false) else SendTurn;
      LosingStep(env, s, op);
      ops := LosingTheRest(env, Step(env, s, op));
      PrependSplit(env, s, op, ops);
      ops := [op] + ops;
    }
  }

  lemma NothingToLose(env: Platform, s: State)
    requires s.sends == [] && s.lastSent.Some? && s.lastQueued.None?
    ensures EndsSplit(env, s, [])
  {
  }

  lemma LosingStep(env: Platform, s: State, op: Op)
    requires s.sends != [] && s.lastSent.Some? && s.lastQueued.None?
    requires op == if s.emitting then SendReply(false) else SendTurn
    ensures Enabled(s, op) && !Resets(env, s, op)
    ensures var r := Step(env, s, op);
      && r.lastSent.Some? && r.lastQueued.None?
      && (|r.sends| < |s.sends| || (r.sends == s.sends && !s.emitting && r.emitting))
  {
    hide IsBackgroundBlocked;
  }

  /** After the reset, the beacon that is, or comes, under way is delivered and the rest is lost. */
  lemma SplittingContinuation(env: Platform, s: State) returns (ops: seq<Op>)
    requires s.lastSent.None? && s.lastQueued.None? && s.sends != [] && (s.emitting || s.activeConfig.Some?)
    ensures EndsSplit(env, s, ops)
  {
    hide EndsSplit, Step;
    if s.emitting {
      ops := DeliveringFirst(env, s);
    } else {
      var shown := Step(env, s, Visibility(false));
      ShowingAndSending(env, s);
      var begun := Step(env, shown, SendTurn);
      ops := DeliveringFirst(env, begun);
      PrependSplit(env, shown, SendTurn, ops);
      PrependSplit(env, s, Visibility(false), [SendTurn] + ops);
      ops := [Visibility(false)] + ([SendTurn] + ops);
    }
  }

  lemma ShowingAndSending(env: Platform, s: State)
    requires s.sends != [] && !s.emitting && s.activeConfig.Some? && s.lastQueued.None?
    ensures var shown := Step(env, s, Visibility(false));
      && Enabled(shown, SendTurn)
      && var begun := Step(env, shown, SendTurn); begun.emitting && begun.sends == s.sends && begun.lastQueued.None?
  {
  }

  lemma DeliveringFirst(env: Platform, s: State) returns (ops: seq<Op>)
    requires s.sends != [] && s.emitting && s.lastQueued.None?
    ensures EndsSplit(env, s, ops)
  {
    hide EndsSplit;
    ops := LosingTheRest(env, AfterSend(s, true));
    PrependSplit(env, s, SendReply(true), ops);
    ops := [SendReply(true)] + ops;
  }

  /** A beacon under way to be split off: one start, one position and its turn. */
  lemma BeaconUnderWay(env: Platform, config: Config, fix: Coords) returns (ops: seq<Op>)
    requires env.native && config.streamEnabled && config.backgroundEnabled && fix.accuracyM <= config.maxAccuracyM
    ensures Possible(env, Initial(false), ops)
    ensures var s := Run(env, Initial(false), ops); s.sends != [] && s.emitting
  {
    hide Possible, Run;
    var s1 := StartStream(env, Initial(false), config);
    var s2 := HandlePosition(env, s1, 0.0, fix);
    var s3 := BeginSend(s2);
    NoOps(env, s3);
    Prepend(env, s2, SendTurn, []);
    Prepend(env, s1, Position(0.0, fix), [SendTurn] + []);
    ops := [Start(config)] + ([Position(0.0, fix)] + ([SendTurn] + []));
    Prepend(env, Initial(false), Start(config), [Position(0.0, fix)] + ([SendTurn] + []));
  }

  lemma NoOps(env: Platform, s: State)
    ensures Possible(env, s, []) && Run(env, s, []) == s
  {
  }

  /** So without the no-reset condition the baselines need not meet: a stop while a beacon is on its way
      leaves that beacon behind as the last one sent, with nothing queued. */
  lemma ResetWhileSendingSplitsBaselines(env: Platform, config: Config, fix: Coords)
      returns (before: seq<Op>, after: seq<Op>)
    requires env.native && config.streamEnabled && config.backgroundEnabled && fix.accuracyM <= config.maxAccuracyM
    ensures Possible(env, Initial(false), before)
    ensures EndsSplit(env, Step(env, Run(env, Initial(false), before), Stop), after)
  {
    hide Possible, Run, EndsSplit;
    before := BeaconUnderWay(env, config, fix);
    var s := Run(env, Initial(false), before);
    ResetStartsOver(env, s, Stop);
    after := SplittingContinuation(env, Step(env, s, Stop));
  }

  // ---------- The gate ----------

  /** Each element passes the gate against the one before it, the first against `base`. */
  predicate Gated(env: Platform, c: Config, base: Option<Sample>, s: seq<Sample>) {
    && (s != [] && base.Some? ==> PassesGate(env, c, s[0], base.value))
    && forall i :: 0 < i < |s| ==> PassesGate(env, c, s[i], s[i - 1])
  }

  /** In a stretch that has lost nothing, everything accepted since `start` is gated, and is delivered or still
      queued. */
  predicate LosslessSince(env: Platform, start: State, s: State) {
    && start.trace.accepted <= s.trace.accepted && start.trace.delivered <= s.trace.delivered
    && s.activeConfig == start.activeConfig
    && var accepted := s.trace.accepted[|start.trace.accepted|..];
      && accepted == s.trace.delivered[|start.trace.delivered|..] + s.sends
      && s.lastQueued == (if accepted == [] then start.lastSent else Some(accepted[|accepted| - 1]))
      && (s.activeConfig.None? ==> accepted == [])
      && (s.activeConfig.Some? ==> Gated(env, s.activeConfig.value, start.lastSent, accepted))
  }

  lemma StepKeepsLossless(env: Platform, start: State, s: State, op: Op)
    requires Enabled(s, op) && !Resets(env, s, op) && LosslessSince(env, start, s)
    requires Step(env, s, op).trace.lost == s.trace.lost
    ensures LosslessSince(env, start, Step(env, s, op))
  {
    hide BeginReconcile, AfterClear, AfterPermission, AfterWatch, AfterStaleClear, Gated, StartStream, HandlePosition,
      AfterSend;
    var r := Step(env, s, op);
    match op
    case Start(_) => RestartLeavesSamples(env, s, op);
    case Position(at, coords) =>
      if r.trace.accepted != s.trace.accepted {
        AcceptingKeepsLossless(env, start, s, at, coords);
      } else {
        RefusedPosition(env, s, at, coords);
      }
    case SendTurn =>
    case SendReply(acknowledged) => DeliveringKeepsLossless(env, start, s, acknowledged);
    case _ => LifecycleLeavesSamples(env, s, op);
  }

  lemma RefusedPosition(env: Platform, s: State, at: real, coords: Coords)
    requires HandlePosition(env, s, at, coords).trace.accepted == s.trace.accepted
    ensures var r := HandlePosition(env, s, at, coords);
      r == s.(trace := r.trace) && r.trace == s.trace.(samplesMade := r.trace.samplesMade)
  {
    hide ShouldSendSample, IsBackgroundBlocked;
  }

  lemma DeliveringKeepsLossless(env: Platform, start: State, s: State, acknowledged: bool)
    requires LosslessSince(env, start, s) && s.sends != [] && AfterSend(s, acknowledged).trace.lost == s.trace.lost
    ensures LosslessSince(env, start, AfterSend(s, acknowledged))
  {
    hide Gated;
    var r := AfterSend(s, acknowledged);
    assert r.trace.delivered[|start.trace.delivered|..] == s.trace.delivered[|start.trace.delivered|..] + [s.sends[0]];
  }

  lemma AcceptingKeepsLossless(env: Platform, start: State, s: State, at: real, coords: Coords)
    requires LosslessSince(env, start, s) && HandlePosition(env, s, at, coords).trace.accepted != s.trace.accepted
    ensures LosslessSince(env, start, HandlePosition(env, s, at, coords))
  {
    hide PassesGate, Gated, HandlePosition;
    var r := HandlePosition(env, s, at, coords);
    var before := s.trace.accepted[|start.trace.accepted|..];
    var sample := AcceptedSample(env, s, at, coords);
    assert r.trace.accepted[|start.trace.accepted|..] == before + [sample];
    assert r.trace.delivered[|start.trace.delivered|..] + r.sends ==
      s.trace.delivered[|start.trace.delivered|..] + s.sends + [sample];
    GatedAppend(env, s.activeConfig.value, start.lastSent, before, sample);
  }

  /** A position that is accepted becomes the queued baseline and joins the send chain, past the gate. */
  lemma AcceptedSample(env: Platform, s: State, at: real, coords: Coords) returns (sample: Sample)
    requires HandlePosition(env, s, at, coords).trace.accepted != s.trace.accepted
    ensures var r := HandlePosition(env, s, at, coords);
      && r.trace.accepted == s.trace.accepted + [sample] && r.sends == s.sends + [sample] &&
        r.lastQueued == Some(sample)
      && r.trace.delivered == s.trace.delivered && r.activeConfig == s.activeConfig
    ensures s.activeConfig.Some? &&
      (s.lastQueued.Some? ==> PassesGate(env, s.activeConfig.value, sample, s.lastQueued.value))
  {
    hide PassesGate, IsBackgroundBlocked;
    sample := Sample(s.trace.samplesMade, at, coords, s.hidden);
  }

  lemma GatedAppend(env: Platform, c: Config, base: Option<Sample>, s: seq<Sample>, next: Sample)
    requires Gated(env, c, base, s)
    requires var previous := if s == [] then base else Some(s[|s| - 1]);
      previous.Some? ==> PassesGate(env, c, next, previous.value)
    ensures Gated(env, c, base, s + [next])
  {
  }

  lemma LostGrows(env: Platform, s: State, op: Op)
    requires Enabled(s, op)
    ensures Step(env, s, op).trace.lost >= s.trace.lost
  {
    hide ShouldSendSample, BeginReconcile, AfterClear, AfterPermission, AfterWatch, AfterStaleClear;
    match op
    case Start(_) =>
    case Stop =>
    case Position(_, _) =>
    case SendTurn =>
    case SendReply(_) =>
    case _ => LifecycleLeavesSamples(env, s, op);
  }

  lemma {:induction false} LostNeverShrinks(env: Platform, s: State, ops: seq<Op>)
    requires Possible(env, s, ops)
    ensures Run(env, s, ops).trace.lost >= s.trace.lost
    decreases |ops|
  {
    hide Step;
    if ops != [] {
      LostGrows(env, s, ops[0]);
      LostNeverShrinks(env, Step(env, s, ops[0]), ops[1..]);
    }
  }

  lemma {:induction false} RunKeepsLossless(env: Platform, start: State, s: State, ops: seq<Op>)
    requires Possible(env, s, ops) && NoReset(env, s, ops) && LosslessSince(env, start, s)
    requires Run(env, s, ops).trace.lost == s.trace.lost
    ensures LosslessSince(env, start, Run(env, s, ops))
    decreases |ops|
  {
    hide Step, LosslessSince, Resets;
    if ops != [] {
      LostNeverShrinks(env, Step(env, s, ops[0]), ops[1..]);
      LostGrows(env, s, ops[0]);
      StepKeepsLossless(env, start, s, ops[0]);
      RunKeepsLossless(env, start, Step(env, s, ops[0]), ops[1..]);
    }
  }

  /** Over a stretch with no reset, failure or drop, the beacons delivered are a prefix of the
      samples accepted and each satisfies the interval-or-distance gate against the one before. */
  lemma DeliveredBeaconsAreGated(env: Platform, s: State, ops: seq<Op>)
    requires Possible(env, s, ops) && NoReset(env, s, ops)
    requires s.sends == [] && s.lastQueued == s.lastSent
    requires Run(env, s, ops).trace.lost == s.trace.lost
    ensures var r := Run(env, s, ops);
      && s.trace.delivered <= r.trace.delivered && s.trace.accepted <= r.trace.accepted
      && r.trace.delivered[|s.trace.delivered|..] <= r.trace.accepted[|s.trace.accepted|..]
      && (s.activeConfig.Some? ==>
        Gated(env, s.activeConfig.value, s.lastSent, r.trace.delivered[|s.trace.delivered|..]))
      && (s.activeConfig.None? ==> r.trace.delivered == s.trace.delivered)
  {
    RunKeepsLossless(env, s, s, ops);
  }
}
