/** What each step of the location beacon stream does, said of the fields of the
    configuration and of the stream before and after it. */
module LocationStreamEffects {
  import opened LocationStreamGuarantees
  import opened LocationStreamModel
  import opened Wrappers

  // ---------- start and stop ----------

  /** A new desire: it is active at once, is numbered, and has a reconcile enqueued for it. */
  predicate Desired(s: State, r: State, wish: Option<Config>) {
    && r.desiredConfig == r.activeConfig == wish
    && r.revision == s.revision + 1 && r.reconciles == s.reconciles + 1
    && (if wish.Some? && s.activeConfig == wish then r.lastSent == s.lastSent && r.lastQueued == s.lastQueued
        else r.lastSent == r.lastQueued == None)
    && r == s.(desiredConfig := r.desiredConfig, activeConfig := r.activeConfig, revision := r.revision,
               reconciles := r.reconciles, lastSent := r.lastSent, lastQueued := r.lastQueued)
  }

  /** What a start or stop asks for: a start that is switched off, or not on a native platform, is a stop. */
  function Wish(env: Platform, op: Op): Option<Config>
    requires op.Start? || op.Stop?
  {
    if op.Start? && op.config.streamEnabled && env.native then Some(op.config) else None
  }

  lemma DesireEffect(env: Platform, s: State, op: Op)
    requires op.Start? || op.Stop?
    ensures Desired(s, Step(env, s, op), Wish(env, op))
  {
  }

  /** What the last start or stop of a run asked for. */
  function LatestWish(env: Platform, ops: seq<Op>): Option<Config>
    decreases |ops|
  {
    if ops == [] then None
    else
      var last := ops[|ops| - 1];
      if last.Start? || last.Stop? then Wish(env, last) else LatestWish(env, ops[..|ops| - 1])
  }

  lemma OthersKeepDesire(env: Platform, s: State, op: Op)
    requires Enabled(s, op) && !op.Start? && !op.Stop?
    ensures var r := Step(env, s, op); r.desiredConfig == s.desiredConfig && r.activeConfig == s.activeConfig
  {
    hide BeginReconcile, AfterClear, AfterPermission, AfterWatch, AfterStaleClear, ShouldSendSample;
    match op
    case Position(_, _) =>
    case SendTurn =>
    case SendReply(_) =>
    case _ => LifecycleLeavesSamples(env, s, op);
  }

  lemma {:induction false} RunAppend(env: Platform, s: State, ops: seq<Op>, op: Op)
    requires Possible(env, s, ops + [op])
    ensures Possible(env, s, ops) && Enabled(Run(env, s, ops), op)
    ensures Run(env, s, ops + [op]) == Step(env, Run(env, s, ops), op)
    decreases |ops|
  {
    hide Step, Enabled;
    if ops == [] {
      assert [] + [op] == [op];
      assert [op][1..] == [];
    } else {
      assert (ops + [op])[1..] == ops[1..] + [op];
      RunAppend(env, Step(env, s, ops[0]), ops[1..], op);
    }
  }

  /** In every run the desired and the active configuration are what the last start or stop asked for. */
  lemma {:induction false} LatestWishIsDesired(env: Platform, hidden: bool, ops: seq<Op>)
    requires Possible(env, Initial(hidden), ops)
    ensures var s := Run(env, Initial(hidden), ops); s.desiredConfig == s.activeConfig == LatestWish(env, ops)
    decreases |ops|
  {
    hide Step, Desired;
    if ops != [] {
      var before, op := ops[..|ops| - 1], ops[|ops| - 1];
      assert before + [op] == ops;
      RunAppend(env, Initial(hidden), before, op);
      LatestWishIsDesired(env, hidden, before);
      var s := Run(env, Initial(hidden), before);
      if op.Start? || op.Stop? {
        DesireEffect(env, s, op);
        DesiredIsActive(s, Step(env, s, op), Wish(env, op));
      } else {
        OthersKeepDesire(env, s, op);
      }
    }
  }

  lemma DesiredIsActive(s: State, r: State, wish: Option<Config>)
    requires Desired(s, r, wish)
    ensures r.desiredConfig == r.activeConfig == wish
  {
  }

  // ---------- The reconcile ----------

  /** The options a watch for `c` runs with: its interval, and a fix no older than that or than a minute. */
  predicate OptionsFor(c: Config, o: WatchOptions) {
    && o.timeout == c.maxIntervalMs
    && o.maximumAge <= c.maxIntervalMs && o.maximumAge <= 60000.0
    && (o.maximumAge == c.maxIntervalMs || o.maximumAge == 60000.0)
  }

  /** A watch with options `o` is what the latest desire calls for. */
  predicate CallsFor(env: Platform, s: State, o: WatchOptions) {
    env.native && s.desiredConfig.Some? && s.desiredConfig.value.streamEnabled && OptionsFor(s.desiredConfig.value, o)
  }

  predicate CallsForNone(env: Platform, s: State) {
    !env.native || s.desiredConfig.None? || !s.desiredConfig.value.streamEnabled
  }

  /** Once the chain is empty and its last reconcile met no native error, the native side has one watch with the
      options of the configuration the last start asked for, or none if the last call was no such start. */
  lemma QuietStreamServesLatestWish(env: Platform, hidden: bool, ops: seq<Op>)
    requires Possible(env, Initial(hidden), ops)
    ensures var s, wish := Run(env, Initial(hidden), ops), LatestWish(env, ops);
      s.phase.Idle? && s.reconciles == 0 && !s.device.reconcileFailed ==>
        if wish.Some?
        then s.watchId.Some? && s.device.live.Keys == {s.watchId.value} &&
          OptionsFor(wish.value, s.device.live[s.watchId.value])
        else s.device.live == map[]
  {
    hide Run, Possible;
    LatestWishIsDesired(env, hidden, ops);
    WishIsEffective(env, ops);
    QuietStreamMatchesDesire(env, hidden, ops);
  }

  lemma {:induction false} WishIsEffective(env: Platform, ops: seq<Op>)
    ensures LatestWish(env, ops).Some? ==> env.native && LatestWish(env, ops).value.streamEnabled
    decreases |ops|
  {
    if ops != [] {
      WishIsEffective(env, ops[..|ops| - 1]);
    }
  }

  /** The reconcile ends, with no native error. */
  predicate Finished(s: State, r: State) {
    && r.phase == Idle && !r.device.reconcileFailed
    && r.device.watchesIssued == s.device.watchesIssued && r.errorsReported == s.errorsReported
  }

  /** A native error ends it, and is reported unless a later desire has superseded it. */
  predicate Failed(s: State, r: State, revision: nat) {
    && r.phase == Idle && r.device.reconcileFailed && r.device.watchesIssued == s.device.watchesIssued
    && r.errorsReported == s.errorsReported + if revision == s.revision then 1 else 0
  }

  /** The watch is forgotten and the native side asked to clear it, on the way to `next`. */
  predicate Clears(s: State, r: State, next: Option<WatchOptions>) {
    && r.watchId.None? && r.activeOptions.None? && r.phase == Clearing(s.watchId, next) && r.device == s.device
    && r.errorsReported == s.errorsReported
  }

  /** The next reconcile keeps a watch that already runs with the options called for, and otherwise clears what
      runs, on its way to the watch called for, if any. */
  predicate Reconciles(env: Platform, s: State, r: State) {
    && r.reconciles + 1 == s.reconciles
    && (if CallsForNone(env, s) then Clears(s, r, None)
        else if s.watchId.Some? && s.activeOptions.Some? && CallsFor(env, s, s.activeOptions.value) then
          Finished(s, r) && r.watchId == s.watchId && r.activeOptions == s.activeOptions &&
          r.device.live == s.device.live
        else
          r.phase.Clearing? && r.phase.next.Some? && CallsFor(env, s, r.phase.next.value) &&
          Clears(s, r, r.phase.next))
    && r == s.(reconciles := r.reconciles, phase := r.phase, watchId := r.watchId, activeOptions := r.activeOptions,
               device := r.device)
  }

  lemma ReconcileEffect(env: Platform, s: State)
    requires Enabled(s, Reconcile)
    ensures Reconciles(env, s, Step(env, s, Reconcile))
  {
  }

  /** The old watch is gone; permission is asked for the next one, under the revision current by now. */
  predicate Cleared(s: State, r: State)
    requires s.phase.Clearing?
  {
    && r.device.live == s.device.live - (if s.phase.watch.Some? then {s.phase.watch.value} else {})
    && (if s.phase.next.None? then Finished(s, r)
        else r.phase == Requesting(s.revision, s.phase.next.value) && r.device == s.device.(live := r.device.live))
    && r == s.(phase := r.phase, device := r.device)
  }

  lemma ClearEffect(env: Platform, s: State)
    requires s.phase.Clearing?
    ensures Cleared(s, Step(env, s, ClearReply))
  {
  }

  /** With permission, and unless a later desire has come up, the next native watch is started. */
  predicate Permitted(env: Platform, s: State, r: State, granted: bool)
    requires s.phase.Requesting?
  {
    && (if !granted then Failed(s, r, s.phase.revision) && r.device.live == s.device.live
        else if s.phase.revision == s.revision && CallsFor(env, s, s.phase.options) then
          && r.phase == Starting(s.device.watchesIssued, s.revision, s.phase.options)
          && r.device.live == s.device.live[s.device.watchesIssued := s.phase.options]
          && r.device.watchesIssued == s.device.watchesIssued + 1
          && r.device.reconcileFailed == s.device.reconcileFailed && r.errorsReported == s.errorsReported
        else Finished(s, r) && r.device.live == s.device.live)
    && r == s.(phase := r.phase, device := r.device, errorsReported := r.errorsReported)
  }

  lemma PermissionEffect(env: Platform, s: State, granted: bool)
    requires s.phase.Requesting?
    ensures Permitted(env, s, Step(env, s, PermissionReply(granted)), granted)
  {
  }

  /** A watch that started is kept if it is still called for, and is otherwise cleared again. */
  predicate Watched(env: Platform, s: State, r: State, started: bool)
    requires s.phase.Starting?
  {
    && (if !started then Failed(s, r, s.phase.revision) && r.device.live == s.device.live - {s.phase.started}
        else if s.phase.revision == s.revision && CallsFor(env, s, s.phase.options) then
          Finished(s, r) && r.device.live == s.device.live && r.watchId == Some(s.phase.started) &&
          r.activeOptions == Some(s.phase.options)
        else r.phase == ClearingStale(s.phase.started) && r.device == s.device)
    && r == s.(phase := r.phase, device := r.device, errorsReported := r.errorsReported,
               watchId := if r.watchId == Some(s.phase.started) then r.watchId else s.watchId,
               activeOptions := if r.watchId == Some(s.phase.started) then r.activeOptions else s.activeOptions)
  }

  lemma WatchEffect(env: Platform, s: State, started: bool)
    requires s.phase.Starting?
    ensures Watched(env, s, Step(env, s, WatchReply(started)), started)
  {
  }

  predicate StaleCleared(s: State, r: State)
    requires s.phase.ClearingStale?
  {
    && Finished(s, r) && r.device.live == s.device.live - {s.phase.stale}
    && r == s.(phase := r.phase, device := r.device)
  }

  lemma StaleClearEffect(env: Platform, s: State)
    requires s.phase.ClearingStale?
    ensures StaleCleared(s, Step(env, s, StaleClearReply))
  {
  }

  // ---------- Positions and sends ----------

  /** A configuration is active, and it streams in the background or the document is visible. */
  predicate Transmits(s: State) {
    s.activeConfig.Some? && (s.activeConfig.value.backgroundEnabled || !s.hidden)
  }

  /** A fix is accepted when the stream transmits, it is accurate enough, and there is no queued baseline, or the
      interval has passed or the distance is reached since that one. */
  predicate Admits(env: Platform, s: State, at: real, coords: Coords) {
    && Transmits(s)
    && coords.accuracyM <= s.activeConfig.value.maxAccuracyM
    && (|| s.lastQueued.None?
        || at - s.lastQueued.value.recordedAtMs >= s.activeConfig.value.maxIntervalMs
        || env.distance(s.lastQueued.value.coords, coords) >= s.activeConfig.value.distanceFilterM)
  }

  /** An accepted fix becomes the queued baseline and the last sample to send; any other leaves no trace but that a
      transmitting stream made a sample of it. */
  predicate Positioned(env: Platform, s: State, r: State, at: real, coords: Coords) {
    if Admits(env, s, at, coords) then
      && r.trace.samplesMade == s.trace.samplesMade + 1
      && r.lastQueued == Some(Sample(s.trace.samplesMade, at, coords, s.hidden))
      && r.sends == s.sends + [r.lastQueued.value] && r.trace.accepted == s.trace.accepted + [r.lastQueued.value]
      && r == s.(lastQueued := r.lastQueued, sends := r.sends, trace :=
            s.trace.(samplesMade := r.trace.samplesMade, accepted := r.trace.accepted))
    else
      r == s.(trace := s.trace.(samplesMade := s.trace.samplesMade + if Transmits(s) then 1 else 0))
  }

  lemma PositionEffect(env: Platform, s: State, at: real, coords: Coords)
    ensures Positioned(env, s, Step(env, s, Position(at, coords)), at, coords)
    ensures |Step(env, s, Position(at, coords)).trace.accepted| > |s.trace.accepted| <==> Admits(env, s, at, coords)
  {
  }

  /** The first sample is lost: if it is the queued baseline, that falls back to the last sample sent. */
  predicate Loses(s: State, r: State)
    requires s.sends != []
  {
    && r.lastQueued == (if s.lastQueued == Some(s.sends[0]) then s.lastSent else s.lastQueued)
    && r.sends == s.sends[1..] && !r.emitting && r.trace == s.trace.(lost := s.trace.lost + 1)
    && r == s.(lastQueued := r.lastQueued, sends := r.sends, emitting := r.emitting, trace := r.trace)
  }

  /** The turn of a sample: it is emitted if the stream still transmits, and lost if not. */
  predicate TakesTurn(s: State, r: State)
    requires s.sends != []
  {
    if Transmits(s) then r == s.(emitting := true) else Loses(s, r)
  }

  lemma TurnEffect(env: Platform, s: State)
    requires Enabled(s, SendTurn)
    ensures TakesTurn(s, Step(env, s, SendTurn))
  {
  }

  /** An acknowledged sample is delivered and becomes the last one sent; any other is lost. */
  predicate Answered(s: State, r: State, acknowledged: bool)
    requires s.sends != []
  {
    if acknowledged then
      && r.lastSent == Some(s.sends[0]) && r.trace == s.trace.(delivered := s.trace.delivered + [s.sends[0]])
      && r.sends == s.sends[1..] && !r.emitting
      && r == s.(lastSent := r.lastSent, sends := r.sends, emitting := r.emitting, trace := r.trace)
    else Loses(s, r)
  }

  lemma AnswerEffect(env: Platform, s: State, acknowledged: bool)
    requires Enabled(s, SendReply(acknowledged))
    ensures Answered(s, Step(env, s, SendReply(acknowledged)), acknowledged)
  {
  }

  /** A position error is reported while a configuration is active; showing or hiding the document changes only
      that. */
  lemma OtherEffects(env: Platform, s: State, hidden: bool)
    ensures Step(env, s, PositionError) ==
      s.(errorsReported := s.errorsReported + if s.activeConfig.Some? then 1 else 0)
    ensures Step(env, s, Visibility(hidden)) == s.(hidden := hidden)
  {
  }
}
