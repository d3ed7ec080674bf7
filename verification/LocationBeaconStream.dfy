/** The location beacon stream as the source writes it: closures over variables
    they reassign. Each method is the code between two awaits. */
module LocationBeaconStream {
  import E = LocationStreamEffects
  import opened LocationStreamGuarantees
  import M = LocationStreamModel
  import opened Wrappers

  class BeaconStream {
    const env: M.Platform
    var activeConfig: Option<M.Config>
    var desiredConfig: Option<M.Config>
    var desiredConfigRevision: nat
    var watchId: Option<nat>
    var activeWatchOptions: Option<M.WatchOptions>
    var lastSentSample: Option<M.Sample>
    var lastQueuedSample: Option<M.Sample>
    // The two promise chains, and where their heads are suspended.
    var lifecycleChain: nat
    var phase: M.Phase
    var sendChain: seq<M.Sample>
    var emitting: bool
    // The document, the native plugin, and the samples made so far.
    var hidden: bool
    var device: M.Device
    var errorsReported: nat
    var trace: M.Trace

    ghost function Snapshot(): M.State
      reads this
    {
      M.State(activeConfig, desiredConfig, desiredConfigRevision, watchId, activeWatchOptions,
              lastSentSample, lastQueuedSample, lifecycleChain, phase, sendChain, emitting,
              hidden, device, errorsReported, trace)
    }

    /** At most one native watch is live and accounted for, and sends keep the order of acceptance. */
    ghost predicate Valid()
      reads this
      ensures Valid() ==> |device.live| <= 1
    {
      assert StreamInv(env, Snapshot()) ==> |Snapshot().device.live.Keys| <= 1;
      StreamInv(env, Snapshot())
    }

    constructor (env: M.Platform, hidden: bool)
      ensures Valid()
      ensures Snapshot() == M.Initial(hidden) && this.env == env
      ensures activeConfig == desiredConfig == None && watchId.None? && activeWatchOptions.None?
      ensures lastSentSample == lastQueuedSample == None && sendChain == [] && !emitting
      ensures lifecycleChain == 0 && phase.Idle? && device.live == map[]
    {
      this.env, this.hidden := env, hidden;
      activeConfig, desiredConfig, desiredConfigRevision := None, None, 0;
      watchId, activeWatchOptions := None, None;
      lastSentSample, lastQueuedSample := None, None;
      lifecycleChain, phase, sendChain, emitting := 0, M.Idle, [], false;
      device, errorsReported := M.Device(map[], 0, false), 0;
      trace := M.Trace(0, [], [], 0);
    }

    method ResetSamples()
      modifies this`lastSentSample, this`lastQueuedSample
      ensures Snapshot() == M.ResetSamples(old(Snapshot()))
    {
      lastSentSample := None;
      lastQueuedSample := None;
    }

    method RestoreQueuedBaseline(sample: M.Sample)
      modifies this`lastQueuedSample
      ensures Snapshot() == M.RestoreQueuedBaseline(old(Snapshot()), sample)
    {
      if lastQueuedSample == Some(sample) {
        lastQueuedSample := lastSentSample;
      }
    }

    predicate IsStartStillDesired(revision: nat, options: M.WatchOptions)
      reads this
      ensures IsStartStillDesired(revision, options) == M.IsStartStillDesired(env, Snapshot(), revision, options)
    {
      if revision != desiredConfigRevision then false
      else if desiredConfig.None? || !desiredConfig.value.streamEnabled || !env.native then false
      else M.BuildNativeWatchOptions(desiredConfig.value) == options
    }

    // ---------- start and stop ----------

    method Stop()
      requires Valid()
      modifies this`desiredConfig, this`desiredConfigRevision, this`activeConfig, this`lastSentSample,
        this`lastQueuedSample, this`lifecycleChain
      ensures Snapshot() == M.Step(env, old(Snapshot()), M.Stop)
      ensures E.Desired(old(Snapshot()), Snapshot(), None)
      ensures Valid()
    {
      hide StreamInv, M.StartStream, M.BeginReconcile, M.AfterClear, M.AfterPermission, M.AfterWatch,
        M.AfterStaleClear, M.HandlePosition, M.BeginSend, M.AfterSend, E.Desired;
      E.DesireEffect(env, Snapshot(), M.Stop);
      StepKeepsStreamInv(env, Snapshot(), M.Stop);
      desiredConfig := None;
      desiredConfigRevision := desiredConfigRevision + 1;
      activeConfig := None;
      ResetSamples();
      lifecycleChain := lifecycleChain + 1;
    }

    method Start(config: M.Config)
      requires Valid()
      modifies this`desiredConfig, this`desiredConfigRevision, this`activeConfig, this`lastSentSample,
        this`lastQueuedSample, this`lifecycleChain
      ensures Snapshot() == M.Step(env, old(Snapshot()), M.Start(config))
      ensures E.Desired(old(Snapshot()), Snapshot(), if config.streamEnabled && env.native then Some(config) else None)
      ensures Valid()
    {
      hide StreamInv, M.BeginReconcile, M.AfterClear, M.AfterPermission, M.AfterWatch, M.AfterStaleClear,
        M.HandlePosition, M.BeginSend, M.AfterSend, E.Desired;
      E.DesireEffect(env, Snapshot(), M.Start(config));
      StepKeepsStreamInv(env, Snapshot(), M.Start(config));
      if !config.streamEnabled || !env.native {
        Stop();
        return;
      }
      if activeConfig != Some(config) {
        ResetSamples();
      }
      desiredConfig := Some(config);
      desiredConfigRevision := desiredConfigRevision + 1;
      activeConfig := desiredConfig;
      lifecycleChain := lifecycleChain + 1;
    }

    // ---------- The reconcile ----------

    /** Forgets the active watch and asks the native side to clear it. */
    method ClearActiveWatch(next: Option<M.WatchOptions>)
      modifies this`watchId, this`activeWatchOptions, this`phase
      ensures Snapshot() == M.ClearActiveWatch(old(Snapshot()), next)
    {
      if watchId.None? {
        activeWatchOptions := None;
        phase := M.Clearing(None, next);
        return;
      }
      var currentWatchId := watchId;
      watchId := None;
      activeWatchOptions := None;
      phase := M.Clearing(currentWatchId, next);
    }

    method ReconcileWatchLifecycle()
      requires Valid() && phase.Idle? && lifecycleChain > 0
      modifies this
      ensures Snapshot() == M.Step(env, old(Snapshot()), M.Reconcile)
      ensures E.Reconciles(env, old(Snapshot()), Snapshot())
      ensures Valid()
    {
      hide StreamInv, M.StartStream, M.StopStream, M.AfterClear, M.AfterPermission, M.AfterWatch,
        M.AfterStaleClear, M.HandlePosition, M.BeginSend, M.AfterSend, M.BuildNativeWatchOptions, E.Reconciles;
      E.ReconcileEffect(env, Snapshot());
      StepKeepsStreamInv(env, Snapshot(), M.Reconcile);
      lifecycleChain := lifecycleChain - 1;
      if desiredConfig.None? || !desiredConfig.value.streamEnabled || !env.native {
        ClearActiveWatch(None);
        return;
      }
      var nextWatchOptions := M.BuildNativeWatchOptions(desiredConfig.value);
      if watchId.Some? && activeWatchOptions == Some(nextWatchOptions) {
        phase, device := M.Idle, device.(reconcileFailed := false);
        return;
      }
      ClearActiveWatch(Some(nextWatchOptions));
    }

    method AfterClear()
      requires Valid() && phase.Clearing?
      modifies this
      ensures Snapshot() == M.Step(env, old(Snapshot()), M.ClearReply)
      ensures E.Cleared(old(Snapshot()), Snapshot())
      ensures Valid()
    {
      hide StreamInv, M.StartStream, M.StopStream, M.BeginReconcile, M.AfterPermission, M.AfterWatch,
        M.AfterStaleClear, M.HandlePosition, M.BeginSend, M.AfterSend, E.Cleared;
      E.ClearEffect(env, Snapshot());
      StepKeepsStreamInv(env, Snapshot(), M.ClearReply);
      device := device.(live := device.live - M.WatchSet(phase.watch));
      if phase.next.None? {
        phase, device := M.Idle, device.(reconcileFailed := false);
        return;
      }
      var revision := desiredConfigRevision;
      phase := M.Requesting(revision, phase.next.value);
    }

    method CatchError(revision: nat)
      modifies this
      ensures Snapshot() == M.Fail(old(Snapshot()), revision)
    {
      phase, device := M.Idle, device.(reconcileFailed := true);
      if revision != desiredConfigRevision {
        return;
      }
      errorsReported := errorsReported + 1;
    }

    method AfterRequestPermissions(granted: bool)
      requires Valid() && phase.Requesting?
      modifies this
      ensures Snapshot() == M.Step(env, old(Snapshot()), M.PermissionReply(granted))
      ensures E.Permitted(env, old(Snapshot()), Snapshot(), granted)
      ensures Valid()
    {
      hide StreamInv, M.StartStream, M.StopStream, M.BeginReconcile, M.AfterClear, M.AfterWatch,
        M.AfterStaleClear, M.HandlePosition, M.BeginSend, M.AfterSend, M.IsStartStillDesired, M.Streaming,
        M.BuildNativeWatchOptions, E.Permitted;
      E.PermissionEffect(env, Snapshot(), granted);
      StepKeepsStreamInv(env, Snapshot(), M.PermissionReply(granted));
      var revision, options := phase.revision, phase.options;
      if !granted {
        CatchError(revision);
        return;
      }
      if !IsStartStillDesired(revision, options) {
        phase, device := M.Idle, device.(reconcileFailed := false);
        return;
      }
      var nextWatchId := device.watchesIssued;
      device := device.(live := device.live[nextWatchId := options], watchesIssued := nextWatchId + 1);
      phase := M.Starting(nextWatchId, revision, options);
    }

    method AfterWatchPosition(started: bool)
      requires Valid() && phase.Starting?
      modifies this
      ensures Snapshot() == M.Step(env, old(Snapshot()), M.WatchReply(started))
      ensures E.Watched(env, old(Snapshot()), Snapshot(), started)
      ensures Valid()
    {
      hide StreamInv, M.StartStream, M.StopStream, M.BeginReconcile, M.AfterClear, M.AfterPermission,
        M.AfterStaleClear, M.HandlePosition, M.BeginSend, M.AfterSend, M.IsStartStillDesired, M.Streaming,
        M.BuildNativeWatchOptions, E.Watched;
      E.WatchEffect(env, Snapshot(), started);
      StepKeepsStreamInv(env, Snapshot(), M.WatchReply(started));
      var nextWatchId, revision, options := phase.started, phase.revision, phase.options;
      if !started {
        device := device.(live := device.live - {nextWatchId});
        CatchError(revision);
        return;
      }
      if !IsStartStillDesired(revision, options) {
        phase := M.ClearingStale(nextWatchId);
        return;
      }
      watchId := Some(nextWatchId);
      activeWatchOptions := Some(options);
      phase, device := M.Idle, device.(reconcileFailed := false);
    }

    method AfterStaleClear()
      requires Valid() && phase.ClearingStale?
      modifies this
      ensures Snapshot() == M.Step(env, old(Snapshot()), M.StaleClearReply)
      ensures E.StaleCleared(old(Snapshot()), Snapshot())
      ensures Valid()
    {
      hide StreamInv, M.StartStream, M.StopStream, M.BeginReconcile, M.AfterClear, M.AfterPermission,
        M.AfterWatch, M.HandlePosition, M.BeginSend, M.AfterSend, E.StaleCleared;
      E.StaleClearEffect(env, Snapshot());
      StepKeepsStreamInv(env, Snapshot(), M.StaleClearReply);
      device := device.(live := device.live - {phase.stale});
      phase, device := M.Idle, device.(reconcileFailed := false);
    }

    // ---------- Positions and sends ----------

    method HandlePosition(recordedAtMs: real, coords: M.Coords)
      requires Valid()
      modifies this
      ensures Snapshot() == M.Step(env, old(Snapshot()), M.Position(recordedAtMs, coords))
      ensures E.Positioned(env, old(Snapshot()), Snapshot(), recordedAtMs, coords)
      ensures Valid()
    {
      hide StreamInv, M.StartStream, M.StopStream, M.BeginReconcile, M.AfterClear, M.AfterPermission,
        M.AfterWatch, M.AfterStaleClear, M.BeginSend, M.AfterSend, M.ShouldSendSample, M.IsBackgroundBlocked,
        E.Positioned;
      E.PositionEffect(env, Snapshot(), recordedAtMs, coords);
      StepKeepsStreamInv(env, Snapshot(), M.Position(recordedAtMs, coords));
      if activeConfig.None? {
        return;
      }
      if M.IsBackgroundBlocked(activeConfig.value, hidden) {
        return;
      }
      var nextSample := M.Sample(trace.samplesMade, recordedAtMs, coords, hidden);
      trace := trace.(samplesMade := trace.samplesMade + 1);
      var send := ShouldSendSample(activeConfig.value, nextSample, lastQueuedSample);
      if !send {
        return;
      }
      lastQueuedSample := Some(nextSample);
      sendChain := sendChain + [nextSample];
      trace := trace.(accepted := trace.accepted + [nextSample]);
    }

    method HandleError()
      requires Valid()
      modifies this`errorsReported
      ensures Snapshot() == M.Step(env, old(Snapshot()), M.PositionError)
      ensures errorsReported == old(errorsReported) + if activeConfig.Some? then 1 else 0
      ensures Valid()
    {
      hide StreamInv, M.StartStream, M.StopStream, M.BeginReconcile, M.AfterClear, M.AfterPermission,
        M.AfterWatch, M.AfterStaleClear, M.HandlePosition, M.BeginSend, M.AfterSend;
      StepKeepsStreamInv(env, Snapshot(), M.PositionError);
      if activeConfig.None? {
        return;
      }
      errorsReported := errorsReported + 1;
    }

    method ShouldSendSample(config: M.Config, current: M.Sample, previous: Option<M.Sample>) returns (send: bool)
      ensures send == M.ShouldSendSample(env, config, current, previous)
    {
      if current.coords.accuracyM > config.maxAccuracyM {
        return false;
      }
      if previous.None? {
        return true;
      }
      if current.recordedAtMs - previous.value.recordedAtMs >= config.maxIntervalMs {
        return true;
      }
      return env.distance(previous.value.coords, current.coords) >= config.distanceFilterM;
    }

    /** The first send of the chain takes its turn. */
    method SendTurn()
      requires Valid() && sendChain != [] && !emitting
      modifies this
      ensures Snapshot() == M.Step(env, old(Snapshot()), M.SendTurn)
      ensures E.TakesTurn(old(Snapshot()), Snapshot())
      ensures Valid()
    {
      hide StreamInv, M.StartStream, M.StopStream, M.BeginReconcile, M.AfterClear, M.AfterPermission,
        M.AfterWatch, M.AfterStaleClear, M.HandlePosition, M.AfterSend, M.IsBackgroundBlocked, E.TakesTurn;
      E.TurnEffect(env, Snapshot());
      StepKeepsStreamInv(env, Snapshot(), M.SendTurn);
      var sample := sendChain[0];
      if activeConfig.None? || M.IsBackgroundBlocked(activeConfig.value, hidden) {
        RestoreQueuedBaseline(sample);
        sendChain, emitting := sendChain[1..], false;
        trace := trace.(lost := trace.lost + 1);
        return;
      }
      emitting := true;
    }

    method AfterBeacon(acknowledged: bool)
      requires Valid() && sendChain != [] && emitting
      modifies this
      ensures Snapshot() == M.Step(env, old(Snapshot()), M.SendReply(acknowledged))
      ensures E.Answered(old(Snapshot()), Snapshot(), acknowledged)
      ensures Valid()
    {
      hide StreamInv, M.StartStream, M.StopStream, M.BeginReconcile, M.AfterClear, M.AfterPermission,
        M.AfterWatch, M.AfterStaleClear, M.HandlePosition, M.BeginSend, E.Answered;
      E.AnswerEffect(env, Snapshot(), acknowledged);
      StepKeepsStreamInv(env, Snapshot(), M.SendReply(acknowledged));
      var sample := sendChain[0];
      if acknowledged {
        lastSentSample := Some(sample);
        trace := trace.(delivered := trace.delivered + [sample]);
      } else {
        RestoreQueuedBaseline(sample);
        trace := trace.(lost := trace.lost + 1);
      }
      sendChain, emitting := sendChain[1..], false;
    }
  }
}
