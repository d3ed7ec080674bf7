/** The mobile location beacon stream as a state machine. Each operation is the
    code that runs between two awaits, so any interleaving of `start`, `stop`,
    native replies, positions and sends is a sequence of operations. */
module LocationStreamModel {
  import opened Wrappers

  datatype Config = Config(streamEnabled: bool, distanceFilterM: real, maxIntervalMs: real, maxAccuracyM: real,
    backgroundEnabled: bool)

  datatype WatchOptions = WatchOptions(timeout: real, maximumAge: real)

  datatype Coords = Coords(latitude: real, longitude: real, accuracyM: real)

  /** A sample object; `id` stands for its identity. */
  datatype Sample = Sample(id: nat, recordedAtMs: real, coords: Coords, isBackground: bool)

  /** Whether the platform is native, and the distance in metres between two fixes. */
  datatype Platform = Platform(native: bool, distance: (Coords, Coords) -> real)

  /** Where the running reconcile is suspended. `next` holds the options it goes on to start a watch with. */
  datatype Phase =
    | Idle
    | Clearing(watch: Option<nat>, next: Option<WatchOptions>)
    | Requesting(revision: nat, options: WatchOptions)
    | Starting(started: nat, revision: nat, options: WatchOptions)
    | ClearingStale(stale: nat)

  /** The native side: the live watches, the number of watches ever started, and whether the last
      finished reconcile met a native error. */
  datatype Device = Device(live: map<nat, WatchOptions>, watchesIssued: nat, reconcileFailed: bool)

  /** The history of samples: how many were made, which were accepted and delivered, and how many were lost. */
  datatype Trace = Trace(samplesMade: nat, accepted: seq<Sample>, delivered: seq<Sample>, lost: nat)

  datatype State = State(
    activeConfig: Option<Config>,
    desiredConfig: Option<Config>,
    revision: nat,
    watchId: Option<nat>,
    activeOptions: Option<WatchOptions>,
    lastSent: Option<Sample>,
    lastQueued: Option<Sample>,
    reconciles: nat,       // enqueued on the lifecycle chain and not begun
    phase: Phase,          // the reconcile at the head of the chain
    sends: seq<Sample>,    // the send chain, first to run first
    emitting: bool,        // the first send awaits its acknowledgement
    hidden: bool,          // the document is hidden
    device: Device,
    errorsReported: nat,
    trace: Trace)

  function Initial(hidden: bool): State {
    State(None, None, 0, None, None, None, None, 0, Idle, [], false, hidden, Device(map[], 0, false), 0,
      Trace(0, [], [], 0))
  }

  // ---------- Configuration ----------

  function BuildNativeWatchOptions(c: Config): WatchOptions {
    WatchOptions(c.maxIntervalMs, if c.maxIntervalMs < 60000.0 then c.maxIntervalMs else 60000.0)
  }

  predicate Streaming(env: Platform, s: State) {
    s.desiredConfig.Some? && s.desiredConfig.value.streamEnabled && env.native
  }

  predicate IsStartStillDesired(env: Platform, s: State, revision: nat, options: WatchOptions) {
    revision == s.revision && Streaming(env, s) && BuildNativeWatchOptions(s.desiredConfig.value) == options
  }

  predicate IsBackgroundBlocked(c: Config, hidden: bool) {
    !c.backgroundEnabled && hidden
  }

  /** The interval-or-distance gate between a sample and the one before it. */
  predicate PassesGate(env: Platform, c: Config, current: Sample, previous: Sample) {
    current.recordedAtMs - previous.recordedAtMs >= c.maxIntervalMs
    || env.distance(previous.coords, current.coords) >= c.distanceFilterM
  }

  predicate ShouldSendSample(env: Platform, c: Config, current: Sample, previous: Option<Sample>) {
    current.coords.accuracyM <= c.maxAccuracyM && (previous.None? || PassesGate(env, c, current, previous.value))
  }

  // ---------- start and stop ----------

  function ResetSamples(s: State): State {
    s.(lastSent := None, lastQueued := None)
  }

  function StopStream(s: State): State {
    ResetSamples(s).(desiredConfig := None, revision := s.revision + 1, activeConfig := None,
      reconciles := s.reconciles + 1)
  }

  function StartStream(env: Platform, s: State, c: Config): State {
    if !c.streamEnabled || !env.native then StopStream(s)
    else
      var kept := if s.activeConfig == Some(c) then s else ResetSamples(s);
      kept.(desiredConfig := Some(c), revision := s.revision + 1, activeConfig := Some(c),
        reconciles := s.reconciles + 1)
  }

  // ---------- The reconcile, segment by segment ----------

  function Finish(s: State, failed: bool): State {
    s.(phase := Idle, device := s.device.(reconcileFailed := failed))
  }

  function ClearActiveWatch(s: State, next: Option<WatchOptions>): State {
    s.(watchId := None, activeOptions := None, phase := Clearing(s.watchId, next))
  }

  function BeginReconcile(env: Platform, s: State): State {
    var begun := s.(reconciles := if s.reconciles == 0 then 0 else s.reconciles - 1);
    if !Streaming(env, s) then ClearActiveWatch(begun, None)
    else
      var next := BuildNativeWatchOptions(s.desiredConfig.value);
      if s.watchId.Some? && s.activeOptions == Some(next) then Finish(begun, false)
      else ClearActiveWatch(begun, Some(next))
  }

  function WithLive(s: State, live: map<nat, WatchOptions>): State {
    s.(device := s.device.(live := live))
  }

  function WatchSet(w: Option<nat>): set<nat> {
    if w.Some? then {w.value} else {}
  }

  function AfterClear(s: State): State
    requires s.phase.Clearing?
  {
    var cleared := WithLive(s, s.device.live - WatchSet(s.phase.watch));
    if s.phase.next.None? then Finish(cleared, false)
    else cleared.(phase := Requesting(s.revision, s.phase.next.value))
  }

  /** The catch block: an error of a superseded reconcile is swallowed. */
  function Fail(s: State, revision: nat): State {
    Finish(s, true).(errorsReported := if revision == s.revision then s.errorsReported + 1 else s.errorsReported)
  }

  function AfterPermission(env: Platform, s: State, granted: bool): State
    requires s.phase.Requesting?
  {
    if !granted then Fail(s, s.phase.revision)
    else if !IsStartStillDesired(env, s, s.phase.revision, s.phase.options) then Finish(s, false)
    else
      s.(phase := Starting(s.device.watchesIssued, s.phase.revision, s.phase.options),
         device := s.device.(live := s.device.live[s.device.watchesIssued := s.phase.options],
                             watchesIssued := s.device.watchesIssued + 1))
  }

  function AfterWatch(env: Platform, s: State, started: bool): State
    requires s.phase.Starting?
  {
    if !started then Fail(WithLive(s, s.device.live - {s.phase.started}), s.phase.revision)
    else if !IsStartStillDesired(env, s, s.phase.revision, s.phase.options) then s.(phase :=
      ClearingStale(s.phase.started))
    else Finish(s.(watchId := Some(s.phase.started), activeOptions := Some(s.phase.options)), false)
  }

  function AfterStaleClear(s: State): State
    requires s.phase.ClearingStale?
  {
    Finish(WithLive(s, s.device.live - {s.phase.stale}), false)
  }

  // ---------- Positions and sends ----------

  function HandlePosition(env: Platform, s: State, recordedAtMs: real, coords: Coords): State {
    if s.activeConfig.None? || IsBackgroundBlocked(s.activeConfig.value, s.hidden) then s
    else
      var sample := Sample(s.trace.samplesMade, recordedAtMs, coords, s.hidden);
      var made := s.(trace := s.trace.(samplesMade := s.trace.samplesMade + 1));
      if !ShouldSendSample(env, s.activeConfig.value, sample, s.lastQueued) then made
      else made.(lastQueued := Some(sample), sends := s.sends + [sample],
                 trace := made.trace.(accepted := s.trace.accepted + [sample]))
  }

  function RestoreQueuedBaseline(s: State, sample: Sample): State {
    if s.lastQueued == Some(sample) then s.(lastQueued := s.lastSent) else s
  }

  function Lose(s: State): State
    requires s.sends != []
  {
    RestoreQueuedBaseline(s, s.sends[0]).(sends := s.sends[1..], emitting := false,
      trace := s.trace.(lost := s.trace.lost + 1))
  }

  function BeginSend(s: State): State
    requires s.sends != []
  {
    if s.activeConfig.None? || IsBackgroundBlocked(s.activeConfig.value, s.hidden) then Lose(s)
    else s.(emitting := true)
  }

  function AfterSend(s: State, acknowledged: bool): State
    requires s.sends != []
  {
    if acknowledged
    then s.(lastSent := Some(s.sends[0]), sends := s.sends[1..], emitting := false,
            trace := s.trace.(delivered := s.trace.delivered + [s.sends[0]]))
    else Lose(s)
  }

  // ---------- Runs ----------

  datatype Op =
    | Start(config: Config)
    | Stop
    | Reconcile
    | ClearReply
    | PermissionReply(granted: bool)
    | WatchReply(started: bool)
    | StaleClearReply
    | Position(recordedAtMs: real, coords: Coords)
    | PositionError
    | Visibility(hidden: bool)
    | SendTurn
    | SendReply(acknowledged: bool)

  /** Whether `op` can happen next: native replies only to the call awaited, and one reconcile and one send at a
      time. */
  predicate Enabled(s: State, op: Op) {
    match op
    case Reconcile => s.phase.Idle? && s.reconciles > 0
    case ClearReply => s.phase.Clearing?
    case PermissionReply(_) => s.phase.Requesting?
    case WatchReply(_) => s.phase.Starting?
    case StaleClearReply => s.phase.ClearingStale?
    case SendTurn => s.sends != [] && !s.emitting
    case SendReply(_) => s.sends != [] && s.emitting
    case _ => true
  }

  function Step(env: Platform, s: State, op: Op): State
    requires Enabled(s, op)
  {
    match op
    case Start(c) => StartStream(env, s, c)
    case Stop => StopStream(s)
    case Reconcile => BeginReconcile(env, s)
    case ClearReply => AfterClear(s)
    case PermissionReply(granted) => AfterPermission(env, s, granted)
    case WatchReply(started) => AfterWatch(env, s, started)
    case StaleClearReply => AfterStaleClear(s)
    case Position(at, coords) => HandlePosition(env, s, at, coords)
    case PositionError => if s.activeConfig.None? then s else s.(errorsReported := s.errorsReported + 1)
    case Visibility(hidden) => s.(hidden := hidden)
    case SendTurn => BeginSend(s)
    case SendReply(acknowledged) => AfterSend(s, acknowledged)
  }

  predicate Possible(env: Platform, s: State, ops: seq<Op>)
    decreases |ops|
  {
    ops == [] || (Enabled(s, ops[0]) && Possible(env, Step(env, s, ops[0]), ops[1..]))
  }

  function Run(env: Platform, s: State, ops: seq<Op>): State
    requires Possible(env, s, ops)
    decreases |ops|
  {
    if ops == [] then s else Run(env, Step(env, s, ops[0]), ops[1..])
  }
}
