/**
 The Live Desk coordinator as a transition system. Every segment that runs under the
 coordinator's mutex is one atomic step; between two segments of a task any other step may run.
 Timers and network replies may come at any time, so delays appear only where the code
 relies on them (the send throttle).
 */
module CoordinatorModel {
  import opened Options
  import opened Negotiation
  import MediaSessions

  type TaskId = nat

  // The seven values the coordinator holds; the facade adds "not paired".
  datatype RuntimeState =
    Disabled | Connecting | Active | Degraded | Suspended | UpdateRequired | ServerFeatureUnavailable

  // `urlParses` is the outcome of parsing the stored base URL.
  datatype Connection = Connection(
    baseUrl: string, urlParses: bool, deviceId: string, pairingNextSequence: nat, liveDeskEnabled: bool)

  // A presence client object, with the sequencer object it shares.
  datatype Client = Client(id: nat, sequencer: nat)

  datatype Authority = Authority(key: string, sequencer: nat, client: Option<Client>)

  datatype Inner = Inner(
    generation: nat,
    state: RuntimeState,
    stopping: bool,
    refreshRequested: bool,
    refreshLoopRunning: bool,
    heartbeatTask: Option<TaskId>,
    reconnectTask: Option<TaskId>,
    cleanupTask: Option<TaskId>,
    lastSendStartedAt: int,
    client: Option<Client>,
    includeMedia: bool,
    requestedLeaseSeconds: int,
    heartbeatSeconds: real,
    minSendIntervalMs: nat,
    registry: Option<Authority>)

  datatype ConfigurePoint =
    | Entry
    | ReadingConnection
    | Refusing
    | AwaitingToken(connection: Connection)
    | AwaitingCapabilities(connection: Connection)

  datatype LoopPoint =
    | Head
    | Throttling(until: int)
    | Capturing(client: Client, includeMedia: bool)
    | Captured(client: Client, session: Option<nat>)
    | Sending(client: Client)

  datatype ShutdownPoint = JoiningSleepClear(pending: Option<TaskId>) | FinalClear(join: Option<TaskId>)

  datatype Task =
    | Configure(gen: nat, at: ConfigurePoint)
    | Retry(gen: nat)
    | Heartbeat(gen: nat)
    | RefreshLoop(gen: nat, point: LoopPoint)
    | Clear(client: Client)
    | BoundedJoin(clear: TaskId)
    | Wake(pending: Option<TaskId>)
    // disable_live_desk between its configuration write (the `write`-th epoch) and its shutdown call
    | Disabling(write: nat)
    | Shutdown(gen: nat, lastClient: Option<Client>, wasSuspended: bool, phase: ShutdownPoint, disabling: Option<nat>)

  // What happened so far; no step reads it.
  datatype History = History(
    sends: seq<int>,                 // send-start stamps, oldest first
    handed: set<(nat, nat)>,         // (generation, media session id) given to replace_presence
    highestRate: nat,                // greatest requests-per-minute ever negotiated, 0 before the first
    enablingWrites: nat,             // configuration writes that left Live Desk enabled
    // enablingWrites at the write of every disable that has returned; a process that starts on a
    // disabled configuration starts as one whose disable has returned
    disablesReturned: set<nat>,
    // generations whose stored base URL did not parse and that have failed no publish since
    deadEnds: set<nat>,
    loop: TaskId,                    // the refresh loop, shutdown and negotiation started last
    shutdown: TaskId,
    negotiation: TaskId)

  datatype World = World(
    inner: Inner,
    tasks: map<TaskId, Task>,
    aborted: set<TaskId>,
    nextTask: TaskId,
    nextObject: nat,
    tracker: MediaSessions.Tracker,
    connection: Option<Connection>,
    now: int,
    history: History)

  // What one capture does to the media session tracker.
  datatype CaptureOutcome = Untouched | Broken | Shared(identity: MediaSessions.MediaSemanticIdentity)

  datatype Input =
    | Continue
    | Token(present: bool)
    | CapabilitiesFailed
    | Negotiated(negotiation: PresenceNegotiation)
    | CaptureDone(capture: CaptureOutcome)
    | PublishOk
    | PublishNeedsRenegotiation
    | PublishFailed
    | Cancelled

  datatype Action =
    | Start
    | RequestFreshSnapshot
    | SleepOrLock
    | WakeOrUnlock
    | BeginShutdown
    | DiscardAuthority
    | BeginDisable
    | WriteConnection(next: Option<Connection>)
    | PreviewCapture(capture: CaptureOutcome)
    | Tick(now: int)
    | Run(id: TaskId, input: Input)

  function Initial(connection: Option<Connection>, now: int): World {
    World(
      Inner(0, Disabled, false, false, false, None, None, None, 0, None, false, 90, 0.0, 2000, None),
      map[], {}, 0, 0, MediaSessions.Tracker(None, 0), connection, now,
      History([], {}, 0, 0, if Enabled(connection) then {} else {0}, {}, 0, 0, 0))
  }

  // ---- tasks ------------------------------------------------------------------------------

  function Spawn(w: World, t: Task): World {
    w.(tasks := w.tasks[w.nextTask := t], nextTask := w.nextTask + 1)
  }

  function Move(w: World, id: TaskId, t: Task): World {
    w.(tasks := w.tasks[id := t])
  }

  function Finish(w: World, id: TaskId): World {
    w.(tasks := w.tasks - {id})
  }

  // Aborting takes effect at the task's next await, so an aborted task may still run one segment.
  function Abort(aborted: set<TaskId>, handle: Option<TaskId>): set<TaskId> {
    if handle.Some? then aborted + {handle.value} else aborted
  }

  predicate Joined(w: World, handle: Option<TaskId>) {
    handle.Some? ==> handle.value !in w.tasks
  }

  // ---- locked helpers -----------------------------------------------------------------------

  function SetState(w: World, state: RuntimeState): World {
    w.(inner := w.inner.(state := state))
  }

  function BeginNewGeneration(w: World, state: RuntimeState): World {
    w.(
      inner := w.inner.(
        generation := w.inner.generation + 1, heartbeatTask := None, reconnectTask := None,
        refreshRequested := false, state := state),
      aborted := Abort(Abort(w.aborted, w.inner.heartbeatTask), w.inner.reconnectTask),
      tracker := MediaSessions.Reset(w.tracker))
  }

  function StartLocked(w: World): World {
    if w.inner.stopping then w
    else
      var restarted := BeginNewGeneration(w, Connecting);
      Spawn(restarted.(history := w.history.(negotiation := w.nextTask)), Configure(restarted.inner.generation, Entry))
  }

  function ScheduleRetry(w: World, gen: nat): World {
    Spawn(w.(inner := w.inner.(reconnectTask := Some(w.nextTask)),
             aborted := Abort(w.aborted, w.inner.reconnectTask)), Retry(gen))
  }

  function SpawnHeartbeat(w: World, gen: nat, seconds: real): World {
    Spawn(w.(inner := w.inner.(heartbeatTask := Some(w.nextTask), heartbeatSeconds := seconds),
             aborted := Abort(w.aborted, w.inner.heartbeatTask)), Heartbeat(gen))
  }

  function TriggerRefresh(w: World, gen: nat): World {
    if w.inner.refreshLoopRunning then w.(inner := w.inner.(refreshRequested := true))
    else
      Spawn(w.(inner := w.inner.(refreshRequested := true, refreshLoopRunning := true),
               history := w.history.(loop := w.nextTask)), RefreshLoop(gen, Head))
  }

  // The clear on its own task, then the bounded join whose handle (the second task id) is returned.
  function SpawnClear(w: World, client: Client): World {
    Spawn(Spawn(w, Clear(client)), BoundedJoin(w.nextTask))
  }

  // A loop's exit: the flag is released in the loop's final locked segment.
  function LeaveLoop(w: World, id: TaskId): World {
    Finish(w.(inner := w.inner.(refreshLoopRunning := false)), id)
  }

  // ---- entry points ---------------------------------------------------------------------------

  function RequestFresh(w: World): World {
    if w.inner.state != Active && w.inner.state != Degraded then w else TriggerRefresh(w, w.inner.generation)
  }

  function Sleep(w: World): World {
    if w.inner.state == Suspended || w.inner.stopping then w
    else
      var suspended := BeginNewGeneration(w, Suspended);
      if w.inner.client.None? then suspended
      else
        var clearing := SpawnClear(suspended, w.inner.client.value);
        clearing.(inner := clearing.inner.(cleanupTask := Some(w.nextTask + 1)))
  }

  function BeginWake(w: World): World {
    if w.inner.state != Suspended then w
    else Spawn(w.(inner := w.inner.(cleanupTask := None)), Wake(w.inner.cleanupTask))
  }

  function FinishWake(w: World, id: TaskId): World {
    if w.inner.state != Suspended || w.inner.stopping then Finish(w, id) else StartLocked(Finish(w, id))
  }

  // The first segment of `shutdown`, run by task `id`.
  function EnterShutdown(w: World, id: TaskId, disabling: Option<nat>): World {
    var stopped := BeginNewGeneration(w.(inner := w.inner.(stopping := true)), Disabled);
    Move(stopped.(inner := stopped.inner.(cleanupTask := None), history := w.history.(shutdown := id)), id,
         Shutdown(stopped.inner.generation, w.inner.client, w.inner.state == Suspended,
                  JoiningSleepClear(w.inner.cleanupTask), disabling))
  }

  function CallShutdown(w: World): World {
    if w.inner.stopping then w
    else EnterShutdown(w.(nextTask := w.nextTask + 1), w.nextTask, None)
  }

  function NoteReturned(w: World, disabling: Option<nat>): World {
    if disabling.None? then w
    else w.(history := w.history.(disablesReturned := w.history.disablesReturned + {disabling.value}))
  }

  function CallShutdownForDisable(w: World, id: TaskId, write: nat): World {
    if w.inner.stopping then NoteReturned(Finish(w, id), Some(write)) else EnterShutdown(w, id, Some(write))
  }

  function ShutdownAfterJoin(w: World, id: TaskId, t: Task): World
    requires t.Shutdown?
  {
    if t.wasSuspended || t.lastClient.None? then Move(w, id, t.(phase := FinalClear(None)))
    else
      var clearing := SpawnClear(w, t.lastClient.value);
      Move(clearing, id, t.(phase := FinalClear(Some(w.nextTask + 1))))
  }

  function FinishShutdown(w: World, id: TaskId, t: Task): World
    requires t.Shutdown?
  {
    NoteReturned(Finish(w.(inner := w.inner.(client := None, stopping := false)), id), t.disabling)
  }

  function Discard(w: World): World {
    w.(inner := w.inner.(registry := None, client := None))
  }

  predicate Enabled(connection: Option<Connection>) {
    connection.Some? && connection.value.liveDeskEnabled
  }

  function StoreConnection(w: World, next: Option<Connection>): World {
    w.(connection := next,
       history := if Enabled(next) then w.history.(enablingWrites := w.history.enablingWrites + 1) else w.history)
  }

  function WriteDisable(w: World): World {
    var off := if w.connection.Some? then Some(w.connection.value.(liveDeskEnabled := false)) else None;
    Spawn(StoreConnection(w, off), Disabling(w.history.enablingWrites))
  }

  // ---- configure --------------------------------------------------------------------------------

  function DivCeil(a: nat, b: nat): nat
    requires b > 0
  {
    (a + b - 1) / b
  }

  function RequestedLease(c: Configuration): int {
    var atLeast := if 90 < c.leaseMinSeconds then c.leaseMinSeconds else 90;
    if c.leaseMaxSeconds < atLeast then c.leaseMaxSeconds else atLeast
  }

  function HeartbeatPeriod(c: Configuration): real {
    var third := RequestedLease(c) as real / 3.0;
    var bound := if third < 1.0 then 1.0 else third;
    if bound < c.recommendedHeartbeatSeconds as real then bound else c.recommendedHeartbeatSeconds as real
  }

  // `AuthorityRegistry::resolve`: the current authority when its key matches, else a new sequencer.
  function Resolve(w: World, key: string): (r: (World, Authority)) {
    if w.inner.registry.Some? && w.inner.registry.value.key == key then (w, w.inner.registry.value)
    else
      var authority := Authority(key, w.nextObject, None);
      (w.(inner := w.inner.(registry := Some(authority)), nextObject := w.nextObject + 1), authority)
  }

  function AuthorityKey(c: Connection): string {
    c.baseUrl + "|" + c.deviceId
  }

  // A client built from this negotiation, on the authority's sequencer.
  function InstallClient(w: World, key: string): World {
    var (resolved, authority) := Resolve(w, key);
    var client := Client(resolved.nextObject, authority.sequencer);
    resolved.(
      inner := resolved.inner.(registry := Some(authority.(client := Some(client))), client := Some(client)),
      nextObject := resolved.nextObject + 1)
  }

  function AdoptParameters(w: World, c: Configuration): World
    requires c.requestsPerMinute > 0
  {
    w.(inner := w.inner.(
         includeMedia := c.supportsMediaTimeline,
         requestedLeaseSeconds := RequestedLease(c),
         minSendIntervalMs := DivCeil(60_000, c.requestsPerMinute)),
       history := w.history.(highestRate :=
         if w.history.highestRate < c.requestsPerMinute then c.requestsPerMinute else w.history.highestRate))
  }

  // Negotiated parameters, then the authority and its client.
  function AdoptConfiguration(w: World, connection: Connection, c: Configuration): World
    requires c.requestsPerMinute > 0
  {
    InstallClient(AdoptParameters(w, c), AuthorityKey(connection))
  }

  function GoLive(w: World, gen: nat, connection: Connection, c: Configuration): World
    requires c.requestsPerMinute > 0
  {
    var adopted := SetState(AdoptConfiguration(w, connection, c), Active);
    TriggerRefresh(SpawnHeartbeat(adopted, gen, HeartbeatPeriod(c)), gen)
  }

  function FinishConfigure(w: World, gen: nat, connection: Connection, n: PresenceNegotiation): World
    requires n.Available? ==> n.configuration.requestsPerMinute > 0
  {
    match n
    case ClientUpdateRequired => SetState(w, UpdateRequired)
    case SchemaUnsupported => ScheduleRetry(SetState(w, ServerFeatureUnavailable), gen)
    case FeatureUnavailable => ScheduleRetry(SetState(w, ServerFeatureUnavailable), gen)
    case InvalidCapabilities => ScheduleRetry(SetState(w, Degraded), gen)
    case Available(c) => GoLive(w, gen, connection, c)
  }

  function StepConfigure(w: World, id: TaskId, t: Task, input: Input): World
    requires t.Configure? && CanRun(w, t, input)
  {
    var current := t.gen == w.inner.generation;
    match t.at
    case Entry =>
      if current then Move(w, id, Configure(t.gen, ReadingConnection)) else Finish(w, id)
    case ReadingConnection => // not under the lock
      Move(w, id, Configure(t.gen, if Enabled(w.connection) then AwaitingToken(w.connection.value) else Refusing))
    case Refusing =>
      if current then SetState(Finish(w, id), Disabled) else Finish(w, id)
    case AwaitingToken(connection) =>
      if !current then Finish(w, id)
      else if !input.present then ScheduleRetry(SetState(Finish(w, id), Degraded), t.gen)
      else if connection.urlParses then Move(w, id, Configure(t.gen, AwaitingCapabilities(connection)))
      else
        var refused := SetState(Finish(w, id), Degraded);
        refused.(history := refused.history.(deadEnds := refused.history.deadEnds + {t.gen}))
    case AwaitingCapabilities(connection) =>
      if !current then Finish(w, id)
      else if input.CapabilitiesFailed? then ScheduleRetry(SetState(Finish(w, id), Degraded), t.gen)
      else FinishConfigure(Finish(w, id), t.gen, connection, input.negotiation)
  }

  // ---- timers -----------------------------------------------------------------------------------

  function FireRetry(w: World, id: TaskId, gen: nat): World {
    if gen != w.inner.generation || w.inner.stopping then Finish(w, id) else StartLocked(Finish(w, id))
  }

  function BeatHeart(w: World, id: TaskId, gen: nat): World {
    if gen != w.inner.generation then Finish(w, id) else TriggerRefresh(w, gen)
  }

  // ---- refresh loop -----------------------------------------------------------------------------

  function LoopHead(w: World, id: TaskId, gen: nat): World {
    if gen != w.inner.generation || !w.inner.refreshRequested then LeaveLoop(w, id)
    else
      var wait := w.inner.lastSendStartedAt + w.inner.minSendIntervalMs - w.now;
      Move(w.(inner := w.inner.(refreshRequested := false)), id,
           RefreshLoop(gen, Throttling(w.now + if wait > 0 then wait else 0)))
  }

  // The send-start check: generation, client, stamp.
  function LoopSendStart(w: World, id: TaskId, gen: nat): World {
    if gen != w.inner.generation || w.inner.client.None? then LeaveLoop(w, id)
    else
      Move(w.(inner := w.inner.(lastSendStartedAt := w.now),
              history := w.history.(sends := w.history.sends + [w.now])), id,
           RefreshLoop(gen, Capturing(w.inner.client.value, w.inner.includeMedia)))
  }

  // The one use of the tracker in a capture; not under the coordinator's lock.
  function UseTracker(w: World, capture: CaptureOutcome): (World, Option<nat>) {
    match capture
    case Untouched => (w, None)
    case Broken => (w.(tracker := MediaSessions.Reset(w.tracker)), None)
    case Shared(identity) =>
      var (tracker, id) := MediaSessions.Observe(w.tracker, identity);
      (w.(tracker := tracker), Some(id))
  }

  function LoopCapture(w: World, id: TaskId, gen: nat, client: Client, capture: CaptureOutcome): World {
    var (used, session) := UseTracker(w, capture);
    Move(used, id, RefreshLoop(gen, Captured(client, session)))
  }

  function LoopDeliver(w: World, id: TaskId, gen: nat, client: Client, session: Option<nat>): World {
    if gen != w.inner.generation then LeaveLoop(w, id)
    else
      var delivered := if session.None? then w.history
                       else w.history.(handed := w.history.handed + {(gen, session.value)});
      Move(w.(history := delivered), id, RefreshLoop(gen, Sending(client)))
  }

  function NoteFailure(w: World, gen: nat): World {
    w.(history := w.history.(deadEnds := w.history.deadEnds - {gen}))
  }

  function LoopPublished(w: World, id: TaskId, gen: nat, input: Input): World {
    if gen != w.inner.generation then LeaveLoop(w, id)
    else match input
      case PublishOk => Move(SetState(w, Active), id, RefreshLoop(gen, Head))
      case PublishNeedsRenegotiation => StartLocked(LeaveLoop(Discard(w), id))
      case _ => NoteFailure(LeaveLoop(ScheduleRetry(SetState(w, Degraded), gen), id), gen)
  }

  function StepLoop(w: World, id: TaskId, t: Task, input: Input): World
    requires t.RefreshLoop? && CanRun(w, t, input)
  {
    match t.point
    case Head => LoopHead(w, id, t.gen)
    case Throttling(_) => LoopSendStart(w, id, t.gen)
    case Capturing(client, _) => LoopCapture(w, id, t.gen, client, input.capture)
    case Captured(client, session) => LoopDeliver(w, id, t.gen, client, session)
    case Sending(_) => LoopPublished(w, id, t.gen, input)
  }

  // ---- the transition system --------------------------------------------------------------------

  // When task `t` can run its next segment, and what that segment is given.
  predicate CanRun(w: World, t: Task, input: Input) {
    match t
    case Configure(_, AwaitingToken(_)) => input.Token?
    case Configure(_, AwaitingCapabilities(_)) =>
      || input.CapabilitiesFailed?
      || (input.Negotiated? && (input.negotiation.Available? ==> LimitsAreCoherent(input.negotiation.configuration)))
    case Configure(_, _) => input.Continue?
    case RefreshLoop(_, Throttling(until)) => input.Continue? && until <= w.now
    case RefreshLoop(_, Capturing(_, includeMedia)) =>
      input.CaptureDone? && (input.capture.Untouched? <==> !includeMedia)
    case RefreshLoop(_, Sending(_)) =>
      input.PublishOk? || input.PublishNeedsRenegotiation? || input.PublishFailed?
    case Wake(pending) => input.Continue? && Joined(w, pending)
    case Shutdown(_, _, _, JoiningSleepClear(pending), _) => input.Continue? && Joined(w, pending)
    case Shutdown(_, _, _, FinalClear(join), _) => input.Continue? && Joined(w, join)
    case _ => input.Continue?
  }

  predicate CanStep(w: World, a: Action) {
    match a
    case Tick(now) => w.now <= now
    case Run(id, input) => id in w.tasks
      && (if input.Cancelled? then id in w.aborted else CanRun(w, w.tasks[id], input))
    case _ => true
  }

  function RunTask(w: World, id: TaskId, t: Task, input: Input): World
    requires CanRun(w, t, input)
  {
    match t
    case Configure(_, _) => StepConfigure(w, id, t, input)
    case Retry(gen) => FireRetry(w, id, gen)
    case Heartbeat(gen) => BeatHeart(w, id, gen)
    case RefreshLoop(_, _) => StepLoop(w, id, t, input)
    case Clear(_) => Finish(w, id)
    case BoundedJoin(_) => Finish(w, id)
    case Wake(_) => FinishWake(w, id)
    case Disabling(write) => CallShutdownForDisable(w, id, write)
    case Shutdown(_, _, _, JoiningSleepClear(_), _) => ShutdownAfterJoin(w, id, t)
    case Shutdown(_, _, _, FinalClear(_), _) => FinishShutdown(w, id, t)
  }

  function Step(w: World, a: Action): World
    requires CanStep(w, a)
  {
    match a
    case Start => StartLocked(w)
    case RequestFreshSnapshot => RequestFresh(w)
    case SleepOrLock => Sleep(w)
    case WakeOrUnlock => BeginWake(w)
    case BeginShutdown => CallShutdown(w)
    case DiscardAuthority => Discard(w)
    case BeginDisable => WriteDisable(w)
    case WriteConnection(next) => StoreConnection(w, next)
    case PreviewCapture(capture) => UseTracker(w, capture).0
    case Tick(now) => w.(now := now)
    case Run(id, input) => if input.Cancelled? then Finish(w, id) else RunTask(w, id, w.tasks[id], input)
  }
}
