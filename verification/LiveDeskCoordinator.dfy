/**
 The coordinator object: fields guarded by one mutex, one method for each segment that runs under
 it. `Perform` puts them together: whatever the environment does next, the object makes the step of
 the transition system and keeps its invariant.
 */
module Coordinator {
  import opened Options
  import opened Negotiation
  import opened CoordinatorInvariants
  import opened CoordinatorModel
  import opened CoordinatorRuns
  import MediaSessions

  // What the last negotiation settled.
  datatype Parameters = Parameters(
    includeMedia: bool, requestedLeaseSeconds: int, heartbeatSeconds: real, minSendIntervalMs: nat)

  // The task runtime: live tasks, handles asked to abort, fresh ids.
  datatype Runtime = Runtime(tasks: map<TaskId, Task>, aborted: set<TaskId>, nextTask: TaskId, nextObject: nat)

  class LiveDeskCoordinator {
    var generation: nat
    var state: RuntimeState
    var stopping: bool
    var refreshRequested: bool
    var refreshLoopRunning: bool
    var heartbeatTask: Option<TaskId>
    var reconnectTask: Option<TaskId>
    var cleanupTask: Option<TaskId>
    var lastSendStartedAt: int
    var client: Option<Client>
    var negotiated: Parameters
    var registry: Option<Authority>

    var runtime: Runtime
    var now: int
    var connection: Option<Connection>
    const media: MediaSessions.MediaSessionTracker
    var history: History // a log no decision reads

    ghost function View(): World
      reads this, media
    {
      World(
        Inner(generation, state, stopping, refreshRequested, refreshLoopRunning, heartbeatTask, reconnectTask,
              cleanupTask, lastSendStartedAt, client, negotiated.includeMedia, negotiated.requestedLeaseSeconds,
              negotiated.heartbeatSeconds, negotiated.minSendIntervalMs, registry),
        runtime.tasks, runtime.aborted, runtime.nextTask, runtime.nextObject, media.State(), connection, now, history)
    }

    constructor (stored: Option<Connection>, clock: int)
      ensures View() == Initial(stored, clock) && fresh(media)
    {
      generation, state, stopping := 0, Disabled, false;
      refreshRequested, refreshLoopRunning := false, false;
      heartbeatTask, reconnectTask, cleanupTask := None, None, None;
      lastSendStartedAt, client := 0, None;
      negotiated := Parameters(false, 90, 0.0, 2000);
      registry := None;
      runtime := Runtime(map[], {}, 0, 0);
      now, connection := clock, stored;
      media := new MediaSessions.MediaSessionTracker();
      history := Initial(stored, clock).history;
    }

    // ---- the runtime ----------------------------------------------------------------------------

    method SpawnTask(t: Task) returns (id: TaskId)
      modifies this`runtime
      ensures id == old(runtime.nextTask)
      ensures runtime == old(runtime).(tasks := old(runtime.tasks)[id := t], nextTask := id + 1)
    {
      id := runtime.nextTask;
      runtime := runtime.(tasks := runtime.tasks[id := t], nextTask := id + 1);
    }

    method AbortTask(handle: Option<TaskId>)
      modifies this`runtime
      ensures runtime == old(runtime).(aborted := Abort(old(runtime.aborted), handle))
    {
      if handle.Some? {
        runtime := runtime.(aborted := runtime.aborted + {handle.value});
      }
    }

    method EndTask(id: TaskId)
      modifies this`runtime
      ensures runtime == old(runtime).(tasks := old(runtime.tasks) - {id})
    {
      runtime := runtime.(tasks := runtime.tasks - {id});
    }

    method ContinueTask(id: TaskId, t: Task)
      modifies this`runtime
      ensures runtime == old(runtime).(tasks := old(runtime.tasks)[id := t])
    {
      runtime := runtime.(tasks := runtime.tasks[id := t]);
    }

    // ---- locked helpers ---------------------------------------------------------------------------

    method AbortTimers()
      modifies this`runtime, this`heartbeatTask, this`reconnectTask
      ensures heartbeatTask.None? && reconnectTask.None?
      ensures runtime == old(runtime).(aborted := Abort(Abort(old(runtime.aborted), old(heartbeatTask)),
                old(reconnectTask)))
    {
      AbortTask(heartbeatTask);
      heartbeatTask := None;
      AbortTask(reconnectTask);
      reconnectTask := None;
    }

    // The bump itself: timers, request and state, under a new number.
    method BumpLocked(next: RuntimeState)
      modifies this`generation, this`refreshRequested, this`state, this`runtime, this`heartbeatTask, this`reconnectTask
      ensures View() == BeginNewGeneration(old(View()), next).(tracker := old(View()).tracker)
    {
      hide Abort;
      AbortTimers();
      generation, refreshRequested, state := generation + 1, false, next;
    }

    method BeginNewGenerationLocked(next: RuntimeState)
      modifies this`generation, this`refreshRequested, this`state, this`runtime, this`heartbeatTask,
        this`reconnectTask, media
      ensures View() == BeginNewGeneration(old(View()), next)
    {
      hide Abort;
      BumpLocked(next);
      media.ResetContinuity();
    }

    method StartUnderLock()
      modifies this, media
      ensures View() == StartLocked(old(View()))
    {
      if stopping {
        return;
      }
      BeginNewGenerationLocked(Connecting);
      history := history.(negotiation := runtime.nextTask);
      var _ := SpawnTask(Configure(generation, Entry));
    }

    method ScheduleRetryLocked(gen: nat)
      modifies this
      ensures View() == ScheduleRetry(old(View()), gen)
    {
      AbortTask(reconnectTask);
      var id := SpawnTask(Retry(gen));
      reconnectTask := Some(id);
    }

    method SpawnHeartbeatLocked(gen: nat, seconds: real)
      modifies this
      ensures View() == SpawnHeartbeat(old(View()), gen, seconds)
    {
      AbortTask(heartbeatTask);
      var id := SpawnTask(Heartbeat(gen));
      heartbeatTask := Some(id);
      negotiated := negotiated.(heartbeatSeconds := seconds);
    }

    method TriggerRefreshLocked(gen: nat)
      modifies this
      ensures View() == TriggerRefresh(old(View()), gen)
    {
      refreshRequested := true;
      if !refreshLoopRunning {
        refreshLoopRunning := true;
        StartLoop(gen);
      }
    }

    method StartLoop(gen: nat)
      modifies this`history, this`runtime
      ensures history == old(history).(loop := old(runtime.nextTask))
      ensures runtime == old(runtime).(
                           tasks := old(runtime.tasks)[old(runtime.nextTask) := RefreshLoop(gen, Head)],
                           nextTask := old(runtime.nextTask) + 1)
    {
      history := history.(loop := runtime.nextTask);
      var _ := SpawnTask(RefreshLoop(gen, Head));
    }

    method SpawnClearBestEffort(c: Client) returns (join: TaskId)
      modifies this`runtime
      ensures join == old(runtime.nextTask) + 1
      ensures runtime == old(runtime).(
                           tasks := old(runtime.tasks)[join - 1 := Clear(c)][join := BoundedJoin(join - 1)],
                           nextTask := join + 1)
    {
      var clear := SpawnTask(Clear(c));
      join := SpawnTask(BoundedJoin(clear));
    }

    // ---- entry points -------------------------------------------------------------------------------

    method RequestFreshSnapshot()
      modifies this
      ensures View() == RequestFresh(old(View()))
    {
      if state != Active && state != Degraded {
        return;
      }
      TriggerRefreshLocked(generation);
    }

    method HandleSleepOrLock()
      modifies this, media
      ensures View() == Sleep(old(View()))
    {
      if state == Suspended || stopping {
        return;
      }
      var last := client;
      BeginNewGenerationLocked(Suspended);
      if last.Some? {
        var join := SpawnClearBestEffort(last.value);
        cleanupTask := Some(join);
      }
    }

    method HandleWakeOrUnlock()
      modifies this
      ensures View() == BeginWake(old(View()))
    {
      if state != Suspended {
        return;
      }
      var pending := cleanupTask;
      cleanupTask := None;
      var _ := SpawnTask(Wake(pending));
    }

    method ResumeAfterWake(id: TaskId)
      requires id in runtime.tasks && runtime.tasks[id].Wake? && Joined(View(), runtime.tasks[id].pending)
      modifies this, media
      ensures View() == FinishWake(old(View()), id)
    {
      EndTask(id);
      if state != Suspended || stopping {
        return;
      }
      StartUnderLock();
    }

    method StopLocked()
      modifies this, media
      ensures View() == BeginNewGeneration(old(View()).(inner := old(View()).inner.(stopping := true)), Disabled)
      ensures cleanupTask == old(cleanupTask) && history == old(history)
    {
      hide BeginNewGeneration;
      stopping := true;
      BeginNewGenerationLocked(Disabled);
    }

    // The first segment of shutdown, run by a plain caller or on behalf of a disable.
    method EnterShutdownLocked(id: TaskId, disabling: Option<nat>)
      requires !stopping
      modifies this, media
      ensures View() == EnterShutdown(old(View()), id, disabling)
    {
      hide BeginNewGeneration;
      var last, wasSuspended := client, state == Suspended;
      StopLocked();
      var pending := cleanupTask;
      cleanupTask, history := None, history.(shutdown := id);
      ContinueTask(id, Shutdown(generation, last, wasSuspended, JoiningSleepClear(pending), disabling));
    }

    method BeginShutdown()
      modifies this, media
      ensures View() == CallShutdown(old(View()))
    {
      if stopping {
        return;
      }
      var id := runtime.nextTask;
      runtime := runtime.(nextTask := id + 1);
      EnterShutdownLocked(id, None);
    }

    method ShutdownJoined(id: TaskId)
      requires id in runtime.tasks && runtime.tasks[id].Shutdown? && runtime.tasks[id].phase.JoiningSleepClear?
      requires Joined(View(), runtime.tasks[id].phase.pending)
      modifies this
      ensures View() == ShutdownAfterJoin(old(View()), id, old(runtime.tasks[id]))
    {
      var t := runtime.tasks[id];
      if !t.wasSuspended && t.lastClient.Some? {
        var join := SpawnClearBestEffort(t.lastClient.value);
        ContinueTask(id, t.(phase := FinalClear(Some(join))));
      } else {
        ContinueTask(id, t.(phase := FinalClear(None)));
      }
    }

    method ShutdownEnds(id: TaskId)
      requires id in runtime.tasks && runtime.tasks[id].Shutdown? && runtime.tasks[id].phase.FinalClear?
      requires Joined(View(), runtime.tasks[id].phase.join)
      modifies this`client, this`stopping, this`history, this`runtime
      ensures View() == FinishShutdown(old(View()), id, old(runtime.tasks[id]))
    {
      client := None;
      stopping := false;
      if runtime.tasks[id].disabling.Some? {
        history := history.(disablesReturned := history.disablesReturned + {runtime.tasks[id].disabling.value});
      }
      EndTask(id);
    }

    method DiscardAuthority()
      modifies this
      ensures View() == Discard(old(View()))
    {
      registry := None;
      client := None;
    }

    // disable_live_desk: the durable write, then the shutdown call.
    method DisableWrites()
      modifies this
      ensures View() == WriteDisable(old(View()))
    {
      if connection.Some? {
        connection := Some(connection.value.(liveDeskEnabled := false));
      }
      var _ := SpawnTask(Disabling(history.enablingWrites));
    }

    method DisableShutsDown(id: TaskId)
      requires id in runtime.tasks && runtime.tasks[id].Disabling?
      modifies this, media
      ensures View() == CallShutdownForDisable(old(View()), id, old(runtime.tasks[id].write))
    {
      var write := runtime.tasks[id].write;
      if stopping {
        EndTask(id);
        history := history.(disablesReturned := history.disablesReturned + {write});
        return;
      }
      EnterShutdownLocked(id, Some(write));
    }

    // ---- configure ----------------------------------------------------------------------------------

    // `AuthorityRegistry::resolve`.
    method ResolveAuthority(key: string) returns (authority: Authority)
      modifies this`registry, this`runtime
      ensures (View(), authority) == Resolve(old(View()), key)
    {
      if registry.None? || registry.value.key != key {
        registry := Some(Authority(key, runtime.nextObject, None));
        runtime := runtime.(nextObject := runtime.nextObject + 1);
      }
      authority := registry.value;
    }

    method InstallClientLocked(key: string)
      modifies this
      ensures View() == InstallClient(old(View()), key)
    {
      var authority := ResolveAuthority(key);
      var rebuilt := Client(runtime.nextObject, authority.sequencer);
      runtime := runtime.(nextObject := runtime.nextObject + 1);
      registry := Some(authority.(client := Some(rebuilt)));
      client := Some(rebuilt);
    }

    method AdoptLocked(c: Configuration, target: Connection)
      requires c.requestsPerMinute > 0
      modifies this
      ensures View() == AdoptConfiguration(old(View()), target, c)
    {
      var lease := if 90 < c.leaseMinSeconds then c.leaseMinSeconds else 90;
      if c.leaseMaxSeconds < lease {
        lease := c.leaseMaxSeconds;
      }
      negotiated := Parameters(c.supportsMediaTimeline, lease, negotiated.heartbeatSeconds,
                               (60_000 + c.requestsPerMinute - 1) / c.requestsPerMinute);
      history := history.(highestRate :=
        if history.highestRate < c.requestsPerMinute then c.requestsPerMinute else history.highestRate);
      InstallClientLocked(target.baseUrl + "|" + target.deviceId);
    }

    method GoLiveLocked(c: Configuration, target: Connection, gen: nat)
      requires c.requestsPerMinute > 0
      modifies this
      ensures View() == GoLive(old(View()), gen, target, c)
    {
      AdoptLocked(c, target);
      state := Active;
      SpawnHeartbeatLocked(gen, HeartbeatPeriod(c));
      TriggerRefreshLocked(gen);
    }

    // Negotiation dispatch (T5 to T9); a failed capabilities request arrives as `None`.
    method ConfigureNegotiated(id: TaskId, negotiation: Option<PresenceNegotiation>)
      requires id in runtime.tasks && runtime.tasks[id].Configure? && runtime.tasks[id].at.AwaitingCapabilities?
      requires negotiation.Some? && negotiation.value.Available? ==> LimitsAreCoherent(negotiation.value.configuration)
      modifies this
      ensures View() == StepConfigure(old(View()), id, old(runtime.tasks[id]),
                                      if negotiation.Some? then Negotiated(negotiation.value) else CapabilitiesFailed)
    {
      var Configure(gen, AwaitingCapabilities(target)) := runtime.tasks[id];
      EndTask(id);
      if gen != generation {
        return;
      }
      match negotiation {
        case None =>
          state := Degraded;
          ScheduleRetryLocked(gen);
        case Some(ClientUpdateRequired) =>
          state := UpdateRequired;
        case Some(SchemaUnsupported) =>
          state := ServerFeatureUnavailable;
          ScheduleRetryLocked(gen);
        case Some(FeatureUnavailable) =>
          state := ServerFeatureUnavailable;
          ScheduleRetryLocked(gen);
        case Some(InvalidCapabilities) =>
          state := Degraded;
          ScheduleRetryLocked(gen);
        case Some(Available(c)) =>
          GoLiveLocked(c, target, gen);
      }
    }

    method ConfigureEntry(id: TaskId)
      requires id in runtime.tasks && runtime.tasks[id].Configure? && runtime.tasks[id].at.Entry?
      modifies this
      ensures View() == StepConfigure(old(View()), id, old(runtime.tasks[id]), Continue)
    {
      var gen := runtime.tasks[id].gen;
      if gen != generation {
        EndTask(id);
        return;
      }
      ContinueTask(id, Configure(gen, ReadingConnection));
    }

    method ConfigureReadsConnection(id: TaskId)
      requires id in runtime.tasks && runtime.tasks[id].Configure? && runtime.tasks[id].at.ReadingConnection?
      modifies this
      ensures View() == StepConfigure(old(View()), id, old(runtime.tasks[id]), Continue)
    {
      var gen := runtime.tasks[id].gen;
      if connection.Some? && connection.value.liveDeskEnabled {
        ContinueTask(id, Configure(gen, AwaitingToken(connection.value)));
      } else {
        ContinueTask(id, Configure(gen, Refusing));
      }
    }

    method ConfigureRefuses(id: TaskId)
      requires id in runtime.tasks && runtime.tasks[id].Configure? && runtime.tasks[id].at.Refusing?
      modifies this
      ensures View() == StepConfigure(old(View()), id, old(runtime.tasks[id]), Continue)
    {
      var gen := runtime.tasks[id].gen;
      EndTask(id);
      if gen == generation {
        state := Disabled;
      }
    }

    method ConfigureTokenArrives(id: TaskId, present: bool)
      requires id in runtime.tasks && runtime.tasks[id].Configure? && runtime.tasks[id].at.AwaitingToken?
      modifies this
      ensures View() == StepConfigure(old(View()), id, old(runtime.tasks[id]), Token(present))
    {
      var Configure(gen, AwaitingToken(target)) := runtime.tasks[id];
      if gen != generation {
        EndTask(id);
      } else if !present {
        EndTask(id);
        state := Degraded;
        ScheduleRetryLocked(gen);
      } else if !target.urlParses {
        EndTask(id);
        state := Degraded;
        history := history.(deadEnds := history.deadEnds + {gen});
      } else {
        ContinueTask(id, Configure(gen, AwaitingCapabilities(target)));
      }
    }

    // ---- timers -----------------------------------------------------------------------------------------

    method RetryFires(id: TaskId)
      requires id in runtime.tasks && runtime.tasks[id].Retry?
      modifies this, media
      ensures View() == FireRetry(old(View()), id, old(runtime.tasks[id].gen))
    {
      var gen := runtime.tasks[id].gen;
      EndTask(id);
      if gen != generation || stopping {
        return;
      }
      StartUnderLock();
    }

    method HeartbeatTicks(id: TaskId)
      requires id in runtime.tasks && runtime.tasks[id].Heartbeat?
      modifies this
      ensures View() == BeatHeart(old(View()), id, old(runtime.tasks[id].gen))
    {
      var gen := runtime.tasks[id].gen;
      if gen != generation {
        EndTask(id);
        return;
      }
      TriggerRefreshLocked(gen);
    }

    // ---- refresh loop -------------------------------------------------------------------------------------

    method LeaveLoopLocked(id: TaskId)
      modifies this
      ensures View() == LeaveLoop(old(View()), id)
    {
      refreshLoopRunning := false;
      EndTask(id);
    }

    // Head: consume the request and compute the throttle from the previous send start.
    method LoopTakesRequest(id: TaskId)
      requires id in runtime.tasks && runtime.tasks[id].RefreshLoop? && runtime.tasks[id].point.Head?
      modifies this
      ensures View() == LoopHead(old(View()), id, old(runtime.tasks[id].gen))
    {
      var gen := runtime.tasks[id].gen;
      if gen != generation || !refreshRequested {
        LeaveLoopLocked(id);
        return;
      }
      refreshRequested := false;
      var waitMs := lastSendStartedAt + negotiated.minSendIntervalMs - now;
      ContinueTask(id, RefreshLoop(gen, Throttling(if waitMs > 0 then now + waitMs else now)));
    }

    method LoopStartsSend(id: TaskId)
      requires id in runtime.tasks && runtime.tasks[id].RefreshLoop? && runtime.tasks[id].point.Throttling?
      requires runtime.tasks[id].point.until <= now
      modifies this
      ensures View() == LoopSendStart(old(View()), id, old(runtime.tasks[id].gen))
    {
      var gen := runtime.tasks[id].gen;
      if gen != generation || client.None? {
        LeaveLoopLocked(id);
        return;
      }
      lastSendStartedAt := now;
      history := history.(sends := history.sends + [now]);
      ContinueTask(id, RefreshLoop(gen, Capturing(client.value, negotiated.includeMedia)));
    }

    // The capture's one use of the tracker, outside the lock.
    method UseMedia(capture: CaptureOutcome) returns (session: Option<nat>)
      modifies media
      ensures (View(), session) == UseTracker(old(View()), capture)
    {
      match capture
      case Untouched =>
        session := None;
      case Broken =>
        media.ResetContinuity();
        session := None;
      case Shared(identity) =>
        var sessionId := media.SessionId(identity);
        session := Some(sessionId);
    }

    method LoopCaptures(id: TaskId, capture: CaptureOutcome)
      requires id in runtime.tasks && runtime.tasks[id].RefreshLoop? && runtime.tasks[id].point.Capturing?
      modifies this`runtime, media
      ensures View() == LoopCapture(old(View()), id, old(runtime.tasks[id].gen), old(runtime.tasks[id].point.client),
                capture)
    {
      var RefreshLoop(gen, Capturing(writer, _)) := runtime.tasks[id];
      var session := UseMedia(capture);
      ContinueTask(id, RefreshLoop(gen, Captured(writer, session)));
    }

    method LoopDelivers(id: TaskId)
      requires id in runtime.tasks && runtime.tasks[id].RefreshLoop? && runtime.tasks[id].point.Captured?
      modifies this
      ensures View() == LoopDeliver(old(View()), id, old(runtime.tasks[id].gen), old(runtime.tasks[id].point.client),
                                    old(runtime.tasks[id].point.session))
    {
      var RefreshLoop(gen, Captured(writer, session)) := runtime.tasks[id];
      if gen != generation {
        LeaveLoopLocked(id);
        return;
      }
      if session.Some? {
        history := history.(handed := history.handed + {(gen, session.value)});
      }
      ContinueTask(id, RefreshLoop(gen, Sending(writer)));
    }

    method LoopHearsBack(id: TaskId, reply: Input)
      requires id in runtime.tasks && runtime.tasks[id].RefreshLoop? && runtime.tasks[id].point.Sending?
      requires reply.PublishOk? || reply.PublishNeedsRenegotiation? || reply.PublishFailed?
      modifies this, media
      ensures View() == LoopPublished(old(View()), id, old(runtime.tasks[id].gen), reply)
    {
      hide StartLocked, LeaveLoop, Discard, ScheduleRetry, NoteFailure;
      var gen := runtime.tasks[id].gen;
      if gen != generation {
        LeaveLoopLocked(id);
      } else if reply.PublishOk? {
        state := Active;
        ContinueTask(id, RefreshLoop(gen, Head));
      } else if reply.PublishNeedsRenegotiation? {
        DiscardAuthority();
        LeaveLoopLocked(id);
        StartUnderLock();
      } else {
        LoopDegrades(id, gen);
      }
    }

    method LoopDegrades(id: TaskId, gen: nat)
      modifies this
      ensures View() == NoteFailure(LeaveLoop(ScheduleRetry(SetState(old(View()), Degraded), gen), id), gen)
    {
      hide ScheduleRetry, LeaveLoop;
      state := Degraded;
      ScheduleRetryLocked(gen);
      LeaveLoopLocked(id);
      history := history.(deadEnds := history.deadEnds - {gen});
    }

    // ---- the environment ----------------------------------------------------------------------------------

    method WriteConnection(next: Option<Connection>)
      modifies this`connection, this`history
      ensures View() == StoreConnection(old(View()), next)
    {
      connection := next;
      if next.Some? && next.value.liveDeskEnabled {
        history := history.(enablingWrites := history.enablingWrites + 1);
      }
    }

    // A negotiation's next segment.
    method RunConfigure(id: TaskId, input: Input)
      requires id in runtime.tasks && runtime.tasks[id].Configure? && CanRun(View(), runtime.tasks[id], input)
      modifies this, media
      ensures View() == StepConfigure(old(View()), id, old(runtime.tasks[id]), input)
    {
      hide StepConfigure;
      match runtime.tasks[id].at
      case Entry => ConfigureEntry(id);
      case ReadingConnection => ConfigureReadsConnection(id);
      case Refusing => ConfigureRefuses(id);
      case AwaitingToken(_) => ConfigureTokenArrives(id, input.present);
      case AwaitingCapabilities(_) =>
        ConfigureNegotiated(id, if input.Negotiated? then Some(input.negotiation) else None);
    }

    // A refresh loop's next segment.
    method RunLoop(id: TaskId, input: Input)
      requires id in runtime.tasks && runtime.tasks[id].RefreshLoop? && CanRun(View(), runtime.tasks[id], input)
      modifies this, media
      ensures View() == StepLoop(old(View()), id, old(runtime.tasks[id]), input)
    {
      hide LoopHead, LoopSendStart, LoopCapture, LoopDeliver, LoopPublished;
      match runtime.tasks[id].point
      case Head => LoopTakesRequest(id);
      case Throttling(_) => LoopStartsSend(id);
      case Capturing(_, _) => LoopCaptures(id, input.capture);
      case Captured(_, _) => LoopDelivers(id);
      case Sending(_) => LoopHearsBack(id, input);
    }

    method RunSegment(id: TaskId, input: Input)
      requires id in runtime.tasks && CanRun(View(), runtime.tasks[id], input)
      modifies this, media
      ensures View() == RunTask(old(View()), id, old(runtime.tasks[id]), input)
    {
      hide StepConfigure, StepLoop, FireRetry, BeatHeart, FinishWake, CallShutdownForDisable, ShutdownAfterJoin,
           FinishShutdown;
      match runtime.tasks[id]
      case Configure(_, _) => RunConfigure(id, input);
      case Retry(_) => RetryFires(id);
      case Heartbeat(_) => HeartbeatTicks(id);
      case RefreshLoop(_, _) => RunLoop(id, input);
      case Clear(_) => EndTask(id);
      case BoundedJoin(_) => EndTask(id);
      case Wake(_) => ResumeAfterWake(id);
      case Disabling(_) => DisableShutsDown(id);
      case Shutdown(_, _, _, JoiningSleepClear(_), _) => ShutdownJoined(id);
      case Shutdown(_, _, _, FinalClear(_), _) => ShutdownEnds(id);
    }

    // Whatever happens next: a call, a write, a tick, an abort, or the resumption of any task.
    method Perform(a: Action)
      requires CanStep(View(), a)
      modifies this, media
      ensures View() == Step(old(View()), a)
      ensures old(Inv(View())) ==> Inv(View())
    {
      hide Inv, RunTask, StartLocked, RequestFresh, Sleep, BeginWake, CallShutdown, WriteDisable, StoreConnection,
           UseTracker;
      ghost var before := View();
      match a {
        case Start => StartUnderLock();
        case RequestFreshSnapshot => RequestFreshSnapshot();
        case SleepOrLock => HandleSleepOrLock();
        case WakeOrUnlock => HandleWakeOrUnlock();
        case BeginShutdown => BeginShutdown();
        case DiscardAuthority => DiscardAuthority();
        case BeginDisable => DisableWrites();
        case WriteConnection(next) => WriteConnection(next);
        case PreviewCapture(capture) => var _ := UseMedia(capture);
        case Tick(later) => now := later;
        case Run(id, input) =>
          if input.Cancelled? {
            EndTask(id);
          } else {
            RunSegment(id, input);
          }
      }
      if Inv(before) {
        StepKept(before, a);
      }
    }
  }
}
