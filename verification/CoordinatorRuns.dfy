/** The coordinator over whole runs: every interleaving of its entry points and tasks. */
module CoordinatorRuns {
  import opened Options
  import opened Negotiation
  import opened CoordinatorModel
  import opened CoordinatorInvariants

  // ---- every step keeps the invariant -----------------------------------------------------------

  lemma ConfigureKept(w: World, id: TaskId, input: Input)
    requires Inv(w) && id in w.tasks && w.tasks[id].Configure? && CanRun(w, w.tasks[id], input)
    ensures Inv(StepConfigure(w, id, w.tasks[id], input))
  {
    var t := w.tasks[id];
    FinishKept(w, id);
    var done := Finish(w, id);
    if t.gen != w.inner.generation {
      StaleFinishKept(w, id);
    } else {
      assert Calm(done) by {
        forall other <- done.tasks ensures !IsCurrent(done, done.tasks[other]) {
          assert TaskOk(w, other, w.tasks[other]) && TaskOk(w, id, t);
        }
      }
      assert !w.inner.stopping;
      if t.at.AwaitingToken? {
        assert !DisabledSince(w);
        SetStateKept(done, Degraded);
        if input.present && !t.at.connection.urlParses {
          DeadEndKept(SetState(done, Degraded));
        } else if !input.present {
          ScheduleRetryKept(SetState(done, Degraded));
        } else {
          ConfigureMovesKept(w, id, AwaitingCapabilities(t.at.connection));
        }
      } else if t.at.AwaitingCapabilities? {
        assert !DisabledSince(w);
        FinishConfigureKept(done, t.at.connection, input);
      } else if t.at.Refusing? {
        RefuseKept(done);
      } else {
        ConfigureMovesKept(w, id, StepConfigure(w, id, t, input).tasks[id].at);
      }
    }
    if t.at.ReadingConnection? && t.gen != w.inner.generation {
      ConfigureMovesKept(w, id, StepConfigure(w, id, t, input).tasks[id].at);
    }
  }

  lemma StaleFinishKept(w: World, id: TaskId)
    requires Inv(w) && id in w.tasks && !w.tasks[id].RefreshLoop? && !w.tasks[id].Shutdown?
    requires !IsCurrent(w, w.tasks[id]) || id in w.aborted
    ensures Inv(Finish(w, id))
  {
    FinishKept(w, id);
    assert TaskOk(w, id, w.tasks[id]);
    hide Consistent;
  }

  lemma DeadEndKept(w: World)
    requires Consistent(w) && w.inner.state == Degraded
    ensures Inv(w.(history := w.history.(deadEnds := w.history.deadEnds + {w.inner.generation})))
  {
    var noted := w.(history := w.history.(deadEnds := w.history.deadEnds + {w.inner.generation}));
    forall id <- w.tasks ensures TaskOk(noted, id, w.tasks[id]) {
      assert TaskOk(w, id, w.tasks[id]);
    }
  }

  lemma RefuseKept(w: World)
    requires Consistent(w) && Calm(w) && !w.inner.stopping
    ensures Inv(SetState(w, Disabled))
  {
    var refused := SetState(w, Disabled);
    forall id <- w.tasks ensures TaskOk(refused, id, w.tasks[id]) {
      assert TaskOk(w, id, w.tasks[id]);
    }
  }

  lemma ConfigureMovesTasks(w: World, id: TaskId, at: ConfigurePoint)
    requires Inv(w) && id in w.tasks && w.tasks[id].Configure?
    requires DisabledSince(w) ==> at.Entry? || at.ReadingConnection? || at.Refusing?
    ensures TasksOk(Move(w, id, w.tasks[id].(at := at)))
  {
    hide FieldsOk, Progressing;
    var next := Move(w, id, w.tasks[id].(at := at));
    forall other <- next.tasks ensures TaskOk(next, other, next.tasks[other]) {
      assert other in w.tasks ==> TaskOk(w, other, w.tasks[other]);
    }
  }

  lemma ConfigureMovesKept(w: World, id: TaskId, at: ConfigurePoint)
    requires Inv(w) && id in w.tasks && w.tasks[id].Configure?
    requires DisabledSince(w) ==> at.Entry? || at.ReadingConnection? || at.Refusing?
    ensures Inv(Move(w, id, w.tasks[id].(at := at)))
  {
    ConfigureMovesTasks(w, id, at);
    hide TasksOk, Spaced, Interval;
  }

  lemma FinishConfigureKept(w: World, connection: Connection, input: Input)
    requires Consistent(w) && Calm(w) && !w.inner.stopping && !DisabledSince(w)
    requires input.CapabilitiesFailed?
              || (input.Negotiated?
                   && (input.negotiation.Available? ==> LimitsAreCoherent(input.negotiation.configuration)))
    ensures input.CapabilitiesFailed? ==> Inv(ScheduleRetry(SetState(w, Degraded), w.inner.generation))
    ensures input.Negotiated? ==> Inv(FinishConfigure(w, w.inner.generation, connection, input.negotiation))
  {
    if input.CapabilitiesFailed? || input.negotiation.InvalidCapabilities? {
      SetStateKept(w, Degraded);
      ScheduleRetryKept(SetState(w, Degraded));
    } else if input.negotiation.Available? {
      GoLiveKept(w, connection, input.negotiation.configuration);
    } else if input.negotiation.ClientUpdateRequired? {
      SetStateKept(w, UpdateRequired);
    } else {
      SetStateKept(w, ServerFeatureUnavailable);
      ScheduleRetryKept(SetState(w, ServerFeatureUnavailable));
    }
  }

  lemma GoLiveKept(w: World, connection: Connection, c: Configuration)
    requires Consistent(w) && Calm(w) && !w.inner.stopping && !DisabledSince(w) && c.requestsPerMinute > 0
    ensures Inv(GoLive(w, w.inner.generation, connection, c))
  {
    hide Calm;
    AdoptKept(w, connection, c);
    var adopted := AdoptConfiguration(w, connection, c);
    SetStateKept(adopted, Active);
    SpawnHeartbeatKept(SetState(adopted, Active), HeartbeatPeriod(c));
    TriggerKept(SpawnHeartbeat(SetState(adopted, Active), w.inner.generation, HeartbeatPeriod(c)));
  }

  lemma TimerKept(w: World, id: TaskId)
    requires Inv(w) && id in w.tasks
    ensures w.tasks[id].Retry? ==> Inv(FireRetry(w, id, w.tasks[id].gen))
    ensures w.tasks[id].Heartbeat? ==> Inv(BeatHeart(w, id, w.tasks[id].gen))
  {
    assert TaskOk(w, id, w.tasks[id]);
    if w.tasks[id].Retry? || w.tasks[id].Heartbeat? {
      if w.tasks[id].gen != w.inner.generation {
        StaleFinishKept(w, id);
      } else if w.tasks[id].Retry? {
        FinishKept(w, id);
        StartKept(Finish(w, id));
      } else {
        TriggerKept(w);
      }
    }
  }

  lemma LoopMovesTasks(w: World, id: TaskId, point: LoopPoint)
    requires Inv(w) && id in w.tasks && w.tasks[id].RefreshLoop?
    requires HoldsOwnSession(w, w.tasks[id].(point := point)) && WaitsLongEnough(w, w.tasks[id].(point := point))
    ensures TasksOk(Move(w, id, w.tasks[id].(point := point)))
  {
    hide FieldsOk, Progressing;
    var moved := Move(w, id, w.tasks[id].(point := point));
    forall other <- moved.tasks ensures TaskOk(moved, other, moved.tasks[other]) {
      assert TaskOk(w, other, w.tasks[other]);
    }
  }

  lemma LoopMovesKept(w: World, id: TaskId, point: LoopPoint)
    requires Inv(w) && id in w.tasks && w.tasks[id].RefreshLoop?
    requires HoldsOwnSession(w, w.tasks[id].(point := point)) && WaitsLongEnough(w, w.tasks[id].(point := point))
    ensures Inv(Move(w, id, w.tasks[id].(point := point)))
  {
    hide TasksOk;
    LoopMovesTasks(w, id, point);
  }

  lemma RequestTakenKept(w: World)
    requires Inv(w)
    ensures Inv(w.(inner := w.inner.(refreshRequested := false)))
  {
    var taken := w.(inner := w.inner.(refreshRequested := false));
    forall id <- w.tasks ensures TaskOk(taken, id, w.tasks[id]) {
      assert TaskOk(w, id, w.tasks[id]);
    }
  }

  lemma LoopThrottlesKept(w: World, id: TaskId, until: int)
    requires Inv(w) && id in w.tasks && w.tasks[id].RefreshLoop?
    requires w.inner.lastSendStartedAt + w.inner.minSendIntervalMs <= until
    ensures Inv(Move(w, id, w.tasks[id].(point := Throttling(until))))
  {
    LoopMovesKept(w, id, Throttling(until));
  }

  lemma LoopTakesRequestKept(w: World, id: TaskId, until: int)
    requires Inv(w) && id in w.tasks && w.tasks[id].RefreshLoop?
    requires w.inner.lastSendStartedAt + w.inner.minSendIntervalMs <= until
    ensures Inv(Move(w.(inner := w.inner.(refreshRequested := false)), id, w.tasks[id].(point := Throttling(until))))
  {
    hide Consistent, Progressing;
    RequestTakenKept(w);
    LoopThrottlesKept(w.(inner := w.inner.(refreshRequested := false)), id, until);
  }

  lemma LoopHeadKept(w: World, id: TaskId)
    requires Inv(w) && id in w.tasks && w.tasks[id].RefreshLoop?
    ensures Inv(LoopHead(w, id, w.tasks[id].gen))
  {
    var next := LoopHead(w, id, w.tasks[id].gen);
    if w.tasks[id].gen != w.inner.generation || !w.inner.refreshRequested {
      assert next == LeaveLoop(w, id);
      LeaveLoopKept(w, id);
    } else {
      var wait := w.inner.lastSendStartedAt + w.inner.minSendIntervalMs - w.now;
      var until := w.now + if wait > 0 then wait else 0;
      assert next == Move(w.(inner := w.inner.(refreshRequested := false)), id,
          w.tasks[id].(point := Throttling(until)));
      LoopTakesRequestKept(w, id, until);
    }
  }

  lemma SendStartTasks(w: World, id: TaskId)
    requires Inv(w) && id in w.tasks && w.tasks[id].RefreshLoop? && w.tasks[id].point.Throttling?
    requires w.tasks[id].point.until <= w.now && w.tasks[id].gen == w.inner.generation && w.inner.client.Some?
    ensures TasksOk(LoopSendStart(w, id, w.tasks[id].gen))
  {
    hide FieldsOk, Progressing;
    var next := LoopSendStart(w, id, w.tasks[id].gen);
    forall other <- next.tasks ensures TaskOk(next, other, next.tasks[other]) {
      assert TaskOk(w, other, w.tasks[other]) && TaskOk(w, id, w.tasks[id]);
    }
  }

  lemma SendStartPaced(w: World, id: TaskId)
    requires Inv(w) && id in w.tasks && w.tasks[id].RefreshLoop? && w.tasks[id].point.Throttling?
    requires w.tasks[id].point.until <= w.now && w.tasks[id].gen == w.inner.generation && w.inner.client.Some?
    ensures Paced(LoopSendStart(w, id, w.tasks[id].gen))
  {
    assert WaitsLongEnough(w, w.tasks[id]) by {
      assert TaskOk(w, id, w.tasks[id]);
    }
    hide TaskOk, TasksOk, Interval;
  }

  lemma SendStartKept(w: World, id: TaskId)
    requires Inv(w) && id in w.tasks && w.tasks[id].RefreshLoop? && w.tasks[id].point.Throttling?
    requires w.tasks[id].point.until <= w.now && w.tasks[id].gen == w.inner.generation && w.inner.client.Some?
    ensures Inv(LoopSendStart(w, id, w.tasks[id].gen))
  {
    SendStartTasks(w, id);
    SendStartPaced(w, id);
    hide TasksOk, Paced;
  }

  lemma LoopSendStartKept(w: World, id: TaskId)
    requires Inv(w) && id in w.tasks && w.tasks[id].RefreshLoop? && w.tasks[id].point.Throttling?
    requires w.tasks[id].point.until <= w.now
    ensures Inv(LoopSendStart(w, id, w.tasks[id].gen))
  {
    hide Consistent, Progressing;
    if w.tasks[id].gen != w.inner.generation || w.inner.client.None? {
      LeaveLoopKept(w, id);
    } else {
      SendStartKept(w, id);
    }
  }

  lemma UseTrackerTasks(w: World, capture: CaptureOutcome)
    requires Inv(w)
    ensures TasksOk(UseTracker(w, capture).0)
  {
    var used := UseTracker(w, capture).0;
    hide Progressing, Paced;
    forall id <- w.tasks ensures TaskOk(used, id, w.tasks[id]) {
      assert TaskOk(w, id, w.tasks[id]);
    }
  }

  lemma UseTrackerKept(w: World, capture: CaptureOutcome)
    requires Inv(w)
    ensures var (used, session) := UseTracker(w, capture);
            Inv(used) && (session.Some? ==>
              session.value < used.tracker.nextId && OnlyIn(used, session.value, w.inner.generation))
  {
    UseTrackerTasks(w, capture);
    hide TasksOk, Spaced, Interval;
  }

  lemma LoopCaptureKept(w: World, id: TaskId, capture: CaptureOutcome)
    requires Inv(w) && id in w.tasks && w.tasks[id].RefreshLoop? && w.tasks[id].point.Capturing?
    ensures Inv(LoopCapture(w, id, w.tasks[id].gen, w.tasks[id].point.client, capture))
  {
    UseTrackerKept(w, capture);
    var (used, session) := UseTracker(w, capture);
    LoopMovesKept(used, id, Captured(w.tasks[id].point.client, session));
  }

  lemma LoopDeliverKept(w: World, id: TaskId)
    requires Inv(w) && id in w.tasks && w.tasks[id].RefreshLoop? && w.tasks[id].point.Captured?
    ensures Inv(LoopDeliver(w, id, w.tasks[id].gen, w.tasks[id].point.client, w.tasks[id].point.session))
  {
    var t := w.tasks[id];
    assert TaskOk(w, id, t);
    if t.gen != w.inner.generation {
      LeaveLoopKept(w, id);
    } else {
      LoopMovesKept(w, id, Sending(t.point.client));
      if t.point.session.Some? {
        HandedKept(Move(w, id, t.(point := Sending(t.point.client))), t.point.session.value);
      }
    }
  }

  lemma HandedKept(w: World, session: nat)
    requires Inv(w) && session < w.tracker.nextId && OnlyIn(w, session, w.inner.generation)
    ensures Inv(w.(history := w.history.(handed := w.history.handed + {(w.inner.generation, session)})))
  {
    var noted := w.(history := w.history.(handed := w.history.handed + {(w.inner.generation, session)}));
    forall id <- w.tasks ensures TaskOk(noted, id, w.tasks[id]) {
      assert TaskOk(w, id, w.tasks[id]);
    }
  }

  lemma LoopSucceedsKept(w: World, id: TaskId)
    requires Inv(w) && id in w.tasks && w.tasks[id].RefreshLoop? && Publishing(w.inner.state)
    ensures Inv(Move(SetState(w, Active), id, w.tasks[id].(point := Head)))
  {
    hide Consistent, Progressing;
    PublishingStateKept(w, Active);
    LoopMovesKept(SetState(w, Active), id, Head);
  }

  lemma LoopRenegotiatesKept(w: World, id: TaskId)
    requires Inv(w) && id in w.tasks && w.tasks[id].RefreshLoop?
    ensures Inv(StartLocked(LeaveLoop(Discard(w), id)))
  {
    hide FieldsOk, TasksOk, Progressing;
    DiscardKept(w);
    LeaveLoopKept(Discard(w), id);
    StartKept(LeaveLoop(Discard(w), id));
  }

  lemma LoopFailsKept(w: World, id: TaskId)
    requires Inv(w) && id in w.tasks && w.tasks[id].RefreshLoop? && Publishing(w.inner.state)
    ensures var left := LeaveLoop(ScheduleRetry(SetState(w, Degraded), w.inner.generation), id);
            Inv(left) && RetryArmed(left)
  {
    PublishingStateKept(w, Degraded);
    ScheduleRetryKept(SetState(w, Degraded));
    LeaveLoopKept(ScheduleRetry(SetState(w, Degraded), w.inner.generation), id);
    assert TaskOk(w, id, w.tasks[id]);
    assert w.nextTask !in w.aborted;
  }

  lemma FailureNotedKept(w: World)
    requires Inv(w) && RetryArmed(w)
    ensures Inv(NoteFailure(w, w.inner.generation))
  {
    var noted := NoteFailure(w, w.inner.generation);
    forall id <- w.tasks ensures TaskOk(noted, id, w.tasks[id]) {
      assert TaskOk(w, id, w.tasks[id]);
    }
  }

  lemma CurrentLoopPublishes(w: World, id: TaskId)
    requires Inv(w) && id in w.tasks && w.tasks[id].RefreshLoop? && w.tasks[id].gen == w.inner.generation
    ensures Publishing(w.inner.state)
  {
    assert TaskOk(w, id, w.tasks[id]);
  }

  lemma LoopPublishedKept(w: World, id: TaskId, input: Input)
    requires Inv(w) && id in w.tasks && w.tasks[id].RefreshLoop? && w.tasks[id].point.Sending?
    ensures Inv(LoopPublished(w, id, w.tasks[id].gen, input))
  {
    hide Inv, RetryArmed, LeaveLoop, ScheduleRetry, StartLocked, NoteFailure;
    if w.tasks[id].gen != w.inner.generation {
      LeaveLoopKept(w, id);
    } else {
      CurrentLoopPublishes(w, id);
      match input
      case PublishOk => LoopSucceedsKept(w, id);
      case PublishNeedsRenegotiation => LoopRenegotiatesKept(w, id);
      case _ =>
        LoopFailsKept(w, id);
        LeavingKeepsGeneration(w, id);
        FailureNotedKept(LeaveLoop(ScheduleRetry(SetState(w, Degraded), w.inner.generation), id));
    }
  }

  lemma LeavingKeepsGeneration(w: World, id: TaskId)
    ensures LeaveLoop(ScheduleRetry(SetState(w, Degraded), w.inner.generation), id).inner.generation ==
              w.inner.generation
  {
    hide Abort;
  }

  lemma PublishingStateKept(w: World, state: RuntimeState)
    requires Inv(w) && Publishing(w.inner.state) && Publishing(state)
    ensures Inv(SetState(w, state))
  {
    var flipped := SetState(w, state);
    forall id <- w.tasks ensures TaskOk(flipped, id, w.tasks[id]) {
      assert TaskOk(w, id, w.tasks[id]);
    }
  }

  lemma DiscardKept(w: World)
    requires Inv(w)
    ensures Inv(Discard(w))
  {
    forall id <- w.tasks ensures TaskOk(Discard(w), id, w.tasks[id]) {
      assert TaskOk(w, id, w.tasks[id]);
    }
  }

  lemma CleanupKept(w: World, handle: Option<TaskId>)
    requires Inv(w)
    ensures Inv(w.(inner := w.inner.(cleanupTask := handle)))
  {
    var next := w.(inner := w.inner.(cleanupTask := handle));
    forall id <- w.tasks ensures TaskOk(next, id, w.tasks[id]) {
      assert TaskOk(w, id, w.tasks[id]);
    }
  }

  lemma SpawnClearKept(w: World, client: Client)
    requires Inv(w)
    ensures Inv(SpawnClear(w, client))
  {
    hide Consistent, Progressing;
    SpawnUngeneratedKept(w, Clear(client));
    SpawnUngeneratedKept(Spawn(w, Clear(client)), BoundedJoin(w.nextTask));
  }

  lemma SleepKept(w: World)
    requires Inv(w)
    ensures Inv(Sleep(w))
  {
    if w.inner.state != Suspended && !w.inner.stopping {
      SuspendKept(w);
      if w.inner.client.Some? {
        SleepWithClientKept(w);
      }
    }
  }

  lemma SleepWithClientKept(w: World)
    requires Inv(w) && w.inner.state != Suspended && !w.inner.stopping && w.inner.client.Some?
    ensures Inv(Sleep(w))
  {
    hide Consistent, Progressing, SpawnClear;
    SuspendKept(w);
    ClearOnSleepKept(BeginNewGeneration(w, Suspended), w.inner.client.value);
  }

  lemma SuspendKept(w: World)
    requires Inv(w) && !w.inner.stopping
    ensures Inv(BeginNewGeneration(w, Suspended))
  {
    NewGenerationKept(w, Suspended);
  }

  lemma ClearOnSleepKept(w: World, client: Client)
    requires Inv(w)
    ensures Inv(SpawnClear(w, client).(inner := SpawnClear(w, client).inner.(cleanupTask := Some(w.nextTask + 1))))
  {
    hide Consistent, Progressing, SpawnClear;
    SpawnClearKept(w, client);
    CleanupKept(SpawnClear(w, client), Some(w.nextTask + 1));
  }

  lemma BeginWakeKept(w: World)
    requires Inv(w)
    ensures Inv(BeginWake(w))
  {
    hide Consistent, Progressing;
    CleanupKept(w, None);
    SpawnUngeneratedKept(w.(inner := w.inner.(cleanupTask := None)), Wake(w.inner.cleanupTask));
  }

  lemma ShutdownAfterJoinKept(w: World, id: TaskId)
    requires Inv(w) && id in w.tasks && w.tasks[id].Shutdown?
    ensures Inv(ShutdownAfterJoin(w, id, w.tasks[id]))
  {
    var t := w.tasks[id];
    if t.wasSuspended || t.lastClient.None? {
      ShutdownMovesKept(w, id, FinalClear(None));
    } else {
      ShutdownWithClientKept(w, id);
    }
  }

  lemma ShutdownWithClientKept(w: World, id: TaskId)
    requires Inv(w) && id in w.tasks && w.tasks[id].Shutdown? && !w.tasks[id].wasSuspended
              && w.tasks[id].lastClient.Some?
    ensures Inv(ShutdownAfterJoin(w, id, w.tasks[id]))
  {
    FinalClearKept(w, id, w.tasks[id].lastClient.value);
    assert ShutdownAfterJoin(w, id, w.tasks[id])
        == Move(SpawnClear(w, w.tasks[id].lastClient.value), id,
          w.tasks[id].(phase := FinalClear(Some(w.nextTask + 1))));
  }

  lemma FinalClearKept(w: World, id: TaskId, client: Client)
    requires Inv(w) && id in w.tasks && w.tasks[id].Shutdown?
    ensures Inv(Move(SpawnClear(w, client), id, w.tasks[id].(phase := FinalClear(Some(w.nextTask + 1)))))
  {
    assert TaskOk(w, id, w.tasks[id]);
    SpawnClearKept(w, client);
    ShutdownMovesKept(SpawnClear(w, client), id, FinalClear(Some(w.nextTask + 1)));
  }

  lemma FinishShutdownTasks(w: World, id: TaskId)
    requires Inv(w) && id in w.tasks && w.tasks[id].Shutdown?
    ensures TasksOk(FinishShutdown(w, id, w.tasks[id]))
  {
    hide Progressing, Paced;
    assert TaskOk(w, id, w.tasks[id]);
    var ended := FinishShutdown(w, id, w.tasks[id]);
    forall other <- ended.tasks ensures TaskOk(ended, other, ended.tasks[other]) {
      assert TaskOk(w, other, w.tasks[other]);
    }
  }

  lemma FinishShutdownKept(w: World, id: TaskId)
    requires Inv(w) && id in w.tasks && w.tasks[id].Shutdown?
    ensures Inv(FinishShutdown(w, id, w.tasks[id]))
  {
    FinishShutdownTasks(w, id);
    assert TaskOk(w, id, w.tasks[id]);
    hide TasksOk, Spaced, Interval;
  }

  lemma ShutdownMovesKept(w: World, id: TaskId, phase: ShutdownPoint)
    requires Inv(w) && id in w.tasks && w.tasks[id].Shutdown?
    ensures Inv(Move(w, id, w.tasks[id].(phase := phase)))
  {
    var moved := Move(w, id, w.tasks[id].(phase := phase));
    forall other <- moved.tasks ensures TaskOk(moved, other, moved.tasks[other]) {
      assert TaskOk(w, other, w.tasks[other]);
    }
  }

  lemma DisablingKept(w: World, id: TaskId)
    requires Inv(w) && id in w.tasks && w.tasks[id].Disabling?
    ensures Inv(CallShutdownForDisable(w, id, w.tasks[id].write))
  {
    assert TaskOk(w, id, w.tasks[id]);
    if w.inner.stopping {
      StaleFinishKept(w, id);
      var done := Finish(w, id);
      var noted := NoteReturned(done, Some(w.tasks[id].write));
      forall other <- noted.tasks ensures TaskOk(noted, other, noted.tasks[other]) {
        assert TaskOk(done, other, done.tasks[other]);
      }
    } else {
      EnterShutdownKept(w, id, Some(w.tasks[id].write));
    }
  }

  lemma StoreConnectionKept(w: World, next: Option<Connection>)
    requires Inv(w)
    ensures Inv(StoreConnection(w, next))
  {
    var stored := StoreConnection(w, next);
    forall id <- w.tasks ensures TaskOk(stored, id, w.tasks[id]) {
      assert TaskOk(w, id, w.tasks[id]);
    }
  }

  lemma DisablingTasks(w: World, write: nat)
    requires Inv(w) && !Enabled(w.connection) && write == w.history.enablingWrites
    ensures TasksOk(Spawn(w, Disabling(write)))
  {
    hide Progressing;
    var next := Spawn(w, Disabling(write));
    forall other <- next.tasks ensures TaskOk(next, other, next.tasks[other]) {
      assert other in w.tasks ==> TaskOk(w, other, w.tasks[other]);
    }
  }

  lemma DisablingStarts(w: World, write: nat)
    requires Inv(w) && !Enabled(w.connection) && write == w.history.enablingWrites
    ensures Inv(Spawn(w, Disabling(write)))
  {
    DisablingTasks(w, write);
    hide TaskOk;
  }

  lemma WriteDisableKept(w: World)
    requires Inv(w)
    ensures Inv(WriteDisable(w))
  {
    hide Consistent, Progressing;
    var off := if w.connection.Some? then Some(w.connection.value.(liveDeskEnabled := false)) else None;
    StoreConnectionKept(w, off);
    DisablingStarts(StoreConnection(w, off), w.history.enablingWrites);
  }

  lemma RunTaskKept(w: World, id: TaskId, input: Input)
    requires Inv(w) && id in w.tasks && CanRun(w, w.tasks[id], input)
    ensures Inv(RunTask(w, id, w.tasks[id], input))
  {
    hide FieldsOk, TasksOk, Progressing, StepConfigure, FireRetry, BeatHeart, LoopHead, LoopSendStart, LoopCapture,
         LoopDeliver, LoopPublished, FinishShutdown, ShutdownAfterJoin, CallShutdownForDisable, StartLocked;
    match w.tasks[id]
    case Configure(_, _) => ConfigureKept(w, id, input);
    case Retry(_) => TimerKept(w, id);
    case Heartbeat(_) => TimerKept(w, id);
    case RefreshLoop(_, Head) => LoopHeadKept(w, id);
    case RefreshLoop(_, Throttling(_)) => LoopSendStartKept(w, id);
    case RefreshLoop(_, Capturing(_, _)) => LoopCaptureKept(w, id, input.capture);
    case RefreshLoop(_, Captured(_, _)) => LoopDeliverKept(w, id);
    case RefreshLoop(_, Sending(_)) => LoopPublishedKept(w, id, input);
    case Clear(_) => StaleFinishKept(w, id);
    case BoundedJoin(_) => StaleFinishKept(w, id);
    case Wake(_) =>
      StaleFinishKept(w, id);
      StartKept(Finish(w, id));
    case Disabling(_) => DisablingKept(w, id);
    case Shutdown(_, _, _, JoiningSleepClear(_), _) => ShutdownAfterJoinKept(w, id);
    case Shutdown(_, _, _, FinalClear(_), _) => FinishShutdownKept(w, id);
  }

  lemma StepKept(w: World, a: Action)
    requires Inv(w) && CanStep(w, a)
    ensures Inv(Step(w, a))
  {
    hide FieldsOk, Progressing, RunTask, StartLocked, TriggerRefresh, Sleep, BeginWake, EnterShutdown, WriteDisable,
         StoreConnection, UseTracker;
    match a
    case Start => StartKept(w);
    case RequestFreshSnapshot => if Publishing(w.inner.state) { TriggerKept(w); }
    case SleepOrLock => SleepKept(w);
    case WakeOrUnlock => BeginWakeKept(w);
    case BeginShutdown => if !w.inner.stopping { CallShutdownKept(w); }
    case DiscardAuthority => DiscardKept(w);
    case BeginDisable => WriteDisableKept(w);
    case WriteConnection(next) => StoreConnectionKept(w, next);
    case PreviewCapture(capture) => UseTrackerKept(w, capture);
    case Tick(now) => TickKept(w, now);
    case Run(id, input) =>
      if input.Cancelled? {
        assert TaskOk(w, id, w.tasks[id]);
        StaleFinishKept(w, id);
      } else {
        RunTaskKept(w, id, input);
      }
  }

  lemma CallShutdownKept(w: World)
    requires Inv(w) && !w.inner.stopping
    ensures Inv(CallShutdown(w))
  {
    var room := w.(nextTask := w.nextTask + 1);
    forall id <- w.tasks ensures TaskOk(room, id, w.tasks[id]) {
      assert TaskOk(w, id, w.tasks[id]);
    }
    EnterShutdownKept(room, w.nextTask, None);
  }

  lemma TickKept(w: World, now: int)
    requires Inv(w)
    ensures Inv(w.(now := now))
  {
    var later := w.(now := now);
    forall id <- w.tasks ensures TaskOk(later, id, w.tasks[id]) {
      assert TaskOk(w, id, w.tasks[id]);
    }
  }
}
