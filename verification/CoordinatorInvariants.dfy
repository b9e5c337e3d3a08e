/**
 What every step of the coordinator keeps. The invariant has a part about shared fields and a part
 about each live task; both are conjunctions of one clause per concern.
 */
module CoordinatorInvariants {
  import opened Options
  import opened Negotiation
  import opened CoordinatorModel

  // The generation a task checks itself against.
  function Generation(t: Task): Option<nat> {
    match t
    case Configure(gen, _) => Some(gen)
    case Retry(gen) => Some(gen)
    case Heartbeat(gen) => Some(gen)
    case RefreshLoop(gen, _) => Some(gen)
    case _ => None
  }

  predicate IsCurrent(w: World, t: Task) {
    Generation(t) == Some(w.inner.generation)
  }

  predicate IsTimer(t: Task) {
    t.Retry? || t.Heartbeat?
  }

  predicate Publishing(state: RuntimeState) {
    state == Active || state == Degraded
  }

  // ---- clauses about one task ---------------------------------------------------------------

  // Ids are issued in order, no task is from a later generation, only timers are ever aborted.
  ghost predicate NumberedTask(w: World, id: TaskId, t: Task) {
    && id < w.nextTask
    && (Generation(t).Some? ==> Generation(t).value <= w.inner.generation)
    && (id in w.aborted || w.inner.heartbeatTask == Some(id) || w.inner.reconnectTask == Some(id) ==> IsTimer(t))
  }

  // A refresh loop is the one started last, and the flag is set.
  ghost predicate OnlyLoop(w: World, id: TaskId, t: Task) {
    t.RefreshLoop? ==> w.inner.refreshLoopRunning && id == w.history.loop
  }

  // A session id was handed out, if at all, in generation `gen`.
  ghost predicate OnlyIn(w: World, session: nat, gen: nat) {
    forall g :: (g, session) in w.history.handed ==> g == gen
  }

  ghost predicate HoldsOwnSession(w: World, t: Task) {
    t.RefreshLoop? && t.point.Captured? && t.point.session.Some? ==>
      && t.point.session.value < w.tracker.nextId
      && (t.gen == w.inner.generation ==> OnlyIn(w, t.point.session.value, t.gen))
  }

  ghost predicate WaitsLongEnough(w: World, t: Task) {
    t.RefreshLoop? && t.point.Throttling? && w.history.sends != [] ==>
      w.inner.lastSendStartedAt + Interval(w.history.highestRate) <= t.point.until
  }

  // A shutdown in flight froze the generation, and nothing of that generation lives.
  ghost predicate FrozenBy(w: World, id: TaskId, t: Task) {
    && (t.Shutdown? ==> w.inner.stopping && t.gen == w.inner.generation && id == w.history.shutdown)
    && (w.inner.stopping ==> !IsCurrent(w, t))
  }

  // Which tasks of the current generation a state allows.
  ghost predicate FitsState(w: World, id: TaskId, t: Task) {
    IsCurrent(w, t) ==>
      && (t.Configure? ==> w.inner.state == Connecting && id == w.history.negotiation)
      && (t.Heartbeat? || t.RefreshLoop? ==> Publishing(w.inner.state))
      && (t.Retry? ==> Publishing(w.inner.state) || w.inner.state == ServerFeatureUnavailable)
  }

  // The write a disable in flight made.
  function DisableWrite(t: Task): Option<nat> {
    match t
    case Disabling(write) => Some(write)
    case Shutdown(_, _, _, _, disabling) => disabling
    case _ => None
  }

  ghost predicate WroteDisabled(w: World, t: Task) {
    DisableWrite(t).Some? ==>
      && DisableWrite(t).value <= w.history.enablingWrites
      && (DisableWrite(t).value == w.history.enablingWrites ==> !Enabled(w.connection))
  }

  // Some disable has returned and nothing was enabled since its write.
  predicate DisabledSince(w: World) {
    w.history.enablingWrites in w.history.disablesReturned
  }

  // A task of the current generation that cannot reach a send start while the configuration is off.
  ghost predicate Harmless(w: World, t: Task) {
    IsCurrent(w, t) ==> t.Configure? && (t.at.Entry? || t.at.ReadingConnection? || t.at.Refusing?)
  }

  ghost predicate TaskOk(w: World, id: TaskId, t: Task) {
    && NumberedTask(w, id, t)
    && OnlyLoop(w, id, t)
    && HoldsOwnSession(w, t)
    && WaitsLongEnough(w, t)
    && FrozenBy(w, id, t)
    && FitsState(w, id, t)
    && WroteDisabled(w, t)
    && (DisabledSince(w) ==> Harmless(w, t))
  }

  // ---- clauses about the shared fields --------------------------------------------------------

  ghost predicate IdsIssued(w: World) {
    && (forall id <- w.aborted :: id < w.nextTask)
    && (w.inner.heartbeatTask.Some? ==> w.inner.heartbeatTask.value < w.nextTask)
    && (w.inner.reconnectTask.Some? ==> w.inner.reconnectTask.value < w.nextTask)
    && (forall g <- w.history.deadEnds :: g <= w.inner.generation)
  }

  // While the flag is set there is a loop that will release it.
  ghost predicate FlagIsHeld(w: World) {
    w.inner.refreshLoopRunning ==> w.history.loop in w.tasks && w.tasks[w.history.loop].RefreshLoop?
  }

  ghost predicate Sessions(w: World) {
    && (forall g, s :: (g, s) in w.history.handed ==> s < w.tracker.nextId && OnlyIn(w, s, g))
    && (w.tracker.current.Some? ==>
          w.tracker.current.value.1 < w.tracker.nextId && OnlyIn(w, w.tracker.current.value.1, w.inner.generation))
  }

  // Least distance between two sends at a negotiated rate.
  function Interval(rate: nat): nat {
    if rate == 0 then 0 else DivCeil(60_000, rate)
  }

  ghost predicate Spaced(sends: seq<int>, interval: nat) {
    forall i :: 0 <= i < |sends| - 1 ==> sends[i] + interval <= sends[i + 1]
  }

  ghost predicate Paced(w: World) {
    var h := w.history;
    && (h.sends != [] ==> h.highestRate > 0 && h.sends[|h.sends| - 1] == w.inner.lastSendStartedAt)
    && (h.highestRate > 0 ==> Interval(h.highestRate) <= w.inner.minSendIntervalMs)
    && (w.inner.client.Some? ==> h.highestRate > 0)
    && Spaced(h.sends, Interval(h.highestRate))
  }

  ghost predicate Stopped(w: World) {
    w.inner.stopping ==>
      w.inner.state == Disabled && w.history.shutdown in w.tasks && w.tasks[w.history.shutdown].Shutdown?
  }

  // A present client is the registry's client and writes through the registry's sequencer.
  ghost predicate OneWriter(w: World) {
    w.inner.client.Some? ==>
      && w.inner.registry.Some?
      && w.inner.registry.value.client == w.inner.client
      && w.inner.registry.value.sequencer == w.inner.client.value.sequencer
  }

  ghost predicate Armed(w: World, handle: Option<TaskId>, t: Task) {
    handle.Some? && handle.value in w.tasks && handle.value !in w.aborted && w.tasks[handle.value] == t
  }

  ghost predicate RetryArmed(w: World) {
    Armed(w, w.inner.reconnectTask, Retry(w.inner.generation))
  }

  ghost predicate HeartbeatArmed(w: World) {
    Armed(w, w.inner.heartbeatTask, Heartbeat(w.inner.generation))
  }

  ghost predicate NegotiationInFlight(w: World) {
    && w.history.negotiation in w.tasks
    && w.tasks[w.history.negotiation].Configure?
    && IsCurrent(w, w.tasks[w.history.negotiation])
  }

  ghost predicate Progressing(w: World) {
    && (w.inner.state == Connecting ==> NegotiationInFlight(w))
    && (w.inner.state == ServerFeatureUnavailable ==> RetryArmed(w))
    && (Publishing(w.inner.state) ==> RetryArmed(w) || HeartbeatArmed(w) || w.inner.generation in w.history.deadEnds)
  }

  ghost predicate StaysOff(w: World) {
    && (forall e <- w.history.disablesReturned :: e <= w.history.enablingWrites)
    && (DisabledSince(w) ==>
          && !Enabled(w.connection)
          && (w.inner.state == Disabled || w.inner.state == Connecting || w.inner.state == Suspended))
  }

  ghost predicate FieldsOk(w: World) {
    IdsIssued(w) && FlagIsHeld(w) && Sessions(w) && Paced(w) && Stopped(w) && OneWriter(w) && StaysOff(w)
  }

  ghost predicate TasksOk(w: World) {
    forall id <- w.tasks :: TaskOk(w, id, w.tasks[id])
  }

  // All clauses but the one a finishing negotiation or a firing timer breaks for a moment.
  ghost predicate Consistent(w: World) {
    FieldsOk(w) && TasksOk(w)
  }

  ghost predicate Inv(w: World) {
    Consistent(w) && Progressing(w)
  }

  // No task of the current generation is left.
  ghost predicate Calm(w: World) {
    forall id <- w.tasks :: !IsCurrent(w, w.tasks[id])
  }

  // ---- the pieces segments are made of ---------------------------------------------------------

  lemma FinishKept(w: World, id: TaskId)
    requires Consistent(w) && id in w.tasks && !w.tasks[id].RefreshLoop? && !w.tasks[id].Shutdown?
    ensures Consistent(Finish(w, id))
  {
  }

  lemma NewGenerationKept(w: World, state: RuntimeState)
    requires Consistent(w) && !w.inner.stopping && (state == Suspended || state == Disabled || state == Connecting)
    ensures Consistent(BeginNewGeneration(w, state)) && Calm(BeginNewGeneration(w, state))
  {
  }

  lemma ConfigureSpawnedKept(w: World)
    requires Consistent(w) && Calm(w) && !w.inner.stopping && w.inner.state == Connecting
    ensures Inv(Spawn(w.(history := w.history.(negotiation := w.nextTask)), Configure(w.inner.generation, Entry)))
  {
    var next := Spawn(w.(history := w.history.(negotiation := w.nextTask)), Configure(w.inner.generation, Entry));
    forall id <- next.tasks ensures TaskOk(next, id, next.tasks[id]) {
      assert id in w.tasks ==> TaskOk(w, id, w.tasks[id]);
    }
  }

  lemma StartKept(w: World)
    requires Consistent(w) && (w.inner.stopping ==> Progressing(w))
    ensures Inv(StartLocked(w))
  {
    hide FieldsOk, TasksOk, Progressing, Calm;
    if !w.inner.stopping {
      NewGenerationKept(w, Connecting);
      ConfigureSpawnedKept(BeginNewGeneration(w, Connecting));
    }
  }

  lemma SetStateKept(w: World, state: RuntimeState)
    requires Consistent(w) && Calm(w) && !w.inner.stopping && !DisabledSince(w)
    ensures Consistent(SetState(w, state))
  {
  }

  lemma RetryTasksOk(w: World)
    requires Consistent(w) && !w.inner.stopping && !DisabledSince(w)
    requires Publishing(w.inner.state) || w.inner.state == ServerFeatureUnavailable
    ensures TasksOk(ScheduleRetry(w, w.inner.generation))
  {
    var next := ScheduleRetry(w, w.inner.generation);
    forall id <- next.tasks ensures TaskOk(next, id, next.tasks[id]) {
      assert id in w.tasks ==> TaskOk(w, id, w.tasks[id]);
    }
  }

  lemma ScheduleRetryKept(w: World)
    requires Consistent(w) && !w.inner.stopping && !DisabledSince(w)
    requires Publishing(w.inner.state) || w.inner.state == ServerFeatureUnavailable
    ensures Inv(ScheduleRetry(w, w.inner.generation))
  {
    RetryTasksOk(w);
    hide TaskOk;
    assert forall id <- w.tasks :: id < w.nextTask by {
      assert forall id <- w.tasks :: TaskOk(w, id, w.tasks[id]);
    }
  }

  lemma HeartbeatTasks(w: World, seconds: real)
    requires Consistent(w) && !w.inner.stopping && !DisabledSince(w) && Publishing(w.inner.state)
    ensures TasksOk(SpawnHeartbeat(w, w.inner.generation, seconds))
  {
    var next := SpawnHeartbeat(w, w.inner.generation, seconds);
    forall other <- next.tasks ensures TaskOk(next, other, next.tasks[other]) {
      assert other in w.tasks ==> TaskOk(w, other, w.tasks[other]);
    }
  }

  lemma SpawnHeartbeatKept(w: World, seconds: real)
    requires Consistent(w) && !w.inner.stopping && !DisabledSince(w) && Publishing(w.inner.state)
    ensures Inv(SpawnHeartbeat(w, w.inner.generation, seconds))
  {
    HeartbeatTasks(w, seconds);
  }

  lemma RequestNotedKept(w: World)
    requires Inv(w)
    ensures Inv(w.(inner := w.inner.(refreshRequested := true)))
  {
    var next := w.(inner := w.inner.(refreshRequested := true));
    forall id <- w.tasks ensures TaskOk(next, id, w.tasks[id]) {
      assert TaskOk(w, id, w.tasks[id]);
    }
  }

  lemma LoopSpawnedTasks(w: World)
    requires Inv(w) && Publishing(w.inner.state) && !w.inner.refreshLoopRunning
    ensures TasksOk(TriggerRefresh(w, w.inner.generation))
  {
    var next := TriggerRefresh(w, w.inner.generation);
    forall id <- next.tasks ensures TaskOk(next, id, next.tasks[id]) {
      assert id in w.tasks ==> TaskOk(w, id, w.tasks[id]);
    }
  }

  lemma LoopSpawnedKept(w: World)
    requires Inv(w) && Publishing(w.inner.state) && !w.inner.refreshLoopRunning
    ensures Inv(TriggerRefresh(w, w.inner.generation))
  {
    LoopSpawnedTasks(w);
    assert forall id <- w.tasks :: id < w.nextTask by {
      forall id <- w.tasks ensures id < w.nextTask {
        assert TaskOk(w, id, w.tasks[id]);
      }
    }
    hide TaskOk;
  }

  lemma TriggerKept(w: World)
    requires Inv(w) && Publishing(w.inner.state)
    ensures Inv(TriggerRefresh(w, w.inner.generation))
  {
    hide Consistent, Progressing;
    if w.inner.refreshLoopRunning {
      RequestNotedKept(w);
    } else {
      LoopSpawnedKept(w);
    }
  }

  // Clears, joins and wakes check themselves against no generation.
  lemma SpawnUngeneratedTasks(w: World, t: Task)
    requires Inv(w) && (t.Clear? || t.BoundedJoin? || t.Wake?)
    ensures TasksOk(Spawn(w, t))
  {
    hide Progressing;
    var next := Spawn(w, t);
    forall other <- next.tasks ensures TaskOk(next, other, next.tasks[other]) {
      assert other in w.tasks ==> TaskOk(w, other, w.tasks[other]);
    }
  }

  lemma SpawnUngeneratedKept(w: World, t: Task)
    requires Inv(w) && (t.Clear? || t.BoundedJoin? || t.Wake?)
    ensures Inv(Spawn(w, t))
  {
    SpawnUngeneratedTasks(w, t);
    hide TaskOk;
  }

  lemma LeaveLoopTasks(w: World, id: TaskId)
    requires Inv(w) && id in w.tasks && w.tasks[id].RefreshLoop?
    ensures TasksOk(LeaveLoop(w, id))
  {
    hide Progressing;
    var next := LeaveLoop(w, id);
    forall other <- next.tasks ensures TaskOk(next, other, next.tasks[other]) {
      assert other in w.tasks ==> TaskOk(w, other, w.tasks[other]);
    }
  }

  lemma LeaveLoopKept(w: World, id: TaskId)
    requires Inv(w) && id in w.tasks && w.tasks[id].RefreshLoop?
    ensures Inv(LeaveLoop(w, id))
  {
    LeaveLoopTasks(w, id);
  }

  // A disable or shutdown call by task `id`, just after its generation bump.
  lemma FreezeTasks(w: World, id: TaskId, t: Task)
    requires Consistent(w) && Calm(w) && w.inner.state == Disabled && !w.inner.stopping
    requires t.Shutdown? && t.gen == w.inner.generation && WroteDisabled(w, t) && id < w.nextTask
    requires id in w.tasks ==> w.tasks[id].Disabling?
    requires id !in w.aborted && w.inner.heartbeatTask.None? && w.inner.reconnectTask.None?
    ensures TasksOk(Move(w.(inner := w.inner.(stopping := true, cleanupTask := None),
                        history := w.history.(shutdown := id)), id, t))
  {
    var next := Move(w.(inner := w.inner.(stopping := true, cleanupTask := None),
                        history := w.history.(shutdown := id)), id, t);
    forall other <- next.tasks ensures TaskOk(next, other, next.tasks[other]) {
      assert other in w.tasks ==> TaskOk(w, other, w.tasks[other]);
    }
  }

  lemma FreezeKept(w: World, id: TaskId, t: Task)
    requires Consistent(w) && Calm(w) && w.inner.state == Disabled && !w.inner.stopping
    requires t.Shutdown? && t.gen == w.inner.generation && WroteDisabled(w, t) && id < w.nextTask
    requires id in w.tasks ==> w.tasks[id].Disabling?
    requires id !in w.aborted && w.inner.heartbeatTask.None? && w.inner.reconnectTask.None?
    ensures Inv(Move(w.(inner := w.inner.(stopping := true, cleanupTask := None),
                        history := w.history.(shutdown := id)), id, t))
  {
    FreezeTasks(w, id, t);
    hide TaskOk;
  }

  lemma EnterShutdownKept(w: World, id: TaskId, disabling: Option<nat>)
    requires Consistent(w) && !w.inner.stopping && id < w.nextTask
    requires id in w.tasks ==> w.tasks[id].Disabling?
    requires id !in w.aborted && w.inner.heartbeatTask != Some(id) && w.inner.reconnectTask != Some(id)
    requires disabling.Some? ==> disabling.value <= w.history.enablingWrites
    requires disabling == Some(w.history.enablingWrites) ==> !Enabled(w.connection)
    ensures Inv(EnterShutdown(w, id, disabling))
  {
    hide Consistent, Progressing, Calm;
    NewGenerationKept(w, Disabled);
    FreezeKept(BeginNewGeneration(w, Disabled), id,
               Shutdown(w.inner.generation + 1, w.inner.client, w.inner.state == Suspended,
                        JoiningSleepClear(w.inner.cleanupTask), disabling));
  }

  lemma FactorKeepsOrder(x: int, y: int, k: nat)
    ensures x <= y ==> x * k <= y * k
  {
    assert (y - x) * k == y * k - x * k;
  }

  lemma FewerRequestsFurtherApart(low: nat, high: nat)
    requires 0 < low <= high
    ensures Interval(high) <= Interval(low)
  {
    var near, far := Interval(high), Interval(low);
    assert (near - 1) * high < 60_000 <= far * low;
    assert far * low <= far * high;
    FactorKeepsOrder(far, near - 1, high);
  }

  lemma ParametersKept(w: World, c: Configuration)
    requires Consistent(w) && c.requestsPerMinute > 0
    ensures Consistent(AdoptParameters(w, c)) && (Calm(w) ==> Calm(AdoptParameters(w, c)))
  {
    var adopted := AdoptParameters(w, c);
    FewerRequestsFurtherApart(c.requestsPerMinute, adopted.history.highestRate);
    if w.history.highestRate > 0 {
      FewerRequestsFurtherApart(w.history.highestRate, adopted.history.highestRate);
    }
    assert Spaced(w.history.sends, Interval(adopted.history.highestRate));
    forall id <- w.tasks ensures TaskOk(adopted, id, w.tasks[id]) {
      assert TaskOk(w, id, w.tasks[id]);
    }
  }

  lemma InstallTasks(w: World, key: string)
    requires Consistent(w) && w.history.highestRate > 0
    ensures TasksOk(InstallClient(w, key))
  {
    hide FieldsOk, Progressing;
    var next := InstallClient(w, key);
    forall other <- next.tasks ensures TaskOk(next, other, next.tasks[other]) {
      assert other in w.tasks ==> TaskOk(w, other, w.tasks[other]);
    }
  }

  lemma InstallKept(w: World, key: string)
    requires Consistent(w) && w.history.highestRate > 0
    ensures Consistent(InstallClient(w, key)) && (Calm(w) ==> Calm(InstallClient(w, key)))
  {
    InstallTasks(w, key);
    hide TaskOk;
  }

  lemma AdoptKept(w: World, connection: Connection, c: Configuration)
    requires Consistent(w) && c.requestsPerMinute > 0
    ensures Consistent(AdoptConfiguration(w, connection, c))
    ensures Calm(w) ==> Calm(AdoptConfiguration(w, connection, c))
  {
    ParametersKept(w, c);
    InstallKept(AdoptParameters(w, c), AuthorityKey(connection));
  }
}
