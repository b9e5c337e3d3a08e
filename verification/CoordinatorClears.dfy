/**
 Clears and timers: who clears the presence, who waits for it, and that no timer outlives its handle.
 */
module CoordinatorClears {
  import opened CoordinatorInvariants
  import opened CoordinatorLiveness
  import opened CoordinatorModel
  import opened CoordinatorTheorems
  import opened Options

  // ---- sleep -----------------------------------------------------------------------------------------

  // A clear through this client and the bounded join of it are new tasks, and nothing else is.
  predicate ClearsThrough(w: World, next: World, client: Client, join: TaskId) {
    && join !in w.tasks && join in next.tasks && next.tasks[join].BoundedJoin?
    && next.tasks[join].clear !in w.tasks && next.tasks[join].clear in next.tasks
    && next.tasks[next.tasks[join].clear] == Clear(client)
    && next.tasks.Keys == w.tasks.Keys + {join, next.tasks[join].clear}
  }

  ghost predicate IsNumbered(w: World) {
    forall id <- w.tasks :: id < w.nextTask
  }

  lemma NumbersBelow(w: World)
    requires Inv(w)
    ensures IsNumbered(w) && forall id <- w.tasks :: id in w.aborted ==> IsTimer(w.tasks[id])
  {
    assert forall id <- w.tasks :: TaskOk(w, id, w.tasks[id]);
  }

  lemma SleepSpawnsTheClear(w: World)
    requires IsNumbered(w)
    ensures var next := Step(w, SleepOrLock);
            if w.inner.state == Suspended || w.inner.stopping then next == w
            else
              && next.inner.state == Suspended && next.inner.generation == w.inner.generation + 1
              && next.inner.client == w.inner.client
              && (forall id <- w.tasks :: id in next.tasks && next.tasks[id] == w.tasks[id])
              && (w.inner.client.None? ==> next.tasks == w.tasks && next.inner.cleanupTask == w.inner.cleanupTask)
              && (w.inner.client.Some? ==>
                    next.inner.cleanupTask.Some?
                    && ClearsThrough(w, next, w.inner.client.value, next.inner.cleanupTask.value))
  {
    hide Abort;
  }

  // Falling asleep clears through the client of before the bump exactly if there is one, keeps the join
  // of that clear for the wake, and leaves the client alone; a second lock and a lock during a shutdown
  // are ignored.
  lemma SleepClears(w: World)
    requires Inv(w)
    ensures var next := Step(w, SleepOrLock);
            if w.inner.state == Suspended || w.inner.stopping then next == w
            else
              && next.inner.state == Suspended && next.inner.generation == w.inner.generation + 1
              && next.inner.client == w.inner.client
              && (forall id <- w.tasks :: id in next.tasks && next.tasks[id] == w.tasks[id])
              && (w.inner.client.None? ==> next.tasks == w.tasks && next.inner.cleanupTask == w.inner.cleanupTask)
              && (w.inner.client.Some? ==>
                    next.inner.cleanupTask.Some?
                    && ClearsThrough(w, next, w.inner.client.value, next.inner.cleanupTask.value))
  {
    hide Inv, Step;
    NumbersBelow(w);
    SleepSpawnsTheClear(w);
  }

  // ---- shutdown --------------------------------------------------------------------------------------

  // Step `a` makes task `id` a shutdown, by a call or for a disable.
  predicate BeginsShutdown(w: World, a: Action, id: TaskId) {
    && CanStep(w, a) && id in Step(w, a).tasks && Step(w, a).tasks[id].Shutdown?
    && !(id in w.tasks && w.tasks[id].Shutdown?)
  }

  predicate MustClear(w: World) {
    w.inner.client.Some? && w.inner.state != Suspended
  }

  // How far the shutdown that began in `start` has come, as its task says.
  predicate Remembers(start: World, t: Task) {
    && t.Shutdown? && t.lastClient == start.inner.client && t.wasSuspended == (start.inner.state == Suspended)
    && (t.phase.JoiningSleepClear? ==> t.phase.pending == start.inner.cleanupTask)
    && (t.phase.FinalClear? ==> (t.phase.join.Some? <==> MustClear(start)))
  }

  lemma CallBegins(w: World, a: Action, id: TaskId)
    requires Inv(w) && BeginsShutdown(w, a, id) && !a.Run?
    ensures Remembers(w, Step(w, a).tasks[id]) && Step(w, a).tasks[id].phase.JoiningSleepClear?
  {
    NumbersBelow(w);
    hide Inv, Abort;
  }

  lemma DisableBegins(w: World, a: Action, id: TaskId)
    requires Inv(w) && BeginsShutdown(w, a, id) && a.Run? && a.id in w.tasks && w.tasks[a.id].Disabling?
    ensures Remembers(w, Step(w, a).tasks[id]) && Step(w, a).tasks[id].phase.JoiningSleepClear?
  {
    hide Inv, Abort;
  }

  lemma OthersBeginNone(w: World, a: Action, id: TaskId)
    requires a.Run? && a.id in w.tasks && !w.tasks[a.id].Disabling? && !w.tasks[a.id].Configure?
              && !w.tasks[a.id].RefreshLoop?
    ensures !BeginsShutdown(w, a, id)
  {
    hide Abort;
  }

  lemma LoopsBeginNone(w: World, a: Action, id: TaskId)
    requires a.Run? && a.id in w.tasks && w.tasks[a.id].RefreshLoop?
    ensures !BeginsShutdown(w, a, id)
  {
    hide Abort;
  }

  lemma NegotiationsBeginNone(w: World, a: Action, id: TaskId)
    requires a.Run? && a.id in w.tasks && w.tasks[a.id].Configure?
    ensures !BeginsShutdown(w, a, id)
  {
    hide Abort;
  }

  lemma ShutdownBegins(w: World, a: Action, id: TaskId)
    requires Inv(w) && BeginsShutdown(w, a, id)
    ensures Remembers(w, Step(w, a).tasks[id]) && Step(w, a).tasks[id].phase.JoiningSleepClear?
  {
    hide Inv, Step, Remembers;
    if !a.Run? {
      CallBegins(w, a, id);
    } else if w.tasks[a.id].Disabling? {
      DisableBegins(w, a, id);
    } else if w.tasks[a.id].RefreshLoop? {
      LoopsBeginNone(w, a, id);
    } else if w.tasks[a.id].Configure? {
      NegotiationsBeginNone(w, a, id);
    } else {
      OthersBeginNone(w, a, id);
    }
  }

  // The step after the sleep's clear is joined clears if there is something to clear.
  lemma JoinedShutdownClears(start: World, w: World, id: TaskId)
    requires IsNumbered(w) && id in w.tasks && Remembers(start, w.tasks[id]) && w.tasks[id].phase.JoiningSleepClear?
    ensures CanStep(w, Run(id, Continue)) <==>
              (start.inner.cleanupTask.Some? ==> start.inner.cleanupTask.value !in w.tasks)
    ensures CanStep(w, Run(id, Continue)) ==>
              var next := Step(w, Run(id, Continue));
              && id in next.tasks && Remembers(start, next.tasks[id]) && next.tasks[id].phase.FinalClear?
              && (if MustClear(start)
                   then ClearsThrough(w, next, start.inner.client.value, next.tasks[id].phase.join.value)
                  else next.tasks.Keys == w.tasks.Keys)
  {
  }

  // And the one after that ends it, once the bounded join of that clear is over: no client is left and
  // the coordinator may start again.
  lemma ClearedShutdownEnds(start: World, w: World, id: TaskId)
    requires id in w.tasks && Remembers(start, w.tasks[id]) && w.tasks[id].phase.FinalClear?
    ensures CanStep(w, Run(id, Continue)) <==> (MustClear(start) ==> w.tasks[id].phase.join.value !in w.tasks)
    ensures CanStep(w, Run(id, Continue)) ==>
              var next := Step(w, Run(id, Continue));
              && next.tasks == w.tasks - {id}
              && next.inner == w.inner.(client := None, stopping := false)
  {
  }

  // ---- a shutdown over its whole run --------------------------------------------------------------------

  lemma GoingLiveLeavesOthers(w: World, a: Action, id: TaskId)
    requires RunsTask(w, a) && id in w.tasks && id < w.nextTask && a.id != id
    requires GoesLive(a)
    ensures id in Step(w, a).tasks && Step(w, a).tasks[id] == w.tasks[id]
  {
    hide Abort;
  }

  lemma NegotiationsLeaveOthers(w: World, a: Action, id: TaskId)
    requires RunsTask(w, a) && id in w.tasks && id < w.nextTask && a.id != id
    requires w.tasks[a.id].Configure? && !GoesLive(a)
    ensures id in Step(w, a).tasks && Step(w, a).tasks[id] == w.tasks[id]
  {
    hide Abort;
  }

  lemma PublishesLeaveOthers(w: World, a: Action, id: TaskId)
    requires RunsTask(w, a) && id in w.tasks && id < w.nextTask && a.id != id
    requires w.tasks[a.id].RefreshLoop? && w.tasks[a.id].point.Sending?
    ensures id in Step(w, a).tasks && Step(w, a).tasks[id] == w.tasks[id]
  {
    hide Abort;
  }

  lemma LoopsLeaveOthers(w: World, a: Action, id: TaskId)
    requires RunsTask(w, a) && id in w.tasks && id < w.nextTask && a.id != id
    requires w.tasks[a.id].RefreshLoop? && !w.tasks[a.id].point.Sending?
    ensures id in Step(w, a).tasks && Step(w, a).tasks[id] == w.tasks[id]
  {
    hide Abort;
  }

  lemma TimersLeaveOthers(w: World, a: Action, id: TaskId)
    requires RunsTask(w, a) && id in w.tasks && id < w.nextTask && a.id != id
    requires IsTimer(w.tasks[a.id]) || w.tasks[a.id].Wake? || w.tasks[a.id].Clear? || w.tasks[a.id].BoundedJoin?
    ensures id in Step(w, a).tasks && Step(w, a).tasks[id] == w.tasks[id]
  {
    hide Abort;
  }

  lemma StopsLeaveOthers(w: World, a: Action, id: TaskId)
    requires RunsTask(w, a) && id in w.tasks && id < w.nextTask && a.id != id
    requires w.tasks[a.id].Disabling? || w.tasks[a.id].Shutdown?
    ensures id in Step(w, a).tasks && Step(w, a).tasks[id] == w.tasks[id]
  {
    hide Abort;
  }

  // A task's step touches no other task that is there.
  lemma TasksLeaveOthers(w: World, a: Action, id: TaskId)
    requires RunsTask(w, a) && id in w.tasks && id < w.nextTask && a.id != id
    ensures id in Step(w, a).tasks && Step(w, a).tasks[id] == w.tasks[id]
  {
    hide Step, GoesLive;
    match w.tasks[a.id]
    case Configure(_, _) =>
      if GoesLive(a) {
        GoingLiveLeavesOthers(w, a, id);
      } else {
        NegotiationsLeaveOthers(w, a, id);
      }
    case RefreshLoop(_, Sending(_)) => PublishesLeaveOthers(w, a, id);
    case RefreshLoop(_, _) => LoopsLeaveOthers(w, a, id);
    case Disabling(_) => StopsLeaveOthers(w, a, id);
    case Shutdown(_, _, _, _, _) => StopsLeaveOthers(w, a, id);
    case _ => TimersLeaveOthers(w, a, id);
  }

  lemma OthersLeaveShutdowns(w: World, a: Action, id: TaskId)
    requires Inv(w) && CanStep(w, a) && id in w.tasks && w.tasks[id].Shutdown? && !(a.Run? && a.id == id)
    ensures id in Step(w, a).tasks && Step(w, a).tasks[id] == w.tasks[id]
  {
    NumbersBelow(w);
    hide Inv, Abort;
    if RunsTask(w, a) {
      TasksLeaveOthers(w, a, id);
    }
  }

  // Step `k` of shutdown `id`: the sleep's clear is joined, and the clear is spawned exactly if due.
  ghost predicate ClearStep(ws: seq<World>, acts: seq<Action>, i: nat, k: nat, id: TaskId, join: Option<TaskId>)
    requires i <= k < |acts| && |ws| == |acts| + 1
  {
    && acts[k] == Run(id, Continue)
    && (ws[i].inner.cleanupTask.Some? ==> ws[i].inner.cleanupTask.value !in ws[k].tasks)
    && if MustClear(ws[i]) then join.Some? && ClearsThrough(ws[k], ws[k + 1], ws[i].inner.client.value, join.value)
       else join.None? && ws[k + 1].tasks.Keys == ws[k].tasks.Keys
  }

  // Between `i` and `n` the shutdown made that step and no other.
  ghost predicate Cleared(ws: seq<World>, acts: seq<Action>, i: nat, n: nat, id: TaskId, join: Option<TaskId>)
    requires i <= n <= |acts| && |ws| == |acts| + 1
  {
    exists k: nat :: i < k < n && ClearStep(ws, acts, i, k, id, join) && OnlyStep(acts, i, k, n, id)
  }

  predicate OnlyStep(acts: seq<Action>, i: nat, k: nat, n: nat, id: TaskId)
    requires n <= |acts|
  {
    forall l :: i < l < n && acts[l].Run? && acts[l].id == id ==> l == k
  }

  ghost predicate OnItsWay(ws: seq<World>, acts: seq<Action>, i: nat, n: nat, id: TaskId)
    requires i <= n <= |acts| && |ws| == |acts| + 1
  {
    && id in ws[n].tasks && Remembers(ws[i], ws[n].tasks[id])
    && match ws[n].tasks[id].phase
       case JoiningSleepClear(_) => OnlyStep(acts, i, i, n, id)
       case FinalClear(join) => Cleared(ws, acts, i, n, id, join)
  }

  // Step `m` ended it, after the join of its clear was over.
  ghost predicate EndsAt(ws: seq<World>, acts: seq<Action>, i: nat, m: nat, id: TaskId, join: Option<TaskId>)
    requires i <= m < |acts| && |ws| == |acts| + 1
  {
    && Cleared(ws, acts, i, m, id, join)
    && acts[m] == Run(id, Continue) && (join.Some? ==> join.value !in ws[m].tasks)
    && ws[m + 1].tasks == ws[m].tasks - {id}
    && ws[m + 1].inner == ws[m].inner.(client := None, stopping := false)
  }

  lemma ShutdownMovesOn(ws: seq<World>, acts: seq<Action>, i: nat, n: nat, id: TaskId) returns (join: Option<TaskId>)
    requires IsRun(ws, acts) && i < n < |acts| && OnItsWay(ws, acts, i, n, id)
    ensures OnItsWay(ws, acts, i, n + 1, id) || EndsAt(ws, acts, i, n, id, join)
  {
    hide Inv, Step, CanStep, ClearsThrough, Remembers;
    Reachable(ws, acts, n);
    assert Linked(ws, acts, n);
    var w, a := ws[n], acts[n];
    RemembersAShutdown(ws[i], w.tasks[id]);
    join := if w.tasks[id].phase.FinalClear? then w.tasks[id].phase.join else None;
    if a.Run? && a.id == id {
      StepsByItself(ws[i], w, a, id);
      if w.tasks[id].phase.JoiningSleepClear? {
        NumbersBelow(w);
        JoinedShutdownClears(ws[i], w, id);
        RemembersAShutdown(ws[i], ws[n + 1].tasks[id]);
        assert ClearStep(ws, acts, i, n, id, ws[n + 1].tasks[id].phase.join);
        assert OnlyStep(acts, i, n, n + 1, id);
      } else {
        ClearedShutdownEnds(ws[i], w, id);
      }
    } else {
      OthersLeaveShutdowns(w, a, id);
      if w.tasks[id].phase.FinalClear? {
        var k: nat :| i < k < n && ClearStep(ws, acts, i, k, id, join) && OnlyStep(acts, i, k, n, id);
        assert OnlyStep(acts, i, k, n + 1, id);
      }
    }
  }

  lemma RemembersAShutdown(start: World, t: Task)
    requires Remembers(start, t)
    ensures t.Shutdown? && (t.phase.FinalClear? ==> (t.phase.join.Some? <==> MustClear(start)))
  {
  }

  // A shutdown is never told to stop.
  lemma StepsByItself(start: World, w: World, a: Action, id: TaskId)
    requires Inv(w) && CanStep(w, a) && a.Run? && a.id == id && id in w.tasks && w.tasks[id].Shutdown?
    ensures a == Run(id, Continue)
  {
    NumbersBelow(w);
  }

  lemma {:induction false} OnItsWayOrEnded(ws: seq<World>, acts: seq<Action>, i: nat, n: nat, id: TaskId)
    requires IsRun(ws, acts) && i < n <= |acts| && BeginsShutdown(ws[i], acts[i], id)
    ensures OnItsWay(ws, acts, i, n, id) || exists m: nat, join :: i < m < n && EndsAt(ws, acts, i, m, id, join)
  {
    hide Inv, Step, CanStep, OnItsWay, EndsAt;
    if n == i + 1 {
      Reachable(ws, acts, i);
      assert Linked(ws, acts, i);
      ShutdownBegins(ws[i], acts[i], id);
      JustBegun(ws, acts, i, id);
    } else {
      OnItsWayOrEnded(ws, acts, i, n - 1, id);
      if OnItsWay(ws, acts, i, n - 1, id) {
        var join := ShutdownMovesOn(ws, acts, i, n - 1, id);
      }
    }
  }

  lemma JustBegun(ws: seq<World>, acts: seq<Action>, i: nat, id: TaskId)
    requires i < |acts| && |ws| == |acts| + 1 && id in ws[i + 1].tasks
    requires Remembers(ws[i], ws[i + 1].tasks[id]) && ws[i + 1].tasks[id].phase.JoiningSleepClear?
    ensures OnItsWay(ws, acts, i, i + 1, id)
  {
  }

  // A shutdown, called or for a disable, that is over: it joined the clear of a sleep before it, then, in
  // one step and no other, put a clear through the client it found into the tasks exactly if there was
  // one and the coordinator was not suspended, and ended only when the bounded join of that clear was
  // over, with no client left.
  lemma ShutdownClears(ws: seq<World>, acts: seq<Action>, i: nat, n: nat, id: TaskId)
    requires IsRun(ws, acts) && i < n <= |acts| && BeginsShutdown(ws[i], acts[i], id) && id !in ws[n].tasks
    ensures exists m: nat, join :: i < m < n && EndsAt(ws, acts, i, m, id, join)
  {
    OnItsWayOrEnded(ws, acts, i, n, id);
  }

  // ---- timers ----------------------------------------------------------------------------------------

  // A timer that was not told to stop is the one in its handle, and of the current generation.
  predicate IsArmedOrStopped(w: World, id: TaskId, t: Task) {
    && (t.Retry? ==> id in w.aborted || (w.inner.reconnectTask == Some(id) && t.gen == w.inner.generation))
    && (t.Heartbeat? ==> id in w.aborted || (w.inner.heartbeatTask == Some(id) && t.gen == w.inner.generation))
  }

  ghost predicate TimersHeld(w: World) {
    forall id <- w.tasks :: IsArmedOrStopped(w, id, w.tasks[id])
  }

  lemma FinishHoldsTimers(w: World, id: TaskId, state: RuntimeState)
    requires TimersHeld(w)
    ensures TimersHeld(Finish(w, id)) && TimersHeld(SetState(Finish(w, id), state))
  {
  }

  lemma StartHoldsTimers(w: World)
    requires TimersHeld(w)
    ensures TimersHeld(StartLocked(w))
  {
  }

  lemma RetryHoldsTimers(w: World)
    requires TimersHeld(w)
    ensures TimersHeld(ScheduleRetry(w, w.inner.generation))
  {
  }

  lemma EntryHoldsTimers(w: World, a: Action)
    requires TimersHeld(w) && CanStep(w, a) && !RunsTask(w, a)
    ensures TimersHeld(Step(w, a))
  {
  }

  lemma AnswerHoldsTimers(w: World, a: Action)
    requires TimersHeld(w) && RunsTask(w, a) && w.tasks[a.id].Configure? && w.tasks[a.id].at.AwaitingCapabilities?
    requires IsCurrent(w, w.tasks[a.id]) && !GoesLive(a)
    ensures TimersHeld(Step(w, a))
  {
    hide Step, TimersHeld, ScheduleRetry;
    AnswersDecideTheState(w, a.id, a.input);
    FinishHoldsTimers(w, a.id, Degraded);
    FinishHoldsTimers(w, a.id, ServerFeatureUnavailable);
    FinishHoldsTimers(w, a.id, UpdateRequired);
    RetryHoldsTimers(SetState(Finish(w, a.id), Degraded));
    RetryHoldsTimers(SetState(Finish(w, a.id), ServerFeatureUnavailable));
  }

  lemma NegotiationHoldsTimers(w: World, a: Action)
    requires TimersHeld(w) && RunsTask(w, a) && w.tasks[a.id].Configure?
    requires !w.tasks[a.id].at.AwaitingCapabilities? || !IsCurrent(w, w.tasks[a.id])
    ensures TimersHeld(Step(w, a))
  {
    hide ScheduleRetry;
    FinishHoldsTimers(w, a.id, Degraded);
    RetryHoldsTimers(SetState(Finish(w, a.id), Degraded));
  }

  lemma GoingLiveHoldsTimers(w: World, a: Action)
    requires TimersHeld(w) && RunsTask(w, a) && GoesLive(a) && IsCurrent(w, w.tasks[a.id])
    ensures TimersHeld(Step(w, a))
  {
    hide Step, RunsTask;
    GoingLiveTasks(w, a);
  }

  lemma LoopHoldsTimers(w: World, a: Action)
    requires TimersHeld(w) && RunsTask(w, a) && w.tasks[a.id].RefreshLoop?
    ensures TimersHeld(Step(w, a))
  {
  }

  lemma RestartsHoldTimers(w: World, a: Action)
    requires TimersHeld(w) && RunsTask(w, a) && (w.tasks[a.id].Retry? || w.tasks[a.id].Wake?)
    ensures TimersHeld(Step(w, a))
  {
    FinishHoldsTimers(w, a.id, w.inner.state);
    StartHoldsTimers(Finish(w, a.id));
    hide TimersHeld, StartLocked;
  }

  lemma HeartbeatHoldsTimers(w: World, a: Action)
    requires TimersHeld(w) && RunsTask(w, a) && w.tasks[a.id].Heartbeat?
    ensures TimersHeld(Step(w, a))
  {
  }

  lemma DisableHoldsTimers(w: World, a: Action)
    requires TimersHeld(w) && RunsTask(w, a) && w.tasks[a.id].Disabling?
    ensures TimersHeld(Step(w, a))
  {
  }

  lemma OthersHoldTimers(w: World, a: Action)
    requires TimersHeld(w) && RunsTask(w, a) && !w.tasks[a.id].Disabling?
    requires !w.tasks[a.id].Configure? && !w.tasks[a.id].RefreshLoop? && !IsTimer(w.tasks[a.id]) && !w.tasks[a.id].Wake?
    ensures TimersHeld(Step(w, a))
  {
    hide Abort;
  }

  lemma TasksHoldTimers(w: World, a: Action)
    requires TimersHeld(w) && RunsTask(w, a)
    ensures TimersHeld(Step(w, a))
  {
    hide TimersHeld, Step, GoesLive;
    match w.tasks[a.id]
    case Configure(_, at) =>
      if !at.AwaitingCapabilities? || !IsCurrent(w, w.tasks[a.id]) {
        NegotiationHoldsTimers(w, a);
      } else if GoesLive(a) {
        GoingLiveHoldsTimers(w, a);
      } else {
        AnswerHoldsTimers(w, a);
      }
    case RefreshLoop(_, _) => LoopHoldsTimers(w, a);
    case Heartbeat(_) => HeartbeatHoldsTimers(w, a);
    case Retry(_) => RestartsHoldTimers(w, a);
    case Wake(_) => RestartsHoldTimers(w, a);
    case Disabling(_) => DisableHoldsTimers(w, a);
    case _ => OthersHoldTimers(w, a);
  }

  // In every reachable state each live timer is armed, in its handle and for this generation, or has
  // been told to stop: a new generation stops every timer of the old one, a new retry the retry before.
  lemma {:induction false} TimersAreArmedOrStopped(ws: seq<World>, acts: seq<Action>, i: nat)
    requires IsRun(ws, acts) && i <= |acts|
    ensures TimersHeld(ws[i])
  {
    if i > 0 {
      TimersAreArmedOrStopped(ws, acts, i - 1);
      assert Linked(ws, acts, i - 1);
      var w, a := ws[i - 1], acts[i - 1];
      hide TimersHeld, Step, IsRun;
      if RunsTask(w, a) {
        TasksHoldTimers(w, a);
      } else {
        EntryHoldsTimers(w, a);
      }
    }
  }
}
