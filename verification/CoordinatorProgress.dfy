/** When the coordinator goes on by itself, and when it does not. */
module CoordinatorProgress {
  import opened CoordinatorInvariants
  import opened CoordinatorModel
  import opened CoordinatorTheorems

  // A publish of this generation failed at one of the steps after `k`.
  ghost predicate FailedSince(ws: seq<World>, acts: seq<Action>, k: nat, i: nat, gen: nat)
    requires i <= |acts| <= |ws|
  {
    exists m :: k < m < i && FailsPublish(ws[m], acts[m]) && ws[m].inner.generation == gen
  }

  // Step `k` refused the stored URL of this generation, and no publish of it has failed since.
  ghost predicate RefusedForGood(ws: seq<World>, acts: seq<Action>, k: nat, i: nat, gen: nat)
    requires i <= |acts| <= |ws|
  {
    k < i && RefusesUrl(ws[k], acts[k]) && ws[k].inner.generation == gen && !FailedSince(ws, acts, k, i, gen)
  }

  lemma RefusalOrFailure(w: World, a: Action)
    ensures !(RefusesUrl(w, a) && FailsPublish(w, a))
  {
  }

  lemma RefusedOneStepLonger(ws: seq<World>, acts: seq<Action>, k: nat, i: nat, gen: nat)
    requires 0 < i <= |acts| <= |ws| && k < i
    ensures RefusedForGood(ws, acts, k, i, gen) <==>
              if k == i - 1 then RefusesUrl(ws[k], acts[k]) && ws[k].inner.generation == gen
              else RefusedForGood(ws, acts, k, i - 1, gen)
                   && !(FailsPublish(ws[i - 1], acts[i - 1]) && ws[i - 1].inner.generation == gen)
  {
    hide RefusesUrl, FailsPublish;
  }

  lemma {:induction false} DeadEndsAreRefusals(ws: seq<World>, acts: seq<Action>, i: nat, gen: nat)
    requires IsRun(ws, acts) && i <= |acts|
    ensures gen in ws[i].history.deadEnds <==> exists k: nat :: RefusedForGood(ws, acts, k, i, gen)
  {
    hide Step, Consistent, Progressing, StartsSend, SameWork, CanStep, RefusesUrl, FailsPublish, FailedSince;
    if i > 0 {
      DeadEndsAreRefusals(ws, acts, i - 1, gen);
      Following(ws, acts, i - 1);
      RefusalOrFailure(ws[i - 1], acts[i - 1]);
      forall k: nat | k < i
        ensures RefusedForGood(ws, acts, k, i, gen) <==>
                  if k == i - 1 then RefusesUrl(ws[k], acts[k]) && ws[k].inner.generation == gen
                  else RefusedForGood(ws, acts, k, i - 1, gen)
                       && !(FailsPublish(ws[i - 1], acts[i - 1]) && ws[i - 1].inner.generation == gen)
      {
        RefusedOneStepLonger(ws, acts, k, i, gen);
      }
      assert RefusesUrl(ws[i - 1], acts[i - 1]) && ws[i - 1].inner.generation == gen ==>
          RefusedForGood(ws, acts, i - 1, i, gen);
    }
  }

  // Never stuck: whatever state asks for attention has the current-generation work that will give it,
  // unless this very generation's stored URL was refused and no publish of it has failed since.
  lemma NoStall(ws: seq<World>, acts: seq<Action>, i: nat)
    requires IsRun(ws, acts) && i <= |acts|
    ensures ws[i].inner.state == Connecting ==> NegotiationInFlight(ws[i])
    ensures ws[i].inner.state == ServerFeatureUnavailable ==> RetryArmed(ws[i])
    ensures Publishing(ws[i].inner.state) ==>
              || RetryArmed(ws[i]) || HeartbeatArmed(ws[i])
              || exists k: nat :: RefusedForGood(ws, acts, k, i, ws[i].inner.generation)
    ensures ws[i].inner.refreshLoopRunning ==> exists id <- ws[i].tasks :: ws[i].tasks[id].RefreshLoop?
  {
    hide Step, CanStep, TaskOk, RefusedForGood;
    Reachable(ws, acts, i);
    DeadEndsAreRefusals(ws, acts, i, ws[i].inner.generation);
  }

  // A negotiation whose token arrives, or does not, leaves the coordinator publishing with no timer armed
  // exactly when its stored URL is refused; then no work of the generation is left either.
  lemma StallsExactly(w: World, id: TaskId, present: bool)
    requires Inv(w) && id in w.tasks && w.tasks[id].Configure? && IsCurrent(w, w.tasks[id])
              && w.tasks[id].at.AwaitingToken?
    ensures var next := Step(w, Run(id, Token(present)));
            && (Publishing(next.inner.state) && !RetryArmed(next) && !HeartbeatArmed(next) <==>
                 RefusesUrl(w, Run(id, Token(present))))
            && (RefusesUrl(w, Run(id, Token(present))) ==> next.inner.state == Degraded && Calm(next))
  {
    var next := Step(w, Run(id, Token(present)));
    if RefusesUrl(w, Run(id, Token(present))) {
      forall other <- next.tasks ensures !IsCurrent(next, next.tasks[other]) {
        assert TaskOk(w, other, w.tasks[other]) && TaskOk(w, id, w.tasks[id]);
      }
    } else {
      assert TaskOk(w, id, w.tasks[id]);
    }
  }

  // ---- a refused generation over whole runs -------------------------------------------------------------

  // Publishing on what there is, with nothing of the generation alive but refresh loops.
  ghost predicate OnlyLoops(w: World) {
    && Publishing(w.inner.state)
    && forall id <- w.tasks :: IsCurrent(w, w.tasks[id]) ==> w.tasks[id].RefreshLoop?
  }

  ghost predicate DeadEndsHaveOnlyLoops(w: World) {
    w.inner.generation in w.history.deadEnds ==> OnlyLoops(w)
  }

  lemma RefusalLeavesOnlyLoops(w: World, a: Action)
    requires Inv(w) && RefusesUrl(w, a)
    ensures OnlyLoops(Step(w, a))
  {
    var next := Step(w, a);
    forall other <- next.tasks ensures !IsCurrent(next, next.tasks[other]) {
      assert TaskOk(w, other, w.tasks[other]) && TaskOk(w, a.id, w.tasks[a.id]);
    }
  }

  // A step that stays in the generation and is not its failing publish.
  ghost predicate GoesOn(w: World, a: Action) {
    CanStep(w, a) && !FailsPublish(w, a) && OnlyLoops(w) && Step(w, a).inner.generation == w.inner.generation
  }

  lemma EntryKeepsOnlyLoops(w: World, a: Action)
    requires GoesOn(w, a) && !RunsTask(w, a)
    ensures OnlyLoops(Step(w, a))
  {
  }

  // A loop moves or leaves, and touches no other task.
  predicate MovesLoop(w: World, id: TaskId, next: World) {
    || next.tasks == w.tasks - {id}
    || (id in next.tasks && next.tasks[id].RefreshLoop? && next.tasks == w.tasks[id := next.tasks[id]])
  }

  lemma StartBumpsOrStays(w: World)
    ensures StartLocked(w) == w || StartLocked(w).inner.generation > w.inner.generation
  {
    hide Abort;
  }

  lemma PublishMovesLoop(w: World, a: Action)
    requires RunsTask(w, a) && !FailsPublish(w, a) && w.tasks[a.id].RefreshLoop? && w.tasks[a.id].point.Sending?
    requires Step(w, a).inner.generation == w.inner.generation && Publishing(w.inner.state)
    ensures MovesLoop(w, a.id, Step(w, a)) && Publishing(Step(w, a).inner.state)
  {
    hide StartLocked, ScheduleRetry;
    StartBumpsOrStays(LeaveLoop(Discard(w), a.id));
  }

  lemma LoopMovesLoop(w: World, a: Action)
    requires RunsTask(w, a) && w.tasks[a.id].RefreshLoop? && !w.tasks[a.id].point.Sending?
    ensures MovesLoop(w, a.id, Step(w, a)) && Step(w, a).inner.state == w.inner.state
  {
  }

  lemma LoopKeepsOnlyLoops(w: World, a: Action)
    requires GoesOn(w, a) && RunsTask(w, a) && w.tasks[a.id].RefreshLoop?
    ensures OnlyLoops(Step(w, a))
  {
    hide Step, FailsPublish;
    if w.tasks[a.id].point.Sending? {
      PublishMovesLoop(w, a);
    } else {
      LoopMovesLoop(w, a);
    }
  }

  lemma OthersKeepOnlyLoops(w: World, a: Action)
    requires GoesOn(w, a) && RunsTask(w, a) && !w.tasks[a.id].RefreshLoop?
    ensures OnlyLoops(Step(w, a))
  {
  }

  lemma GoingOnKeepsOnlyLoops(w: World, a: Action)
    requires GoesOn(w, a)
    ensures OnlyLoops(Step(w, a))
  {
    hide GoesOn, OnlyLoops, Step;
    if !RunsTask(w, a) {
      EntryKeepsOnlyLoops(w, a);
    } else if !w.tasks[a.id].RefreshLoop? {
      OthersKeepOnlyLoops(w, a);
    } else {
      LoopKeepsOnlyLoops(w, a);
    }
  }

  lemma {:induction false} DeadEndsStay(ws: seq<World>, acts: seq<Action>, i: nat)
    requires IsRun(ws, acts) && i <= |acts|
    ensures DeadEndsHaveOnlyLoops(ws[i])
  {
    hide Step, OnlyLoops, RefusesUrl, FailsPublish, StartsSend, Progressing, TasksOk, TasksFollow, CanStep;
    if i > 0 {
      DeadEndsStay(ws, acts, i - 1);
      Following(ws, acts, i - 1);
      assert Linked(ws, acts, i - 1);
      var w, a := ws[i - 1], acts[i - 1];
      if ws[i].inner.generation in ws[i].history.deadEnds {
        if RefusesUrl(w, a) {
          RefusalLeavesOnlyLoops(w, a);
        } else {
          GoingOnKeepsOnlyLoops(w, a);
        }
      }
    }
  }

  // The one way to be publishing with no timer to go on by, in any reachable state: some step of this
  // very generation refused the stored URL, and no publish of the generation has failed since. Then
  // nothing of the generation is left but refresh loops.
  lemma StrandedExactly(ws: seq<World>, acts: seq<Action>, i: nat)
    requires IsRun(ws, acts) && i <= |acts|
    ensures Publishing(ws[i].inner.state) && !RetryArmed(ws[i]) && !HeartbeatArmed(ws[i]) <==>
              exists k: nat :: RefusedForGood(ws, acts, k, i, ws[i].inner.generation)
    ensures (exists k: nat :: RefusedForGood(ws, acts, k, i, ws[i].inner.generation)) ==> OnlyLoops(ws[i])
  {
    hide RefusedForGood, Step, TasksOk, FieldsOk, CanStep;
    Reachable(ws, acts, i);
    DeadEndsAreRefusals(ws, acts, i, ws[i].inner.generation);
    DeadEndsStay(ws, acts, i);
  }
}
