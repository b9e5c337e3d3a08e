/** What holds of every run of the coordinator, in terms of the steps taken. */
module CoordinatorTheorems {
  import opened Options
  import opened Negotiation
  import opened CoordinatorModel
  import opened CoordinatorInvariants
  import opened CoordinatorRuns

  ghost predicate IsRun(ws: seq<World>, acts: seq<Action>) {
    && |ws| == |acts| + 1
    && (exists connection, now :: ws[0] == Initial(connection, now))
    && forall i :: 0 <= i < |acts| ==> Linked(ws, acts, i)
  }

  ghost predicate Linked(ws: seq<World>, acts: seq<Action>, i: nat)
    requires i < |acts| && |ws| == |acts| + 1
  {
    CanStep(ws[i], acts[i]) && ws[i + 1] == Step(ws[i], acts[i])
  }

  lemma {:induction false} Reachable(ws: seq<World>, acts: seq<Action>, i: nat)
    requires IsRun(ws, acts) && i <= |acts|
    ensures Inv(ws[i])
  {
    if i > 0 {
      Reachable(ws, acts, i - 1);
      assert Linked(ws, acts, i - 1);
      StepKept(ws[i - 1], acts[i - 1]);
    }
  }

  // ---- single flight ------------------------------------------------------------------------------

  ghost function LiveLoops(w: World): set<TaskId> {
    set id <- w.tasks | w.tasks[id].RefreshLoop?
  }

  lemma SingleFlight(ws: seq<World>, acts: seq<Action>, i: nat)
    requires IsRun(ws, acts) && i <= |acts|
    ensures |LiveLoops(ws[i])| == if ws[i].inner.refreshLoopRunning then 1 else 0
  {
    Reachable(ws, acts, i);
    var w := ws[i];
    forall id <- LiveLoops(w) ensures w.inner.refreshLoopRunning && id == w.history.loop {
      assert TaskOk(w, id, w.tasks[id]);
    }
    assert LiveLoops(w) == if w.inner.refreshLoopRunning then {w.history.loop} else {};
  }

  // ---- the steps the statements speak of --------------------------------------------------------------

  // Step `a` passes a refresh loop's send-start check.
  predicate StartsSend(w: World, a: Action) {
    && a.Run? && CanStep(w, a) && a.input.Continue?
    && w.tasks[a.id].RefreshLoop? && w.tasks[a.id].point.Throttling?
    && w.tasks[a.id].gen == w.inner.generation && w.inner.client.Some?
  }

  // Step `a` passes the check after the capture and calls replace_presence.
  predicate Publishes(w: World, a: Action) {
    && a.Run? && CanStep(w, a) && a.input.Continue?
    && w.tasks[a.id].RefreshLoop? && w.tasks[a.id].point.Captured?
    && w.tasks[a.id].gen == w.inner.generation
  }

  // Step `a` calls replace_presence with media session `session`.
  predicate HandsOver(w: World, a: Action, session: nat) {
    Publishes(w, a) && w.tasks[a.id].point.session == Some(session)
  }

  predicate IsEnablingWrite(a: Action) {
    a.WriteConnection? && Enabled(a.next)
  }

  // Step `a` is the token's arrival for the negotiation under way, with a stored URL that does not parse.
  predicate RefusesUrl(w: World, a: Action) {
    && a.Run? && a.input == Token(true) && CanStep(w, a)
    && w.tasks[a.id].Configure? && w.tasks[a.id].gen == w.inner.generation
    && w.tasks[a.id].at.AwaitingToken? && !w.tasks[a.id].at.connection.urlParses
  }

  // Step `a` hears that a publish of the current generation failed.
  predicate FailsPublish(w: World, a: Action) {
    && a.Run? && a.input.PublishFailed? && CanStep(w, a)
    && w.tasks[a.id].RefreshLoop? && w.tasks[a.id].gen == w.inner.generation
  }

  // ---- what one step can change at all ------------------------------------------------------------

  ghost predicate SameWork(t: Task, next: Task) {
    && Generation(next) == Generation(t)
    && DisableWrite(next) == DisableWrite(t)
    && (t.Shutdown? ==> next.Shutdown? && next.gen == t.gen)
  }

  // No id is reused, and a task ends only with its disable on record.
  ghost predicate TasksFollow(w: World, next: World) {
    && (forall id <- next.tasks :: id < w.nextTask ==> id in w.tasks && SameWork(w.tasks[id], next.tasks[id]))
    && (forall id <- w.tasks :: id !in next.tasks && DisableWrite(w.tasks[id]).Some? ==>
          DisableWrite(w.tasks[id]).value in next.history.disablesReturned)
  }

  ghost predicate Follows(w: World, a: Action, next: World) {
    && w.nextTask <= next.nextTask
    && w.inner.generation <= next.inner.generation
    && w.history.handed <= next.history.handed
    && w.history.disablesReturned <= next.history.disablesReturned
    && next.history.enablingWrites == w.history.enablingWrites + (if IsEnablingWrite(a) then 1 else 0)
    && TasksFollow(w, next)
    && next.inner.lastSendStartedAt == (if StartsSend(w, a) then w.now else w.inner.lastSendStartedAt)
    && next.history.sends == (if StartsSend(w, a) then w.history.sends + [w.now] else w.history.sends)
    && next.history.deadEnds ==
         (if RefusesUrl(w, a) then w.history.deadEnds + {w.inner.generation}
          else if FailsPublish(w, a) then w.history.deadEnds - {w.inner.generation}
          else w.history.deadEnds)
  }

  ghost predicate WellNumbered(w: World) {
    forall id <- w.tasks :: id < w.nextTask && (id in w.aborted ==> IsTimer(w.tasks[id]))
  }

  predicate RunsTask(w: World, a: Action) {
    a.Run? && CanStep(w, a) && !a.input.Cancelled?
  }

  lemma ConfigureKeepsTasks(w: World, a: Action)
    requires WellNumbered(w) && RunsTask(w, a) && w.tasks[a.id].Configure? && !w.tasks[a.id].at.AwaitingCapabilities?
    ensures TasksFollow(w, Step(w, a))
  {
  }

  lemma ConfigureFollows(w: World, a: Action)
    requires WellNumbered(w) && RunsTask(w, a) && w.tasks[a.id].Configure? && !w.tasks[a.id].at.AwaitingCapabilities?
    ensures Follows(w, a, Step(w, a))
  {
    hide TasksFollow;
    ConfigureKeepsTasks(w, a);
  }

  lemma NegotiationKeepsTasks(w: World, a: Action)
    requires WellNumbered(w) && RunsTask(w, a) && w.tasks[a.id].Configure? && w.tasks[a.id].at.AwaitingCapabilities?
    requires !GoesLive(a)
    ensures TasksFollow(w, Step(w, a))
  {
  }

  lemma NegotiationKeepsHistory(w: World, a: Action)
    requires RunsTask(w, a) && w.tasks[a.id].Configure? && w.tasks[a.id].at.AwaitingCapabilities? && !GoesLive(a)
    ensures var next := Step(w, a);
            && next.history == w.history && w.nextTask <= next.nextTask
            && next.inner.generation == w.inner.generation && next.inner.lastSendStartedAt == w.inner.lastSendStartedAt
  {
  }

  lemma NegotiationFollows(w: World, a: Action)
    requires WellNumbered(w) && RunsTask(w, a) && w.tasks[a.id].Configure? && w.tasks[a.id].at.AwaitingCapabilities?
    requires !GoesLive(a)
    ensures Follows(w, a, Step(w, a))
  {
    hide TasksFollow, WellNumbered, Step;
    NegotiationKeepsTasks(w, a);
    NegotiationKeepsHistory(w, a);
  }

  predicate GoesLive(a: Action) {
    a.Run? && a.input.Negotiated? && a.input.negotiation.Available?
  }

  lemma GoLiveKeepsTasks(w: World, a: Action)
    requires WellNumbered(w) && RunsTask(w, a) && w.tasks[a.id].Configure? && w.tasks[a.id].at.AwaitingCapabilities?
    requires GoesLive(a)
    ensures TasksFollow(w, Step(w, a))
  {
    if w.tasks[a.id].gen == w.inner.generation {
      var done, c := Finish(w, a.id), a.input.negotiation.configuration;
      var adopted := AdoptConfiguration(done, w.tasks[a.id].at.connection, c);
      AdoptTouchesNoTask(done, w.tasks[a.id].at.connection, c);
      var live := GoLive(done, w.inner.generation, w.tasks[a.id].at.connection, c);
      assert live.tasks.Keys <= adopted.tasks.Keys + {w.nextTask, w.nextTask + 1};
    }
  }

  lemma GoLiveFollows(w: World, a: Action)
    requires WellNumbered(w) && RunsTask(w, a) && w.tasks[a.id].Configure? && w.tasks[a.id].at.AwaitingCapabilities?
    requires GoesLive(a)
    ensures Follows(w, a, Step(w, a))
  {
    hide TasksFollow, WellNumbered;
    GoLiveKeepsTasks(w, a);
    if w.tasks[a.id].gen == w.inner.generation {
      AdoptTouchesNoTask(Finish(w, a.id), w.tasks[a.id].at.connection, a.input.negotiation.configuration);
    }
  }

  lemma AdoptTouchesNoTask(w: World, connection: Connection, c: Configuration)
    requires c.requestsPerMinute > 0
    ensures var adopted := AdoptConfiguration(w, connection, c);
            && adopted == w.(inner := adopted.inner, nextObject := adopted.nextObject,
                             history := w.history.(highestRate := adopted.history.highestRate))
            && adopted.inner.generation == w.inner.generation
            && adopted.inner.lastSendStartedAt == w.inner.lastSendStartedAt
            && adopted.inner.refreshLoopRunning == w.inner.refreshLoopRunning
  {
  }

  lemma LoopKeepsTasks(w: World, a: Action)
    requires WellNumbered(w) && RunsTask(w, a) && w.tasks[a.id].RefreshLoop? && !w.tasks[a.id].point.Sending?
    ensures TasksFollow(w, Step(w, a))
  {
  }

  lemma LoopFollows(w: World, a: Action)
    requires WellNumbered(w) && RunsTask(w, a) && w.tasks[a.id].RefreshLoop? && !w.tasks[a.id].point.Sending?
    ensures Follows(w, a, Step(w, a))
  {
    hide TasksFollow;
    LoopKeepsTasks(w, a);
  }

  lemma PublishKeepsTasks(w: World, a: Action)
    requires WellNumbered(w) && RunsTask(w, a) && w.tasks[a.id].RefreshLoop? && w.tasks[a.id].point.Sending?
    ensures TasksFollow(w, Step(w, a))
  {
  }

  lemma PublishFollows(w: World, a: Action)
    requires WellNumbered(w) && RunsTask(w, a) && w.tasks[a.id].RefreshLoop? && w.tasks[a.id].point.Sending?
    ensures Follows(w, a, Step(w, a))
  {
    hide TasksFollow;
    PublishKeepsTasks(w, a);
  }

  lemma TimerKeepsTasks(w: World, a: Action)
    requires WellNumbered(w) && RunsTask(w, a) && IsTimer(w.tasks[a.id])
    ensures TasksFollow(w, Step(w, a))
  {
  }

  lemma TimerFollows(w: World, a: Action)
    requires WellNumbered(w) && RunsTask(w, a) && IsTimer(w.tasks[a.id])
    ensures Follows(w, a, Step(w, a))
  {
    hide TasksFollow;
    TimerKeepsTasks(w, a);
  }

  lemma DisablingKeepsTasks(w: World, a: Action)
    requires WellNumbered(w) && RunsTask(w, a) && w.tasks[a.id].Disabling?
    ensures TasksFollow(w, Step(w, a))
  {
  }

  lemma ShutdownJoinKeepsTasks(w: World, a: Action)
    requires WellNumbered(w) && RunsTask(w, a) && w.tasks[a.id].Shutdown? && w.tasks[a.id].phase.JoiningSleepClear?
    ensures TasksFollow(w, Step(w, a))
  {
  }

  lemma ShutdownKeepsTasks(w: World, a: Action)
    requires WellNumbered(w) && RunsTask(w, a) && w.tasks[a.id].Shutdown?
    ensures TasksFollow(w, Step(w, a))
  {
    if w.tasks[a.id].phase.JoiningSleepClear? {
      hide TasksFollow, WellNumbered, Step;
      ShutdownJoinKeepsTasks(w, a);
    }
  }

  lemma ShutdownFollows(w: World, a: Action)
    requires WellNumbered(w) && RunsTask(w, a) && (w.tasks[a.id].Shutdown? || w.tasks[a.id].Disabling?)
    ensures Follows(w, a, Step(w, a))
  {
    hide TasksFollow, WellNumbered;
    if w.tasks[a.id].Shutdown? {
      ShutdownKeepsTasks(w, a);
    } else {
      DisablingKeepsTasks(w, a);
    }
  }

  lemma ClearAndWakeFollow(w: World, a: Action)
    requires WellNumbered(w) && RunsTask(w, a)
    requires w.tasks[a.id].Clear? || w.tasks[a.id].BoundedJoin? || w.tasks[a.id].Wake?
    ensures Follows(w, a, Step(w, a))
  {
  }

  lemma EntryKeepsTasks(w: World, a: Action)
    requires WellNumbered(w) && CanStep(w, a) && !RunsTask(w, a) && !a.SleepOrLock? && !a.BeginShutdown?
    ensures TasksFollow(w, Step(w, a))
  {
  }

  lemma EntryFollows(w: World, a: Action)
    requires WellNumbered(w) && CanStep(w, a) && !RunsTask(w, a) && !a.SleepOrLock? && !a.BeginShutdown?
    ensures Follows(w, a, Step(w, a))
  {
    hide TasksFollow;
    EntryKeepsTasks(w, a);
  }

  lemma SleepKeepsTasks(w: World)
    requires WellNumbered(w)
    ensures TasksFollow(w, Sleep(w))
  {
  }

  lemma StopKeepsTasks(w: World, a: Action)
    requires WellNumbered(w) && (a.SleepOrLock? || a.BeginShutdown?)
    ensures TasksFollow(w, Step(w, a))
  {
    if a.SleepOrLock? {
      hide TasksFollow, WellNumbered, Sleep;
      SleepKeepsTasks(w);
    }
  }

  lemma StopFollows(w: World, a: Action)
    requires WellNumbered(w) && (a.SleepOrLock? || a.BeginShutdown?)
    ensures Follows(w, a, Step(w, a))
  {
    hide TasksFollow;
    StopKeepsTasks(w, a);
  }

  lemma Following(ws: seq<World>, acts: seq<Action>, i: nat)
    requires IsRun(ws, acts) && i < |acts|
    ensures Inv(ws[i]) && CanStep(ws[i], acts[i]) && Follows(ws[i], acts[i], ws[i + 1])
  {
    Reachable(ws, acts, i);
    assert Linked(ws, acts, i);
    var w, a := ws[i], acts[i];
    assert WellNumbered(w) by {
      forall id <- w.tasks ensures id < w.nextTask && (id in w.aborted ==> IsTimer(w.tasks[id])) {
        assert TaskOk(w, id, w.tasks[id]);
      }
    }
    if a.SleepOrLock? || a.BeginShutdown? {
      StopFollows(w, a);
    } else if !RunsTask(w, a) {
      EntryFollows(w, a);
    } else {
      match w.tasks[a.id]
      case Configure(_, AwaitingCapabilities(_)) =>
        if GoesLive(a) {
          GoLiveFollows(w, a);
        } else {
          NegotiationFollows(w, a);
        }
      case Configure(_, _) => ConfigureFollows(w, a);
      case RefreshLoop(_, Sending(_)) => PublishFollows(w, a);
      case RefreshLoop(_, _) => LoopFollows(w, a);
      case Retry(_) => TimerFollows(w, a);
      case Heartbeat(_) => TimerFollows(w, a);
      case Disabling(_) => ShutdownFollows(w, a);
      case Shutdown(_, _, _, _, _) => ShutdownFollows(w, a);
      case _ => ClearAndWakeFollow(w, a);
    }
  }

  // ---- session ids never cross generations ------------------------------------------------------------

  lemma {:induction false} HandedGrows(ws: seq<World>, acts: seq<Action>, i: nat, j: nat)
    requires IsRun(ws, acts) && i <= j <= |acts|
    ensures ws[i].history.handed <= ws[j].history.handed
  {
    hide Step, Consistent, Progressing, StartsSend, SameWork, RefusesUrl, CanStep;
    if i < j {
      HandedGrows(ws, acts, i, j - 1);
      Following(ws, acts, j - 1);
    }
  }

  lemma HandingIsRecorded(ws: seq<World>, acts: seq<Action>, i: nat, session: nat)
    requires IsRun(ws, acts) && i < |acts| && HandsOver(ws[i], acts[i], session)
    ensures (ws[i].inner.generation, session) in ws[i + 1].history.handed
  {
    assert Linked(ws, acts, i);
  }

  lemma SessionIdsNeverCrossGenerations(ws: seq<World>, acts: seq<Action>, i: nat, j: nat, session: nat)
    requires IsRun(ws, acts) && i < |acts| && j < |acts|
    requires HandsOver(ws[i], acts[i], session) && HandsOver(ws[j], acts[j], session)
    ensures ws[i].inner.generation == ws[j].inner.generation
  {
    Reachable(ws, acts, |acts|);
    HandedGrows(ws, acts, i + 1, |acts|);
    HandedGrows(ws, acts, j + 1, |acts|);
    HandingIsRecorded(ws, acts, i, session);
    HandingIsRecorded(ws, acts, j, session);
    assert OnlyIn(ws[|acts|], session, ws[i].inner.generation);
  }

  // ---- the rate bound ---------------------------------------------------------------------------------

  // Send starts among the first k steps whose stamp lies in [from, from + 60 000).
  function SendsInMinute(ws: seq<World>, acts: seq<Action>, from: int, k: nat): nat
    requires k <= |acts| <= |ws|
  {
    if k == 0 then 0
    else
      SendsInMinute(ws, acts, from, k - 1) +
      (if StartsSend(ws[k - 1], acts[k - 1]) && from <= ws[k - 1].now < from + 60_000 then 1 else 0)
  }

  // The last stamp counted by SendsInMinute.
  function LastInMinute(ws: seq<World>, acts: seq<Action>, from: int, k: nat): int
    requires k <= |acts| <= |ws|
  {
    if k == 0 then from
    else if StartsSend(ws[k - 1], acts[k - 1]) && from <= ws[k - 1].now < from + 60_000 then ws[k - 1].now
    else LastInMinute(ws, acts, from, k - 1)
  }

  predicate NegotiatesAtMost(a: Action, rate: nat) {
    a.Run? && a.input.Negotiated? && a.input.negotiation.Available? ==>
      a.input.negotiation.configuration.requestsPerMinute <= rate
  }

  lemma NegotiationAtRate(w: World, a: Action, rate: nat)
    requires RunsTask(w, a) && w.tasks[a.id].Configure? && NegotiatesAtMost(a, rate) && w.history.highestRate <= rate
    ensures Step(w, a).history.highestRate <= rate
  {
    hide Abort;
  }

  lemma EntryAtRate(w: World, a: Action)
    requires CanStep(w, a) && !RunsTask(w, a)
    ensures Step(w, a).history.highestRate == w.history.highestRate
  {
    hide Abort;
  }

  lemma OtherTasksAtRate(w: World, a: Action)
    requires RunsTask(w, a) && !w.tasks[a.id].Configure?
    ensures Step(w, a).history.highestRate == w.history.highestRate
  {
    hide Abort;
  }

  lemma RateStaysBelow(w: World, a: Action, rate: nat)
    requires CanStep(w, a) && NegotiatesAtMost(a, rate) && w.history.highestRate <= rate
    ensures Step(w, a).history.highestRate <= rate
  {
    hide Step, NegotiatesAtMost;
    if !RunsTask(w, a) {
      EntryAtRate(w, a);
    } else if w.tasks[a.id].Configure? {
      NegotiationAtRate(w, a, rate);
    } else {
      OtherTasksAtRate(w, a);
    }
  }

  lemma {:induction false} HighestRateBelow(ws: seq<World>, acts: seq<Action>, rate: nat, i: nat)
    requires IsRun(ws, acts) && i <= |acts|
    requires forall k :: 0 <= k < |acts| ==> NegotiatesAtMost(acts[k], rate)
    ensures ws[i].history.highestRate <= rate
  {
    if i > 0 {
      HighestRateBelow(ws, acts, rate, i - 1);
      assert Linked(ws, acts, i - 1);
      RateStaysBelow(ws[i - 1], acts[i - 1], rate);
    }
  }

  // Only a send start moves the stamp, and it comes an interval after the last one.
  lemma StampsAreSpaced(ws: seq<World>, acts: seq<Action>, rate: nat, i: nat)
    requires IsRun(ws, acts) && i < |acts|
    requires forall k :: 0 <= k < |acts| ==> NegotiatesAtMost(acts[k], rate)
    ensures var before, after := ws[i].inner.lastSendStartedAt, ws[i + 1].inner.lastSendStartedAt;
            && (StartsSend(ws[i], acts[i]) ==>
                  && after == ws[i].now && ws[i + 1].history.sends != []
                  && (ws[i].history.sends != [] ==> before + Interval(rate) <= after))
            && (!StartsSend(ws[i], acts[i]) ==> after == before && ws[i + 1].history.sends == ws[i].history.sends)
  {
    Following(ws, acts, i);
    if StartsSend(ws[i], acts[i]) {
      assert TaskOk(ws[i], acts[i].id, ws[i].tasks[acts[i].id]);
      HighestRateBelow(ws, acts, rate, i);
      FewerRequestsFurtherApart(ws[i].history.highestRate, rate);
    }
  }

  lemma OneIntervalLater(from: int, n: int, interval: int, last: int, next: int)
    requires from + (n - 1) * interval <= last && last + interval <= next
    ensures from + n * interval <= next
  {
    assert n * interval == (n - 1) * interval + interval;
  }

  lemma LengthOfRun(ws: seq<World>, acts: seq<Action>)
    requires IsRun(ws, acts)
    ensures |ws| == |acts| + 1
  {
  }

  lemma {:induction false} MinuteFillsSlowly(ws: seq<World>, acts: seq<Action>, rate: nat, from: int, k: nat)
    requires IsRun(ws, acts) && k <= |acts| && rate > 0
    requires forall i :: 0 <= i < |acts| ==> NegotiatesAtMost(acts[i], rate)
    ensures var n, last := SendsInMinute(ws, acts, from, k), LastInMinute(ws, acts, from, k);
            n > 0 ==>
              && ws[k].history.sends != []
              && from + (n - 1) * Interval(rate) <= last < from + 60_000
              && last <= ws[k].inner.lastSendStartedAt
  {
    hide IsRun, Linked, StartsSend, NegotiatesAtMost, Interval;
    if k > 0 {
      MinuteFillsSlowly(ws, acts, rate, from, k - 1);
      StampsAreSpaced(ws, acts, rate, k - 1);
      LengthOfRun(ws, acts);
      var n, last := SendsInMinute(ws, acts, from, k - 1), LastInMinute(ws, acts, from, k - 1);
      if SendsInMinute(ws, acts, from, k) > n {
        if n > 0 {
          OneIntervalLater(from, n, Interval(rate), last, ws[k - 1].now);
        }
      }
    }
  }

  lemma IntervalsFillMinute(n: nat, rate: nat)
    requires rate > 0 && n > rate
    ensures (n - 1) * Interval(rate) >= 60_000
  {
    assert rate * Interval(rate) >= 60_000;
    assert (n - 1) * Interval(rate) >= rate * Interval(rate);
  }

  // In any half-open minute of any run, across generations, at most as many sends start as the
  // greatest negotiated requests-per-minute allows.
  lemma SendRateIsBounded(ws: seq<World>, acts: seq<Action>, rate: nat, from: int)
    requires IsRun(ws, acts) && rate > 0
    requires forall i :: 0 <= i < |acts| ==> NegotiatesAtMost(acts[i], rate)
    ensures SendsInMinute(ws, acts, from, |acts|) <= rate
  {
    MinuteFillsSlowly(ws, acts, rate, from, |acts|);
    if SendsInMinute(ws, acts, from, |acts|) > rate {
      IntervalsFillMinute(SendsInMinute(ws, acts, from, |acts|), rate);
    }
  }

  // ---- persist-first disable ------------------------------------------------------------------------------

  lemma {:induction false} DisableUntilReturn(ws: seq<World>, acts: seq<Action>, i: nat, k: nat)
    requires IsRun(ws, acts) && i < k <= |acts| && acts[i] == BeginDisable
    requires forall m :: i < m < k ==> !IsEnablingWrite(acts[m])
    ensures ws[k].history.enablingWrites == ws[i].history.enablingWrites
    ensures var d := ws[i].nextTask;
            || (d in ws[k].tasks && DisableWrite(ws[k].tasks[d]) == Some(ws[i].history.enablingWrites))
            || ws[i].history.enablingWrites in ws[k].history.disablesReturned
  {
    hide FieldsOk, Progressing, StartsSend, RefusesUrl, OnlyLoop, HoldsOwnSession, WaitsLongEnough, FrozenBy,
         FitsState, WroteDisabled, Harmless, DisabledSince;
    Following(ws, acts, k - 1);
    if k == i + 1 {
      assert Linked(ws, acts, i);
    } else {
      DisableUntilReturn(ws, acts, i, k - 1);
      var d := ws[i].nextTask;
      if d in ws[k - 1].tasks {
        assert TaskOk(ws[k - 1], d, ws[k - 1].tasks[d]);
      }
    }
  }

  lemma NothingSentWhileOff(w: World, a: Action)
    requires Inv(w) && DisabledSince(w) && CanStep(w, a)
    ensures !StartsSend(w, a) && !Publishes(w, a)
  {
    if a.Run? {
      assert TaskOk(w, a.id, w.tasks[a.id]);
    }
  }

  // Once the disable begun at step i has returned (its task is gone at j), no later step starts a
  // send or publishes until some write after the disable's own write enables Live Desk.
  lemma DisableStopsPublishing(ws: seq<World>, acts: seq<Action>, i: nat, j: nat, k: nat)
    requires IsRun(ws, acts) && i < j <= k < |acts| && acts[i] == BeginDisable
    requires ws[i].nextTask !in ws[j].tasks
    requires forall m :: i < m < k ==> !IsEnablingWrite(acts[m])
    ensures !StartsSend(ws[k], acts[k]) && !Publishes(ws[k], acts[k])
  {
    Following(ws, acts, k);
    DisableUntilReturn(ws, acts, i, j);
    DisableUntilReturn(ws, acts, i, k);
    ReturnedStays(ws, acts, j, k);
    Reachable(ws, acts, k);
    NothingSentWhileOff(ws[k], acts[k]);
  }

  lemma {:induction false} NothingEnabled(ws: seq<World>, acts: seq<Action>, k: nat)
    requires IsRun(ws, acts) && k <= |acts| && forall m :: 0 <= m < k ==> !IsEnablingWrite(acts[m])
    ensures ws[k].history.enablingWrites == 0
    ensures ws[0].history.disablesReturned <= ws[k].history.disablesReturned
  {
    hide Step, Consistent, Progressing, StartsSend, SameWork, RefusesUrl, CanStep;
    if k > 0 {
      NothingEnabled(ws, acts, k - 1);
      Following(ws, acts, k - 1);
    }
  }

  // A process that starts on a disabled connection, or on none, starts no send and publishes nothing
  // until a write enables Live Desk, however often it is asked to start.
  lemma DisabledStartStaysOff(ws: seq<World>, acts: seq<Action>, k: nat)
    requires IsRun(ws, acts) && k < |acts| && !Enabled(ws[0].connection)
    requires forall m :: 0 <= m < k ==> !IsEnablingWrite(acts[m])
    ensures !StartsSend(ws[k], acts[k]) && !Publishes(ws[k], acts[k])
  {
    NothingEnabled(ws, acts, k);
    Reachable(ws, acts, k);
    assert Linked(ws, acts, k);
    assert DisabledSince(ws[k]) by {
      hide Inv, Linked;
    }
    NothingSentWhileOff(ws[k], acts[k]);
  }

  lemma {:induction false} ReturnedStays(ws: seq<World>, acts: seq<Action>, i: nat, j: nat)
    requires IsRun(ws, acts) && i <= j <= |acts|
    ensures ws[i].history.disablesReturned <= ws[j].history.disablesReturned
    ensures ws[i].inner.generation <= ws[j].inner.generation
  {
    hide Step, Consistent, Progressing, StartsSend, SameWork, RefusesUrl, CanStep;
    if i < j {
      ReturnedStays(ws, acts, i, j - 1);
      Following(ws, acts, j - 1);
    }
  }

  // ---- stale work -------------------------------------------------------------------------------------------

  // Only the task itself moves or ends, a stale capture may use the media tracker, and a stale loop
  // may release its flag. A stale loop is gone after its next step, or the one after when it is in
  // the middle of a capture.
  ghost predicate Inert(w: World, next: World, id: TaskId)
    requires id in w.tasks
  {
    var t := w.tasks[id];
    && next.inner == w.inner.(refreshLoopRunning := next.inner.refreshLoopRunning)
    && (next.inner.refreshLoopRunning != w.inner.refreshLoopRunning ==>
         t.RefreshLoop? && !next.inner.refreshLoopRunning)
    && (next.tracker != w.tracker ==> t.RefreshLoop? && t.point.Capturing?)
    && next.tasks - {id} == w.tasks - {id}
    && (id in next.tasks ==> Generation(next.tasks[id]) == Generation(t) && (t.RefreshLoop? ==> t.point.Capturing?))
    && next == w.(inner := next.inner, tasks := next.tasks, tracker := next.tracker)
  }

  lemma StaleCaptureIsInert(w: World, id: TaskId, input: Input)
    requires CanStep(w, Run(id, input)) && w.tasks[id].RefreshLoop? && !IsCurrent(w, w.tasks[id])
    requires w.tasks[id].point.Capturing? && !input.Cancelled?
    ensures Inert(w, Step(w, Run(id, input)), id)
  {
    var used := UseTracker(w, input.capture).0;
    assert used == w.(tracker := used.tracker);
    hide UseTracker;
  }

  lemma StaleLoopLeaves(w: World, id: TaskId, input: Input)
    requires CanStep(w, Run(id, input)) && w.tasks[id].RefreshLoop? && !IsCurrent(w, w.tasks[id])
    requires !w.tasks[id].point.Capturing? || input.Cancelled?
    ensures Step(w, Run(id, input)) == if input.Cancelled? then Finish(w, id) else LeaveLoop(w, id)
  {
  }

  lemma StaleLoopIsInert(w: World, id: TaskId, input: Input)
    requires CanStep(w, Run(id, input)) && w.tasks[id].RefreshLoop? && !IsCurrent(w, w.tasks[id])
    ensures Inert(w, Step(w, Run(id, input)), id)
  {
    hide Step;
    if w.tasks[id].point.Capturing? && !input.Cancelled? {
      StaleCaptureIsInert(w, id, input);
    } else {
      StaleLoopLeaves(w, id, input);
    }
  }

  // A step of a task of an earlier generation changes nothing shared.
  lemma StaleStepIsInert(w: World, id: TaskId, input: Input)
    requires CanStep(w, Run(id, input)) && Generation(w.tasks[id]).Some? && !IsCurrent(w, w.tasks[id])
    ensures Inert(w, Step(w, Run(id, input)), id)
  {
    if w.tasks[id].RefreshLoop? {
      StaleLoopIsInert(w, id, input);
    }
  }

  // A task found at step i and still there at step j: same generation, still numbered.
  lemma {:induction false} TaskLives(ws: seq<World>, acts: seq<Action>, i: nat, j: nat, id: TaskId)
    requires IsRun(ws, acts) && i <= j <= |acts| && id in ws[i].tasks
    ensures id < ws[j].nextTask
    ensures id in ws[j].tasks ==>
              && Generation(ws[j].tasks[id]) == Generation(ws[i].tasks[id])
              && (ws[i].tasks[id].Shutdown? ==> ws[j].tasks[id].Shutdown? && ws[j].tasks[id].gen == ws[i].tasks[id].gen)
              && forall m :: i <= m <= j ==> id in ws[m].tasks
  {
    hide Step, FieldsOk, Progressing, StartsSend, RefusesUrl, CanStep, OnlyLoop, HoldsOwnSession, WaitsLongEnough,
         FrozenBy, FitsState, WroteDisabled, Harmless, DisabledSince;
    Reachable(ws, acts, i);
    assert TaskOk(ws[i], id, ws[i].tasks[id]);
    if i < j {
      TaskLives(ws, acts, i, j - 1, id);
      Following(ws, acts, j - 1);
    }
  }

  // After a generation bump, every later step of work started before it is inert.
  lemma WorkDiesWithItsGeneration(ws: seq<World>, acts: seq<Action>, i: nat, bump: nat, j: nat, id: TaskId,
      input: Input)
    requires IsRun(ws, acts) && i <= bump <= j < |acts| && acts[j] == Run(id, input)
    requires id in ws[i].tasks && Generation(ws[i].tasks[id]).Some?
    requires ws[i].inner.generation < ws[bump].inner.generation
    ensures var before, after := ws[j].inner, ws[j + 1].inner;
            && after == before.(refreshLoopRunning := after.refreshLoopRunning)
            && (after.refreshLoopRunning ==> before.refreshLoopRunning)
            && ws[j + 1].history == ws[j].history && ws[j + 1].connection == ws[j].connection
  {
    TaskLives(ws, acts, i, j, id);
    Reachable(ws, acts, i);
    ReturnedStays(ws, acts, bump, j);
    assert TaskOk(ws[i], id, ws[i].tasks[id]);
    assert Linked(ws, acts, j);
    StaleStepIsInert(ws[j], id, input);
  }

  // From a shutdown's first segment to its last, the generation is frozen and the state is Disabled.
  lemma ShutdownFreezesGeneration(ws: seq<World>, acts: seq<Action>, i: nat, j: nat, id: TaskId)
    requires IsRun(ws, acts) && i <= j <= |acts|
    requires id in ws[i].tasks && ws[i].tasks[id].Shutdown? && id in ws[j].tasks
    ensures forall m :: i <= m <= j ==>
              && ws[m].inner.generation == ws[i].inner.generation
              && ws[m].inner.state == Disabled && ws[m].inner.stopping
  {
    TaskLives(ws, acts, i, j, id);
    forall m | i <= m <= j
      ensures ws[m].inner.generation == ws[i].inner.generation && ws[m].inner.state == Disabled && ws[m].inner.stopping
    {
      TaskLives(ws, acts, i, m, id);
      Reachable(ws, acts, m);
      Reachable(ws, acts, i);
      assert TaskOk(ws[m], id, ws[m].tasks[id]) && TaskOk(ws[i], id, ws[i].tasks[id]);
    }
  }

  lemma ClientWritesThroughRegistry(ws: seq<World>, acts: seq<Action>, i: nat)
    requires IsRun(ws, acts) && i <= |acts| && ws[i].inner.client.Some?
    ensures ws[i].inner.registry.Some?
    ensures ws[i].inner.registry.value.client == ws[i].inner.client
    ensures ws[i].inner.registry.value.sequencer == ws[i].inner.client.value.sequencer
  {
    Reachable(ws, acts, i);
  }
}
