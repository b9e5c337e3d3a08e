/**
 What the coordinator does when it is asked to: a start negotiates, a negotiation goes live, a trigger
 publishes, a timer or a wake restarts. Stated on the fields and tasks of the next state, and on runs.
 */
module CoordinatorLiveness {
  import opened CoordinatorInvariants
  import opened CoordinatorModel
  import opened CoordinatorTheorems
  import opened Negotiation
  import opened Options

  // ---- triggers ------------------------------------------------------------------------------------

  // An accepted request, a current heartbeat, or the step that adopts an available negotiation.
  predicate AsksToPublish(w: World, a: Action) {
    || (a.RequestFreshSnapshot? && (w.inner.state == Active || w.inner.state == Degraded))
    || (RunsTask(w, a) && w.tasks[a.id].Heartbeat? && w.tasks[a.id].gen == w.inner.generation)
    || (RunsTask(w, a) && GoesLive(a) && w.tasks[a.id].gen == w.inner.generation)
  }

  // A request is pending and a loop holds the flag; if the flag was free, the loop is a new one of the
  // current generation, at its head.
  ghost predicate Heard(w: World, next: World) {
    && next.inner.refreshRequested && next.inner.refreshLoopRunning
    && (exists loop <- next.tasks :: next.tasks[loop].RefreshLoop?)
    && (!w.inner.refreshLoopRunning ==>
          exists loop <- next.tasks :: loop !in w.tasks && next.tasks[loop] == RefreshLoop(next.inner.generation, Head))
  }

  lemma RequestIsHeard(w: World)
    requires Inv(w) && (w.inner.state == Active || w.inner.state == Degraded)
    ensures Heard(w, Step(w, RequestFreshSnapshot))
  {
    var next := Step(w, RequestFreshSnapshot);
    assert w.nextTask !in w.tasks by {
      NumbersAreNew(w);
    }
    assert w.inner.refreshLoopRunning ==> w.history.loop in next.tasks && next.tasks[w.history.loop].RefreshLoop?;
    assert !w.inner.refreshLoopRunning ==> w.nextTask in next.tasks;
    hide Inv;
  }

  lemma NumbersAreNew(w: World)
    requires Inv(w)
    ensures forall id <- w.tasks :: id < w.nextTask
  {
    assert forall id <- w.tasks :: TaskOk(w, id, w.tasks[id]);
  }

  lemma HeartbeatIsHeard(w: World, a: Action)
    requires Inv(w) && RunsTask(w, a) && w.tasks[a.id].Heartbeat? && w.tasks[a.id].gen == w.inner.generation
    ensures Heard(w, Step(w, a))
  {
    var next := Step(w, a);
    NumbersAreNew(w);
    assert w.inner.refreshLoopRunning ==> w.history.loop in next.tasks && next.tasks[w.history.loop].RefreshLoop?;
    assert !w.inner.refreshLoopRunning ==> w.nextTask in next.tasks;
    hide Inv;
  }

  // Going live replaces the negotiation by a heartbeat and, if the flag was free, a loop.
  lemma GoingLiveTasks(w: World, a: Action)
    requires RunsTask(w, a) && GoesLive(a) && w.tasks[a.id].gen == w.inner.generation
    ensures var next, gen := Step(w, a), w.inner.generation;
            && next.inner.generation == gen && next.inner.state == Active
            && next.inner.refreshRequested && next.inner.refreshLoopRunning
            && next.inner.heartbeatTask == Some(w.nextTask) && next.inner.reconnectTask == w.inner.reconnectTask
            && next.aborted == Abort(w.aborted, w.inner.heartbeatTask)
            && next.tasks ==
                 (w.tasks - {a.id})[w.nextTask := Heartbeat(gen)]
                 + (if w.inner.refreshLoopRunning then map[] else map[w.nextTask + 1 := RefreshLoop(gen, Head)])
  {
    hide RequestedLease, HeartbeatPeriod, DivCeil, Resolve, AuthorityKey;
    var connection, c := w.tasks[a.id].at.connection, a.input.negotiation.configuration;
    AdoptTouchesNoTask(Finish(w, a.id), connection, c);
    AdoptKeepsTimers(Finish(w, a.id), connection, c);
  }

  lemma AdoptKeepsTimers(w: World, connection: Connection, c: Configuration)
    requires c.requestsPerMinute > 0
    ensures AdoptConfiguration(w, connection, c).inner.heartbeatTask == w.inner.heartbeatTask
    ensures AdoptConfiguration(w, connection, c).inner.reconnectTask == w.inner.reconnectTask
  {
    hide RequestedLease, HeartbeatPeriod, DivCeil, AuthorityKey;
  }

  lemma GoingLiveIsHeard(w: World, a: Action)
    requires Inv(w) && RunsTask(w, a) && GoesLive(a) && w.tasks[a.id].gen == w.inner.generation
    ensures Heard(w, Step(w, a))
  {
    hide Step;
    var next := Step(w, a);
    NumbersAreNew(w);
    GoingLiveTasks(w, a);
    assert w.inner.refreshLoopRunning ==> w.history.loop in next.tasks && next.tasks[w.history.loop].RefreshLoop?;
    assert !w.inner.refreshLoopRunning ==> w.nextTask + 1 in next.tasks;
  }

  lemma TriggersAreHeard(w: World, a: Action)
    requires Inv(w) && CanStep(w, a) && AsksToPublish(w, a)
    ensures Heard(w, Step(w, a))
  {
    hide Inv, Heard, Step, GoesLive;
    if a.RequestFreshSnapshot? {
      RequestIsHeard(w);
    } else if w.tasks[a.id].Heartbeat? {
      HeartbeatIsHeard(w, a);
    } else {
      GoingLiveIsHeard(w, a);
    }
  }

  // In every other state the request changes nothing.
  lemma RequestIsIgnoredOtherwise(w: World)
    requires w.inner.state != Active && w.inner.state != Degraded
    ensures Step(w, RequestFreshSnapshot) == w
  {
  }

  // ---- where a negotiation ends -----------------------------------------------------------------------

  // Reading the configuration: on when there is an enabled connection, out when there is none.
  lemma ConnectionDecides(w: World, id: TaskId)
    requires id in w.tasks && w.tasks[id].Configure? && w.tasks[id].at.ReadingConnection?
    ensures CanStep(w, Run(id, Continue))
    ensures var next := Step(w, Run(id, Continue));
            && next == w.(tasks := next.tasks) && next.tasks.Keys == w.tasks.Keys
            && (forall other <- w.tasks :: other != id ==> next.tasks[other] == w.tasks[other])
            && next.tasks[id] == Configure(w.tasks[id].gen,
                 if w.connection.Some? && w.connection.value.liveDeskEnabled then AwaitingToken(w.connection.value)
                   else Refusing)
  {
  }

  lemma RefusalDisables(w: World, id: TaskId)
    requires Inv(w) && id in w.tasks && w.tasks[id].Configure? && IsCurrent(w, w.tasks[id]) && w.tasks[id].at.Refusing?
    ensures CanStep(w, Run(id, Continue))
    ensures var next := Step(w, Run(id, Continue));
            next.inner == w.inner.(state := Disabled) && next.tasks == w.tasks - {id} && Calm(next)
  {
    NegotiatingAlone(w, id);
  }

  // While a negotiation of the generation is on its way nothing else of the generation is.
  lemma NegotiatingAlone(w: World, id: TaskId)
    requires Inv(w) && id in w.tasks && w.tasks[id].Configure? && IsCurrent(w, w.tasks[id])
    ensures forall other <- w.tasks :: other != id ==> !IsCurrent(w, w.tasks[other])
  {
    forall other <- w.tasks | other != id ensures !IsCurrent(w, w.tasks[other]) {
      assert TaskOk(w, other, w.tasks[other]) && TaskOk(w, id, w.tasks[id]);
    }
  }

  lemma TokenDecides(w: World, id: TaskId, present: bool)
    requires Inv(w) && id in w.tasks && w.tasks[id].Configure? && IsCurrent(w, w.tasks[id])
              && w.tasks[id].at.AwaitingToken?
    ensures CanStep(w, Run(id, Token(present)))
    ensures var next, connection := Step(w, Run(id, Token(present))), w.tasks[id].at.connection;
            && (!present ==> next.inner.state == Degraded && RetryArmed(next) && id !in next.tasks)
            && (present && connection.urlParses ==>
                  next.inner == w.inner
                    && next.tasks == w.tasks[id := Configure(w.tasks[id].gen, AwaitingCapabilities(connection))])
  {
    RetryIsArmed(SetState(Finish(w, id), Degraded));
    NumbersAreNew(w);
    NoFutureAborted(w);
    hide Inv;
  }

  lemma NoFutureAborted(w: World)
    requires Inv(w)
    ensures w.nextTask !in w.aborted && w.inner.reconnectTask != Some(w.nextTask)
              && w.inner.heartbeatTask != Some(w.nextTask)
  {
  }

  lemma RetryIsArmed(w: World)
    ensures w.nextTask !in w.aborted && w.inner.reconnectTask != Some(w.nextTask) ==>
              RetryArmed(ScheduleRetry(w, w.inner.generation))
  {
  }

  // The state that each answer to a negotiation of the generation leads to.
  lemma AnswersDecideTheState(w: World, id: TaskId, input: Input)
    requires id in w.tasks && w.tasks[id].Configure? && IsCurrent(w, w.tasks[id])
    requires w.tasks[id].at.AwaitingCapabilities? && CanRun(w, w.tasks[id], input)
    requires !(input.Negotiated? && input.negotiation.Available?)
    ensures var next, done := Step(w, Run(id, input)), Finish(w, id);
            if input.CapabilitiesFailed? then next == ScheduleRetry(SetState(done, Degraded), w.inner.generation)
            else match input.negotiation
              case InvalidCapabilities => next == ScheduleRetry(SetState(done, Degraded), w.inner.generation)
              case SchemaUnsupported => next ==
                ScheduleRetry(SetState(done, ServerFeatureUnavailable), w.inner.generation)
              case FeatureUnavailable => next ==
                ScheduleRetry(SetState(done, ServerFeatureUnavailable), w.inner.generation)
              case ClientUpdateRequired => next == SetState(done, UpdateRequired)
              case _ => true
  {
    hide ScheduleRetry;
  }

  lemma RetryTouchesNothingElse(w: World, state: RuntimeState)
    ensures var next := ScheduleRetry(SetState(w, state), w.inner.generation);
            && next.inner == w.inner.(state := state, reconnectTask := Some(w.nextTask))
            && next.tasks == w.tasks[w.nextTask := Retry(w.inner.generation)]
            && (w.nextTask !in w.aborted && w.inner.reconnectTask != Some(w.nextTask) ==> RetryArmed(next))
  {
  }

  // The state and the timer that each answer to a current negotiation leads to.
  lemma AnswersDecide(w: World, id: TaskId, input: Input)
    requires Inv(w) && id in w.tasks && w.tasks[id].Configure? && IsCurrent(w, w.tasks[id])
    requires w.tasks[id].at.AwaitingCapabilities? && CanRun(w, w.tasks[id], input)
    requires !(input.Negotiated? && input.negotiation.Available?)
    ensures var next := Step(w, Run(id, input));
            && id !in next.tasks && next.inner.generation == w.inner.generation && next.inner.client == w.inner.client
            && (input.CapabilitiesFailed? ==> next.inner.state == Degraded && RetryArmed(next))
            && (input.Negotiated? ==> match input.negotiation
                  case InvalidCapabilities => next.inner.state == Degraded && RetryArmed(next)
                  case SchemaUnsupported => next.inner.state == ServerFeatureUnavailable && RetryArmed(next)
                  case FeatureUnavailable => next.inner.state == ServerFeatureUnavailable && RetryArmed(next)
                  case ClientUpdateRequired => next.inner.state == UpdateRequired && Calm(next)
                  case _ => true)
  {
    hide Inv, RetryArmed, ScheduleRetry, Step;
    NegotiatingAlone(w, id);
    NumbersAreNew(w);
    NoFutureAborted(w);
    AnswersDecideTheState(w, id, input);
    RetryTouchesNothingElse(Finish(w, id), Degraded);
    RetryTouchesNothingElse(Finish(w, id), ServerFeatureUnavailable);
  }

  // ---- what an available negotiation is adopted as ------------------------------------------------------

  function Distance(x: int, y: int): nat {
    if x < y then y - x else x - y
  }

  // Of the leases within the bounds the one nearest to 90 seconds.
  lemma LeaseIsNearest(c: Configuration, lease: int)
    requires c.leaseMinSeconds <= c.leaseMaxSeconds
    ensures c.leaseMinSeconds <= RequestedLease(c) <= c.leaseMaxSeconds
    ensures c.leaseMinSeconds <= lease <= c.leaseMaxSeconds && lease != RequestedLease(c) ==>
              Distance(90, RequestedLease(c)) < Distance(90, lease)
  {
  }

  // The greatest period within the recommendation that leaves room for three beats in a lease, or is a
  // second at most.
  lemma HeartbeatIsGreatest(c: Configuration, period: real)
    ensures var h := HeartbeatPeriod(c);
            && h <= c.recommendedHeartbeatSeconds as real && (h <= 1.0 || 3.0 * h <= RequestedLease(c) as real)
            && (period <= c.recommendedHeartbeatSeconds as real ==>
                  (period <= 1.0 || 3.0 * period <= RequestedLease(c) as real) ==> period <= h)
  {
  }

  // The shortest whole number of milliseconds at which the rate is kept.
  lemma IntervalIsLeast(rate: nat, interval: nat)
    requires rate > 0
    ensures rate * interval >= 60_000 <==> interval >= DivCeil(60_000, rate)
  {
    var least := DivCeil(60_000, rate);
    assert rate * least >= 60_000;
    assert rate * least < 60_000 + rate;
    if interval >= least {
      assert rate * interval >= rate * least;
    } else {
      assert rate * interval <= rate * (least - 1) == rate * least - rate;
    }
  }

  // The negotiated parameters in force, and a new client, registered, on the sequencer of its key: the
  // registered one if the key is the same, else one that nothing has used.
  lemma AdoptsTheConfiguration(w: World, a: Action)
    requires RunsTask(w, a) && GoesLive(a) && w.tasks[a.id].gen == w.inner.generation
    ensures var next, c, connection := Step(w, a).inner, a.input.negotiation.configuration, w.tasks[a.id].at.connection;
            var key := connection.baseUrl + "|" + connection.deviceId;
            && next.includeMedia == c.supportsMediaTimeline
            && next.requestedLeaseSeconds == RequestedLease(c) && next.heartbeatSeconds == HeartbeatPeriod(c)
            && next.minSendIntervalMs == DivCeil(60_000, c.requestsPerMinute)
            && next.client.Some? && next.client.value.id >= w.nextObject
            && next.registry == Some(Authority(key, next.client.value.sequencer, next.client))
            && (if w.inner.registry.Some? && w.inner.registry.value.key == key
                then next.client.value.sequencer == w.inner.registry.value.sequencer
                else next.client.value.sequencer >= w.nextObject)
  {
    hide RequestedLease, HeartbeatPeriod, DivCeil, Abort;
  }

  lemma DiscardsTheAuthority(w: World)
    ensures Step(w, DiscardAuthority) == w.(inner := w.inner.(registry := None, client := None))
  {
  }

  // ---- restarts ---------------------------------------------------------------------------------------

  // A new generation that negotiates, with the timers of the old one told to stop, nothing requested and
  // media continuity broken; the client, its authority and the last send are those of before.
  ghost predicate Restarted(w: World, next: World) {
    && next.inner == w.inner.(generation := w.inner.generation + 1, state := Connecting, refreshRequested := false,
                              heartbeatTask := None, reconnectTask := None)
    && next.tracker == w.tracker.(current := None)
    && next.tasks == w.tasks[w.nextTask := Configure(w.inner.generation + 1, Entry)]
    && (w.inner.heartbeatTask.Some? ==> w.inner.heartbeatTask.value in next.aborted)
    && (w.inner.reconnectTask.Some? ==> w.inner.reconnectTask.value in next.aborted)
    && w.aborted <= next.aborted
  }

  lemma StartRestarts(w: World)
    ensures if w.inner.stopping then Step(w, Start) == w else Restarted(w, Step(w, Start))
  {
  }

  lemma RetryRestarts(w: World, id: TaskId)
    requires id in w.tasks && w.tasks[id] == Retry(w.inner.generation) && !w.inner.stopping
    ensures CanStep(w, Run(id, Continue)) && Restarted(Finish(w, id), Step(w, Run(id, Continue)))
  {
  }

  // A publish that asks for it renegotiates with nothing kept: the authority and the client are dropped.
  lemma RenegotiationRestarts(w: World, id: TaskId, client: Client)
    requires id in w.tasks && w.tasks[id] == RefreshLoop(w.inner.generation, Sending(client)) && !w.inner.stopping
    ensures CanStep(w, Run(id, PublishNeedsRenegotiation))
    ensures Restarted(w.(inner := w.inner.(registry := None, client := None, refreshLoopRunning := false),
              tasks := w.tasks - {id}),
                      Step(w, Run(id, PublishNeedsRenegotiation)))
  {
  }

  // Waking takes the join of the sleep's clear along, waits for it, and restarts if still suspended.
  lemma WakeRestarts(w: World, id: TaskId)
    requires id in w.tasks && w.tasks[id].Wake?
    ensures CanStep(w, Run(id, Continue)) <==> (w.tasks[id].pending.Some? ==> w.tasks[id].pending.value !in w.tasks)
    ensures CanStep(w, Run(id, Continue)) ==>
              if w.inner.state == Suspended && !w.inner.stopping
                then Restarted(Finish(w, id), Step(w, Run(id, Continue)))
              else Step(w, Run(id, Continue)) == Finish(w, id)
  {
  }

  lemma WakeIsBegun(w: World)
    ensures var next := Step(w, WakeOrUnlock);
            && (w.inner.state != Suspended ==> next == w)
            && (w.inner.state == Suspended ==>
                  && next.inner == w.inner.(cleanupTask := None)
                  && next.tasks == w.tasks[w.nextTask := Wake(w.inner.cleanupTask)])
  {
  }

  // One success is enough to be Active again, and the loop looks for the next request.
  lemma SuccessActivates(w: World, id: TaskId, client: Client)
    requires id in w.tasks && w.tasks[id] == RefreshLoop(w.inner.generation, Sending(client))
    ensures CanStep(w, Run(id, PublishOk))
    ensures var next := Step(w, Run(id, PublishOk));
            next.inner == w.inner.(state := Active)
              && next.tasks == w.tasks[id := RefreshLoop(w.inner.generation, Head)]
  {
  }

  // A failure degrades, releases the flag and arms a retry.
  lemma FailureDegrades(w: World, id: TaskId, client: Client)
    requires Inv(w) && id in w.tasks && w.tasks[id] == RefreshLoop(w.inner.generation, Sending(client))
    ensures CanStep(w, Run(id, PublishFailed))
    ensures var next := Step(w, Run(id, PublishFailed));
            next.inner.state == Degraded && !next.inner.refreshLoopRunning && id !in next.tasks && RetryArmed(next)
  {
    NumbersAreNew(w);
    NoFutureAborted(w);
    hide Inv, Abort;
  }

  // ---- the loop, step by step ---------------------------------------------------------------------------

  lemma LoopTakesTheRequest(w: World, loop: TaskId)
    requires loop in w.tasks && w.tasks[loop] == RefreshLoop(w.inner.generation, Head)
    ensures CanStep(w, Run(loop, Continue))
    ensures var next, earliest := Step(w, Run(loop, Continue)), w.inner.lastSendStartedAt + w.inner.minSendIntervalMs;
            if w.inner.refreshRequested
            then next == w.(inner := w.inner.(refreshRequested := false),
                            tasks := w.tasks[loop := RefreshLoop(w.inner.generation,
                                                                 Throttling(if earliest > w.now then earliest
                                                                   else w.now))])
            else next == w.(inner := w.inner.(refreshLoopRunning := false), tasks := w.tasks - {loop})
  {
  }

  lemma LoopStartsTheSend(w: World, loop: TaskId, until: int, client: Client)
    requires loop in w.tasks && w.tasks[loop] == RefreshLoop(w.inner.generation, Throttling(until))
    requires until <= w.now && w.inner.client == Some(client)
    ensures StartsSend(w, Run(loop, Continue))
    ensures var next := Step(w, Run(loop, Continue));
            next == w.(inner := w.inner.(lastSendStartedAt := w.now), history := next.history,
                       tasks := w.tasks[loop := RefreshLoop(w.inner.generation,
                         Capturing(client, w.inner.includeMedia))])
  {
  }

  // The capture's session id is the tracker's for what was captured.
  lemma LoopCapturesWith(w: World, loop: TaskId, client: Client, capture: CaptureOutcome)
    requires loop in w.tasks && w.tasks[loop].RefreshLoop?
              && w.tasks[loop].point == Capturing(client, !capture.Untouched?)
    ensures CanStep(w, Run(loop, CaptureDone(capture)))
    ensures var next, gen := Step(w, Run(loop, CaptureDone(capture))), w.tasks[loop].gen;
            && next == w.(tracker := next.tracker, tasks := next.tasks)
            && match capture
               case Untouched => next.tracker == w.tracker
                 && next.tasks == w.tasks[loop := RefreshLoop(gen, Captured(client, None))]
               case Broken => next.tracker.current.None?
                 && next.tasks == w.tasks[loop := RefreshLoop(gen, Captured(client, None))]
               case Shared(identity) =>
                 && next.tracker.current.Some? && next.tracker.current.value.0 == identity
                 && next.tasks == w.tasks[loop := RefreshLoop(gen,
                      Captured(client, Some(next.tracker.current.value.1)))]
  {
  }

  lemma LoopPublishes(w: World, loop: TaskId, client: Client, session: Option<nat>)
    requires loop in w.tasks && w.tasks[loop] == RefreshLoop(w.inner.generation, Captured(client, session))
    ensures Publishes(w, Run(loop, Continue)) && (session.Some? ==> HandsOver(w, Run(loop, Continue), session.value))
    ensures var next := Step(w, Run(loop, Continue));
            next == w.(history := next.history,
              tasks := w.tasks[loop := RefreshLoop(w.inner.generation, Sending(client))])
  {
  }

  // ---- over runs --------------------------------------------------------------------------------------

  lemma RunGoesOn(ws: seq<World>, acts: seq<Action>, a: Action)
    requires IsRun(ws, acts) && CanStep(ws[|acts|], a)
    ensures IsRun(ws + [Step(ws[|acts|], a)], acts + [a])
  {
    hide Step, CanStep;
    var next, rest := ws + [Step(ws[|acts|], a)], acts + [a];
    forall i | 0 <= i < |rest| ensures Linked(next, rest, i) {
      if i < |acts| {
        assert Linked(ws, acts, i);
      }
    }
  }

  // One step after another, each enabled where the one before it leads.
  ghost predicate LeadsTo(w: World, rest: seq<Action>, more: seq<World>) {
    |more| == |rest| && forall i :: 0 <= i < |rest| ==> NextIs(w, rest, more, i)
  }

  ghost predicate NextIs(w: World, rest: seq<Action>, more: seq<World>, i: nat)
    requires i < |rest| == |more|
  {
    var before := if i == 0 then w else more[i - 1];
    CanStep(before, rest[i]) && more[i] == Step(before, rest[i])
  }

  lemma {:induction false} RunGoesOnTo(ws: seq<World>, acts: seq<Action>, rest: seq<Action>, more: seq<World>)
    requires IsRun(ws, acts) && LeadsTo(ws[|acts|], rest, more)
    ensures IsRun(ws + more, acts + rest)
    decreases |rest|
  {
    hide Step, CanStep;
    if rest == [] {
      assert ws + more == ws && acts + rest == acts;
    } else {
      assert NextIs(ws[|acts|], rest, more, 0);
      RunGoesOn(ws, acts, rest[0]);
      var w := more[0];
      assert LeadsTo(w, rest[1..], more[1..]) by {
        forall i | 0 <= i < |rest[1..]| ensures NextIs(w, rest[1..], more[1..], i) {
          assert NextIs(ws[|acts|], rest, more, i + 1);
        }
      }
      assert (ws + [more[0]])[|acts + [rest[0]]|] == w;
      RunGoesOnTo(ws + [more[0]], acts + [rest[0]], rest[1..], more[1..]);
      assert ws + [more[0]] + more[1..] == ws + more && acts + [rest[0]] + rest[1..] == acts + rest;
    }
  }

  lemma TickPasses(w: World, now: int)
    requires w.now <= now
    ensures CanStep(w, Tick(now)) && Step(w, Tick(now)) == w.(now := now)
  {
  }

  lemma StartsAreSteps(w: World, a: Action)
    requires StartsSend(w, a)
    ensures CanStep(w, a)
  {
  }

  lemma PublishesAreSteps(w: World, a: Action)
    requires Publishes(w, a)
    ensures CanStep(w, a)
  {
  }

  lemma LoopSends(w: World, loop: TaskId, client: Client, now: int) returns (more: seq<World>)
    requires loop in w.tasks && w.tasks[loop] == RefreshLoop(w.inner.generation, Head)
    requires w.inner.refreshRequested && w.inner.client == Some(client)
    requires w.now <= now && w.inner.lastSendStartedAt + w.inner.minSendIntervalMs <= now
    ensures var go := Run(loop, Continue);
            && LeadsTo(w, [go, Tick(now), go], more) && StartsSend(more[1], go)
            && more[2].inner == w.inner.(refreshRequested := false, lastSendStartedAt := now)
            && more[2].tasks == w.tasks[loop := RefreshLoop(w.inner.generation,
                 Capturing(client, w.inner.includeMedia))]
  {
    hide Step, CanStep, StartsSend;
    var go := Run(loop, Continue);
    LoopTakesTheRequest(w, loop);
    var w1 := Step(w, go);
    TickPasses(w1, now);
    var w2 := Step(w1, Tick(now));
    LoopStartsTheSend(w2, loop, w1.tasks[loop].point.until, client);
    StartsAreSteps(w2, go);
    more := [w1, w2, Step(w2, go)];
  }

  lemma LoopDeliversAndLeaves(w: World, loop: TaskId, client: Client, capture: CaptureOutcome)
    returns (more: seq<World>)
    requires loop in w.tasks && w.tasks[loop] == RefreshLoop(w.inner.generation, Capturing(client, !capture.Untouched?))
    requires !w.inner.refreshRequested
    ensures var go := Run(loop, Continue);
            && LeadsTo(w, [Run(loop, CaptureDone(capture)), go, Run(loop, PublishOk), go], more)
                 && Publishes(more[0], go)
            && more[3].inner == w.inner.(state := Active, refreshLoopRunning := false) && loop !in more[3].tasks
  {
    hide Step, CanStep, Publishes, HandsOver;
    var go := Run(loop, Continue);
    LoopCapturesWith(w, loop, client, capture);
    var w1 := Step(w, Run(loop, CaptureDone(capture)));
    LoopPublishes(w1, loop, client, w1.tasks[loop].point.session);
    PublishesAreSteps(w1, go);
    var w2 := Step(w1, go);
    SuccessActivates(w2, loop, client);
    var w3 := Step(w2, Run(loop, PublishOk));
    LoopTakesTheRequest(w3, loop);
    more := [w1, w2, w3, Step(w3, go)];
  }

  lemma LeadsOn(w: World, first: seq<Action>, mid: seq<World>, second: seq<Action>, more: seq<World>)
    requires LeadsTo(w, first, mid) && mid != [] && LeadsTo(mid[|mid| - 1], second, more)
    ensures LeadsTo(w, first + second, mid + more)
  {
    hide Step, CanStep;
    forall i | 0 <= i < |first + second| ensures NextIs(w, first + second, mid + more, i) {
      if i < |first| {
        assert NextIs(w, first, mid, i);
      } else {
        assert NextIs(mid[|mid| - 1], second, more, i - |first|);
      }
    }
  }

  lemma OneStepLeads(w: World, a: Action)
    requires CanStep(w, a)
    ensures LeadsTo(w, [a], [Step(w, a)])
  {
  }

  function LoopOnce(loop: TaskId, now: int, capture: CaptureOutcome): seq<Action> {
    var go := Run(loop, Continue);
    [go, Tick(now), go, Run(loop, CaptureDone(capture)), go, Run(loop, PublishOk), go]
  }

  lemma LoopPublishesOnce(w: World, loop: TaskId, client: Client, now: int, capture: CaptureOutcome)
    returns (more: seq<World>)
    requires loop in w.tasks && w.tasks[loop] == RefreshLoop(w.inner.generation, Head)
    requires w.inner.refreshRequested && w.inner.client == Some(client) && w.inner.includeMedia == !capture.Untouched?
    requires w.now <= now && w.inner.lastSendStartedAt + w.inner.minSendIntervalMs <= now
    ensures var go := Run(loop, Continue);
            && LeadsTo(w, LoopOnce(loop, now, capture), more) && StartsSend(more[1], go) && Publishes(more[3], go)
            && more[6].inner.state == Active && !more[6].inner.refreshRequested && !more[6].inner.refreshLoopRunning
            && loop !in more[6].tasks
  {
    hide Step, CanStep, StartsSend, Publishes, NextIs;
    var go := Run(loop, Continue);
    var sent := LoopSends(w, loop, client, now);
    var done := LoopDeliversAndLeaves(sent[2], loop, client, capture);
    LeadsOn(w, [go, Tick(now), go], sent, [Run(loop, CaptureDone(capture)), go, Run(loop, PublishOk), go], done);
    more := sent + done;
    assert LoopOnce(loop, now, capture) ==
        [go, Tick(now), go] + [Run(loop, CaptureDone(capture)), go, Run(loop, PublishOk), go];
  }

  lemma TriggerPublishes(w: World, a: Action, now: int, capture: CaptureOutcome)
    returns (loop: TaskId, more: seq<World>)
    requires CanStep(w, a) && Heard(w, Step(w, a)) && !w.inner.refreshLoopRunning
    requires var next := Step(w, a);
             && next.inner.client.Some? && next.inner.includeMedia == !capture.Untouched?
             && next.now <= now && next.inner.lastSendStartedAt + next.inner.minSendIntervalMs <= now
    ensures var go := Run(loop, Continue);
            && loop !in w.tasks && LeadsTo(w, [a] + LoopOnce(loop, now, capture), more)
            && StartsSend(more[2], go) && Publishes(more[4], go)
            && more[7].inner.state == Active && !more[7].inner.refreshRequested && !more[7].inner.refreshLoopRunning
            && loop !in more[7].tasks
  {
    hide Step, CanStep, StartsSend, Publishes, NextIs, LoopOnce;
    var next := Step(w, a);
    loop :| loop in next.tasks && loop !in w.tasks && next.tasks[loop] == RefreshLoop(next.inner.generation, Head);
    var done := LoopPublishesOnce(next, loop, next.inner.client.value, now, capture);
    LoopOnceHasSeven(loop, now, capture);
    OneStepLeads(w, a);
    LeadsOn(w, [a], [next], LoopOnce(loop, now, capture), done);
    more := [next] + done;
  }

  lemma LoopOnceHasSeven(loop: TaskId, now: int, capture: CaptureOutcome)
    ensures |LoopOnce(loop, now, capture)| == 7
  {
  }

  // From every reachable world without a loop, a trigger that is accepted while there is a client starts
  // a loop whose own steps lead to one send, as soon as the interval allows, and one publish; with a
  // success the coordinator is Active, nothing is requested and the flag is free again.
  lemma TriggerLeadsToPublish(ws: seq<World>, acts: seq<Action>, a: Action, now: int, capture: CaptureOutcome)
    returns (loop: TaskId, more: seq<World>)
    requires IsRun(ws, acts) && CanStep(ws[|acts|], a) && AsksToPublish(ws[|acts|], a)
    requires !ws[|acts|].inner.refreshLoopRunning
    requires var next := Step(ws[|acts|], a);
             && next.inner.client.Some? && next.inner.includeMedia == !capture.Untouched?
             && next.now <= now && next.inner.lastSendStartedAt + next.inner.minSendIntervalMs <= now
    ensures var go := Run(loop, Continue);
            var rest := [a] + [go, Tick(now), go, Run(loop, CaptureDone(capture)), go, Run(loop, PublishOk), go];
            && loop !in ws[|acts|].tasks && |more| == 8 && IsRun(ws + more, acts + rest)
            && StartsSend(more[2], go) && Publishes(more[4], go)
            && more[7].inner.state == Active && !more[7].inner.refreshRequested && !more[7].inner.refreshLoopRunning
            && loop !in more[7].tasks
  {
    Reachable(ws, acts, |acts|);
    TriggersAreHeard(ws[|acts|], a);
    hide Inv, IsRun, Step, CanStep, StartsSend, Publishes, AsksToPublish, NextIs, Heard;
    loop, more := TriggerPublishes(ws[|acts|], a, now, capture);
    RunGoesOnTo(ws, acts, [a] + LoopOnce(loop, now, capture), more);
  }

  // ---- from a start to a live coordinator ---------------------------------------------------------------

  lemma EntryGoesOn(w: World, id: TaskId)
    requires id in w.tasks && w.tasks[id] == Configure(w.inner.generation, Entry)
    ensures CanStep(w, Run(id, Continue))
    ensures Step(w, Run(id, Continue)) == w.(tasks := w.tasks[id := Configure(w.inner.generation, ReadingConnection)])
  {
  }

  lemma NegotiationIsAllowed(w: World, id: TaskId, connection: Connection, c: Configuration)
    requires id in w.tasks && w.tasks[id] == Configure(w.inner.generation, AwaitingCapabilities(connection))
    requires LimitsAreCoherent(c)
    ensures CanStep(w, Run(id, Negotiated(Available(c)))) && AsksToPublish(w, Run(id, Negotiated(Available(c))))
    ensures var next := Step(w, Run(id, Negotiated(Available(c)))).inner; next.state == Active && next.client.Some?
  {
    hide Abort;
  }

  lemma ParsedTokenGoesOn(w: World, id: TaskId, connection: Connection)
    requires id in w.tasks && w.tasks[id] == Configure(w.inner.generation, AwaitingToken(connection))
              && connection.urlParses
    ensures CanStep(w, Run(id, Token(true)))
    ensures Step(w, Run(id, Token(true))) ==
            w.(tasks := w.tasks[id := Configure(w.inner.generation, AwaitingCapabilities(connection))])
  {
  }

  // From every reachable world that is not shutting down: a start on an enabled connection whose URL
  // parses leads, with a token and an available negotiation, to an Active coordinator with a client; the
  // last step is a trigger.
  lemma StartGoesLive(ws: seq<World>, acts: seq<Action>, connection: Connection, c: Configuration)
    returns (id: TaskId, more: seq<World>)
    requires IsRun(ws, acts) && !ws[|acts|].inner.stopping && LimitsAreCoherent(c)
    requires ws[|acts|].connection == Some(connection) && connection.liveDeskEnabled && connection.urlParses
    ensures var go := Run(id, Continue);
            && |more| == 5 && IsRun(ws + more,
                 acts + [Start, go, go, Run(id, Token(true)), Run(id, Negotiated(Available(c)))])
            && AsksToPublish(more[3], Run(id, Negotiated(Available(c))))
            && more[3].inner.refreshLoopRunning == ws[|acts|].inner.refreshLoopRunning
            && more[4].inner.state == Active && more[4].inner.client.Some?
  {
    hide Step, CanStep, AsksToPublish;
    var w := ws[|acts|];
    id := w.nextTask;
    var go, live := Run(id, Continue), Run(id, Negotiated(Available(c)));
    StartRestarts(w);
    StartIsEnabled(w);
    var w1 := Step(w, Start);
    EntryGoesOn(w1, id);
    var w2 := Step(w1, go);
    ConnectionDecides(w2, id);
    StartKeepsConnection(w);
    var w3 := Step(w2, go);
    ParsedTokenGoesOn(w3, id, connection);
    var w4 := Step(w3, Run(id, Token(true)));
    NegotiationIsAllowed(w4, id, connection, c);
    more := [w1, w2, w3, w4, Step(w4, live)];
    assert LeadsTo(w, [Start, go, go, Run(id, Token(true)), live], more);
    RunGoesOnTo(ws, acts, [Start, go, go, Run(id, Token(true)), live], more);
  }

  lemma StartIsEnabled(w: World)
    ensures CanStep(w, Start)
  {
  }

  lemma StartKeepsConnection(w: World)
    ensures Step(w, Start).connection == w.connection
  {
  }
}
