/**
 How a second sequencer comes to be in use: the clients that outlive their authority. What several
 sequencers of one device then do to its stored entry is `SequencerRuns`.
 */
module CoordinatorSequencers {
  import opened CoordinatorInvariants
  import opened CoordinatorModel
  import opened CoordinatorTheorems
  import opened Options

  // The client a task writes through, or will hand to a clear.
  function ClientOf(t: Task): Option<Client> {
    match t
    case RefreshLoop(_, Capturing(client, _)) => Some(client)
    case RefreshLoop(_, Captured(client, _)) => Some(client)
    case RefreshLoop(_, Sending(client)) => Some(client)
    case Clear(client) => Some(client)
    case Shutdown(_, lastClient, _, _, _) => lastClient
    case _ => None
  }

  ghost predicate HeldByTask(w: World, c: Client) {
    exists id <- w.tasks :: ClientOf(w.tasks[id]) == Some(c)
  }

  ghost predicate Present(w: World, c: Client) {
    w.inner.client == Some(c) || HeldByTask(w, c)
  }

  predicate IsRegistered(w: World, sequencer: nat) {
    w.inner.registry.Some? && w.inner.registry.value.sequencer == sequencer
  }

  predicate Drops(w: World, next: World, sequencer: nat) {
    IsRegistered(w, sequencer) && !IsRegistered(next, sequencer)
  }

  // The three steps that can drop an authority.
  predicate AsksToDiscard(w: World, a: Action) {
    || a.DiscardAuthority?
    || (RunsTask(w, a) && a.input.PublishNeedsRenegotiation? && w.tasks[a.id].gen == w.inner.generation)
  }

  predicate ChangesKey(w: World, a: Action) {
    && RunsTask(w, a) && GoesLive(a)
    && w.tasks[a.id].gen == w.inner.generation
    && w.inner.registry.Some? && w.inner.registry.value.key != AuthorityKey(w.tasks[a.id].at.connection)
  }

  // ---- where a task's client comes from ---------------------------------------------------------------

  predicate FromBefore(w: World, a: Action, id: TaskId, client: Option<Client>) {
    || client.None? || client == w.inner.client
    || (id in w.tasks && client == ClientOf(w.tasks[id]))
    || (a.Run? && a.id in w.tasks && client == ClientOf(w.tasks[a.id]))
  }

  lemma EntryClients(w: World, a: Action, id: TaskId)
    requires CanStep(w, a) && !RunsTask(w, a) && id in Step(w, a).tasks
    ensures FromBefore(w, a, id, ClientOf(Step(w, a).tasks[id]))
  {
    hide Abort;
  }

  // Starting and scheduling a retry spawn tasks without a client.
  lemma SpawnedHoldNothing(w: World, gen: nat, id: TaskId)
    ensures id in StartLocked(w).tasks ==>
              ClientOf(StartLocked(w).tasks[id]).None? || (id in w.tasks && StartLocked(w).tasks[id] == w.tasks[id])
    ensures id in ScheduleRetry(w, gen).tasks ==>
              || ClientOf(ScheduleRetry(w, gen).tasks[id]).None?
              || (id in w.tasks && ScheduleRetry(w, gen).tasks[id] == w.tasks[id])
  {
    hide Abort;
  }

  lemma PublishClients(w: World, a: Action, id: TaskId)
    requires RunsTask(w, a) && w.tasks[a.id].RefreshLoop? && w.tasks[a.id].point.Sending? && id in Step(w, a).tasks
    ensures FromBefore(w, a, id, ClientOf(Step(w, a).tasks[id]))
  {
    hide StartLocked, ScheduleRetry;
    SpawnedHoldNothing(LeaveLoop(Discard(w), a.id), 0, id);
    SpawnedHoldNothing(SetState(w, Degraded), w.tasks[a.id].gen, id);
  }

  lemma LoopClients(w: World, a: Action, id: TaskId)
    requires RunsTask(w, a) && w.tasks[a.id].RefreshLoop? && !w.tasks[a.id].point.Sending? && id in Step(w, a).tasks
    ensures FromBefore(w, a, id, ClientOf(Step(w, a).tasks[id]))
  {
  }

  lemma GoLiveClients(w: World, a: Action, id: TaskId)
    requires RunsTask(w, a) && w.tasks[a.id].Configure? && GoesLive(a) && id in Step(w, a).tasks
    ensures FromBefore(w, a, id, ClientOf(Step(w, a).tasks[id]))
  {
    hide Abort;
  }

  lemma ConfigureClients(w: World, a: Action, id: TaskId)
    requires RunsTask(w, a) && w.tasks[a.id].Configure? && !GoesLive(a) && id in Step(w, a).tasks
    ensures FromBefore(w, a, id, ClientOf(Step(w, a).tasks[id]))
  {
    hide Abort;
  }

  lemma StartingClients(w: World, a: Action, id: TaskId)
    requires RunsTask(w, a) && (IsTimer(w.tasks[a.id]) || w.tasks[a.id].Wake?) && id in Step(w, a).tasks
    ensures FromBefore(w, a, id, ClientOf(Step(w, a).tasks[id]))
  {
    hide StartLocked, Abort;
    SpawnedHoldNothing(Finish(w, a.id), 0, id);
  }

  lemma OtherClients(w: World, a: Action, id: TaskId)
    requires RunsTask(w, a) && id in Step(w, a).tasks
    requires w.tasks[a.id].Clear? || w.tasks[a.id].BoundedJoin? || w.tasks[a.id].Disabling? || w.tasks[a.id].Shutdown?
    ensures FromBefore(w, a, id, ClientOf(Step(w, a).tasks[id]))
  {
    hide Abort;
  }

  lemma TaskClients(w: World, a: Action, id: TaskId)
    requires CanStep(w, a) && id in Step(w, a).tasks
    ensures FromBefore(w, a, id, ClientOf(Step(w, a).tasks[id]))
  {
    hide Step, FromBefore, ClientOf;
    if !RunsTask(w, a) {
      EntryClients(w, a, id);
    } else if w.tasks[a.id].RefreshLoop? {
      if w.tasks[a.id].point.Sending? {
        PublishClients(w, a, id);
      } else {
        LoopClients(w, a, id);
      }
    } else if w.tasks[a.id].Configure? {
      if GoesLive(a) {
        GoLiveClients(w, a, id);
      } else {
        ConfigureClients(w, a, id);
      }
    } else if IsTimer(w.tasks[a.id]) || w.tasks[a.id].Wake? {
      StartingClients(w, a, id);
    } else {
      OtherClients(w, a, id);
    }
  }

  // No step hands a task any client but the coordinator's present one.
  lemma HeldWasPresent(w: World, a: Action, c: Client)
    requires CanStep(w, a) && HeldByTask(Step(w, a), c)
    ensures Present(w, c)
  {
    hide Step, CanStep, ClientOf;
    var next := Step(w, a);
    var id :| id in next.tasks && ClientOf(next.tasks[id]) == Some(c);
    TaskClients(w, a, id);
  }

  // ---- what drops an authority ---------------------------------------------------------------------------

  lemma EntryDrops(w: World, a: Action, sequencer: nat)
    requires CanStep(w, a) && !RunsTask(w, a) && Drops(w, Step(w, a), sequencer)
    ensures AsksToDiscard(w, a)
  {
  }

  lemma RetryKeepsRegistry(w: World, gen: nat)
    ensures ScheduleRetry(w, gen).inner.registry == w.inner.registry
  {
    hide Abort;
  }

  lemma PublishDrops(w: World, a: Action, sequencer: nat)
    requires RunsTask(w, a) && w.tasks[a.id].RefreshLoop? && w.tasks[a.id].point.Sending?
    requires Drops(w, Step(w, a), sequencer)
    ensures AsksToDiscard(w, a)
  {
    hide StartLocked, ScheduleRetry;
    RetryKeepsRegistry(SetState(w, Degraded), w.tasks[a.id].gen);
  }

  lemma LoopKeepsRegistry(w: World, a: Action)
    requires RunsTask(w, a) && w.tasks[a.id].RefreshLoop? && !w.tasks[a.id].point.Sending?
    ensures Step(w, a).inner.registry == w.inner.registry
  {
  }

  lemma LoopDrops(w: World, a: Action, sequencer: nat)
    requires RunsTask(w, a) && w.tasks[a.id].RefreshLoop? && Drops(w, Step(w, a), sequencer)
    ensures AsksToDiscard(w, a)
  {
    hide Step, AsksToDiscard;
    if w.tasks[a.id].point.Sending? {
      PublishDrops(w, a, sequencer);
    } else {
      LoopKeepsRegistry(w, a);
    }
  }

  lemma StartKeepsRegistry(w: World)
    ensures StartLocked(w).inner.registry == w.inner.registry
  {
    hide Abort;
  }

  lemma OthersDropNothing(w: World, a: Action, sequencer: nat)
    requires RunsTask(w, a) && !w.tasks[a.id].Configure? && !w.tasks[a.id].RefreshLoop?
    ensures !Drops(w, Step(w, a), sequencer)
  {
    hide Abort, StartLocked;
    StartKeepsRegistry(Finish(w, a.id));
  }

  lemma ConfigureDrops(w: World, a: Action, sequencer: nat)
    requires RunsTask(w, a) && w.tasks[a.id].Configure? && Drops(w, Step(w, a), sequencer)
    ensures ChangesKey(w, a)
  {
  }

  lemma DropsAreAsked(w: World, a: Action, sequencer: nat)
    requires CanStep(w, a) && Drops(w, Step(w, a), sequencer)
    ensures AsksToDiscard(w, a) || ChangesKey(w, a)
  {
    hide Step, Drops, AsksToDiscard, ChangesKey, RunTask;
    if !RunsTask(w, a) {
      EntryDrops(w, a, sequencer);
    } else if w.tasks[a.id].Configure? {
      ConfigureDrops(w, a, sequencer);
    } else if w.tasks[a.id].RefreshLoop? {
      LoopDrops(w, a, sequencer);
    } else {
      OthersDropNothing(w, a, sequencer);
    }
  }

  // ---- over runs --------------------------------------------------------------------------------------

  // At step `k` the authority of this client, which was there by then, was dropped.
  ghost predicate LostAuthority(ws: seq<World>, acts: seq<Action>, k: nat, c: Client)
    requires k < |acts| && |ws| == |acts| + 1
  {
    && Present(ws[k], c) && Drops(ws[k], ws[k + 1], c.sequencer)
    && (AsksToDiscard(ws[k], acts[k]) || ChangesKey(ws[k], acts[k]))
  }

  // Every client that is present writes through the registered sequencer, or lost its authority.
  lemma {:induction false} RegisteredOrLost(ws: seq<World>, acts: seq<Action>, i: nat, c: Client)
    requires IsRun(ws, acts) && i <= |acts| && Present(ws[i], c)
    ensures IsRegistered(ws[i], c.sequencer) || exists k: nat :: k < i && LostAuthority(ws, acts, k, c)
  {
    hide Step, CanStep, AsksToDiscard, ChangesKey, TasksOk, Progressing, HeldByTask;
    Reachable(ws, acts, i);
    if ws[i].inner.client != Some(c) {
      assert i > 0 by {
        NothingHeldAtFirst(ws, acts, c);
      }
      assert Linked(ws, acts, i - 1);
      HeldWasPresent(ws[i - 1], acts[i - 1], c);
      RegisteredOrLost(ws, acts, i - 1, c);
      if Drops(ws[i - 1], ws[i], c.sequencer) {
        DropsAreAsked(ws[i - 1], acts[i - 1], c.sequencer);
        assert LostAuthority(ws, acts, i - 1, c);
      }
    }
  }

  lemma NothingHeldAtFirst(ws: seq<World>, acts: seq<Action>, c: Client)
    requires IsRun(ws, acts)
    ensures !HeldByTask(ws[0], c)
  {
  }

  // Two sequencers are in use at once only while a task (a loop, a clear, a shutdown with its clear to
  // come) still holds a client from before a step that discarded its authority or changed its key.
  lemma SecondSequencerIsALeftover(ws: seq<World>, acts: seq<Action>, i: nat, c: Client, d: Client)
    requires IsRun(ws, acts) && i <= |acts|
    requires Present(ws[i], c) && Present(ws[i], d) && c.sequencer != d.sequencer
    ensures exists left :: (left == c || left == d) && HeldByTask(ws[i], left) && ws[i].inner.client != Some(left)
              && exists k: nat :: k < i && LostAuthority(ws, acts, k, left)
  {
    hide LostAuthority, HeldByTask, TasksOk, Progressing;
    var left := if IsRegistered(ws[i], c.sequencer) then d else c;
    RegisteredOrLost(ws, acts, i, left);
    Reachable(ws, acts, i);
  }

  // So without a discard and a change of key everything writes through one sequencer.
  lemma OneSequencerWithoutDrops(ws: seq<World>, acts: seq<Action>, i: nat, c: Client, d: Client)
    requires IsRun(ws, acts) && i <= |acts| && Present(ws[i], c) && Present(ws[i], d)
    requires forall k :: 0 <= k < i ==> !AsksToDiscard(ws[k], acts[k]) && !ChangesKey(ws[k], acts[k])
    ensures c.sequencer == d.sequencer
  {
    hide AsksToDiscard, ChangesKey;
    if c.sequencer != d.sequencer {
      SecondSequencerIsALeftover(ws, acts, i, c, d);
    }
  }
}
