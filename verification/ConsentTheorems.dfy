/** Consent over whole runs: what an accepted click says, when the flag is on, what the gate follows. */
module ConsentTheorems {
  import opened Capture
  import opened CaptureTheorems
  import opened Consent
  import opened ConsentGates
  import opened ConsentInvariants
  import opened ConsentRuns
  import opened Fingerprint
  import opened FingerprintDecisions
  import MediaSessions
  import opened Model
  import opened Options

  // The second capture saw one policy, the one whose fingerprint was compared after it.
  ghost predicate RecapturedUnder(c: Click, policy: PrivacyConfig) {
    && c.beforeRecapture.privacy == policy && c.beforePolicyRead.privacy == policy
    && c.recapture.read1 == policy && c.recapture.read2 == policy && c.recapture.read3 == policy
  }

  // What the user saw and accepted is what any policy with the clicked fingerprint emits: the policy
  // the preview was made under need not be the one in force, letter by letter, for consent to bind it.
  lemma AcceptedBindsThePolicy(enabled: Option<bool>, c: Click, policy: PrivacyConfig, clicked: PrivacyConfig)
    requires ConfirmOutcome(enabled, c).0.Ok? && RecapturedUnder(c, policy)
    requires IsUnambiguous(policy) && IsUnambiguous(clicked) && Preimage(clicked) == c.uiFingerprint
    ensures c.beforePreview.preview.Some?
    ensures c.beforePreview.preview.value.projection ==
            Shown(c.recapture.(read1 := clicked, read2 := clicked, read3 := clicked), clicked.sources.media)
  {
    AcceptedIsDisplayed(enabled, c);
    SamePreimageSameLookups(policy, clicked);
    var seen := c.recapture.(includeMedia := policy.sources.media);
    var same := seen.(read1 := clicked, read2 := clicked, read3 := clicked);
    SameFingerprintSameSnapshot(seen, same, MediaSessions.Tracker(None, 0));
    assert same ==
        c.recapture.(read1 := clicked, read2 := clicked, read3 := clicked).(includeMedia := clicked.sources.media);
  }

  // ---- accepted clicks ----------------------------------------------------------------------------

  // Whatever ran between its steps, a click returns the outcome of what its own steps saw.
  lemma ReturnsItsOutcome(ws: seq<World>, acts: seq<Action>, i: nat, id: TaskId)
    requires IsRun(ws, acts) && i <= |acts| && id in ws[i].tasks && ws[i].tasks[id].Returned?
    ensures var t := ws[i].tasks[id];
            InRange(ws, t.log) && t.result == ConfirmOutcome(ws[t.log.checkedAt].enabled, ClickOf(ws, t.log)).0
  {
    FactsHold(ws, acts, i, id);
    hide Confirms, Follows, ConfirmOutcome, ClickOf, Preimage;
  }

  // A capture of the run: its four reads, in order, are those of the configurations at its moments.
  ghost predicate TookPlace(ws: seq<World>, t: Taken, after: nat, before: nat) {
    && before <= |ws| && |t.times| == 4
    && after <= t.times[0] < t.times[1] < t.times[2] < t.times[3] < before
    && t.delivery.includeMedia == ws[t.times[0]].privacy.sources.media
    && t.delivery.read1 == ws[t.times[1]].privacy
    && t.delivery.read2 == ws[t.times[2]].privacy
    && t.delivery.read3 == ws[t.times[3]].privacy
  }

  // An accepted click, in the order in which it went: the preview that was stored, the gate under the
  // fingerprint the UI sent, a capture showing the same, the gate holding exactly that confirmation,
  // then after the write another capture showing the same, the policy itself under the fingerprint,
  // and the gate once more.
  lemma AcceptedInOrder(ws: seq<World>, acts: seq<Action>, i: nat, id: TaskId)
    requires IsRun(ws, acts) && i <= |acts| && id in ws[i].tasks
    requires ws[i].tasks[id].Returned? && ws[i].tasks[id].result.Ok?
    ensures var l := ws[i].tasks[id].log;
            && l.checkedAt < l.shownAt < l.gateAt < l.validatedAt < l.policyAt < l.revalidatedAt < i
            && TookPlace(ws, l.first, l.gateAt + 1, l.validatedAt)
                 && TookPlace(ws, l.second, l.validatedAt + 1, l.policyAt)
            && ws[l.checkedAt].enabled.Some? && l.shown == ws[l.shownAt].preview && l.shown.Some?
            && ws[l.gateAt].gate.currentFingerprint == l.uiFingerprint
            && var displayed := l.shown.value.projection;
               && Seen(l.first) == displayed && Seen(l.second) == displayed
               && ws[l.validatedAt].gate == Gate(l.uiFingerprint, Some(Confirmation(l.uiFingerprint, displayed)))
               && ws[l.revalidatedAt].gate == ws[l.validatedAt].gate
               && Preimage(ws[l.policyAt].privacy) == l.uiFingerprint
  {
    FactsHold(ws, acts, i, id);
    hide ConfirmOutcome, ClickOf, Preimage, Shown;
  }

  // Step `r` records a refresh's projection, under the gate's fingerprint of that moment.
  predicate Records(w: World, a: Action, c: Confirmation) {
    && a.Advance? && a.id in w.tasks && w.tasks[a.id].Refresh? && w.tasks[a.id].refreshPoint.Recording?
    && c == Confirmation(w.gate.currentFingerprint, Seen(w.tasks[a.id].taken))
  }

  lemma GateMoves(w: World, a: Action)
    requires CanStep(w, a) && Step(w, a).gate != w.gate
    ensures var next := Step(w, a).gate;
            next.confirmation.Some? ==>
              && Records(w, a, next.confirmation.value)
              && next.confirmation.value.policyFingerprint == next.currentFingerprint
  {
    hide Preimage, Shown, NextTask;
  }

  ghost predicate Stood(ws: seq<World>, from: nat, to: nat)
    requires to < |ws|
  {
    forall m :: from <= m <= to ==> ws[m].gate == ws[to].gate
  }

  // The history of a confirmation: a refresh recorded it, and the gate has not moved since.
  lemma {:induction false} ConfirmedWasRecorded(ws: seq<World>, acts: seq<Action>, k: nat, c: Confirmation)
    returns (r: nat)
    requires IsRun(ws, acts) && k <= |acts| && ws[k].gate.confirmation == Some(c)
    ensures r < k && Records(ws[r], acts[r], c) && Stood(ws, r + 1, k)
    ensures ws[k].gate.currentFingerprint == c.policyFingerprint
  {
    hide After, Preimage, Seen, Records, CanStep;
    assert k > 0;
    assert Linked(ws, acts, k - 1);
    if ws[k].gate == ws[k - 1].gate {
      r := ConfirmedWasRecorded(ws, acts, k - 1, c);
    } else {
      GateMoves(ws[k - 1], acts[k - 1]);
      r := k - 1;
    }
  }

  lemma RecordingTookPlace(ws: seq<World>, acts: seq<Action>, r: nat, id: TaskId)
    requires IsRun(ws, acts) && r <= |acts| && id in ws[r].tasks
    requires ws[r].tasks[id].Refresh? && ws[r].tasks[id].refreshPoint.Recording?
    ensures TookPlace(ws, ws[r].tasks[id].taken, 0, r)
  {
    FactsHold(ws, acts, r, id);
    hide ConfirmOutcome, ClickOf, Preimage, Shown;
  }

  // What an accepted click displayed was captured by a refresh of the run, recorded under the clicked
  // policy, and the gate did not move from that record to the last check.
  lemma AcceptedStood(ws: seq<World>, acts: seq<Action>, i: nat, id: TaskId) returns (r: nat)
    requires IsRun(ws, acts) && i <= |acts| && id in ws[i].tasks
    requires ws[i].tasks[id].Returned? && ws[i].tasks[id].result.Ok?
    ensures var l := ws[i].tasks[id].log;
            && l.shown.Some? && r < l.revalidatedAt < i && Stood(ws, r + 1, l.revalidatedAt)
            && Records(ws[r], acts[r], Confirmation(l.uiFingerprint, l.shown.value.projection))
            && TookPlace(ws, ws[r].tasks[acts[r].id].taken, 0, r)
  {
    AcceptedInOrder(ws, acts, i, id);
    var l := ws[i].tasks[id].log;
    hide Seen, Preimage, TookPlace, After;
    r := ConfirmedWasRecorded(ws, acts, l.revalidatedAt, Confirmation(l.uiFingerprint, l.shown.value.projection));
    RecordingTookPlace(ws, acts, r, acts[r].id);
  }

  // ---- the flag -----------------------------------------------------------------------------------

  // One click, and no other lifecycle command.
  ghost predicate OnlyClick(acts: seq<Action>, id: TaskId) {
    forall k :: 0 <= k < |acts| ==> (acts[k].BeginClick? ==> acts[k].id == id) && !acts[k].WriteConnection?
  }

  predicate IsClick(t: Task) {
    t.Confirm? || t.Returned? || (t.Refresh? && t.rejected.Some?)
  }

  // Between its two writes, after an acceptance, and after a rollback that could not be written.
  predicate HoldsFlag(t: Task) {
    match t
    case Confirm(_, at) => at.SecondCapture? || at.RereadingPolicy? || at.Revalidating? || at.RollingBack?
    case Returned(result, l) => result.Ok? || (result == Err(Internal) && l.enableWrites)
    case _ => false
  }

  lemma StepMovesTheFlag(w: World, t: Task, writes: bool, sensors: Delivery)
    requires !IsDone(t) && w.enabled.Some?
    requires t.Confirm? && t.at.RollingBack? ==> t.log.enableWrites
    ensures IsClick(NextTask(w, t, writes, sensors)) <==> IsClick(t)
    ensures ConsentRuns.Shared(w, t, writes).enabled ==
            if !IsClick(t) then w.enabled
            else if HoldsFlag(NextTask(w, t, writes, sensors)) == HoldsFlag(t) then w.enabled
            else Some(HoldsFlag(NextTask(w, t, writes, sensors)))
  {
    hide Confirms, Preimage, Seen, ReadNext;
  }

  // Through all edits, checks and refreshes around it, the flag is on exactly while the click holds it.
  lemma {:induction false} FlagFollowsTheClick(ws: seq<World>, acts: seq<Action>, i: nat, id: TaskId)
    requires IsRun(ws, acts) && i <= |acts| && OnlyClick(acts, id) && ws[0].enabled == Some(false)
    ensures ws[i].enabled == Some(id in ws[i].tasks && HoldsFlag(ws[i].tasks[id]))
    ensures forall other <- ws[i].tasks :: IsClick(ws[i].tasks[other]) ==> other == id
  {
    hide NextTask, Shared, Preimage;
    if i > 0 {
      FlagFollowsTheClick(ws, acts, i - 1, id);
      assert Linked(ws, acts, i - 1);
      var w, a := ws[i - 1], acts[i - 1];
      if a.Advance? {
        RollbackWasWritten(ws, acts, i - 1, a.id);
        StepMovesTheFlag(w, w.tasks[a.id], a.writes, a.sensors);
      }
    }
  }

  lemma RollbackWasWritten(ws: seq<World>, acts: seq<Action>, i: nat, id: TaskId)
    requires IsRun(ws, acts) && i <= |acts| && id in ws[i].tasks
    ensures var t := ws[i].tasks[id]; t.Confirm? && t.at.RollingBack? ==> t.log.enableWrites
  {
    FactsHold(ws, acts, i, id);
    hide ConfirmOutcome, ClickOf, Preimage, Shown, Follows, Confirms;
  }

  // When the click has returned, the flag is on exactly if it was accepted or the rollback could not
  // be written; it stays so until another lifecycle command.
  lemma FlagOnlyIfAccepted(ws: seq<World>, acts: seq<Action>, i: nat, id: TaskId)
    requires IsRun(ws, acts) && i <= |acts| && OnlyClick(acts, id) && ws[0].enabled == Some(false)
    requires id in ws[i].tasks && ws[i].tasks[id].Returned?
    ensures var t := ws[i].tasks[id];
            ws[i].enabled == Some(
              || t.result.Ok?
              || (t.result == Err(Internal) && t.log.enableWrites && !t.log.rollbackWrites))
    ensures var t := ws[i].tasks[id];
            InRange(ws, t.log) && (t.result != Err(NotPaired) ==>
              ws[i].enabled == ConfirmOutcome(Some(false), ClickOf(ws, t.log)).1)
  {
    FlagFollowsTheClick(ws, acts, i, id);
    ReturnsItsOutcome(ws, acts, i, id);
    DisabledUnlessAccepted(ClickOf(ws, ws[i].tasks[id].log));
    hide PassesFirst, PassesSecond;
  }

  // ---- the gate and the policy ------------------------------------------------------------------------

  predicate ChecksPolicy(t: Task) {
    t.Check? && !t.checkPoint.Checked?
  }

  ghost predicate AtRest(w: World) {
    forall id <- w.tasks :: !ChecksPolicy(w.tasks[id])
  }

  // Every edit's check is over before the next edit.
  ghost predicate EditsOneByOne(ws: seq<World>, acts: seq<Action>)
    requires |ws| == |acts| + 1
  {
    forall k :: 0 <= k < |acts| && acts[k].EditPolicy? ==> AtRest(ws[k])
  }

  // What the check in flight knows.
  predicate CheckKnows(w: World, at: CheckPoint) {
    match at
    case ReadingPolicy => true
    case Comparing(fingerprint, _) => fingerprint == Preimage(w.privacy)
    case _ => w.gate.currentFingerprint == Preimage(w.privacy)
  }

  ghost predicate GateTracks(w: World) {
    && (forall a <- w.tasks, b <- w.tasks :: ChecksPolicy(w.tasks[a]) && ChecksPolicy(w.tasks[b]) ==> a == b)
    && (forall id <- w.tasks :: ChecksPolicy(w.tasks[id]) ==> CheckKnows(w, w.tasks[id].checkPoint))
    && (AtRest(w) ==> w.gate.currentFingerprint == Preimage(w.privacy))
  }

  lemma NoNewCheck(w: World, t: Task, writes: bool, sensors: Delivery)
    requires !IsDone(t) && !t.Check?
    ensures !NextTask(w, t, writes, sensors).Check?
    ensures ConsentRuns.Shared(w, t, writes).gate.currentFingerprint == w.gate.currentFingerprint
    ensures ConsentRuns.Shared(w, t, writes).privacy == w.privacy
  {
    hide Preimage, Seen, Confirms, ReadNext;
  }

  // A step that is neither an edit nor one of a check.
  lemma OtherStepsTrack(w: World, a: Action)
    requires GateTracks(w) && CanStep(w, a) && !a.EditPolicy?
    requires a.Advance? ==> !ChecksPolicy(w.tasks[a.id])
    ensures GateTracks(Step(w, a))
  {
    hide Preimage, NextTask, ConsentRuns.Shared, Seen, CheckKnows;
    if a.Advance? {
      NoNewCheck(w, w.tasks[a.id], a.writes, a.sensors);
    }
    var next := Step(w, a);
    forall id ensures (id in next.tasks && ChecksPolicy(next.tasks[id])) <==>
                      (id in w.tasks && ChecksPolicy(w.tasks[id])) {
    }
    CheckKnowsTheSame(w, next);
  }

  lemma CheckKnowsTheSame(w: World, next: World)
    ensures next.privacy == w.privacy && next.gate.currentFingerprint == w.gate.currentFingerprint ==>
              forall at :: CheckKnows(w, at) <==> CheckKnows(next, at)
  {
    hide Preimage;
  }

  lemma EditTracks(w: World, id: TaskId, policy: PrivacyConfig)
    requires AtRest(w) && CanStep(w, EditPolicy(id, policy))
    ensures GateTracks(Step(w, EditPolicy(id, policy)))
  {
    hide Preimage;
    var next := Step(w, EditPolicy(id, policy));
    assert ChecksPolicy(next.tasks[id]);
  }

  lemma NotAtRest(w: World, id: TaskId)
    requires id in w.tasks && ChecksPolicy(w.tasks[id])
    ensures !AtRest(w)
  {
  }

  lemma InitialTracks(w: World)
    requires Initial(w)
    ensures GateTracks(w)
  {
    hide Preimage;
  }

  lemma CheckTracks(w: World, id: TaskId, writes: bool, sensors: Delivery)
    requires GateTracks(w) && CanStep(w, Advance(id, writes, sensors)) && ChecksPolicy(w.tasks[id])
    ensures GateTracks(Step(w, Advance(id, writes, sensors)))
  {
    hide Preimage, AtRest;
    var next := Step(w, Advance(id, writes, sensors));
    assert next.tasks == w.tasks[id := Check(NextCheck(w, w.tasks[id].checkPoint))];
    assert CheckKnows(w, w.tasks[id].checkPoint);
    if next.tasks[id].checkPoint.Checked? {
      assert next.gate.currentFingerprint == Preimage(next.privacy);
    } else {
      NotAtRest(next, id);
    }
  }

  // When edits come one by one, the gate's fingerprint is that of the policy whenever no check is in
  // flight, and only the check in flight can be behind.
  lemma {:induction false} GateFollowsPolicy(ws: seq<World>, acts: seq<Action>, i: nat)
    requires IsRun(ws, acts) && i <= |acts| && EditsOneByOne(ws, acts)
    ensures GateTracks(ws[i])
  {
    hide GateTracks, AtRest, CheckKnows, Preimage, Seen, NextTask;
    if i == 0 {
      InitialTracks(ws[0]);
    } else {
      GateFollowsPolicy(ws, acts, i - 1);
      assert Linked(ws, acts, i - 1);
      var w, a := ws[i - 1], acts[i - 1];
      if a.EditPolicy? {
        EditTracks(w, a.id, a.policy);
      } else if a.Advance? && ChecksPolicy(w.tasks[a.id]) {
        CheckTracks(w, a.id, a.writes, a.sensors);
      } else {
        OtherStepsTrack(w, a);
      }
    }
  }

  // A confirmation that stands at rest was given under the policy in force.
  lemma StandingConsentIsCurrent(ws: seq<World>, acts: seq<Action>, i: nat, c: Confirmation)
    requires IsRun(ws, acts) && i <= |acts| && EditsOneByOne(ws, acts) && AtRest(ws[i])
    requires ws[i].gate.confirmation == Some(c)
    ensures c.policyFingerprint == Preimage(ws[i].privacy)
  {
    GateFollowsPolicy(ws, acts, i);
    var r := ConfirmedWasRecorded(ws, acts, i, c);
    hide Preimage, Seen;
  }

  predicate Compares(w: World, a: Action) {
    a.Advance? && a.id in w.tasks && w.tasks[a.id].Check? && w.tasks[a.id].checkPoint.Comparing?
  }

  // The latest comparison before `i`.
  ghost predicate ComparedLast(ws: seq<World>, acts: seq<Action>, k: nat, i: nat)
    requires i <= |acts| < |ws|
  {
    k < i && Compares(ws[k], acts[k]) && forall m :: k < m < i ==> !Compares(ws[m], acts[m])
  }

  lemma OnlyComparisonsMoveTheFingerprint(w: World, a: Action)
    requires CanStep(w, a)
    ensures Step(w, a).gate.currentFingerprint ==
            if Compares(w, a) then w.tasks[a.id].checkPoint.fingerprint else w.gate.currentFingerprint
  {
    hide Preimage, Seen, NextTask;
  }

  // In every run, edits overlapping or not: the gate's fingerprint is that of the policy which the
  // check that compared last had read, however long ago. So the gate follows the policy exactly when
  // that policy has the fingerprint of the present one.
  lemma {:induction false} GateFollowsTheLastComparison(ws: seq<World>, acts: seq<Action>, k: nat, i: nat)
    requires IsRun(ws, acts) && i <= |acts| && ComparedLast(ws, acts, k, i)
    ensures var at := ws[k].tasks[acts[k].id].checkPoint;
            && at.readAt < k
            && ws[i].gate.currentFingerprint == Preimage(ws[at.readAt].privacy)
  {
    hide Preimage, Seen, ConsentRuns.After;
    assert Linked(ws, acts, i - 1);
    OnlyComparisonsMoveTheFingerprint(ws[i - 1], acts[i - 1]);
    if k == i - 1 {
      FactsHold(ws, acts, k, acts[k].id);
    } else {
      GateFollowsTheLastComparison(ws, acts, k, i - 1);
    }
  }

  // Two overlapping edits leave it behind: the first one's check reads the policy, the policy is put
  // back, the second one's check finds nothing changed, and the first one's check then compares.
  lemma OverlappingChecksLeaveTheGateBehind(w: World, other: PrivacyConfig, sensors: Delivery)
    requires Initial(w) && Preimage(other) != Preimage(w.privacy)
    ensures var acts := [
              EditPolicy(0, other), Advance(0, true, sensors),
              EditPolicy(1, w.privacy), Advance(1, true, sensors), Advance(1, true, sensors),
              Advance(0, true, sensors), Advance(0, true, sensors), Advance(0, true, sensors)];
            exists ws: seq<World> :: IsRun(ws, acts) && AtRest(ws[8]) && ws[8].privacy == w.privacy
              && ws[8].gate.currentFingerprint == Preimage(other)
  {
    hide Preimage, Seen, NextClick, NextRefresh, Flagged, FreshLog;
    var w1 := Step(w, EditPolicy(0, other));
    var w2 := Step(w1, Advance(0, true, sensors));
    var w3 := Step(w2, EditPolicy(1, w.privacy));
    var w4 := Step(w3, Advance(1, true, sensors));
    var w5 := Step(w4, Advance(1, true, sensors));
    var w6 := Step(w5, Advance(0, true, sensors));
    var w7 := Step(w6, Advance(0, true, sensors));
    var w8 := Step(w7, Advance(0, true, sensors));
    var acts := [
              EditPolicy(0, other), Advance(0, true, sensors),
              EditPolicy(1, w.privacy), Advance(1, true, sensors), Advance(1, true, sensors),
              Advance(0, true, sensors), Advance(0, true, sensors), Advance(0, true, sensors)];
    var ws := [w, w1, w2, w3, w4, w5, w6, w7, w8];
    assert IsRun(ws, acts);
  }

  lemma AcceptedUnderOnePolicy(ws: seq<World>, acts: seq<Action>, i: nat, id: TaskId)
    requires IsRun(ws, acts) && i <= |acts| && id in ws[i].tasks
    requires ws[i].tasks[id].Returned? && ws[i].tasks[id].result.Ok?
    ensures var l := ws[i].tasks[id].log;
            && l.policyAt < l.revalidatedAt < i
            && ws[l.revalidatedAt].gate.currentFingerprint == Preimage(ws[l.policyAt].privacy)
  {
    hide Preimage, Seen, TookPlace, IsRun;
    AcceptedInOrder(ws, acts, i, id);
  }

  // And while it is behind, no click is accepted.
  lemma NothingAcceptedBehind(ws: seq<World>, acts: seq<Action>, from: nat, i: nat, id: TaskId)
    requires IsRun(ws, acts) && from < i <= |acts| && id in ws[i].tasks && ws[i].tasks[id].Returned?
    requires from <= ws[i].tasks[id].log.policyAt
    requires forall m :: from <= m < i ==>
               && ws[m].privacy == ws[from].privacy
               && ws[m].gate.currentFingerprint == ws[from].gate.currentFingerprint
    requires ws[from].gate.currentFingerprint != Preimage(ws[from].privacy)
    ensures !ws[i].tasks[id].result.Ok?
  {
    hide Preimage;
    if ws[i].tasks[id].result.Ok? {
      AcceptedUnderOnePolicy(ws, acts, i, id);
    }
  }
}
