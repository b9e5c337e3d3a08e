/** That consent can be given: what each task does when nothing else runs, and that it is enough. */
module ConsentProgress {
  import opened Capture
  import opened Consent
  import opened ConsentGates
  import opened ConsentRuns
  import opened Fingerprint
  import opened Model
  import opened Options

  // Up to `n` steps of one task, and none of any other; every write succeeds.
  function Alone(w: World, id: TaskId, sensors: Delivery, n: nat): World
    decreases n
  {
    if n == 0 || !CanStep(w, Advance(id, true, sensors)) then w
    else Alone(Step(w, Advance(id, true, sensors)), id, sensors, n - 1)
  }

  lemma {:induction false} AloneGoesOn(w: World, id: TaskId, sensors: Delivery, m: nat, n: nat)
    ensures Alone(w, id, sensors, m + n) == Alone(Alone(w, id, sensors, m), id, sensors, n)
    decreases m
  {
    hide Step, CanStep;
    if m != 0 && CanStep(w, Advance(id, true, sensors)) {
      AloneGoesOn(Step(w, Advance(id, true, sensors)), id, sensors, m - 1, n);
      assert (m - 1) + n == m + n - 1;
    } else if m != 0 {
      assert Alone(w, id, sensors, n) == w;
    }
  }

  lemma AloneOnce(w: World, id: TaskId, sensors: Delivery)
    requires CanStep(w, Advance(id, true, sensors))
    ensures Alone(w, id, sensors, 1) == Step(w, Advance(id, true, sensors))
  {
    assert Alone(Step(w, Advance(id, true, sensors)), id, sensors, 0) == Step(w, Advance(id, true, sensors));
  }

  lemma AloneFourTimes(w: World, w1: World, w2: World, w3: World, w4: World, id: TaskId, sensors: Delivery)
    requires var a := Advance(id, true, sensors);
             && CanStep(w, a) && w1 == Step(w, a) && CanStep(w1, a) && w2 == Step(w1, a)
             && CanStep(w2, a) && w3 == Step(w2, a) && CanStep(w3, a) && w4 == Step(w3, a)
    ensures Alone(w, id, sensors, 4) == w4
  {
    hide Step, CanStep;
    assert Alone(w4, id, sensors, 0) == w4;
    assert Alone(w3, id, sensors, 1) == w4;
    assert Alone(w2, id, sensors, 2) == w4;
    assert Alone(w1, id, sensors, 3) == w4;
  }

  // A capture that reads one policy throughout.
  function Under(d: Delivery, policy: PrivacyConfig): Delivery {
    d.(includeMedia := policy.sources.media, read1 := policy, read2 := policy, read3 := policy)
  }

  function FourFrom(now: nat): seq<nat> {
    [now, now + 1, now + 2, now + 3]
  }

  lemma FourReads(d: Delivery, w: World, w1: World, w2: World, w3: World)
    requires w1.privacy == w.privacy && w2.privacy == w.privacy && w3.privacy == w.privacy
    requires w1.now == w.now + 1 && w2.now == w.now + 2 && w3.now == w.now + 3
    ensures ReadNext(ReadNext(ReadNext(ReadNext(Taken(d, []), w), w1), w2), w3)
            == Taken(Under(d, w.privacy), FourFrom(w.now))
  {
    var taken := ReadNext(ReadNext(ReadNext(ReadNext(Taken(d, []), w), w1), w2), w3);
    assert taken.times == FourFrom(w.now);
  }

  // ---- a refresh -----------------------------------------------------------------------------------------

  lemma RefreshReads(w: World, id: TaskId, sensors: Delivery)
    requires id in w.tasks && w.tasks[id].Refresh? && w.tasks[id].refreshPoint == Taking
    requires |w.tasks[id].taken.times| < 4
    ensures CanStep(w, Advance(id, true, sensors))
    ensures |ReadNext(w.tasks[id].taken, w).times| == |w.tasks[id].taken.times| + 1
    ensures var taken := ReadNext(w.tasks[id].taken, w);
            Step(w, Advance(id, true, sensors)) == w.(now := w.now + 1, tasks := w.tasks[
              id := Refresh(taken, if |taken.times| < 4 then Taking else Recording, w.tasks[id].rejected)])
  {
  }

  lemma RefreshCaptures(w: World, id: TaskId, d: Delivery, rejected: Option<ClickLog>, sensors: Delivery)
    requires id in w.tasks && w.tasks[id] == Refresh(Taken(d, []), Taking, rejected)
    ensures Alone(w, id, sensors, 4) ==
            w.(now := w.now + 4, tasks := w.tasks[
                 id := Refresh(Taken(Under(d, w.privacy), FourFrom(w.now)), Recording, rejected)])
  {
    hide Alone, Step, CanStep, ReadNext, FourFrom, Under;
    var a := Advance(id, true, sensors);
    RefreshReads(w, id, sensors);
    var w1 := Step(w, a);
    RefreshReads(w1, id, sensors);
    var w2 := Step(w1, a);
    RefreshReads(w2, id, sensors);
    var w3 := Step(w2, a);
    RefreshReads(w3, id, sensors);
    var w4 := Step(w3, a);
    FourReads(d, w, w1, w2, w3);
    AloneFourTimes(w, w1, w2, w3, w4, id, sensors);
  }

  lemma RefreshStores(w: World, id: TaskId, taken: Taken, sensors: Delivery) returns (end: World)
    requires id in w.tasks && w.tasks[id] == Refresh(taken, Recording, None)
    ensures end == Alone(w, id, sensors, 2) && id in end.tasks && IsDone(end.tasks[id])
    ensures var fingerprint := w.gate.currentFingerprint;
            end == w.(now := w.now + 2, tasks := w.tasks[id := end.tasks[id]],
                      gate := Gate(fingerprint, Some(Confirmation(fingerprint, Seen(taken)))),
                      preview := Some(Preview(Seen(taken), fingerprint, taken.delivery.observedAt)))
  {
    hide Seen, Alone;
    AloneOnce(w, id, sensors);
    var recorded := Step(w, Advance(id, true, sensors));
    AloneOnce(recorded, id, sensors);
    end := Step(recorded, Advance(id, true, sensors));
    AloneGoesOn(w, id, sensors, 1, 1);
  }

  // A refresh that nothing disturbs records what it shows under the gate's policy and stores it.
  lemma RefreshRecordsAndStores(w: World, id: TaskId, d: Delivery) returns (end: World)
    requires id !in w.tasks
    ensures end == Alone(Step(w, BeginRefresh(id, d)), id, d, 6) && id in end.tasks && IsDone(end.tasks[id])
    ensures var shown := Shown(Under(d, w.privacy), w.privacy.sources.media);
            end == w.(now := w.now + 7, tasks := w.tasks[id := end.tasks[id]],
                      gate := Gate(w.gate.currentFingerprint, Some(Confirmation(w.gate.currentFingerprint, shown))),
                      preview := Some(Preview(shown, w.gate.currentFingerprint, d.observedAt)))
  {
    hide Shown, Alone;
    var begun := Step(w, BeginRefresh(id, d));
    RefreshCaptures(begun, id, d, None, d);
    var taken := Taken(Under(d, w.privacy), FourFrom(begun.now));
    end := RefreshStores(Alone(begun, id, d, 4), id, taken, d);
    AloneGoesOn(begun, id, d, 4, 2);
  }

  // ---- an edit -----------------------------------------------------------------------------------------

  lemma CheckCompares(w: World, id: TaskId, d: Delivery) returns (end: World)
    requires id in w.tasks && w.tasks[id] == Check(ReadingPolicy)
    ensures end == Alone(w, id, d, 2) && id in end.tasks
    ensures end.tasks[id] ==
            Check(if Preimage(w.privacy) == w.gate.currentFingerprint then Checked else DroppingPreview)
    ensures end == w.(now := w.now + 2, tasks := w.tasks[id := end.tasks[id]],
                      gate := if Preimage(w.privacy) == w.gate.currentFingerprint then w.gate
                              else Gate(Preimage(w.privacy), None))
  {
    hide Preimage, Alone;
    var read := Step(w, Advance(id, true, d));
    AloneOnce(w, id, d);
    end := Step(read, Advance(id, true, d));
    AloneOnce(read, id, d);
    AloneGoesOn(w, id, d, 1, 1);
  }

  lemma CheckInvalidates(w: World, id: TaskId, d: Delivery) returns (end: World)
    requires id in w.tasks && w.tasks[id] == Check(DroppingPreview)
    ensures end == Alone(w, id, d, 2)
    ensures end == w.(now := w.now + 2, tasks := w.tasks[id := Check(Checked)], preview := None,
                      republishes := w.republishes + 1)
  {
    hide Alone;
    var dropped := Step(w, Advance(id, true, d));
    AloneOnce(w, id, d);
    end := Step(dropped, Advance(id, true, d));
    AloneOnce(dropped, id, d);
    AloneGoesOn(w, id, d, 1, 1);
  }

  // An edit whose check nothing disturbs brings the gate under the new policy. If that is an effective
  // change the confirmation and the preview go and a fresh snapshot is asked for; otherwise they stay.
  lemma EditIsFollowed(w: World, id: TaskId, policy: PrivacyConfig, d: Delivery) returns (end: World)
    requires id !in w.tasks
    ensures end == Alone(Step(w, EditPolicy(id, policy)), id, d, 4)
    ensures if Preimage(policy) == w.gate.currentFingerprint
            then end == w.(now := w.now + 3, privacy := policy, tasks := w.tasks[id := Check(Checked)])
            else end == w.(now := w.now + 5, privacy := policy, tasks := w.tasks[id := Check(Checked)],
                           gate := Gate(Preimage(policy), None), preview := None, republishes := w.republishes + 1)
  {
    hide Preimage;
    var begun := Step(w, EditPolicy(id, policy));
    var compared := CheckCompares(begun, id, d);
    end := compared;
    if Preimage(policy) != w.gate.currentFingerprint {
      end := CheckInvalidates(compared, id, d);
    }
    AloneGoesOn(begun, id, d, 2, 2);
  }

  // ---- a click -------------------------------------------------------------------------------------------

  // `w` with the click `id` at this point of its way, and nothing else changed since `from` but the time.
  ghost predicate IsClickAt(from: World, steps: nat, w: World, id: TaskId, at: ClickPoint) {
    && id in w.tasks && w.tasks[id].Confirm? && w.tasks[id].at == at
    && w == from.(now := from.now + steps, tasks := from.tasks[id := w.tasks[id]])
  }

  // The displayed preview is stored, the gate stands by it, and the policy it was shown under is in force.
  ghost predicate Displays(w: World, uiFingerprint: string) {
    && w.preview.Some? && w.gate == Gate(uiFingerprint, Some(Confirmation(uiFingerprint, w.preview.value.projection)))
    && uiFingerprint == Preimage(w.privacy)
  }

  lemma ClickReachesCapture(w: World, id: TaskId, ui: string, d: Delivery) returns (end: World)
    requires id !in w.tasks && w.enabled.Some? && Displays(w, ui)
    ensures end == Alone(Step(w, BeginClick(id, ui, d)), id, d, 3)
    ensures IsClickAt(w, 4, end, id, FirstCapture)
    ensures var l := end.tasks[id].log; l.uiFingerprint == ui && l.shown == w.preview && l.first == Taken(d, [])
  {
    hide Preimage, Alone;
    var begun := Step(w, BeginClick(id, ui, d));
    AloneOnce(begun, id, d);
    var checked := Step(begun, Advance(id, true, d));
    AloneOnce(checked, id, d);
    var read := Step(checked, Advance(id, true, d));
    AloneOnce(read, id, d);
    end := Step(read, Advance(id, true, d));
    AloneGoesOn(begun, id, d, 1, 1);
    AloneGoesOn(begun, id, d, 2, 1);
  }

  lemma FirstCaptureReads(w: World, id: TaskId, sensors: Delivery)
    requires id in w.tasks && w.tasks[id].Confirm? && w.tasks[id].at == FirstCapture
    requires |w.tasks[id].log.first.times| < 4
    ensures CanStep(w, Advance(id, true, sensors))
    ensures |ReadNext(w.tasks[id].log.first, w).times| == |w.tasks[id].log.first.times| + 1
    ensures var taken := ReadNext(w.tasks[id].log.first, w);
            Step(w, Advance(id, true, sensors)) == w.(now := w.now + 1, tasks := w.tasks[
              id := Confirm(w.tasks[id].log.(first := taken),
                            if |taken.times| < 4 then FirstCapture else Validating)])
  {
  }

  lemma FirstCaptures(w: World, id: TaskId, l: ClickLog, d: Delivery, sensors: Delivery)
    requires id in w.tasks && w.tasks[id] == Confirm(l, FirstCapture) && l.first == Taken(d, [])
    ensures Alone(w, id, sensors, 4) ==
            w.(now := w.now + 4, tasks := w.tasks[
                 id := Confirm(l.(first := Taken(Under(d, w.privacy), FourFrom(w.now))), Validating)])
  {
    hide Alone, Step, CanStep, ReadNext, FourFrom, Under;
    var a := Advance(id, true, sensors);
    FirstCaptureReads(w, id, sensors);
    var w1 := Step(w, a);
    FirstCaptureReads(w1, id, sensors);
    var w2 := Step(w1, a);
    FirstCaptureReads(w2, id, sensors);
    var w3 := Step(w2, a);
    FirstCaptureReads(w3, id, sensors);
    var w4 := Step(w3, a);
    FourReads(d, w, w1, w2, w3);
    AloneFourTimes(w, w1, w2, w3, w4, id, sensors);
  }

  lemma SecondCaptureReads(w: World, id: TaskId, sensors: Delivery)
    requires id in w.tasks && w.tasks[id].Confirm? && w.tasks[id].at == SecondCapture
    requires |w.tasks[id].log.second.times| < 4
    ensures CanStep(w, Advance(id, true, sensors))
    ensures |ReadNext(w.tasks[id].log.second, w).times| == |w.tasks[id].log.second.times| + 1
    ensures var taken := ReadNext(w.tasks[id].log.second, w);
            Step(w, Advance(id, true, sensors)) == w.(now := w.now + 1, tasks := w.tasks[
              id := Confirm(w.tasks[id].log.(second := taken),
                            if |taken.times| < 4 then SecondCapture else RereadingPolicy)])
  {
  }

  lemma SecondCaptures(w: World, id: TaskId, l: ClickLog, d: Delivery, sensors: Delivery)
    requires id in w.tasks && w.tasks[id] == Confirm(l, SecondCapture) && l.second == Taken(d, [])
    ensures Alone(w, id, sensors, 4) ==
            w.(now := w.now + 4, tasks := w.tasks[
                 id := Confirm(l.(second := Taken(Under(d, w.privacy), FourFrom(w.now))), RereadingPolicy)])
  {
    hide Alone, Step, CanStep, ReadNext, FourFrom, Under;
    var a := Advance(id, true, sensors);
    SecondCaptureReads(w, id, sensors);
    var w1 := Step(w, a);
    SecondCaptureReads(w1, id, sensors);
    var w2 := Step(w1, a);
    SecondCaptureReads(w2, id, sensors);
    var w3 := Step(w2, a);
    SecondCaptureReads(w3, id, sensors);
    var w4 := Step(w3, a);
    FourReads(d, w, w1, w2, w3);
    AloneFourTimes(w, w1, w2, w3, w4, id, sensors);
  }

  lemma ClickEnables(w: World, steps: nat, at: World, id: TaskId, ui: string, d: Delivery, d2: Delivery)
    returns (validated: World, end: World)
    requires IsClickAt(w, steps, at, id, Validating) && w.enabled.Some? && Displays(w, ui)
    requires var l := at.tasks[id].log;
             l.uiFingerprint == ui && l.shown == w.preview && Seen(l.first) == w.preview.value.projection
    ensures validated == Alone(at, id, d, 1) && end == Alone(validated, id, d2, 1)
    ensures IsClickAt(w.(enabled := Some(true)), steps + 2, end, id, SecondCapture)
    ensures var l := end.tasks[id].log;
            l.uiFingerprint == ui && l.shown == w.preview && l.second == Taken(d2, [])
  {
    hide Preimage, Shown, Seen, Alone;
    validated := Step(at, Advance(id, true, d));
    AloneOnce(at, id, d);
    end := Step(validated, Advance(id, true, d2));
    AloneOnce(validated, id, d2);
  }

  lemma ClickReturns(w: World, steps: nat, at: World, id: TaskId, ui: string, d: Delivery) returns (end: World)
    requires IsClickAt(w, steps, at, id, RereadingPolicy) && Displays(w, ui)
    requires var l := at.tasks[id].log;
             l.uiFingerprint == ui && l.shown == w.preview && Seen(l.second) == w.preview.value.projection
    ensures end == Alone(at, id, d, 2) && id in end.tasks
    ensures end.tasks[id].Returned? && end.tasks[id].result == Ok(())
    ensures end == w.(now := w.now + steps + 2, tasks := w.tasks[id := end.tasks[id]])
  {
    hide Preimage, Shown, Seen, Alone;
    var reread := Step(at, Advance(id, true, d));
    AloneOnce(at, id, d);
    end := Step(reread, Advance(id, true, d));
    AloneOnce(reread, id, d);
    AloneGoesOn(at, id, d, 1, 1);
  }

  lemma ClickIsValidated(w: World, id: TaskId, ui: string, d: Delivery, d2: Delivery)
    returns (enabling: World, enabled: World)
    requires id !in w.tasks && w.enabled.Some? && Displays(w, ui)
    requires Shown(Under(d, w.privacy), w.privacy.sources.media) == w.preview.value.projection
    ensures enabling == Alone(Step(w, BeginClick(id, ui, d)), id, d, 8) && enabled == Alone(enabling, id, d2, 1)
    ensures IsClickAt(w.(enabled := Some(true)), 10, enabled, id, SecondCapture)
    ensures var l := enabled.tasks[id].log; l.uiFingerprint == ui && l.shown == w.preview && l.second == Taken(d2, [])
  {
    hide Preimage, Shown, Alone, Step;
    var begun := Step(w, BeginClick(id, ui, d));
    var reached := ClickReachesCapture(w, id, ui, d);
    FirstCaptures(reached, id, reached.tasks[id].log, d, d);
    var captured := Alone(reached, id, d, 4);
    enabling, enabled := ClickEnables(w, 8, captured, id, ui, d, d2);
    AloneGoesOn(begun, id, d, 3, 4);
    AloneGoesOn(begun, id, d, 7, 1);
  }

  // A click on what is displayed, while nothing disturbs it and its two captures show the same, is
  // accepted and leaves the flag on.
  lemma ClickIsAccepted(w: World, id: TaskId, ui: string, d: Delivery, d2: Delivery)
    returns (enabling: World, end: World)
    requires id !in w.tasks && w.enabled.Some? && Displays(w, ui)
    requires Shown(Under(d, w.privacy), w.privacy.sources.media) == w.preview.value.projection
    requires Shown(Under(d2, w.privacy), w.privacy.sources.media) == w.preview.value.projection
    ensures enabling == Alone(Step(w, BeginClick(id, ui, d)), id, d, 8) && end == Alone(enabling, id, d2, 7)
    ensures id in end.tasks && end.tasks[id].Returned? && end.tasks[id].result == Ok(())
    ensures end == w.(now := w.now + 16, enabled := Some(true), tasks := w.tasks[id := end.tasks[id]])
  {
    hide Preimage, Shown, Alone, Step;
    var enabled;
    enabling, enabled := ClickIsValidated(w, id, ui, d, d2);
    SecondCaptures(enabled, id, enabled.tasks[id].log, d2, d2);
    var again := Alone(enabled, id, d2, 4);
    end := ClickReturns(w.(enabled := Some(true)), 14, again, id, ui, d2);
    AloneGoesOn(enabling, id, d2, 1, 4);
    AloneGoesOn(enabling, id, d2, 5, 2);
  }

  // Sharing can always be consented to: on a paired device whose gate is under the policy in force, a
  // refresh and then a click on what it displayed are accepted, provided the three captures, each of
  // which reads that policy, show the same.
  lemma RefreshThenClickIsAccepted(w: World, refresh: TaskId, click: TaskId, d: Delivery, d1: Delivery, d2: Delivery)
    returns (displayed: World, enabling: World, end: World)
    requires refresh !in w.tasks && click !in w.tasks && refresh != click
    requires w.enabled.Some? && w.gate.currentFingerprint == Preimage(w.privacy)
    requires var media := w.privacy.sources.media;
             && Shown(Under(d1, w.privacy), media) == Shown(Under(d, w.privacy), media)
             && Shown(Under(d2, w.privacy), media) == Shown(Under(d, w.privacy), media)
    ensures displayed == Alone(Step(w, BeginRefresh(refresh, d)), refresh, d, 6)
    ensures displayed.preview.Some? && click !in displayed.tasks
    ensures var ui := displayed.preview.value.policyFingerprint;
            && enabling == Alone(Step(displayed, BeginClick(click, ui, d1)), click, d1, 8)
            && end == Alone(enabling, click, d2, 7)
    ensures click in end.tasks && end.tasks[click].Returned? && end.tasks[click].result == Ok(())
    ensures end.enabled == Some(true)
  {
    hide Preimage, Shown, Alone, Step;
    displayed := RefreshRecordsAndStores(w, refresh, d);
    enabling, end := ClickIsAccepted(displayed, click, displayed.preview.value.policyFingerprint, d1, d2);
  }
}
