/**
 Consent across awaits: `companion/service.rs`. Between any two locked segments of a lifecycle
 method other tasks may edit the policy, refresh the preview and use the gate and the tracker;
 what they leave behind is an input (`Elsewhere`). The connection belongs to lifecycle commands.
 */
module Consent {
  import opened Capture
  import opened ConsentGates
  import opened Fingerprint
  import opened FingerprintText
  import opened MediaSessions
  import opened Model
  import opened Options
  import Storage

  datatype Preview = Preview(projection: PreviewProjection, policyFingerprint: string, observedAt: int)

  datatype ServiceError = NotPaired | PreviewOutOfDate | Internal

  datatype Elsewhere = Elsewhere(privacy: PrivacyConfig, preview: Option<Preview>, gate: Gate, tracker: Tracker)

  // What a capture shows the user; the session tracker does not reach it.
  function Shown(d: Delivery, includeMedia: bool): PreviewProjection {
    ProjectionOf(SnapshotOf(d.(includeMedia := includeMedia), Tracker(None, 0)))
  }

  lemma TrackerIsNotShown(d: Delivery, includeMedia: bool, t: Tracker)
    ensures ProjectionOf(SnapshotOf(d.(includeMedia := includeMedia), t)) == Shown(d, includeMedia)
  {
  }

  // One click: the fingerprint the UI sent, what its captures see, what happens in between, and
  // whether the two configuration writes succeed.
  datatype Click = Click(
    uiFingerprint: string,
    beforePreview: Elsewhere,
    beforeGate: Elsewhere,
    beforeCapture: Elsewhere,
    capture: Delivery,
    beforeValidation: Elsewhere,
    enableWrites: bool,
    beforeRecapture: Elsewhere,
    recapture: Delivery,
    beforePolicyRead: Elsewhere,
    beforeRevalidation: Elsewhere,
    rollbackWrites: bool)

  function Candidate(c: Click): Confirmation
    requires c.beforePreview.preview.Some?
  {
    Confirmation(c.uiFingerprint, c.beforePreview.preview.value.projection)
  }

  // The click was on a preview of the current policy, and a fresh capture still shows what it showed.
  predicate PassesFirst(c: Click) {
    && c.beforePreview.preview.Some?
    && c.uiFingerprint == c.beforeGate.gate.currentFingerprint
    && Validates(c.beforeValidation.gate, Candidate(c), Shown(c.capture, c.beforeCapture.privacy.sources.media))
  }

  // After the flag was written, the policy still is the displayed one and a second capture agrees.
  predicate PassesSecond(c: Click)
    requires c.beforePreview.preview.Some?
  {
    && Preimage(c.beforePolicyRead.privacy) == c.uiFingerprint
    && Validates(c.beforeRevalidation.gate, Candidate(c), Shown(c.recapture, c.beforeRecapture.privacy.sources.media))
  }

  // The result, and the stored flag afterwards (absent when unpaired).
  function ConfirmOutcome(enabled: Option<bool>, c: Click): (Result<(), ServiceError>, Option<bool>) {
    if enabled.None? then (Err(NotPaired), None)
    else if !PassesFirst(c) then (Err(PreviewOutOfDate), enabled)
    else if !c.enableWrites then (Err(Internal), enabled)
    else if PassesSecond(c) then (Ok(()), Some(true))
    else if !c.rollbackWrites then (Err(Internal), Some(true))
    else (Err(PreviewOutOfDate), Some(false))
  }

  class CompanionService {
    const gate: ConsentGate
    const capture: CaptureService
    var privacy: PrivacyConfig
    // The connection's liveDeskEnabled, when there is a connection.
    var enabled: Option<bool>
    var preview: Option<Preview>
    // Calls into the coordinator: start, shutdown, request_fresh_snapshot, discard_authority.
    var starts: nat
    var shutdowns: nat
    var republishes: nat
    var discards: nat
    // The devices with a stored credential.
    var credentials: set<string>

    constructor (privacy: PrivacyConfig, enabled: Option<bool>, credentials: set<string>)
      ensures fresh(gate) && fresh(capture) && fresh(capture.tracker)
      ensures this.privacy == privacy && this.enabled == enabled && this.credentials == credentials && preview.None?
      ensures starts == 0 && shutdowns == 0 && republishes == 0 && discards == 0
      ensures gate.State() == Gate(Preimage(privacy), None)
    {
      var fingerprint := PolicyPreimage(privacy);
      gate := new ConsentGate(fingerprint);
      capture := new CaptureService();
      this.privacy := privacy;
      this.enabled := enabled;
      preview := None;
      this.credentials := credentials;
      starts, shutdowns, republishes, discards := 0, 0, 0, 0;
    }

    // A point where any other task may run.
    method OtherTasks(e: Elsewhere)
      modifies this`privacy, this`preview, gate, capture.tracker
      ensures privacy == e.privacy && preview == e.preview && gate.State() == e.gate
                && capture.tracker.State() == e.tracker
    {
      privacy := e.privacy;
      preview := e.preview;
      gate.currentFingerprint := e.gate.currentFingerprint;
      gate.confirmation := e.gate.confirmation;
      capture.tracker.current := e.tracker.current;
      capture.tracker.nextId := e.tracker.nextId;
    }

    // One update of the stored flag: all or nothing.
    method WriteEnabled(value: bool, writes: bool) returns (ok: bool)
      modifies this`enabled
      ensures ok == writes
      ensures enabled == if writes && old(enabled).Some? then Some(value) else old(enabled)
    {
      if writes && enabled.Some? {
        enabled := Some(value);
      }
      return writes;
    }

    // A fresh capture, recorded as the consent basis under the gate's fingerprint of that moment.
    // `recorded` is the gate right after the locked segment.
    method RefreshPreview(d: Delivery, beforeRecord: Elsewhere, beforeStore: Elsewhere)
      returns (refreshed: Preview, ghost recorded: Gate)
      modifies this`privacy, this`preview, gate, capture.tracker
      ensures refreshed == Preview(Shown(d, old(privacy).sources.media), beforeRecord.gate.currentFingerprint,
                d.observedAt)
      ensures recorded == GateStep(beforeRecord.gate, Recorded(refreshed.projection))
      ensures recorded.confirmation == Some(Confirmation(refreshed.policyFingerprint, refreshed.projection))
      ensures preview == Some(refreshed)
      ensures privacy == beforeStore.privacy && gate.State() == beforeStore.gate
    {
      var delivery := d.(includeMedia := privacy.sources.media);
      TrackerIsNotShown(d, privacy.sources.media, capture.tracker.State());
      var snapshot := capture.CaptureForDelivery(delivery);
      OtherTasks(beforeRecord);
      var confirmation := gate.Record(ProjectionOf(snapshot));
      refreshed := Preview(ProjectionOf(snapshot), gate.currentFingerprint, snapshot.observedAt);
      recorded := gate.State();
      OtherTasks(beforeStore);
      preview := Some(refreshed);
    }

    method CapturePolicy(includeMedia: bool, d: Delivery) returns (projection: PreviewProjection)
      modifies capture.tracker
      ensures projection == Shown(d, includeMedia)
    {
      TrackerIsNotShown(d, includeMedia, capture.tracker.State());
      var snapshot := capture.CaptureForDelivery(d.(includeMedia := includeMedia));
      return ProjectionOf(snapshot);
    }

    // The clicked preview is the current one and a fresh capture still matches it.
    method FirstValidation(c: Click) returns (candidate: Option<Confirmation>)
      modifies this`privacy, this`preview, gate, capture.tracker
      ensures candidate == if PassesFirst(c) then Some(Candidate(c)) else None
    {
      OtherTasks(c.beforePreview);
      var shown := preview;
      OtherTasks(c.beforeGate);
      if shown.None? || c.uiFingerprint != gate.currentFingerprint {
        return None;
      }
      var clicked := Confirmation(c.uiFingerprint, shown.value.projection);
      OtherTasks(c.beforeCapture);
      var before := CapturePolicy(privacy.sources.media, c.capture);
      OtherTasks(c.beforeValidation);
      var valid := gate.IsValid(clicked, before);
      return if valid then Some(clicked) else None;
    }

    // Anything that drifted since is caught here.
    method SecondValidation(c: Click, candidate: Confirmation) returns (valid: bool)
      requires c.beforePreview.preview.Some? && candidate == Candidate(c)
      modifies this`privacy, this`preview, gate, capture.tracker
      ensures valid == PassesSecond(c)
      ensures valid ==> gate.State() == c.beforeRevalidation.gate
    {
      OtherTasks(c.beforeRecapture);
      var after := CapturePolicy(privacy.sources.media, c.recapture);
      OtherTasks(c.beforePolicyRead);
      var fingerprintNow := PolicyPreimage(privacy);
      OtherTasks(c.beforeRevalidation);
      valid := gate.IsValid(candidate, after);
      valid := fingerprintNow == c.uiFingerprint && valid;
    }

    method ConfirmConsent(c: Click, refresh: Delivery, beforeRecord: Elsewhere, beforeStore: Elsewhere)
      returns (r: Result<(), ServiceError>)
      modifies this`privacy, this`preview, this`enabled, this`starts, gate, capture.tracker
      ensures (r, enabled) == ConfirmOutcome(old(enabled), c)
      ensures starts == old(starts) + if r.Ok? then 1 else 0
      // every rejection leaves a freshly captured preview to click on
      ensures r == Err(PreviewOutOfDate) ==>
                preview.Some? && preview.value.policyFingerprint == beforeRecord.gate.currentFingerprint
    {
      if enabled.None? {
        return Err(NotPaired);
      }
      var candidate := FirstValidation(c);
      if candidate.None? {
        var basis, recorded := RefreshPreview(refresh, beforeRecord, beforeStore);
        return Err(PreviewOutOfDate);
      }
      var written := WriteEnabled(true, c.enableWrites);
      if !written {
        return Err(Internal);
      }
      var valid := SecondValidation(c, candidate.value);
      if !valid {
        written := WriteEnabled(false, c.rollbackWrites);
        if !written {
          return Err(Internal);
        }
        var basis, recorded := RefreshPreview(refresh, beforeRecord, beforeStore);
        return Err(PreviewOutOfDate);
      }
      starts := starts + 1;
      return Ok(());
    }

    // After any privacy-relevant edit: an effective change drops the recorded confirmation and the
    // preview and asks the coordinator for a fresh snapshot. `compared` is the gate right after the
    // locked segment.
    method PolicyMaybeChanged(beforeGate: Elsewhere, beforeDrop: Elsewhere)
      returns (changed: bool, ghost compared: Gate)
      modifies this`privacy, this`preview, this`republishes, gate, capture.tracker
      ensures changed == (Preimage(old(privacy)) != beforeGate.gate.currentFingerprint)
      ensures compared == GateStep(beforeGate.gate, PolicyChanged(Preimage(old(privacy))))
      ensures compared.currentFingerprint == Preimage(old(privacy)) && (changed ==> compared.confirmation.None?)
      ensures republishes == old(republishes) + if changed then 1 else 0
      ensures changed ==> preview.None? && gate.State() == beforeDrop.gate
      ensures !changed ==> gate.State() == beforeGate.gate && preview == beforeGate.preview
    {
      var fingerprint := PolicyPreimage(privacy);
      OtherTasks(beforeGate);
      if fingerprint == gate.currentFingerprint {
        return false, gate.State();
      }
      gate.PolicyDidChange(fingerprint);
      compared := gate.State();
      OtherTasks(beforeDrop);
      preview := None;
      republishes := republishes + 1;
      return true, compared;
    }

    // The coordinator stops, its authority goes, and so does the credential, if it can be deleted.
    method StopAndForget(deviceId: string, credentialDeletes: bool)
      modifies this`shutdowns, this`discards, this`credentials
      ensures shutdowns == old(shutdowns) + 1 && discards == old(discards) + 1
      ensures credentials == if credentialDeletes then old(credentials) - {deviceId} else old(credentials)
    {
      shutdowns := shutdowns + 1;
      discards := discards + 1;
      if credentialDeletes {
        credentials := credentials - {deviceId};
      }
    }

    // Disable first, then shut down, then forget: once the first write is through, no later failure
    // leaves the connection enabled. A credential that cannot be deleted stops nothing.
    method Unpair(store: Storage.FileSequenceStore, deviceId: string, disableWrites: bool, credentialDeletes: bool,
                  fault: Storage.Fault<Storage.Entries>, forgetWrites: bool, elsewhere: Elsewhere)
      returns (r: Result<(), ServiceError>)
      modifies this`privacy, this`preview, this`enabled, this`shutdowns, this`discards, this`credentials
      modifies gate, capture.tracker, store.file
      ensures r.Ok? <==> || old(enabled).None?
                         || (disableWrites && (deviceId in old(store.Contents()) ==> fault.NoFault?) && forgetWrites)
      ensures enabled == if r.Ok? then None else if disableWrites then Some(false) else old(enabled)
      ensures r.Ok? && old(enabled).Some? ==>
                store.Contents() == old(store.Contents()) - {deviceId} && gate.confirmation.None? && preview.None?
      ensures var stopped := old(enabled).Some? && disableWrites;
              && shutdowns == old(shutdowns) + (if stopped then 1 else 0)
              && discards == old(discards) + (if stopped then 1 else 0)
              && credentials == if stopped && credentialDeletes then old(credentials) - {deviceId} else old(credentials)
    {
      if enabled.None? {
        return Ok(());
      }
      var written := WriteEnabled(false, disableWrites);
      if !written {
        return Err(Internal);
      }
      StopAndForget(deviceId, credentialDeletes);
      var removed := store.Remove(deviceId, fault);
      if !removed {
        return Err(Internal);
      }
      if !forgetWrites {
        return Err(Internal);
      }
      enabled := None;
      OtherTasks(elsewhere);
      gate.Clear();
      preview := None;
      return Ok(());
    }
  }

  // ---- soundness -----------------------------------------------------------------------------------

  // An accepted click: what was displayed is what both fresh captures show, and it is the latest
  // recorded confirmation at both validations, under the fingerprint the UI sent, which is that of
  // the policy in force after the flag was written.
  lemma AcceptedIsDisplayed(enabled: Option<bool>, c: Click)
    requires ConfirmOutcome(enabled, c).0.Ok?
    ensures c.beforePreview.preview.Some?
    ensures var displayed := c.beforePreview.preview.value.projection;
            && displayed == Shown(c.capture, c.beforeCapture.privacy.sources.media)
            && displayed == Shown(c.recapture, c.beforeRecapture.privacy.sources.media)
            && c.beforeValidation.gate == Gate(c.uiFingerprint, Some(Confirmation(c.uiFingerprint, displayed)))
            && c.beforeRevalidation.gate == c.beforeValidation.gate
    ensures Preimage(c.beforePolicyRead.privacy) == c.uiFingerprint
    ensures ConfirmOutcome(enabled, c).1 == Some(true)
  {
  }

  // At this point the gate still holds what the user saw, under the policy it was shown under, and a
  // fresh capture shows the same.
  ghost predicate StandsBy(c: Click, gate: Gate, shown: PreviewProjection) {
    c.beforePreview.preview.Some?
    && var displayed := c.beforePreview.preview.value.projection;
      gate == Gate(c.uiFingerprint, Some(Confirmation(c.uiFingerprint, displayed))) && shown == displayed
  }

  // Which answer a click gets, whatever other tasks do in between, and what it leaves the flag at.
  lemma AnswersExactly(enabled: Option<bool>, c: Click)
    ensures var answer, after := ConfirmOutcome(enabled, c).0, ConfirmOutcome(enabled, c).1;
            var first := c.uiFingerprint == c.beforeGate.gate.currentFingerprint
              && StandsBy(c, c.beforeValidation.gate, Shown(c.capture, c.beforeCapture.privacy.sources.media));
            var second := c.uiFingerprint == Preimage(c.beforePolicyRead.privacy)
              && StandsBy(c, c.beforeRevalidation.gate, Shown(c.recapture, c.beforeRecapture.privacy.sources.media));
            && (answer.Ok? <==> enabled.Some? && first && c.enableWrites && second)
            && (answer == Err(NotPaired) <==> enabled.None?)
            && (answer == Err(Internal) <==>
                  enabled.Some? && first && (!c.enableWrites || (!second && !c.rollbackWrites)))
            && (answer == Err(PreviewOutOfDate) <==>
                  enabled.Some? && (!first || (c.enableWrites && !second && c.rollbackWrites)))
            && after == (if enabled.None? || !first || !c.enableWrites then enabled
                         else Some(second || !c.rollbackWrites))
  {
    hide Preimage, Shown;
  }

  // With the gate's whole history: the displayed projection was recorded under the clicked policy and
  // has stood ever since, through every use of the gate by anyone.
  lemma AcceptedWasRecorded(enabled: Option<bool>, c: Click, uses: seq<GateUse>, initial: string)
    requires ConfirmOutcome(enabled, c).0.Ok?
    requires c.beforeRevalidation.gate == GateAfter(Gate(initial, None), uses)
    ensures c.beforePreview.preview.Some?
    ensures exists i: nat :: StemsFrom(Gate(initial, None), uses, i, Candidate(c))
  {
    ConfirmationStands(Gate(initial, None), uses, Candidate(c));
  }

  // From a disabled start the flag is on afterwards exactly when the click was accepted or the
  // rollback could not be written; a rejected click leaves it off.
  lemma DisabledUnlessAccepted(c: Click)
    ensures var (r, enabled) := ConfirmOutcome(Some(false), c);
            && (r == Err(PreviewOutOfDate) ==> enabled == Some(false))
            && (enabled == Some(true) <==> r.Ok? || (r == Err(Internal) && c.enableWrites && !c.rollbackWrites))
  {
  }

  // A click while nothing changes is accepted exactly when it is on a stored preview that the gate
  // stands by under the policy in force, and both captures still show it.
  lemma QuietClickIsAcceptedExactly(enabled: Option<bool>, c: Click, e: Elsewhere)
    requires c.beforePreview == e && c.beforeGate == e && c.beforeCapture == e && c.beforeValidation == e
    requires c.beforeRecapture == e && c.beforePolicyRead == e && c.beforeRevalidation == e
    ensures ConfirmOutcome(enabled, c).0.Ok? <==>
              && enabled.Some? && c.enableWrites && e.preview.Some?
              && c.uiFingerprint == Preimage(e.privacy)
              && e.gate == GateStep(Gate(c.uiFingerprint, None), Recorded(e.preview.value.projection))
              && Shown(c.capture, e.privacy.sources.media) == e.preview.value.projection
              && Shown(c.recapture, e.privacy.sources.media) == e.preview.value.projection
  {
    hide Preimage, Shown;
  }
}
