# Verified model of the companion core

A Dafny model of the native core of the companion application (`packages/app/src-tauri/core/src`),
with proofs of the properties its design relies on. `dafny verify dfyconfig.toml` checks all of it.

## What is modelled

- **The Live Desk coordinator** as a transition system (`CoordinatorModel`): every segment under the
  coordinator's mutex is one atomic step, every await a point where any other step may run. Actions are
  the entry points, clock ticks, configuration writes, previews, aborts and the resumption of any task
  with any reply. `CoordinatorInvariants` and `CoordinatorRuns` prove what every step keeps;
  `CoordinatorTheorems`, `CoordinatorProgress` and `CoordinatorSequencers` state what holds of every run,
  `CoordinatorLiveness` and `CoordinatorClears` what is done when it is asked for: starts, triggers, timers,
  and the clears of a sleep and a shutdown.
  `LiveDeskCoordinator` is the class whose methods are those segments, each proved to compute its step;
  `Perform` puts them together.
- **The ordered writer**: the file protocol down to what a crash can leave (`Storage`, `ConfigStore`), the
  sequencer over it (`Sequencer`), one client's mutation (`PresenceClient`), and the distributed system of
  successive clients, a FIFO slot, a lossy network, a server and crashes (`OrderedWriter*`), with what an
  undisturbed call and a refusal lead to (`OrderedWriterProgress`). What several
  sequencers of one device do is `SequencerRuns`, what a restart after a disable does `RestartTheorems`.
- **Privacy policy and consent**: normalisation and decisions (`UserTexts`, `PrivacyPolicy`), the
  fingerprint up to the hash (`JsonTexts`, `StableSorting`, `Fingerprint*`; `FingerprintJson` reads its text
  as JSON), the rule commands
  (`RuleCommands`), the capture pipeline (`Capture*`), the consent gate and the service methods that use it
  across awaits (`ConsentGate`, `Consent`), and consent as a transition system of refreshes, edits, checks
  and clicks (`ConsentRuns`, `ConsentInvariants`, `ConsentTheorems`, `ConsentProgress`).
- **Capability negotiation** with the strict SemVer parser and comparator (`Texts`, `Orders`, `SemVer`,
  `Negotiation`).
- **Codecs and mapping**: base64 (`Base64`), wire primitives and the request mapper (`Wire*`).

## Results that differ from the documentation

- The fingerprint's header promises that any change to the effective policy changes the string. It does
  so exactly for unambiguous configurations (`FingerprintDecisions.TextDeterminesMeaningExactly`): an empty
  rule may shadow one that hides, and two spellings of one mapping key may be listed either way, under one
  fingerprint. Rule lists made by the commands are unambiguous.
- `delete_rule` lower-cases the id but does not trim it, `upsert_rule` does both
  (`RuleCommands.DeleteUndoesUpsertExactly`).
- An upsert is meant to decide its id. In a hand-edited list it does so exactly when no other stored
  spelling of the id sorts before the normalised one (`RuleCommands.UpsertDecidesItsIdExactly`): a stored
  rule "F" still decides "f". Saving sorts the whole list, which may also change what other ids find
  (`RuleCommands.UpsertLeavesOthersExactly`).
- A confirm whose rollback write fails reports an internal error with the stored flag on, so the next
  process start would publish (`ConsentTheorems.FlagOnlyIfAccepted`).
- The gate is meant to be under the policy in force. In the application it is: the check's only callers are
  the synchronous commands of `commands.rs`, which run one after another
  (`ConsentTheorems.GateFollowsPolicy`). The check itself reads the policy before it takes the gate's lock, so
  concurrent callers of the public method could leave the gate under an earlier policy
  (`ConsentTheorems.OverlappingChecksLeaveTheGateBehind`); while it is behind no click is accepted
  (`ConsentTheorems.NothingAcceptedBehind`), and it always follows the last comparison
  (`ConsentTheorems.GateFollowsTheLastComparison`).
- A stored base URL that does not parse leaves the coordinator degraded with no timer
  (`CoordinatorProgress.StallsExactly`). It stays so, with nothing of the generation but refresh loops, until
  a new generation begins or such a loop's publish fails and arms a retry; no other reachable state is
  publishing without a timer (`CoordinatorProgress.StrandedExactly`).
- Numeric pre-release identifiers of 2^64-1 and more compare level (`SemVer.LevelAloneExactly`).

## Assumptions

Rename is atomic and durable. The clock does not run backwards. The server applies a request only when
its sequence is above the last one it applied. `OrderedWriter` has one live sequencer object per device: a
discarded authority's sequencer may still be in use for a moment.
`CoordinatorSequencers.SecondSequencerIsALeftover` says when that is so, and
`SequencerRuns.RepeatsExactlyOnOverlap` exactly when it returns a sequence twice.

## Model

| member | source | states |
|---|---|---|
| CoordinatorTheorems.SingleFlight | packages/app/src-tauri/core/src/companion/coordinator.rs:384-393 | In every reachable state the number of live refresh loops is 1 when the running flag is set and 0 when it is not |
| CoordinatorTheorems.SendRateIsBounded | packages/app/src-tauri/core/src/companion/coordinator.rs:628-660 | In any half-open 60 000 ms window of any run, across generations, at most as many sends start as the greatest negotiated requests-per-minute |
| CoordinatorTheorems.SessionIdsNeverCrossGenerations | packages/app/src-tauri/core/src/companion/coordinator.rs:645-680 | A media session id handed to replace_presence twice in a run was handed over in one generation, even when stale captures run after the reset |
| CoordinatorTheorems.DisableStopsPublishing | packages/app/src-tauri/core/src/companion/service.rs:375-386 | Once a disable has returned, no step of any interleaving passes the send-start check or publishes until a later write enables Live Desk |
| CoordinatorTheorems.StaleStepIsInert | packages/app/src-tauri/core/src/companion/coordinator.rs:452-723 | A step of a task of an earlier generation leaves every shared field alone; a stale loop may only release its flag |
| CoordinatorTheorems.WorkDiesWithItsGeneration | packages/app/src-tauri/core/src/companion/coordinator.rs:326-341 | In a run, every step after a generation bump of work started before it changes no state, client, registry, lease or timer |
| CoordinatorTheorems.ShutdownFreezesGeneration | packages/app/src-tauri/core/src/companion/coordinator.rs:261-293 | Between the first and the last segment of a shutdown the generation is frozen, the state is Disabled and stopping is set |
| CoordinatorTheorems.ClientWritesThroughRegistry | packages/app/src-tauri/core/src/companion/authority.rs:42-67 | A present client is the registry's client and shares the registry's current sequencer |
| CoordinatorProgress.NoStall | packages/app/src-tauri/core/src/companion/coordinator.rs:345-424 | In every reachable state: Connecting has a current negotiation, ServerFeatureUnavailable an armed retry, Active and Degraded an armed heartbeat or retry unless this very generation refused its stored URL and has failed no publish since, and a held flag a loop that will release it |
| CoordinatorTheorems.DisabledStartStaysOff | packages/app/src-tauri/core/src/companion/service.rs:158-166 | A process that starts on a disabled or absent connection starts no send and publishes nothing until a write enables Live Desk, however often it is asked to start |
| CoordinatorProgress.StallsExactly | packages/app/src-tauri/core/src/companion/coordinator.rs:496-506 | The step that hears of the token leaves the coordinator publishing with no timer armed exactly when a present token meets a stored URL that does not parse |
| CoordinatorProgress.StrandedExactly | packages/app/src-tauri/core/src/companion/coordinator.rs:496-723 | A reachable state is Active or Degraded with neither retry nor heartbeat armed exactly when some step of its generation refused the stored URL and no publish of the generation has failed after it; then nothing of the generation is left but refresh loops |
| CoordinatorRuns.StepKept | packages/app/src-tauri/core/src/companion/coordinator.rs:174-723 | Every step of every task and entry point keeps the whole coordinator invariant |
| CoordinatorTheorems.StampsAreSpaced | packages/app/src-tauri/core/src/companion/coordinator.rs:628-660 | Only a send start moves the stamp, and it comes a full negotiated interval after the last one |
| CoordinatorLiveness.TriggersAreHeard | packages/app/src-tauri/core/src/companion/coordinator.rs:384-393 | After an accepted request, a current heartbeat and the adoption of a negotiation, a request is pending and a live loop holds the flag; if the flag was free the loop is new, of the current generation and at its head |
| CoordinatorLiveness.TriggerLeadsToPublish | packages/app/src-tauri/core/src/companion/coordinator.rs:628-684 | From every reachable world without a loop, an accepted trigger with a client leads, by the new loop's own steps and a tick past the interval, to exactly one send start and its publish, and with a success to Active with the flag free |
| CoordinatorLiveness.StartGoesLive | packages/app/src-tauri/core/src/companion/coordinator.rs:345-357 | From every reachable world that is not shutting down, a start on an enabled connection leads, with a token and an available negotiation, to an Active coordinator with a client, by a step that is a trigger |
| CoordinatorLiveness.RequestIsIgnoredOtherwise | packages/app/src-tauri/core/src/companion/coordinator.rs:189-196 | Outside Active and Degraded a request for a snapshot changes nothing |
| CoordinatorLiveness.ConnectionDecides | packages/app/src-tauri/core/src/companion/coordinator.rs:464-478 | A negotiation goes on to the token exactly if a connection is stored and enabled, and is refused otherwise |
| CoordinatorLiveness.RefusalDisables | packages/app/src-tauri/core/src/companion/coordinator.rs:464-478 | A refused negotiation ends Disabled with nothing of its generation left |
| CoordinatorLiveness.TokenDecides | packages/app/src-tauri/core/src/companion/coordinator.rs:482-508 | Without a token Degraded with a retry armed; with one and a URL that parses the capabilities are asked for, nothing else changed |
| CoordinatorLiveness.AnswersDecide | packages/app/src-tauri/core/src/companion/coordinator.rs:511-562 | The state and the timer each unavailable answer ends in: Degraded or ServerFeatureUnavailable with a retry armed, UpdateRequired with nothing |
| CoordinatorLiveness.AdoptsTheConfiguration | packages/app/src-tauri/core/src/companion/coordinator.rs:565-612 | An available answer puts the negotiated parameters in force and registers a new client under the connection's key, on the sequencer of that key or on one that nothing has used |
| CoordinatorLiveness.LeaseIsNearest | packages/app/src-tauri/core/src/companion/coordinator.rs:565-570 | Of the leases within the bounds the one nearest to 90 seconds is asked for |
| CoordinatorLiveness.HeartbeatIsGreatest | packages/app/src-tauri/core/src/companion/coordinator.rs:571-573 | The heartbeat's period is the greatest within the recommendation that fits three times in the lease or is at most a second |
| CoordinatorLiveness.IntervalIsLeast | packages/app/src-tauri/core/src/companion/coordinator.rs:565-612 | The send interval is the least number of milliseconds that keeps the negotiated rate |
| CoordinatorLiveness.StartRestarts | packages/app/src-tauri/core/src/companion/coordinator.rs:345-357 | A start that is not refused begins a generation that negotiates: timers told to stop, nothing requested, media continuity broken, client, authority and last send kept |
| CoordinatorLiveness.RetryRestarts | packages/app/src-tauri/core/src/companion/coordinator.rs:360-378 | A retry of the generation restarts in the same way, a stale one only ends |
| CoordinatorLiveness.WakeIsBegun | packages/app/src-tauri/core/src/companion/coordinator.rs:225-240 | A wake is begun exactly when suspended, with the handle of the sleep's clear handed to it |
| CoordinatorLiveness.WakeRestarts | packages/app/src-tauri/core/src/companion/coordinator.rs:225-255 | A wake restarts exactly when the coordinator still is suspended and not stopping |
| CoordinatorLiveness.RenegotiationRestarts | packages/app/src-tauri/core/src/companion/coordinator.rs:686-702 | A reply that calls for renegotiation drops authority and client and restarts |
| CoordinatorLiveness.DiscardsTheAuthority | packages/app/src-tauri/core/src/companion/coordinator.rs:300-304 | A discard drops the authority and the client and touches nothing else |
| CoordinatorLiveness.SuccessActivates | packages/app/src-tauri/core/src/companion/coordinator.rs:682-685 | One success makes the coordinator Active and the loop look for the next request |
| CoordinatorLiveness.FailureDegrades | packages/app/src-tauri/core/src/companion/coordinator.rs:703-723 | Any other failure leaves it Degraded with the flag free and a retry armed |
| CoordinatorClears.SleepClears | packages/app/src-tauri/core/src/companion/coordinator.rs:201-222 | Sleep clears through the client of before the bump exactly when there is one, and the handle kept for the wake is the bounded join of that clear |
| CoordinatorClears.ShutdownClears | packages/app/src-tauri/core/src/companion/coordinator.rs:261-293 | In every run, a shutdown that is over first waited for the clear of a sleep, then, in one step and no other, spawned a clear through the client it found exactly if there was one and the state was not Suspended, and ended only after the bounded join of that clear, with no client left |
| CoordinatorClears.TimersAreArmedOrStopped | packages/app/src-tauri/core/src/companion/coordinator.rs:326-378 | In every reachable state each retry and heartbeat task is the one in its handle and of the current generation, or has been told to stop |
| Coordinator.LiveDeskCoordinator.BeginNewGenerationLocked | packages/app/src-tauri/core/src/companion/coordinator.rs:326-341 | The locked segment computes the generation bump of the transition system: timers aborted, request and media continuity reset, client and send stamp untouched |
| Coordinator.LiveDeskCoordinator.StartUnderLock | packages/app/src-tauri/core/src/companion/coordinator.rs:345-357 | Start under the lock: refused while stopping, otherwise a new generation in Connecting with a configure task |
| Coordinator.LiveDeskCoordinator.ScheduleRetryLocked | packages/app/src-tauri/core/src/companion/coordinator.rs:360-378 | At most one retry is armed: the previous one is aborted |
| Coordinator.LiveDeskCoordinator.TriggerRefreshLocked | packages/app/src-tauri/core/src/companion/coordinator.rs:384-393 | The request is recorded, and a loop is started only when none holds the flag |
| Coordinator.LiveDeskCoordinator.HandleSleepOrLock | packages/app/src-tauri/core/src/companion/coordinator.rs:201-222 | Sleep: suspended once, with a best-effort clear by the last client and a bounded join |
| Coordinator.LiveDeskCoordinator.HandleWakeOrUnlock | packages/app/src-tauri/core/src/companion/coordinator.rs:225-255 | Wake: ignored unless suspended, otherwise joins the sleep clear and then restarts |
| Coordinator.LiveDeskCoordinator.BeginShutdown | packages/app/src-tauri/core/src/companion/coordinator.rs:261-293 | First segment of a shutdown: stopping and Disabled under a fresh generation, keeping the last client for the final clear |
| Coordinator.LiveDeskCoordinator.ShutdownEnds | packages/app/src-tauri/core/src/companion/coordinator.rs:284-293 | Last segment of a shutdown: the client is dropped and stopping released |
| Coordinator.LiveDeskCoordinator.DiscardAuthority | packages/app/src-tauri/core/src/companion/coordinator.rs:300-304 | Discarding drops the registry's authority together with the client |
| Coordinator.LiveDeskCoordinator.ResolveAuthority | packages/app/src-tauri/core/src/companion/authority.rs:42-58 | The current authority is kept for its own key and replaced by a fresh sequencer for another |
| Coordinator.LiveDeskCoordinator.ConfigureTokenArrives | packages/app/src-tauri/core/src/companion/coordinator.rs:482-508 | The second check of the generation, the missing token and the URL that does not parse |
| Coordinator.LiveDeskCoordinator.ConfigureNegotiated | packages/app/src-tauri/core/src/companion/coordinator.rs:508-618 | Dispatch of the negotiation: terminal states, retries, or adoption of the configuration with a new client |
| Coordinator.LiveDeskCoordinator.LoopTakesRequest | packages/app/src-tauri/core/src/companion/coordinator.rs:628-645 | Head of the loop: leaves when stale or when nothing is requested, otherwise waits out the interval |
| Coordinator.LiveDeskCoordinator.LoopStartsSend | packages/app/src-tauri/core/src/companion/coordinator.rs:647-661 | The send-start check and the stamp |
| Coordinator.LiveDeskCoordinator.LoopDelivers | packages/app/src-tauri/core/src/companion/coordinator.rs:669-680 | The generation check after the capture, and the hand-over |
| Coordinator.LiveDeskCoordinator.LoopHearsBack | packages/app/src-tauri/core/src/companion/coordinator.rs:682-723 | Success, renegotiation with a discarded authority, or degradation with a retry |
| Coordinator.LiveDeskCoordinator.Perform | packages/app/src-tauri/core/src/companion/coordinator.rs:174-723 | Whatever can happen to the object next is the transition system's step for it, and keeps the invariant: what holds of every run holds of this object |
| MediaSessions.SameIdIffSameSession | packages/app/src-tauri/core/src/privacy/media_session_tracker.rs:50-68 | Over any history of the tracker, two captures report one id exactly when nothing but that identity was seen between them |
| MediaSessions.MediaSessionTracker.SessionId | packages/app/src-tauri/core/src/privacy/media_session_tracker.rs:50-63 | The remembered id for the remembered identity, otherwise a fresh one |
| MediaSessions.MediaSessionTracker.ResetContinuity | packages/app/src-tauri/core/src/privacy/media_session_tracker.rs:66-68 | A reset forgets the identity |
| OrderedWriterTheorems.ReturnedSequences | packages/app/src-tauri/core/src/protocol/sequencer.rs:78-118 | Over any run with failed stores and crashes, a returned sequence is at least the pairing floor, at most 2^53-2, above every earlier one and above every accepted value reconciled before it |
| OrderedWriterTheorems.StoreOnlyMovesForward | packages/app/src-tauri/core/src/protocol/sequencer.rs:92-118 | A stored value moves the next sequence forward and never exceeds 2^53-1 |
| OrderedWriterTheorems.AttemptsAreIdempotent | packages/app/src-tauri/core/src/companion/presence_client.rs:108-234 | A mutation is put on the wire at most twice, both times as the same request, and one sequence belongs to one mutation |
| OrderedWriterTheorems.AppliedAtMostOnceInOrder | packages/app/src-tauri/core/src/companion/presence_client.rs:180-246 | A server that applies only above its last applied sequence applies each mutation at most once, and one client's in the order of its calls |
| OrderedWriterProgress.CallIsApplied | packages/app/src-tauri/core/src/companion/presence_client.rs:108-154 | A call through an idle client that nobody disturbs is applied under the next sequence, with one request, and ends with the store one ahead and the slot free |
| OrderedWriterProgress.RefusalIsLearnt | packages/app/src-tauri/core/src/companion/presence_client.rs:196-246 | A refusal that reports an accepted sequence moves the store exactly past it, never back; then the same request goes out once more exactly if it was the first and may be retried, and the call ends otherwise |
| OrderedWriterProgress.RefusalWithoutSequence | packages/app/src-tauri/core/src/companion/presence_client.rs:196-234 | A refusal without one leaves the store alone and is retried or ends the call by the same rule |
| OrderedWriterProgress.RefusedThenApplied | packages/app/src-tauri/core/src/protocol/sequencer.rs:107-118 | A writer that has fallen behind its server recovers: after one such refusal the next undisturbed call is applied |
| SequencerRuns.RepeatsExactlyOnOverlap | packages/app/src-tauri/core/src/protocol/sequencer.rs:78-102 | With any number of sequencers over one entry and reservations in any interleaving, with failed stores and crashes: a sequence is returned twice exactly when some reservation that succeeds loaded while another that succeeds had loaded and not stored |
| SequencerRuns.StaleExactlyOnOverlap | packages/app/src-tauri/core/src/protocol/sequencer.rs:78-118 | With reconciliations too: some write goes on top of an entry other than the one it loaded exactly when some write loaded while another had loaded and not stored |
| SequencerRuns.ReservationUndoesReconciliation | packages/app/src-tauri/core/src/protocol/sequencer.rs:92-118 | Such an overlap need not return a sequence twice: a reservation may put the entry back below a value that was reconciled |
| SequencerRuns.NoOverlapOrders | packages/app/src-tauri/core/src/protocol/sequencer.rs:78-118 | With any number of sequencers, failing stores, reconciliations and crashes: without an overlap of writes returned sequences strictly increase and exceed every value reconciled before |
| SequencerRuns.OneAuthorityNeverOverlaps | packages/app/src-tauri/core/src/companion/authority.rs:42-67 | As long as no authority is discarded and made anew, no overlap happens |
| CoordinatorSequencers.SecondSequencerIsALeftover | packages/app/src-tauri/core/src/companion/coordinator.rs:576-608 | In the coordinator two sequencers are in use at once only while a loop, a clear or a shutdown still holds a client from before a step that discarded its authority or changed its key |
| CoordinatorSequencers.OneSequencerWithoutDrops | packages/app/src-tauri/core/src/companion/coordinator.rs:300-304 | Without a discard, a renegotiation and a change of key every client in use writes through one sequencer |
| Sequencer.CurrentNext | packages/app/src-tauri/core/src/protocol/sequencer.rs:78-86 | The floor, or a stored value between the floor and the largest wire integer; a missing, lower or larger one heals to the floor |
| Sequencer.CompanionSequencer.Reserve | packages/app/src-tauri/core/src/protocol/sequencer.rs:92-102 | Durable before returned: the reserved value is the old next, and a failed store reserves nothing |
| Sequencer.CompanionSequencer.Reconcile | packages/app/src-tauri/core/src/protocol/sequencer.rs:107-118 | The store moves to one past an accepted sequence that is ahead, and otherwise not at all |
| Presence.PresenceClient.PerformWithSingleRetry | packages/app/src-tauri/core/src/companion/presence_client.rs:180-234 | One attempt, or two with the identical request; the second exactly when the first one's fate is unknown, or it met a 5xx without an envelope or with a retryable one, and its sequence is reconciled; whose reply or which failed reconciliation is reported |
| Presence.VerdictsAreTold | packages/app/src-tauri/core/src/companion/presence_client.rs:206-234 | While the store can be written the caller is told what the last reply said, and a failed reconciliation exactly when the store had to be written and could not be |
| Presence.RetriesAreForServerFaults | packages/app/src-tauri/core/src/companion/errors.rs:53-79 | No 4xx is ever resent, and what calls for renegotiation only when it is an envelope the server marks retryable |
| Presence.RenegotiatesExactly | packages/app/src-tauri/core/src/companion/errors.rs:84-99 | Renegotiation is called for exactly by the two codes that refuse schema or feature and by a bare 426 |
| Presence.PresenceClient.Mutate | packages/app/src-tauri/core/src/companion/presence_client.rs:108-154 | Reservation precedes every attempt; what is sent and the exact result for every reservation, mapping, device and reply |
| Presence.PresenceClient.ReconcileFromError | packages/app/src-tauri/core/src/companion/presence_client.rs:237-246 | An accepted sequence carried by a server error is reconciled |
| Storage.CrashLeavesOldOrNew | packages/app/src-tauri/core/src/store/config.rs:74-116 | A write interrupted at any sub-step leaves the old document, or the new one once renamed |
| Storage.JsonFile.AtomicWrite | packages/app/src-tauri/core/src/store/config.rs:74-92 | The states the disk passes through under every fault, and success exactly without one |
| Storage.FileSequenceStore.Store | packages/app/src-tauri/core/src/store/sequence.rs:69-77 | Read-modify-write of one device's entry, all or nothing |
| Storage.FileSequenceStore.Load | packages/app/src-tauri/core/src/store/sequence.rs:57-67 | The stored integer of the device, if it is one of 64 bits |
| Storage.FileSequenceStore.Remove | packages/app/src-tauri/core/src/store/sequence.rs:79-87 | Removal of one device's entry; a missing entry touches nothing |
| Storage.CrashedStoreTouchesOneDevice | packages/app/src-tauri/core/src/store/sequence.rs:47-77 | A crash during a store leaves every other device as it was and this one old or new |
| ConfigStorage.ConfigStore.Update | packages/app/src-tauri/core/src/store/config.rs:246-272 | Validate, write, swap, notify: listeners hear exactly the updates that went through, and memory equals what a fresh load of the disk yields, also after failed updates |
| ConfigStorage.ConfigStore.constructor | packages/app/src-tauri/core/src/store/config.rs:177-221 | Loading falls back to the defaults, silently for a file that cannot be read, with a best-effort copy of a corrupt one |
| ConfigStorage.RestartAfterKilledUpdate | packages/app/src-tauri/core/src/store/config.rs:201-272 | A process killed at any sub-step of an update restarts with the old or the new configuration |
| RestartTheorems.KilledDisableExactly | packages/app/src-tauri/core/src/companion/service.rs:375-383 | Killed at any sub-step of the disabling write, the next process resumes publishing exactly if the old one would have and the rename was not done |
| RestartTheorems.KilledLaterNeverResumes | packages/app/src-tauri/core/src/store/config.rs:201-272 | After the disabling write, a kill at any sub-step of any further writes that do not enable Live Desk restarts a process that does not resume publishing |
| RestartTheorems.KilledDisableStaysOff | packages/app/src-tauri/core/src/companion/service.rs:158-166 | Disable, kill, restart: from the rename on, no step of any run of the restarted coordinator starts a send or publishes before a write enables Live Desk |
| UserTexts.TrimIsTheMiddle | packages/app/src-tauri/core/src/privacy/model.rs:43-45 | Trimming leaves the middle of a text between its blank ends |
| UserTexts.WhitespaceIsTabulated | packages/app/src-tauri/core/src/privacy/model.rs:20-41 | The 25 scalars that are trimmed |
| UserTexts.NormalizationIsIdempotent | packages/app/src-tauri/core/src/privacy/model.rs:51-76 | Normalising texts and application ids is idempotent, and a normalised text is trimmed and not empty |
| PrivacyPolicy.FirstRuleIsFirst | packages/app/src-tauri/core/src/privacy/model.rs:114-145 | A lookup finds the first rule in array order with the normalised id |
| PrivacyPolicy.FirstMappingIsFirst | packages/app/src-tauri/core/src/privacy/model.rs:149-160 | A lookup finds the first mapping of its type with the normalised key |
| UserTexts.SameIdExactly | packages/app/src-tauri/core/src/privacy/model.rs:51-76 | Two application ids, whatever blanks are around them, are one exactly when they differ in the case of letters alone |
| PrivacyPolicy.HiddenLeaksNothing | packages/app/src-tauri/core/src/privacy/evaluator.rs:38-59 | A hidden application leaks neither title nor alias, and an alias shown is never blank |
| PrivacyPolicy.OnlyTheFirstRuleDecides | packages/app/src-tauri/core/src/privacy/evaluator.rs:38-85 | Two configurations whose first rules for an application say the same decide the same, whatever stands before and behind, and whatever the defaults where the rule does not inherit |
| PrivacyPolicy.UnruledByDefault | packages/app/src-tauri/core/src/privacy/evaluator.rs:38-85 | Without a rule for the id the application is shared exactly if its default is Share, the title exactly if that and its own are, media exactly if theirs is, and there is no alias |
| PrivacyPolicy.FirstRuleDecides | packages/app/src-tauri/core/src/privacy/evaluator.rs:38-85 | The first rule for the id decides each dimension: hidden on AlwaysHide, shared on AlwaysShare, by its own default on InheritDefault; a title goes with its application and an alias with what it names |
| PrivacyPolicy.UnattributedByDefault | packages/app/src-tauri/core/src/privacy/evaluator.rs:64-85 | Media without an executable and without a rule for the player's name, or with a blank name, are shared exactly if their default is Share |
| PrivacyPolicy.MediaIsIndependent | packages/app/src-tauri/core/src/privacy/evaluator.rs:64-85 | Edits of the application dimension reach no media decision |
| JsonTexts.EscapesAreTabulated | packages/app/src-tauri/core/src/privacy/fingerprint.rs:80-82 | The literal's compact form: seven short escapes, lower-case hexadecimal for the other control characters, everything else as it is |
| FingerprintJson.CanonicalIsJson | packages/app/src-tauri/core/src/privacy/fingerprint.rs:91-174 | The hashed text is compact JSON: each value stands under its own key, the keys sorted, an absent alias left out |
| JsonTexts.JsonStringSplits | packages/app/src-tauri/core/src/privacy/fingerprint.rs:80-82 | Escaped string literals are self-delimiting: whatever follows, equal texts have equal literals and equal rests |
| JsonTexts.JsonStringReadsBack | packages/app/src-tauri/core/src/privacy/fingerprint.rs:80-82 | Read back by the rules of section 7 of RFC 8259, the literal of a text is that text |
| JsonTexts.FirstDifferenceDecides | packages/app/src-tauri/core/src/privacy/fingerprint.rs:47-52 | The first differing character decides, one beyond the basic plane standing below its last ones, and a text stands before its extensions |
| JsonTexts.Utf16Order | packages/app/src-tauri/core/src/privacy/fingerprint.rs:50-52 | Comparison by UTF-16 code units is a total order, level only for the same text |
| StableSorting.SortIsStable | packages/app/src-tauri/core/src/privacy/fingerprint.rs:131-139 | Sorted, a permutation, and stable |
| StableSorting.SortsAgreeExactly | packages/app/src-tauri/core/src/privacy/fingerprint.rs:131-139 | Two lists sort to the same result exactly when for every key they agree in order |
| Fingerprint.RuleSplits | packages/app/src-tauri/core/src/privacy/fingerprint.rs:91-106 | A rule's text determines the rule and where it ends, with and without an alias |
| Fingerprint.MappingSplits | packages/app/src-tauri/core/src/privacy/fingerprint.rs:110-118 | A mapping's text determines the mapping and where it ends |
| Fingerprint.ListSplits | packages/app/src-tauri/core/src/privacy/fingerprint.rs:155-168 | A comma-separated list determines its items and where it ends |
| Fingerprint.CanonicalIsInjective | packages/app/src-tauri/core/src/privacy/fingerprint.rs:141-174 | The hashed text is injective on defaults, switches, mappings and rules, for arbitrary user text |
| FingerprintText.PolicyPreimage | packages/app/src-tauri/core/src/privacy/fingerprint.rs:125-174 | The string pushed piece by piece is the canonical text of the sorted projection |
| FingerprintText.PushRule | packages/app/src-tauri/core/src/privacy/fingerprint.rs:91-106 | Pushing a rule appends exactly its canonical text |
| FingerprintText.PushMapping | packages/app/src-tauri/core/src/privacy/fingerprint.rs:110-118 | Pushing a mapping appends exactly its canonical text |
| FingerprintText.KeepRules | packages/app/src-tauri/core/src/privacy/fingerprint.rs:126-131 | The map and filter keep the normalised rules that say something, in order |
| FingerprintMeaning.SamePreimageExactly | packages/app/src-tauri/core/src/privacy/fingerprint.rs:125-174 | Equal texts exactly when settings agree and, key by key, rules that say something and mappings agree in order |
| FingerprintMeaning.CosmeticEdits | packages/app/src-tauri/core/src/privacy/fingerprint.rs:1-12 | Adding or removing an empty rule, another case of an id or padding of an alias leaves the text alone |
| FingerprintMeaning.OrderIsCosmetic | packages/app/src-tauri/core/src/privacy/fingerprint.rs:1-12 | With distinct keys the order of rules and mappings leaves the text alone |
| FingerprintDecisions.SamePreimageSameDecisions | packages/app/src-tauri/core/src/privacy/fingerprint.rs:1-12 | Equal texts of unambiguous configurations give the same process decision, media decision and mapping for every input |
| FingerprintDecisions.TextDeterminesMeaningExactly | packages/app/src-tauri/core/src/privacy/model.rs:114-160 | A configuration means what its fingerprint says if and only if no empty rule shadows another and no mapping stands before one that sorts before it |
| FingerprintDecisions.KeptRulesDecideExactly | packages/app/src-tauri/core/src/privacy/model.rs:91-122 | Dropping the empty rules changes no lookup exactly when none of them shadows another rule |
| FingerprintDecisions.SortedMappingsDecideExactly | packages/app/src-tauri/core/src/privacy/fingerprint.rs:133-139 | Sorting the mappings changes no lookup exactly when nothing is overtaken |
| FingerprintDecisions.DistinctKeysAreUnambiguous | packages/app/src-tauri/core/src/privacy/model.rs:114-160 | Distinct rule ids and distinct mapping keys are enough |
| FingerprintDecisions.ShadowedRuleIsUnseen | packages/app/src-tauri/core/src/privacy/model.rs:118-122 | Counterexamples to the promise without the condition: an empty rule in front of a hiding one shares the application under the same fingerprint |
| FingerprintDecisions.OvertakenMappingIsUnseen | packages/app/src-tauri/core/src/privacy/model.rs:155-159 | And two spellings of one mapping key may be listed either way under the same fingerprint |
| RuleCommands.UpsertRule | packages/app/src-tauri/src/commands.rs:166-186 | The saved rule list, exactly when saving is refused, and the policy check after it: consent falls exactly when the fingerprint moved |
| RuleCommands.DeleteRule | packages/app/src-tauri/src/commands.rs:189-198 | The list without the lower-cased id, exactly when deleting is refused, and the policy check after it |
| RuleCommands.UpsertDecidesItsId | packages/app/src-tauri/src/commands.rs:166-186 | In lists the commands make, the last edit of an id decides its lookups and every other id keeps its effect |
| RuleCommands.UpsertDecidesItsIdExactly | packages/app/src-tauri/src/commands.rs:166-186 | In any stored list the saved rule is the one found for its id exactly if no other stored spelling of the id sorts before it, and an emptied rule leaves nothing exactly if no other spelling is stored |
| RuleCommands.UpsertLeavesOthersExactly | packages/app/src-tauri/src/commands.rs:166-186 | And every other id keeps the rule found for it exactly if no stored rule for it sorts before that one |
| RuleCommands.EditedRulesAreTidy | packages/app/src-tauri/src/commands.rs:166-198 | After any edits: normalised rules that say something, one for an id, in order |
| RuleCommands.EditedRulesAreUnambiguous | packages/app/src-tauri/src/commands.rs:166-198 | So rule lists reached by edits satisfy what the fingerprint's meaning needs |
| RuleCommands.DeleteUndoesUpsertExactly | packages/app/src-tauri/src/commands.rs:166-198 | Deleting by the id a rule was saved under takes it away exactly when that id has no surrounding whitespace |
| Capture.CaptureService.CaptureForDelivery | packages/app/src-tauri/core/src/privacy/capture_service.rs:96-225 | The snapshot of the three configuration reads, and the one use of the session tracker |
| CaptureTheorems.CaptureIsCoordinatorStep | packages/app/src-tauri/core/src/privacy/capture_service.rs:96-195 | A capture uses the tracker as the coordinator's transition system says |
| CaptureTheorems.MediaEmittedExactly | packages/app/src-tauri/core/src/privacy/capture_service.rs:103-195 | Media is emitted exactly when the policies before and after the provider's answer allow it |
| CaptureTheorems.ApplicationEmittedExactly | packages/app/src-tauri/core/src/privacy/sanitize.rs:31-56 | The application is emitted exactly when the last read shares it and it has a name, its title exactly when every switch shares it and it has one |
| CaptureTheorems.EmittedMediaIsCaptured | packages/app/src-tauri/core/src/privacy/sanitize.rs:98-167 | Each emitted text is the visible part of its own raw text, names go alias, mapping, raw, unusable times are absent and the position is held within the duration |
| CaptureTheorems.EmittedApplicationIsCaptured | packages/app/src-tauri/core/src/privacy/sanitize.rs:31-56 | The emitted name goes alias, mapping, raw, and the title is the visible part of the raw title |
| CaptureTheorems.PlayerIsFirstMapped | packages/app/src-tauri/core/src/privacy/capture_service.rs:124-158 | A player is renamed by the first mapping for media players with its display name, or else by the first for media processes with that name; without one it is never renamed, and rules look it up by the raw session source |
| CaptureTheorems.HiddenByDefaultEmitsNothing | packages/app/src-tauri/core/src/privacy/capture_service.rs:96-225 | Where everything hides by default and no rule insists on sharing, a capture emits neither application nor media |
| CaptureTheorems.NextCaptureSharesTheSession | packages/app/src-tauri/core/src/privacy/capture_service.rs:162-171 | Two captures in a row that emit media carry one session id exactly when the media agree in kind, title, artist, album, player name and duration |
| CaptureTheorems.SameSessionIffSameTrack | packages/app/src-tauri/core/src/privacy/capture_service.rs:162-195 | Over any history of captures, two that emit media carry one session id exactly when every one between them that asked for media emitted that same track |
| CaptureTheorems.StricterPolicyReducesSnapshot | packages/app/src-tauri/core/src/privacy/capture_service.rs:96-225 | Any stricter policy at any read leaves each field as it was or takes it away, session id aside |
| CaptureTheorems.DecisionsUnderStricter | packages/app/src-tauri/core/src/privacy/evaluator.rs:38-85 | Hiding more shares the same things or fewer, over rule lists of any length |
| CaptureTheorems.SameFingerprintSameSnapshot | packages/app/src-tauri/core/src/privacy/capture_service.rs:96-225 | Reads with equal fingerprint texts give the same snapshot for every raw capture |
| ConsentGates.ConfirmationStands | packages/app/src-tauri/core/src/companion/consent_gate.rs:52-92 | Over any history of the gate, it holds a confirmation exactly when that was recorded under its policy and nothing has undone it since |
| ConsentGates.SameProjectionExactly | packages/app/src-tauri/core/src/companion/consent_gate.rs:101-123 | Consent binds everything in a snapshot but its time, playback position, sample time and session id |
| ConsentGates.ConsentGate.Record | packages/app/src-tauri/core/src/companion/consent_gate.rs:63-70 | Recording under the current fingerprint |
| ConsentGates.ConsentGate.PolicyDidChange | packages/app/src-tauri/core/src/companion/consent_gate.rs:52-58 | An effective policy change drops the confirmation, the same fingerprint changes nothing |
| ConsentGates.ConsentGate.IsValid | packages/app/src-tauri/core/src/companion/consent_gate.rs:79-92 | The candidate is the latest confirmation, under the current policy, and matches the capture |
| Consent.CompanionService.ConfirmConsent | packages/app/src-tauri/core/src/companion/service.rs:296-371 | Result and stored flag for arbitrary policy edits, preview refreshes and capture changes at every await |
| Consent.AnswersExactly | packages/app/src-tauri/core/src/companion/service.rs:296-371 | Which of the four answers a click gets and what it leaves the flag at, for arbitrary interference, in terms of what the gate holds and the captures show |
| Consent.AcceptedIsDisplayed | packages/app/src-tauri/core/src/companion/service.rs:296-371 | Ok: the displayed projection equals both fresh captures and the latest confirmation at both validations, under the fingerprint the UI sent, which is the policy's |
| Consent.AcceptedWasRecorded | packages/app/src-tauri/core/src/companion/service.rs:296-371 | Ok: the displayed projection was recorded under the clicked policy and has stood through every use of the gate since |
| ConsentInvariants.FactsHold | packages/app/src-tauri/core/src/companion/service.rs:192-371 | In every run of refreshes, edits, checks, clicks and lifecycle writes, each task carries exactly what the run had at the moments of its own steps, in that order |
| ConsentTheorems.ReturnsItsOutcome | packages/app/src-tauri/core/src/companion/service.rs:296-371 | Whatever ran between its steps, a click returns the outcome of what its steps saw, accepted or not |
| ConsentTheorems.AcceptedInOrder | packages/app/src-tauri/core/src/companion/service.rs:296-371 | In a run an accepted click saw, in order: the stored preview, the gate under its fingerprint, a capture of the run showing the same, the gate holding it, after the write another such capture, the policy under the fingerprint, and the gate once more |
| ConsentTheorems.AcceptedStood | packages/app/src-tauri/core/src/companion/service.rs:208-371 | And what it displayed was captured and recorded by a refresh of the run, since when the gate has not moved up to the last check |
| ConsentTheorems.FlagFollowsTheClick | packages/app/src-tauri/core/src/companion/service.rs:320-365 | With one click and no other lifecycle command, through all edits, checks and refreshes, the stored flag is on exactly while the click holds it |
| ConsentTheorems.FlagOnlyIfAccepted | packages/app/src-tauri/core/src/companion/service.rs:320-365 | So after the click returned it is what the outcome of the click says, on exactly if the click was accepted or the rollback could not be written |
| ConsentTheorems.GateFollowsPolicy | packages/app/src-tauri/core/src/companion/service.rs:192-204 | When edits come one by one, the gate is under the policy's fingerprint whenever no check is in flight |
| ConsentTheorems.StandingConsentIsCurrent | packages/app/src-tauri/core/src/companion/service.rs:192-204 | And a confirmation that stands then was given under the policy in force |
| ConsentTheorems.GateFollowsTheLastComparison | packages/app/src-tauri/core/src/companion/service.rs:192-204 | In every run, the gate is under the fingerprint of the policy that the check which compared last had read |
| ConsentTheorems.OverlappingChecksLeaveTheGateBehind | packages/app/src-tauri/core/src/companion/service.rs:192-204 | Two overlapping edits leave it behind: an eight-step run that ends at rest under a policy that is no longer in force |
| ConsentTheorems.NothingAcceptedBehind | packages/app/src-tauri/core/src/companion/service.rs:296-371 | While gate and policy stand still under different fingerprints, no click is accepted |
| ConsentTheorems.AcceptedBindsThePolicy | packages/app/src-tauri/core/src/companion/service.rs:345-368 | Ok: what was displayed is what every unambiguous policy with the clicked fingerprint emits for the last capture |
| ConsentProgress.RefreshThenClickIsAccepted | packages/app/src-tauri/core/src/companion/service.rs:208-371 | On a paired device whose gate is under the policy in force, a refresh and a click on what it displayed, neither disturbed, end accepted with the flag on, provided the three captures show the same |
| ConsentProgress.EditIsFollowed | packages/app/src-tauri/core/src/companion/service.rs:192-204 | An edit whose check nothing disturbs brings the gate under the new policy: an effective change drops confirmation and preview and asks for a snapshot once, another changes nothing |
| Consent.QuietClickIsAcceptedExactly | packages/app/src-tauri/core/src/companion/service.rs:296-371 | A click while nothing changes is accepted exactly when it is on a stored preview that the gate stands by under the policy in force and both captures still show it |
| Consent.CompanionService.RefreshPreview | packages/app/src-tauri/core/src/companion/service.rs:208-229 | A fresh capture, recorded in the gate under its fingerprint of that moment, and stored |
| Consent.CompanionService.PolicyMaybeChanged | packages/app/src-tauri/core/src/companion/service.rs:192-204 | Exactly an effective change moves the gate, drops the confirmation and the preview and asks for a fresh snapshot |
| Consent.CompanionService.Unpair | packages/app/src-tauri/core/src/companion/service.rs:394-431 | Disable, shut down, discard the authority, delete the credential if possible, forget: after the first write no failure leaves the connection enabled |
| SemVer.ParserIsExact | packages/app/src-tauri/core/src/protocol/capabilities.rs:25-90 | Accepted exactly: the canonical print of a well-formed version, optionally with build identifiers |
| SemVer.PrintedParses | packages/app/src-tauri/core/src/protocol/capabilities.rs:25-75 | Printing and parsing is the identity |
| SemVer.ParseSemanticVersion | packages/app/src-tauri/core/src/protocol/capabilities.rs:25-75 | The loops compute the parser that is proved exact |
| SemVer.CompareSemanticVersions | packages/app/src-tauri/core/src/protocol/capabilities.rs:96-139 | The loop over identifier pairs computes the comparison that is proved an order |
| SemVer.CompareIsTotalPreorder | packages/app/src-tauri/core/src/protocol/capabilities.rs:96-139 | Swapping flips the comparison, and it is transitive, on all versions |
| SemVer.CompareIsPrecedenceAsRead | packages/app/src-tauri/core/src/protocol/capabilities.rs:96-139 | The comparison is the precedence of section 11 of Semantic Versioning 2.0.0 on the versions with numbers saturated at 64 bits |
| SemVer.CompareIsPrecedence | packages/app/src-tauri/core/src/protocol/capabilities.rs:96-139 | With numeric identifiers below 2^64 it is that precedence, and level only for identical versions |
| SemVer.LevelAloneExactly | packages/app/src-tauri/core/src/protocol/capabilities.rs:96-139 | A version is level with no other exactly when its numeric pre-release identifiers are all below 2^64-1 |
| Negotiation.NegotiatePresence | packages/app/src-tauri/core/src/protocol/capabilities.rs:160-207 | Available carries the document's limits one to one, and they are coherent |
| Negotiation.InvalidExactly | packages/app/src-tauri/core/src/protocol/capabilities.rs:160-180 | Invalid exactly when the client's version does not parse or the document is malformed |
| Negotiation.UpdateRequiredExactly | packages/app/src-tauri/core/src/protocol/capabilities.rs:185-187 | Any client whose version parses must update exactly when a coherent document demands a version above its own, numbers read with saturation |
| Negotiation.ThisClientMustUpdateExactly | packages/app/src-tauri/core/src/protocol/capabilities.rs:185-187 | This client, release 1.8.3, must update exactly when the demanded core is above 1.8.3 |
| Negotiation.RefusalsExactly | packages/app/src-tauri/core/src/protocol/capabilities.rs:189-200 | SchemaUnsupported exactly when a coherent document demands nothing above the client and does not list schema 2; FeatureUnavailable exactly when it lists it without the feature |
| Negotiation.AvailableExactly | packages/app/src-tauri/core/src/protocol/capabilities.rs:160-207 | For any client whose version parses: Available exactly when coherent, not demanding more, speaking schema 2 and offering the feature |
| Base64.DecodeOfEncode | packages/app/src-tauri/core/src/store/dpapi_store.rs:44-114 | Decoding an encoded byte sequence gives it back |
| Base64.EncodedLength | packages/app/src-tauri/core/src/store/dpapi_store.rs:44-65 | The length is four characters for every group of three bytes begun |
| Base64.DecodeAcceptsExactly | packages/app/src-tauri/core/src/store/dpapi_store.rs:82-114 | Decoding accepts exactly the padded grammar |
| Base64.EncodeOfDecode | packages/app/src-tauri/core/src/store/dpapi_store.rs:44-114 | Encoding a decoded text gives it back exactly when its unused trailing bits are zero |
| Base64.Base64Encode | packages/app/src-tauri/core/src/store/dpapi_store.rs:44-65 | The loop over chunks computes the encoding |
| Base64.Base64Decode | packages/app/src-tauri/core/src/store/dpapi_store.rs:82-114 | The loop over groups computes the decoding, with its early rejections |
| Base64.GroupIsOneNumber | packages/app/src-tauri/core/src/store/dpapi_store.rs:44-65 | The four sixes and the three bytes of a group are one 24-bit number, most significant first |
| Base64.AlphabetIsTabulated | packages/app/src-tauri/core/src/store/dpapi_store.rs:41-42 | The alphabet, character by character |
| Base64.SymbolIs | packages/app/src-tauri/core/src/store/dpapi_store.rs:41-76 | The alphabet and base64_value are inverse, and padding is in neither |
| WireTheorems.EveryCaptureMapsExactly | packages/app/src-tauri/core/src/protocol/dto_mapper.rs:52-240 | Whatever a capture emits is mapped, exactly when its dates are within the wire's calendar and its milliseconds within its integers |
| WireTheorems.MappedRequestIsWellFormed | packages/app/src-tauri/core/src/protocol/dto_mapper.rs:52-240 | Texts non-empty, trimmed and within 120, 500 and 300 scalars, position within duration, rate fitting the state, idle exactly without contents |
| WireTheorems.RequestSaysTheSnapshot | packages/app/src-tauri/core/src/protocol/dto_mapper.rs:52-240 | Texts cut from the fields they came from and whole when they fit, times the nearest milliseconds with the clamp changing nothing, and the reserved sequence, request id and device in the meta |
| WireTheorems.PlainTextSurvives | packages/app/src-tauri/core/src/protocol/dto_mapper.rs:131-144 | Bounding a trimmed text leaves all of it when it fits, and otherwise its first `limit` scalars but for a blank end, which are never nothing |
| WireTheorems.TtlIsNearest | packages/app/src-tauri/core/src/protocol/dto_mapper.rs:52-64 | The ttl is, of the leases within the bounds, the one nearest to the rounded lease asked for |
| WireTheorems.PlaybackMapsExactly | packages/app/src-tauri/core/src/protocol/dto_mapper.rs:181-240 | Any playback, sanitised or not, maps exactly when its rate fits its state and its times fit the wire |
| WireTheorems.LeaseAndHeartbeat | packages/app/src-tauri/core/src/companion/coordinator.rs:565-574 | The ttl is the lease the coordinator asked for, within the negotiated bounds; the heartbeat never exceeds it and fits three times in a lease of three seconds or more |
| Wire.MillisecondsAreNearest | packages/app/src-tauri/core/src/protocol/wire.rs:122-144 | Milliseconds are the nearest, the later of two, monotone, and fail only by being too large |

## Left out

- The React UI, tray, updater, release scripts and Tauri wiring; of the commands only the rule edits.
- Win32, WinRT, DPAPI and Credential Manager calls, and the debouncing of foreground and lock events.
- HTTP, TLS and JSON decoding: an attempt ends in any of the error variants or in success.
- SHA-256, UUIDs and calendar arithmetic: fingerprint facts are about the hashed text, random ids come from a counter, dates are opaque within the years 0000 to 9999.
- Rounding of `f64`: seconds are exact reals, or not finite. Integers the code holds in 64 bits are bounded where a bound is reached (sequences, SemVer numbers, stored integers), unbounded elsewhere.
- UserTexts.NormalizationIsIdempotent: does not model Unicode beyond the model's alphabet. Texts are composed scalars, so NFC is the identity, and lower case is character by character for ASCII, Latin-1 and Cyrillic (no final sigma, no expanding letters).
- Durations of timers and timeouts, except the send throttle: a timer may fire at any time.
- URL validation: whether a stored base URL parses is part of the stored connection.
- Pairing, and the mapping of its errors; the coordinator's part of it is a shutdown, a discard and a configuration write.
- Credential store files; only their base64 is modelled.
- Configuration migration; a change callback is the configuration it is called with.
- Consent.CompanionService.ConfirmConsent: the coordinator's start is a counter; its own behaviour is the coordinator model's.
- Capture.CaptureService.CaptureForDelivery: what the providers report and the three configuration reads are inputs, and the tracker is used once, at its lock.
- Wire.MillisecondsAreNearest: exact reals, so ties are exact; the code multiplies in `f64`, whose rounding is not modelled.
- CoordinatorTheorems.SendRateIsBounded: the bound is the greatest rate negotiated in the run when the server changes it between generations.
- Clear requests are mapped like presence requests without contents and add no property of their own.
- ConsentTheorems.FlagFollowsTheClick: one click without pairing, disabling or unpairing beside it; two clicks at once may each undo the other's flag.
- SequencerRuns.RepeatsExactlyOnOverlap: is about reservations. With reconciliations an overlap need not return a sequence twice (`SequencerRuns.ReservationUndoesReconciliation`); what it does exactly is `SequencerRuns.StaleExactlyOnOverlap`.
- RuleCommands.UpsertRule: the policy check follows the save at once; the same check among other tasks is `ConsentRuns`.
- RuleCommands.DeleteRule: likewise.
