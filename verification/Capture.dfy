/** Sanitising and the capture pipeline: `privacy/sanitize.rs` and `privacy/capture_service.rs`. */
module Capture {
  import opened MediaSessions
  import opened Model
  import opened Options
  import opened PrivacyPolicy
  import opened UserTexts

  // ---- sanitize.rs ---------------------------------------------------------------------------------

  function OrElse<T>(first: Option<T>, second: Option<T>): Option<T> {
    if first.Some? then first else second
  }

  function SanitizeApplication(
    capturedDisplayName: string, mappedDisplayName: Option<string>, windowTitle: Option<string>,
    decision: ProcessDecision, globalShareWindowTitles: bool): Option<SanitizedApplication>
  {
    if !decision.sharesApplication then None
    else
      var name := OrElse(decision.displayAlias,
        OrElse(NormalizeText(mappedDisplayName), NormalizeText(Some(capturedDisplayName))));
      if name.None? then None
      else
        var title := if decision.sharesWindowTitle && globalShareWindowTitles then NormalizeText(windowTitle) else None;
        Some(SanitizedApplication(name.value, title))
  }

  // What the media layer reports.
  datatype RawMedia = RawMedia(
    kind: MediaKind,
    title: Option<string>,
    artist: Option<string>,
    album: Option<string>,
    playerDisplayName: Option<string>,
    sourceAppUserModelId: Option<string>,
    appId: Option<string>,
    playing: bool,
    durationSeconds: Option<Seconds>,
    positionSeconds: Option<Seconds>,
    sampledAt: int)

  // Absent, not finite and negative all become absent.
  function NormalizedSeconds(value: Option<Seconds>): Option<real> {
    if value.Some? && value.value.Finite? && value.value.value >= 0.0 then Some(value.value.value) else None
  }

  function SanitizedPosition(position: Option<real>, duration: Option<real>): Option<real> {
    if position.Some? && duration.Some? && position.value > duration.value then duration else position
  }

  function SanitizeMedia(
    input: RawMedia, mappedPlayerName: Option<string>, decision: MediaDecision, requiresArtist: bool)
    : Option<SanitizedMediaWithoutSession>
  {
    if !decision.sharesMedia then None
    else
      var title, artist, album := NormalizeText(input.title), NormalizeText(input.artist), NormalizeText(input.album);
      if requiresArtist && artist.None? then None
      else if title.None? && artist.None? then None
      else
        var player := OrElse(decision.displayAlias,
          OrElse(NormalizeText(mappedPlayerName), NormalizeText(input.playerDisplayName)));
        var duration := NormalizedSeconds(input.durationSeconds);
        var position := SanitizedPosition(NormalizedSeconds(input.positionSeconds), duration);
        var playback := Playback(
          if input.playing then Playing else Paused, duration, position, input.sampledAt,
          if input.playing then 1.0 else 0.0);
        Some(MediaWithoutSession(input.kind, title, artist, album, player, playback))
  }

  // ---- capture_service.rs ------------------------------------------------------------------------------

  datatype RawApplication = RawApplication(appId: string, displayName: string, windowTitle: Option<string>)

  // The name used for rules may be the raw session source; the one used for mappings may not.
  function RuleName(raw: RawMedia): string {
    var name := OrElse(raw.playerDisplayName, raw.sourceAppUserModelId);
    if name.None? then "" else name.value
  }

  function MappedPlayerName(config: PrivacyConfig, raw: RawMedia): Option<string> {
    if raw.playerDisplayName.None? then None
    else OrElse(ApplyMapping(config, MediaPlayerName, raw.playerDisplayName.value),
                ApplyMapping(config, MediaProcessName, raw.playerDisplayName.value))
  }

  // The media path after the provider answered, under one configuration.
  function MediaUnder(config: PrivacyConfig, raw: Option<RawMedia>): Option<SanitizedMediaWithoutSession> {
    if raw.None? || !config.sources.media || !raw.value.playing then None
    else SanitizeMedia(raw.value, MappedPlayerName(config, raw.value),
                       DecideMedia(config, raw.value.appId, RuleName(raw.value)), config.ignoreNullArtist)
  }

  function ApplicationUnder(config: PrivacyConfig, info: Option<RawApplication>): Option<SanitizedApplication> {
    if !config.sources.application || info.None? then None
    else SanitizeApplication(info.value.displayName, ApplyMapping(config, ProcessName, info.value.appId),
      info.value.windowTitle,
                             DecideProcess(config, info.value.appId), config.shareWindowTitles)
  }

  function IdentityOf(m: SanitizedMediaWithoutSession): MediaSemanticIdentity {
    Identity(m.kind, m.title, m.artist, m.album, m.playerDisplayName, m.playback.durationSeconds)
  }

  // What the environment does during one capture. The configuration is read three times: before the
  // media provider is asked, after it answered, and before the application is looked at.
  datatype Delivery = Delivery(
    includeMedia: bool,
    hasProvider: bool,
    observedAt: int,
    read1: PrivacyConfig,
    answer: Option<RawMedia>,
    read2: PrivacyConfig,
    foreground: Option<RawApplication>,
    read3: PrivacyConfig)

  predicate AsksProvider(d: Delivery) {
    d.includeMedia && d.hasProvider && d.read1.sources.media
  }

  function MediaOf(d: Delivery): Option<SanitizedMediaWithoutSession> {
    if AsksProvider(d) then MediaUnder(d.read2, d.answer) else None
  }

  // The one thing a capture does to the session tracker.
  function TrackerAfter(d: Delivery, t: Tracker): Tracker {
    if !d.includeMedia then t
    else if MediaOf(d).Some? then Observe(t, IdentityOf(MediaOf(d).value)).0
    else Reset(t)
  }

  function SnapshotOf(d: Delivery, t: Tracker): SanitizedSnapshot {
    var media := MediaOf(d);
    Snapshot(d.observedAt, ApplicationUnder(d.read3, d.foreground),
             if media.None? then None else Some(SanitizedMedia(Observe(t, IdentityOf(media.value)).1, media.value)))
  }

  class CaptureService {
    const tracker: MediaSessionTracker

    constructor ()
      ensures fresh(tracker) && tracker.State() == Tracker(None, 0)
    {
      tracker := new MediaSessionTracker();
    }

    method CaptureForDelivery(d: Delivery) returns (snapshot: SanitizedSnapshot)
      modifies tracker
      ensures snapshot == SnapshotOf(d, old(tracker.State()))
      ensures tracker.State() == TrackerAfter(d, old(tracker.State()))
    {
      var media: Option<SanitizedMedia> := None;
      if d.hasProvider && d.includeMedia && d.read1.sources.media {
        var config := d.read2;
        if d.answer.Some? {
          var raw := d.answer.value;
          if config.sources.media && raw.playing {
            var decision := DecideMedia(config, raw.appId, RuleName(raw));
            var sanitized := SanitizeMedia(raw, MappedPlayerName(config, raw), decision, config.ignoreNullArtist);
            if sanitized.Some? {
              var sessionId := tracker.SessionId(IdentityOf(sanitized.value));
              media := Some(SanitizedMedia(sessionId, sanitized.value));
            }
          }
        }
        if media.None? {
          tracker.ResetContinuity();
        }
      } else if d.includeMedia {
        tracker.ResetContinuity();
      }
      var application: Option<SanitizedApplication> := None;
      var config := d.read3;
      if config.sources.application && d.foreground.Some? {
        var info := d.foreground.value;
        var decision := DecideProcess(config, info.appId);
        application := SanitizeApplication(info.displayName, ApplyMapping(config, ProcessName, info.appId),
          info.windowTitle,
                                           decision, config.shareWindowTitles);
      }
      return Snapshot(d.observedAt, application, media);
    }
  }
}
