/** Every sanitised snapshot maps to a well-formed request. */
module WireTheorems {
  import opened Capture
  import opened CoordinatorModel
  import opened MediaSessions
  import opened Model
  import opened Negotiation
  import opened Options
  import opened PrivacyPolicy
  import opened UserTexts
  import opened Wire

  // ---- whatever is mapped is well formed ----------------------------------------------------------

  predicate IsWireText(text: Option<string>, limit: nat) {
    text.Some? ==> text.value != "" && IsTrimmed(text.value) && |text.value| <= limit
  }

  predicate IsWireDate(date: WireDate) {
    FIRST_WIRE_DATE <= date.epochMs <= LAST_WIRE_DATE
  }

  predicate IsWireInteger(n: Option<nat>) {
    n.Some? ==> n.value <= MAXIMUM_SAFE_WIRE_INTEGER
  }

  predicate IsWirePlayback(p: WirePlayback) {
    && IsWireInteger(p.durationMs) && IsWireInteger(p.positionMs)
    && (p.durationMs.Some? && p.positionMs.Some? ==> p.positionMs.value <= p.durationMs.value)
    && IsWireDate(p.sampledAt)
    && 0.0 <= p.rate <= 4.0 && (p.rate > 0.0 <==> p.state == Playing)
  }

  predicate IsWireMedia(m: WireMedia) {
    && IsWireText(m.title, 300) && IsWireText(m.artist, 300) && IsWireText(m.album, 300) && IsWireText(m.player, 120)
    && (m.title.Some? || m.artist.Some?)
    && IsWirePlayback(m.playback)
  }

  predicate IsWireApplication(a: WireApplication) {
    IsWireText(Some(a.displayName), 120) && IsWireText(a.windowTitle, 500)
  }

  predicate IsWireRequest(r: PresenceRequest) {
    && IsWireDate(r.meta.observedAt)
    && (r.availability == Idle <==> r.application.None? && r.media.None?)
    && (r.application.Some? ==> IsWireApplication(r.application.value))
    && (r.media.Some? ==> IsWireMedia(r.media.value))
  }

  lemma BoundedIsWireText(value: Option<string>, limit: nat)
    ensures IsWireText(BoundedText(value, limit), limit)
  {
    if value.Some? {
      var truncated := if |value.value| <= limit then value.value else value.value[..limit];
      var left, right := TrimIsTheMiddle(truncated);
    }
  }

  lemma MappedPlaybackIsWellFormed(p: SanitizedPlayback)
    ensures MapPlayback(p).Ok? ==> IsWirePlayback(MapPlayback(p).value)
  {
  }

  lemma MappedRequestIsWellFormed(snapshot: SanitizedSnapshot, sequence: nat, lease: real, options: RequestOptions,
      requestId: nat)
    ensures var r := MakePresenceRequest(snapshot, sequence, lease, options, requestId);
            r.Ok? ==> IsWireRequest(r.value)
  {
    if snapshot.application.Some? {
      BoundedIsWireText(Some(snapshot.application.value.displayName), DISPLAY_NAME_LIMIT);
      BoundedIsWireText(snapshot.application.value.windowTitle, WINDOW_TITLE_LIMIT);
    }
    if snapshot.media.Some? {
      var m := snapshot.media.value.media;
      BoundedIsWireText(m.title, MEDIA_TEXT_LIMIT);
      BoundedIsWireText(m.artist, MEDIA_TEXT_LIMIT);
      BoundedIsWireText(m.album, MEDIA_TEXT_LIMIT);
      BoundedIsWireText(m.playerDisplayName, DISPLAY_NAME_LIMIT);
      MappedPlaybackIsWellFormed(m.playback);
    }
  }

  // ---- whatever is captured can be mapped ---------------------------------------------------------------

  predicate IsPlainText(text: Option<string>) {
    text.Some? ==> text.value != "" && IsTrimmed(text.value)
  }

  lemma NormalizedIsPlain(value: Option<string>)
    ensures IsPlainText(NormalizeText(value))
  {
    NormalizationIsIdempotent(value, "");
  }

  // All of the text but its blank end.
  ghost predicate IsAllBut(kept: string, text: string) {
    kept <= text && IsBlank(text[|kept|..])
  }

  // Cutting a plain text always leaves something: all of it when it fits, and otherwise its first
  // `limit` scalars but for a blank end.
  lemma PlainTextSurvives(text: string, limit: nat)
    requires text != "" && IsTrimmed(text) && limit > 0
    ensures BoundedText(Some(text), limit).Some?
    ensures BoundedText(Some(text), limit).value <= text
    ensures BoundedText(Some(text), limit).value == text <==> |text| <= limit
    ensures IsAllBut(BoundedText(Some(text), limit).value, if |text| <= limit then text else text[..limit])
  {
    var truncated := if |text| <= limit then text else text[..limit];
    assert truncated == TrimEnd(truncated) + truncated[|TrimEnd(truncated)|..] by {
      TrimEndIsPrefix(truncated);
    }
    assert truncated[0] == text[0] && TrimStart(truncated) == truncated;
    TrimEndIsPrefix(truncated);
    assert JsTrim(truncated) != "" by {
      var left, right := TrimIsTheMiddle(truncated);
      assert truncated[0] in truncated;
    }
  }

  predicate PlaybackFits(p: SanitizedPlayback) {
    && (p.durationSeconds.Some? ==> Round(p.durationSeconds.value * 1000.0) <= MAXIMUM_SAFE_WIRE_INTEGER)
    && (p.positionSeconds.Some? ==> Round(p.positionSeconds.value * 1000.0) <= MAXIMUM_SAFE_WIRE_INTEGER)
    && FIRST_WIRE_DATE <= p.sampledAt <= LAST_WIRE_DATE
  }

  predicate IsSanitizedPlayback(p: SanitizedPlayback) {
    && p.rate == (if p.state == Playing then 1.0 else 0.0)
    && (p.durationSeconds.Some? ==> p.durationSeconds.value >= 0.0)
    && (p.positionSeconds.Some? ==> p.positionSeconds.value >= 0.0)
    && (p.durationSeconds.Some? && p.positionSeconds.Some? ==> p.positionSeconds.value <= p.durationSeconds.value)
  }

  predicate IsSanitizedMedia(m: SanitizedMediaWithoutSession) {
    && IsPlainText(m.title) && IsPlainText(m.artist) && IsPlainText(m.album) && IsPlainText(m.playerDisplayName)
    && (m.title.Some? || m.artist.Some?)
    && IsSanitizedPlayback(m.playback)
  }

  predicate IsSanitizedApplication(a: SanitizedApplication) {
    IsPlainText(Some(a.displayName)) && IsPlainText(a.windowTitle)
  }

  lemma EmittedMediaIsSanitized(config: PrivacyConfig, raw: RawMedia)
    ensures var m := MediaUnder(config, Some(raw)); m.Some? ==> IsSanitizedMedia(m.value)
  {
    hide NormalizeText, NormalizeAppId, ApplyMapping, FirstRule, IsTrimmed;
    NormalizedIsPlain(raw.title);
    NormalizedIsPlain(raw.artist);
    NormalizedIsPlain(raw.album);
    NormalizedIsPlain(MappedPlayerName(config, raw));
    NormalizedIsPlain(raw.playerDisplayName);
    var key := NormalizeAppId(if raw.appId.Some? then raw.appId.value else RuleName(raw));
    var rule := FirstRule(config.rules, key);
    if rule.Some? {
      NormalizedIsPlain(rule.value.displayAlias);
    }
  }

  lemma EmittedApplicationIsSanitized(config: PrivacyConfig, info: RawApplication)
    ensures var a := ApplicationUnder(config, Some(info)); a.Some? ==> IsSanitizedApplication(a.value)
  {
    NormalizedIsPlain(ApplyMapping(config, ProcessName, info.appId));
    NormalizedIsPlain(Some(info.displayName));
    NormalizedIsPlain(info.windowTitle);
    HiddenLeaksNothing(config, info.appId);
  }

  lemma SanitizedApplicationMaps(a: SanitizedApplication)
    requires IsSanitizedApplication(a)
    ensures MapApplication(Some(a)).Ok?
  {
    PlainTextSurvives(a.displayName, DISPLAY_NAME_LIMIT);
  }

  lemma SanitizedPlaybackMapsExactly(p: SanitizedPlayback)
    requires IsSanitizedPlayback(p)
    ensures MapPlayback(p).Ok? <==> PlaybackFits(p)
  {
    if p.durationSeconds.Some? {
      MillisecondsAreNearest(p.durationSeconds.value, p.durationSeconds.value);
    }
    if p.positionSeconds.Some? {
      MillisecondsAreNearest(p.positionSeconds.value, p.positionSeconds.value);
    }
  }

  lemma SanitizedMediaMapsExactly(m: SanitizedMedia)
    requires IsSanitizedMedia(m.media)
    ensures MapMedia(Some(m)).Ok? <==> PlaybackFits(m.media.playback)
  {
    SanitizedPlaybackMapsExactly(m.media.playback);
    if m.media.title.Some? {
      PlainTextSurvives(m.media.title.value, MEDIA_TEXT_LIMIT);
    }
    if m.media.artist.Some? {
      PlainTextSurvives(m.media.artist.value, MEDIA_TEXT_LIMIT);
    }
  }

  predicate IsSanitized(s: SanitizedSnapshot) {
    && (s.application.Some? ==> IsSanitizedApplication(s.application.value))
    && (s.media.Some? ==> IsSanitizedMedia(s.media.value.media))
  }

  lemma CapturesAreSanitized(d: Delivery, t: Tracker)
    ensures IsSanitized(SnapshotOf(d, t))
  {
    hide IsSanitizedApplication, IsSanitizedMedia, SanitizeApplication, SanitizeMedia, DecideProcess, DecideMedia,
         MappedPlayerName;
    if d.foreground.Some? {
      EmittedApplicationIsSanitized(d.read3, d.foreground.value);
    }
    if d.answer.Some? {
      EmittedMediaIsSanitized(d.read2, d.answer.value);
    }
  }

  // No capture is lost in mapping: the request is built exactly when the dates are within the
  // calendar of the wire and the milliseconds within its integers.
  lemma EveryCaptureMapsExactly(d: Delivery, t: Tracker, sequence: nat, lease: real, options: RequestOptions,
      requestId: nat)
    ensures var snapshot := SnapshotOf(d, t);
            MakePresenceRequest(snapshot, sequence, lease, options, requestId).Ok? <==>
              && FIRST_WIRE_DATE <= d.observedAt <= LAST_WIRE_DATE
              && (snapshot.media.Some? ==> PlaybackFits(snapshot.media.value.media.playback))
  {
    var snapshot := SnapshotOf(d, t);
    CapturesAreSanitized(d, t);
    if snapshot.application.Some? {
      SanitizedApplicationMaps(snapshot.application.value);
    }
    if snapshot.media.Some? {
      SanitizedMediaMapsExactly(snapshot.media.value);
    }
  }

  // Each text is cut from the field it came from, and whole when it fits.
  ghost predicate IsCutFrom(text: Option<string>, wire: Option<string>, limit: nat) {
    && (text.None? <==> wire.None?)
    && (text.Some? ==> wire.value <= text.value && (wire == text <==> |text.value| <= limit))
    && (text.Some? ==> IsAllBut(wire.value, if |text.value| <= limit then text.value else text.value[..limit]))
  }

  lemma PlainIsCut(text: Option<string>, limit: nat)
    requires IsPlainText(text) && limit > 0
    ensures IsCutFrom(text, BoundedText(text, limit), limit)
  {
    if text.Some? {
      PlainTextSurvives(text.value, limit);
    }
  }

  // The nearest whole number of milliseconds, the later of two.
  predicate IsNearestMs(seconds: Option<real>, ms: Option<nat>) {
    && (seconds.None? <==> ms.None?)
    && (seconds.Some? ==> -0.5 < ms.value as real - seconds.value * 1000.0 <= 0.5)
  }

  predicate SaysThePlayback(w: WirePlayback, p: SanitizedPlayback) {
    && w.state == p.state && w.rate == p.rate && w.sampledAt.epochMs == p.sampledAt
    && IsNearestMs(p.durationSeconds, w.durationMs) && IsNearestMs(p.positionSeconds, w.positionMs)
  }

  ghost predicate SaysTheMedia(w: WireMedia, m: SanitizedMedia) {
    && w.sessionId == m.sessionId && w.kind == m.media.kind
    && IsCutFrom(m.media.title, w.title, 300) && IsCutFrom(m.media.artist, w.artist, 300)
    && IsCutFrom(m.media.album, w.album, 300) && IsCutFrom(m.media.playerDisplayName, w.player, 120)
    && SaysThePlayback(w.playback, m.media.playback)
  }

  ghost predicate SaysTheApplication(w: WireApplication, a: SanitizedApplication) {
    IsCutFrom(Some(a.displayName), Some(w.displayName), 120) && IsCutFrom(a.windowTitle, w.windowTitle, 500)
  }

  ghost predicate SaysTheSnapshot(r: PresenceRequest, s: SanitizedSnapshot) {
    && r.meta.observedAt.epochMs == s.observedAt
    && (r.application.Some? <==> s.application.Some?) && (r.media.Some? <==> s.media.Some?)
    && (r.application.Some? ==> SaysTheApplication(r.application.value, s.application.value))
    && (r.media.Some? ==> SaysTheMedia(r.media.value, s.media.value))
  }

  // A position within the duration is within it in milliseconds: the clamp changes nothing.
  lemma PlaybackIsSaid(p: SanitizedPlayback)
    requires IsSanitizedPlayback(p) && MapPlayback(p).Ok?
    ensures SaysThePlayback(MapPlayback(p).value, p)
  {
    hide Round;
    if p.durationSeconds.Some? {
      MillisecondsAreNearest(p.durationSeconds.value, p.durationSeconds.value);
    }
    if p.positionSeconds.Some? {
      MillisecondsAreNearest(p.positionSeconds.value, p.positionSeconds.value);
    }
    if p.durationSeconds.Some? && p.positionSeconds.Some? {
      MillisecondsAreInOrder(p.positionSeconds.value, p.durationSeconds.value);
    }
  }

  lemma MillisecondsAreInOrder(seconds: real, later: real)
    requires 0.0 <= seconds <= later
    ensures var ms, laterMs := SecondsToWireMilliseconds(Finite(seconds)), SecondsToWireMilliseconds(Finite(later));
            ms.Ok? && laterMs.Ok? ==> ms.value <= laterMs.value
  {
    MillisecondsAreNearest(seconds, later);
    assert (Round(seconds * 1000.0) as real).Floor == Round(seconds * 1000.0);
    assert (Round(later * 1000.0) as real).Floor == Round(later * 1000.0);
  }

  lemma ApplicationIsSaid(a: SanitizedApplication)
    requires IsSanitizedApplication(a)
    ensures MapApplication(Some(a)).Ok? && MapApplication(Some(a)).value.Some?
    ensures SaysTheApplication(MapApplication(Some(a)).value.value, a)
  {
    PlainIsCut(Some(a.displayName), 120);
    PlainIsCut(a.windowTitle, 500);
  }

  lemma MediaIsSaid(m: SanitizedMedia)
    requires IsSanitizedMedia(m.media) && MapMedia(Some(m)).Ok?
    ensures MapMedia(Some(m)).value.Some? && SaysTheMedia(MapMedia(Some(m)).value.value, m)
  {
    hide BoundedText, MapPlayback, IsCutFrom, SaysThePlayback, IsSanitizedPlayback, IsPlainText;
    PlainIsCut(m.media.title, 300);
    PlainIsCut(m.media.artist, 300);
    PlainIsCut(m.media.album, 300);
    PlainIsCut(m.media.playerDisplayName, 120);
    PlaybackIsSaid(m.media.playback);
  }

  lemma NothingMaps()
    ensures MapApplication(None) == Ok(None) && MapMedia(None) == Ok(None)
  {
  }

  // A request built from a sanitised snapshot says what the snapshot says, field by field, and is
  // stamped with the reserved sequence, the attempt's request id and the device.
  lemma RequestSaysTheSnapshot(snapshot: SanitizedSnapshot, sequence: nat, lease: real, options: RequestOptions,
      requestId: nat)
    requires IsSanitized(snapshot)
    ensures var r := MakePresenceRequest(snapshot, sequence, lease, options, requestId);
            r.Ok? ==>
              && SaysTheSnapshot(r.value, snapshot)
              && r.value.meta.sequence == sequence && r.value.meta.requestId == requestId
              && r.value.meta.deviceId == options.deviceId
              && r.value.meta.schema == PRESENCE_SCHEMA && r.value.meta.schemaVersion == PRESENCE_SCHEMA_VERSION
  {
    hide SaysTheApplication, SaysTheMedia, MapApplication, MapMedia, Clamp, Round;
    NothingMaps();
    if snapshot.application.Some? {
      ApplicationIsSaid(snapshot.application.value);
    }
    if snapshot.media.Some? && MapMedia(snapshot.media).Ok? {
      MediaIsSaid(snapshot.media.value);
    }
  }

  // ---- lease and heartbeat -------------------------------------------------------------------------------

  // The lease on the wire is the one the coordinator asked for, within the negotiated bounds; the
  // heartbeat renews it before it ends, three times over when the lease is three seconds or more.
  lemma LeaseAndHeartbeat(c: Configuration, snapshot: SanitizedSnapshot, sequence: nat, deviceId: string,
      requestId: nat)
    requires LimitsAreCoherent(c)
    ensures c.leaseMinSeconds <= RequestedLease(c) <= c.leaseMaxSeconds
    ensures var r := MakePresenceRequest(snapshot, sequence, RequestedLease(c) as real,
                                         RequestOptions(deviceId, c.leaseMinSeconds, c.leaseMaxSeconds), requestId);
            r.Ok? ==> r.value.ttlSeconds == RequestedLease(c)
    ensures 0.0 < HeartbeatPeriod(c) <= RequestedLease(c) as real
    ensures RequestedLease(c) >= 3 ==> 3.0 * HeartbeatPeriod(c) <= RequestedLease(c) as real
  {
    assert (RequestedLease(c) as real + 0.5).Floor == RequestedLease(c);
  }

  // For any requested lease and bounds that leave room: the ttl is the value within them nearest to the
  // lease in whole seconds.
  lemma TtlIsNearest(snapshot: SanitizedSnapshot, sequence: nat, lease: real, options: RequestOptions, requestId: nat,
      other: int)
    requires 0 <= options.leaseMinSeconds <= other <= options.leaseMaxSeconds
    ensures var r := MakePresenceRequest(snapshot, sequence, lease, options, requestId);
            r.Ok? ==>
              && options.leaseMinSeconds <= r.value.ttlSeconds <= options.leaseMaxSeconds
              && (other < r.value.ttlSeconds ==>
                   r.value.ttlSeconds <= Round(lease) || r.value.ttlSeconds == options.leaseMinSeconds)
              && (other > r.value.ttlSeconds ==>
                   r.value.ttlSeconds >= Round(lease) || r.value.ttlSeconds == options.leaseMaxSeconds)
  {
    hide MapApplication, MapMedia, Round;
  }

  // Any playback, sanitised or not, maps exactly when its rate fits its state and its times the wire.
  lemma PlaybackMapsExactly(p: SanitizedPlayback)
    ensures MapPlayback(p).Ok? <==>
              && (if p.state == Playing then 0.0 < p.rate <= 4.0 else p.rate == 0.0)
              && (p.durationSeconds.Some? ==> p.durationSeconds.value >= 0.0)
              && (p.positionSeconds.Some? ==> p.positionSeconds.value >= 0.0)
              && PlaybackFits(p)
  {
    if p.durationSeconds.Some? && p.durationSeconds.value >= 0.0 {
      MillisecondsAreNearest(p.durationSeconds.value, p.durationSeconds.value);
    }
    if p.positionSeconds.Some? && p.positionSeconds.value >= 0.0 {
      MillisecondsAreNearest(p.positionSeconds.value, p.positionSeconds.value);
    }
  }
}
