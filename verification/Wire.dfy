/** Wire primitives and the mapping of a snapshot to a request: `protocol/wire.rs`, `protocol/dto_mapper.rs`. */
module Wire {
  import opened Model
  import opened Options
  import opened UserTexts

  datatype WireError =
    | EmptyDisplayName
    | TitleOrArtistMissing
    | RateOutOfRange
    | PausedWithRate
    | PlayingWithoutRate
    | InvalidSeconds
    | IntegerOutOfRange
    | DateOutOfRange

  const PRESENCE_SCHEMA := "yohaku.companion.presence"
  const PRESENCE_SCHEMA_VERSION := 2
  const PROTOCOL_CLIENT_VERSION := "1.8.3"

  // ---- integers, seconds and dates -----------------------------------------------------------------

  function RequireWireInteger(value: Seconds): Result<nat, WireError> {
    if value.NotFinite? || value.value != value.value.Floor as real || value.value < 0.0
       || value.value > MAXIMUM_SAFE_WIRE_INTEGER as real then
      Err(IntegerOutOfRange)
    else Ok(value.value.Floor)
  }

  // Half-way cases go away from zero.
  function Round(x: real): int {
    if x >= 0.0 then (x + 0.5).Floor else -((-x + 0.5).Floor)
  }

  function SecondsToWireMilliseconds(seconds: Seconds): Result<nat, WireError> {
    if seconds.NotFinite? || seconds.value < 0.0 then Err(InvalidSeconds)
    else RequireWireInteger(Finite(Round(seconds.value * 1000.0) as real))
  }

  // The years 0000 to 9999 in epoch milliseconds; other dates do not have the canonical shape.
  const FIRST_WIRE_DATE: int := -62_167_219_200_000
  const LAST_WIRE_DATE: int := 253_402_300_799_999

  datatype WireDate = WireDate(epochMs: int)

  function EncodeWireDate(epochMs: int): Result<WireDate, WireError> {
    if FIRST_WIRE_DATE <= epochMs <= LAST_WIRE_DATE then Ok(WireDate(epochMs)) else Err(DateOutOfRange)
  }

  // The milliseconds are the nearest ones, the later of two, and too large is the only way to fail.
  lemma MillisecondsAreNearest(seconds: real, later: real)
    requires 0.0 <= seconds <= later
    ensures var ms := SecondsToWireMilliseconds(Finite(seconds));
            && (ms.Ok? <==> Round(seconds * 1000.0) <= MAXIMUM_SAFE_WIRE_INTEGER)
            && (ms.Ok? ==> -0.5 < ms.value as real - seconds * 1000.0 <= 0.5)
    ensures Round(seconds * 1000.0) <= Round(later * 1000.0)
  {
    var x, y := seconds * 1000.0, later * 1000.0;
    assert 0.0 <= x <= y;
    var k := Round(x);
    assert k >= 0 && (k as real).Floor == k;
  }

  // ---- texts -------------------------------------------------------------------------------------------

  const DISPLAY_NAME_LIMIT: nat := 120
  const WINDOW_TITLE_LIMIT: nat := 500
  const MEDIA_TEXT_LIMIT: nat := 300

  // Cut at a scalar boundary first, then trimmed; blank is absent.
  function BoundedText(value: Option<string>, limit: nat): Option<string> {
    if value.None? then None
    else
      var truncated := if |value.value| <= limit then value.value else value.value[..limit];
      var trimmed := JsTrim(truncated);
      if trimmed == "" then None else Some(trimmed)
  }

  // ---- requests -------------------------------------------------------------------------------------------

  datatype Meta = Meta(schema: string, schemaVersion: nat, requestId: nat, deviceId: string, sequence: nat,
      observedAt: WireDate)

  datatype WireApplication = WireApplication(displayName: string, windowTitle: Option<string>)

  datatype WirePlayback = WirePlayback(
    state: PlaybackState, durationMs: Option<nat>, positionMs: Option<nat>, sampledAt: WireDate, rate: real)

  datatype WireMedia = WireMedia(
    sessionId: nat,
    kind: MediaKind,
    title: Option<string>,
    artist: Option<string>,
    album: Option<string>,
    player: Option<string>,
    playback: WirePlayback)

  datatype Availability = Active | Idle

  datatype PresenceRequest = PresenceRequest(
    meta: Meta, availability: Availability, ttlSeconds: nat,
    application: Option<WireApplication>, media: Option<WireMedia>)

  datatype RequestOptions = RequestOptions(deviceId: string, leaseMinSeconds: int, leaseMaxSeconds: int)

  function MapApplication(application: Option<SanitizedApplication>): Result<Option<WireApplication>, WireError> {
    if application.None? then Ok(None)
    else
      var name := BoundedText(Some(application.value.displayName), DISPLAY_NAME_LIMIT);
      if name.None? then Err(EmptyDisplayName)
      else Ok(Some(WireApplication(name.value, BoundedText(application.value.windowTitle, WINDOW_TITLE_LIMIT))))
  }

  function OptionalMilliseconds(seconds: Option<real>): Result<Option<nat>, WireError> {
    if seconds.None? then Ok(None)
    else
      var ms := SecondsToWireMilliseconds(Finite(seconds.value));
      if ms.Err? then Err(ms.error) else Ok(Some(ms.value))
  }

  // The checks in the order in which they fail.
  function MapPlayback(playback: SanitizedPlayback): Result<WirePlayback, WireError> {
    if !(0.0 <= playback.rate <= 4.0) then Err(RateOutOfRange)
    else if playback.state == Paused && playback.rate != 0.0 then Err(PausedWithRate)
    else if playback.state == Playing && playback.rate <= 0.0 then Err(PlayingWithoutRate)
    else
      var duration := OptionalMilliseconds(playback.durationSeconds);
      if duration.Err? then Err(duration.error)
      else
        var position := OptionalMilliseconds(playback.positionSeconds);
        if position.Err? then Err(position.error)
        else
          var sampled := EncodeWireDate(playback.sampledAt);
          if sampled.Err? then Err(sampled.error)
          else
            var p, d := position.value, duration.value;
            var clamped := if p.Some? && d.Some? && p.value > d.value then d else p;
            Ok(WirePlayback(playback.state, d, clamped, sampled.value, playback.rate))
  }

  function MapMedia(media: Option<SanitizedMedia>): Result<Option<WireMedia>, WireError> {
    if media.None? then Ok(None)
    else
      var m := media.value.media;
      var title, artist, album :=
        BoundedText(m.title, MEDIA_TEXT_LIMIT), BoundedText(m.artist, MEDIA_TEXT_LIMIT),
        BoundedText(m.album, MEDIA_TEXT_LIMIT);
      if title.None? && artist.None? then Err(TitleOrArtistMissing)
      else
        var player := BoundedText(m.playerDisplayName, DISPLAY_NAME_LIMIT);
        var playback := MapPlayback(m.playback);
        if playback.Err? then Err(playback.error)
        else Ok(Some(WireMedia(media.value.sessionId, m.kind, title, artist, album, player, playback.value)))
  }

  function Clamp(value: int, least: int, most: int): nat {
    var raised := if value < least then least else value;
    var lowered := if most < raised then most else raised;
    if lowered < 0 then 0 else lowered
  }

  // The random request id is the caller's; a retry sends the same request.
  function MakePresenceRequest(
    snapshot: SanitizedSnapshot, sequence: nat, requestedLeaseSeconds: real, options: RequestOptions, requestId: nat)
    : Result<PresenceRequest, WireError>
  {
    var application := MapApplication(snapshot.application);
    if application.Err? then Err(application.error)
    else
      var media := MapMedia(snapshot.media);
      if media.Err? then Err(media.error)
      else
        var ttl := Clamp(Round(requestedLeaseSeconds), options.leaseMinSeconds, options.leaseMaxSeconds);
        var observedAt := EncodeWireDate(snapshot.observedAt);
        if observedAt.Err? then Err(observedAt.error)
        else
          var meta := Meta(PRESENCE_SCHEMA, PRESENCE_SCHEMA_VERSION, requestId, options.deviceId, sequence,
            observedAt.value);
          var availability := if application.value.None? && media.value.None? then Idle else Active;
          Ok(PresenceRequest(meta, availability, ttl, application.value, media.value))
  }
}
