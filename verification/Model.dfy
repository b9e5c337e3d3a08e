/** Entities of `core/src/model.rs` that more than one component uses. */
module Model {
  import opened Options

  // Largest integer legal on the wire and in sequence.json: 2^53 - 1.
  const MAXIMUM_SAFE_WIRE_INTEGER: nat := 9_007_199_254_740_991

  datatype PrivacyDefault = Share | Hide

  datatype PrivacyOverride = InheritDefault | AlwaysShare | AlwaysHide

  datatype ApplicationPrivacyRule = Rule(
    appId: string,
    application: PrivacyOverride,
    windowTitle: PrivacyOverride,
    media: PrivacyOverride,
    displayAlias: Option<string>)

  datatype PrivacyMappingType = ProcessName | MediaProcessName | MediaPlayerName

  datatype PrivacyMapping = Mapping(mappingType: PrivacyMappingType, from: string, to: string)

  datatype PrivacyDefaults = Defaults(application: PrivacyDefault, windowTitle: PrivacyDefault, media: PrivacyDefault)

  datatype PrivacySources = Sources(application: bool, media: bool)

  datatype PrivacyConfig = PrivacyConfig(
    defaults: PrivacyDefaults,
    rules: seq<ApplicationPrivacyRule>,
    mappings: seq<PrivacyMapping>,
    shareWindowTitles: bool,
    ignoreNullArtist: bool,
    sources: PrivacySources)

  datatype MediaKind = Music | Podcast | Video | UnknownMedia

  datatype PlaybackState = Playing | Paused

  // A captured number of seconds: an f64 is either finite or unusable.
  datatype Seconds = Finite(value: real) | NotFinite

  datatype SanitizedPlayback = Playback(
    state: PlaybackState,
    durationSeconds: Option<real>,
    positionSeconds: Option<real>,
    sampledAt: int,
    rate: real)

  datatype SanitizedApplication = SanitizedApplication(displayName: string, windowTitle: Option<string>)

  datatype SanitizedMediaWithoutSession = MediaWithoutSession(
    kind: MediaKind,
    title: Option<string>,
    artist: Option<string>,
    album: Option<string>,
    playerDisplayName: Option<string>,
    playback: SanitizedPlayback)

  datatype SanitizedMedia = SanitizedMedia(sessionId: nat, media: SanitizedMediaWithoutSession)

  datatype SanitizedSnapshot = Snapshot(
    observedAt: int,
    application: Option<SanitizedApplication>,
    media: Option<SanitizedMedia>)
}
