/** What a capture can and cannot emit. */
module CaptureTheorems {
  import opened Capture
  import opened CoordinatorModel
  import opened Fingerprint
  import opened FingerprintDecisions
  import opened MediaSessions
  import opened Model
  import opened Options
  import opened PrivacyPolicy
  import opened UserTexts

  // The coordinator's view of a capture is faithful: this is the outcome it distinguishes.
  function OutcomeOf(d: Delivery): CaptureOutcome {
    if !d.includeMedia then Untouched
    else if MediaOf(d).None? then Broken
    else Shared(IdentityOf(MediaOf(d).value))
  }

  lemma CaptureIsCoordinatorStep(d: Delivery, w: World)
    ensures UseTracker(w, OutcomeOf(d)).0 == w.(tracker := TrackerAfter(d, w.tracker))
    ensures UseTracker(w, OutcomeOf(d)).1 ==
            var media := SnapshotOf(d, w.tracker).media; if media.None? then None else Some(media.value.sessionId)
  {
  }

  // ---- fail closed -----------------------------------------------------------------------------------

  predicate HasText(value: Option<string>) {
    NormalizeText(value).Some?
  }

  // Media is emitted exactly when the first two reads allow the source, the media is playing, the
  // policy in force after the provider answered shares it and, if that policy asks for an artist,
  // there is one. A policy tightened while the provider was busy applies.
  lemma MediaEmittedExactly(d: Delivery)
    ensures MediaOf(d).Some? <==>
              && d.includeMedia && d.hasProvider && d.read1.sources.media && d.read2.sources.media
              && d.answer.Some? && d.answer.value.playing
              && DecideMedia(d.read2, d.answer.value.appId, RuleName(d.answer.value)).sharesMedia
              && (HasText(d.answer.value.artist) || (HasText(d.answer.value.title) && !d.read2.ignoreNullArtist))
  {
  }

  // The application and its title are governed by the last read alone: it is emitted exactly when
  // it is shared and has a name, and its title exactly when every switch shares it and it has one.
  lemma ApplicationEmittedExactly(config: PrivacyConfig, info: RawApplication)
    ensures var app, decision := ApplicationUnder(config, Some(info)), DecideProcess(config, info.appId);
            var mapped := ApplyMapping(config, ProcessName, info.appId);
            && (app.Some? <==>
                  && config.sources.application && decision.sharesApplication
                  && (decision.displayAlias.Some? || HasText(mapped) || HasText(Some(info.displayName))))
            && (app.Some? ==> (app.value.windowTitle.Some? <==>
                  config.shareWindowTitles && decision.sharesWindowTitle && HasText(info.windowTitle)))
  {
  }

  // All defaults hide and no rule insists on sharing.
  ghost predicate HidesByDefault(config: PrivacyConfig) {
    && config.defaults.application == Hide && config.defaults.media == Hide
    && forall r <- config.rules :: r.application != AlwaysShare && r.media != AlwaysShare
  }

  // Under such a policy nothing is emitted: no application, whatever the last read's other switches say,
  // and no media.
  lemma HiddenByDefaultEmitsNothing(d: Delivery, t: Tracker)
    ensures HidesByDefault(d.read3) ==> SnapshotOf(d, t).application.None?
    ensures HidesByDefault(d.read2) ==> SnapshotOf(d, t).media.None?
  {
    hide NormalizeAppId, NormalizeText, MappedPlayerName, ApplyMapping;
    if d.foreground.Some? && HidesByDefault(d.read3) {
      HiddenByDefault(d.read3, d.foreground.value.appId);
    }
    if d.answer.Some? && HidesByDefault(d.read2) {
      var raw := d.answer.value;
      HiddenByDefault(d.read2, if raw.appId.Some? then raw.appId.value else RuleName(raw));
    }
  }

  lemma HiddenByDefault(config: PrivacyConfig, name: string)
    requires HidesByDefault(config)
    ensures !DecideProcess(config, name).sharesApplication
    ensures !DecideMedia(config, Some(name), name).sharesMedia && !DecideMedia(config, None, name).sharesMedia
    ensures forall other :: DecideMedia(config, Some(name), other) == DecideMedia(config, Some(name), name)
  {
    var at := FirstRuleIsFirst(config.rules, NormalizeAppId(name));
    if at < |config.rules| {
      assert IsFirstFor(config.rules, at, NormalizeAppId(name)) && config.rules[at] in config.rules;
      FirstRuleDecides(config, at, name, name);
      if IsBlank(name) {
        UnattributedByDefault(config, name);
      }
    } else {
      UnruledByDefault(config, name, name);
      UnattributedByDefault(config, name);
    }
  }

  // ---- which mapping names a player -------------------------------------------------------------------

  // `to` is where the first mapping of this type for the name leads; absent when there is none.
  ghost predicate IsFirstMapped(mappings: seq<PrivacyMapping>, t: PrivacyMappingType, name: string,
      to: Option<string>) {
    if to.None? then forall m <- mappings :: m.mappingType == t ==> NormalizeAppId(m.from) != NormalizeAppId(name)
    else exists at ::
      && 0 <= at < |mappings| && mappings[at].mappingType == t
      && NormalizeAppId(mappings[at].from) == NormalizeAppId(name) && mappings[at].to == to.value
      && forall i :: 0 <= i < at && mappings[i].mappingType == t ==>
                       NormalizeAppId(mappings[i].from) != NormalizeAppId(name)
  }

  lemma FirstMappedIsApplied(config: PrivacyConfig, t: PrivacyMappingType, name: string)
    ensures IsFirstMapped(config.mappings, t, name, ApplyMapping(config, t, name))
  {
    hide NormalizeAppId;
    var at := FirstMappingIsFirst(config.mappings, t, NormalizeAppId(name));
    forall i | 0 <= i < at && config.mappings[i].mappingType == t
      ensures NormalizeAppId(config.mappings[i].from) != NormalizeAppId(name)
    {
      assert !Maps(config.mappings[i], t, NormalizeAppId(name));
    }
  }

  // A player is renamed by the first mapping for media players with its display name, or else by the
  // first for media processes with that same name. Without a display name it is never renamed, and
  // rules look it up by the raw session source instead.
  lemma PlayerIsFirstMapped(config: PrivacyConfig, raw: RawMedia)
    ensures raw.playerDisplayName.None? ==> MappedPlayerName(config, raw).None?
    ensures raw.playerDisplayName.Some? ==>
              var name, mapped := raw.playerDisplayName.value, MappedPlayerName(config, raw);
              if exists m <- config.mappings :: m.mappingType.MediaPlayerName?
                                                && NormalizeAppId(m.from) == NormalizeAppId(name)
              then IsFirstMapped(config.mappings, MediaPlayerName, name, mapped)
              else IsFirstMapped(config.mappings, MediaProcessName, name, mapped)
    ensures raw.playerDisplayName.Some? ==> RuleName(raw) == raw.playerDisplayName.value
    ensures raw.playerDisplayName.None? ==>
              if raw.sourceAppUserModelId.Some? then RuleName(raw) == raw.sourceAppUserModelId.value
              else RuleName(raw) == ""
  {
    hide NormalizeAppId, ApplyMapping;
    if raw.playerDisplayName.Some? {
      FirstMappedIsApplied(config, MediaPlayerName, raw.playerDisplayName.value);
      FirstMappedIsApplied(config, MediaProcessName, raw.playerDisplayName.value);
    }
  }

  // ---- what is emitted is what was captured ----------------------------------------------------------------

  // `text` is the visible part of the raw text: all of it but blank ends; absent when nothing is visible.
  ghost predicate IsVisiblePart(raw: Option<string>, text: Option<string>) {
    && (text.None? <==> raw.None? || IsBlank(raw.value))
    && (text.Some? ==> IsTrimmed(text.value) && text.value != "")
    && (text.Some? ==> exists left, right :: IsBlank(left) && IsBlank(right) && raw.value == left + text.value + right)
  }

  lemma NormalizedIsVisiblePart(raw: Option<string>)
    ensures IsVisiblePart(raw, NormalizeText(raw))
  {
    if raw.Some? {
      var left, right := TrimIsTheMiddle(raw.value);
    }
  }

  // An alias goes before a mapped name, a mapped name before the captured one.
  ghost predicate IsNameOf(alias: Option<string>, mapped: Option<string>, captured: Option<string>,
      name: Option<string>) {
    if alias.Some? then name == alias
    else if mapped.Some? && !IsBlank(mapped.value) then IsVisiblePart(mapped, name)
    else IsVisiblePart(captured, name)
  }

  lemma NameIsChosen(alias: Option<string>, mapped: Option<string>, captured: Option<string>)
    ensures IsNameOf(alias, mapped, captured, OrElse(alias, OrElse(NormalizeText(mapped), NormalizeText(captured))))
  {
    NormalizedIsVisiblePart(mapped);
    NormalizedIsVisiblePart(captured);
  }

  // The emitted media is the captured one: each text is the visible part of its own, unusable times
  // are absent, and the position is held within the duration.
  lemma EmittedMediaIsCaptured(config: PrivacyConfig, raw: RawMedia)
    requires MediaUnder(config, Some(raw)).Some?
    ensures var m := MediaUnder(config, Some(raw)).value;
            && m.kind == raw.kind
            && IsVisiblePart(raw.title, m.title) && IsVisiblePart(raw.artist, m.artist)
                 && IsVisiblePart(raw.album, m.album)
            && IsNameOf(DecideMedia(config, raw.appId, RuleName(raw)).displayAlias, MappedPlayerName(config, raw),
                        raw.playerDisplayName, m.playerDisplayName)
            && IsUsable(raw.durationSeconds, m.playback.durationSeconds)
            && IsHeld(raw.positionSeconds, m.playback.durationSeconds, m.playback.positionSeconds)
            && m.playback.sampledAt == raw.sampledAt && m.playback.state == Playing && m.playback.rate == 1.0
  {
    NormalizedIsVisiblePart(raw.title);
    NormalizedIsVisiblePart(raw.artist);
    NormalizedIsVisiblePart(raw.album);
    NameIsChosen(DecideMedia(config, raw.appId, RuleName(raw)).displayAlias, MappedPlayerName(config, raw),
      raw.playerDisplayName);
  }

  predicate IsUsable(raw: Option<Seconds>, seconds: Option<real>) {
    && (seconds.Some? <==> raw.Some? && raw.value.Finite? && raw.value.value >= 0.0)
    && (seconds.Some? ==> seconds.value == raw.value.value)
  }

  predicate IsHeld(raw: Option<Seconds>, duration: Option<real>, position: Option<real>) {
    && (position.Some? <==> raw.Some? && raw.value.Finite? && raw.value.value >= 0.0)
    && (position.Some? ==> position.value <= raw.value.value)
    && (position.Some? && duration.Some? ==> position.value <= duration.value)
    && (position.Some? && position.value < raw.value.value ==> position == duration)
  }

  lemma EmittedApplicationIsCaptured(config: PrivacyConfig, info: RawApplication)
    requires ApplicationUnder(config, Some(info)).Some?
    ensures var a := ApplicationUnder(config, Some(info)).value;
            && IsNameOf(DecideProcess(config, info.appId).displayAlias, ApplyMapping(config, ProcessName, info.appId),
                        Some(info.displayName), Some(a.displayName))
            && (a.windowTitle.Some? ==> IsVisiblePart(info.windowTitle, a.windowTitle))
  {
    NameIsChosen(DecideProcess(config, info.appId).displayAlias, ApplyMapping(config, ProcessName, info.appId),
      Some(info.displayName));
    NormalizedIsVisiblePart(info.windowTitle);
  }

  // ---- sessions --------------------------------------------------------------------------------------

  // One track as the user knows it; position, sample time, state and rate are free.
  predicate SameTrack(m: SanitizedMediaWithoutSession, n: SanitizedMediaWithoutSession) {
    && m.kind == n.kind && m.title == n.title && m.artist == n.artist && m.album == n.album
    && m.playerDisplayName == n.playerDisplayName && m.playback.durationSeconds == n.playback.durationSeconds
  }

  // Two captures in a row that emit media carry one session id exactly when they emit one track.
  lemma NextCaptureSharesTheSession(d: Delivery, e: Delivery, t: Tracker)
    requires Fresh(t) && SnapshotOf(d, t).media.Some? && SnapshotOf(e, TrackerAfter(d, t)).media.Some?
    ensures var m, n := SnapshotOf(d, t).media.value, SnapshotOf(e, TrackerAfter(d, t)).media.value;
            m.sessionId == n.sessionId <==> SameTrack(m.media, n.media)
  {
    AsksForMedia(d);
    hide MediaOf, ApplicationUnder;
  }

  function TrackerAfterAll(ds: seq<Delivery>, t: Tracker): Tracker {
    if ds == [] then t else TrackerAfter(ds[|ds| - 1], TrackerAfterAll(ds[..|ds| - 1], t))
  }

  // The snapshot of the i-th capture of a history.
  function SnapshotAt(ds: seq<Delivery>, t: Tracker, i: nat): SanitizedSnapshot
    requires i < |ds|
  {
    SnapshotOf(ds[i], TrackerAfterAll(ds[..i], t))
  }

  // From the i-th capture to the j-th every one that asked for media emitted that one track.
  ghost predicate Unbroken(ds: seq<Delivery>, i: nat, j: nat)
    requires i <= j < |ds|
  {
    forall k :: i <= k <= j && ds[k].includeMedia ==>
      MediaOf(ds[k]).Some? && MediaOf(ds[i]).Some? && SameTrack(MediaOf(ds[i]).value, MediaOf(ds[k]).value)
  }

  lemma {:induction false} StaysFresh(ds: seq<Delivery>, t: Tracker)
    requires Fresh(t)
    ensures Fresh(TrackerAfterAll(ds, t))
  {
    if ds != [] {
      StaysFresh(ds[..|ds| - 1], t);
    }
  }

  lemma {:induction false} SessionIsRemembered(ds: seq<Delivery>, t: Tracker, i: nat)
    requires Fresh(t) && i < |ds| && MediaOf(ds[i]).Some?
    ensures var now, id := TrackerAfterAll(ds, t), SnapshotAt(ds, t, i).media.value.sessionId;
            && id < now.nextId
            && (Unbroken(ds, i, |ds| - 1) <==> now.current.Some? && now.current.value.1 == id)
            && (Unbroken(ds, i, |ds| - 1) ==> now.current.value.0 == IdentityOf(MediaOf(ds[i]).value))
  {
    hide MediaOf, ApplicationUnder;
    var n := |ds| - 1;
    var before := ds[..n];
    StaysFresh(before, t);
    AsksForMedia(ds[i]);
    AsksForMedia(ds[n]);
    if i < n {
      assert before[..i] == ds[..i];
      SessionIsRemembered(before, t, i);
      var goesOn := ds[n].includeMedia ==>
        MediaOf(ds[n]).Some? && SameTrack(MediaOf(ds[i]).value, MediaOf(ds[n]).value);
      assert Unbroken(ds, i, n) <==> Unbroken(before, i, n - 1) && goesOn;
    }
  }

  lemma AsksForMedia(d: Delivery)
    ensures MediaOf(d).Some? ==> d.includeMedia
  {
  }

  // Two captures of any history carry one session id exactly when every capture from the first to the
  // second that asked for media emitted that one track: no other track, no pause, nothing hidden.
  lemma SameSessionIffSameTrack(ds: seq<Delivery>, t: Tracker, i: nat, j: nat)
    requires Fresh(t) && i <= j < |ds|
    requires SnapshotAt(ds, t, i).media.Some? && SnapshotAt(ds, t, j).media.Some?
    ensures SnapshotAt(ds, t, i).media.value.sessionId == SnapshotAt(ds, t, j).media.value.sessionId <==>
              Unbroken(ds, i, j)
  {
    hide MediaOf, ApplicationUnder, IdentityOf;
    var upto := ds[..j + 1];
    assert upto[..i] == ds[..i] && upto[..j] == ds[..j];
    SessionIsRemembered(upto, t, i);
    SessionIsRemembered(upto, t, j);
    AsksForMedia(ds[j]);
    assert Unbroken(upto, i, j) <==> Unbroken(ds, i, j);
  }

  // ---- monotonicity ------------------------------------------------------------------------------------

  predicate StricterDefault(loose: PrivacyDefault, strict: PrivacyDefault) {
    strict == loose || strict == Hide
  }

  predicate StricterOverride(loose: PrivacyOverride, strict: PrivacyOverride) {
    strict == loose || strict == AlwaysHide
  }

  predicate StricterRule(loose: ApplicationPrivacyRule, strict: ApplicationPrivacyRule) {
    && strict.appId == loose.appId && strict.displayAlias == loose.displayAlias
    && StricterOverride(loose.application, strict.application)
    && StricterOverride(loose.windowTitle, strict.windowTitle)
    && StricterOverride(loose.media, strict.media)
  }

  // Any choice of defaults and overrides turned to hide, and switches turned to their stricter value.
  ghost predicate Stricter(loose: PrivacyConfig, strict: PrivacyConfig) {
    && StricterDefault(loose.defaults.application, strict.defaults.application)
    && StricterDefault(loose.defaults.windowTitle, strict.defaults.windowTitle)
    && StricterDefault(loose.defaults.media, strict.defaults.media)
    && |loose.rules| == |strict.rules|
    && (forall i :: 0 <= i < |loose.rules| ==> StricterRule(loose.rules[i], strict.rules[i]))
    && loose.mappings == strict.mappings
    && (strict.shareWindowTitles ==> loose.shareWindowTitles)
    && (loose.ignoreNullArtist ==> strict.ignoreNullArtist)
    && (strict.sources.application ==> loose.sources.application)
    && (strict.sources.media ==> loose.sources.media)
  }

  lemma LookupUnderStricter(loose: seq<ApplicationPrivacyRule>, strict: seq<ApplicationPrivacyRule>, key: string)
    requires |loose| == |strict| && forall i :: 0 <= i < |loose| ==> StricterRule(loose[i], strict[i])
    ensures FirstRule(loose, key).Some? <==> FirstRule(strict, key).Some?
    ensures FirstRule(loose, key).Some? ==> StricterRule(FirstRule(loose, key).value, FirstRule(strict, key).value)
  {
    var i := FirstRuleIsFirst(loose, key);
    var j := FirstRuleIsFirst(strict, key);
    assert forall k :: 0 <= k < |loose| ==> strict[k].appId == loose[k].appId;
    assert i == j;
  }

  // A stricter decision shares the same things or fewer.
  lemma DecisionsUnderStricter(loose: PrivacyConfig, strict: PrivacyConfig, appId: string, mediaAppId: Option<string>,
      playerName: string)
    requires Stricter(loose, strict)
    ensures var p, q := DecideProcess(loose, appId), DecideProcess(strict, appId);
            && (q.sharesApplication ==> p.sharesApplication && q.displayAlias == p.displayAlias)
            && (q.sharesWindowTitle ==> p.sharesWindowTitle)
    ensures var m, n := DecideMedia(loose, mediaAppId, playerName), DecideMedia(strict, mediaAppId, playerName);
            n.sharesMedia ==> m == n
  {
    LookupUnderStricter(loose.rules, strict.rules, NormalizeAppId(appId));
    LookupUnderStricter(loose.rules, strict.rules,
      NormalizeAppId(if mediaAppId.Some? then mediaAppId.value else playerName));
  }

  predicate SameOrAbsent<T(==)>(value: Option<T>, reduced: Option<T>) {
    reduced == value || reduced == None
  }

  predicate ReducedApplication(app: Option<SanitizedApplication>, reduced: Option<SanitizedApplication>) {
    reduced.Some? ==>
      app.Some? && reduced.value.displayName == app.value.displayName
        && SameOrAbsent(app.value.windowTitle, reduced.value.windowTitle)
  }

  lemma ApplicationUnderStricter(loose: PrivacyConfig, strict: PrivacyConfig, info: Option<RawApplication>)
    requires Stricter(loose, strict)
    ensures ReducedApplication(ApplicationUnder(loose, info), ApplicationUnder(strict, info))
  {
    if info.Some? {
      DecisionsUnderStricter(loose, strict, info.value.appId, None, "");
      assert ApplyMapping(loose, ProcessName, info.value.appId) == ApplyMapping(strict, ProcessName, info.value.appId);
    }
  }

  lemma MediaUnderStricter(loose: PrivacyConfig, strict: PrivacyConfig, raw: Option<RawMedia>)
    requires Stricter(loose, strict)
    ensures SameOrAbsent(MediaUnder(loose, raw), MediaUnder(strict, raw))
  {
    if raw.Some? {
      DecisionsUnderStricter(loose, strict, "", raw.value.appId, RuleName(raw.value));
      assert MappedPlayerName(loose, raw.value) == MappedPlayerName(strict, raw.value);
    }
  }

  // Making the policy stricter, at any of the three reads, leaves every field of the snapshot as it
  // was or takes it away; the session id alone may change.
  lemma StricterPolicyReducesSnapshot(d: Delivery, e: Delivery, t: Tracker, u: Tracker)
    requires e == d.(read1 := e.read1, read2 := e.read2, read3 := e.read3)
    requires Stricter(d.read1, e.read1) && Stricter(d.read2, e.read2) && Stricter(d.read3, e.read3)
    ensures var s, r := SnapshotOf(d, t), SnapshotOf(e, u);
            && r.observedAt == s.observedAt
            && ReducedApplication(s.application, r.application)
            && (r.media.Some? ==> s.media.Some? && r.media.value.media == s.media.value.media)
  {
    ApplicationUnderStricter(d.read3, e.read3, d.foreground);
    MediaUnderStricter(d.read2, e.read2, d.answer);
  }

  // ---- the fingerprint determines the snapshot ------------------------------------------------------------

  lemma ApplicationBySameLookups(c: PrivacyConfig, d: PrivacyConfig, info: Option<RawApplication>)
    requires SameLookups(c, d)
    ensures ApplicationUnder(c, info) == ApplicationUnder(d, info)
  {
    if info.Some? {
      SameLookupsSameDecisions(c, d, info.value.appId, None, "", ProcessName, info.value.appId);
    }
  }

  lemma MediaBySameLookups(c: PrivacyConfig, d: PrivacyConfig, raw: Option<RawMedia>)
    requires SameLookups(c, d)
    ensures MediaUnder(c, raw) == MediaUnder(d, raw)
  {
    if raw.Some? {
      var name := if raw.value.playerDisplayName.None? then "" else raw.value.playerDisplayName.value;
      SameLookupsSameDecisions(c, d, "", raw.value.appId, RuleName(raw.value), MediaPlayerName, name);
      SameLookupsSameDecisions(c, d, "", raw.value.appId, RuleName(raw.value), MediaProcessName, name);
    }
  }

  ghost predicate SameFingerprint(c: PrivacyConfig, d: PrivacyConfig) {
    Preimage(c) == Preimage(d) && IsUnambiguous(c) && IsUnambiguous(d)
  }

  // Read for read the same fingerprint text: the same snapshot, for every raw capture.
  lemma SameFingerprintSameSnapshot(d: Delivery, e: Delivery, t: Tracker)
    requires e == d.(read1 := e.read1, read2 := e.read2, read3 := e.read3)
    requires SameFingerprint(d.read1, e.read1) && SameFingerprint(d.read2, e.read2) && SameFingerprint(d.read3, e.read3)
    ensures SnapshotOf(d, t) == SnapshotOf(e, t) && TrackerAfter(d, t) == TrackerAfter(e, t)
  {
    hide MediaUnder, ApplicationUnder, Preimage, IsUnambiguous, SameEffects, SameMappings;
    SamePreimageSameLookups(d.read1, e.read1);
    SamePreimageSameLookups(d.read2, e.read2);
    SamePreimageSameLookups(d.read3, e.read3);
    MediaBySameLookups(d.read2, e.read2, d.answer);
    ApplicationBySameLookups(d.read3, e.read3, d.foreground);
  }
}
