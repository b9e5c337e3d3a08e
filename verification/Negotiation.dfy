/** Capability negotiation: what the server offers against what this client speaks. */
module Negotiation {
  import opened Options
  import opened Orders
  import opened SemVer
  import opened Texts
  import Wire

  datatype CapabilitiesLimits = Limits(
    presencePayloadBytes: int,
    presenceRequestsPerMinute: int,
    presenceLeaseMinSeconds: int,
    presenceLeaseMaxSeconds: int,
    recommendedHeartbeatSeconds: int,
    maximumClockSkewSeconds: int)

  datatype CapabilitiesData = Capabilities(
    minimumClientVersion: string,
    presenceSchemaVersions: seq<int>,
    momentSchemaVersions: seq<int>,
    liveDesk: bool,
    mediaTimeline: bool,
    limits: CapabilitiesLimits)

  datatype Configuration = Configuration(
    supportsMediaTimeline: bool,
    maximumPayloadBytes: int,
    requestsPerMinute: nat,
    leaseMinSeconds: int,
    leaseMaxSeconds: int,
    recommendedHeartbeatSeconds: int,
    maximumClockSkewSeconds: int)

  datatype PresenceNegotiation =
    | Available(configuration: Configuration)
    | ClientUpdateRequired
    | SchemaUnsupported
    | FeatureUnavailable
    | InvalidCapabilities

  predicate LimitsAreCoherent(c: Configuration) {
    && c.maximumPayloadBytes > 0
    && c.requestsPerMinute > 0
    && 0 < c.leaseMinSeconds <= c.leaseMaxSeconds
    && c.leaseMinSeconds <= c.recommendedHeartbeatSeconds <= c.leaseMaxSeconds
    && c.maximumClockSkewSeconds >= 0
  }

  predicate LimitsAreValid(l: CapabilitiesLimits) {
    && l.presencePayloadBytes > 0
    && l.presenceRequestsPerMinute > 0
    && l.presenceLeaseMinSeconds > 0
    && l.presenceLeaseMinSeconds <= l.presenceLeaseMaxSeconds
    && l.presenceLeaseMinSeconds <= l.recommendedHeartbeatSeconds
    && l.recommendedHeartbeatSeconds <= l.presenceLeaseMaxSeconds
    && l.maximumClockSkewSeconds >= 0
  }

  predicate ArePositive(versions: seq<int>) {
    forall v <- versions :: v > 0
  }

  // The limits that a configuration carries, back in the document's form.
  function LimitsOf(c: Configuration): CapabilitiesLimits {
    Limits(c.maximumPayloadBytes, c.requestsPerMinute, c.leaseMinSeconds, c.leaseMaxSeconds,
           c.recommendedHeartbeatSeconds, c.maximumClockSkewSeconds)
  }

  function NegotiatePresence(capabilities: CapabilitiesData, clientVersion: string): (n: PresenceNegotiation)
    ensures n.Available? ==> LimitsAreCoherent(n.configuration)
    ensures n.Available? ==> LimitsOf(n.configuration) == capabilities.limits
    ensures n.Available? ==> n.configuration.supportsMediaTimeline == capabilities.mediaTimeline
  {
    var client, minimum := Parse(clientVersion), Parse(capabilities.minimumClientVersion);
    if client.None? || minimum.None?
       || !ArePositive(capabilities.presenceSchemaVersions)
       || !ArePositive(capabilities.momentSchemaVersions)
       || !LimitsAreValid(capabilities.limits) then
      InvalidCapabilities
    else if Compare(client.value, minimum.value) == Less then ClientUpdateRequired
    else if Wire.PRESENCE_SCHEMA_VERSION !in capabilities.presenceSchemaVersions then SchemaUnsupported
    else if !capabilities.liveDesk then FeatureUnavailable
    else
      var limits := capabilities.limits;
      Available(Configuration(
        capabilities.mediaTimeline,
        limits.presencePayloadBytes,
        limits.presenceRequestsPerMinute,
        limits.presenceLeaseMinSeconds,
        limits.presenceLeaseMaxSeconds,
        limits.recommendedHeartbeatSeconds,
        limits.maximumClockSkewSeconds))
  }

  // The capabilities document states the version `m`, optionally with build metadata.
  ghost predicate Demands(capabilities: CapabilitiesData, m: SemanticVersion) {
    && IsWellFormed(m)
    && Print(m) <= capabilities.minimumClientVersion
    && IsBuildTail(capabilities.minimumClientVersion[|Print(m)|..])
  }

  ghost predicate DemandsSome(capabilities: CapabilitiesData) {
    exists m :: Demands(capabilities, m)
  }

  // The demanded version takes precedence over `own`, as the comparator reads the two.
  ghost predicate DemandsAbove(capabilities: CapabilitiesData, own: SemanticVersion) {
    exists m :: Demands(capabilities, m) && Precedes(AsRead(own), AsRead(m))
  }

  // No version, schema list or limit in the document is malformed.
  ghost predicate IsCoherentDocument(capabilities: CapabilitiesData) {
    && DemandsSome(capabilities)
    && (forall v <- capabilities.presenceSchemaVersions :: v >= 1)
    && (forall v <- capabilities.momentSchemaVersions :: v >= 1)
    && exists c: Configuration :: LimitsOf(c) == capabilities.limits && LimitsAreCoherent(c)
  }

  // The check of the document's limits is that of the configuration they become.
  lemma LimitsSurvive(l: CapabilitiesLimits)
    ensures LimitsAreValid(l) <==> exists c: Configuration :: LimitsOf(c) == l && LimitsAreCoherent(c)
  {
    if LimitsAreValid(l) {
      var c := Configuration(
        false, l.presencePayloadBytes, l.presenceRequestsPerMinute, l.presenceLeaseMinSeconds,
        l.presenceLeaseMaxSeconds, l.recommendedHeartbeatSeconds, l.maximumClockSkewSeconds);
      assert LimitsOf(c) == l;
    }
  }

  // This client is such a released version.
  lemma OwnVersionParses()
    ensures Parse(Wire.PROTOCOL_CLIENT_VERSION) == Some(Version(1, 8, 3, []))
  {
    var v := Version(1, 8, 3, []);
    assert Digits(1) == "1" && Digits(8) == "8" && Digits(3) == "3";
    assert Join([Digits(8), Digits(3)], '.') == "8.3";
    assert [Digits(1), Digits(8), Digits(3)][1..] == [Digits(8), Digits(3)];
    assert Print(v) == Wire.PROTOCOL_CLIENT_VERSION;
    PrintedParses(v, "");
    assert Print(v) + "" == Print(v);
  }

  // The parser finds the demanded version, and there is one at most.
  lemma OnlyVersionDemanded(capabilities: CapabilitiesData)
    ensures Parse(capabilities.minimumClientVersion).Some? <==> DemandsSome(capabilities)
    ensures forall m :: Demands(capabilities, m) <==> Parse(capabilities.minimumClientVersion) == Some(m)
  {
    forall m ensures Demands(capabilities, m) <==> Parse(capabilities.minimumClientVersion) == Some(m) {
      ParserIsExact(capabilities.minimumClientVersion, m);
    }
    var minimum := Parse(capabilities.minimumClientVersion);
    if minimum.Some? {
      assert Demands(capabilities, minimum.value);
    }
  }

  lemma InvalidExactly(capabilities: CapabilitiesData, clientVersion: string)
    ensures NegotiatePresence(capabilities, clientVersion) == InvalidCapabilities <==>
              Parse(clientVersion).None? || !IsCoherentDocument(capabilities)
  {
    hide Parse, Compare, LimitsAreValid, LimitsAreCoherent;
    OnlyVersionDemanded(capabilities);
    LimitsSurvive(capabilities.limits);
  }

  // A client is told to update exactly when the document is coherent and demands a version above its own.
  lemma UpdateRequiredExactly(capabilities: CapabilitiesData, clientVersion: string, own: SemanticVersion)
    requires Parse(clientVersion) == Some(own)
    ensures NegotiatePresence(capabilities, clientVersion) == ClientUpdateRequired <==>
              IsCoherentDocument(capabilities) && DemandsAbove(capabilities, own)
  {
    hide Parse, ArePositive, LimitsAreValid, Compare, Precedes, AsRead;
    OnlyVersionDemanded(capabilities);
    InvalidExactly(capabilities, clientVersion);
    var minimum := Parse(capabilities.minimumClientVersion);
    ParsedIsPrinted(clientVersion, own);
    if minimum.Some? {
      ParsedIsPrinted(capabilities.minimumClientVersion, minimum.value);
      CompareIsPrecedenceAsRead(own, minimum.value);
    }
  }

  // Live Desk is available exactly when the document is coherent, demands nothing above the client,
  // speaks schema 2 and offers the feature.
  lemma AvailableExactly(capabilities: CapabilitiesData, clientVersion: string, own: SemanticVersion)
    requires Parse(clientVersion) == Some(own)
    ensures NegotiatePresence(capabilities, clientVersion).Available? <==>
              && IsCoherentDocument(capabilities)
              && !DemandsAbove(capabilities, own)
              && Wire.PRESENCE_SCHEMA_VERSION in capabilities.presenceSchemaVersions
              && capabilities.liveDesk
  {
    InvalidExactly(capabilities, clientVersion);
    UpdateRequiredExactly(capabilities, clientVersion, own);
  }

  // The two refusals in between: nothing above the client is demanded, and the one schema this client
  // speaks is not offered, or it is and the feature is not.
  lemma RefusalsExactly(capabilities: CapabilitiesData, clientVersion: string, own: SemanticVersion)
    requires Parse(clientVersion) == Some(own)
    ensures NegotiatePresence(capabilities, clientVersion) == SchemaUnsupported <==>
              IsCoherentDocument(capabilities) && !DemandsAbove(capabilities, own)
                && 2 !in capabilities.presenceSchemaVersions
    ensures NegotiatePresence(capabilities, clientVersion) == FeatureUnavailable <==>
              && IsCoherentDocument(capabilities) && !DemandsAbove(capabilities, own)
              && 2 in capabilities.presenceSchemaVersions && !capabilities.liveDesk
  {
    InvalidExactly(capabilities, clientVersion);
    UpdateRequiredExactly(capabilities, clientVersion, own);
    hide Parse, IsCoherentDocument, DemandsAbove, Compare, LimitsAreValid, ArePositive;
  }

  // This client is the release 1.8.3: a pre-release of 1.8.3 satisfies a demand by it, a pre-release of
  // 1.8.4 is demanded in vain.
  lemma ThisClientMustUpdateExactly(capabilities: CapabilitiesData)
    requires IsCoherentDocument(capabilities)
    ensures NegotiatePresence(capabilities, Wire.PROTOCOL_CLIENT_VERSION) == ClientUpdateRequired <==>
              exists m :: Demands(capabilities, m) && CoreBelow(Version(1, 8, 3, []), m)
  {
    hide NegotiatePresence, IsCoherentDocument, Demands, Parse;
    var own := Version(1, 8, 3, []);
    OwnVersionParses();
    UpdateRequiredExactly(capabilities, Wire.PROTOCOL_CLIENT_VERSION, own);
    assert AsRead(own) == own;
    forall m ensures Precedes(AsRead(own), AsRead(m)) <==> CoreBelow(own, m) {
    }
  }
}
