/** Rules, mappings and decisions: `privacy/model.rs` and `privacy/evaluator.rs`. */
module PrivacyPolicy {
  import opened Model
  import opened Options
  import opened UserTexts

  function ResolveOverride(value: PrivacyOverride, fallback: PrivacyDefault): PrivacyDefault {
    match value
    case InheritDefault => fallback
    case AlwaysShare => Share
    case AlwaysHide => Hide
  }

  // All overrides inherit and the alias is absent or blank: the rule says nothing.
  predicate IsEmptyRule(rule: ApplicationPrivacyRule) {
    && rule.application.InheritDefault? && rule.windowTitle.InheritDefault? && rule.media.InheritDefault?
    && NormalizeText(rule.displayAlias).None?
  }

  function NormalizedRule(rule: ApplicationPrivacyRule): ApplicationPrivacyRule {
    Rule(NormalizeAppId(rule.appId), rule.application, rule.windowTitle, rule.media, NormalizeText(rule.displayAlias))
  }

  // The first rule, in array order, whose normalised id is `key`, as it stands in the configuration.
  function FirstRule(rules: seq<ApplicationPrivacyRule>, key: string): Option<ApplicationPrivacyRule> {
    if rules == [] then None
    else if NormalizeAppId(rules[0].appId) == key then Some(rules[0])
    else FirstRule(rules[1..], key)
  }

  function FindRule(config: PrivacyConfig, appId: string): Option<ApplicationPrivacyRule> {
    FirstRule(config.rules, NormalizeAppId(appId))
  }

  // Media without an executable is matched by its player's name; a blank name matches nothing.
  function FindRuleByPlayerName(config: PrivacyConfig, playerName: string): Option<ApplicationPrivacyRule> {
    var key := NormalizeAppId(playerName);
    if key == "" then None else FirstRule(config.rules, key)
  }

  predicate Maps(m: PrivacyMapping, mappingType: PrivacyMappingType, key: string) {
    m.mappingType == mappingType && NormalizeAppId(m.from) == key
  }

  function FirstMapping(mappings: seq<PrivacyMapping>, mappingType: PrivacyMappingType,
      key: string): Option<PrivacyMapping> {
    if mappings == [] then None
    else if Maps(mappings[0], mappingType, key) then Some(mappings[0])
    else FirstMapping(mappings[1..], mappingType, key)
  }

  function ApplyMapping(config: PrivacyConfig, mappingType: PrivacyMappingType, from: string): Option<string> {
    var m := FirstMapping(config.mappings, mappingType, NormalizeAppId(from));
    if m.None? then None else Some(m.value.to)
  }

  datatype ProcessDecision = ProcessDecision(sharesApplication: bool, sharesWindowTitle: bool,
      displayAlias: Option<string>)

  datatype MediaDecision = MediaDecision(sharesMedia: bool, displayAlias: Option<string>)

  function AliasOf(rule: Option<ApplicationPrivacyRule>): Option<string> {
    if rule.None? then None else NormalizeText(rule.value.displayAlias)
  }

  function DecideProcess(config: PrivacyConfig, appId: string): ProcessDecision {
    var rule := FindRule(config, appId);
    var application := if rule.None? then InheritDefault else rule.value.application;
    var windowTitle := if rule.None? then InheritDefault else rule.value.windowTitle;
    var hidden := ResolveOverride(application, config.defaults.application) == Hide;
    var windowShared := ResolveOverride(windowTitle, config.defaults.windowTitle) == Share;
    ProcessDecision(!hidden, !hidden && windowShared, if hidden then None else AliasOf(rule))
  }

  // With an application id only the id is looked up, without one only the player's name.
  function DecideMedia(config: PrivacyConfig, appId: Option<string>, playerName: string): MediaDecision {
    var rule := if appId.Some? then FindRule(config, appId.value) else FindRuleByPlayerName(config, playerName);
    var media := if rule.None? then InheritDefault else rule.value.media;
    var hidden := ResolveOverride(media, config.defaults.media) == Hide;
    MediaDecision(!hidden, if hidden then None else AliasOf(rule))
  }

  // ---- what a lookup finds -------------------------------------------------------------------------------

  lemma {:induction false} FirstRuleIsFirst(rules: seq<ApplicationPrivacyRule>, key: string) returns (at: nat)
    ensures at <= |rules|
    ensures forall i :: 0 <= i < at ==> NormalizeAppId(rules[i].appId) != key
    ensures FirstRule(rules, key) == if at == |rules| then None else Some(rules[at])
    ensures at < |rules| ==> NormalizeAppId(rules[at].appId) == key
  {
    if rules == [] || NormalizeAppId(rules[0].appId) == key {
      at := 0;
    } else {
      var inner := FirstRuleIsFirst(rules[1..], key);
      at := inner + 1;
    }
  }

  lemma {:induction false} FirstMappingIsFirst(mappings: seq<PrivacyMapping>, t: PrivacyMappingType, key: string)
    returns (at: nat)
    ensures at <= |mappings|
    ensures forall i :: 0 <= i < at ==> !Maps(mappings[i], t, key)
    ensures FirstMapping(mappings, t, key) == if at == |mappings| then None else Some(mappings[at])
    ensures at < |mappings| ==> Maps(mappings[at], t, key)
  {
    if mappings == [] || Maps(mappings[0], t, key) {
      at := 0;
    } else {
      var inner := FirstMappingIsFirst(mappings[1..], t, key);
      at := inner + 1;
    }
  }

  // A hidden application leaks neither its title nor its alias, and an alias shown is never blank.
  lemma HiddenLeaksNothing(config: PrivacyConfig, appId: string)
    ensures var p := DecideProcess(config, appId);
            && (!p.sharesApplication ==> !p.sharesWindowTitle && p.displayAlias.None?)
            && (p.displayAlias.Some? ==> IsTrimmed(p.displayAlias.value) && p.displayAlias.value != "")
  {
    var rule := FindRule(config, appId);
    if rule.Some? {
      NormalizationIsIdempotent(rule.value.displayAlias, appId);
    }
  }

  // The application dimension does not reach the media decision: an edit that leaves every rule's id,
  // media override and alias alone leaves every media decision alone.
  lemma MediaIsIndependent(before: PrivacyConfig, after: PrivacyConfig, appId: Option<string>, playerName: string)
    requires before.defaults.media == after.defaults.media && |before.rules| == |after.rules|
    requires forall i :: 0 <= i < |before.rules| ==>
               && before.rules[i].appId == after.rules[i].appId
               && before.rules[i].media == after.rules[i].media
               && before.rules[i].displayAlias == after.rules[i].displayAlias
    ensures DecideMedia(before, appId, playerName) == DecideMedia(after, appId, playerName)
  {
    var key := NormalizeAppId(if appId.Some? then appId.value else playerName);
    var i := FirstRuleIsFirst(before.rules, key);
    var j := FirstRuleIsFirst(after.rules, key);
    assert i == j;
  }

  // Where the first rule for `key` stands: everything before it is for other ids.
  ghost predicate IsFirstFor(rules: seq<ApplicationPrivacyRule>, at: nat, key: string) {
    && at < |rules| && NormalizeAppId(rules[at].appId) == key
    && forall i :: 0 <= i < at ==> NormalizeAppId(rules[i].appId) != key
  }

  lemma FirstForIsFound(rules: seq<ApplicationPrivacyRule>, at: nat, key: string)
    requires IsFirstFor(rules, at, key)
    ensures FirstRule(rules, key) == Some(rules[at])
  {
    var found := FirstRuleIsFirst(rules, key);
    assert found == at;
  }

  // Two configurations whose first rules for an application say the same decide the same, whatever
  // stands before and behind them, and whatever the defaults are where the rule does not inherit.
  lemma OnlyTheFirstRuleDecides(c: PrivacyConfig, d: PrivacyConfig, appId: string, playerName: string, i: nat, j: nat)
    requires IsFirstFor(c.rules, i, NormalizeAppId(appId)) && IsFirstFor(d.rules, j, NormalizeAppId(appId))
    requires NormalizedRule(c.rules[i]) == NormalizedRule(d.rules[j])
    requires c.rules[i].application.InheritDefault? ==> c.defaults.application == d.defaults.application
    requires c.rules[i].windowTitle.InheritDefault? ==> c.defaults.windowTitle == d.defaults.windowTitle
    ensures DecideProcess(c, appId) == DecideProcess(d, appId)
    ensures c.rules[i].application == AlwaysHide ==> !DecideProcess(c, appId).sharesApplication
    ensures c.rules[i].application == AlwaysShare ==> DecideProcess(c, appId).sharesApplication
    ensures (c.rules[i].media.InheritDefault? ==> c.defaults.media == d.defaults.media) ==>
              DecideMedia(c, Some(appId), playerName) == DecideMedia(d, Some(appId), playerName)
  {
    FirstForIsFound(c.rules, i, NormalizeAppId(appId));
    FirstForIsFound(d.rules, j, NormalizeAppId(appId));
  }

  // ---- what is decided ---------------------------------------------------------------------------------

  // No rule for this id: the defaults decide, each dimension its own, and there is no alias.
  lemma UnruledByDefault(config: PrivacyConfig, appId: string, playerName: string)
    requires forall r <- config.rules :: NormalizeAppId(r.appId) != NormalizeAppId(appId)
    ensures var p := DecideProcess(config, appId);
            && (p.sharesApplication <==> config.defaults.application == Share)
            && (p.sharesWindowTitle <==> config.defaults.application == Share && config.defaults.windowTitle == Share)
            && p.displayAlias.None?
    ensures DecideMedia(config, Some(appId), playerName) == MediaDecision(config.defaults.media == Share, None)
  {
    var at := FirstRuleIsFirst(config.rules, NormalizeAppId(appId));
  }

  // The same for media without an executable, by the player's name; a blank name has no rule.
  lemma UnattributedByDefault(config: PrivacyConfig, playerName: string)
    requires IsBlank(playerName) || forall r <- config.rules :: NormalizeAppId(r.appId) != NormalizeAppId(playerName)
    ensures DecideMedia(config, None, playerName) == MediaDecision(config.defaults.media == Share, None)
  {
    var at := FirstRuleIsFirst(config.rules, NormalizeAppId(playerName));
    var left, right := TrimIsTheMiddle(playerName);
  }

  predicate Shows(value: PrivacyOverride, byDefault: PrivacyDefault) {
    value == AlwaysShare || (value == InheritDefault && byDefault == Share)
  }

  // The first rule for this id decides each dimension: hidden and shared where it says so, by its own
  // default where it inherits; a title goes with its application, an alias with what it names.
  lemma FirstRuleDecides(config: PrivacyConfig, i: nat, appId: string, playerName: string)
    requires IsFirstFor(config.rules, i, NormalizeAppId(appId))
    ensures var p, rule := DecideProcess(config, appId), config.rules[i];
            && (p.sharesApplication <==> Shows(rule.application, config.defaults.application))
            && (p.sharesWindowTitle <==> p.sharesApplication && Shows(rule.windowTitle, config.defaults.windowTitle))
            && p.displayAlias == if p.sharesApplication then NormalizeText(rule.displayAlias) else None
    ensures var m, rule := DecideMedia(config, Some(appId), playerName), config.rules[i];
            && (m.sharesMedia <==> Shows(rule.media, config.defaults.media))
            && m.displayAlias == if m.sharesMedia then NormalizeText(rule.displayAlias) else None
    ensures !IsBlank(appId) ==> DecideMedia(config, None, appId) == DecideMedia(config, Some(appId), playerName)
  {
    FirstForIsFound(config.rules, i, NormalizeAppId(appId));
    var left, right := TrimIsTheMiddle(appId);
  }
}
