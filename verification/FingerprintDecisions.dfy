/**
 The canonical text determines every decision and every mapping, unless a rule that says nothing
 stands in front of one that does, or a mapping stands in front of one that sorts before it.
 */
module FingerprintDecisions {
  import opened Fingerprint
  import opened FingerprintMeaning
  import opened Model
  import opened Options
  import opened Orders
  import opened PrivacyPolicy
  import opened StableSorting
  import opened UserTexts

  // What a looked-up rule contributes to the decisions.
  datatype RuleEffect = Effect(application: PrivacyOverride, windowTitle: PrivacyOverride, media: PrivacyOverride,
      alias: Option<string>)

  const NO_EFFECT := Effect(InheritDefault, InheritDefault, InheritDefault, None)

  function EffectOf(rule: Option<ApplicationPrivacyRule>): RuleEffect {
    if rule.None? then NO_EFFECT
    else Effect(rule.value.application, rule.value.windowTitle, rule.value.media,
      NormalizeText(rule.value.displayAlias))
  }

  function EffectFor(rules: seq<ApplicationPrivacyRule>, key: string): RuleEffect {
    EffectOf(FirstRule(rules, key))
  }

  // Every rule that says something is looked up through a rule that says something.
  ghost predicate NothingShadowed(rules: seq<ApplicationPrivacyRule>) {
    forall r <- rules :: !IsEmptyRule(r) ==> EffectFor(rules, NormalizeAppId(r.appId)) != NO_EFFECT
  }

  // No mapping is looked up through one that sorts after it.
  ghost predicate NothingOvertaken(mappings: seq<PrivacyMapping>) {
    forall m <- mappings ::
      var first := FirstMapping(mappings, m.mappingType, NormalizeAppId(m.from));
      first.Some? ==> CompareMappings(first.value, m) != Greater
  }

  ghost predicate SameEffects(a: seq<ApplicationPrivacyRule>, b: seq<ApplicationPrivacyRule>) {
    forall key :: EffectFor(a, key) == EffectFor(b, key)
  }

  ghost predicate SameMappings(a: seq<PrivacyMapping>, b: seq<PrivacyMapping>) {
    forall t, key :: FirstMapping(a, t, key) == FirstMapping(b, t, key)
  }

  // ---- rules -----------------------------------------------------------------------------------------

  lemma EmptyHasNoEffect(r: ApplicationPrivacyRule)
    ensures IsEmptyRule(r) <==> EffectOf(Some(r)) == NO_EFFECT
    ensures EffectOf(Some(NormalizedRule(r))) == EffectOf(Some(r))
    ensures NormalizedRule(NormalizedRule(r)) == NormalizedRule(r)
  {
    NormalizationIsIdempotent(r.displayAlias, r.appId);
  }

  // Looking a key up among the kept rules skips the empty ones.
  lemma {:induction false} LookupAmongKept(rules: seq<ApplicationPrivacyRule>, key: string)
    ensures EffectFor(rules, key) != NO_EFFECT ==> EffectFor(KeptRules(rules), key) == EffectFor(rules, key)
    ensures EffectFor(KeptRules(rules), key) != NO_EFFECT <==>
              exists r <- rules :: !IsEmptyRule(r) && NormalizeAppId(r.appId) == key
  {
    hide NormalizeAppId, NormalizeText;
    if rules != [] {
      var r, rest := rules[0], rules[1..];
      EmptyHasNoEffect(r);
      LookupAmongKept(rest, key);
      assert rules == [r] + rest;
      var kept := KeptRules(rules);
      if IsEmptyRule(NormalizedRule(r)) {
        assert kept == KeptRules(rest);
      } else {
        assert kept[0] == NormalizedRule(r) && kept[1..] == KeptRules(rest);
        NormalizationIsIdempotent(r.displayAlias, r.appId);
      }
    }
  }

  // Dropping the empty rules changes no lookup exactly when none of them shadows another rule.
  lemma KeptRulesDecideExactly(rules: seq<ApplicationPrivacyRule>)
    ensures SameEffects(rules, KeptRules(rules)) <==> NothingShadowed(rules)
  {
    if SameEffects(rules, KeptRules(rules)) {
      forall r <- rules | !IsEmptyRule(r) ensures EffectFor(rules, NormalizeAppId(r.appId)) != NO_EFFECT {
        LookupAmongKept(rules, NormalizeAppId(r.appId));
      }
    }
    if NothingShadowed(rules) {
      forall key ensures EffectFor(rules, key) == EffectFor(KeptRules(rules), key) {
        LookupAmongKept(rules, key);
      }
    }
  }

  ghost predicate AreNormalized(rules: seq<ApplicationPrivacyRule>) {
    forall r <- rules :: NormalizeAppId(r.appId) == r.appId && !IsEmptyRule(r) && NormalizedRule(r) == r
  }

  lemma {:induction false} KeptAreNormalized(rules: seq<ApplicationPrivacyRule>)
    ensures AreNormalized(KeptRules(rules))
  {
    if rules != [] {
      KeptAreNormalized(rules[1..]);
      EmptyHasNoEffect(rules[0]);
    }
  }

  lemma {:induction false} KeptOfNormalized(rules: seq<ApplicationPrivacyRule>)
    requires AreNormalized(rules)
    ensures KeptRules(rules) == rules && NothingShadowed(rules)
  {
    hide NormalizeAppId, NormalizeText;
    if rules != [] {
      assert rules[0] in rules;
      forall r <- rules[1..] ensures NormalizeAppId(r.appId) == r.appId && !IsEmptyRule(r) && NormalizedRule(r) == r {
        assert r in rules;
      }
      KeptOfNormalized(rules[1..]);
      assert rules == [rules[0]] + rules[1..];
    }
    forall r <- rules | !IsEmptyRule(r) ensures EffectFor(rules, NormalizeAppId(r.appId)) != NO_EFFECT {
      LookupAmongKept(rules, NormalizeAppId(r.appId));
    }
  }

  // Among normalised rules a lookup finds the head of the key's level.
  lemma {:induction false} LookupIsLevelHead(rules: seq<ApplicationPrivacyRule>, x: ApplicationPrivacyRule)
    requires AreNormalized(rules)
    ensures var level := Level(CompareRules, x, rules);
            FirstRule(rules, x.appId) == if level == [] then None else Some(level[0])
  {
    KeyOrders();
    if rules != [] {
      assert rules[0] in rules;
      forall r <- rules[1..] ensures NormalizeAppId(r.appId) == r.appId && !IsEmptyRule(r) && NormalizedRule(r) == r {
        assert r in rules;
      }
      LookupIsLevelHead(rules[1..], x);
    }
  }

  lemma SameLevelsSameEffects(a: seq<ApplicationPrivacyRule>, b: seq<ApplicationPrivacyRule>)
    requires SameLevels(CompareRules, KeptRules(a), KeptRules(b))
    requires NothingShadowed(a) && NothingShadowed(b)
    ensures SameEffects(a, b)
  {
    KeptRulesDecideExactly(a);
    KeptRulesDecideExactly(b);
    KeptAreNormalized(a);
    KeptAreNormalized(b);
    forall key ensures EffectFor(a, key) == EffectFor(b, key) {
      var x := Rule(key, InheritDefault, InheritDefault, InheritDefault, None);
      LookupIsLevelHead(KeptRules(a), x);
      LookupIsLevelHead(KeptRules(b), x);
      assert Level(CompareRules, x, KeptRules(a)) == Level(CompareRules, x, KeptRules(b));
    }
  }

  // ---- mappings ----------------------------------------------------------------------------------------

  ghost predicate SortsFirst(mappings: seq<PrivacyMapping>, t: PrivacyMappingType, key: string, f: PrivacyMapping) {
    forall m <- mappings :: Maps(m, t, key) ==> CompareMappings(f, m) != Greater
  }

  // The first mapping for a key and the first one after sorting are the same unless a later mapping
  // for that key sorts before it.
  lemma SortedFirst(mappings: seq<PrivacyMapping>, t: PrivacyMappingType, key: string, f: PrivacyMapping)
    requires FirstMapping(mappings, t, key) == Some(f)
    ensures FirstMapping(Sort(CompareMappings, mappings), t, key) == Some(f) <==> SortsFirst(mappings, t, key, f)
  {
    hide NormalizeAppId;
    KeyOrders();
    SortedHasTheSame(CompareMappings, mappings, f);
    var i := FirstMappingIsFirst(mappings, t, key);
    var j := FirstMappingIsFirst(Sort(CompareMappings, mappings), t, key);
    FirstAfterSorting(CompareMappings, mappings, (m: PrivacyMapping) => Maps(m, t, key), i, j);
  }

  lemma {:induction false} LookupSurvives(a: seq<PrivacyMapping>, b: seq<PrivacyMapping>, t: PrivacyMappingType,
      key: string)
    requires multiset(a) == multiset(b)
    ensures FirstMapping(a, t, key).None? <==> FirstMapping(b, t, key).None?
  {
    var i := FirstMappingIsFirst(a, t, key);
    var j := FirstMappingIsFirst(b, t, key);
    assert forall m :: m in a <==> m in multiset(a);
    assert forall m :: m in b <==> m in multiset(b);
    if i < |a| {
      assert a[i] in b;
    }
    if j < |b| {
      assert b[j] in a;
    }
  }

  // Sorting changes no lookup exactly when nothing is overtaken.
  lemma SortedMappingsDecideExactly(mappings: seq<PrivacyMapping>)
    ensures SameMappings(mappings, Sort(CompareMappings, mappings)) <==> NothingOvertaken(mappings)
  {
    var sorted := Sort(CompareMappings, mappings);
    if SameMappings(mappings, sorted) {
      forall m <- mappings ensures var first := FirstMapping(mappings, m.mappingType, NormalizeAppId(m.from));
                                   first.Some? ==> CompareMappings(first.value, m) != Greater {
        var first := FirstMapping(mappings, m.mappingType, NormalizeAppId(m.from));
        if first.Some? {
          SortedFirst(mappings, m.mappingType, NormalizeAppId(m.from), first.value);
        }
      }
    }
    if NothingOvertaken(mappings) {
      forall t, key ensures FirstMapping(mappings, t, key) == FirstMapping(sorted, t, key) {
        KeyOrders();
        SortIsStable(CompareMappings, mappings);
        LookupSurvives(mappings, sorted, t, key);
        if FirstMapping(mappings, t, key).Some? {
          SortedFirst(mappings, t, key, FirstMapping(mappings, t, key).value);
        }
      }
    }
  }

  // ---- what the text determines -----------------------------------------------------------------------

  ghost predicate IsUnambiguous(c: PrivacyConfig) {
    NothingShadowed(c.rules) && NothingOvertaken(c.mappings)
  }

  ghost predicate SameLookups(c: PrivacyConfig, d: PrivacyConfig) {
    SameSettings(c, d) && SameEffects(c.rules, d.rules) && SameMappings(c.mappings, d.mappings)
  }

  lemma SamePreimageSameLookups(c: PrivacyConfig, d: PrivacyConfig)
    requires Preimage(c) == Preimage(d) && IsUnambiguous(c) && IsUnambiguous(d)
    ensures SameLookups(c, d)
  {
    SamePreimageExactly(c, d);
    SameLevelsSameEffects(c.rules, d.rules);
    SortedMappingsDecideExactly(c.mappings);
    SortedMappingsDecideExactly(d.mappings);
    KeyOrders();
    SortsAgreeExactly(CompareMappings, c.mappings, d.mappings);
  }

  lemma SameLookupsSameDecisions(c: PrivacyConfig, d: PrivacyConfig, appId: string, mediaAppId: Option<string>,
      playerName: string,
                                 t: PrivacyMappingType, from: string)
    requires SameLookups(c, d)
    ensures DecideProcess(c, appId) == DecideProcess(d, appId)
    ensures DecideMedia(c, mediaAppId, playerName) == DecideMedia(d, mediaAppId, playerName)
    ensures ApplyMapping(c, t, from) == ApplyMapping(d, t, from)
  {
    assert EffectFor(c.rules, NormalizeAppId(appId)) == EffectFor(d.rules, NormalizeAppId(appId));
    var key := NormalizeAppId(if mediaAppId.Some? then mediaAppId.value else playerName);
    assert EffectFor(c.rules, key) == EffectFor(d.rules, key);
    assert FirstMapping(c.mappings, t, NormalizeAppId(from)) == FirstMapping(d.mappings, t, NormalizeAppId(from));
  }

  // Equal fingerprint texts: every decision and every mapping is the same.
  lemma SamePreimageSameDecisions(c: PrivacyConfig, d: PrivacyConfig, appId: string, mediaAppId: Option<string>,
      playerName: string,
                                  t: PrivacyMappingType, from: string)
    requires Preimage(c) == Preimage(d) && IsUnambiguous(c) && IsUnambiguous(d)
    ensures DecideProcess(c, appId) == DecideProcess(d, appId)
    ensures DecideMedia(c, mediaAppId, playerName) == DecideMedia(d, mediaAppId, playerName)
    ensures ApplyMapping(c, t, from) == ApplyMapping(d, t, from)
  {
    SamePreimageSameLookups(c, d);
    SameLookupsSameDecisions(c, d, appId, mediaAppId, playerName, t, from);
  }

  // The configuration that its own canonical text spells out.
  function Spelled(c: PrivacyConfig): PrivacyConfig {
    c.(rules := KeptRules(c.rules), mappings := Sort(CompareMappings, c.mappings))
  }

  lemma SpelledIsUnambiguous(c: PrivacyConfig)
    ensures Preimage(Spelled(c)) == Preimage(c) && IsUnambiguous(Spelled(c))
  {
    KeyOrders();
    KeptAreNormalized(c.rules);
    KeptOfNormalized(KeptRules(c.rules));
    var sorted := Sort(CompareMappings, c.mappings);
    SortIsStable(CompareMappings, c.mappings);
    SortIsStable(CompareMappings, sorted);
    SortsAgreeExactly(CompareMappings, sorted, c.mappings);
    SamePreimageExactly(Spelled(c), c);
    SortedMappingsDecideExactly(sorted);
  }

  // And exactly then: a configuration means what its fingerprint says, the same as every unambiguous
  // one with that fingerprint, if and only if it is unambiguous itself.
  lemma TextDeterminesMeaningExactly(c: PrivacyConfig)
    ensures (forall d | Preimage(d) == Preimage(c) && IsUnambiguous(d) :: SameLookups(c, d)) <==> IsUnambiguous(c)
  {
    if IsUnambiguous(c) {
      forall d | Preimage(d) == Preimage(c) && IsUnambiguous(d) ensures SameLookups(c, d) {
        SamePreimageSameLookups(c, d);
      }
    }
    SpelledIsUnambiguous(c);
    if forall d | Preimage(d) == Preimage(c) && IsUnambiguous(d) :: SameLookups(c, d) {
      assert SameLookups(c, Spelled(c));
      KeptRulesDecideExactly(c.rules);
      SortedMappingsDecideExactly(c.mappings);
    }
  }

  // ---- when a configuration is unambiguous, and what happens otherwise ------------------------------------

  // Distinct ids and distinct lookup keys are enough.
  lemma DistinctKeysAreUnambiguous(c: PrivacyConfig)
    requires forall i, j :: 0 <= i < j < |c.rules| ==>
              NormalizeAppId(c.rules[i].appId) != NormalizeAppId(c.rules[j].appId)
    requires forall i, j :: 0 <= i < j < |c.mappings| ==>
               !Maps(c.mappings[i], c.mappings[j].mappingType, NormalizeAppId(c.mappings[j].from))
    ensures IsUnambiguous(c)
  {
    hide NormalizeAppId, NormalizeText;
    forall r <- c.rules | !IsEmptyRule(r) ensures EffectFor(c.rules, NormalizeAppId(r.appId)) != NO_EFFECT {
      var i := FirstRuleIsFirst(c.rules, NormalizeAppId(r.appId));
      EmptyHasNoEffect(r);
    }
    KeyOrders();
    forall m <- c.mappings ensures var first := FirstMapping(c.mappings, m.mappingType, NormalizeAppId(m.from));
                                   first.Some? ==> CompareMappings(first.value, m) != Greater {
      var i := FirstMappingIsFirst(c.mappings, m.mappingType, NormalizeAppId(m.from));
      assert CompareMappings(m, m) == Equal;
    }
  }

  // A rule that says nothing, in front of one that hides the application, shows it: the fingerprint
  // does not tell the two configurations apart.
  lemma ShadowedRuleIsUnseen(c: PrivacyConfig, blank: ApplicationPrivacyRule, hiding: ApplicationPrivacyRule)
    requires c.defaults.application == Share && hiding.application == AlwaysHide
    requires IsEmptyRule(blank) && blank.appId == hiding.appId
    ensures var shadowed, plain := c.(rules := [blank, hiding]), c.(rules := [hiding]);
            && Preimage(shadowed) == Preimage(plain)
            && DecideProcess(shadowed, hiding.appId).sharesApplication
            && !DecideProcess(plain, hiding.appId).sharesApplication
  {
    hide NormalizeAppId, NormalizeText;
    KeptOfOne(blank);
    KeptOfOne(hiding);
    KeptOfInsertion([], blank, [hiding]);
    assert [] + [blank] + [hiding] == [blank, hiding];
    PreimageOfKept(c.(rules := [blank, hiding]), [hiding]);
  }

  lemma SwappedMappings(m: PrivacyMapping, n: PrivacyMapping)
    requires m.mappingType != n.mappingType || m.from != n.from
    ensures Sort(CompareMappings, [m, n]) == Sort(CompareMappings, [n, m])
  {
    KeyOrders();
    var one, other := [m, n], [n, m];
    assert CompareMappings(m, n) != Equal && CompareMappings(n, m) != Equal;
    assert multiset(one) == multiset(other);
    DistinctPermutationsAgree(CompareMappings, one, other);
    SortsAgreeExactly(CompareMappings, one, other);
  }

  // Two spellings of one mapping key: either may come first, under the same fingerprint.
  lemma OvertakenMappingIsUnseen(c: PrivacyConfig, m: PrivacyMapping, n: PrivacyMapping)
    requires m.mappingType == n.mappingType && NormalizeAppId(m.from) == NormalizeAppId(n.from)
    requires m.from != n.from && m.to != n.to
    ensures var one, other := c.(mappings := [m, n]), c.(mappings := [n, m]);
            && Preimage(one) == Preimage(other)
            && ApplyMapping(one, m.mappingType, m.from) == Some(m.to)
            && ApplyMapping(other, m.mappingType, m.from) == Some(n.to)
  {
    SwappedMappings(m, n);
    assert PolicyProjection(c.(mappings := [m, n])) == PolicyProjection(c.(mappings := [n, m]));
  }
}
