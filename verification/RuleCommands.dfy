/** The commands that edit the rule list: `src/commands.rs`. */
module RuleCommands {
  import opened ConfigStorage
  import opened ConsentGates
  import opened Fingerprint
  import opened FingerprintDecisions
  import opened FingerprintMeaning
  import opened FingerprintText
  import opened JsonTexts
  import opened Model
  import opened Options
  import opened Orders
  import opened PrivacyPolicy
  import opened StableSorting
  import opened Storage
  import opened UserTexts

  // `retain(|r| r.app_id != id)`
  function Without(rules: seq<ApplicationPrivacyRule>, id: string): (kept: seq<ApplicationPrivacyRule>)
    ensures forall r :: r in kept <==> r in rules && r.appId != id
  {
    if rules == [] then []
    else if rules[0].appId == id then Without(rules[1..], id)
    else [rules[0]] + Without(rules[1..], id)
  }

  // The list that an upsert sorts.
  function ToSort(rules: seq<ApplicationPrivacyRule>, rule: ApplicationPrivacyRule): seq<ApplicationPrivacyRule> {
    var kept := Without(rules, NormalizeAppId(rule.appId));
    if IsEmptyRule(NormalizedRule(rule)) then kept else kept + [NormalizedRule(rule)]
  }

  function Upserted(rules: seq<ApplicationPrivacyRule>, rule: ApplicationPrivacyRule): seq<ApplicationPrivacyRule> {
    Sort(CompareRules, ToSort(rules, rule))
  }

  // Only the case of the id is normalised here.
  function Deleted(rules: seq<ApplicationPrivacyRule>, appId: string): seq<ApplicationPrivacyRule> {
    Without(rules, Lowercase(appId))
  }

  function WithRules(c: CoreConfig, rules: seq<ApplicationPrivacyRule>): CoreConfig {
    c.(privacy := c.privacy.(rules := rules))
  }

  // A rule for an id of only whitespace would be saved under the empty id, which no configuration has.
  lemma UpsertedIsValid(c: CoreConfig, rule: ApplicationPrivacyRule)
    requires IsValid(c)
    ensures IsValid(WithRules(c, Upserted(c.privacy.rules, rule))) <==>
              NormalizeAppId(rule.appId) != "" || IsEmptyRule(rule)
  {
    KeyOrders();
    EmptyHasNoEffect(rule);
    var normalized := NormalizedRule(rule);
    var kept := Without(c.privacy.rules, normalized.appId);
    var list := if IsEmptyRule(normalized) then kept else kept + [normalized];
    var rules := Upserted(c.privacy.rules, rule);
    forall r ensures r in rules <==> r in kept || (r == normalized && !IsEmptyRule(normalized)) {
      SortedHasTheSame(CompareRules, list, r);
    }
    forall i | 0 <= i < |rules| ensures rules[i].appId == "" <==> rules[i] == normalized && normalized.appId == "" {
      assert rules[i] in rules;
    }
  }

  datatype CommandError = InvalidInput | Internal

  // A saved edit is followed by the policy check: consent falls exactly when the fingerprint moved.
  method UpsertRule(store: ConfigStore, gate: ConsentGate, rule: ApplicationPrivacyRule, fault: Fault<CoreConfig>)
    returns (r: Result<(), CommandError>)
    requires store.Coherent()
    modifies store`config, store`notified, store.file, gate
    ensures store.Coherent()
    ensures r == Err(InvalidInput) <==> rule.appId == ""
    ensures r.Err? ==> store.config == old(store.config) && gate.State() == old(gate.State())
    ensures r.Ok? ==> store.config == old(store.config).(privacy := old(store.config).privacy.(
                        rules := Upserted(old(store.config).privacy.rules, rule)))
    ensures r.Ok? ==> gate.State() == GateStep(old(gate.State()), PolicyChanged(Preimage(store.config.privacy)))
    ensures r.Ok? <==> rule.appId != "" && fault.NoFault? && (NormalizeAppId(rule.appId) != "" || IsEmptyRule(rule))
  {
    hide Preimage, IsEmptyRule, Sort;
    if rule.appId == "" {
      return Err(InvalidInput);
    }
    UpsertedIsValid(store.config, rule);
    var updated := store.Update((c: CoreConfig) => WithRules(c, Upserted(c.privacy.rules, rule)), fault);
    if updated.Err? {
      return Err(Internal);
    }
    var fingerprint := PolicyPreimage(store.config.privacy);
    gate.PolicyDidChange(fingerprint);
    return Ok(());
  }

  method DeleteRule(store: ConfigStore, gate: ConsentGate, appId: string, fault: Fault<CoreConfig>)
    returns (r: Result<(), CommandError>)
    requires store.Coherent()
    modifies store`config, store`notified, store.file, gate
    ensures store.Coherent()
    ensures r == Err(InvalidInput) <==> appId == ""
    ensures r.Err? ==> store.config == old(store.config) && gate.State() == old(gate.State())
    ensures r.Ok? ==> store.config == old(store.config).(privacy := old(store.config).privacy.(
                        rules := Deleted(old(store.config).privacy.rules, appId)))
    ensures r.Ok? ==> gate.State() == GateStep(old(gate.State()), PolicyChanged(Preimage(store.config.privacy)))
    ensures r.Ok? <==> appId != "" && fault.NoFault?
  {
    hide Preimage, IsEmptyRule, Sort;
    if appId == "" {
      return Err(InvalidInput);
    }
    assert forall r <- Deleted(store.config.privacy.rules, appId) :: r in store.config.privacy.rules;
    var updated := store.Update((c: CoreConfig) => WithRules(c, Deleted(c.privacy.rules, appId)), fault);
    if updated.Err? {
      return Err(Internal);
    }
    var fingerprint := PolicyPreimage(store.config.privacy);
    gate.PolicyDidChange(fingerprint);
    return Ok(());
  }

  // ---- lists reached through the commands ----------------------------------------------------------------

  datatype Edit = Upsert(rule: ApplicationPrivacyRule) | Delete(appId: string)

  function After(edits: seq<Edit>): seq<ApplicationPrivacyRule> {
    if edits == [] then []
    else
      var before := After(edits[..|edits| - 1]);
      match edits[|edits| - 1]
      case Upsert(rule) => Upserted(before, rule)
      case Delete(appId) => Deleted(before, appId)
  }

  // Normalised rules that say something, strictly ordered by id.
  ghost predicate IsTidy(rules: seq<ApplicationPrivacyRule>) {
    AreNormalized(rules) && IsStrictlyOrdered(rules)
  }

  ghost predicate IsStrictlyOrdered(rules: seq<ApplicationPrivacyRule>) {
    forall i, j :: 0 <= i < j < |rules| ==> CompareRules(rules[i], rules[j]) == Less
  }

  lemma {:induction false} WithoutKeepsOrder(rules: seq<ApplicationPrivacyRule>, id: string)
    requires IsStrictlyOrdered(rules)
    ensures IsStrictlyOrdered(Without(rules, id))
  {
    if rules != [] {
      var rest := rules[1..];
      assert IsStrictlyOrdered(rest) by {
        forall i, j | 0 <= i < j < |rest| ensures CompareRules(rest[i], rest[j]) == Less {
          assert CompareRules(rules[i + 1], rules[j + 1]) == Less;
        }
      }
      WithoutKeepsOrder(rest, id);
      var kept := Without(rest, id);
      if rules[0].appId != id {
        var result := [rules[0]] + kept;
        forall j | 0 < j < |result| ensures CompareRules(result[0], result[j]) == Less {
          assert kept[j - 1] in rest;
          var k :| 0 <= k < |rest| && rest[k] == kept[j - 1];
          assert CompareRules(rules[0], rules[k + 1]) == Less;
        }
        forall i, j | 0 < i < j < |result| ensures CompareRules(result[i], result[j]) == Less {
          assert CompareRules(kept[i - 1], kept[j - 1]) == Less;
        }
      }
    }
  }

  // Sorting rules with pairwise different ids orders them strictly.
  lemma SortedStrictly(rules: seq<ApplicationPrivacyRule>)
    requires AreNormalized(rules) && DistinctKeys(CompareRules, rules)
    ensures IsTidy(Sort(CompareRules, rules))
  {
    KeyOrders();
    SortIsStable(CompareRules, rules);
    var sorted := Sort(CompareRules, rules);
    forall r ensures r in sorted <==> r in rules {
      assert r in sorted <==> r in multiset(sorted);
      assert r in rules <==> r in multiset(rules);
    }
    forall i, j | 0 <= i < j < |sorted| ensures CompareRules(sorted[i], sorted[j]) == Less {
      if CompareRules(sorted[i], sorted[j]) == Equal {
        LevelOfDistinct(CompareRules, rules, sorted[i]);
        assert Level(CompareRules, sorted[i], sorted) == Level(CompareRules, sorted[i], rules);
        TwoInLevel(sorted, i, j);
      }
    }
  }

  lemma {:induction false} TwoInLevel(s: seq<ApplicationPrivacyRule>, i: nat, j: nat)
    requires i < j < |s| && CompareRules(s[i], s[j]) == Equal && CompareRules(s[i], s[i]) == Equal
    ensures |Level(CompareRules, s[i], s)| >= 2
  {
    hide CompareRules;
    if i > 0 {
      TwoInLevel(s[1..], i - 1, j - 1);
    } else {
      assert s[1..][j - 1] in Level(CompareRules, s[0], s[1..]);
    }
  }

  lemma TidyIsDistinct(rules: seq<ApplicationPrivacyRule>)
    requires IsTidy(rules)
    ensures DistinctKeys(CompareRules, rules)
  {
  }

  lemma UpsertKeepsTidy(rules: seq<ApplicationPrivacyRule>, rule: ApplicationPrivacyRule)
    requires IsTidy(rules)
    ensures IsTidy(Upserted(rules, rule))
    ensures forall r :: r in Upserted(rules, rule) <==>
              || (r in rules && r.appId != NormalizeAppId(rule.appId))
              || (r == NormalizedRule(rule) && !IsEmptyRule(rule))
  {
    hide NormalizeAppId, NormalizeText, Sort, CompareRules, IsStrictlyOrdered;
    KeyOrders();
    var normalized := NormalizedRule(rule);
    EmptyHasNoEffect(rule);
    var kept := Without(rules, normalized.appId);
    WithoutKeepsOrder(rules, normalized.appId);
    TidyIsDistinct(kept);
    var list := if IsEmptyRule(normalized) then kept else kept + [normalized];
    forall i, j | 0 <= i < j < |list| ensures CompareRules(list[i], list[j]) != Equal {
      assert list[i] == kept[i] && kept[i] in kept;
      if j < |kept| {
        assert CompareRules(kept[i], kept[j]) != Equal;
      }
    }
    NormalizationIsIdempotent(rule.displayAlias, rule.appId);
    SortedStrictly(list);
    forall r ensures r in Upserted(rules, rule) <==> r in list {
      SortedHasTheSame(CompareRules, list, r);
    }
  }

  // Whatever is edited, in whatever order: normalised rules that say something, one for an id, in order.
  lemma {:induction false} EditedRulesAreTidy(edits: seq<Edit>)
    ensures IsTidy(After(edits))
  {
    if edits != [] {
      var before := After(edits[..|edits| - 1]);
      EditedRulesAreTidy(edits[..|edits| - 1]);
      match edits[|edits| - 1] {
        case Upsert(rule) => UpsertKeepsTidy(before, rule);
        case Delete(appId) => WithoutKeepsOrder(before, Lowercase(appId));
      }
    }
  }

  // So the fingerprint determines what they mean.
  lemma EditedRulesAreUnambiguous(edits: seq<Edit>)
    ensures NothingShadowed(After(edits))
    ensures forall i, j :: 0 <= i < j < |After(edits)| ==>
              NormalizeAppId(After(edits)[i].appId) != NormalizeAppId(After(edits)[j].appId)
  {
    var rules := After(edits);
    EditedRulesAreTidy(edits);
    KeptOfNormalized(rules);
    KeyOrders();
    forall i, j | 0 <= i < j < |rules| ensures NormalizeAppId(rules[i].appId) != NormalizeAppId(rules[j].appId) {
      assert rules[i] in rules && rules[j] in rules && CompareRules(rules[i], rules[j]) == Less;
    }
  }

  // ---- what an edit does to lookups -----------------------------------------------------------------------

  lemma TidyLookup(rules: seq<ApplicationPrivacyRule>, r: ApplicationPrivacyRule)
    requires IsTidy(rules) && r in rules
    ensures FirstRule(rules, r.appId) == Some(r)
  {
    KeyOrders();
    var i := FirstRuleIsFirst(rules, r.appId);
    var j :| 0 <= j < |rules| && rules[j] == r;
    assert rules[i] in rules;
    assert CompareRules(rules[i], rules[j]) == Equal;
  }

  // Tidy lists: the last edit of an id decides it; every other id keeps its effect.
  lemma UpsertDecidesItsId(rules: seq<ApplicationPrivacyRule>, rule: ApplicationPrivacyRule, key: string)
    requires IsTidy(rules)
    ensures EffectFor(Upserted(rules, rule), key) ==
            if key == NormalizeAppId(rule.appId) then EffectOf(Some(rule)) else EffectFor(rules, key)
  {
    var after := Upserted(rules, rule);
    UpsertKeepsTidy(rules, rule);
    EmptyHasNoEffect(rule);
    SameRulesForKey(rules, after, rule, key);
  }

  lemma SameRulesForKey(rules: seq<ApplicationPrivacyRule>, after: seq<ApplicationPrivacyRule>,
      rule: ApplicationPrivacyRule, key: string)
    requires IsTidy(rules) && IsTidy(after)
    requires forall r :: r in after <==>
               || (r in rules && r.appId != NormalizeAppId(rule.appId))
               || (r == NormalizedRule(rule) && !IsEmptyRule(rule))
    ensures FirstRule(after, key) ==
            if key != NormalizeAppId(rule.appId) then FirstRule(rules, key)
            else if IsEmptyRule(rule) then None else Some(NormalizedRule(rule))
  {
    var i := FirstRuleIsFirst(rules, key);
    var j := FirstRuleIsFirst(after, key);
    if i < |rules| && key != NormalizeAppId(rule.appId) {
      assert rules[i] in rules && rules[i].appId == key && rules[i] in after;
      TidyLookup(after, rules[i]);
    } else if j < |after| {
      assert after[j] in after && after[j].appId == key;
    }
    if key == NormalizeAppId(rule.appId) && !IsEmptyRule(rule) {
      TidyLookup(after, NormalizedRule(rule));
    }
  }

  lemma {:induction false} LookupWithout(rules: seq<ApplicationPrivacyRule>, id: string, key: string)
    requires AreNormalized(rules)
    ensures FirstRule(Without(rules, id), key) == if key == id then None else FirstRule(rules, key)
  {
    if rules != [] {
      assert rules[0] in rules;
      forall r <- rules[1..] ensures NormalizeAppId(r.appId) == r.appId && !IsEmptyRule(r) && NormalizedRule(r) == r {
        assert r in rules;
      }
      LookupWithout(rules[1..], id, key);
    }
  }

  lemma LowercaseNormalizesTrimmed(appId: string)
    ensures Lowercase(appId) == NormalizeAppId(appId) <==> IsTrimmed(appId)
  {
    hide IsJsWhitespace, TrimStart, TrimEnd, LowerChar;
    var left, right := TrimIsTheMiddle(appId);
    if IsTrimmed(appId) {
      TrimOfTrimmed(appId);
    }
    if Lowercase(appId) == NormalizeAppId(appId) {
      // no character is lost
      assert |appId| == |JsTrim(appId)|;
      NothingAround(left, JsTrim(appId), right);
    }
  }

  lemma NothingAround(left: string, middle: string, right: string)
    requires |left + middle + right| == |middle|
    ensures left + middle + right == middle
  {
  }

  // Deleting by the id a rule was saved under takes it away exactly when that id has no surrounding
  // whitespace: saving trims the id, deleting does not.
  lemma DeleteUndoesUpsertExactly(rules: seq<ApplicationPrivacyRule>, rule: ApplicationPrivacyRule)
    requires IsTidy(rules) && !IsEmptyRule(rule)
    ensures EffectFor(Deleted(Upserted(rules, rule), rule.appId), NormalizeAppId(rule.appId)) == NO_EFFECT <==>
              IsTrimmed(rule.appId)
  {
    var key := NormalizeAppId(rule.appId);
    UpsertKeepsTidy(rules, rule);
    UpsertDecidesItsId(rules, rule, key);
    EmptyHasNoEffect(rule);
    LowercaseNormalizesTrimmed(rule.appId);
    LookupWithout(Upserted(rules, rule), Lowercase(rule.appId), key);
  }

  // ---- lists that config.json may hold without the commands ---------------------------------------------

  predicate IsFor(r: ApplicationPrivacyRule, key: string) {
    NormalizeAppId(r.appId) == key
  }

  lemma InUpserted(rules: seq<ApplicationPrivacyRule>, rule: ApplicationPrivacyRule, r: ApplicationPrivacyRule)
    ensures r in Upserted(rules, rule) <==>
              || (r in rules && r.appId != NormalizeAppId(rule.appId))
              || (r == NormalizedRule(rule) && !IsEmptyRule(rule))
  {
    KeyOrders();
    EmptyHasNoEffect(rule);
    SortedHasTheSame(CompareRules, ToSort(rules, rule), r);
  }

  // Any stored list, with duplicates and ids in any spelling: the rule just saved is the one found for
  // its id exactly if no stored rule spells that id in a way that sorts before the normalised one; and
  // an emptied rule leaves nothing for its id exactly if no other spelling is stored.
  lemma UpsertDecidesItsIdExactly(rules: seq<ApplicationPrivacyRule>, rule: ApplicationPrivacyRule)
    ensures var key := NormalizeAppId(rule.appId);
            var found := FirstRule(Upserted(rules, rule), key);
            if IsEmptyRule(rule) then found.None? <==> forall r <- rules :: IsFor(r, key) ==> r.appId == key
            else found == Some(NormalizedRule(rule)) <==>
                   forall r <- rules :: IsFor(r, key) ==> CompareUtf16(r.appId, key) != Less
  {
    hide NormalizeText, NormalizeAppId, Sort;
    var key, normalized, after := NormalizeAppId(rule.appId), NormalizedRule(rule), Upserted(rules, rule);
    KeyOrders();
    NormalizationIsIdempotent(rule.displayAlias, rule.appId);
    forall r ensures r in after <==> (r in rules && r.appId != key) || (r == normalized && !IsEmptyRule(rule)) {
      InUpserted(rules, rule, r);
    }
    var at := FirstRuleIsFirst(after, key);
    if !IsEmptyRule(rule) {
      SavedRuleIsFirst(rules, rule, at);
    } else if at < |after| {
      assert after[at] in after;
    }
  }

  lemma SavedRuleIsFirst(rules: seq<ApplicationPrivacyRule>, rule: ApplicationPrivacyRule, at: nat)
    requires !IsEmptyRule(rule) && NormalizeAppId(NormalizeAppId(rule.appId)) == NormalizeAppId(rule.appId)
    requires var key, after := NormalizeAppId(rule.appId), Upserted(rules, rule);
             && at <= |after| && (forall i :: 0 <= i < at ==> !IsFor(after[i], key))
                  && (at < |after| ==> IsFor(after[at], key))
             && (forall r :: r in after <==> (r in rules && r.appId != key) || r == NormalizedRule(rule))
    ensures var key, after := NormalizeAppId(rule.appId), Upserted(rules, rule);
            && at < |after|
            && (after[at] == NormalizedRule(rule) <==>
                 forall r <- rules :: IsFor(r, key) ==> CompareUtf16(r.appId, key) != Less)
  {
    hide NormalizeText, NormalizeAppId, Sort, CompareUtf16, IsEmptyRule;
    var key, normalized, after := NormalizeAppId(rule.appId), NormalizedRule(rule), Upserted(rules, rule);
    var isFor := (r: ApplicationPrivacyRule) => IsFor(r, key);
    KeyOrders();
    assert normalized in after;
    SortIsStable(CompareRules, ToSort(rules, rule));
    assert IsFirst(after, isFor, at);
    if after[at] == normalized {
      forall r <- rules | IsFor(r, key) ensures CompareUtf16(r.appId, key) != Less {
        assert CompareRules(normalized, r) == Flip(CompareRules(r, normalized));
        if r in after {
          FirstIsLeast(CompareRules, after, isFor, at, r);
        }
      }
    } else {
      var other := after[at];
      assert other in after;
      FirstIsLeast(CompareRules, after, isFor, at, normalized);
      assert CompareRules(other, normalized) == Less;
    }
  }

  lemma {:induction false} LookupOfOthers(rules: seq<ApplicationPrivacyRule>, id: string, key: string,
      last: ApplicationPrivacyRule)
    requires NormalizeAppId(id) != key && !IsFor(last, key)
    ensures FirstRule(Without(rules, id), key) == FirstRule(rules, key)
    ensures FirstRule(Without(rules, id) + [last], key) == FirstRule(rules, key)
  {
    hide NormalizeAppId;
    var kept := Without(rules, id);
    if rules != [] {
      LookupOfOthers(rules[1..], id, key, last);
      if rules[0].appId != id {
        assert (kept + [last])[1..] == Without(rules[1..], id) + [last];
      }
    } else {
      assert FirstRule([last], key) == FirstRule([last][1..], key);
    }
  }

  lemma OthersStay(rules: seq<ApplicationPrivacyRule>, rule: ApplicationPrivacyRule, key: string)
    requires key != NormalizeAppId(rule.appId)
    ensures FirstRule(ToSort(rules, rule), key) == FirstRule(rules, key)
    ensures forall r | IsFor(r, key) :: r in ToSort(rules, rule) <==> r in rules
  {
    hide NormalizeText, NormalizeAppId, IsEmptyRule;
    NormalizationIsIdempotent(rule.displayAlias, rule.appId);
    LookupOfOthers(rules, NormalizeAppId(rule.appId), key, NormalizedRule(rule));
  }

  // And every other id keeps the rule found for it exactly if that was the first one in sorted order:
  // saving any rule sorts the whole list.
  lemma UpsertLeavesOthersExactly(rules: seq<ApplicationPrivacyRule>, rule: ApplicationPrivacyRule, key: string)
    requires key != NormalizeAppId(rule.appId)
    ensures var before, after := FirstRule(rules, key), FirstRule(Upserted(rules, rule), key);
            && (before.None? ==> after.None?)
            && (before.Some? ==>
                  (after == before <==> forall r <- rules :: IsFor(r, key) ==>
                    CompareRules(before.value, r) != Greater))
  {
    hide NormalizeAppId, Sort, CompareRules, ToSort;
    KeyOrders();
    OthersStay(rules, rule, key);
    var list := ToSort(rules, rule);
    forall r ensures r in Upserted(rules, rule) <==> r in list {
      SortedHasTheSame(CompareRules, list, r);
    }
    var i := FirstRuleIsFirst(list, key);
    var j := FirstRuleIsFirst(Upserted(rules, rule), key);
    assert j < |Upserted(rules, rule)| ==> Upserted(rules, rule)[j] in list;
    if i < |list| {
      assert list[i] in Upserted(rules, rule);
      FirstAfterSorting(CompareRules, list, (r: ApplicationPrivacyRule) => IsFor(r, key), i, j);
    }
  }
}
