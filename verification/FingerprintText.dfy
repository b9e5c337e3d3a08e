/** The canonical text as the code builds it: pushing piece after piece onto one string. */
module FingerprintText {
  import opened Fingerprint
  import opened JsonTexts
  import opened Model
  import opened PrivacyPolicy
  import opened StableSorting

  // `out` is what has been written, `rest` what is still to come: writing one piece moves it across.
  method Push(before: string, piece: string, ghost rest: string) returns (out: string)
    ensures out == before + piece
    ensures out + rest == before + (piece + rest)
  {
    out := before + piece;
    assert before + piece + rest == before + (piece + rest);
  }

  method PushRule(before: string, rule: ApplicationPrivacyRule, ghost rest: string) returns (out: string)
    ensures out + rest == before + RuleThen(rule, rest)
  {
    ghost var end := "\"}" + rest;
    ghost var title := "\",\"windowTitle\":\"" + (OverrideText(rule.windowTitle) + end);
    ghost var alias := AliasThen(rule, rest);
    out := Push(before, "{\"appId\":",
      JsonString(rule.appId) + (",\"application\":\"" + (OverrideText(rule.application) + ("\"" + alias))));
    out := Push(out, JsonString(rule.appId), ",\"application\":\"" + (OverrideText(rule.application) + ("\"" + alias)));
    out := Push(out, ",\"application\":\"", OverrideText(rule.application) + ("\"" + alias));
    out := Push(out, OverrideText(rule.application), "\"" + alias);
    out := Push(out, "\"", alias);
    if rule.displayAlias.Some? {
      out := Push(out, ",\"displayAlias\":", JsonString(rule.displayAlias.value) + MediaThen(rule, rest));
      out := Push(out, JsonString(rule.displayAlias.value), MediaThen(rule, rest));
    }
    out := Push(out, ",\"media\":\"", OverrideText(rule.media) + title);
    out := Push(out, OverrideText(rule.media), title);
    out := Push(out, "\",\"windowTitle\":\"", OverrideText(rule.windowTitle) + end);
    out := Push(out, OverrideText(rule.windowTitle), end);
    out := Push(out, "\"}", rest);
  }

  method PushMapping(before: string, mapping: PrivacyMapping, ghost rest: string) returns (out: string)
    ensures out + rest == before + MappingThen(mapping, rest)
  {
    ghost var end := "\"}" + rest;
    ghost var kind := ",\"type\":\"" + (TypeText(mapping.mappingType) + end);
    ghost var to := ",\"to\":" + (JsonString(mapping.to) + kind);
    out := Push(before, "{\"from\":", JsonString(mapping.from) + to);
    out := Push(out, JsonString(mapping.from), to);
    out := Push(out, ",\"to\":", JsonString(mapping.to) + kind);
    out := Push(out, JsonString(mapping.to), kind);
    out := Push(out, ",\"type\":\"", TypeText(mapping.mappingType) + end);
    out := Push(out, TypeText(mapping.mappingType), end);
    out := Push(out, "\"}", rest);
  }

  method PushMappingItem(before: string, first: bool, mapping: PrivacyMapping, ghost more: string) returns (out: string)
    ensures out + more == before + if first then MappingThen(mapping, more) else "," + MappingThen(mapping, more)
  {
    out := before;
    if !first {
      out := Push(out, ",", MappingThen(mapping, more));
    }
    out := PushMapping(out, mapping, more);
  }

  method PushRuleItem(before: string, first: bool, rule: ApplicationPrivacyRule, ghost more: string)
    returns (out: string)
    ensures out + more == before + if first then RuleThen(rule, more) else "," + RuleThen(rule, more)
  {
    out := before;
    if !first {
      out := Push(out, ",", RuleThen(rule, more));
    }
    out := PushRule(out, rule, more);
  }

  lemma ListFrom<T>(item: (T, string) -> string, items: seq<T>, i: nat, rest: string)
    requires i < |items|
    ensures var here := item(items[i], ListThen(item, items[i + 1..], false, rest));
            ListThen(item, items[i..], i == 0, rest) == if i == 0 then here else "," + here
  {
    assert items[i..][0] == items[i] && items[i..][1..] == items[i + 1..];
  }

  method PushMappings(before: string, mappings: seq<PrivacyMapping>, ghost rest: string) returns (out: string)
    ensures out + rest == before + ListThen(MappingThen, mappings, true, rest)
  {
    hide MappingThen;
    ghost var whole := before + ListThen(MappingThen, mappings, true, rest);
    ghost var still := ListThen(MappingThen, mappings, true, rest);
    out := before;
    assert mappings[0..] == mappings;
    for index := 0 to |mappings|
      invariant out + still == whole
      invariant still == ListThen(MappingThen, mappings[index..], index == 0, rest)
    {
      ghost var more := ListThen(MappingThen, mappings[index + 1..], false, rest);
      ListFrom(MappingThen, mappings, index, rest);
      out := PushMappingItem(out, index == 0, mappings[index], more);
      still := more;
    }
    assert mappings[|mappings|..] == [];
    out := Push(out, "]", rest);
  }

  method PushRules(before: string, rules: seq<ApplicationPrivacyRule>, ghost rest: string) returns (out: string)
    ensures out + rest == before + ListThen(RuleThen, rules, true, rest)
  {
    hide RuleThen;
    ghost var whole := before + ListThen(RuleThen, rules, true, rest);
    ghost var still := ListThen(RuleThen, rules, true, rest);
    out := before;
    assert rules[0..] == rules;
    for index := 0 to |rules|
      invariant out + still == whole
      invariant still == ListThen(RuleThen, rules[index..], index == 0, rest)
    {
      ghost var more := ListThen(RuleThen, rules[index + 1..], false, rest);
      ListFrom(RuleThen, rules, index, rest);
      out := PushRuleItem(out, index == 0, rules[index], more);
      still := more;
    }
    assert rules[|rules|..] == [];
    out := Push(out, "]", rest);
  }

  // The map and filter over the configured rules.
  method KeepRules(rules: seq<ApplicationPrivacyRule>) returns (kept: seq<ApplicationPrivacyRule>)
    ensures kept == KeptRules(rules)
  {
    kept := [];
    assert rules[0..] == rules;
    for i := 0 to |rules|
      invariant kept + KeptRules(rules[i..]) == KeptRules(rules)
    {
      var rule := NormalizedRule(rules[i]);
      assert rules[i..][0] == rules[i] && rules[i..][1..] == rules[i + 1..];
      if !IsEmptyRule(rule) {
        assert kept + ([rule] + KeptRules(rules[i + 1..])) == kept + [rule] + KeptRules(rules[i + 1..]);
        kept := kept + [rule];
      }
    }
    assert rules[|rules|..] == [];
  }

  method PushDefaults(config: PrivacyConfig, ghost p: Projection) returns (out: string)
    requires p.defaults == config.defaults && p.ignoreNullArtist == config.ignoreNullArtist
    ensures out + MappingsThen(p) == Canonical(p)
  {
    ghost var artist := "\"},\"ignoreNullArtist\":" + (BoolText(p.ignoreNullArtist) + MappingsThen(p));
    ghost var title := "\",\"windowTitle\":\"" + (DefaultText(p.defaults.windowTitle) + artist);
    ghost var media := "\",\"media\":\"" + (DefaultText(p.defaults.media) + title);
    out := "{\"defaults\":{\"application\":\"";
    out := Push(out, DefaultText(config.defaults.application), media);
    out := Push(out, "\",\"media\":\"", DefaultText(p.defaults.media) + title);
    out := Push(out, DefaultText(config.defaults.media), title);
    out := Push(out, "\",\"windowTitle\":\"", DefaultText(p.defaults.windowTitle) + artist);
    out := Push(out, DefaultText(config.defaults.windowTitle), artist);
    out := Push(out, "\"},\"ignoreNullArtist\":", BoolText(p.ignoreNullArtist) + MappingsThen(p));
    out := Push(out, BoolText(config.ignoreNullArtist), MappingsThen(p));
  }

  method PushSources(before: string, config: PrivacyConfig, ghost p: Projection) returns (out: string)
    requires p.shareWindowTitles == config.shareWindowTitles && p.sources == config.sources
    ensures out == before + SourcesThen(p)
  {
    ghost var media := ",\"media\":" + (BoolText(p.sources.media) + "}}");
    ghost var sources := ",\"sources\":{\"application\":" + (BoolText(p.sources.application) + media);
    out := Push(before, ",\"shareWindowTitles\":", BoolText(p.shareWindowTitles) + sources);
    out := Push(out, BoolText(config.shareWindowTitles), sources);
    out := Push(out, ",\"sources\":{\"application\":", BoolText(p.sources.application) + media);
    out := Push(out, BoolText(config.sources.application), media);
    out := Push(out, ",\"media\":", BoolText(p.sources.media) + "}}");
    out := Push(out, BoolText(config.sources.media), "}}");
    out := out + "}}";
  }

  // policy_fingerprint up to the hash.
  method PolicyPreimage(config: PrivacyConfig) returns (out: string)
    ensures out == Preimage(config)
  {
    var rules := KeepRules(config.rules);
    rules := Sort(CompareRules, rules);
    var mappings := Sort(CompareMappings, config.mappings);
    ghost var p := PolicyProjection(config);
    out := PushDefaults(config, p);
    out := Push(out, ",\"mappings\":[", ListThen(MappingThen, mappings, true, RulesThen(p)));
    out := PushMappings(out, mappings, RulesThen(p));
    out := Push(out, ",\"rules\":[", ListThen(RuleThen, rules, true, SourcesThen(p)));
    out := PushRules(out, rules, SourcesThen(p));
    out := PushSources(out, config, p);
  }
}
