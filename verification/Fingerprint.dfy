/**
 The policy fingerprint up to the hash: the canonical text that is hashed. Encoders are written
 with the text that follows them, so that the end of each field is part of the statement.
 */
module Fingerprint {
  import opened JsonTexts
  import opened Model
  import opened Orders
  import opened PrivacyPolicy
  import opened StableSorting

  // ---- what is hashed ----------------------------------------------------------------------------

  datatype Projection = Projection(
    defaults: PrivacyDefaults,
    ignoreNullArtist: bool,
    mappings: seq<PrivacyMapping>,
    rules: seq<ApplicationPrivacyRule>,
    shareWindowTitles: bool,
    sources: PrivacySources)

  // The normalised rules that say something.
  function KeptRules(rules: seq<ApplicationPrivacyRule>): seq<ApplicationPrivacyRule> {
    if rules == [] then []
    else if IsEmptyRule(NormalizedRule(rules[0])) then KeptRules(rules[1..])
    else [NormalizedRule(rules[0])] + KeptRules(rules[1..])
  }

  function CompareRules(a: ApplicationPrivacyRule, b: ApplicationPrivacyRule): Ordering {
    CompareUtf16(a.appId, b.appId)
  }

  function TypeText(t: PrivacyMappingType): string {
    match t
    case ProcessName => "process_name"
    case MediaProcessName => "media_process_name"
    case MediaPlayerName => "media_player_name"
  }

  // The separator is the two characters backslash and zero.
  function SortKey(m: PrivacyMapping): string {
    TypeText(m.mappingType) + ("\\0" + m.from)
  }

  function CompareMappings(a: PrivacyMapping, b: PrivacyMapping): Ordering {
    CompareUtf16(SortKey(a), SortKey(b))
  }

  function PolicyProjection(config: PrivacyConfig): Projection {
    Projection(config.defaults, config.ignoreNullArtist, Sort(CompareMappings, config.mappings),
               Sort(CompareRules, KeptRules(config.rules)), config.shareWindowTitles, config.sources)
  }

  // ---- the canonical text --------------------------------------------------------------------------

  function DefaultText(v: PrivacyDefault): string {
    if v.Share? then "share" else "hide"
  }

  function OverrideText(v: PrivacyOverride): string {
    match v
    case InheritDefault => "inherit"
    case AlwaysShare => "share"
    case AlwaysHide => "hide"
  }

  function BoolText(v: bool): string {
    if v then "true" else "false"
  }

  function MediaThen(r: ApplicationPrivacyRule, rest: string): string {
    ",\"media\":\"" + (OverrideText(r.media)
    + ("\",\"windowTitle\":\"" + (OverrideText(r.windowTitle)
    + ("\"}" + rest))))
  }

  // A rule without an alias omits the key.
  function AliasThen(r: ApplicationPrivacyRule, rest: string): string {
    if r.displayAlias.None? then MediaThen(r, rest)
    else ",\"displayAlias\":" + (JsonString(r.displayAlias.value) + MediaThen(r, rest))
  }

  function RuleThen(r: ApplicationPrivacyRule, rest: string): string {
    "{\"appId\":" + (JsonString(r.appId)
    + (",\"application\":\"" + (OverrideText(r.application)
    + ("\"" + AliasThen(r, rest)))))
  }

  function MappingThen(m: PrivacyMapping, rest: string): string {
    "{\"from\":" + (JsonString(m.from)
    + (",\"to\":" + (JsonString(m.to)
    + (",\"type\":\"" + (TypeText(m.mappingType)
    + ("\"}" + rest))))))
  }

  // Comma-separated items, the closing bracket, and what follows.
  function ListThen<T>(item: (T, string) -> string, items: seq<T>, first: bool, rest: string): string {
    if items == [] then "]" + rest
    else if first then item(items[0], ListThen(item, items[1..], false, rest))
    else "," + item(items[0], ListThen(item, items[1..], false, rest))
  }

  function SourcesThen(p: Projection): string {
    ",\"shareWindowTitles\":" + (BoolText(p.shareWindowTitles)
    + (",\"sources\":{\"application\":" + (BoolText(p.sources.application)
    + (",\"media\":" + (BoolText(p.sources.media)
    + "}}")))))
  }

  function RulesThen(p: Projection): string {
    ",\"rules\":[" + ListThen(RuleThen, p.rules, true, SourcesThen(p))
  }

  function MappingsThen(p: Projection): string {
    ",\"mappings\":[" + ListThen(MappingThen, p.mappings, true, RulesThen(p))
  }

  function Canonical(p: Projection): string {
    "{\"defaults\":{\"application\":\"" + (DefaultText(p.defaults.application)
    + ("\",\"media\":\"" + (DefaultText(p.defaults.media)
    + ("\",\"windowTitle\":\"" + (DefaultText(p.defaults.windowTitle)
    + ("\"},\"ignoreNullArtist\":" + (BoolText(p.ignoreNullArtist)
    + MappingsThen(p))))))))
  }

  function Preimage(config: PrivacyConfig): string {
    Canonical(PolicyProjection(config))
  }

  // ---- unambiguous: every field ends where the next begins -----------------------------------------

  // Texts that differ somewhere before either ends.
  lemma DifferentBeginnings(a: string, b: string, at: nat, x: string, y: string)
    requires at < |a| && at < |b| && a[at] != b[at]
    ensures a + x != b + y
  {
    assert (a + x)[at] == a[at] && (b + y)[at] == b[at];
  }

  lemma DefaultSplits(a: PrivacyDefault, b: PrivacyDefault, x: string, y: string)
    requires DefaultText(a) + x == DefaultText(b) + y
    ensures a == b && x == y
  {
    if a != b {
      DifferentBeginnings(DefaultText(a), DefaultText(b), 0, x, y);
    } else {
      DropPrefix(DefaultText(a), x, y);
    }
  }

  lemma OverrideSplits(a: PrivacyOverride, b: PrivacyOverride, x: string, y: string)
    requires OverrideText(a) + x == OverrideText(b) + y
    ensures a == b && x == y
  {
    if a != b {
      DifferentBeginnings(OverrideText(a), OverrideText(b), 0, x, y);
    } else {
      DropPrefix(OverrideText(a), x, y);
    }
  }

  lemma BoolSplits(a: bool, b: bool, x: string, y: string)
    requires BoolText(a) + x == BoolText(b) + y
    ensures a == b && x == y
  {
    if a != b {
      DifferentBeginnings(BoolText(a), BoolText(b), 0, x, y);
    } else {
      DropPrefix(BoolText(a), x, y);
    }
  }

  lemma TypeSplits(a: PrivacyMappingType, b: PrivacyMappingType, x: string, y: string)
    requires TypeText(a) + x == TypeText(b) + y
    ensures a == b && x == y
  {
    if a != b {
      var at := if a.ProcessName? || b.ProcessName? then 0 else 7;
      DifferentBeginnings(TypeText(a), TypeText(b), at, x, y);
    } else {
      DropPrefix(TypeText(a), x, y);
    }
  }

  lemma MediaSplits(r: ApplicationPrivacyRule, s: ApplicationPrivacyRule, x: string, y: string)
    requires MediaThen(r, x) == MediaThen(s, y)
    ensures r.media == s.media && r.windowTitle == s.windowTitle && x == y
  {
    var x1, y1 := "\"}" + x, "\"}" + y;
    var x2, y2 := OverrideText(r.windowTitle) + x1, OverrideText(s.windowTitle) + y1;
    var x3, y3 := "\",\"windowTitle\":\"" + x2, "\",\"windowTitle\":\"" + y2;
    DropPrefix(",\"media\":\"", OverrideText(r.media) + x3, OverrideText(s.media) + y3);
    OverrideSplits(r.media, s.media, x3, y3);
    DropPrefix("\",\"windowTitle\":\"", x2, y2);
    OverrideSplits(r.windowTitle, s.windowTitle, x1, y1);
    DropPrefix("\"}", x, y);
  }

  // The third character tells an alias from its absence.
  lemma AliasOrMedia(r: ApplicationPrivacyRule, s: ApplicationPrivacyRule, x: string, y: string)
    requires AliasThen(r, x) == AliasThen(s, y)
    ensures r.displayAlias.None? <==> s.displayAlias.None?
  {
    var media := ",\"media\":\"";
    var alias := ",\"displayAlias\":";
    assert media[2] == 'm' && alias[2] == 'd';
    assert AliasThen(r, x)[2] == if r.displayAlias.None? then media[2] else alias[2];
    assert AliasThen(s, y)[2] == if s.displayAlias.None? then media[2] else alias[2];
  }

  lemma AliasSplits(r: ApplicationPrivacyRule, s: ApplicationPrivacyRule, x: string, y: string)
    requires AliasThen(r, x) == AliasThen(s, y)
    ensures r.displayAlias == s.displayAlias && MediaThen(r, x) == MediaThen(s, y)
  {
    AliasOrMedia(r, s, x, y);
    if r.displayAlias.Some? {
      var a, b := r.displayAlias.value, s.displayAlias.value;
      DropPrefix(",\"displayAlias\":", JsonString(a) + MediaThen(r, x), JsonString(b) + MediaThen(s, y));
      JsonStringSplits(a, b, MediaThen(r, x), MediaThen(s, y));
    }
  }

  lemma RuleSplits(r: ApplicationPrivacyRule, s: ApplicationPrivacyRule, x: string, y: string)
    requires RuleThen(r, x) == RuleThen(s, y)
    ensures r == s && x == y
  {
    var x1, y1 := "\"" + AliasThen(r, x), "\"" + AliasThen(s, y);
    var x2, y2 := OverrideText(r.application) + x1, OverrideText(s.application) + y1;
    var x3, y3 := ",\"application\":\"" + x2, ",\"application\":\"" + y2;
    DropPrefix("{\"appId\":", JsonString(r.appId) + x3, JsonString(s.appId) + y3);
    JsonStringSplits(r.appId, s.appId, x3, y3);
    DropPrefix(",\"application\":\"", x2, y2);
    OverrideSplits(r.application, s.application, x1, y1);
    DropPrefix("\"", AliasThen(r, x), AliasThen(s, y));
    AliasSplits(r, s, x, y);
    MediaSplits(r, s, x, y);
  }

  lemma MappingSplits(m: PrivacyMapping, n: PrivacyMapping, x: string, y: string)
    requires MappingThen(m, x) == MappingThen(n, y)
    ensures m == n && x == y
  {
    var x1, y1 := "\"}" + x, "\"}" + y;
    var x2, y2 := TypeText(m.mappingType) + x1, TypeText(n.mappingType) + y1;
    var x3, y3 := ",\"type\":\"" + x2, ",\"type\":\"" + y2;
    var x4, y4 := JsonString(m.to) + x3, JsonString(n.to) + y3;
    var x5, y5 := ",\"to\":" + x4, ",\"to\":" + y4;
    DropPrefix("{\"from\":", JsonString(m.from) + x5, JsonString(n.from) + y5);
    JsonStringSplits(m.from, n.from, x5, y5);
    DropPrefix(",\"to\":", x4, y4);
    JsonStringSplits(m.to, n.to, x3, y3);
    DropPrefix(",\"type\":\"", x2, y2);
    TypeSplits(m.mappingType, n.mappingType, x1, y1);
    DropPrefix("\"}", x, y);
  }

  // An item encoder that opens with a brace and ends where it ends.
  ghost predicate IsItem<T(!new)>(item: (T, string) -> string) {
    && (forall a, x :: item(a, x) != "" && item(a, x)[0] == '{')
    && (forall a, b, x, y :: item(a, x) == item(b, y) ==> a == b && x == y)
  }

  lemma {:induction false} ListSplits<T(!new)>(item: (T, string) -> string, s: seq<T>, t: seq<T>, first: bool,
      x: string, y: string)
    requires IsItem(item) && ListThen(item, s, first, x) == ListThen(item, t, first, y)
    ensures s == t && x == y
  {
    assert ListThen(item, s, first, x)[0] == if s == [] then ']' else if first then '{' else ',';
    assert ListThen(item, t, first, y)[0] == if t == [] then ']' else if first then '{' else ',';
    if s == [] {
      DropPrefix("]", x, y);
    } else {
      var x1, y1 := ListThen(item, s[1..], false, x), ListThen(item, t[1..], false, y);
      if !first {
        DropPrefix(",", item(s[0], x1), item(t[0], y1));
      }
      assert item(s[0], x1) == item(t[0], y1);
      ListSplits(item, s[1..], t[1..], false, x, y);
      assert s == [s[0]] + s[1..] && t == [t[0]] + t[1..];
    }
  }

  lemma EncodersAreItems()
    ensures IsItem(RuleThen) && IsItem(MappingThen)
  {
    forall r, s, x, y | RuleThen(r, x) == RuleThen(s, y) ensures r == s && x == y {
      RuleSplits(r, s, x, y);
    }
    forall m, n, x, y | MappingThen(m, x) == MappingThen(n, y) ensures m == n && x == y {
      MappingSplits(m, n, x, y);
    }
  }

  lemma SourcesSplit(p: Projection, q: Projection)
    requires SourcesThen(p) == SourcesThen(q)
    ensures p.shareWindowTitles == q.shareWindowTitles && p.sources == q.sources
  {
    var x1, y1 := BoolText(p.sources.media) + "}}", BoolText(q.sources.media) + "}}";
    var x2, y2 := ",\"media\":" + x1, ",\"media\":" + y1;
    var x3, y3 := BoolText(p.sources.application) + x2, BoolText(q.sources.application) + y2;
    var x4, y4 := ",\"sources\":{\"application\":" + x3, ",\"sources\":{\"application\":" + y3;
    DropPrefix(",\"shareWindowTitles\":", BoolText(p.shareWindowTitles) + x4, BoolText(q.shareWindowTitles) + y4);
    BoolSplits(p.shareWindowTitles, q.shareWindowTitles, x4, y4);
    DropPrefix(",\"sources\":{\"application\":", x3, y3);
    BoolSplits(p.sources.application, q.sources.application, x2, y2);
    DropPrefix(",\"media\":", x1, y1);
    BoolSplits(p.sources.media, q.sources.media, "}}", "}}");
  }

  lemma ListsSplit(p: Projection, q: Projection)
    requires MappingsThen(p) == MappingsThen(q)
    ensures p.mappings == q.mappings && p.rules == q.rules && SourcesThen(p) == SourcesThen(q)
  {
    EncodersAreItems();
    DropPrefix(",\"mappings\":[", ListThen(MappingThen, p.mappings, true, RulesThen(p)),
               ListThen(MappingThen, q.mappings, true, RulesThen(q)));
    ListSplits(MappingThen, p.mappings, q.mappings, true, RulesThen(p), RulesThen(q));
    DropPrefix(",\"rules\":[", ListThen(RuleThen, p.rules, true, SourcesThen(p)),
               ListThen(RuleThen, q.rules, true, SourcesThen(q)));
    ListSplits(RuleThen, p.rules, q.rules, true, SourcesThen(p), SourcesThen(q));
  }

  // The canonical text determines everything in it, whatever the user's texts contain.
  lemma CanonicalIsInjective(p: Projection, q: Projection)
    requires Canonical(p) == Canonical(q)
    ensures p == q
  {
    var x1, y1 := BoolText(p.ignoreNullArtist) + MappingsThen(p), BoolText(q.ignoreNullArtist) + MappingsThen(q);
    var x2, y2 := "\"},\"ignoreNullArtist\":" + x1, "\"},\"ignoreNullArtist\":" + y1;
    var x3, y3 := DefaultText(p.defaults.windowTitle) + x2, DefaultText(q.defaults.windowTitle) + y2;
    var x4, y4 := "\",\"windowTitle\":\"" + x3, "\",\"windowTitle\":\"" + y3;
    var x5, y5 := DefaultText(p.defaults.media) + x4, DefaultText(q.defaults.media) + y4;
    var x6, y6 := "\",\"media\":\"" + x5, "\",\"media\":\"" + y5;
    DropPrefix("{\"defaults\":{\"application\":\"", DefaultText(p.defaults.application) + x6,
      DefaultText(q.defaults.application) + y6);
    DefaultSplits(p.defaults.application, q.defaults.application, x6, y6);
    DropPrefix("\",\"media\":\"", x5, y5);
    DefaultSplits(p.defaults.media, q.defaults.media, x4, y4);
    DropPrefix("\",\"windowTitle\":\"", x3, y3);
    DefaultSplits(p.defaults.windowTitle, q.defaults.windowTitle, x2, y2);
    DropPrefix("\"},\"ignoreNullArtist\":", x1, y1);
    BoolSplits(p.ignoreNullArtist, q.ignoreNullArtist, MappingsThen(p), MappingsThen(q));
    ListsSplit(p, q);
    SourcesSplit(p, q);
  }
}
