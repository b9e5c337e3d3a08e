/** The hashed text is compact JSON: which value stands under which key, and that the keys are sorted. */
module FingerprintJson {
  import opened Fingerprint
  import opened JsonTexts
  import opened Model
  import opened Options

  // A member: its key, and the text of its value.
  type Member = (string, string)

  function Quoted(s: string): string {
    "\"" + (s + "\"")
  }

  // The members, comma-separated, the closing brace, and what follows.
  function MembersThen(ms: seq<Member>, first: bool, rest: string): string {
    if ms == [] then "}" + rest
    else (if first then "" else ",") + (Quoted(ms[0].0) + (":" + (ms[0].1 + MembersThen(ms[1..], false, rest))))
  }

  function ObjectThen(ms: seq<Member>, rest: string): string {
    "{" + MembersThen(ms, true, rest)
  }

  function ArrayThen(items: seq<string>, first: bool, rest: string): string {
    if items == [] then "]" + rest
    else (if first then "" else ",") + (items[0] + ArrayThen(items[1..], false, rest))
  }

  function ObjectOf(ms: seq<Member>): string {
    ObjectThen(ms, "")
  }

  function ArrayOf(items: seq<string>): string {
    "[" + ArrayThen(items, true, "")
  }

  // ---- the members, in the order of their keys --------------------------------------------------------

  function RuleMembers(r: ApplicationPrivacyRule): seq<Member> {
    [("appId", JsonString(r.appId)), ("application", Quoted(OverrideText(r.application)))]
    + (if r.displayAlias.None? then [] else [("displayAlias", JsonString(r.displayAlias.value))])
    + [("media", Quoted(OverrideText(r.media))), ("windowTitle", Quoted(OverrideText(r.windowTitle)))]
  }

  function MappingMembers(m: PrivacyMapping): seq<Member> {
    [("from", JsonString(m.from)), ("to", JsonString(m.to)), ("type", Quoted(TypeText(m.mappingType)))]
  }

  function DefaultMembers(d: PrivacyDefaults): seq<Member> {
    [("application", Quoted(DefaultText(d.application))), ("media", Quoted(DefaultText(d.media))),
     ("windowTitle", Quoted(DefaultText(d.windowTitle)))]
  }

  function SourceMembers(s: PrivacySources): seq<Member> {
    [("application", BoolText(s.application)), ("media", BoolText(s.media))]
  }

  function Texts<T>(text: T -> string, items: seq<T>): seq<string> {
    seq(|items|, i requires 0 <= i < |items| => text(items[i]))
  }

  function RuleObject(r: ApplicationPrivacyRule): string {
    ObjectOf(RuleMembers(r))
  }

  function MappingObject(m: PrivacyMapping): string {
    ObjectOf(MappingMembers(m))
  }

  function PolicyMembers(p: Projection): seq<Member> {
    [("defaults", ObjectOf(DefaultMembers(p.defaults))), ("ignoreNullArtist", BoolText(p.ignoreNullArtist)),
     ("mappings", ArrayOf(Texts(MappingObject, p.mappings))), ("rules", ArrayOf(Texts(RuleObject, p.rules))),
     ("shareWindowTitles", BoolText(p.shareWindowTitles)), ("sources", ObjectOf(SourceMembers(p.sources)))]
  }

  // ---- printing is concatenation ------------------------------------------------------------------------

  lemma Assoc(a: string, b: string, c: string)
    ensures a + (b + c) == (a + b) + c
  {
  }

  lemma {:induction false} MembersThenRest(ms: seq<Member>, first: bool, x: string, rest: string)
    ensures MembersThen(ms, first, x) + rest == MembersThen(ms, first, x + rest)
  {
    if ms == [] {
      Assoc("}", x, rest);
    } else {
      MembersThenRest(ms[1..], false, x, rest);
      var tail := MembersThen(ms[1..], false, x);
      Assoc(ms[0].1, tail, rest);
      Assoc(":", ms[0].1 + tail, rest);
      Assoc(Quoted(ms[0].0), ":" + (ms[0].1 + tail), rest);
      Assoc(if first then "" else ",", Quoted(ms[0].0) + (":" + (ms[0].1 + tail)), rest);
    }
  }

  lemma ObjectThenRest(ms: seq<Member>, rest: string)
    ensures ObjectOf(ms) + rest == ObjectThen(ms, rest)
  {
    MembersThenRest(ms, true, "", rest);
    Assoc("{", MembersThen(ms, true, ""), rest);
    assert "" + rest == rest;
  }

  lemma {:induction false} ArrayThenRest(items: seq<string>, first: bool, x: string, rest: string)
    ensures ArrayThen(items, first, x) + rest == ArrayThen(items, first, x + rest)
  {
    if items == [] {
      Assoc("]", x, rest);
    } else {
      ArrayThenRest(items[1..], false, x, rest);
      Assoc(items[0], ArrayThen(items[1..], false, x), rest);
      Assoc(if first then "" else ",", items[0] + ArrayThen(items[1..], false, x), rest);
    }
  }

  // A key after an opening brace or a comma, with what follows the colon.
  lemma FirstMember(key: string, value: string, ms: seq<Member>, rest: string)
    ensures ObjectThen([(key, value)] + ms, rest) == ("{\"" + key + "\":") + (value + MembersThen(ms, false, rest))
  {
    var tail := MembersThen(ms, false, rest);
    assert ([(key, value)] + ms)[1..] == ms;
    var t := value + tail;
    assert "" + (Quoted(key) + (":" + t)) == Quoted(key) + (":" + t);
    assert "{" + (Quoted(key) + (":" + t)) == ("{\"" + key + "\":") + t;
  }

  lemma NextMember(key: string, value: string, ms: seq<Member>, rest: string)
    ensures MembersThen([(key, value)] + ms, false, rest) ==
              (",\"" + key + "\":") + (value + MembersThen(ms, false, rest))
  {
    var tail := MembersThen(ms, false, rest);
    assert ([(key, value)] + ms)[1..] == ms;
    var t := value + tail;
    assert "," + (Quoted(key) + (":" + t)) == (",\"" + key + "\":") + t;
  }

  // A quoted value; `open` ends with the quote that opens it.
  lemma NextQuoted(open: string, key: string, value: string, ms: seq<Member>, rest: string)
    requires open == ",\"" + key + "\":\""
    ensures MembersThen([(key, Quoted(value))] + ms, false, rest) ==
              open + (value + ("\"" + MembersThen(ms, false, rest)))
  {
    NextMember(key, Quoted(value), ms, rest);
    var t := MembersThen(ms, false, rest);
    assert (",\"" + key + "\":") + (Quoted(value) + t) == open + (value + ("\"" + t));
  }

  lemma FirstQuoted(open: string, key: string, value: string, ms: seq<Member>, rest: string)
    requires open == "{\"" + key + "\":\""
    ensures ObjectThen([(key, Quoted(value))] + ms, rest) == open + (value + ("\"" + MembersThen(ms, false, rest)))
  {
    FirstMember(key, Quoted(value), ms, rest);
    var t := MembersThen(ms, false, rest);
    assert ("{\"" + key + "\":") + (Quoted(value) + t) == open + (value + ("\"" + t));
  }

  // Two literals side by side, and what they stand in front of.
  lemma Joins(a: string, b: string, joined: string, x: string)
    requires joined == a + b
    ensures a + (b + x) == joined + x
  {
  }

  lemma WindowTitleLast(value: string, rest: string)
    ensures MembersThen([("windowTitle", Quoted(value))], false, rest) ==
              ",\"windowTitle\":\"" + (value + ("\"}" + rest))
  {
    hide MembersThen, Quoted;
    NextQuoted(",\"windowTitle\":\"", "windowTitle", value, [], rest);
    assert [("windowTitle", Quoted(value))] + [] == [("windowTitle", Quoted(value))];
    NoMembers(rest);
    Joins("\"", "}", "\"}", rest);
  }

  lemma MediaMember(value: string, ms: seq<Member>, rest: string)
    ensures MembersThen([("media", Quoted(value))] + ms, false, rest) ==
              ",\"media\":\"" + (value + ("\"" + MembersThen(ms, false, rest)))
  {
    hide MembersThen, Quoted;
    NextQuoted(",\"media\":\"", "media", value, ms, rest);
  }

  lemma WindowTitleJoins(x: string)
    ensures "\"" + (",\"windowTitle\":\"" + x) == "\",\"windowTitle\":\"" + x
  {
    Joins("\"", ",\"windowTitle\":\"", "\",\"windowTitle\":\"", x);
  }

  lemma MediaJoins(x: string)
    ensures "\"" + (",\"media\":\"" + x) == "\",\"media\":\"" + x
  {
    Joins("\"", ",\"media\":\"", "\",\"media\":\"", x);
  }

  lemma NoMembers(rest: string)
    ensures MembersThen([], false, rest) == "}" + rest
  {
  }

  // ---- rules and mappings ------------------------------------------------------------------------------

  lemma MediaIsJson(r: ApplicationPrivacyRule, rest: string)
    ensures MediaThen(r, rest) == MembersThen(RuleMembers(r)[|RuleMembers(r)| - 2..], false, rest)
  {
    hide MembersThen, Quoted, JsonString, OverrideText;
    var media, window := OverrideText(r.media), OverrideText(r.windowTitle);
    WindowTitleLast(window, rest);
    MediaMember(media, [("windowTitle", Quoted(window))], rest);
    WindowTitleJoins(window + ("\"}" + rest));
    assert [("media", Quoted(media))] + [("windowTitle", Quoted(window))] == RuleMembers(r)[|RuleMembers(r)| - 2..];
  }

  lemma AliasIsJson(r: ApplicationPrivacyRule, rest: string)
    ensures AliasThen(r, rest) == MembersThen(RuleMembers(r)[2..], false, rest)
  {
    hide MembersThen, Quoted, MediaThen;
    MediaIsJson(r, rest);
    if r.displayAlias.Some? {
      var tail := RuleMembers(r)[3..];
      NextMember("displayAlias", JsonString(r.displayAlias.value), tail, rest);
      assert [("displayAlias", JsonString(r.displayAlias.value))] + tail == RuleMembers(r)[2..];
      assert ",\"" + "displayAlias" + "\":" == ",\"displayAlias\":";
    }
  }

  lemma RuleIsJson(r: ApplicationPrivacyRule, rest: string)
    ensures RuleThen(r, rest) == RuleObject(r) + rest
  {
    hide MembersThen, Quoted, AliasThen, ObjectThen;
    var application, tail := OverrideText(r.application), RuleMembers(r)[2..];
    AliasIsJson(r, rest);
    NextQuoted(",\"application\":\"", "application", application, tail, rest);
    FirstMember("appId", JsonString(r.appId), [("application", Quoted(application))] + tail, rest);
    assert "{\"" + "appId" + "\":" == "{\"appId\":";
    assert [("appId", JsonString(r.appId))] + ([("application", Quoted(application))] + tail) == RuleMembers(r);
    ObjectThenRest(RuleMembers(r), rest);
  }

  lemma MappingIsJson(m: PrivacyMapping, rest: string)
    ensures MappingThen(m, rest) == MappingObject(m) + rest
  {
    hide MembersThen, Quoted, ObjectThen;
    var kind := ("type", Quoted(TypeText(m.mappingType)));
    NextQuoted(",\"type\":\"", "type", TypeText(m.mappingType), [], rest);
    NoMembers(rest);
    Joins("\"", "}", "\"}", rest);
    NextMember("to", JsonString(m.to), [kind], rest);
    FirstMember("from", JsonString(m.from), [("to", JsonString(m.to)), kind], rest);
    assert "{\"" + "from" + "\":" == "{\"from\":" && ",\"" + "to" + "\":" == ",\"to\":";
    assert [kind] + [] == [kind] && [("to", JsonString(m.to))] + [kind] == [("to", JsonString(m.to)), kind];
    assert [("from", JsonString(m.from))] + [("to", JsonString(m.to)), kind] == MappingMembers(m);
    ObjectThenRest(MappingMembers(m), rest);
  }

  lemma {:induction false} ListIsJson<T(!new)>(item: (T, string) -> string, text: T -> string, items: seq<T>,
      first: bool, rest: string)
    requires forall x, y :: item(x, y) == text(x) + y
    ensures ListThen(item, items, first, rest) == ArrayThen(Texts(text, items), first, rest)
  {
    if items != [] {
      ListIsJson(item, text, items[1..], false, rest);
      assert Texts(text, items)[1..] == Texts(text, items[1..]);
      var tail := ListThen(item, items[1..], false, rest);
      assert item(items[0], tail) == text(items[0]) + tail;
      assert "" + (text(items[0]) + tail) == text(items[0]) + tail;
    }
  }

  // ---- the whole text ------------------------------------------------------------------------------------

  lemma SourcesAreJson(p: Projection)
    ensures SourcesThen(p) == MembersThen(PolicyMembers(p)[4..], false, "")
  {
    hide MembersThen, Quoted, ObjectThen, ArrayThen, JsonString;
    var s := SourceMembers(p.sources);
    NoMembers("");
    NoMembers("}");
    NextMember("media", BoolText(p.sources.media), [], "}");
    FirstMember("application", BoolText(p.sources.application), [s[1]], "}");
    assert [s[0]] + [s[1]] == s && [s[1]] + [] == [s[1]];
    assert "{\"" + "application" + "\":" == "{\"application\":" && ",\"" + "media" + "\":" == ",\"media\":";
    assert "}" + "}" == "}}" && "}" + "" == "}";
    ObjectThenRest(s, "}");
    SourcesBetween(p, ObjectThen(s, "}"));
  }

  lemma SourcesOpen(x: string)
    ensures ",\"sources\":" + ("{\"application\":" + x) == ",\"sources\":{\"application\":" + x
  {
    Joins(",\"sources\":", "{\"application\":", ",\"sources\":{\"application\":", x);
  }

  lemma SourcesLast(value: string)
    ensures MembersThen([("sources", value)], false, "") == ",\"sources\":" + (value + "}")
  {
    NextMember("sources", value, [], "");
    NoMembers("");
    assert "}" + "" == "}" && [("sources", value)] + [] == [("sources", value)];
    assert ",\"" + "sources" + "\":" == ",\"sources\":";
  }

  lemma WindowTitlesMember(value: string, ms: seq<Member>)
    ensures MembersThen([("shareWindowTitles", value)] + ms, false, "") ==
              ",\"shareWindowTitles\":" + (value + MembersThen(ms, false, ""))
  {
    hide MembersThen;
    NextMember("shareWindowTitles", value, ms, "");
    assert ",\"" + "shareWindowTitles" + "\":" == ",\"shareWindowTitles\":";
  }

  lemma SourcesBetween(p: Projection, sources: string)
    requires sources == ObjectOf(SourceMembers(p.sources)) + "}"
    requires sources == "{\"application\":" + (BoolText(p.sources.application)
                        + (",\"media\":" + (BoolText(p.sources.media) + "}}")))
    ensures SourcesThen(p) == MembersThen(PolicyMembers(p)[4..], false, "")
  {
    hide MembersThen, ObjectOf, ArrayOf, BoolText, DefaultMembers, SourceMembers;
    var last := PolicyMembers(p)[5];
    SourcesLast(last.1);
    WindowTitlesMember(BoolText(p.shareWindowTitles), [last]);
    assert [PolicyMembers(p)[4]] + [last] == PolicyMembers(p)[4..];
    SourcesOpen(BoolText(p.sources.application) + (",\"media\":" + (BoolText(p.sources.media) + "}}")));
  }

  // An array under its key.
  lemma NextArray(open: string, key: string, items: seq<string>, ms: seq<Member>, rest: string)
    requires open == ",\"" + key + "\":["
    ensures MembersThen([(key, ArrayOf(items))] + ms, false, rest) ==
              open + ArrayThen(items, true, MembersThen(ms, false, rest))
  {
    hide MembersThen, ArrayThen;
    NextMember(key, ArrayOf(items), ms, rest);
    var t := MembersThen(ms, false, rest);
    ArrayThenRest(items, true, "", t);
    assert "" + t == t;
    assert (",\"" + key + "\":") + (ArrayOf(items) + t) == open + (ArrayThen(items, true, "") + t);
  }

  lemma RulesAreJson(p: Projection)
    ensures RulesThen(p) == MembersThen(PolicyMembers(p)[3..], false, "")
  {
    hide MembersThen, ArrayThen, RuleThen, RuleObject;
    SourcesAreJson(p);
    forall r, y ensures RuleThen(r, y) == RuleObject(r) + y {
      RuleIsJson(r, y);
    }
    ListIsJson(RuleThen, RuleObject, p.rules, true, SourcesThen(p));
    assert ",\"" + "rules" + "\":[" == ",\"rules\":[";
    NextArray(",\"rules\":[", "rules", Texts(RuleObject, p.rules), PolicyMembers(p)[4..], "");
    assert [PolicyMembers(p)[3]] + PolicyMembers(p)[4..] == PolicyMembers(p)[3..];
  }

  lemma MappingsAreJson(p: Projection)
    ensures MappingsThen(p) == MembersThen(PolicyMembers(p)[2..], false, "")
  {
    hide MembersThen, ArrayThen, MappingThen, MappingObject, RulesThen;
    RulesAreJson(p);
    forall m, y ensures MappingThen(m, y) == MappingObject(m) + y {
      MappingIsJson(m, y);
    }
    ListIsJson(MappingThen, MappingObject, p.mappings, true, RulesThen(p));
    assert ",\"" + "mappings" + "\":[" == ",\"mappings\":[";
    NextArray(",\"mappings\":[", "mappings", Texts(MappingObject, p.mappings), PolicyMembers(p)[3..], "");
    assert [PolicyMembers(p)[2]] + PolicyMembers(p)[3..] == PolicyMembers(p)[2..];
  }

  lemma DefaultsAreJson(d: PrivacyDefaults, rest: string)
    ensures ObjectOf(DefaultMembers(d)) + rest ==
            "{\"application\":\"" + (DefaultText(d.application)
            + ("\",\"media\":\"" + (DefaultText(d.media)
            + ("\",\"windowTitle\":\"" + (DefaultText(d.windowTitle)
            + ("\"}" + rest))))))
  {
    hide MembersThen, Quoted, ObjectThen, DefaultText;
    var ms, media, window := DefaultMembers(d), DefaultText(d.media), DefaultText(d.windowTitle);
    WindowTitleLast(window, rest);
    MediaMember(media, [ms[2]], rest);
    FirstQuoted("{\"application\":\"", "application", DefaultText(d.application), [ms[1], ms[2]], rest);
    assert [ms[1]] + [ms[2]] == [ms[1], ms[2]] && [ms[0]] + [ms[1], ms[2]] == ms;
    WindowTitleJoins(window + ("\"}" + rest));
    MediaJoins(media + ("\",\"windowTitle\":\"" + (window + ("\"}" + rest))));
    ObjectThenRest(ms, rest);
  }

  lemma DefaultsClose(x: string)
    ensures "\"}" + (",\"ignoreNullArtist\":" + x) == "\"},\"ignoreNullArtist\":" + x
  {
    Joins("\"}", ",\"ignoreNullArtist\":", "\"},\"ignoreNullArtist\":", x);
  }

  lemma DefaultsOpen(x: string)
    ensures "{\"defaults\":" + ("{\"application\":\"" + x) == "{\"defaults\":{\"application\":\"" + x
  {
    Joins("{\"defaults\":", "{\"application\":\"", "{\"defaults\":{\"application\":\"", x);
  }

  lemma ArtistMember(value: string, ms: seq<Member>)
    ensures MembersThen([("ignoreNullArtist", value)] + ms, false, "") ==
              ",\"ignoreNullArtist\":" + (value + MembersThen(ms, false, ""))
  {
    hide MembersThen;
    NextMember("ignoreNullArtist", value, ms, "");
    assert ",\"" + "ignoreNullArtist" + "\":" == ",\"ignoreNullArtist\":";
  }

  lemma SettingsAreJson(p: Projection)
    ensures ",\"ignoreNullArtist\":" + (BoolText(p.ignoreNullArtist) + MappingsThen(p)) ==
              MembersThen(PolicyMembers(p)[1..], false, "")
  {
    hide MembersThen, ArrayOf, MappingsThen, ObjectOf, BoolText;
    MappingsAreJson(p);
    ArtistMember(BoolText(p.ignoreNullArtist), PolicyMembers(p)[2..]);
    assert [PolicyMembers(p)[1]] + PolicyMembers(p)[2..] == PolicyMembers(p)[1..];
  }

  // The text that is hashed is the compact JSON of the policy: every value under its own key.
  lemma CanonicalIsJson(p: Projection)
    ensures Canonical(p) == ObjectOf(PolicyMembers(p))
  {
    hide MembersThen, ArrayOf, MappingsThen, ObjectOf, ObjectThen;
    SettingsAreJson(p);
    var x := BoolText(p.ignoreNullArtist) + MappingsThen(p);
    var rest := ",\"ignoreNullArtist\":" + x;
    OpensWith("defaults", ObjectOf(DefaultMembers(p.defaults)), PolicyMembers(p)[1..]);
    assert [PolicyMembers(p)[0]] + PolicyMembers(p)[1..] == PolicyMembers(p);
    assert "{\"" + "defaults" + "\":" == "{\"defaults\":";
    DefaultsAreJson(p.defaults, rest);
    DefaultsClose(x);
    DefaultsOpen(DefaultText(p.defaults.application)
            + ("\",\"media\":\"" + (DefaultText(p.defaults.media)
            + ("\",\"windowTitle\":\"" + (DefaultText(p.defaults.windowTitle)
            + ("\"}" + rest))))));
  }

  lemma OpensWith(key: string, value: string, ms: seq<Member>)
    ensures ObjectOf([(key, value)] + ms) == ("{\"" + key + "\":") + (value + MembersThen(ms, false, ""))
  {
    FirstMember(key, value, ms, "");
  }
}
