/** What the fingerprint ignores, and what it determines. */
module FingerprintMeaning {
  import opened Fingerprint
  import opened JsonTexts
  import opened Model
  import opened Orders
  import opened PrivacyPolicy
  import opened StableSorting
  import opened UserTexts

  // ---- exactly what equal canonical texts have in common --------------------------------------------

  lemma SortKeySplits(m: PrivacyMapping, n: PrivacyMapping)
    ensures SortKey(m) == SortKey(n) <==> m.mappingType == n.mappingType && m.from == n.from
  {
    if SortKey(m) == SortKey(n) {
      TypeSplits(m.mappingType, n.mappingType, "\\0" + m.from, "\\0" + n.from);
      DropPrefix("\\0", m.from, n.from);
    }
  }

  // Both sorts compare by a total order on the key: rules by normalised id, mappings by type and raw name.
  lemma KeyOrders()
    ensures IsPreorder(CompareRules) && IsPreorder(CompareMappings)
    ensures forall a, b :: CompareRules(a, b) == Equal <==> a.appId == b.appId
    ensures forall m, n :: CompareMappings(m, n) == Equal <==> m.mappingType == n.mappingType && m.from == n.from
  {
    Utf16Order();
    forall a, b ensures CompareRules(b, a) == Flip(CompareRules(a, b)) {
      assert CompareUtf16(b.appId, a.appId) == Flip(CompareUtf16(a.appId, b.appId));
    }
    forall m, n ensures CompareMappings(n, m) == Flip(CompareMappings(m, n)) {
      assert CompareUtf16(SortKey(n), SortKey(m)) == Flip(CompareUtf16(SortKey(m), SortKey(n)));
    }
    forall m, n ensures CompareMappings(m, n) == Equal <==> m.mappingType == n.mappingType && m.from == n.from {
      SortKeySplits(m, n);
    }
  }

  ghost predicate SameSettings(c: PrivacyConfig, d: PrivacyConfig) {
    && c.defaults == d.defaults && c.sources == d.sources
    && c.ignoreNullArtist == d.ignoreNullArtist && c.shareWindowTitles == d.shareWindowTitles
  }

  // Equal texts: the same settings, and for every key the same rules that say something and the same
  // mappings, each in the same order. The order between different keys is free.
  lemma SamePreimageExactly(c: PrivacyConfig, d: PrivacyConfig)
    ensures Preimage(c) == Preimage(d) <==>
              && SameSettings(c, d)
              && SameLevels(CompareRules, KeptRules(c.rules), KeptRules(d.rules))
              && SameLevels(CompareMappings, c.mappings, d.mappings)
  {
    KeyOrders();
    SortsAgreeExactly(CompareRules, KeptRules(c.rules), KeptRules(d.rules));
    SortsAgreeExactly(CompareMappings, c.mappings, d.mappings);
    if Preimage(c) == Preimage(d) {
      CanonicalIsInjective(PolicyProjection(c), PolicyProjection(d));
    }
  }

  // ---- cosmetic edits --------------------------------------------------------------------------------

  lemma {:induction false} KeptOfConcatenation(a: seq<ApplicationPrivacyRule>, b: seq<ApplicationPrivacyRule>)
    ensures KeptRules(a + b) == KeptRules(a) + KeptRules(b)
  {
    if a == [] {
      assert a + b == b;
    } else {
      assert (a + b)[0] == a[0] && (a + b)[1..] == a[1..] + b;
      KeptOfConcatenation(a[1..], b);
    }
  }

  lemma KeptOfInsertion(before: seq<ApplicationPrivacyRule>, rule: ApplicationPrivacyRule,
      after: seq<ApplicationPrivacyRule>)
    ensures KeptRules(before + [rule] + after) == KeptRules(before) + KeptRules([rule]) + KeptRules(after)
  {
    KeptOfConcatenation(before + [rule], after);
    KeptOfConcatenation(before, [rule]);
  }

  lemma KeptOfOne(rule: ApplicationPrivacyRule)
    ensures KeptRules([rule]) == if IsEmptyRule(rule) then [] else [NormalizedRule(rule)]
  {
    hide NormalizeAppId, NormalizeText;
    NormalizationIsIdempotent(rule.displayAlias, rule.appId);
    assert [rule][1..] == [];
  }

  // The text depends on the kept rules only.
  lemma PreimageOfKept(c: PrivacyConfig, rules: seq<ApplicationPrivacyRule>)
    requires KeptRules(c.rules) == KeptRules(rules)
    ensures Preimage(c) == Preimage(c.(rules := rules))
  {
    assert PolicyProjection(c) == PolicyProjection(c.(rules := rules));
  }

  // An empty rule anywhere, and another spelling of an id or an alias, leave the text alone.
  lemma CosmeticEdits(before: seq<ApplicationPrivacyRule>, rule: ApplicationPrivacyRule, other: ApplicationPrivacyRule,
                      after: seq<ApplicationPrivacyRule>, c: PrivacyConfig)
    requires c.rules == before + [rule] + after
    ensures IsEmptyRule(rule) ==> Preimage(c) == Preimage(c.(rules := before + after))
    ensures NormalizedRule(rule) == NormalizedRule(other) ==>
              Preimage(c) == Preimage(c.(rules := before + [other] + after))
  {
    KeptOfInsertion(before, rule, after);
    KeptOfInsertion(before, other, after);
    KeptOfConcatenation(before, after);
    KeptOfOne(rule);
    assert KeptRules(before) + [] == KeptRules(before);
    if IsEmptyRule(rule) {
      PreimageOfKept(c, before + after);
    }
    if NormalizedRule(rule) == NormalizedRule(other) {
      KeptOfOne(other);
      PreimageOfKept(c, before + [other] + after);
    }
  }

  ghost predicate DistinctKeys<T(!new)>(cmp: (T, T) -> Ordering, s: seq<T>) {
    forall i, j :: 0 <= i < j < |s| ==> cmp(s[i], s[j]) != Equal
  }

  lemma FirstIsElement<T>(s: seq<T>)
    ensures s != [] ==> s[0] in s
  {
  }

  // With distinct keys a level is one element at most, so order carries nothing.
  lemma {:induction false} LevelOfDistinct<T(!new)>(cmp: (T, T) -> Ordering, s: seq<T>, x: T)
    requires IsPreorder(cmp) && DistinctKeys(cmp, s)
    ensures |Level(cmp, x, s)| <= 1
  {
    if s != [] {
      forall i, j | 0 <= i < j < |s[1..]| ensures cmp(s[1..][i], s[1..][j]) != Equal {
        assert cmp(s[i + 1], s[j + 1]) != Equal;
      }
      LevelOfDistinct(cmp, s[1..], x);
      if cmp(x, s[0]) == Equal {
        assert cmp(s[0], x) == Equal;
        FirstIsElement(Level(cmp, x, s[1..]));
      }
    }
  }

  lemma SameElements<T(!new)>(s: seq<T>, t: seq<T>, y: T)
    requires multiset(s) == multiset(t)
    ensures y in s <==> y in t
  {
    assert y in s <==> y in multiset(s);
    assert y in t <==> y in multiset(t);
  }

  // Two levels of one element at most, with the same elements.
  lemma ShortLevelsAgree<T(!new)>(a: seq<T>, b: seq<T>)
    requires |a| <= 1 && |b| <= 1 && forall y :: y in a <==> y in b
    ensures a == b
  {
    FirstIsElement(a);
    FirstIsElement(b);
  }

  lemma DistinctPermutationsAgree<T(!new)>(cmp: (T, T) -> Ordering, s: seq<T>, t: seq<T>)
    requires IsPreorder(cmp) && DistinctKeys(cmp, s) && DistinctKeys(cmp, t) && multiset(s) == multiset(t)
    ensures SameLevels(cmp, s, t)
  {
    hide IsPreorder, DistinctKeys;
    forall x ensures Level(cmp, x, s) == Level(cmp, x, t) {
      LevelOfDistinct(cmp, s, x);
      LevelOfDistinct(cmp, t, x);
      forall y ensures y in Level(cmp, x, s) <==> y in Level(cmp, x, t) {
        SameElements(s, t, y);
      }
      ShortLevelsAgree(Level(cmp, x, s), Level(cmp, x, t));
    }
  }

  // Rules and mappings with distinct keys may be listed in any order.
  lemma OrderIsCosmetic(c: PrivacyConfig, d: PrivacyConfig)
    requires SameSettings(c, d)
    requires multiset(KeptRules(c.rules)) == multiset(KeptRules(d.rules))
              && multiset(c.mappings) == multiset(d.mappings)
    requires DistinctKeys(CompareRules, KeptRules(c.rules)) && DistinctKeys(CompareRules, KeptRules(d.rules))
    requires DistinctKeys(CompareMappings, c.mappings) && DistinctKeys(CompareMappings, d.mappings)
    ensures Preimage(c) == Preimage(d)
  {
    KeyOrders();
    DistinctPermutationsAgree(CompareRules, KeptRules(c.rules), KeptRules(d.rules));
    DistinctPermutationsAgree(CompareMappings, c.mappings, d.mappings);
    SamePreimageExactly(c, d);
  }
}
