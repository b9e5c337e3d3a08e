/** Strict Semantic Versioning 2.0.0: the hand-written parser and comparator. */
module SemVer {
  import opened Options
  import opened Orders
  import opened Texts

  const TWO_64: nat := 0x1_0000_0000_0000_0000

  datatype SemanticVersion = Version(major: nat, minor: nat, patch: nat, prerelease: seq<string>)

  predicate IsIdentifierChar(c: char) {
    IsDigit(c) || 'A' <= c <= 'Z' || 'a' <= c <= 'z' || c == '-'
  }

  predicate IsAlphanumericIdentifier(id: string) {
    id != "" && forall c <- id :: IsIdentifierChar(c)
  }

  // A pre-release identifier: alphanumeric, and without leading zeros when it is numeric.
  predicate IsPrereleaseIdentifier(id: string) {
    IsAlphanumericIdentifier(id) && (IsAllDigits(id) ==> IsNumericIdentifier(id))
  }

  predicate IsBuild(build: string) {
    build != "" && forall id <- Split(build, '.') :: IsAlphanumericIdentifier(id)
  }

  // ---- the parser, as a function -----------------------------------------------------------------

  // The input without its build metadata, which is checked and dropped.
  function WithoutBuild(input: string): Option<string> {
    var plus := IndexOf(input, '+');
    if plus == |input| then Some(input)
    else if IsBuild(input[plus + 1..]) then Some(input[..plus])
    else None
  }

  function ParsePrerelease(rest: string): Option<seq<string>> {
    var dash := IndexOf(rest, '-');
    if dash == |rest| then Some([])
    else if forall id <- Split(rest[dash + 1..], '.') :: IsPrereleaseIdentifier(id)
      then Some(Split(rest[dash + 1..], '.'))
    else None
  }

  // A core number of 64 bits.
  function ParseNumber(part: string): Option<nat> {
    if IsNumericIdentifier(part) && DecimalValue(part) < TWO_64 then Some(DecimalValue(part)) else None
  }

  function ParseCore(core: string): Option<(nat, nat, nat)> {
    var parts := Split(core, '.');
    if |parts| != 3 then None
    else
      var major, minor, patch := ParseNumber(parts[0]), ParseNumber(parts[1]), ParseNumber(parts[2]);
      if major.None? || minor.None? || patch.None? then None else Some((major.value, minor.value, patch.value))
  }

  function Parse(input: string): Option<SemanticVersion> {
    var rest := WithoutBuild(input);
    if rest.None? then None
    else
      var prerelease, core := ParsePrerelease(rest.value), ParseCore(rest.value[..IndexOf(rest.value, '-')]);
      if prerelease.None? || core.None? then None
      else Some(Version(core.value.0, core.value.1, core.value.2, prerelease.value))
  }

  // The parser as written, one method for each of its loops.
  method ReadPrerelease(pre: string) returns (prerelease: Option<seq<string>>)
    ensures prerelease == if forall id <- Split(pre, '.') :: IsPrereleaseIdentifier(id) then Some(Split(pre, '.'))
              else None
  {
    if pre == "" {
      assert "" in Split(pre, '.') by { assert Split(pre, '.')[0] == ""; }
      return None;
    }
    var ids := Split(pre, '.');
    var read: seq<string> := [];
    for i := 0 to |ids|
      invariant read == ids[..i]
      invariant forall k :: 0 <= k < i ==> IsPrereleaseIdentifier(ids[k])
    {
      assert ids[i] in ids;
      if !IsAlphanumericIdentifier(ids[i]) {
        return None;
      }
      if IsAllDigits(ids[i]) && !IsNumericIdentifier(ids[i]) {
        assert !IsPrereleaseIdentifier(ids[i]);
        return None;
      }
      read := read + [ids[i]];
    }
    assert read == ids;
    return Some(read);
  }

  method ReadCore(core: string) returns (nums: Option<(nat, nat, nat)>)
    ensures nums == ParseCore(core)
  {
    var read: seq<nat> := [];
    var parts := Split(core, '.');
    for i := 0 to |parts|
      invariant i == |read| <= 3
      invariant forall k :: 0 <= k < i ==> ParseNumber(parts[k]) == Some(read[k])
    {
      if i == 3 || !IsNumericIdentifier(parts[i]) || DecimalValue(parts[i]) >= TWO_64 {
        return None;
      }
      read := read + [DecimalValue(parts[i])];
    }
    return if |read| == 3 then Some((read[0], read[1], read[2])) else None;
  }

  method StripBuild(input: string) returns (rest: Option<string>)
    ensures rest == WithoutBuild(input)
  {
    var plus := IndexOf(input, '+');
    if plus < |input| {
      var build := input[plus + 1..];
      if build == "" || exists id <- Split(build, '.') :: !IsAlphanumericIdentifier(id) {
        return None;
      }
      return Some(input[..plus]);
    }
    return Some(input);
  }

  method ParseSemanticVersion(input: string) returns (version: Option<SemanticVersion>)
    ensures version == Parse(input)
  {
    hide WithoutBuild, ParseCore, IsPrereleaseIdentifier, Split;
    var unbuilt := StripBuild(input);
    if unbuilt.None? {
      return None;
    }
    var rest := unbuilt.value;
    var prerelease: seq<string> := [];
    var dash := IndexOf(rest, '-');
    if dash < |rest| {
      var read := ReadPrerelease(rest[dash + 1..]);
      if read.None? {
        return None;
      }
      prerelease := read.value;
    }
    var nums := ReadCore(rest[..dash]);
    if nums.None? {
      return None;
    }
    return Some(Version(nums.value.0, nums.value.1, nums.value.2, prerelease));
  }

  // ---- exactness -------------------------------------------------------------------------------------

  predicate IsWellFormed(v: SemanticVersion) {
    && v.major < TWO_64 && v.minor < TWO_64 && v.patch < TWO_64
    && forall id <- v.prerelease :: IsPrereleaseIdentifier(id)
  }

  function Core(v: SemanticVersion): string {
    Join([Digits(v.major), Digits(v.minor), Digits(v.patch)], '.')
  }

  function Suffix(v: SemanticVersion): string {
    if v.prerelease == [] then "" else "-" + Join(v.prerelease, '.')
  }

  // The canonical text of a version (sections 2 and 9 of Semantic Versioning 2.0.0).
  function Print(v: SemanticVersion): string {
    Core(v) + Suffix(v)
  }

  // Nothing, or "+" and build identifiers (section 10).
  predicate IsBuildTail(tail: string) {
    tail == "" || (tail[0] == '+' && IsBuild(tail[1..]))
  }

  lemma {:induction false} JoinedCharacters(parts: seq<string>, sep: char, c: char)
    requires c != sep && forall p <- parts :: c !in p
    ensures c !in Join(parts, sep)
  {
    if |parts| > 1 {
      JoinedCharacters(parts[1..], sep, c);
    }
  }

  lemma PrintHasNoPlus(v: SemanticVersion)
    requires IsWellFormed(v)
    ensures '+' !in Print(v) && '-' !in Core(v)
  {
    JoinedCharacters([Digits(v.major), Digits(v.minor), Digits(v.patch)], '.', '+');
    JoinedCharacters([Digits(v.major), Digits(v.minor), Digits(v.patch)], '.', '-');
    JoinedCharacters(v.prerelease, '.', '+');
  }

  lemma CoreParses(v: SemanticVersion)
    requires IsWellFormed(v)
    ensures ParseCore(Core(v)) == Some((v.major, v.minor, v.patch))
  {
    SplitOfJoin([Digits(v.major), Digits(v.minor), Digits(v.patch)], '.');
    DigitsAreCanonical(v.major);
    DigitsAreCanonical(v.minor);
    DigitsAreCanonical(v.patch);
  }

  // Stripping the build metadata splits the input into the printed version and the tail.
  lemma BuildIsTail(text: string, tail: string)
    requires '+' !in text && IsBuildTail(tail)
    ensures WithoutBuild(text + tail) == Some(text)
  {
    IndexOfAppend(text, tail, '+');
    assert (text + tail)[..|text|] == text;
    if tail == "" {
      assert text + tail == text;
    } else {
      assert IndexOf(tail, '+') == 0;
      assert (text + tail)[|text| + 1..] == tail[1..];
    }
  }

  lemma TailIsBuild(input: string, text: string)
    requires WithoutBuild(input) == Some(text)
    ensures text <= input && IsBuildTail(input[|text|..])
  {
    var plus := IndexOf(input, '+');
    if plus < |input| {
      assert input[plus..][1..] == input[plus + 1..];
    }
  }

  lemma PrereleaseOfPrint(v: SemanticVersion)
    requires IsWellFormed(v)
    ensures ParsePrerelease(Print(v)) == Some(v.prerelease)
    ensures Print(v)[..IndexOf(Print(v), '-')] == Core(v)
  {
    PrintHasNoPlus(v);
    IndexOfAppend(Core(v), Suffix(v), '-');
    if v.prerelease != [] {
      assert Print(v)[|Core(v)| + 1..] == Join(v.prerelease, '.');
      SplitOfJoin(v.prerelease, '.');
    }
  }

  lemma CutAt(text: string, at: nat)
    requires at < |text|
    ensures text == text[..at] + ([text[at]] + text[at + 1..])
  {
  }

  lemma SuffixOfPrerelease(text: string, prerelease: seq<string>)
    requires ParsePrerelease(text) == Some(prerelease)
    ensures forall id <- prerelease :: IsPrereleaseIdentifier(id)
    ensures prerelease == [] ==> text == text[..IndexOf(text, '-')]
    ensures prerelease != [] ==> text == text[..IndexOf(text, '-')] + ("-" + Join(prerelease, '.'))
  {
    var dash := IndexOf(text, '-');
    if dash < |text| {
      JoinOfSplit(text[dash + 1..], '.');
      CutAt(text, dash);
    }
  }

  lemma NumberIsPrinted(part: string)
    requires ParseNumber(part).Some?
    ensures Digits(ParseNumber(part).value) == part
  {
    NumeralOfValue(part);
  }

  lemma CoreOfParts(core: string, v: SemanticVersion)
    requires ParseCore(core) == Some((v.major, v.minor, v.patch))
    ensures core == Core(v)
  {
    var parts := Split(core, '.');
    JoinOfSplit(core, '.');
    NumberIsPrinted(parts[0]);
    NumberIsPrinted(parts[1]);
    NumberIsPrinted(parts[2]);
    assert parts == [Digits(v.major), Digits(v.minor), Digits(v.patch)];
  }

  lemma PrintedParses(v: SemanticVersion, tail: string)
    requires IsWellFormed(v) && IsBuildTail(tail)
    ensures Parse(Print(v) + tail) == Some(v)
  {
    PrintHasNoPlus(v);
    BuildIsTail(Print(v), tail);
    PrereleaseOfPrint(v);
    CoreParses(v);
  }

  lemma ParsedIsPrinted(input: string, v: SemanticVersion)
    requires Parse(input) == Some(v)
    ensures IsWellFormed(v) && Print(v) <= input && IsBuildTail(input[|Print(v)|..])
  {
    var text := WithoutBuild(input).value;
    TailIsBuild(input, text);
    SuffixOfPrerelease(text, v.prerelease);
    CoreOfParts(text[..IndexOf(text, '-')], v);
    assert Print(v) == text;
  }

  // Accepted texts are exactly the canonical prints of well-formed versions with optional build metadata.
  lemma ParserIsExact(input: string, v: SemanticVersion)
    ensures Parse(input) == Some(v) <==>
              IsWellFormed(v) && Print(v) <= input && IsBuildTail(input[|Print(v)|..])
  {
    if Parse(input) == Some(v) {
      ParsedIsPrinted(input, v);
    }
    if IsWellFormed(v) && Print(v) <= input && IsBuildTail(input[|Print(v)|..]) {
      PrintedParses(v, input[|Print(v)|..]);
      assert input == Print(v) + input[|Print(v)|..];
    }
  }

  // ---- precedence ------------------------------------------------------------------------------------------

  function Saturated(n: nat): nat {
    if n < TWO_64 then n else TWO_64 - 1
  }

  // One pair of identifiers; numbers beyond 64 bits are read as the greatest 64-bit number.
  function CompareIdentifiers(a: string, b: string): Ordering {
    if IsAllDigits(a) && IsAllDigits(b) then CompareInts(Saturated(DecimalValue(a)), Saturated(DecimalValue(b)))
    else if IsAllDigits(a) then Less
    else if IsAllDigits(b) then Greater
    else CompareText(a, b)
  }

  function CompareChars(a: char, b: char): Ordering {
    CompareInts(a as int, b as int)
  }

  function CompareText(a: string, b: string): Ordering {
    Lex(CompareChars, a, b)
  }

  function Then(first: Ordering, second: Ordering): Ordering {
    if first == Equal then second else first
  }

  function CompareCores(a: SemanticVersion, b: SemanticVersion): Ordering {
    Then(CompareInts(a.major, b.major), Then(CompareInts(a.minor, b.minor), CompareInts(a.patch, b.patch)))
  }

  // A release is above every pre-release of its core.
  function ComparePrereleases(p: seq<string>, q: seq<string>): Ordering {
    if p == [] && q == [] then Equal
    else if p == [] then Greater
    else if q == [] then Less
    else Lex(CompareIdentifiers, p, q)
  }

  function Compare(a: SemanticVersion, b: SemanticVersion): Ordering {
    Then(CompareCores(a, b), ComparePrereleases(a.prerelease, b.prerelease))
  }

  // The comparator as written: a loop over the pairs of identifiers.
  method CompareSemanticVersions(a: SemanticVersion, b: SemanticVersion) returns (order: Ordering)
    ensures order == Compare(a, b)
  {
    var core := Then(CompareInts(a.major, b.major), Then(CompareInts(a.minor, b.minor), CompareInts(a.patch, b.patch)));
    if core != Equal {
      return core;
    }
    var p, q := a.prerelease, b.prerelease;
    if p == [] && q == [] {
      return Equal;
    }
    if p == [] {
      return Greater;
    }
    if q == [] {
      return Less;
    }
    var i := 0;
    while i < |p| && i < |q|
      invariant i <= |p| && i <= |q|
      invariant Lex(CompareIdentifiers, p, q) == Lex(CompareIdentifiers, p[i..], q[i..])
    {
      var numA, numB := IsAllDigits(p[i]), IsAllDigits(q[i]);
      var ord;
      if numA && numB {
        var x := DecimalValue(p[i]);
        var y := DecimalValue(q[i]);
        ord := CompareInts(if x < TWO_64 then x else TWO_64 - 1, if y < TWO_64 then y else TWO_64 - 1);
      } else if numA != numB {
        ord := if numA then Less else Greater;
      } else {
        ord := CompareText(p[i], q[i]);
      }
      assert ord == CompareIdentifiers(p[i..][0], q[i..][0]);
      if ord != Equal {
        return ord;
      }
      assert p[i..][1..] == p[i + 1..] && q[i..][1..] == q[i + 1..];
      i := i + 1;
    }
    return CompareInts(|p|, |q|);
  }

  lemma CharsArePreordered()
    ensures IsPreorder(CompareChars)
  {
  }

  lemma IdentifiersArePreordered()
    ensures IsPreorder(CompareIdentifiers)
  {
    CharsArePreordered();
    forall x, y ensures CompareIdentifiers(y, x) == Flip(CompareIdentifiers(x, y)) {
      LexFlips(CompareChars, x, y);
    }
    forall x, y, z | CompareIdentifiers(x, y) != Greater && CompareIdentifiers(y, z) != Greater
      ensures CompareIdentifiers(x, z) != Greater
    {
      if !IsAllDigits(x) && !IsAllDigits(y) && !IsAllDigits(z) {
        LexTransitive(CompareChars, x, y, z);
      }
    }
  }

  lemma PrereleasesArePreordered(p: seq<string>, q: seq<string>, r: seq<string>)
    ensures ComparePrereleases(q, p) == Flip(ComparePrereleases(p, q))
    ensures ComparePrereleases(p, q) != Greater && ComparePrereleases(q, r) != Greater ==>
              ComparePrereleases(p, r) != Greater
  {
    IdentifiersArePreordered();
    LexFlips(CompareIdentifiers, p, q);
    if p != [] && q != [] && r != [] && ComparePrereleases(p, q) != Greater && ComparePrereleases(q, r) != Greater {
      LexTransitive(CompareIdentifiers, p, q, r);
    }
  }

  // The comparator is a total preorder: swapping flips, and it is transitive.
  lemma CompareIsTotalPreorder(a: SemanticVersion, b: SemanticVersion, c: SemanticVersion)
    ensures Compare(b, a) == Flip(Compare(a, b))
    ensures Compare(a, b) != Greater && Compare(b, c) != Greater ==> Compare(a, c) != Greater
  {
    PrereleasesArePreordered(a.prerelease, b.prerelease, c.prerelease);
    PrereleasesArePreordered(b.prerelease, c.prerelease, a.prerelease);
    PrereleasesArePreordered(a.prerelease, c.prerelease, b.prerelease);
  }

  // ---- agreement with section 11 of Semantic Versioning 2.0.0 ----------------------------------------------------

  predicate CharBelow(a: char, b: char) {
    a < b
  }

  // 11.4.1 to 11.4.3
  ghost predicate IdentifierBelow(a: string, b: string) {
    if IsAllDigits(a) && IsAllDigits(b) then DecimalValue(a) < DecimalValue(b)
    else if IsAllDigits(a) || IsAllDigits(b) then IsAllDigits(a)
    else LexBelow(CharBelow, a, b)
  }

  ghost predicate CoreBelow(a: SemanticVersion, b: SemanticVersion) {
    || a.major < b.major
    || (a.major == b.major && a.minor < b.minor)
    || (a.major == b.major && a.minor == b.minor && a.patch < b.patch)
  }

  predicate SameCore(a: SemanticVersion, b: SemanticVersion) {
    a.major == b.major && a.minor == b.minor && a.patch == b.patch
  }

  // 11.2 to 11.4.4
  ghost predicate Precedes(a: SemanticVersion, b: SemanticVersion) {
    || CoreBelow(a, b)
    || (SameCore(a, b) && a.prerelease != [] &&
        (b.prerelease == [] || LexBelow(IdentifierBelow, a.prerelease, b.prerelease)))
  }

  // What the comparator reads an identifier as.
  function ReadAs(id: string): string {
    if IsAllDigits(id) then Digits(Saturated(DecimalValue(id))) else id
  }

  function ReadAll(ids: seq<string>): (read: seq<string>)
    ensures |read| == |ids|
    ensures forall i :: 0 <= i < |ids| ==> read[i] == ReadAs(ids[i])
  {
    if ids == [] then [] else [ReadAs(ids[0])] + ReadAll(ids[1..])
  }

  function AsRead(v: SemanticVersion): SemanticVersion {
    v.(prerelease := ReadAll(v.prerelease))
  }

  lemma IdentifiersComparedAsRead(a: string, b: string)
    requires IsPrereleaseIdentifier(a) && IsPrereleaseIdentifier(b)
    ensures CompareIdentifiers(a, b) == Less <==> IdentifierBelow(ReadAs(a), ReadAs(b))
    ensures CompareIdentifiers(a, b) == Equal <==> ReadAs(a) == ReadAs(b)
  {
    LexIsFirstDifference(CompareChars, CharBelow, a, b);
    if IsAllDigits(a) {
      DigitsAreCanonical(Saturated(DecimalValue(a)));
    }
    if IsAllDigits(b) {
      DigitsAreCanonical(Saturated(DecimalValue(b)));
    }
  }

  lemma ReadingKeepsIdentifiers(a: string)
    requires IsPrereleaseIdentifier(a)
    ensures IsPrereleaseIdentifier(ReadAs(a)) && ReadAs(ReadAs(a)) == ReadAs(a)
    ensures (IsAllDigits(a) ==> DecimalValue(a) < TWO_64) ==> ReadAs(a) == a
  {
    if IsAllDigits(a) {
      NumeralOfValue(a);
      DigitsAreCanonical(Saturated(DecimalValue(a)));
    }
  }

  lemma {:induction false} PrereleasesComparedAsRead(p: seq<string>, q: seq<string>)
    requires forall id <- p + q :: IsPrereleaseIdentifier(id)
    ensures Lex(CompareIdentifiers, p, q) == Lex(CompareIdentifiers, ReadAll(p), ReadAll(q))
  {
    if p != [] && q != [] {
      assert p[0] in p + q && q[0] in p + q;
      IdentifiersComparedAsRead(p[0], q[0]);
      ReadingKeepsIdentifiers(p[0]);
      ReadingKeepsIdentifiers(q[0]);
      IdentifiersComparedAsRead(ReadAs(p[0]), ReadAs(q[0]));
      IdentifiersComparedAsRead(q[0], p[0]);
      assert ReadAll(p)[1..] == ReadAll(p[1..]) && ReadAll(q)[1..] == ReadAll(q[1..]);
      PrereleasesComparedAsRead(p[1..], q[1..]);
    }
  }

  lemma PrereleasePrecedenceAsRead(p: seq<string>, q: seq<string>)
    requires forall id <- p + q :: IsPrereleaseIdentifier(id)
    ensures Lex(CompareIdentifiers, p, q) == Less <==> LexBelow(IdentifierBelow, ReadAll(p), ReadAll(q))
    ensures Lex(CompareIdentifiers, p, q) == Equal <==> ReadAll(p) == ReadAll(q)
  {
    PrereleasesComparedAsRead(p, q);
    forall x <- ReadAll(p), y <- ReadAll(q)
      ensures (CompareIdentifiers(x, y) == Less <==> IdentifierBelow(x, y))
                && (CompareIdentifiers(x, y) == Equal <==> x == y)
    {
      var i :| 0 <= i < |p| && x == ReadAs(p[i]);
      var j :| 0 <= j < |q| && y == ReadAs(q[j]);
      assert p[i] in p + q && q[j] in p + q;
      ReadingKeepsIdentifiers(p[i]);
      ReadingKeepsIdentifiers(q[j]);
      IdentifiersComparedAsRead(x, y);
    }
    LexIsFirstDifference(CompareIdentifiers, IdentifierBelow, ReadAll(p), ReadAll(q));
  }

  // The comparator computes the standard's precedence of the versions as it reads them: the two
  // differ exactly in numeric pre-release identifiers of 2^64 or more.
  lemma CompareIsPrecedenceAsRead(a: SemanticVersion, b: SemanticVersion)
    requires IsWellFormed(a) && IsWellFormed(b)
    ensures Compare(a, b) == Less <==> Precedes(AsRead(a), AsRead(b))
    ensures Compare(a, b) == Equal <==> AsRead(a) == AsRead(b)
  {
    PrereleasePrecedenceAsRead(a.prerelease, b.prerelease);
  }

  // So with numeric identifiers below 2^64 it is the standard's precedence itself, and level only for
  // identical versions.
  lemma CompareIsPrecedence(a: SemanticVersion, b: SemanticVersion)
    requires IsWellFormed(a) && IsWellFormed(b)
    requires forall id <- a.prerelease + b.prerelease :: IsAllDigits(id) ==> DecimalValue(id) < TWO_64
    ensures Compare(a, b) == Less <==> Precedes(a, b)
    ensures Compare(a, b) == Equal <==> a == b
  {
    CompareIsPrecedenceAsRead(a, b);
    forall v <- [a, b] ensures AsRead(v) == v {
      forall i | 0 <= i < |v.prerelease| ensures ReadAs(v.prerelease[i]) == v.prerelease[i] {
        assert v.prerelease[i] in v.prerelease && v.prerelease[i] in a.prerelease + b.prerelease;
        ReadingKeepsIdentifiers(v.prerelease[i]);
      }
      assert ReadAll(v.prerelease) == v.prerelease;
    }
    assert AsRead([a, b][0]) == a && AsRead([a, b][1]) == b;
  }

  // Numeric identifiers from 2^64 - 1 on are read as one number.
  lemma HugeIdentifiersReadAlike(n: nat, m: nat)
    requires TWO_64 - 1 <= n && TWO_64 - 1 <= m
    ensures ReadAs(Digits(n)) == ReadAs(Digits(m))
    ensures IsPrereleaseIdentifier(Digits(n)) && (n != m ==> Digits(n) != Digits(m))
  {
    DigitsAreCanonical(n);
    DigitsAreCanonical(m);
  }

  // An identifier that reads like a smaller one, or like a textual one, is that one.
  lemma SmallIdentifiersReadApart(id: string, other: string)
    requires IsPrereleaseIdentifier(id) && IsPrereleaseIdentifier(other)
    requires IsAllDigits(id) ==> DecimalValue(id) < TWO_64 - 1
    requires ReadAs(id) == ReadAs(other)
    ensures id == other
  {
    if IsAllDigits(id) {
      DigitsAreCanonical(DecimalValue(id));
      NumeralOfValue(id);
    }
    if IsAllDigits(other) {
      DigitsAreCanonical(Saturated(DecimalValue(other)));
      NumeralOfValue(other);
    }
  }

  predicate HasSmallNumbers(v: SemanticVersion) {
    forall id <- v.prerelease :: IsAllDigits(id) ==> DecimalValue(id) < TWO_64 - 1
  }

  lemma SmallNumbersAreLevelAlone(v: SemanticVersion, w: SemanticVersion)
    requires IsWellFormed(v) && IsWellFormed(w) && HasSmallNumbers(v) && Compare(v, w) == Equal
    ensures w == v
  {
    CompareIsPrecedenceAsRead(v, w);
    assert |v.prerelease| == |AsRead(v).prerelease| == |w.prerelease|;
    forall i | 0 <= i < |v.prerelease| ensures v.prerelease[i] == w.prerelease[i] {
      assert ReadAll(v.prerelease)[i] == ReadAll(w.prerelease)[i];
      assert v.prerelease[i] in v.prerelease && w.prerelease[i] in w.prerelease;
      SmallIdentifiersReadApart(v.prerelease[i], w.prerelease[i]);
    }
    assert v.prerelease == w.prerelease;
  }

  lemma ReplacedReadsAlike(v: SemanticVersion, i: nat, other: string)
    requires IsWellFormed(v) && i < |v.prerelease| && IsPrereleaseIdentifier(other)
    requires ReadAs(other) == ReadAs(v.prerelease[i])
    ensures var w := v.(prerelease := v.prerelease[i := other]); IsWellFormed(w) && AsRead(w) == AsRead(v)
  {
    hide IsPrereleaseIdentifier, ReadAs;
    var w := v.(prerelease := v.prerelease[i := other]);
    forall id <- w.prerelease ensures IsPrereleaseIdentifier(id) {
      assert id == other || id in v.prerelease;
    }
    assert ReadAll(w.prerelease) == ReadAll(v.prerelease);
  }

  lemma HugeNumberHasCompany(v: SemanticVersion, i: nat) returns (w: SemanticVersion)
    requires IsWellFormed(v) && i < |v.prerelease|
    requires IsAllDigits(v.prerelease[i]) && DecimalValue(v.prerelease[i]) >= TWO_64 - 1
    ensures IsWellFormed(w) && w != v && Compare(v, w) == Equal
  {
    hide Compare;
    assert v.prerelease[i] in v.prerelease;
    var n := DecimalValue(v.prerelease[i]);
    NumeralOfValue(v.prerelease[i]);
    HugeIdentifiersReadAlike(n, n + 1);
    HugeIdentifiersReadAlike(n + 1, n);
    ReplacedReadsAlike(v, i, Digits(n + 1));
    w := v.(prerelease := v.prerelease[i := Digits(n + 1)]);
    assert w.prerelease[i] != v.prerelease[i];
    CompareIsPrecedenceAsRead(v, w);
  }

  // A version is level with no other exactly when every numeric pre-release identifier is below
  // 2^64 - 1: that number and all beyond it compare level.
  lemma LevelAloneExactly(v: SemanticVersion)
    requires IsWellFormed(v)
    ensures (forall w :: IsWellFormed(w) && Compare(v, w) == Equal ==> w == v) <==> HasSmallNumbers(v)
  {
    if HasSmallNumbers(v) {
      forall w | IsWellFormed(w) && Compare(v, w) == Equal ensures w == v {
        SmallNumbersAreLevelAlone(v, w);
      }
    } else {
      var i :| 0 <= i < |v.prerelease| && IsAllDigits(v.prerelease[i]) && DecimalValue(v.prerelease[i]) >= TWO_64 - 1;
      var w := HugeNumberHasCompany(v, i);
    }
  }
}
