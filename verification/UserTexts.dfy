/**
 Normalisation of user text (`core/src/privacy/model.rs`). A text is a sequence of Unicode scalars
 already in composed form, so the NFC pass is the identity.
 */
module UserTexts {
  import opened Options

  // ECMAScript WhiteSpace and LineTerminator.
  predicate IsJsWhitespace(c: char) {
    || '\U{2000}' <= c <= '\U{200A}'
    || '\U{0009}' <= c <= '\U{000D}'
    || c in ['\U{0020}', '\U{00A0}', '\U{1680}', '\U{2028}', '\U{2029}', '\U{202F}', '\U{205F}', '\U{3000}', '\U{FEFF}']
  }

  function TrimStart(s: string): string {
    if s != "" && IsJsWhitespace(s[0]) then TrimStart(s[1..]) else s
  }

  function TrimEnd(s: string): string {
    if s != "" && IsJsWhitespace(s[|s| - 1]) then TrimEnd(s[..|s| - 1]) else s
  }

  function JsTrim(s: string): string {
    TrimEnd(TrimStart(s))
  }

  predicate IsTrimmed(s: string) {
    s != "" ==> !IsJsWhitespace(s[0]) && !IsJsWhitespace(s[|s| - 1])
  }

  predicate IsBlank(s: string) {
    forall c <- s :: IsJsWhitespace(c)
  }

  // One character in lower case: the cased letters of ASCII, Latin-1 and Cyrillic.
  function LowerChar(c: char): char {
    if 'A' <= c <= 'Z' || ('\U{C0}' <= c <= '\U{DE}' && c != '\U{D7}')
       || '\U{410}' <= c <= '\U{42F}' then
      (c as int + 32) as char
    else if '\U{400}' <= c <= '\U{40F}' then (c as int + 80) as char
    else c
  }

  function Lowercase(s: string): (lower: string)
    ensures |lower| == |s|
    ensures forall i :: 0 <= i < |s| ==> lower[i] == LowerChar(s[i])
  {
    seq(|s|, i requires 0 <= i < |s| => LowerChar(s[i]))
  }

  function NormalizeText(value: Option<string>): Option<string> {
    if value.None? || JsTrim(value.value) == "" then None else Some(JsTrim(value.value))
  }

  function NormalizeAppId(appId: string): string {
    Lowercase(JsTrim(appId))
  }

  // ---- what normalisation means -----------------------------------------------------------------------

  lemma {:induction false} TrimStartIsSuffix(s: string)
    ensures var t := TrimStart(s);
            && |t| <= |s| && t == s[|s| - |t|..] && IsBlank(s[..|s| - |t|])
            && (t != "" ==> !IsJsWhitespace(t[0]))
  {
    if s != "" && IsJsWhitespace(s[0]) {
      var t := TrimStart(s[1..]);
      TrimStartIsSuffix(s[1..]);
      assert s[..|s| - |t|] == [s[0]] + s[1..][..|s| - 1 - |t|];
    }
  }

  lemma {:induction false} TrimEndIsPrefix(s: string)
    ensures var t := TrimEnd(s);
            && |t| <= |s| && t == s[..|t|] && IsBlank(s[|t|..])
            && (t != "" ==> !IsJsWhitespace(t[|t| - 1]))
  {
    if s != "" && IsJsWhitespace(s[|s| - 1]) {
      var t := TrimEnd(s[..|s| - 1]);
      TrimEndIsPrefix(s[..|s| - 1]);
      assert s[|t|..] == s[..|s| - 1][|t|..] + [s[|s| - 1]];
    }
  }

  // The trimmed text is the middle of the text between blank ends, and begins and ends with a
  // visible character unless it is empty.
  lemma TrimIsTheMiddle(s: string) returns (left: string, right: string)
    ensures s == left + JsTrim(s) + right
    ensures IsBlank(left) && IsBlank(right) && IsTrimmed(JsTrim(s))
    ensures JsTrim(s) == "" <==> IsBlank(s)
  {
    hide IsJsWhitespace, TrimStart, TrimEnd;
    var t := TrimStart(s);
    TrimStartIsSuffix(s);
    TrimEndIsPrefix(t);
    left, right := s[..|s| - |t|], t[|JsTrim(s)|..];
    if JsTrim(s) != "" {
      assert t[0] in t && t[0] in s;
    }
  }

  lemma TrimOfTrimmed(s: string)
    requires IsTrimmed(s)
    ensures JsTrim(s) == s
  {
  }

  lemma LowerCharLaws(c: char)
    ensures LowerChar(LowerChar(c)) == LowerChar(c)
    ensures IsJsWhitespace(LowerChar(c)) <==> IsJsWhitespace(c)
  {
  }

  lemma LowercaseIsIdempotent(s: string)
    ensures Lowercase(Lowercase(s)) == Lowercase(s)
    ensures IsTrimmed(s) <==> IsTrimmed(Lowercase(s))
  {
    forall c ensures LowerChar(LowerChar(c)) == LowerChar(c) && (IsJsWhitespace(LowerChar(c)) <==> IsJsWhitespace(c)) {
      LowerCharLaws(c);
    }
  }

  // Normalising is idempotent, for texts and for application ids.
  lemma NormalizationIsIdempotent(value: Option<string>, appId: string)
    ensures NormalizeText(NormalizeText(value)) == NormalizeText(value)
    ensures NormalizeAppId(NormalizeAppId(appId)) == NormalizeAppId(appId)
    ensures NormalizeText(value).Some? ==> IsTrimmed(NormalizeText(value).value) && NormalizeText(value).value != ""
  {
    if value.Some? {
      var left, right := TrimIsTheMiddle(value.value);
      TrimOfTrimmed(JsTrim(value.value));
    }
    var l, r := TrimIsTheMiddle(appId);
    LowercaseIsIdempotent(JsTrim(appId));
    TrimOfTrimmed(NormalizeAppId(appId));
  }

  // The 25 scalars that ECMAScript trims.
  lemma WhitespaceIsTabulated(c: char)
    ensures IsJsWhitespace(c) <==> c as int in {
              0x0009, 0x000A, 0x000B, 0x000C, 0x000D, 0x0020, 0x00A0, 0x1680, 0x2000, 0x2001, 0x2002, 0x2003, 0x2004,
              0x2005, 0x2006, 0x2007, 0x2008, 0x2009, 0x200A, 0x2028, 0x2029, 0x202F, 0x205F, 0x3000, 0xFEFF}
  {
  }

  // The capital and the small form of a letter of ASCII, Latin-1 or Cyrillic.
  predicate IsCapitalOf(c: char, d: char) {
    || ('A' <= c <= 'Z' && d as int == c as int + 32)
    || ('\U{C0}' <= c <= '\U{DE}' && c != '\U{D7}' && d as int == c as int + 32)
    || ('\U{410}' <= c <= '\U{42F}' && d as int == c as int + 32)
    || ('\U{400}' <= c <= '\U{40F}' && d as int == c as int + 80)
  }

  predicate SameLetter(c: char, d: char) {
    c == d || IsCapitalOf(c, d) || IsCapitalOf(d, c)
  }

  lemma LettersAreLowered(c: char, d: char)
    ensures LowerChar(c) == LowerChar(d) <==> SameLetter(c, d)
    ensures IsCapitalOf(c, d) ==> LowerChar(c) == d && LowerChar(d) == d
  {
  }

  // Two ids, whatever blanks are around them, are one exactly when they differ in the case of letters
  // alone.
  lemma SameIdExactly(id: string, other: string, left: string, right: string)
    requires IsTrimmed(id) && IsTrimmed(other) && IsBlank(left) && IsBlank(right)
    ensures NormalizeAppId(left + other + right) == NormalizeAppId(id) <==>
              |id| == |other| && forall i :: 0 <= i < |id| ==> SameLetter(id[i], other[i])
  {
    hide TrimStart, TrimEnd, SameLetter, LowerChar;
    PaddingIsTrimmed(left, other, right);
    TrimOfTrimmed(id);
    var a, b := Lowercase(id), Lowercase(other);
    forall i | 0 <= i < |id| && i < |other| ensures a[i] == b[i] <==> SameLetter(id[i], other[i]) {
      LettersAreLowered(id[i], other[i]);
    }
  }

  lemma {:induction false} TrimStartSkips(left: string, rest: string)
    requires IsBlank(left)
    ensures TrimStart(left + rest) == TrimStart(rest)
  {
    if left == "" {
      assert left + rest == rest;
    } else {
      assert left[0] in left && (left + rest)[1..] == left[1..] + rest;
      TrimStartSkips(left[1..], rest);
    }
  }

  lemma {:induction false} TrimEndSkips(rest: string, right: string)
    requires IsBlank(right)
    ensures TrimEnd(rest + right) == TrimEnd(rest)
  {
    if right == "" {
      assert rest + right == rest;
    } else {
      var n := |right| - 1;
      assert right[n] in right && (rest + right)[..|rest + right| - 1] == rest + right[..n];
      TrimEndSkips(rest, right[..n]);
    }
  }

  lemma PaddingIsTrimmed(left: string, text: string, right: string)
    requires IsTrimmed(text) && IsBlank(left) && IsBlank(right)
    ensures JsTrim(left + text + right) == text
  {
    if text == "" {
      var l, r := TrimIsTheMiddle(left + text + right);
    } else {
      assert left + text + right == left + (text + right);
      TrimStartSkips(left, text + right);
      assert TrimStart(text + right) == text + right;
      TrimEndSkips(text, right);
    }
  }
}
