/** JSON string literals (section 7 of RFC 8259) and UTF-16 code units. */
module JsonTexts {
  import opened Options
  import opened Orders

  // ---- string literals ---------------------------------------------------------------------------

  function HexDigit(d: nat): (c: char)
    requires d < 16
  {
    if d < 10 then '0' + d as char else 'a' + (d - 10) as char
  }

  // Short escapes, \u00xx for the other control characters, everything else as it is.
  function Escape(c: char): (e: string)
    ensures e != "" && e[0] != '"'
  {
    if c == '"' then "\\\""
    else if c == '\\' then "\\\\"
    else if c == '\U{0008}' then "\\b"
    else if c == '\t' then "\\t"
    else if c == '\n' then "\\n"
    else if c == '\U{000C}' then "\\f"
    else if c == '\r' then "\\r"
    else if c < '\U{0020}' then "\\u00" + [HexDigit(c as int / 16), HexDigit(c as int % 16)]
    else [c]
  }

  // The literal's one compact form: seven short escapes, lower-case hexadecimal for the other control
  // characters, and no escape that is not needed.
  lemma EscapesAreTabulated(c: char)
    ensures Escape('\"') == "\\\"" && Escape('\\') == "\\\\"
    ensures Escape('\U{0008}') == "\\b" && Escape('\U{0009}') == "\\t" && Escape('\U{000A}') == "\\n"
    ensures Escape('\U{000C}') == "\\f" && Escape('\U{000D}') == "\\r"
    ensures IsLongEscaped(c) ==> Escape(c) == "\\u00" + LowerHex(c as int)
    ensures c >= '\U{0020}' && c != '"' && c != '\\' ==> Escape(c) == [c]
  {
    if IsLongEscaped(c) {
      HexDigitIs(c as int / 16);
      HexDigitIs(c as int % 16);
    }
  }

  predicate IsLongEscaped(c: char) {
    c < '\U{0008}' || c == '\U{000B}' || '\U{000E}' <= c < '\U{0020}'
  }

  function LowerHex(v: nat): string
    requires v < 256
  {
    ["0123456789abcdef"[v / 16], "0123456789abcdef"[v % 16]]
  }

  lemma HexDigitIs(d: nat)
    requires d < 16
    ensures HexDigit(d) == "0123456789abcdef"[d]
  {
  }

  // The escaped text, its closing quote, and what follows it.
  function EscapedThen(s: string, rest: string): string {
    if s == "" then "\"" + rest else Escape(s[0]) + EscapedThen(s[1..], rest)
  }

  function JsonString(s: string): string {
    "\"" + EscapedThen(s, "")
  }

  // No escape is the beginning of another.
  lemma EscapeSplits(c: char, d: char, x: string, y: string)
    requires Escape(c) + x == Escape(d) + y
    ensures c == d && x == y
  {
    var e, f := Escape(c), Escape(d);
    assert (e + x)[0] == e[0] && (f + y)[0] == f[0];
    assert |e| == 1 <==> e[0] != '\\';
    assert |f| == 1 <==> f[0] != '\\';
    if |e| > 1 {
      assert (e + x)[1] == e[1] && (f + y)[1] == f[1];
      if e[1] == 'u' {
        assert (e + x)[4] == e[4] && (f + y)[4] == f[4] && (e + x)[5] == e[5] && (f + y)[5] == f[5];
      }
    }
    assert e == f;
    assert x == (e + x)[|e|..] && y == (f + y)[|f|..];
  }

  lemma {:induction false} EscapedSplits(s: string, t: string, x: string, y: string)
    requires EscapedThen(s, x) == EscapedThen(t, y)
    ensures s == t && x == y
  {
    // escapes never begin with the closing quote
    assert EscapedThen(s, x)[0] == if s == "" then '"' else Escape(s[0])[0];
    assert EscapedThen(t, y)[0] == if t == "" then '"' else Escape(t[0])[0];
    if s == "" && t == "" {
      assert x == EscapedThen(s, x)[1..] && y == EscapedThen(t, y)[1..];
    } else if s != "" && t != "" {
      EscapeSplits(s[0], t[0], EscapedThen(s[1..], x), EscapedThen(t[1..], y));
      EscapedSplits(s[1..], t[1..], x, y);
      assert s == [s[0]] + s[1..] && t == [t[0]] + t[1..];
    }
  }

  lemma {:induction false} EscapedAppends(s: string, x: string, y: string)
    ensures EscapedThen(s, x + y) == EscapedThen(s, x) + y
  {
    if s == "" {
      assert "\"" + (x + y) == "\"" + x + y;
    } else {
      EscapedAppends(s[1..], x, y);
      assert Escape(s[0]) + (EscapedThen(s[1..], x) + y) == Escape(s[0]) + EscapedThen(s[1..], x) + y;
    }
  }

  lemma DropPrefix(p: string, x: string, y: string)
    requires p + x == p + y
    ensures x == y
  {
    assert (p + x)[|p|..] == x && (p + y)[|p|..] == y;
  }

  lemma JsonStringThen(s: string, x: string)
    ensures JsonString(s) + x == "\"" + EscapedThen(s, x)
  {
    EscapedAppends(s, "", x);
    assert "" + x == x;
    var quote, body := "\"", EscapedThen(s, "");
    assert quote + body + x == quote + (body + x);
  }

  // A literal ends where it ends, whatever text follows and whatever the user wrote in it.
  lemma JsonStringSplits(s: string, t: string, x: string, y: string)
    requires JsonString(s) + x == JsonString(t) + y
    ensures s == t && x == y
  {
    JsonStringThen(s, x);
    JsonStringThen(t, y);
    DropPrefix("\"", EscapedThen(s, x), EscapedThen(t, y));
    EscapedSplits(s, t, x, y);
  }

  // ---- the literal, read back by the standard's rules ------------------------------------------------------

  function HexValue(c: char): Option<nat> {
    if '0' <= c <= '9' then Some(c as int - '0' as int)
    else if 'a' <= c <= 'f' then Some(c as int - 'a' as int + 10)
    else if 'A' <= c <= 'F' then Some(c as int - 'A' as int + 10)
    else None
  }

  // Four hexadecimal digits, for a scalar of one code unit.
  function HexScalar(digits: string): Option<char>
    requires |digits| == 4
  {
    var a, b, c, d := HexValue(digits[0]), HexValue(digits[1]), HexValue(digits[2]), HexValue(digits[3]);
    if a.None? || b.None? || c.None? || d.None? then None
    else
      var v := a.value * 0x1000 + b.value * 0x100 + c.value * 16 + d.value;
      if v < 0xD800 || 0xE000 <= v < 0x10000 then Some(v as char) else None
  }

  function ShortEscape(c: char): Option<char> {
    match c
    case '"' => Some('"')
    case '\\' => Some('\\')
    case '/' => Some('/')
    case 'b' => Some('\U{0008}')
    case 'f' => Some('\U{000C}')
    case 'n' => Some('\n')
    case 'r' => Some('\r')
    case 't' => Some('\t')
    case _ => None
  }

  function Prepend(c: Option<char>, rest: Option<string>): Option<string> {
    if c.None? || rest.None? then None else Some([c.value] + rest.value)
  }

  // What stands after the opening quote.
  function ReadAfterQuote(t: string): Option<string> {
    if t == "" then None
    else if t[0] == '"' then (if |t| == 1 then Some("") else None)
    else if t[0] < '\U{0020}' then None
    else if t[0] != '\\' then Prepend(Some(t[0]), ReadAfterQuote(t[1..]))
    else if |t| < 2 then None
    else if t[1] != 'u' then Prepend(ShortEscape(t[1]), ReadAfterQuote(t[2..]))
    else if |t| < 6 then None
    else Prepend(HexScalar(t[2..6]), ReadAfterQuote(t[6..]))
  }

  function ReadString(t: string): Option<string> {
    if t != "" && t[0] == '"' then ReadAfterQuote(t[1..]) else None
  }

  lemma EscapeReads(c: char, rest: string)
    ensures ReadAfterQuote(Escape(c) + rest) == Prepend(Some(c), ReadAfterQuote(rest))
  {
    var e := Escape(c);
    var t := e + rest;
    assert t[0] == e[0] && t[|e|..] == rest;
    if |e| > 1 {
      assert t[1] == e[1];
    }
    if |e| == 6 {
      assert t[2..6] == e[2..6] == "00" + [e[4], e[5]];
      assert HexValue(e[4]) == Some(c as int / 16) && HexValue(e[5]) == Some(c as int % 16);
    }
  }

  lemma {:induction false} EscapedReads(s: string)
    ensures ReadAfterQuote(EscapedThen(s, "")) == Some(s)
  {
    if s == "" {
      assert EscapedThen(s, "") == "\"";
    } else {
      EscapeReads(s[0], EscapedThen(s[1..], ""));
      EscapedReads(s[1..]);
      assert s == [s[0]] + s[1..];
    }
  }

  // The literal of a text is one, and of that text.
  lemma JsonStringReadsBack(s: string)
    ensures ReadString(JsonString(s)) == Some(s)
  {
    EscapedReads(s);
    assert JsonString(s)[1..] == EscapedThen(s, "");
  }

  // ---- UTF-16 ------------------------------------------------------------------------------------------

  // One or two code units.
  function Units(c: char): (units: seq<int>)
    ensures 1 <= |units| <= 2
  {
    var v := c as int;
    if v < 0x10000 then [v] else [0xD800 + (v - 0x10000) / 0x400, 0xDC00 + (v - 0x10000) % 0x400]
  }

  function Utf16(s: string): seq<int> {
    if s == "" then [] else Units(s[0]) + Utf16(s[1..])
  }

  // cmp_utf16
  function CompareUtf16(a: string, b: string): Ordering {
    Lex(CompareInts, Utf16(a), Utf16(b))
  }

  lemma UnitsSplit(c: char, d: char, x: seq<int>, y: seq<int>)
    requires Units(c) + x == Units(d) + y
    ensures c == d && x == y
  {
    var e, f := Units(c), Units(d);
    assert (e + x)[0] == e[0] && (f + y)[0] == f[0];
    if |e| == 2 && |f| == 2 {
      assert (e + x)[1] == e[1] && (f + y)[1] == f[1];
    }
    assert e == f;
    assert x == (e + x)[|e|..] && y == (f + y)[|f|..];
  }

  lemma {:induction false} Utf16IsInjective(s: string, t: string)
    requires Utf16(s) == Utf16(t)
    ensures s == t
  {
    if s != "" && t != "" {
      UnitsSplit(s[0], t[0], Utf16(s[1..]), Utf16(t[1..]));
      Utf16IsInjective(s[1..], t[1..]);
      assert s == [s[0]] + s[1..] && t == [t[0]] + t[1..];
    }
  }

  lemma IntsArePreordered()
    ensures IsPreorder(CompareInts)
  {
  }

  // The comparison is a total order on texts: a preorder, level only for the same text.
  lemma Utf16Order()
    ensures IsPreorder(CompareUtf16)
    ensures forall a, b :: CompareUtf16(a, b) == Equal <==> a == b
  {
    IntsArePreordered();
    forall a, b
      ensures CompareUtf16(b, a) == Flip(CompareUtf16(a, b)) && (CompareUtf16(a, b) == Equal <==> a == b)
    {
      LexFlips(CompareInts, Utf16(a), Utf16(b));
      LexIsFirstDifference(CompareInts, (x: int, y: int) => x < y, Utf16(a), Utf16(b));
      if Utf16(a) == Utf16(b) {
        Utf16IsInjective(a, b);
      }
    }
    forall a, b, c | CompareUtf16(a, b) != Greater && CompareUtf16(b, c) != Greater
      ensures CompareUtf16(a, c) != Greater
    {
      LexTransitive(CompareInts, Utf16(a), Utf16(b), Utf16(c));
    }
  }

  lemma {:induction false} Utf16Appends(s: string, t: string)
    ensures Utf16(s + t) == Utf16(s) + Utf16(t)
  {
    hide Units;
    if s == "" {
      assert s + t == t;
    } else {
      Utf16Appends(s[1..], t);
      assert (s + t)[1..] == s[1..] + t;
    }
  }

  lemma {:induction false} LexSkipsPrefix(u: seq<int>, a: seq<int>, b: seq<int>)
    ensures Lex(CompareInts, u + a, u + b) == Lex(CompareInts, a, b)
  {
    if u == [] {
      assert u + a == a && u + b == b;
    } else {
      LexSkipsPrefix(u[1..], a, b);
      assert (u + a)[1..] == u[1..] + a && (u + b)[1..] == u[1..] + b;
    }
  }

  // By code units a character beyond the basic plane stands between U+D7FF and U+E000.
  predicate StandsBefore(c: char, d: char) {
    if c >= '\U{10000}' && d < '\U{10000}' then d >= '\U{E000}'
    else if c < '\U{10000}' && d >= '\U{10000}' then c < '\U{E000}'
    else c < d
  }

  // The first difference decides, and a text stands before its extensions. It is not the order of
  // scalars: every character beyond the basic plane is below the last ones in it.
  lemma FirstDifferenceDecides(p: string, c: char, d: char, x: string, y: string)
    requires c != d
    ensures CompareUtf16(p + ([c] + x), p + ([d] + y)) == if StandsBefore(c, d) then Less else Greater
    ensures CompareUtf16(p, p + ([c] + x)) == Less
  {
    Utf16Appends(p, [c] + x);
    Utf16Appends(p, [d] + y);
    LexSkipsPrefix(Utf16(p), Utf16([c] + x), Utf16([d] + y));
    LexSkipsPrefix(Utf16(p), [], Utf16([c] + x));
    assert Utf16(p) + [] == Utf16(p);
    assert ([c] + x)[1..] == x && ([d] + y)[1..] == y;
    UnitsDecide(c, d, Utf16(x), Utf16(y));
  }

  lemma UnitsDecide(c: char, d: char, x: seq<int>, y: seq<int>)
    requires c != d
    ensures Lex(CompareInts, Units(c) + x, Units(d) + y) == if StandsBefore(c, d) then Less else Greater
    ensures Lex(CompareInts, [], Units(c) + x) == Less
  {
    var e, f := Units(c) + x, Units(d) + y;
    assert e[0] == Units(c)[0] && f[0] == Units(d)[0];
    if e[0] == f[0] {
      assert e[1..][0] == Units(c)[1] && f[1..][0] == Units(d)[1];
    }
  }
}
