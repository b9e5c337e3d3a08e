/** Splitting, joining and decimal numerals. */
module Texts {

  // `str::find`: the first position of `c`, or the length.
  function IndexOf(s: string, c: char): (i: nat)
    ensures i <= |s|
    ensures c !in s[..i]
    ensures i < |s| ==> s[i] == c
  {
    if s == "" || s[0] == c then 0
    else
      var i := IndexOf(s[1..], c) + 1;
      assert s[..i] == [s[0]] + s[1..][..i - 1];
      i
  }

  // `str::split`: never empty; the empty text is one empty part.
  function Split(s: string, c: char): (parts: seq<string>)
    ensures parts != []
    ensures forall p <- parts :: c !in p
    decreases |s|
  {
    var i := IndexOf(s, c);
    if i == |s| then
      assert s[..i] == s;
      [s]
    else [s[..i]] + Split(s[i + 1..], c)
  }

  function Join(parts: seq<string>, c: char): string {
    if parts == [] then ""
    else if |parts| == 1 then parts[0]
    else parts[0] + [c] + Join(parts[1..], c)
  }

  lemma {:induction false} IndexOfAppend(a: string, b: string, c: char)
    requires c !in a
    ensures IndexOf(a + b, c) == |a| + IndexOf(b, c)
  {
    if a == "" {
      assert a + b == b;
    } else {
      assert (a + b)[1..] == a[1..] + b;
      IndexOfAppend(a[1..], b, c);
    }
  }

  lemma {:induction false} JoinOfSplit(s: string, c: char)
    ensures Join(Split(s, c), c) == s
    decreases |s|
  {
    var i := IndexOf(s, c);
    if i < |s| {
      JoinOfSplit(s[i + 1..], c);
      assert Split(s, c)[1..] == Split(s[i + 1..], c);
      assert s == s[..i] + [c] + s[i + 1..];
    }
  }

  lemma JoinOfMore(parts: seq<string>, c: char)
    requires |parts| > 1
    ensures Join(parts, c) == parts[0] + ([c] + Join(parts[1..], c))
  {
    Associate(parts[0], [c], Join(parts[1..], c));
  }

  lemma SplitAfterHead(head: string, rest: string, c: char)
    requires c !in head
    ensures Split(head + ([c] + rest), c) == [head] + Split(rest, c)
  {
    SplitAtFirst(head, [c] + rest, c);
    assert ([c] + rest)[1..] == rest;
  }

  lemma {:induction false} SplitOfJoin(parts: seq<string>, c: char)
    requires parts != [] && forall p <- parts :: c !in p
    ensures Split(Join(parts, c), c) == parts
  {
    if |parts| == 1 {
      SplitAtFirst(parts[0], "", c);
      assert parts[0] + "" == parts[0];
    } else {
      assert forall p <- parts[1..] :: p in parts;
      SplitOfJoin(parts[1..], c);
      JoinOfMore(parts, c);
      SplitAfterHead(parts[0], Join(parts[1..], c), c);
      assert parts == [parts[0]] + parts[1..];
    }
  }

  lemma Associate(a: string, b: string, c: string)
    ensures a + b + c == a + (b + c)
  {
  }

  // The text up to the first separator, and the parts of what follows it.
  lemma SplitAtFirst(head: string, tail: string, c: char)
    requires c !in head && (tail == "" || tail[0] == c)
    ensures Split(head + tail, c) == [head] + if tail == "" then [] else Split(tail[1..], c)
  {
    var s := head + tail;
    IndexOfAppend(head, tail, c);
    assert s[..|head|] == head;
    if tail == "" {
      assert s == head;
    } else {
      assert s[|head| + 1..] == tail[1..];
    }
  }

  // ---- decimal numerals --------------------------------------------------------------------------

  predicate IsDigit(c: char) {
    '0' <= c <= '9'
  }

  predicate IsAllDigits(s: string) {
    s != "" && forall c <- s :: IsDigit(c)
  }

  // Digits with no leading zero.
  predicate IsNumericIdentifier(s: string) {
    s == "0" || (IsAllDigits(s) && s[0] != '0')
  }

  function DigitValue(c: char): nat
    requires IsDigit(c)
  {
    c as int - '0' as int
  }

  function DecimalValue(s: string): nat
    requires forall c <- s :: IsDigit(c)
  {
    if s == "" then 0 else 10 * DecimalValue(s[..|s| - 1]) + DigitValue(s[|s| - 1])
  }

  function Digit(d: nat): (c: char)
    requires d < 10
    ensures IsDigit(c) && DigitValue(c) == d
  {
    '0' + d as char
  }

  // The canonical numeral.
  function Digits(n: nat): (s: string)
    ensures IsAllDigits(s)
  {
    if n < 10 then [Digit(n)] else Digits(n / 10) + [Digit(n % 10)]
  }

  lemma {:induction false} DigitsAreCanonical(n: nat)
    ensures IsNumericIdentifier(Digits(n)) && DecimalValue(Digits(n)) == n
    ensures n > 0 ==> Digits(n)[0] != '0'
  {
    var s := Digits(n);
    if n < 10 {
      assert s[..0] == "";
    } else {
      DigitsAreCanonical(n / 10);
      assert s[..|s| - 1] == Digits(n / 10);
    }
  }

  lemma {:induction false} NumeralOfValue(s: string)
    requires IsNumericIdentifier(s)
    ensures Digits(DecimalValue(s)) == s
    ensures s != "0" ==> DecimalValue(s) > 0
  {
    var init := s[..|s| - 1];
    if |s| == 1 {
      assert init == "" && s == [s[0]];
      assert Digit(DigitValue(s[0])) == s[0];
    } else {
      assert IsNumericIdentifier(init) && init != "0";
      NumeralOfValue(init);
      assert s == init + [s[|s| - 1]];
      var v, d := DecimalValue(init), DigitValue(s[|s| - 1]);
      assert (10 * v + d) / 10 == v && (10 * v + d) % 10 == d;
      assert Digit(d) == s[|s| - 1];
    }
  }
}
