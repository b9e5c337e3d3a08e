/** The hand-written base64 codec: section 4 of RFC 4648, standard alphabet, padded. */
module Base64 {
  import opened Options

  // Text and data are both bytes; the code computes on 32-bit words.
  type Byte = bv8

  const PAD: Byte := 61 // '='

  // base64_value: the six bits that a letter, a digit, '+' or '/' stands for.
  function Value(b: Byte): (v: Option<bv32>)
    ensures v.Some? ==> v.value < 64
  {
    if 65 <= b <= 90 then Some((b - 65) as bv32)
    else if 97 <= b <= 122 then Some((b - 97) as bv32 + 26)
    else if 48 <= b <= 57 then Some((b - 48) as bv32 + 52)
    else if b == 43 then Some(62)
    else if b == 47 then Some(63)
    else None
  }

  // The alphabet, by its runs: the low six bits of `v` select the character.
  function Symbol(v: bv32): Byte {
    var six := (v & 0x3F) as bv8;
    if six < 26 then 65 + six
    else if six < 52 then 97 + (six - 26)
    else if six < 62 then 48 + (six - 52)
    else if six == 62 then 43
    else 47
  }

  // The two tables are inverse, and padding is not in them.
  lemma SymbolIs(v: bv32, b: Byte)
    ensures Value(Symbol(v)) == Some(v & 0x3F) && Symbol(v) != PAD
    ensures Value(b).Some? ==> (Symbol(v) == b <==> v & 0x3F == Value(b).value)
  {
  }

  // Section 4, table 1.
  lemma AlphabetIsTabulated()
    ensures
      && Symbol(0) as char == 'A' && Symbol(1) as char == 'B' && Symbol(2) as char == 'C'
      && Symbol(3) as char == 'D' && Symbol(4) as char == 'E' && Symbol(5) as char == 'F'
      && Symbol(6) as char == 'G' && Symbol(7) as char == 'H' && Symbol(8) as char == 'I'
      && Symbol(9) as char == 'J' && Symbol(10) as char == 'K' && Symbol(11) as char == 'L'
      && Symbol(12) as char == 'M' && Symbol(13) as char == 'N' && Symbol(14) as char == 'O'
      && Symbol(15) as char == 'P' && Symbol(16) as char == 'Q' && Symbol(17) as char == 'R'
      && Symbol(18) as char == 'S' && Symbol(19) as char == 'T' && Symbol(20) as char == 'U'
      && Symbol(21) as char == 'V' && Symbol(22) as char == 'W' && Symbol(23) as char == 'X'
      && Symbol(24) as char == 'Y' && Symbol(25) as char == 'Z' && Symbol(26) as char == 'a'
      && Symbol(27) as char == 'b' && Symbol(28) as char == 'c' && Symbol(29) as char == 'd'
      && Symbol(30) as char == 'e' && Symbol(31) as char == 'f' && Symbol(32) as char == 'g'
      && Symbol(33) as char == 'h' && Symbol(34) as char == 'i' && Symbol(35) as char == 'j'
      && Symbol(36) as char == 'k' && Symbol(37) as char == 'l' && Symbol(38) as char == 'm'
      && Symbol(39) as char == 'n' && Symbol(40) as char == 'o' && Symbol(41) as char == 'p'
      && Symbol(42) as char == 'q' && Symbol(43) as char == 'r' && Symbol(44) as char == 's'
      && Symbol(45) as char == 't' && Symbol(46) as char == 'u' && Symbol(47) as char == 'v'
      && Symbol(48) as char == 'w' && Symbol(49) as char == 'x' && Symbol(50) as char == 'y'
      && Symbol(51) as char == 'z' && Symbol(52) as char == '0' && Symbol(53) as char == '1'
      && Symbol(54) as char == '2' && Symbol(55) as char == '3' && Symbol(56) as char == '4'
      && Symbol(57) as char == '5' && Symbol(58) as char == '6' && Symbol(59) as char == '7'
      && Symbol(60) as char == '8' && Symbol(61) as char == '9' && Symbol(62) as char == '+'
      && Symbol(63) as char == '/'
  {
  }

  // ---- one group ---------------------------------------------------------------------------------

  // `as u8`: the low byte.
  function LowByte(v: bv32): Byte {
    (v & 0xFF) as bv8
  }

  function Triple(b0: Byte, b1: Byte, b2: Byte): bv32 {
    ((b0 as bv32) << 16) | ((b1 as bv32) << 8) | (b2 as bv32)
  }

  function Word(v0: bv32, v1: bv32, v2: bv32, v3: bv32): bv32 {
    (v0 << 18) | (v1 << 12) | (v2 << 6) | v3
  }

  // The four sixes and the three bytes of a word.
  datatype Sixes = Sixes(v0: bv32, v1: bv32, v2: bv32, v3: bv32)

  datatype Bytes = Bytes(b0: Byte, b1: Byte, b2: Byte)

  function SixesIn(triple: bv32): Sixes {
    Sixes((triple >> 18) & 0x3F, (triple >> 12) & 0x3F, (triple >> 6) & 0x3F, triple & 0x3F)
  }

  function SixesOf(b: Bytes): Sixes {
    SixesIn(Triple(b.b0, b.b1, b.b2))
  }

  function BytesOf(v: Sixes): Bytes {
    var word := Word(v.v0, v.v1, v.v2, v.v3);
    Bytes(LowByte(word >> 16), LowByte(word >> 8), LowByte(word))
  }

  // The four sixes and the three bytes of a group are one 24-bit number, most significant first.
  lemma GroupIsOneNumber(b: Bytes)
    ensures var v := SixesOf(b);
            (v.v0 << 18) | (v.v1 << 12) | (v.v2 << 6) | v.v3
            == ((b.b0 as bv32) << 16) | ((b.b1 as bv32) << 8) | (b.b2 as bv32)
  {
  }

  // A short group is filled up with zero bytes.
  function Filled(chunk: seq<Byte>): Bytes
    requires 1 <= |chunk| <= 3
  {
    Bytes(chunk[0], if |chunk| > 1 then chunk[1] else 0, if |chunk| > 2 then chunk[2] else 0)
  }

  function Taken(b: Bytes, n: nat): (bytes: seq<Byte>)
    requires 1 <= n <= 3
    ensures |bytes| == n
  {
    if n == 1 then [b.b0] else if n == 2 then [b.b0, b.b1] else [b.b0, b.b1, b.b2]
  }

  // One to three bytes give four characters.
  function EncodeChunk(chunk: seq<Byte>): (quad: seq<Byte>)
    requires 1 <= |chunk| <= 3
    ensures |quad| == 4
  {
    var v := SixesOf(Filled(chunk));
    [Symbol(v.v0), Symbol(v.v1), if |chunk| > 1 then Symbol(v.v2) else PAD, if |chunk| > 2 then Symbol(v.v3) else PAD]
  }

  // How many of the last two characters are padding; "=x" never is.
  function PaddingOf(quad: seq<Byte>): Option<nat>
    requires |quad| == 4
  {
    if quad[2] == PAD then (if quad[3] == PAD then Some(2) else None)
    else Some(if quad[3] == PAD then 1 else 0)
  }

  // Four characters give one to three bytes; padding only in the last group.
  function DecodeChunk(quad: seq<Byte>, last: bool): (chunk: Option<seq<Byte>>)
    requires |quad| == 4
    ensures chunk.Some? ==> 1 <= |chunk.value| <= 3 && (|chunk.value| < 3 ==> last)
  {
    var pad := PaddingOf(quad);
    if pad.None? || (pad.value > 0 && !last) then None
    else
      var v0, v1 := Value(quad[0]), Value(quad[1]);
      var v2 := if pad.value >= 2 then Some(0) else Value(quad[2]);
      var v3 := if pad.value >= 1 then Some(0) else Value(quad[3]);
      if v0.None? || v1.None? || v2.None? || v3.None? then None
      else
        Some(Taken(BytesOf(Sixes(v0.value, v1.value, v2.value, v3.value)), 3 - pad.value))
  }

  // ---- whole texts ----------------------------------------------------------------------------------

  function Encode(data: seq<Byte>): seq<Byte> {
    if data == [] then []
    else if |data| <= 3 then EncodeChunk(data)
    else EncodeChunk(data[..3]) + Encode(data[3..])
  }

  function Prepend(bytes: seq<Byte>, rest: Option<seq<Byte>>): (all: Option<seq<Byte>>)
    ensures bytes == [] ==> all == rest
    ensures rest == Some([]) ==> all == Some(bytes)
  {
    if rest.None? then None
    else
      assert [] + rest.value == rest.value && bytes + [] == bytes;
      Some(bytes + rest.value)
  }

  lemma PrependTwice(a: seq<Byte>, b: seq<Byte>, rest: Option<seq<Byte>>)
    ensures Prepend(a, Prepend(b, rest)) == Prepend(a + b, rest)
  {
    if rest.Some? {
      assert a + (b + rest.value) == a + b + rest.value;
    }
  }

  function DecodeGroups(text: seq<Byte>): Option<seq<Byte>>
    requires |text| % 4 == 0
  {
    if text == [] then Some([])
    else
      var chunk := DecodeChunk(text[..4], |text| == 4);
      if chunk.None? then None else Prepend(chunk.value, DecodeGroups(text[4..]))
  }

  function Decode(text: seq<Byte>): Option<seq<Byte>> {
    if |text| % 4 != 0 then None else DecodeGroups(text)
  }

  // ---- the loops ---------------------------------------------------------------------------------------

  lemma EncodeFrom(data: seq<Byte>, i: nat, end: nat)
    requires i < end <= |data| && (end == i + 3 || (end == |data| < i + 3))
    ensures Encode(data[i..]) == EncodeChunk(data[i..end]) + Encode(data[end..])
  {
    hide EncodeChunk, DecodeChunk, Value;
    if end == |data| {
      assert data[i..] == data[i..end] && data[end..] == [];
    } else {
      assert data[i..][..3] == data[i..end] && data[i..][3..] == data[end..];
    }
  }

  lemma DecodeFrom(text: seq<Byte>, i: nat)
    requires i + 4 <= |text| && i % 4 == 0 && |text| % 4 == 0
    ensures var chunk := DecodeChunk(text[i..i + 4], i + 4 == |text|);
            DecodeGroups(text[i..]) == if chunk.None? then None else Prepend(chunk.value, DecodeGroups(text[i + 4..]))
  {
    hide EncodeChunk, DecodeChunk, Value;
    assert text[i..][..4] == text[i..i + 4] && text[i..][4..] == text[i + 4..];
  }

  // The index is masked after the shift.
  lemma IndexIsMasked(v: bv32)
    ensures Symbol(v) == Symbol(v & 0x3F)
  {
  }

  method Pack(chunk: seq<Byte>) returns (triple: bv32)
    requires 1 <= |chunk| <= 3
    ensures var b := Filled(chunk); triple == Triple(b.b0, b.b1, b.b2)
  {
    var b0, b1, b2 := chunk[0], if |chunk| > 1 then chunk[1] else 0, if |chunk| > 2 then chunk[2] else 0;
    triple := ((b0 as bv32) << 16) | ((b1 as bv32) << 8) | (b2 as bv32);
  }

  method Select(triple: bv32) returns (c0: Byte, c1: Byte, c2: Byte, c3: Byte)
    ensures var v := SixesIn(triple);
            c0 == Symbol(v.v0) && c1 == Symbol(v.v1) && c2 == Symbol(v.v2) && c3 == Symbol(v.v3)
  {
    hide Symbol;
    IndexIsMasked(triple >> 18);
    IndexIsMasked(triple >> 12);
    IndexIsMasked(triple >> 6);
    IndexIsMasked(triple);
    c0, c1, c2, c3 := Symbol(triple >> 18), Symbol(triple >> 12), Symbol(triple >> 6), Symbol(triple);
  }

  method EncodeGroup(chunk: seq<Byte>) returns (quad: seq<Byte>)
    requires 1 <= |chunk| <= 3
    ensures quad == EncodeChunk(chunk)
  {
    hide Symbol, Triple, SixesIn, Filled;
    var triple := Pack(chunk);
    var c0, c1, c2, c3 := Select(triple);
    quad := [c0, c1];
    quad := quad + [if |chunk| > 1 then c2 else PAD];
    quad := quad + [if |chunk| > 2 then c3 else PAD];
  }

  method Base64Encode(data: seq<Byte>) returns (out: seq<Byte>)
    ensures out == Encode(data)
  {
    hide EncodeChunk;
    out := [];
    var i := 0;
    while i < |data|
      invariant i <= |data|
      invariant out + Encode(data[i..]) == Encode(data)
    {
      var end := if i + 3 <= |data| then i + 3 else |data|;
      EncodeFrom(data, i, end);
      var quad := EncodeGroup(data[i..end]);
      out := out + quad;
      i := end;
    }
    assert data[i..] == [];
  }

  method Extract(v: Sixes) returns (b: Bytes)
    ensures b == BytesOf(v)
  {
    var word := Word(v.v0, v.v1, v.v2, v.v3);
    b := Bytes(LowByte(word >> 16), LowByte(word >> 8), LowByte(word));
  }

  method DecodeGroup(quad: seq<Byte>, last: bool) returns (chunk: Option<seq<Byte>>)
    requires |quad| == 4
    ensures chunk == DecodeChunk(quad, last)
  {
    hide Value, BytesOf;
    var pad := 0;
    if quad[2] == PAD && quad[3] == PAD {
      pad := 2;
    } else if quad[2] == PAD {
      return None;
    } else if quad[3] == PAD {
      pad := 1;
    }
    if pad > 0 && !last {
      return None;
    }
    var v0, v1 := Value(quad[0]), Value(quad[1]);
    var v2 := if pad >= 2 then Some(0) else Value(quad[2]);
    var v3 := if pad >= 1 then Some(0) else Value(quad[3]);
    if v0.None? || v1.None? || v2.None? || v3.None? {
      return None;
    }
    var b := Extract(Sixes(v0.value, v1.value, v2.value, v3.value));
    var bytes := [b.b0];
    if pad < 2 {
      bytes := bytes + [b.b1];
    }
    if pad < 1 {
      bytes := bytes + [b.b2];
    }
    assert bytes == Taken(b, 3 - pad);
    return Some(bytes);
  }

  method Base64Decode(text: seq<Byte>) returns (decoded: Option<seq<Byte>>)
    ensures decoded == Decode(text)
  {
    hide DecodeChunk;
    if |text| % 4 != 0 {
      return None;
    }
    var out: seq<Byte> := [];
    var i := 0;
    assert text[0..] == text;
    while i < |text|
      invariant i <= |text| && i % 4 == 0
      invariant DecodeGroups(text) == Prepend(out, DecodeGroups(text[i..]))
    {
      DecodeFrom(text, i);
      var chunk := DecodeGroup(text[i..i + 4], i + 4 == |text|);
      if chunk.None? {
        return None;
      }
      PrependTwice(out, chunk.value, DecodeGroups(text[i + 4..]));
      out := out + chunk.value;
      i := i + 4;
    }
    assert text[i..] == [] && DecodeGroups([]) == Some([]);
    return Some(out);
  }

  // ---- round trips, grammar and canonical form ---------------------------------------------------------

  predicate AreSixes(v: Sixes) {
    v.v0 < 64 && v.v1 < 64 && v.v2 < 64 && v.v3 < 64
  }

  lemma BytesOfSixes(b: Bytes)
    ensures AreSixes(SixesOf(b)) && BytesOf(SixesOf(b)) == b
    ensures (b.b2 == 0 ==> SixesOf(b).v3 == 0) && (b.b1 == 0 && b.b2 == 0 ==> SixesOf(b).v2 == 0)
  {
  }

  lemma SixesOfThree(v: Sixes)
    requires AreSixes(v)
    ensures SixesOf(BytesOf(v)) == v
  {
  }

  lemma SixesOfTwo(v: Sixes)
    requires AreSixes(v)
    ensures SixesOf(BytesOf(v).(b2 := 0)) == v.(v2 := v.v2 & 0x3C, v3 := 0)
  {
  }

  lemma SixesOfOne(v: Sixes)
    requires AreSixes(v)
    ensures SixesOf(BytesOf(v).(b1 := 0, b2 := 0)) == Sixes(v.v0, v.v1 & 0x30, 0, 0)
  {
  }

  lemma UnusedBits(v: bv32)
    requires v < 64
    ensures v & 0x3C == v <==> v & 0x3 == 0
    ensures v & 0x30 == v <==> v & 0xF == 0
  {
  }

  // The values of a group's characters, padding read as zero.
  ghost predicate Reads(quad: seq<Byte>, pad: nat, v: Sixes) {
    && |quad| == 4 && pad <= 2 && AreSixes(v)
    && Value(quad[0]) == Some(v.v0) && Value(quad[1]) == Some(v.v1)
    && (if pad < 2 then Value(quad[2]) == Some(v.v2) else quad[2] == PAD && v.v2 == 0)
    && (if pad < 1 then Value(quad[3]) == Some(v.v3) else quad[3] == PAD && v.v3 == 0)
  }

  lemma DecodeReads(quad: seq<Byte>, last: bool, pad: nat, v: Sixes)
    requires Reads(quad, pad, v) && (pad > 0 ==> last)
    ensures DecodeChunk(quad, last) == Some(Taken(BytesOf(v), 3 - pad))
  {
    hide BytesOf;
    assert Value(PAD) == None;
    assert PaddingOf(quad) == Some(pad);
  }

  lemma SymbolReads(v: bv32)
    requires v < 64
    ensures Value(Symbol(v)) == Some(v) && Symbol(v) != PAD
  {
    SymbolIs(v, PAD);
  }

  lemma EncodeReads(chunk: seq<Byte>, v: Sixes)
    requires 1 <= |chunk| <= 3 && v == SixesOf(Filled(chunk)) && AreSixes(v)
    requires (|chunk| < 3 ==> v.v3 == 0) && (|chunk| < 2 ==> v.v2 == 0)
    ensures Reads(EncodeChunk(chunk), 3 - |chunk|, v)
  {
    hide SixesOf, Symbol, Value;
    SymbolReads(v.v0);
    SymbolReads(v.v1);
    SymbolReads(v.v2);
    SymbolReads(v.v3);
  }

  lemma DecodeEncodedChunk(chunk: seq<Byte>, last: bool)
    requires 1 <= |chunk| <= 3 && (|chunk| < 3 ==> last)
    ensures DecodeChunk(EncodeChunk(chunk), last) == Some(chunk)
  {
    hide BytesOf, SixesOf, EncodeChunk, DecodeChunk, Reads;
    var v := SixesOf(Filled(chunk));
    BytesOfSixes(Filled(chunk));
    EncodeReads(chunk, v);
    DecodeReads(EncodeChunk(chunk), last, 3 - |chunk|, v);
    assert Taken(Filled(chunk), |chunk|) == chunk;
  }

  // A first group and the rest, put together.
  lemma EncodeJoins(data: seq<Byte>, head: seq<Byte>, rest: seq<Byte>)
    requires data == head + rest && 1 <= |head| <= 3 && (|head| < 3 ==> rest == [])
    ensures Encode(data) == EncodeChunk(head) + Encode(rest)
  {
    hide EncodeChunk, DecodeChunk, Value;
    if rest == [] {
      assert data == head;
    } else {
      assert data[..3] == head && data[3..] == rest;
    }
  }

  lemma DecodeJoins(text: seq<Byte>, quad: seq<Byte>, rest: seq<Byte>, last: bool, chunk: seq<Byte>, more: seq<Byte>,
      data: seq<Byte>)
    requires |quad| == 4 && |rest| % 4 == 0 && text == quad + rest && data == chunk + more
    requires last == (rest == [])
    requires DecodeChunk(quad, last) == Some(chunk)
    requires Decode(rest) == Some(more)
    ensures Decode(text) == Some(data)
  {
    hide EncodeChunk, DecodeChunk, Value;
    assert text[..4] == quad && text[4..] == rest;
  }

  lemma {:induction false} EncodedLength(data: seq<Byte>)
    ensures |Encode(data)| == 4 * ((|data| + 2) / 3)
  {
    hide EncodeChunk, DecodeChunk, Value;
    if |data| > 3 {
      EncodedLength(data[3..]);
      assert (|data| + 2) / 3 == 1 + (|data| - 1) / 3;
    }
  }

  lemma {:induction false} DecodeOfEncode(data: seq<Byte>)
    ensures Decode(Encode(data)) == Some(data)
  {
    hide EncodeChunk, DecodeChunk, Value;
    if data != [] {
      var end := if |data| <= 3 then |data| else 3;
      var head, rest := data[..end], data[end..];
      var last := rest == [];
      DecodeOfEncode(rest);
      EncodedLength(rest);
      EncodeJoins(data, head, rest);
      DecodeEncodedChunk(head, last);
      DecodeJoins(Encode(data), EncodeChunk(head), Encode(rest), last, head, rest, data);
    }
  }

  // The padded grammar: alphabet characters, then at most two '=', in groups of four.
  ghost predicate IsPaddedWith(text: seq<Byte>, pad: nat) {
    && |text| % 4 == 0
    && pad <= 2 && pad <= |text|
    && (forall i :: 0 <= i < |text| - pad ==> Value(text[i]).Some?)
    && (forall i :: |text| - pad <= i < |text| ==> text[i] == PAD)
  }

  ghost predicate IsPadded(text: seq<Byte>) {
    exists pad: nat :: IsPaddedWith(text, pad)
  }

  // Section 3.5 of RFC 4648: the bits of the last character that no byte uses.
  ghost predicate UnusedBitsAreZero(text: seq<Byte>, pad: nat)
    requires IsPaddedWith(text, pad)
  {
    && (pad == 2 ==> Value(text[|text| - 3]).value & 0xF == 0)
    && (pad == 1 ==> Value(text[|text| - 2]).value & 0x3 == 0)
  }

  // In one group the grammar fixes the padding and asks for the other characters' values.
  lemma PaddedGroup(quad: seq<Byte>, pad: nat)
    requires |quad| == 4
    ensures IsPaddedWith(quad, pad) <==>
              && PaddingOf(quad) == Some(pad)
              && Value(quad[0]).Some? && Value(quad[1]).Some?
              && (pad < 2 ==> Value(quad[2]).Some?) && (pad < 1 ==> Value(quad[3]).Some?)
  {
    assert Value(PAD).None?;
  }

  lemma GroupDecodes(quad: seq<Byte>, last: bool, pad: nat)
    requires |quad| == 4 && IsPaddedWith(quad, pad) && (pad > 0 ==> last)
    ensures DecodeChunk(quad, last).Some? && |DecodeChunk(quad, last).value| == 3 - pad
  {
    PaddedGroup(quad, pad);
  }

  lemma GroupIsPadded(quad: seq<Byte>, last: bool)
    requires |quad| == 4
    ensures DecodeChunk(quad, last).Some? <==>
              IsPaddedWith(quad, 0) || (last && (IsPaddedWith(quad, 1) || IsPaddedWith(quad, 2)))
  {
    PaddedGroup(quad, 0);
    PaddedGroup(quad, 1);
    PaddedGroup(quad, 2);
  }

  lemma PaddingIsAtTheEnd(text: seq<Byte>, pad: nat)
    requires text != [] && |text| % 4 == 0
    ensures IsPaddedWith(text, pad) <==>
              if |text| == 4 then IsPaddedWith(text[..4], pad)
              else IsPaddedWith(text[..4], 0) && IsPaddedWith(text[4..], pad)
  {
    hide EncodeChunk, DecodeChunk, Value;
    assert text == text[..4] + text[4..];
    if |text| == 4 {
      assert text[..4] == text;
    }
  }

  // The decoder accepts exactly the padded grammar.
  lemma {:induction false} DecodeAcceptsExactly(text: seq<Byte>)
    ensures Decode(text).Some? <==> IsPadded(text)
  {
    hide EncodeChunk, DecodeChunk, Value;
    if |text| % 4 == 0 {
      if text == [] {
        assert IsPaddedWith(text, 0);
      } else {
        var quad, rest := text[..4], text[4..];
        GroupIsPadded(quad, rest == []);
        DecodeAcceptsExactly(rest);
        forall pad: nat ensures IsPaddedWith(text, pad) <==>
                                  if rest == [] then IsPaddedWith(quad, pad)
                                  else IsPaddedWith(quad, 0) && IsPaddedWith(rest, pad) {
          PaddingIsAtTheEnd(text, pad);
        }
      }
    }
  }

  // Two groups with the same padding are the same exactly when they read the same.
  lemma SameWhenReadTheSame(quad: seq<Byte>, other: seq<Byte>, pad: nat, v: Sixes, again: Sixes)
    requires Reads(quad, pad, v) && Reads(other, pad, again)
    ensures other == quad <==> again == v
  {
    hide Symbol, Value;
    ValueIsOneToOne(quad[0], other[0]);
    ValueIsOneToOne(quad[1], other[1]);
    ValueIsOneToOne(quad[2], other[2]);
    ValueIsOneToOne(quad[3], other[3]);
    assert other == [other[0], other[1], other[2], other[3]] && quad == [quad[0], quad[1], quad[2], quad[3]];
  }

  lemma ValueIsOneToOne(b: Byte, c: Byte)
    ensures Value(b).Some? && Value(b) == Value(c) ==> b == c
  {
  }

  lemma ReencodeReads(quad: seq<Byte>, pad: nat, v: Sixes, chunk: seq<Byte>)
    requires Reads(quad, pad, v) && chunk == Taken(BytesOf(v), 3 - pad)
    ensures EncodeChunk(chunk) == quad <==> (pad == 2 ==> v.v1 & 0xF == 0) && (pad == 1 ==> v.v2 & 0x3 == 0)
  {
    hide BytesOf, SixesOf, EncodeChunk, Value;
    var again := SixesOf(Filled(chunk));
    SixesOfThree(v);
    SixesOfTwo(v);
    SixesOfOne(v);
    assert Filled(chunk) ==
        if pad == 0 then BytesOf(v) else if pad == 1 then BytesOf(v).(b2 := 0) else BytesOf(v).(b1 := 0, b2 := 0);
    BytesOfSixes(Filled(chunk));
    EncodeReads(chunk, again);
    SameWhenReadTheSame(quad, EncodeChunk(chunk), pad, v, again);
    UnusedBits(v.v1);
    UnusedBits(v.v2);
  }

  lemma ReencodeChunk(quad: seq<Byte>, pad: nat, last: bool)
    requires |quad| == 4 && IsPaddedWith(quad, pad) && (pad > 0 ==> last)
    ensures DecodeChunk(quad, last).Some?
    ensures EncodeChunk(DecodeChunk(quad, last).value) == quad <==> UnusedBitsAreZero(quad, pad)
  {
    hide BytesOf, SixesOf, EncodeChunk, DecodeChunk;
    PaddedGroup(quad, pad);
    var v := Sixes(Value(quad[0]).value, Value(quad[1]).value, if pad >= 2 then 0 else Value(quad[2]).value,
                   if pad >= 1 then 0 else Value(quad[3]).value);
    DecodeReads(quad, last, pad, v);
    ReencodeReads(quad, pad, v, Taken(BytesOf(v), 3 - pad));
  }

  // What is decoded is three bytes a group, less the padding.
  lemma {:induction false} DecodedBytes(text: seq<Byte>, pad: nat)
    requires IsPaddedWith(text, pad)
    ensures Decode(text).Some? && |Decode(text).value| == |text| / 4 * 3 - pad
  {
    hide EncodeChunk, DecodeChunk, Value;
    if text != [] {
      PaddingIsAtTheEnd(text, pad);
      GroupDecodes(text[..4], |text| == 4, if |text| == 4 then pad else 0);
      if |text| > 4 {
        DecodedBytes(text[4..], pad);
      }
      var last := text[4..] == [];
      var chunk, more := DecodeChunk(text[..4], last).value, Decode(text[4..]).value;
      DecodeJoins(text, text[..4], text[4..], last, chunk, more, chunk + more);
    }
  }

  lemma SameConcatenation(a: seq<Byte>, b: seq<Byte>, c: seq<Byte>, d: seq<Byte>)
    requires |a| == |c|
    ensures a + b == c + d <==> a == c && b == d
  {
    assert (a + b)[..|a|] == a && (a + b)[|a|..] == b && (c + d)[..|a|] == c && (c + d)[|a|..] == d;
  }

  // Encoding gives back a decoded text exactly when it was the canonical one.
  lemma {:induction false} EncodeOfDecode(text: seq<Byte>, pad: nat)
    requires IsPaddedWith(text, pad)
    ensures Decode(text).Some?
    ensures Encode(Decode(text).value) == text <==> UnusedBitsAreZero(text, pad)
  {
    hide EncodeChunk, DecodeChunk, Value;
    if text != [] {
      var quad, rest := text[..4], text[4..];
      var last := rest == [];
      var inner := if last then pad else 0;
      PaddingIsAtTheEnd(text, pad);
      GroupDecodes(quad, last, inner);
      ReencodeChunk(quad, inner, last);
      if !last {
        EncodeOfDecode(rest, pad);
      }
      var chunk, more := DecodeChunk(quad, last).value, Decode(rest).value;
      DecodeJoins(text, quad, rest, last, chunk, more, chunk + more);
      DecodedBytes(text, pad);
      EncodeJoins(chunk + more, chunk, more);
      SameConcatenation(EncodeChunk(chunk), Encode(more), quad, rest);
    }
  }
}
