/**
  The UTF-8 codec of the JSON library (Library/RapidJSON/Include/rapidjson/encodings.h) over a memory stream, and
  the grammar of section 4 of RFC 3629 that it is meant to accept.
*/
module Utf8 {
  import opened Numbers

  type Byte = x: int | 0 <= x < 256
  type Bytes = seq<Byte>

  /** A Unicode scalar value: any code point but the surrogates. */
  predicate Scalar(cp: nat) { cp <= 0x10FFFF && !(0xD800 <= cp <= 0xDFFF) }

  // ---------------------------------------------------------------- section 4 of RFC 3629

  predicate Tail(b: Byte) { 0x80 <= b <= 0xBF }

  /** The second byte of a character of three or four bytes, by its first. */
  predicate Second(a: Byte, b: Byte) {
    if a == 0xE0 then 0xA0 <= b <= 0xBF
    else if a == 0xED then 0x80 <= b <= 0x9F
    else if a == 0xF0 then 0x90 <= b <= 0xBF
    else if a == 0xF4 then 0x80 <= b <= 0x8F
    else Tail(b)
  }

  predicate Utf8Char(s: Bytes) {
    match |s|
    case 1 => s[0] <= 0x7F
    case 2 => 0xC2 <= s[0] <= 0xDF && Tail(s[1])
    case 3 => 0xE0 <= s[0] <= 0xEF && Second(s[0], s[1]) && Tail(s[2])
    case 4 => 0xF0 <= s[0] <= 0xF4 && Second(s[0], s[1]) && Tail(s[2]) && Tail(s[3])
    case _ => false
  }

  predicate StartsWith(s: Bytes, n: nat) { n <= |s| && Utf8Char(s[..n]) }

  ghost predicate Utf8Octets(s: Bytes)
    decreases |s|
  {
    s == [] || exists n :: 0 < n <= |s| && StartsWith(s, n) && Utf8Octets(s[n..])
  }

  /** The first byte decides how long a character is. */
  function Length(a: Byte): nat {
    if a <= 0x7F then 1
    else if 0xC2 <= a <= 0xDF then 2
    else if 0xE0 <= a <= 0xEF then 3
    else if 0xF0 <= a <= 0xF4 then 4
    else 0
  }

  lemma FirstDecides(s: Bytes, n: nat)
    requires StartsWith(s, n)
    ensures 0 < n <= 4 && n == Length(s[0])
  {
    assert s[..n][0] == s[0];
  }

  /** `x << 6 | y` for a six-bit y. */
  function Join(x: nat, y: nat): nat { x * 64 + y }

  function Low(b: Byte, bits: nat): nat
    requires bits > 0
  {
    b as int % bits
  }

  /** The code point of a character: the payload bits of its bytes. */
  function Value(s: Bytes): nat
    requires 1 <= |s| <= 4
  {
    match |s|
    case 1 => s[0]
    case 2 => Join(Low(s[0], 32), Low(s[1], 64))
    case 3 => Join(Join(Low(s[0], 16), Low(s[1], 64)), Low(s[2], 64))
    case _ => Join(Join(Join(Low(s[0], 8), Low(s[1], 64)), Low(s[2], 64)), Low(s[3], 64))
  }

  // ---------------------------------------------------------------- encoding

  /** What UTF8::Encode writes; the assertion excludes what is beyond Unicode. */
  function Encode(cp: nat): Bytes
    requires cp <= 0x10FFFF
  {
    if cp <= 0x7F then [cp]
    else if cp <= 0x7FF then [0xC0 + cp / 64, 0x80 + cp % 64]
    else if cp <= 0xFFFF then [0xE0 + cp / 4096, 0x80 + cp / 64 % 64, 0x80 + cp % 64]
    else [0xF0 + cp / 262144, 0x80 + cp / 4096 % 64, 0x80 + cp / 64 % 64, 0x80 + cp % 64]
  }

  lemma Digits2(a: nat, b: nat)
    requires b < 64
    ensures Join(a, b) / 64 == a && Join(a, b) % 64 == b
  {
  }

  lemma Digits3(a: nat, b: nat, c: nat)
    requires b < 64 && c < 64
    ensures var cp := Join(Join(a, b), c); cp / 4096 == a && cp / 64 % 64 == b && cp % 64 == c
  {
    Digits2(a, b);
    Digits2(Join(a, b), c);
    var cp := Join(Join(a, b), c);
    assert cp / 64 / 64 == cp / 4096;
  }

  lemma Digits4(a: nat, b: nat, c: nat, d: nat)
    requires b < 64 && c < 64 && d < 64
    ensures var cp := Join(Join(Join(a, b), c), d);
      cp / 262144 == a && cp / 4096 % 64 == b && cp / 64 % 64 == c && cp % 64 == d
  {
    Digits3(a, b, c);
    Digits2(Join(Join(a, b), c), d);
    var cp := Join(Join(Join(a, b), c), d);
    assert cp / 64 / 64 == cp / 4096 && cp / 64 / 4096 == cp / 262144;
  }

  /** The bytes of three digits of six bits, the first of four. */
  function Three(a: nat, b: nat, c: nat): Bytes
    requires a < 16 && b < 64 && c < 64
  {
    [0xE0 + a, 0x80 + b, 0x80 + c]
  }

  function Four(a: nat, b: nat, c: nat, d: nat): Bytes
    requires a <= 4 && b < 64 && c < 64 && d < 64
  {
    [0xF0 + a, 0x80 + b, 0x80 + c, 0x80 + d]
  }

  lemma ThreeValue(a: nat, b: nat, c: nat)
    requires a < 16 && b < 64 && c < 64
    ensures Value(Three(a, b, c)) == Join(Join(a, b), c)
    ensures Utf8Char(Three(a, b, c)) <==> Join(Join(a, b), c) > 0x7FF && Scalar(Join(Join(a, b), c))
    ensures Join(Join(a, b), c) > 0x7FF ==> Encode(Join(Join(a, b), c)) == Three(a, b, c)
  {
    assert Low(0xE0 + a, 16) == a && Low(0x80 + b, 64) == b && Low(0x80 + c, 64) == c;
    Digits3(a, b, c);
  }

  lemma FourValue(a: nat, b: nat, c: nat, d: nat)
    requires a <= 4 && b < 64 && c < 64 && d < 64
    ensures Value(Four(a, b, c, d)) == Join(Join(Join(a, b), c), d)
    ensures Utf8Char(Four(a, b, c, d)) <==> 0xFFFF < Join(Join(Join(a, b), c), d) <= 0x10FFFF
    ensures 0xFFFF < Join(Join(Join(a, b), c), d) <= 0x10FFFF ==> Encode(Join(Join(Join(a, b), c), d)) == Four(a, b, c, d)
  {
    FourLow(a, b, c, d);
    FourRange(a, b, c, d);
    hide Utf8Char, Value, Low;
    Digits4(a, b, c, d);
  }

  lemma FourLow(a: nat, b: nat, c: nat, d: nat)
    requires a <= 4 && b < 64 && c < 64 && d < 64
    ensures Value(Four(a, b, c, d)) == Join(Join(Join(a, b), c), d)
  {
    hide Join;
    assert Low(0xF0 + a, 8) == a && Low(0x80 + b, 64) == b && Low(0x80 + c, 64) == c && Low(0x80 + d, 64) == d;
  }

  lemma FourRange(a: nat, b: nat, c: nat, d: nat)
    requires a <= 4 && b < 64 && c < 64 && d < 64
    ensures Utf8Char(Four(a, b, c, d)) <==> 0xFFFF < Join(Join(Join(a, b), c), d) <= 0x10FFFF
  {
  }

  /** The encoder meets the grammar exactly on the scalar values, and the character's value is what was encoded. */
  lemma EncodeIsChar(cp: nat)
    requires cp <= 0x10FFFF
    ensures Utf8Char(Encode(cp)) <==> Scalar(cp)
    ensures Value(Encode(cp)) == cp
  {
    hide Utf8Char, Value, Encode, Scalar;
    if cp <= 0x7FF {
      EncodeShort(cp);
    } else if cp <= 0xFFFF {
      EncodeThree(cp);
    } else {
      EncodeFour(cp);
    }
  }

  lemma EncodeShort(cp: nat)
    requires cp <= 0x7FF
    ensures Utf8Char(Encode(cp)) && Scalar(cp) && Value(Encode(cp)) == cp
  {
    if cp > 0x7F {
      assert Low(0xC0 + cp / 64, 32) == cp / 64 && Low(0x80 + cp % 64, 64) == cp % 64;
    }
  }

  lemma EncodeThree(cp: nat)
    requires 0x800 <= cp <= 0xFFFF
    ensures Utf8Char(Encode(cp)) <==> Scalar(cp)
    ensures Value(Encode(cp)) == cp
  {
    hide Utf8Char, Value, Scalar;
    assert cp / 64 / 64 == cp / 4096;
    ThreeValue(cp / 4096, cp / 64 % 64, cp % 64);
  }

  lemma EncodeFour(cp: nat)
    requires 0x10000 <= cp <= 0x10FFFF
    ensures Utf8Char(Encode(cp)) && Scalar(cp) && Value(Encode(cp)) == cp
  {
    hide Utf8Char, Value;
    assert cp / 64 / 64 == cp / 4096 && cp / 4096 / 64 == cp / 262144;
    FourValue(cp / 262144, cp / 4096 % 64, cp / 64 % 64, cp % 64);
  }

  /** Every character of the grammar is the encoding of one scalar value. */
  lemma CharIsEncoding(s: Bytes)
    requires Utf8Char(s)
    ensures Scalar(Value(s)) && Encode(Value(s)) == s
  {
    hide Value, Encode, Join, Scalar;
    match |s|
    case 1 => ShortChar(s);
    case 2 => ShortChar(s);
    case 3 => ThreeChar(s);
    case _ => FourChar(s);
  }

  lemma ShortChar(s: Bytes)
    requires Utf8Char(s) && |s| <= 2
    ensures Scalar(Value(s)) && Encode(Value(s)) == s
  {
    if |s| == 2 {
      assert Value(s) == (s[0] as int - 0xC0) * 64 + (s[1] as int - 0x80);
      assert s == [s[0], s[1]];
    } else {
      assert s == [s[0]];
    }
  }

  lemma ThreeChar(s: Bytes)
    requires Utf8Char(s) && |s| == 3
    ensures Scalar(Value(s)) && Encode(Value(s)) == s
  {
    assert s == Three(s[0] as int - 0xE0, s[1] as int - 0x80, s[2] as int - 0x80);
    hide Value, Encode, Join, Utf8Char;
    ThreeValue(s[0] as int - 0xE0, s[1] as int - 0x80, s[2] as int - 0x80);
  }

  lemma FourChar(s: Bytes)
    requires Utf8Char(s) && |s| == 4
    ensures Scalar(Value(s)) && Encode(Value(s)) == s
  {
    assert s == Four(s[0] as int - 0xF0, s[1] as int - 0x80, s[2] as int - 0x80, s[3] as int - 0x80);
    hide Value, Encode, Join, Utf8Char;
    FourValue(s[0] as int - 0xF0, s[1] as int - 0x80, s[2] as int - 0x80, s[3] as int - 0x80);
  }

  // ---------------------------------------------------------------- whole texts

  predicate Scalars(cps: seq<nat>) { forall i :: 0 <= i < |cps| ==> Scalar(cps[i]) }

  function EncodeAll(cps: seq<nat>): Bytes
    requires Scalars(cps)
  {
    if cps == [] then [] else Encode(cps[0]) + EncodeAll(cps[1..])
  }

  lemma PrefixChar(s: Bytes, rest: Bytes)
    requires Utf8Char(s)
    ensures StartsWith(s + rest, |s|) && (s + rest)[..|s|] == s && (s + rest)[|s|..] == rest
  {
    assert (s + rest)[..|s|] == s;
  }

  /** Encoded scalar values are text of the grammar. */
  lemma {:induction false} EncodedIsOctets(cps: seq<nat>)
    requires Scalars(cps)
    ensures Utf8Octets(EncodeAll(cps))
    decreases |cps|
  {
    if cps == [] {
    } else {
      EncodeIsChar(cps[0]);
      PrefixChar(Encode(cps[0]), EncodeAll(cps[1..]));
      EncodedIsOctets(cps[1..]);
      var s, n := EncodeAll(cps), |Encode(cps[0])|;
      assert 0 < n <= |s| && StartsWith(s, n) && Utf8Octets(s[n..]);
    }
  }

  /** No two texts have the same encoding. */
  lemma {:induction false} EncodeAllInjective(a: seq<nat>, b: seq<nat>)
    requires Scalars(a) && Scalars(b) && EncodeAll(a) == EncodeAll(b)
    ensures a == b
    decreases |a|
  {
    hide Encode, Utf8Char, Value;
    if a != [] && b != [] {
      var x, y := Encode(a[0]), Encode(b[0]);
      EncodeIsChar(a[0]);
      EncodeIsChar(b[0]);
      PrefixChar(x, EncodeAll(a[1..]));
      PrefixChar(y, EncodeAll(b[1..]));
      FirstDecides(EncodeAll(a), |x|);
      FirstDecides(EncodeAll(a), |y|);
      assert x == y;
      EncodeAllInjective(a[1..], b[1..]);
    } else if a != [] {
      EncodeIsChar(a[0]);
      FirstDecides(Encode(a[0]), |Encode(a[0])|);
    } else if b != [] {
      EncodeIsChar(b[0]);
      FirstDecides(Encode(b[0]), |Encode(b[0])|);
    }
  }

  // ---------------------------------------------------------------- the table

  function Run(n: nat, v: bv8): seq<bv8> { seq(n, _ => v) }

  /** The 256 entries of GetRange's table, run by run. */
  function Table(): seq<bv8> {
    Run(0x80, 0) + Run(0x10, 0x10) + Run(0x10, 0x40) + Run(0x20, 0x20) + Run(2, 8) + Run(30, 2) +
    [10] + Run(12, 3) + [4, 3, 3] + [11, 6, 6, 6, 5] + Run(11, 8)
  }

  function GetRange(c: Byte): bv8 {
    Table()[c]
  }

  /** Does GetRange(c) have a bit of the mask? */
  predicate InRange(c: Byte, mask: bv8) { GetRange(c) & mask != 0 }

  lemma RangeOf(c: Byte)
    ensures GetRange(c) ==
      if c < 0x80 then 0 else if c < 0x90 then 0x10 else if c < 0xA0 then 0x40 else if c < 0xC0 then 0x20
      else if c < 0xC2 then 8 else if c < 0xE0 then 2
      else if c == 0xE0 then 10 else if c == 0xED then 4 else if c < 0xF0 then 3
      else if c == 0xF0 then 11 else if c < 0xF4 then 6 else if c == 0xF4 then 5 else 8
  {
  }

  /** The masks that Decode tests a second or later byte with. */
  lemma MaskMeans(c: Byte)
    ensures InRange(c, 0x70) <==> Tail(c)
    ensures InRange(c, 0x50) <==> 0x80 <= c <= 0x9F
    ensures InRange(c, 0x10) <==> 0x80 <= c <= 0x8F
    ensures InRange(c, 0x20) <==> 0xA0 <= c <= 0xBF
    ensures InRange(c, 0x60) <==> 0x90 <= c <= 0xBF
  {
    RangeOf(c);
  }

  // ---------------------------------------------------------------- streams

  /** MemoryStream (Library/RapidJSON/Include/rapidjson/memorystream.h): past the end it yields NULs. */
  class MemoryStream {
    const data: Bytes
    var pos: nat

    ghost predicate Valid()
      reads this
    {
      pos <= |data|
    }

    function Rest(): Bytes
      reads this
      requires Valid()
    {
      data[pos..]
    }

    constructor (data: Bytes)
      ensures Valid() && this.data == data && pos == 0
    {
      this.data, pos := data, 0;
    }

    method Take() returns (c: Byte)
      requires Valid()
      modifies this
      ensures Valid() && pos == Min(old(pos) + 1, |data|)
      ensures c == At(data, old(pos))
    {
      if pos == |data| { return 0; }
      c := data[pos];
      pos := pos + 1;
    }
  }

  /** The i-th byte still to be taken; NUL past the end. */
  function At(s: Bytes, i: nat): Byte { if i < |s| then s[i] else 0 }

  /** Do the bytes to come, with NULs after the last, make a character? */
  predicate Accepted(s: Bytes) {
    var a := At(s, 0);
    match Length(a)
    case 0 => false
    case 1 => true
    case 2 => Tail(At(s, 1))
    case 3 => Second(a, At(s, 1)) && Tail(At(s, 2))
    case _ => Second(a, At(s, 1)) && Tail(At(s, 2)) && Tail(At(s, 3))
  }

  function Taken(s: Bytes): nat {
    if Length(At(s, 0)) == 0 then 1 else Length(At(s, 0))
  }

  /** The payload bits of the character to come. */
  function Decoded(s: Bytes): nat {
    var a := At(s, 0);
    match Length(a)
    case 0 => 0
    case 1 => a
    case 2 => Join(Low(a, 32), Low(At(s, 1), 64))
    case 3 => Join(Join(Low(a, 16), Low(At(s, 1), 64)), Low(At(s, 2), 64))
    case _ => Join(Join(Join(Low(a, 8), Low(At(s, 1), 64)), Low(At(s, 2), 64)), Low(At(s, 3), 64))
  }

  /** No NUL past the end is ever part of a longer character; only nothing at all reads as one. */
  lemma AcceptedIsChar(s: Bytes)
    requires s != []
    ensures Accepted(s) <==> exists n: nat :: StartsWith(s, n)
    ensures Accepted(s) ==> StartsWith(s, Taken(s)) && Decoded(s) == Value(s[..Taken(s)])
  {
    var n := Length(s[0]);
    if Accepted(s) {
      assert n <= |s|;
      assert forall i :: 0 <= i < n ==> s[..n][i] == At(s, i);
      assert StartsWith(s, n);
    }
    if m: nat :| StartsWith(s, m) {
      FirstDecides(s, m);
      assert forall i :: 0 <= i < m ==> s[..m][i] == At(s, i);
    }
  }

  /** `(0xFF >> type) & c`. */
  function Payload(type_: bv8, c: Byte): nat {
    match type_
    case 2 => Low(c, 64)
    case 3 => Low(c, 32)
    case 4 => Low(c, 16)
    case 5 => Low(c, 8)
    case 6 => Low(c, 4)
    case _ => 0
  }

  /** The mask by the type keeps the bits that count. */
  lemma PayloadLow(c: Byte)
    ensures Length(c) == 2 ==> Payload(GetRange(c), c) == Low(c, 32)
    ensures Length(c) == 3 ==> Payload(GetRange(c), c) == Low(c, 16)
    ensures Length(c) == 4 ==> Payload(GetRange(c), c) == Low(c, 8)
  {
    hide GetRange;
    RangeOf(c);
  }

  /** RAPIDJSON_COPY and RAPIDJSON_TRANS: one more byte. */
  method Follow(input: MemoryStream, codepoint: nat, result: bool, mask: bv8) returns (cp: nat, r: bool)
    requires input.Valid()
    modifies input
    ensures input.Valid() && input.pos == Min(old(input.pos) + 1, |input.data|)
    ensures cp == Join(codepoint, Low(At(input.data, old(input.pos)), 64))
    ensures r == (result && InRange(At(input.data, old(input.pos)), mask))
  {
    var c := input.Take();
    cp := Join(codepoint, Low(c, 64));
    r := result && InRange(c, mask);
  }

  lemma NothingIsNul()
    ensures Accepted([]) && Decoded([]) == 0
  {
  }

  /** UTF8::Decode. At the end of the input it reads U+0000 out of nothing; else it accepts what RFC 3629 does. */
  method Decode(input: MemoryStream) returns (result: bool, codepoint: nat)
    requires input.Valid()
    modifies input
    ensures input.Valid() && input.pos == Min(old(input.pos) + Taken(old(input.Rest())), |input.data|)
    ensures old(input.Rest()) == [] ==> result && codepoint == 0
    ensures old(input.Rest()) != [] ==> (result <==> exists n: nat :: StartsWith(old(input.Rest()), n))
    ensures old(input.Rest()) != [] && result ==>
      StartsWith(old(input.Rest()), input.pos - old(input.pos)) && codepoint == Value(input.data[old(input.pos)..input.pos])
  {
    hide Utf8Char, Value, Second, Low, Join, Decoded, Accepted, GetRange, Length, Taken;
    ghost var p, s := input.pos, input.Rest();
    result, codepoint := DecodeNext(input);
    NothingIsNul();
    if s != [] {
      AcceptedIsChar(s);
      if result { assert input.data[p..input.pos] == s[..input.pos - p]; }
    }
  }

  method DecodeNext(input: MemoryStream) returns (result: bool, codepoint: nat)
    requires input.Valid()
    modifies input
    ensures input.Valid() && input.pos == Min(old(input.pos) + Taken(old(input.Rest())), |input.data|)
    ensures result == Accepted(old(input.Rest())) && (result ==> codepoint == Decoded(old(input.Rest())))
  {
    hide InRange, GetRange, Low, Join;
    ghost var p, s := input.pos, input.Rest();
    assert forall k: nat :: At(s, k) == At(input.data, p + k);
    MaskMeans(At(s, 1));
    MaskMeans(At(s, 2));
    MaskMeans(At(s, 3));
    var c := input.Take();
    RangeOf(c);
    PayloadLow(c);
    if c < 0x80 {
      codepoint := c;
      return true, codepoint;
    }
    var type_ := GetRange(c);
    codepoint := Payload(type_, c);
    result := true;
    match type_
    case 2 =>
      codepoint, result := Follow(input, codepoint, result, 0x70);
    case 3 =>
      codepoint, result := Follow(input, codepoint, result, 0x70);
      codepoint, result := Follow(input, codepoint, result, 0x70);
    case 4 =>
      codepoint, result := Follow(input, codepoint, result, 0x50);
      codepoint, result := Follow(input, codepoint, result, 0x70);
    case 5 =>
      codepoint, result := Follow(input, codepoint, result, 0x10);
      codepoint, result := Follow(input, codepoint, result, 0x70);
      codepoint, result := Follow(input, codepoint, result, 0x70);
    case 6 =>
      codepoint, result := Follow(input, codepoint, result, 0x70);
      codepoint, result := Follow(input, codepoint, result, 0x70);
      codepoint, result := Follow(input, codepoint, result, 0x70);
    case 10 =>
      codepoint, result := Follow(input, codepoint, result, 0x20);
      codepoint, result := Follow(input, codepoint, result, 0x70);
    case 11 =>
      codepoint, result := Follow(input, codepoint, result, 0x60);
      codepoint, result := Follow(input, codepoint, result, 0x70);
      codepoint, result := Follow(input, codepoint, result, 0x70);
    case _ => result := false;
  }

  class OutputStream {
    var contents: Bytes

    constructor ()
      ensures contents == []
    {
      contents := [];
    }
  }

  /** The next k bytes, with NULs after the last. */
  function Padded(s: Bytes, k: nat): Bytes { seq(k, i requires 0 <= i < k => At(s, i)) }

  lemma PaddedMore(s: Bytes, k: nat)
    ensures Padded(s, k + 1) == Padded(s, k) + [At(s, k)]
  {
  }

  /** RAPIDJSON_COPY and RAPIDJSON_TRANS in Validate: one more byte, copied. */
  method Copy(input: MemoryStream, output: OutputStream, result: bool, mask: bv8, ghost s: Bytes, ghost k: nat, ghost o: Bytes)
    returns (r: bool, c: Byte)
    requires input.Valid() && output.contents == o + Padded(s, k) && At(input.data, input.pos) == At(s, k)
    modifies input, output
    ensures input.Valid() && input.pos == Min(old(input.pos) + 1, |input.data|)
    ensures output.contents == o + Padded(s, k + 1) && c == At(s, k) && r == (result && InRange(c, mask))
  {
    c := input.Take();
    output.contents := output.contents + [c];
    PaddedMore(s, k);
    r := result && InRange(c, mask);
  }

  /** UTF8::Validate accepts what Decode accepts, and copies what it consumed. */
  method Validate(input: MemoryStream, output: OutputStream) returns (result: bool)
    requires input.Valid()
    modifies input, output
    ensures input.Valid() && input.pos == Min(old(input.pos) + Taken(old(input.Rest())), |input.data|)
    ensures old(input.Rest()) == [] ==> result && output.contents == old(output.contents) + [0]
    ensures old(input.Rest()) != [] ==> (result <==> exists n: nat :: StartsWith(old(input.Rest()), n))
    ensures old(input.Rest()) != [] && result ==>
      StartsWith(old(input.Rest()), input.pos - old(input.pos)) &&
      output.contents == old(output.contents) + input.data[old(input.pos)..input.pos]
  {
    hide Utf8Char, Value, Second, Low, Join, Accepted, GetRange, Length, Taken, Decoded;
    ghost var p, s := input.pos, input.Rest();
    result := ValidateNext(input, output);
    NothingIsNul();
    if s != [] {
      AcceptedIsChar(s);
      if result { assert input.data[p..input.pos] == Padded(s, input.pos - p); }
    } else {
      assert Taken(s) == 1 by { NothingTaken(); }
      assert Padded(s, 1) == [0];
    }
  }

  lemma NothingTaken()
    ensures Taken([]) == 1
  {
  }

  method ValidateNext(input: MemoryStream, output: OutputStream) returns (result: bool)
    requires input.Valid()
    modifies input, output
    ensures input.Valid() && input.pos == Min(old(input.pos) + Taken(old(input.Rest())), |input.data|)
    ensures output.contents == old(output.contents) + Padded(old(input.Rest()), Taken(old(input.Rest())))
    ensures result == Accepted(old(input.Rest()))
  {
    hide InRange, GetRange, Padded;
    ghost var p, s, o := input.pos, input.Rest(), output.contents;
    assert forall k: nat :: At(s, k) == At(input.data, p + k);
    MaskMeans(At(s, 1));
    MaskMeans(At(s, 2));
    MaskMeans(At(s, 3));
    NonePadded(s, o);
    var c;
    result, c := Copy(input, output, true, 0, s, 0, o);
    RangeOf(c);
    if c < 0x80 { return true; }
    result := true;
    match GetRange(c)
    case 2 =>
      result, c := Copy(input, output, result, 0x70, s, 1, o);
    case 3 =>
      result, c := Copy(input, output, result, 0x70, s, 1, o);
      result, c := Copy(input, output, result, 0x70, s, 2, o);
    case 4 =>
      result, c := Copy(input, output, result, 0x50, s, 1, o);
      result, c := Copy(input, output, result, 0x70, s, 2, o);
    case 5 =>
      result, c := Copy(input, output, result, 0x10, s, 1, o);
      result, c := Copy(input, output, result, 0x70, s, 2, o);
      result, c := Copy(input, output, result, 0x70, s, 3, o);
    case 6 =>
      result, c := Copy(input, output, result, 0x70, s, 1, o);
      result, c := Copy(input, output, result, 0x70, s, 2, o);
      result, c := Copy(input, output, result, 0x70, s, 3, o);
    case 10 =>
      result, c := Copy(input, output, result, 0x20, s, 1, o);
      result, c := Copy(input, output, result, 0x70, s, 2, o);
    case 11 =>
      result, c := Copy(input, output, result, 0x60, s, 1, o);
      result, c := Copy(input, output, result, 0x70, s, 2, o);
      result, c := Copy(input, output, result, 0x70, s, 3, o);
    case _ => result := false;
  }

  lemma NonePadded(s: Bytes, o: Bytes)
    ensures o == o + Padded(s, 0)
  {
  }

  // ---------------------------------------------------------------- whole texts, one character after another

  /** A text goes on after its first character, which is unique. */
  lemma OctetsNext(s: Bytes, n: nat)
    requires StartsWith(s, n)
    ensures Utf8Octets(s) <==> Utf8Octets(s[n..])
  {
    FirstDecides(s, n);
    if Utf8Octets(s) {
      var m :| 0 < m <= |s| && StartsWith(s, m) && Utf8Octets(s[m..]);
      FirstDecides(s, m);
    }
  }

  lemma OctetsStart(s: Bytes)
    requires s != [] && Utf8Octets(s)
    ensures exists n: nat :: StartsWith(s, n)
  {
    var m :| 0 < m <= |s| && StartsWith(s, m) && Utf8Octets(s[m..]);
  }

  lemma {:induction false} EncodeAllMore(cps: seq<nat>, cp: nat)
    requires Scalars(cps) && Scalar(cp)
    ensures Scalars(cps + [cp]) && EncodeAll(cps + [cp]) == EncodeAll(cps) + Encode(cp)
    decreases |cps|
  {
    hide Encode;
    if cps == [] {
      assert cps + [cp] == [cp] && [cp][1..] == [];
      assert EncodeAll([cp]) == Encode(cp) + EncodeAll([]);
    } else {
      assert (cps + [cp])[1..] == cps[1..] + [cp];
      EncodeAllMore(cps[1..], cp);
    }
  }

  /** Decoding to the end accepts exactly the texts of the grammar, and yields what they encode. */
  method DecodeAll(input: MemoryStream) returns (ok: bool, cps: seq<nat>)
    requires input.Valid()
    modifies input
    ensures input.Valid() && ok == Utf8Octets(old(input.Rest()))
    ensures ok ==> Scalars(cps) && EncodeAll(cps) == old(input.Rest())
  {
    hide Encode, Utf8Octets, Utf8Char, Value, StartsWith, Taken;
    ghost var p := input.pos;
    cps := [];
    while input.pos < |input.data|
      invariant input.Valid() && p <= input.pos && Scalars(cps) && EncodeAll(cps) == input.data[p..input.pos]
      invariant Utf8Octets(input.data[input.pos..]) == Utf8Octets(input.data[p..])
      decreases |input.data| - input.pos
    {
      ghost var q, rest := input.pos, input.Rest();
      var result, cp := Decode(input);
      if !result {
        if Utf8Octets(rest) { OctetsStart(rest); }
        return false, cps;
      }
      Decoded1(input.data, p, q, input.pos, cp);
      EncodeAllMore(cps, cp);
      cps := cps + [cp];
    }
    NoOctets(input.data[input.pos..]);
    ok := true;
  }

  lemma NoOctets(s: Bytes)
    requires s == []
    ensures Utf8Octets(s)
  {
  }

  lemma Decoded1(data: Bytes, p: nat, q: nat, r: nat, cp: nat)
    requires p <= q <= r <= |data| && StartsWith(data[q..], r - q)
    requires 1 <= r - q <= 4 ==> cp == Value(data[q..r])
    ensures q < r && Scalar(cp) && Encode(cp) == data[q..r] && data[p..r] == data[p..q] + data[q..r]
    ensures Utf8Octets(data[r..]) == Utf8Octets(data[q..])
  {
    hide Encode, Utf8Char, Value, Utf8Octets;
    FirstDecides(data[q..], r - q);
    assert data[q..][..r - q] == data[q..r] && data[q..][r - q..] == data[r..];
    CharIsEncoding(data[q..r]);
    OctetsNext(data[q..], r - q);
  }

  /** Writer::WriteRawValue with validation: the text is copied whole, and refused exactly if it is not UTF-8. */
  method ValidateAll(input: MemoryStream, output: OutputStream) returns (ok: bool)
    requires input.Valid()
    modifies input, output
    ensures input.Valid() && ok == Utf8Octets(old(input.Rest()))
    ensures ok ==> output.contents == old(output.contents) + old(input.Rest())
  {
    hide Utf8Octets, Utf8Char, StartsWith, Taken;
    ghost var p := input.pos;
    while input.pos < |input.data|
      invariant input.Valid() && p <= input.pos && output.contents == old(output.contents) + input.data[p..input.pos]
      invariant Utf8Octets(input.data[input.pos..]) == Utf8Octets(input.data[p..])
      decreases |input.data| - input.pos
    {
      ghost var q, rest := input.pos, input.Rest();
      var result := Validate(input, output);
      if !result {
        if Utf8Octets(rest) { OctetsStart(rest); }
        return false;
      }
      Validated1(input.data, p, q, input.pos);
    }
    NoOctets(input.data[input.pos..]);
    ok := true;
  }

  lemma Validated1(data: Bytes, p: nat, q: nat, r: nat)
    requires p <= q <= r <= |data| && StartsWith(data[q..], r - q)
    ensures q < r && data[p..r] == data[p..q] + data[q..r] && Utf8Octets(data[r..]) == Utf8Octets(data[q..])
  {
    hide Utf8Octets;
    FirstDecides(data[q..], r - q);
    assert data[q..][r - q..] == data[r..];
    OctetsNext(data[q..], r - q);
  }

  /** Decoding what was encoded returns it. */
  method RoundTrip(cps: seq<nat>) returns (decoded: seq<nat>)
    requires Scalars(cps)
    ensures decoded == cps
  {
    EncodedIsOctets(cps);
    var input := new MemoryStream(EncodeAll(cps));
    assert input.Rest() == EncodeAll(cps);
    var ok;
    ok, decoded := DecodeAll(input);
    EncodeAllInjective(decoded, cps);
  }
}
