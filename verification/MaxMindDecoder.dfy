/**
  The decoder of the MaxMind DB reader (Library/MaxMindDB/Source/maxminddb.c): one control byte with its
  payload at a time, on any bytes, and the proof that it reads back what the format writes.
*/
module MaxMindDecoder {
  import opened Options
  import opened MaxMindFormat

  /** MMDB_open refuses a data section of fewer than 3 bytes; sizes are 32 bits wide. */
  type Section = s: Bytes | 3 <= |s| < 0x1_0000_0000 witness [0, 0, 0]

  /** The difference of two unsigned 32-bit numbers. */
  function Minus32(a: nat, b: nat): nat { (a - b) % 0x1_0000_0000 }

  /** What MMDB_entry_data_s holds besides its bookkeeping. */
  datatype Content = NoContent | Target(offset: nat) | Raw(bytes: Bytes) | Numeric(value: int) | Flag(isSet: bool)

  /** `size` is left 0 where the source leaves data_size alone; it is not valid there. */
  datatype Entry = Entry(kind: int, offset: nat, next: nat, size: nat, content: Content)

  datatype Decoded = Ok(entry: Entry) | InvalidData

  /** get_ptr_from */
  function PointerFrom(ctrl: Byte, b: Bytes): nat
    requires 1 <= |b| <= 4
  {
    var high := ctrl as nat % 8;
    match |b|
    case 1 => high * 256 + b[0] as nat
    case 2 => 2048 + high * 65536 + Uint16(b)
    case 3 => 2048 + 524288 + high * 0x100_0000 + Uint24(b)
    case _ => Uint32(b)
  }

  /** The size that a control byte and the bytes after it give, and the offset behind them. */
  function DecodeSize(mem: Section, field: nat, offset: nat): (r: Option<(nat, nat)>)
    requires field < 32 && offset <= |mem|
    ensures r.Some? ==> offset <= r.value.1 <= |mem| && r.value.0 < SIZE_LIMIT
  {
    if field == 29 then
      if offset > Minus32(|mem|, 1) then None else Some((29 + mem[offset] as nat, offset + 1))
    else if field == 30 then
      if offset > Minus32(|mem|, 2) then None else Some((285 + Uint16(mem[offset..offset + 2]), offset + 2))
    else if field == 31 then
      if offset > Minus32(|mem|, 3) then None else Some((65821 + Uint24(mem[offset..offset + 3]), offset + 3))
    else Some((field, offset))
  }

  /** Two's complement of a 32-bit number. */
  function Signed32(n: nat): int {
    var m := n % 0x1_0000_0000;
    if m < 0x8000_0000 then m else m - 0x1_0000_0000
  }

  /** The number that get_uintX or get_sintX makes of the payload of a value of this kind. */
  function NumberOf(kind: int, digits: Bytes): int {
    if kind == INT32 then Signed32(BigEndian(digits)) else BigEndian(digits)
  }

  predicate IsNumberKind(kind: int) {
    kind == UINT16 || kind == UINT32 || kind == INT32 || kind == UINT64 || kind == UINT128
  }

  /** The longest payload that decode_one takes for a number. */
  function NumberWidth(kind: int): nat {
    if kind == UINT16 then 2
    else if kind == UINT32 || kind == INT32 then 4
    else if kind == UINT64 then 8
    else 16
  }

  function DecodeValue(mem: Section, start: nat, kind: int, size: nat, offset: nat): (r: Decoded)
    requires start < offset <= |mem| && size < SIZE_LIMIT
    ensures r.Ok? ==> r.entry.offset == start && r.entry.kind == kind && start < r.entry.next <= |mem|
  {
    if kind == MAP || kind == ARRAY then Ok(Entry(kind, start, offset, size, NoContent))
    else if kind == BOOLEAN then Ok(Entry(kind, start, offset, 0, Flag(size != 0)))
    else if offset > Minus32(|mem|, size) || |mem| < size then InvalidData
    else
      var next := offset + size;
      if IsNumberKind(kind) then
        if size > NumberWidth(kind) then InvalidData
        else Ok(Entry(kind, start, next, 0, Numeric(NumberOf(kind, mem[offset..next]))))
      else if kind == FLOAT || kind == DOUBLE then
        if size != (if kind == FLOAT then 4 else 8) then InvalidData
        else Ok(Entry(kind, start, next, 0, Raw(mem[offset..next])))
      else if kind == UTF8_STRING || kind == BYTES then Ok(Entry(kind, start, next, size, Raw(mem[offset..next])))
      else Ok(Entry(kind, start, next, 0, NoContent))
  }

  function DecodeTyped(mem: Section, start: nat, ctrl: Byte, kind: int, offset: nat): (r: Decoded)
    requires start < offset <= |mem|
    ensures r.Ok? ==> r.entry.offset == start && r.entry.kind == kind && start < r.entry.next <= |mem|
    ensures r.Ok? ==> (kind == POINTER_KIND <==> r.entry.content.Target?)
  {
    if kind == POINTER_KIND then
      var width := ctrl / 8 % 4 + 1;
      if offset > Minus32(|mem|, width) || |mem| < width then InvalidData
      else Ok(Entry(kind, start, offset + width, width, Target(PointerFrom(ctrl, mem[offset..offset + width]))))
    else
      match DecodeSize(mem, ctrl % 32, offset)
      case None => InvalidData
      case Some((size, at)) => DecodeValue(mem, start, kind, size, at)
  }

  /** decode_one. On any bytes it stays inside the section, and success always makes progress. */
  function DecodeOne(mem: Section, offset: nat): (r: Decoded)
    ensures r.Ok? ==> r.entry.offset == offset && offset < r.entry.next <= |mem|
    ensures r.Ok? ==> (r.entry.kind == POINTER_KIND <==> r.entry.content.Target?)
  {
    if offset > Minus32(|mem|, 1) then InvalidData
    else
      var ctrl := mem[offset];
      if ctrl / 32 != 0 then DecodeTyped(mem, offset, ctrl, ctrl / 32, offset + 1)
      else if offset + 1 > Minus32(|mem|, 1) then InvalidData
      else DecodeTyped(mem, offset, ctrl, 7 + mem[offset + 1] as int, offset + 2)
  }

  /** decode_one_follow: a pointer gives what it points to; its next entry follows the pointer for simple values. */
  function DecodeFollow(mem: Section, offset: nat): (r: Decoded)
    ensures r.Ok? ==> r.entry.next <= |mem|
  {
    match DecodeOne(mem, offset)
    case InvalidData => InvalidData
    case Ok(e) =>
      if !e.content.Target? then Ok(e)
      else match DecodeOne(mem, e.content.offset)
        case InvalidData => InvalidData
        case Ok(t) =>
          if t.kind == POINTER_KIND then InvalidData
          else Ok(if t.kind == MAP || t.kind == ARRAY then t else t.(next := e.next))
  }

  // ---------------------------------------------------------------- reading back what was written

  /** The entry describes the value. */
  predicate Describes(e: Entry, b: Body) {
    && e.kind == KindOf(b)
    && match b
       case Text(s) => e.size == |s| && e.content == Raw(s)
       case Binary(s) => e.size == |s| && e.content == Raw(s)
       case Number(kind, digits) => e.content.Numeric? && Denotes(kind, digits, e.content.value)
       case Real(_, digits) => e.content == Raw(digits)
       case Boolean(v) => e.content == Flag(v)
       case Array(elements) => e.size == |elements|
       case Map(pairs) => e.size == |pairs|
  }

  lemma AtParts(mem: Bytes, offset: nat, a: Bytes, b: Bytes)
    ensures At(mem, offset, a + b) <==> At(mem, offset, a) && At(mem, offset + |a|, b)
  {
    if At(mem, offset, a + b) {
      assert mem[offset..offset + |a|] == (a + b)[..|a|] == a;
      assert mem[offset + |a|..offset + |a| + |b|] == (a + b)[|a|..] == b;
    }
    if At(mem, offset, a) && At(mem, offset + |a|, b) {
      assert mem[offset..offset + |a + b|] == mem[offset..offset + |a|] + mem[offset + |a|..offset + |a| + |b|];
    }
  }

  lemma AtByte(mem: Bytes, offset: nat, bytes: Bytes, i: nat)
    requires At(mem, offset, bytes) && i < |bytes|
    ensures mem[offset + i] == bytes[i]
  {
    assert mem[offset..offset + |bytes|][i] == bytes[i];
  }

  lemma MinusExact(a: nat, b: nat)
    requires b <= a < 0x1_0000_0000
    ensures Minus32(a, b) == a - b
  {
  }

  lemma ThreeBytes(n: nat)
    requires n < 0x100_0000
    ensures Uint24([n / 65536, n / 256 % 256, n % 256]) == n
  {
  }

  lemma DecodedSize(mem: Section, size: nat, offset: nat)
    requires size < SIZE_LIMIT && At(mem, offset, SizeField(size).1)
    ensures DecodeSize(mem, SizeField(size).0, offset) == Some((size, offset + |SizeField(size).1|))
  {
    var extra := SizeField(size).1;
    MinusExact(|mem|, 1);
    MinusExact(|mem|, 2);
    MinusExact(|mem|, 3);
    hide Minus32;
    assert mem[offset..offset + |extra|] == extra;
    if 29 <= size < 285 {
      AtByte(mem, offset, extra, 0);
    } else if size >= 65821 {
      ThreeBytes(size - 65821);
      hide Uint24;
    }
  }

  lemma ShortHeader(mem: Section, offset: nat, kind: int, size: nat)
    requires 2 <= kind <= 7 && size < SIZE_LIMIT && At(mem, offset, Header(kind, size))
    ensures DecodeOne(mem, offset) == DecodeValue(mem, offset, kind, size, offset + |Header(kind, size)|)
  {
    hide Minus32, DecodeValue, DecodeSize, SizeField;
    var (field, extra) := SizeField(size);
    AtByte(mem, offset, Header(kind, size), 0);
    assert Header(kind, size) == [kind * 32 + field] + extra;
    AtParts(mem, offset, [kind * 32 + field], extra);
    MinusExact(|mem|, 1);
    DecodedSize(mem, size, offset + 1);
    ControlByte(kind, field);
    hide At;
  }

  lemma ExtendedHeader(mem: Section, offset: nat, kind: int, size: nat)
    requires 8 <= kind <= 15 && size < SIZE_LIMIT && At(mem, offset, Header(kind, size))
    ensures DecodeOne(mem, offset) == DecodeValue(mem, offset, kind, size, offset + |Header(kind, size)|)
  {
    hide Minus32, DecodeValue, DecodeSize, SizeField;
    var (field, extra) := SizeField(size);
    AtByte(mem, offset, Header(kind, size), 0);
    AtByte(mem, offset, Header(kind, size), 1);
    assert Header(kind, size) == [field, kind - 7] + extra;
    AtParts(mem, offset, [field, kind - 7], extra);
    MinusExact(|mem|, 1);
    DecodedSize(mem, size, offset + 2);
    hide At;
  }

  /** The header of a value gives its kind and size. */
  lemma DecodedHeader(mem: Section, offset: nat, kind: int, size: nat)
    requires 2 <= kind <= 15 && size < SIZE_LIMIT && At(mem, offset, Header(kind, size))
    ensures DecodeOne(mem, offset) == DecodeValue(mem, offset, kind, size, offset + |Header(kind, size)|)
  {
    hide DecodeOne, DecodeValue, Header, At;
    if kind <= 7 { ShortHeader(mem, offset, kind, size); } else { ExtendedHeader(mem, offset, kind, size); }
  }

  lemma ControlByte(kind: nat, field: nat)
    requires field < 32
    ensures (kind * 32 + field) / 32 == kind && (kind * 32 + field) % 32 == field
  {
  }

  lemma NumberDenoted(kind: int, digits: Bytes)
    ensures Denotes(kind, digits, NumberOf(kind, digits))
  {
    hide BigEndian;
  }

  lemma NumberPayload(mem: Section, start: nat, offset: nat, kind: int, digits: Bytes)
    requires Fits(Number(kind, digits)) && start < offset && At(mem, offset, digits)
    ensures DecodeValue(mem, start, kind, |digits|, offset).Ok?
    ensures var e := DecodeValue(mem, start, kind, |digits|, offset).entry;
      Describes(e, Number(kind, digits)) && e.offset == start && e.next == offset + |digits|
  {
    assert mem[offset..offset + |digits|] == digits;
    MinusExact(|mem|, |digits|);
    NumberDenoted(kind, digits);
    hide Minus32, NumberOf, Denotes;
  }

  lemma DecodedPayload(mem: Section, start: nat, offset: nat, b: Body)
    requires WellFormedBody(b) && start < offset && At(mem, offset, Contents(b))
    ensures SizeOf(b) < SIZE_LIMIT && DecodeValue(mem, start, KindOf(b), SizeOf(b), offset).Ok?
    ensures var e := DecodeValue(mem, start, KindOf(b), SizeOf(b), offset).entry;
      Describes(e, b) && e.offset == start && e.next == offset + if IsContainer(b) then 0 else |Contents(b)|
  {
    if b.Number? {
      NumberPayload(mem, start, offset, b.kind, b.digits);
    } else if !IsContainer(b) {
      assert mem[offset..offset + |Payload(b)|] == Payload(b);
      MinusExact(|mem|, |Payload(b)|);
    }
    hide Minus32, NumberOf, NumberWidth, Denotes, EncodeAll, EncodePairs;
  }

  lemma KindRange(b: Body)
    requires Fits(b)
    ensures 2 <= KindOf(b) <= 15 && SizeOf(b) < SIZE_LIMIT && HeaderOf(b) == Header(KindOf(b), SizeOf(b))
  {
  }

  /** A value written inline is decoded as what it is; a simple value ends where its bytes end. */
  lemma DecodedBody(mem: Section, offset: nat, b: Body)
    requires WellFormedBody(b) && At(mem, offset, EncodeBody(b))
    ensures DecodeOne(mem, offset).Ok?
    ensures var e := DecodeOne(mem, offset).entry;
      && Describes(e, b) && e.offset == offset
      && e.next == offset + if IsContainer(b) then |HeaderOf(b)| else |EncodeBody(b)|
  {
    hide DecodeOne, DecodeValue, Header, Describes, At, EncodeAll, EncodePairs, SizeOf, KindOf, Payload, Contents;
    AtParts(mem, offset, HeaderOf(b), Contents(b));
    KindRange(b);
    DecodedHeader(mem, offset, KindOf(b), SizeOf(b));
    DecodedPayload(mem, offset, offset + |HeaderOf(b)|, b);
  }

  /** Every int32, written as its four bytes in two's complement, is read back. */
  lemma EveryInt32(mem: Section, offset: nat, v: int)
    requires -0x8000_0000 <= v < 0x8000_0000
    requires At(mem, offset, EncodeBody(Number(INT32, Digits(v % 0x1_0000_0000, 4))))
    ensures DecodeOne(mem, offset).Ok? && DecodeOne(mem, offset).entry.content == Numeric(v)
  {
    var digits := Digits(v % 0x1_0000_0000, 4);
    FourBytes();
    DigitsRead(v % 0x1_0000_0000, 4);
    hide DecodeOne, At, EncodeBody, Digits, BigEndian, Power256;
    DecodedBody(mem, offset, Number(INT32, digits));
    OneInt32(BigEndian(digits), v, DecodeOne(mem, offset).entry.content.value);
  }

  lemma FourBytes()
    ensures Power256(4) == 0x1_0000_0000
  {
    assert Power256(4) == 256 * (256 * (256 * (256 * Power256(0))));
  }

  lemma OneInt32(n: nat, v: int, w: int)
    requires -0x8000_0000 <= v < 0x8000_0000 && -0x8000_0000 <= w < 0x8000_0000
    requires n == v % 0x1_0000_0000 && (w - n) % 0x1_0000_0000 == 0
    ensures v == w
  {
  }

  /** Every number that fits the bytes of its kind is read back from that many bytes. */
  lemma EveryUnsigned(mem: Section, offset: nat, kind: int, width: nat, v: nat)
    requires (kind, width) in {(UINT16, 2), (UINT32, 4), (UINT64, 8), (UINT128, 16)} && v < Power256(width)
    requires At(mem, offset, EncodeBody(Number(kind, Digits(v, width))))
    ensures DecodeOne(mem, offset).Ok? && DecodeOne(mem, offset).entry.content == Numeric(v)
  {
    DigitsRead(v, width);
    hide DecodeOne, At, EncodeBody, Digits, BigEndian, Power256;
    DecodedBody(mem, offset, Number(kind, Digits(v, width)));
  }

  /** The payload sizes that the format allows; kinds it does not know may have any. */
  predicate SizeAllowed(kind: int, size: nat) {
    && (kind == UINT16 ==> size <= 2)
    && (kind == UINT32 || kind == INT32 ==> size <= 4)
    && (kind == UINT64 ==> size <= 8)
    && (kind == UINT128 ==> size <= 16)
    && (kind == FLOAT ==> size == 4)
    && (kind == DOUBLE ==> size == 8)
  }

  /** A header is accepted exactly if the payload it announces is of an allowed size and inside the section. */
  lemma AcceptedExactly(mem: Section, offset: nat, kind: int, size: nat)
    requires 2 <= kind <= 15 && size < SIZE_LIMIT && At(mem, offset, Header(kind, size))
    ensures DecodeOne(mem, offset).Ok? <==>
      kind == MAP || kind == ARRAY || kind == BOOLEAN ||
      (SizeAllowed(kind, size) && offset + |Header(kind, size)| + size <= |mem|)
  {
    DecodedHeader(mem, offset, kind, size);
    if size <= |mem| { MinusExact(|mem|, size); }
    hide DecodeOne, Header, Minus32, NumberOf;
  }

  lemma PointerControl(width: nat, high: nat)
    requires 1 <= width <= 4 && high < 8
    ensures var ctrl := 32 + (width - 1) * 8 + high; ctrl < 256 && ctrl / 32 == 1 && ctrl / 8 % 4 + 1 == width && ctrl % 8 == high
  {
  }

  lemma SplitBytes(t: nat)
    ensures t == t / 256 * 256 + t % 256
    ensures t == t / 65536 * 65536 + t / 256 % 256 * 256 + t % 256
    ensures t == t / 0x100_0000 * 0x100_0000 + t / 65536 % 256 * 65536 + t / 256 % 256 * 256 + t % 256
  {
    assert t / 256 / 256 == t / 65536 && t / 65536 / 256 == t / 0x100_0000;
  }

  /** What pointer bytes hold: the width in the control byte, and the target. */
  lemma PointerRead(r: Ref)
    requires RefFits(r)
    ensures var p := PointerBytes(r);
      && |p| == r.width + 1 && p[0] / 32 == 1 && p[0] / 8 % 4 + 1 == r.width
      && PointerFrom(p[0], p[1..]) == r.target
  {
    var p := PointerBytes(r);
    match r.width
    case 1 =>
      PointerControl(1, r.target / 256);
      SplitBytes(r.target);
      assert p[1..] == [r.target % 256];
    case 2 =>
      var t := r.target - 2048;
      PointerControl(2, t / 65536);
      SplitBytes(t);
      assert p[1..] == [t / 256 % 256, t % 256];
    case 3 =>
      var t := r.target - 526336;
      PointerControl(3, t / 0x100_0000);
      SplitBytes(t);
      assert p[1..] == [t / 65536 % 256, t / 256 % 256, t % 256];
    case _ =>
      PointerControl(4, 0);
      SplitBytes(r.target);
  }

  lemma DecodedPointer(mem: Section, offset: nat, r: Ref)
    requires RefFits(r) && At(mem, offset, PointerBytes(r))
    ensures DecodeOne(mem, offset) == Ok(Entry(POINTER_KIND, offset, offset + |PointerBytes(r)|, r.width, Target(r.target)))
  {
    var p := PointerBytes(r);
    PointerRead(r);
    MinusExact(|mem|, 1);
    AtByte(mem, offset, p, 0);
    assert p == p[..1] + p[1..];
    AtParts(mem, offset, p[..1], p[1..]);
    hide Minus32, PointerBytes, PointerFrom, DecodeSize, DecodeValue;
    if r.width <= |mem| { MinusExact(|mem|, r.width); }
  }

  /** A value read through its pointer, if it has one; simple values are followed by what follows them in the file. */
  lemma DecodedNode(mem: Section, offset: nat, n: Node)
    requires Written(mem, offset, n)
    ensures DecodeFollow(mem, offset).Ok?
    ensures var e := DecodeFollow(mem, offset).entry;
      && Describes(e, n.body)
      && if IsContainer(n.body)
         then e.offset + |HeaderOf(n.body)| == e.next && WrittenBody(mem, e.offset, n.body)
         else e.next == offset + |Encode(n)|
  {
    if n.via.Some? {
      DecodedPointer(mem, offset, n.via.value);
      DecodedBody(mem, n.via.value.target, n.body);
    } else {
      DecodedBody(mem, offset, n.body);
    }
  }

  // ---------------------------------------------------------------- numbers

  lemma {:induction false} BigEndianBound(digits: Bytes, k: nat)
    requires |digits| <= k <= 8
    ensures BigEndian(digits) < Power256(k)
    decreases k
  {
    if digits != [] {
      var rest := digits[..|digits| - 1];
      BigEndianBound(rest, k - 1);
      assert BigEndian(digits) == BigEndian(rest) * 256 + digits[|digits| - 1] as nat;
    } else if k > 0 {
      BigEndianBound(digits, k - 1);
    }
  }

  lemma NextDigit(mem: Bytes, offset: nat, p: nat)
    requires offset <= p < |mem| && p - offset < 8
    ensures BigEndian(mem[offset..p + 1]) == BigEndian(mem[offset..p]) * 256 + mem[p] as nat
    ensures BigEndian(mem[offset..p + 1]) < 0x1_0000_0000_0000_0000
  {
    var digits := mem[offset..p + 1];
    assert digits[..|digits| - 1] == mem[offset..p] && digits[|digits| - 1] == mem[p];
    BigEndianBound(digits, 8);
    assert Power256(8) == 256 * 256 * 256 * 256 * Power256(4);
  }

  /** get_uintX: the accumulator has 64 bits, enough for every payload of up to 8 bytes. */
  method GetUintX(mem: Section, offset: nat, length: nat) returns (value: nat)
    requires offset + length <= |mem| && length <= 8
    ensures value == BigEndian(mem[offset..offset + length])
  {
    hide BigEndian;
    value := 0;
    var p := offset;
    EmptyNumber(mem, offset);
    for i := 0 to length
      invariant p == offset + i && value == BigEndian(mem[offset..p])
    {
      NextDigit(mem, offset, p);
      value := value * 256 % 0x1_0000_0000_0000_0000;
      value := (value + mem[p] as nat) % 0x1_0000_0000_0000_0000;
      p := p + 1;
    }
  }

  lemma EmptyNumber(mem: Bytes, offset: nat)
    requires offset <= |mem|
    ensures BigEndian(mem[offset..offset]) == 0
  {
  }
}
