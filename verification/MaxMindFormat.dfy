/**
  The data section of a MaxMind DB file as its specification describes it (MaxMind DB File Format
  Specification v2.0, "Output Data Section"): value trees whose parts are written inline or behind one
  pointer, their bytes, and what a path into a tree finds.
*/
module MaxMindFormat {
  import opened Options

  type Byte = x: int | 0 <= x < 256
  type Bytes = seq<Byte>

  /** The big-endian numbers that records, sizes and pointers are made of. */
  function Uint16(b: Bytes): nat
    requires |b| == 2
  {
    b[0] as nat * 256 + b[1] as nat
  }

  function Uint24(b: Bytes): nat
    requires |b| == 3
  {
    b[0] as nat * 65536 + b[1] as nat * 256 + b[2] as nat
  }

  function Uint32(b: Bytes): nat
    requires |b| == 4
  {
    b[0] as nat * 0x100_0000 + b[1] as nat * 65536 + b[2] as nat * 256 + b[3] as nat
  }

  const POINTER_KIND := 1
  const UTF8_STRING := 2
  const DOUBLE := 3
  const BYTES := 4
  const UINT16 := 5
  const UINT32 := 6
  const MAP := 7
  const INT32 := 8
  const UINT64 := 9
  const UINT128 := 10
  const ARRAY := 11
  const BOOLEAN := 14
  const FLOAT := 15

  // ---------------------------------------------------------------- value trees

  /** A pointer to another place of the data section, written in 1 to 4 bytes after the control byte. */
  datatype Ref = Ref(target: nat, width: nat)

  /** A value in the file: written here, or behind a pointer. */
  datatype Node = Node(via: Option<Ref>, body: Body)

  /** Numbers keep their big-endian bytes, of which leading zeros may be left out. */
  datatype Body =
    | Text(text: Bytes)
    | Binary(bytes: Bytes)
    | Number(kind: int, digits: Bytes)
    | Real(kind: int, digits: Bytes)
    | Boolean(value: bool)
    | Array(elements: seq<Node>)
    | Map(pairs: seq<Pair>)

  datatype Pair = Pair(key: Node, value: Node)

  function KindOf(b: Body): int {
    match b
    case Text(_) => UTF8_STRING
    case Binary(_) => BYTES
    case Number(kind, _) => kind
    case Real(kind, _) => kind
    case Boolean(_) => BOOLEAN
    case Array(_) => ARRAY
    case Map(_) => MAP
  }

  predicate IsContainer(b: Body) { b.Array? || b.Map? }

  const SIZE_LIMIT := 65821 + 0x100_0000

  /** The bounds the format sets on one value, its parts aside. */
  predicate Fits(b: Body) {
    match b
    case Text(s) => |s| < SIZE_LIMIT
    case Binary(s) => |s| < SIZE_LIMIT
    case Number(kind, digits) =>
      || (kind == UINT16 && |digits| <= 2) || (kind == UINT32 && |digits| <= 4) || (kind == INT32 && |digits| <= 4)
      || (kind == UINT64 && |digits| <= 8) || (kind == UINT128 && |digits| <= 16)
    case Real(kind, digits) => (kind == FLOAT && |digits| == 4) || (kind == DOUBLE && |digits| == 8)
    case Boolean(_) => true
    case Array(e) => |e| < SIZE_LIMIT
    case Map(p) => |p| < SIZE_LIMIT
  }

  /** Where each pointer width starts, and what it can hold. */
  predicate RefFits(r: Ref) {
    match r.width
    case 1 => r.target < 2048
    case 2 => 2048 <= r.target < 2048 + 0x8_0000
    case 3 => 526336 <= r.target < 526336 + 0x800_0000
    case 4 => r.target < 0x1_0000_0000
    case _ => false
  }

  // ---------------------------------------------------------------- bytes

  /** The size field of a control byte, and the bytes that extend it. */
  function SizeField(size: nat): (f: (nat, Bytes))
    requires size < SIZE_LIMIT
    ensures f.0 < 32
  {
    if size < 29 then (size, [])
    else if size < 285 then (29, [size - 29])
    else if size < 65821 then (30, [(size - 285) / 256, (size - 285) % 256])
    else (31, [(size - 65821) / 65536, (size - 65821) / 256 % 256, (size - 65821) % 256])
  }

  /** The control byte, the byte of an extended type, and the extended size. */
  function Header(kind: int, size: nat): Bytes
    requires 1 <= kind <= 15 && size < SIZE_LIMIT
  {
    var (field, extra) := SizeField(size);
    if kind <= 7 then [kind * 32 + field] + extra else [field, kind - 7] + extra
  }

  function PointerBytes(r: Ref): Bytes
    requires RefFits(r)
  {
    match r.width
    case 1 => [32 + r.target / 256, r.target % 256]
    case 2 =>
      var t := r.target - 2048;
      [32 + 8 + t / 65536, t / 256 % 256, t % 256]
    case 3 =>
      var t := r.target - 526336;
      [32 + 16 + t / 0x100_0000, t / 65536 % 256, t / 256 % 256, t % 256]
    case _ => [32 + 24, r.target / 0x100_0000, r.target / 65536 % 256, r.target / 256 % 256, r.target % 256]
  }

  /** What the size field counts: payload bytes, elements or pairs; a boolean is its own size. */
  function SizeOf(b: Body): nat {
    match b
    case Text(s) => |s|
    case Binary(s) => |s|
    case Number(_, digits) => |digits|
    case Real(_, digits) => |digits|
    case Boolean(v) => if v then 1 else 0
    case Array(e) => |e|
    case Map(p) => |p|
  }

  function Payload(b: Body): Bytes {
    match b
    case Text(s) => s
    case Binary(s) => s
    case Number(_, digits) => digits
    case Real(_, digits) => digits
    case _ => []
  }

  /** A tree all of whose values and pointers are within the format's bounds; map keys are strings. */
  predicate WellFormed(n: Node)
    decreases n, 1
  {
    (n.via.Some? ==> RefFits(n.via.value)) && WellFormedBody(n.body)
  }

  predicate WellFormedBody(b: Body)
    decreases b, 0
  {
    && Fits(b)
    && (b.Array? ==> forall i :: 0 <= i < |b.elements| ==> WellFormed(b.elements[i]))
    && (b.Map? ==> forall i :: 0 <= i < |b.pairs| ==>
        WellFormed(b.pairs[i].key) && WellFormed(b.pairs[i].value) && b.pairs[i].key.body.Text?)
  }

  function Encode(n: Node): (bytes: Bytes)
    requires WellFormed(n)
    ensures |bytes| > 0
    decreases n, 1
  {
    if n.via.Some? then PointerBytes(n.via.value) else EncodeBody(n.body)
  }

  function HeaderOf(b: Body): (bytes: Bytes)
    requires Fits(b)
    ensures |bytes| > 0
  {
    Header(KindOf(b), SizeOf(b))
  }

  function EncodeBody(b: Body): (bytes: Bytes)
    requires WellFormedBody(b)
    ensures |bytes| > 0
    decreases b, 1
  {
    HeaderOf(b) + Contents(b)
  }

  /** What follows the header: the payload, or the elements or pairs one after another. */
  function Contents(b: Body): Bytes
    requires WellFormedBody(b)
    decreases b, 0
  {
    match b
    case Array(e) => EncodeAll(e)
    case Map(p) => EncodePairs(p)
    case _ => Payload(b)
  }

  function EncodeAll(e: seq<Node>): Bytes
    requires forall i :: 0 <= i < |e| ==> WellFormed(e[i])
    decreases e, 0
  {
    if e == [] then [] else Encode(e[0]) + EncodeAll(e[1..])
  }

  function EncodePair(p: Pair): Bytes
    requires WellFormed(p.key) && WellFormed(p.value)
    decreases p, 0
  {
    Encode(p.key) + Encode(p.value)
  }

  predicate WellFormedPairs(p: seq<Pair>) {
    forall i :: 0 <= i < |p| ==> WellFormed(p[i].key) && WellFormed(p[i].value) && p[i].key.body.Text?
  }

  function EncodePairs(p: seq<Pair>): Bytes
    requires WellFormedPairs(p)
    decreases p, 0
  {
    if p == [] then [] else EncodePair(p[0]) + EncodePairs(p[1..])
  }

  /** These bytes stand at this offset of the data section. */
  predicate At(mem: Bytes, offset: nat, bytes: Bytes) {
    offset + |bytes| <= |mem| && mem[offset..offset + |bytes|] == bytes
  }

  /** What each pointer of the tree points to is written where it points. */
  predicate Placed(mem: Bytes, n: Node)
    requires WellFormed(n)
    decreases n, 1
  {
    (n.via.Some? ==> At(mem, n.via.value.target, EncodeBody(n.body))) && PlacedBody(mem, n.body)
  }

  predicate PlacedBody(mem: Bytes, b: Body)
    requires WellFormedBody(b)
    decreases b, 0
  {
    && (b.Array? ==> forall i :: 0 <= i < |b.elements| ==> Placed(mem, b.elements[i]))
    && (b.Map? ==> forall i :: 0 <= i < |b.pairs| ==> Placed(mem, b.pairs[i].key) && Placed(mem, b.pairs[i].value))
  }

  /** A tree written at an offset of the data section. */
  predicate Written(mem: Bytes, offset: nat, n: Node) {
    WellFormed(n) && Placed(mem, n) && At(mem, offset, Encode(n))
  }

  /** A value written inline, its parts anywhere. */
  predicate WrittenBody(mem: Bytes, offset: nat, b: Body) {
    WellFormedBody(b) && PlacedBody(mem, b) && At(mem, offset, EncodeBody(b))
  }

  // ---------------------------------------------------------------- numbers

  function BigEndian(digits: Bytes): nat {
    if digits == [] then 0 else BigEndian(digits[..|digits| - 1]) * 256 + digits[|digits| - 1]
  }

  function Power256(k: nat): (p: nat)
    ensures p > 0
  {
    if k == 0 then 1 else 256 * Power256(k - 1)
  }

  /** The last `width` big-endian bytes of v. */
  function Digits(v: nat, width: nat): (digits: Bytes)
    ensures |digits| == width
  {
    if width == 0 then [] else Digits(v / 256, width - 1) + [v % 256]
  }

  lemma {:induction false} DigitsRead(v: nat, width: nat)
    requires v < Power256(width)
    ensures BigEndian(Digits(v, width)) == v
  {
    if width == 0 {
    } else {
      DigitsRead(v / 256, width - 1);
      assert Digits(v, width)[..width - 1] == Digits(v / 256, width - 1);
    }
  }

  /** The number that the digits of a value of this kind stand for: two's complement for INT32. */
  predicate Denotes(kind: int, digits: Bytes, v: int) {
    if kind == INT32 then -0x8000_0000 <= v < 0x8000_0000 && (v - BigEndian(digits)) % 0x1_0000_0000 == 0
    else v == BigEndian(digits)
  }

  // ---------------------------------------------------------------- paths

  /** What strtol makes of a path element, when it is all digits (or otherwise acceptable to strtol). */
  datatype Index = NotAnIndex | Negative | AtIndex(index: nat)

  datatype Found = Value(body: Body) | BadPath | NoMatch

  function KeyText(p: Pair): Bytes { if p.key.body.Text? then p.key.body.text else [] }

  /** The first pair with the given key. */
  function FirstWithKey(pairs: seq<Pair>, key: Bytes): Option<Body> {
    if pairs == [] then None
    else if KeyText(pairs[0]) == key then Some(pairs[0].value.body)
    else FirstWithKey(pairs[1..], key)
  }

  /** One step of a path, into an array or a map. */
  function Step(b: Body, elem: Bytes, parse: Bytes -> Index): Found {
    match b
    case Array(e) =>
      (match parse(elem)
       case NotAnIndex => NoMatch
       case Negative => BadPath
       case AtIndex(i) => if i < |e| then Value(e[i].body) else NoMatch)
    case Map(p) =>
      (match FirstWithKey(p, elem)
       case Some(v) => Value(v)
       case None => NoMatch)
    case _ => NoMatch
  }

  function Walk(b: Body, path: seq<Bytes>, parse: Bytes -> Index): Found
    decreases |path|
  {
    if path == [] then Value(b)
    else match Step(b, path[0], parse)
      case Value(v) => Walk(v, path[1..], parse)
      case other => other
  }

  // ---------------------------------------------------------------- flattening

  /** The values of a tree in pre-order: an array before its elements, a map before its keys and values in turn. */
  function Flatten(b: Body): seq<Body>
    decreases b, 0
  {
    match b
    case Array(e) => [b] + FlattenAll(e)
    case Map(p) => [b] + FlattenPairs(p)
    case _ => [b]
  }

  function FlattenNode(n: Node): seq<Body>
    decreases n, 1
  {
    Flatten(n.body)
  }

  function FlattenAll(e: seq<Node>): seq<Body>
    decreases e, 0
  {
    if e == [] then [] else FlattenNode(e[0]) + FlattenAll(e[1..])
  }

  function FlattenPair(p: Pair): seq<Body>
    decreases p, 0
  {
    FlattenNode(p.key) + FlattenNode(p.value)
  }

  function FlattenPairs(p: seq<Pair>): seq<Body>
    decreases p, 0
  {
    if p == [] then [] else FlattenPair(p[0]) + FlattenPairs(p[1..])
  }

  function Larger(a: nat, b: nat): nat { if a < b then b else a }

  /** How many levels a reader that recurses into values, and again for a pointer to an array or map, needs. */
  function Levels(n: Node): nat
    decreases n, 1
  {
    (if n.via.Some? && IsContainer(n.body) then 1 else 0) + LevelsOf(n.body)
  }

  function LevelsOf(b: Body): nat
    decreases b, 0
  {
    match b
    case Array(e) => 1 + LevelsOfAll(e)
    case Map(p) => 1 + LevelsOfPairs(p)
    case _ => 1
  }

  function LevelsOfAll(e: seq<Node>): nat
    decreases e, 0
  {
    if e == [] then 0 else Larger(Levels(e[0]), LevelsOfAll(e[1..]))
  }

  function LevelsOfPair(p: Pair): nat
    decreases p, 0
  {
    Larger(Levels(p.key), Levels(p.value))
  }

  function LevelsOfPairs(p: seq<Pair>): nat
    decreases p, 0
  {
    if p == [] then 0 else Larger(LevelsOfPair(p[0]), LevelsOfPairs(p[1..]))
  }
}
