/**
  The search tree of the MaxMind DB reader (Library/MaxMindDB/Source/maxminddb.c; MaxMind DB File Format
  Specification v2.0, "Binary Search Tree Section"): packed records, the walk over an address's bits, and
  the start node remembered for IPv4 lookups.
*/
module MaxMindTree {
  import opened MaxMindFormat

  const SEPARATOR := 16

  /** An opened file: `treeSize` does not wrap around 32 bits, and the separator is inside the file. */
  datatype Db = Db(content: Bytes, nodeCount: nat, recordLength: nat, ipVersion: nat, dataSectionSize: nat)

  function DataStart(db: Db): nat { db.nodeCount * db.recordLength + SEPARATOR }

  predicate Opened(db: Db) {
    && DataStart(db) <= |db.content| < 0x1_0000_0000 && db.dataSectionSize == |db.content| - DataStart(db)
    && db.nodeCount < 0x1_0000_0000 && (db.ipVersion == 4 || db.ipVersion == 6)
  }

  function Depth(db: Db): nat { if db.ipVersion == 4 then 32 else 128 }

  // ---------------------------------------------------------------- records

  predicate KnownLength(n: nat) { n == 6 || n == 7 || n == 8 }

  /** The left and right record getters of record_info_for_database, on the bytes of one node. */
  function LeftRecord(node: Bytes): nat
    requires KnownLength(|node|)
  {
    if |node| == 6 then Uint24(node[..3])
    else if |node| == 7 then Uint24(node[..3]) + node[3] as nat / 16 * 0x100_0000
    else Uint32(node[..4])
  }

  function RightRecord(node: Bytes): nat
    requires KnownLength(|node|)
  {
    if |node| == 6 then Uint24(node[3..])
    else if |node| == 7 then Uint32(node[3..]) % 0x1000_0000
    else Uint32(node[4..])
  }

  /** The record does not lie in the tree and its separator. */
  predicate OutOfTree(db: Db, node: nat) { node * db.recordLength + db.recordLength > DataStart(db) }

  function RecordAt(db: Db, node: nat, right: bool): nat
    requires Opened(db) && KnownLength(db.recordLength) && !OutOfTree(db, node)
  {
    var at := node * db.recordLength;
    var bytes := db.content[at..at + db.recordLength];
    if right then RightRecord(bytes) else LeftRecord(bytes)
  }

  datatype RecordType = SearchNode | Empty | Data | Invalid

  function TypeOf(db: Db, record: nat): RecordType {
    if record == 0 then Invalid
    else if record < db.nodeCount then SearchNode
    else if record == db.nodeCount then Empty
    else if record - db.nodeCount < db.dataSectionSize then Data
    else Invalid
  }

  /** data_section_offset_for_record, in unsigned 32-bit arithmetic. */
  function OffsetFor(db: Db, record: nat): nat { (record - db.nodeCount - SEPARATOR) % 0x1_0000_0000 }

  // ---------------------------------------------------------------- what the format packs

  datatype TreeNode = TreeNode(left: nat, right: nat)

  function Limit(length: nat): nat { if length == 6 then 0x100_0000 else if length == 7 then 0x1000_0000 else 0x1_0000_0000 }

  function Low3(r: nat): Bytes { [r / 65536 % 256, r / 256 % 256, r % 256] }

  /** A node's two records: 24, 28 or 32 bits each; with 28 bits the middle byte holds the high nibbles, left first. */
  function Pack(length: nat, n: TreeNode): (bytes: Bytes)
    requires KnownLength(length) && n.left < Limit(length) && n.right < Limit(length)
    ensures |bytes| == length
  {
    if length == 6 then Low3(n.left) + Low3(n.right)
    else if length == 7 then Low3(n.left) + [n.left / 0x100_0000 * 16 + n.right / 0x100_0000] + Low3(n.right)
    else [n.left / 0x100_0000] + Low3(n.left) + [n.right / 0x100_0000] + Low3(n.right)
  }

  lemma Low3Read(r: nat)
    ensures Uint24(Low3(r)) == r % 0x100_0000
  {
    assert r == r / 256 * 256 + r % 256 && r / 256 == r / 65536 * 256 + r / 256 % 256;
    assert r / 65536 == r / 0x100_0000 * 256 + r / 65536 % 256;
  }

  lemma Nibbles(a: nat, b: nat)
    requires a < 16 && b < 16
    ensures (a * 16 + b) / 16 == a && (a * 16 + b) % 16 == b
  {
  }

  lemma Pack24Read(n: TreeNode)
    requires n.left < Limit(6) && n.right < Limit(6)
    ensures LeftRecord(Pack(6, n)) == n.left && RightRecord(Pack(6, n)) == n.right
  {
    var p := Pack(6, n);
    assert p[..3] == Low3(n.left) && p[3..] == Low3(n.right);
    hide Low3, Uint24;
    Low3Read(n.left);
    Low3Read(n.right);
  }

  /** The byte in the middle holds the high half-bytes of both records. */
  lemma Pack28Parts(n: TreeNode)
    requires n.left < Limit(7) && n.right < Limit(7)
    ensures var p := Pack(7, n);
      |p| == 7 && p[..3] == Low3(n.left) && p[3..] == [p[3]] + Low3(n.right)
      && p[3] as nat == n.left / 0x100_0000 * 16 + n.right / 0x100_0000
  {
  }

  lemma Pack28Read(n: TreeNode)
    requires n.left < Limit(7) && n.right < Limit(7)
    ensures LeftRecord(Pack(7, n)) == n.left && RightRecord(Pack(7, n)) == n.right
  {
    Pack28Parts(n);
    var p := Pack(7, n);
    hide Low3, Uint24, Uint32, Pack;
    HighHalf(n.left, n.right, p[3]);
    Low3Read(n.left);
    Low3Read(n.right);
    Uint32Split(p[3], Low3(n.right));
  }

  /** What the middle byte contributes to either record. */
  lemma HighHalf(left: nat, right: nat, middle: nat)
    requires left < 0x1000_0000 && right < 0x1000_0000 && middle == left / 0x100_0000 * 16 + right / 0x100_0000
    ensures left % 0x100_0000 + middle / 16 * 0x100_0000 == left
    ensures (middle * 0x100_0000 + right % 0x100_0000) % 0x1000_0000 == right
  {
    Nibbles(left / 0x100_0000, right / 0x100_0000);
    assert middle * 0x100_0000 + right % 0x100_0000 == left / 0x100_0000 * 0x1000_0000 + right;
  }

  lemma Pack32Read(n: TreeNode)
    requires n.left < Limit(8) && n.right < Limit(8)
    ensures LeftRecord(Pack(8, n)) == n.left && RightRecord(Pack(8, n)) == n.right
  {
    var p := Pack(8, n);
    assert p[..4] == [p[0]] + Low3(n.left) && p[4..] == [p[4]] + Low3(n.right);
    hide Low3, Uint24, Uint32;
    Low3Read(n.left);
    Low3Read(n.right);
    Uint32Split(p[0], Low3(n.left));
    Uint32Split(p[4], Low3(n.right));
  }

  /** The getters read back what was packed, for every record of the given size. */
  lemma PackRead(length: nat, n: TreeNode)
    requires KnownLength(length) && n.left < Limit(length) && n.right < Limit(length)
    ensures LeftRecord(Pack(length, n)) == n.left && RightRecord(Pack(length, n)) == n.right
  {
    hide Pack, LeftRecord, RightRecord;
    if length == 6 { Pack24Read(n); } else if length == 7 { Pack28Read(n); } else { Pack32Read(n); }
  }

  lemma Uint32Split(high: Byte, low: Bytes)
    requires |low| == 3
    ensures Uint32([high] + low) == high as nat * 0x100_0000 + Uint24(low)
  {
  }

  predicate TreeFits(nodes: seq<TreeNode>, length: nat) {
    KnownLength(length) && forall i :: 0 <= i < |nodes| ==> nodes[i].left < Limit(length) && nodes[i].right < Limit(length)
  }

  /** The file's tree section holds these nodes. */
  predicate HoldsTree(db: Db, nodes: seq<TreeNode>) {
    && TreeFits(nodes, db.recordLength) && |nodes| == db.nodeCount
    && forall i :: 0 <= i < |nodes| ==>
        At(db.content, i * db.recordLength, Pack(db.recordLength, nodes[i]))
  }

  lemma InTree(db: Db, node: nat)
    requires node < db.nodeCount
    ensures !OutOfTree(db, node) && (node + 1) * db.recordLength <= db.nodeCount * db.recordLength
  {
    assert (node + 1) * db.recordLength <= db.nodeCount * db.recordLength;
  }

  lemma RecordOfTree(db: Db, nodes: seq<TreeNode>, node: nat, right: bool)
    requires Opened(db) && HoldsTree(db, nodes) && node < |nodes|
    ensures !OutOfTree(db, node) && RecordAt(db, node, right) == if right then nodes[node].right else nodes[node].left
  {
    InTree(db, node);
    PackRead(db.recordLength, nodes[node]);
    assert At(db.content, node * db.recordLength, Pack(db.recordLength, nodes[node]));
  }

  // ---------------------------------------------------------------- the walk

  /** What a walk over address bits finds; `used` counts the bits it took. */
  datatype Outcome = CorruptTree | Leaf(found: bool, offset: nat, used: nat)

  function Descend(db: Db, node: nat, bits: seq<bool>, used: nat): Outcome
    requires Opened(db) && KnownLength(db.recordLength)
    decreases |bits|
  {
    if bits == [] || OutOfTree(db, node) then CorruptTree
    else
      var record := RecordAt(db, node, bits[0]);
      match TypeOf(db, record)
      case Invalid => CorruptTree
      case SearchNode => Descend(db, record, bits[1..], used + 1)
      case other => Leaf(other == Data, OffsetFor(db, record), used + 1)
  }

  /** The record that ends a walk through the trie: the first that is no node; 0 if there is none. */
  function EndRecord(nodes: seq<TreeNode>, node: nat, bits: seq<bool>): (record: nat)
    requires node < |nodes|
    ensures record == 0 || record >= |nodes|
    decreases |bits|
  {
    if bits == [] then 0
    else
      var record := if bits[0] then nodes[node].right else nodes[node].left;
      if 0 < record < |nodes| then EndRecord(nodes, record, bits[1..]) else record
  }

  datatype Answer = DataAt(offset: nat) | NoData | Malformed

  /**
    What the format says of the record at the end: the number of nodes stands for no data, and a greater record,
    less the number of nodes and the 16 bytes of the separator, is an offset into the data section. No record of a
    tree leads back to the root.
  */
  function Meaning(nodeCount: nat, dataSize: nat, record: nat): Answer {
    if record == nodeCount then NoData
    else if nodeCount + SEPARATOR <= record < nodeCount + SEPARATOR + dataSize then DataAt(record - nodeCount - SEPARATOR)
    else Malformed
  }

  function TrieLookup(nodes: seq<TreeNode>, dataSize: nat, node: nat, bits: seq<bool>): Answer
    requires node < |nodes|
  {
    Meaning(|nodes|, dataSize, EndRecord(nodes, node, bits))
  }

  /** The reader says of an address what the format says. */
  predicate Agree(w: Outcome, answer: Answer) {
    match answer
    case DataAt(offset) => w.Leaf? && w.found && w.offset == offset
    case NoData => w.Leaf? && !w.found
    case Malformed => w == CorruptTree
  }

  /**
    A record that the reader compares with the wrong end of the file: it forgets the separator, and so takes a
    record into the separator for data and the last 16 offsets of the data section for outside.
  */
  predicate Misjudged(nodeCount: nat, dataSize: nat, record: nat) {
    || (nodeCount < record < nodeCount + SEPARATOR && record < nodeCount + dataSize)
    || (nodeCount + SEPARATOR <= record && nodeCount + dataSize <= record < nodeCount + SEPARATOR + dataSize)
  }

  /** What the reader makes of the record that ends the walk. */
  lemma {:induction false} DescentEnds(db: Db, nodes: seq<TreeNode>, node: nat, bits: seq<bool>, used: nat)
    requires Opened(db) && HoldsTree(db, nodes) && node < |nodes|
    ensures var w, record := Descend(db, node, bits, used), EndRecord(nodes, node, bits);
      match TypeOf(db, record)
      case Invalid => w == CorruptTree
      case SearchNode => false
      case other => w.Leaf? && w.found == (other == Data) && w.offset == OffsetFor(db, record)
    decreases |bits|
  {
    if bits == [] {
    } else {
      RecordOfTree(db, nodes, node, bits[0]);
      var record := RecordAt(db, node, bits[0]);
      if 0 < record < |nodes| { DescentEnds(db, nodes, record, bits[1..], used + 1); }
    }
  }

  lemma {:induction false} EndBound(nodes: seq<TreeNode>, length: nat, node: nat, bits: seq<bool>)
    requires TreeFits(nodes, length) && node < |nodes|
    ensures EndRecord(nodes, node, bits) < 0x1_0000_0000
    decreases |bits|
  {
    if bits == [] {
    } else {
      var record := if bits[0] then nodes[node].right else nodes[node].left;
      if 0 < record < |nodes| { EndBound(nodes, length, record, bits[1..]); }
    }
  }

  /** On packed nodes the walk says what the format says, unless it ends at a record that the reader misjudges. */
  lemma DescentIsTrieLookup(db: Db, nodes: seq<TreeNode>, node: nat, bits: seq<bool>, used: nat)
    requires Opened(db) && HoldsTree(db, nodes) && node < |nodes|
    ensures Agree(Descend(db, node, bits, used), TrieLookup(nodes, db.dataSectionSize, node, bits)) <==>
      !Misjudged(|nodes|, db.dataSectionSize, EndRecord(nodes, node, bits))
  {
    DescentEnds(db, nodes, node, bits, used);
    EndBound(nodes, db.recordLength, node, bits);
    var record := EndRecord(nodes, node, bits);
    hide Descend, EndRecord, HoldsTree, DataStart, KnownLength, OffsetFor;
    if record >= |nodes| + SEPARATOR { OffsetExact(db, record); }
  }

  lemma OffsetExact(db: Db, record: nat)
    requires db.nodeCount + SEPARATOR <= record < 0x1_0000_0000
    ensures OffsetFor(db, record) == record - db.nodeCount - SEPARATOR
  {
  }

  /** A record three bytes into the separator is reported as data, at an offset far outside. */
  lemma SeparatorFound(db: Db, nodes: seq<TreeNode>, bits: seq<bool>, used: nat)
    requires Opened(db) && HoldsTree(db, nodes) && nodes != [] && bits != [] && !bits[0]
    requires nodes[0].left == |nodes| + 3 && db.dataSectionSize > 3
    ensures TrieLookup(nodes, db.dataSectionSize, 0, bits) == Malformed
    ensures Descend(db, 0, bits, used) == Leaf(true, 0xFFFF_FFF3, used + 1)
  {
    RecordOfTree(db, nodes, 0, false);
  }

  /** A record for the last byte of the data section is reported as a corrupt tree. */
  lemma LastByteRefused(db: Db, nodes: seq<TreeNode>, bits: seq<bool>, used: nat)
    requires Opened(db) && HoldsTree(db, nodes) && nodes != [] && bits != [] && !bits[0]
    requires db.dataSectionSize > 0 && nodes[0].left == |nodes| + SEPARATOR + db.dataSectionSize - 1
    ensures TrieLookup(nodes, db.dataSectionSize, 0, bits) == DataAt(db.dataSectionSize - 1)
    ensures Descend(db, 0, bits, used) == CorruptTree
  {
    RecordOfTree(db, nodes, 0, false);
  }

  lemma {:induction false} DescentUses(db: Db, node: nat, bits: seq<bool>, used: nat)
    requires Opened(db) && KnownLength(db.recordLength)
    ensures var w := Descend(db, node, bits, used); w.Leaf? ==> used < w.used <= used + |bits|
    decreases |bits|
  {
    if bits != [] && !OutOfTree(db, node) {
      DescentUses(db, RecordAt(db, node, bits[0]), bits[1..], used + 1);
    }
  }

  /** Two addresses that agree on the bits of the result's netmask get the same result. */
  lemma {:induction false} NetmaskDecides(db: Db, node: nat, bits: seq<bool>, other: seq<bool>, used: nat)
    requires Opened(db) && KnownLength(db.recordLength) && Descend(db, node, bits, used).Leaf?
    requires var n := Descend(db, node, bits, used).used - used; 0 <= n <= |other| && n <= |bits| && other[..n] == bits[..n]
    ensures Descend(db, node, other, used) == Descend(db, node, bits, used)
    decreases |bits|
  {
    DescentUses(db, node, bits, used);
    var n := Descend(db, node, bits, used).used - used;
    assert other[..n][0] == other[0] && bits[..n][0] == bits[0];
    var record := RecordAt(db, node, bits[0]);
    if TypeOf(db, record) == SearchNode {
      DescentUses(db, record, bits[1..], used + 1);
      assert other[1..][..n - 1] == other[..n][1..] == bits[..n][1..] == bits[1..][..n - 1];
      NetmaskDecides(db, record, bits[1..], other[1..], used + 1);
    }
  }

  // ---------------------------------------------------------------- addresses

  /** `address[b >> 3] & (1U << (~b & 7))`: bit b, the most significant first. */
  predicate BitOf(address: Bytes, b: nat)
    requires b / 8 < |address|
  {
    address[b / 8] as nat / Power2(7 - b % 8) % 2 == 1
  }

  function Power2(k: nat): (p: nat)
    ensures p > 0
  {
    if k == 0 then 1 else 2 * Power2(k - 1)
  }

  function Bits(address: Bytes, from: nat): (bits: seq<bool>)
    requires from <= 8 * |address|
    ensures |bits| == 8 * |address| - from
    decreases 8 * |address| - from
  {
    if from == 8 * |address| then [] else [BitOf(address, from)] + Bits(address, from + 1)
  }

  lemma {:induction false} BitsAt(address: Bytes, from: nat, i: nat)
    requires from + i < 8 * |address|
    ensures Bits(address, from)[i] == BitOf(address, from + i)
    decreases i
  {
    if i == 0 {
    } else {
      BitsAt(address, from + 1, i - 1);
    }
  }

  // ---------------------------------------------------------------- addresses as numbers

  lemma Multiple(d: int, k: int)
    requires d > 0
    ensures k > 0 ==> d * k >= d
    ensures k < 0 ==> d * k <= -d
  {
  }

  lemma Quotient(x: nat, d: nat, q: nat, r: nat)
    requires x == d * q + r && r < d
    ensures x / d == q && x % d == r
  {
    assert d * (x / d - q) == r - x % d;
    Multiple(d, x / d - q);
  }

  lemma Regrouped(a: nat, b: nat, p: nat, s: nat, r: nat)
    requires r < a && s < b
    ensures a * (b * p + s) + r == (a * b) * p + (a * s + r)
    ensures a * s + r < a * b
  {
    assert a * (s + 1) <= a * b;
    assert a * (s + 1) == a * s + a;
  }

  lemma Recombined(x: nat, a: nat, b: nat, q: nat, r: nat, p: nat, s: nat)
    requires x == a * q + r && q == b * p + s && r < a && s < b
    ensures a * b > 0 && x / (a * b) == p
  {
    Regrouped(a, b, p, s, r);
    Quotient(x, a * b, p, a * s + r);
  }

  lemma DivideTwice(x: nat, a: nat, b: nat)
    requires a > 0 && b > 0
    ensures a * b > 0 && x / (a * b) == x / a / b
  {
    Recombined(x, a, b, x / a, x % a, x / a / b, x / a % b);
  }

  lemma {:induction false} Power2Sum(a: nat, b: nat)
    ensures Power2(a + b) == Power2(a) * Power2(b)
    decreases a
  {
    if a == 0 {
    } else {
      Power2Sum(a - 1, b);
      assert 2 * (Power2(a - 1) * Power2(b)) == (2 * Power2(a - 1)) * Power2(b);
    }
  }

  /** A bit of a byte, below any number of whole bytes. */
  lemma BitOfLast(high: nat, low: Byte, k: nat)
    requires k < 8
    ensures (high * 256 + low as nat) / Power2(k) % 2 == low as nat / Power2(k) % 2
  {
    assert Power2(7) == 2 * Power2(6) && Power2(6) == 2 * Power2(5) && Power2(5) == 2 * Power2(4);
    assert Power2(4) == 2 * Power2(3) && Power2(3) == 2 * Power2(2) && Power2(2) == 2 * Power2(1);
    assert Power2(1) == 2 && Power2(0) == 1;
    hide Power2;
    if k == 0 { }
    else if k == 1 { LastBit(high, low, 64, 2); }
    else if k == 2 { LastBit(high, low, 32, 4); }
    else if k == 3 { LastBit(high, low, 16, 8); }
    else if k == 4 { LastBit(high, low, 8, 16); }
    else if k == 5 { LastBit(high, low, 4, 32); }
    else if k == 6 { LastBit(high, low, 2, 64); }
    else { LastBit(high, low, 1, 128); }
  }

  lemma LastBit(high: nat, low: nat, m: nat, p: nat)
    requires m * 2 * p == 256 && p > 0
    ensures (high * 256 + low) / p % 2 == low / p % 2
  {
    Evenly(high, m, p, low / p);
    assert p * (high * m * 2 + low / p) + low % p == high * 256 + low by { Grouped(high, m, p, low / p); }
    Quotient(high * 256 + low, p, high * m * 2 + low / p, low % p);
  }

  lemma Evenly(high: nat, m: nat, p: nat, c: nat)
    ensures (high * m * 2 + c) % 2 == c % 2
  {
  }

  lemma Grouped(high: nat, m: nat, p: nat, c: nat)
    ensures p * (high * m * 2 + c) == high * (m * 2 * p) + p * c
  {
  }

  /** Bit b of an address is a binary digit of the number that its bytes are, counted from the most significant one. */
  lemma {:induction false} BitOfNumber(address: Bytes, b: nat)
    requires b < 8 * |address|
    ensures BitOf(address, b) <==> BigEndian(address) / Power2(8 * |address| - 1 - b) % 2 == 1
    decreases |address|
  {
    var rest, last := address[..|address| - 1], address[|address| - 1];
    if b / 8 == |address| - 1 {
      BitOfLast(BigEndian(rest), last, 7 - b % 8);
    } else {
      var j := 8 * |rest| - 1 - b;
      BitOfNumber(rest, b);
      Power2Sum(8, j);
      assert Power2(8) == 256;
      DivideTwice(BigEndian(address), 256, Power2(j));
      assert BigEndian(address) / 256 == BigEndian(rest);
    }
  }

  lemma {:induction false} NumberBound(address: Bytes)
    ensures BigEndian(address) < Power2(8 * |address|)
    decreases |address|
  {
    if address == [] {
    } else {
      NumberBound(address[..|address| - 1]);
      Power2Sum(8, 8 * (|address| - 1));
      assert Power2(8) == 256;
    }
  }

  /** Numbers with the same leading digits are addresses with the same leading bits. */
  lemma SameLeadingBits(a: Bytes, b: Bytes, n: nat)
    requires |a| == |b| && n <= 8 * |a|
    requires BigEndian(a) / Power2(8 * |a| - n) == BigEndian(b) / Power2(8 * |a| - n)
    ensures Bits(a, 0)[..n] == Bits(b, 0)[..n]
  {
    forall i | 0 <= i < n ensures Bits(a, 0)[i] == Bits(b, 0)[i] {
      BitsAt(a, 0, i);
      BitsAt(b, 0, i);
      LeadingBit(a, n, i);
      LeadingBit(b, n, i);
    }
  }

  /** A bit among the first n is a digit of the number without its last digits. */
  lemma LeadingBit(a: Bytes, n: nat, i: nat)
    requires i < n <= 8 * |a|
    ensures BitOf(a, i) <==> BigEndian(a) / Power2(8 * |a| - n) / Power2(n - 1 - i) % 2 == 1
  {
    BitOfNumber(a, i);
    Power2Sum(8 * |a| - n, n - 1 - i);
    hide BigEndian, Power2, BitOf;
    DivideTwice(BigEndian(a), Power2(8 * |a| - n), Power2(n - 1 - i));
  }

  /** A result is good for the whole network: for every address with the same first digits, as many as the netmask says. */
  lemma NetworkDecides(db: Db, a: Bytes, b: Bytes)
    requires Opened(db) && KnownLength(db.recordLength) && |a| == |b| && Descend(db, 0, Bits(a, 0), 0).Leaf?
    requires var n := Descend(db, 0, Bits(a, 0), 0).used;
      n <= 8 * |a| ==> BigEndian(a) / Power2(8 * |a| - n) == BigEndian(b) / Power2(8 * |a| - n)
    ensures Descend(db, 0, Bits(b, 0), 0) == Descend(db, 0, Bits(a, 0), 0)
  {
    hide Descend, Bits, BigEndian, Power2, KnownLength, DataStart, OutOfTree, RecordAt;
    DescentUses(db, 0, Bits(a, 0), 0);
    SameLeadingBits(a, b, Descend(db, 0, Bits(a, 0), 0).used);
    NetmaskDecides(db, 0, Bits(a, 0), Bits(b, 0), 0);
  }

  /** The record for a number below 2^depth: the upper half of the numbers goes right, the lower half left. */
  function Route(nodes: seq<TreeNode>, node: nat, value: nat, depth: nat): nat
    requires node < |nodes|
    decreases depth
  {
    if depth == 0 then 0
    else
      var half := Power2(depth - 1);
      var record := if value >= half then nodes[node].right else nodes[node].left;
      if 0 < record < |nodes| then Route(nodes, record, if value >= half then value - half else value, depth - 1) else record
  }

  lemma Doubled(p: nat, q: nat)
    ensures p * (2 * q) == 2 * p * q && p * (2 * q + 1) == 2 * p * q + p
  {
  }

  lemma Halved(x: nat, p: nat, q: nat, r: nat)
    requires x == 2 * p * q + r && r < 2 * p
    ensures if r >= p then x / p == 2 * q + 1 && x % p == r - p else x / p == 2 * q && x % p == r
  {
    Doubled(p, q);
    if r >= p { Quotient(x, p, 2 * q + 1, r - p); } else { Quotient(x, p, 2 * q, r); }
  }

  lemma Parity(q: nat)
    ensures (2 * q + 1) % 2 == 1 && (2 * q) % 2 == 0
  {
  }

  /** Halving the divisor makes one digit more. */
  lemma OneMoreDigit(x: nat, p: nat)
    requires p > 0
    ensures x / p % 2 == (if x % (2 * p) >= p then 1 else 0)
    ensures x % p == x % (2 * p) - (if x % (2 * p) >= p then p else 0)
  {
    Halved(x, p, x / (2 * p), x % (2 * p));
    Parity(x / (2 * p));
  }

  /** The leading digit of what is left of a number, and what is left after it. */
  lemma LeadingDigit(x: nat, k: nat)
    ensures x / Power2(k) % 2 == 1 <==> x % Power2(k + 1) >= Power2(k)
    ensures x % Power2(k) == x % Power2(k + 1) - if x / Power2(k) % 2 == 1 then Power2(k) else 0
  {
    assert Power2(k + 1) == 2 * Power2(k);
    hide Power2;
    OneMoreDigit(x, Power2(k));
  }

  lemma {:induction false} RouteFrom(nodes: seq<TreeNode>, node: nat, address: Bytes, from: nat)
    requires node < |nodes| && from <= 8 * |address|
    ensures EndRecord(nodes, node, Bits(address, from)) ==
      Route(nodes, node, BigEndian(address) % Power2(8 * |address| - from), 8 * |address| - from)
    decreases 8 * |address| - from
  {
    if from == 8 * |address| {
    } else {
      var d := 8 * |address| - from;
      BitOfNumber(address, from);
      var record := if BitOf(address, from) then nodes[node].right else nodes[node].left;
      EndFrom(nodes, node, address, from);
      RouteStep(nodes, node, BigEndian(address), d - 1);
      hide BigEndian, Power2, BitOf, Bits, EndRecord, Route;
      if 0 < record < |nodes| { RouteFrom(nodes, record, address, from + 1); }
    }
  }

  lemma EndFrom(nodes: seq<TreeNode>, node: nat, address: Bytes, from: nat)
    requires node < |nodes| && from < 8 * |address|
    ensures var record := if BitOf(address, from) then nodes[node].right else nodes[node].left;
      EndRecord(nodes, node, Bits(address, from)) ==
      if 0 < record < |nodes| then EndRecord(nodes, record, Bits(address, from + 1)) else record
  {
    assert Bits(address, from)[1..] == Bits(address, from + 1);
    hide BitOf;
  }

  lemma RouteStep(nodes: seq<TreeNode>, node: nat, x: nat, k: nat)
    requires node < |nodes|
    ensures var record := if x / Power2(k) % 2 == 1 then nodes[node].right else nodes[node].left;
      Route(nodes, node, x % Power2(k + 1), k + 1) ==
      if 0 < record < |nodes| then Route(nodes, record, x % Power2(k), k) else record
  {
    LeadingDigit(x, k);
    hide Power2;
  }

  /** Going along the bits of an address is halving the numbers: its first bit says in which half it is. */
  lemma RouteIsWalk(nodes: seq<TreeNode>, address: Bytes)
    requires nodes != []
    ensures EndRecord(nodes, 0, Bits(address, 0)) == Route(nodes, 0, BigEndian(address), 8 * |address|)
  {
    RouteFrom(nodes, 0, address, 0);
    NumberBound(address);
    Quotient(BigEndian(address), Power2(8 * |address|), 0, BigEndian(address));
  }

  /** The lookup of a number: the walk says what the format says of the record in whose part of the numbers it is. */
  lemma LookupByNumber(db: Db, nodes: seq<TreeNode>, address: Bytes)
    requires Opened(db) && HoldsTree(db, nodes) && nodes != []
    ensures var record := Route(nodes, 0, BigEndian(address), 8 * |address|);
      Agree(Descend(db, 0, Bits(address, 0), 0), Meaning(|nodes|, db.dataSectionSize, record)) <==>
      !Misjudged(|nodes|, db.dataSectionSize, record)
  {
    DescentIsTrieLookup(db, nodes, 0, Bits(address, 0), 0);
    RouteIsWalk(nodes, address);
    hide Descend, EndRecord, Route, HoldsTree, Opened, Meaning, Misjudged, Agree;
  }

  /** With a single node the upper half of all addresses goes right. */
  lemma OneNode(node: TreeNode, address: Bytes)
    requires address != []
    ensures EndRecord([node], 0, Bits(address, 0)) ==
      if BigEndian(address) >= Power2(8 * |address| - 1) then node.right else node.left
  {
    RouteIsWalk([node], address);
    hide EndRecord, Bits, BigEndian, Power2;
  }

  /** An IPv4 address as MMDB_lookup_sockaddr looks it up in an IPv6 database: behind twelve zero bytes. */
  predicate IsMapped(address: Bytes) { |address| == 16 && forall i :: 0 <= i < 12 ==> address[i] == 0 }

  datatype Status = Success | CorruptSearchTree | UnknownFormat

  datatype Result = Result(found: bool, offset: nat, netmask: nat)

  datatype StartOutcome = StartFails | StartNode(value: nat, netmask: nat)

  /** Going left at most `steps` times, the last of 96; a record that is no search node ends it early. */
  function Start(db: Db, value: nat, steps: nat): (r: StartOutcome)
    requires Opened(db) && KnownLength(db.recordLength) && steps <= 96
    ensures r.StartNode? ==> r.netmask <= 96
    decreases steps
  {
    if steps == 0 then StartNode(value, 96)
    else if OutOfTree(db, value) then StartFails
    else
      var next := RecordAt(db, value, false);
      if next >= db.nodeCount then StartNode(next, 96 - steps) else Start(db, next, steps - 1)
  }

  /** No record on the left path is 0, as far as the path goes. */
  predicate LeftPathNonZero(db: Db, value: nat, steps: nat)
    requires Opened(db) && KnownLength(db.recordLength)
    decreases steps
  {
    steps == 0 || OutOfTree(db, value) ||
    var next := RecordAt(db, value, false);
    next != 0 && (next >= db.nodeCount || LeftPathNonZero(db, next, steps - 1))
  }

  function Zeros(n: nat): seq<bool> { seq(n, _ => false) }

  /** What a walk makes of a record it has come to, with the bits after it still to go. */
  function Onwards(db: Db, record: nat, rest: seq<bool>, used: nat): Outcome
    requires Opened(db) && KnownLength(db.recordLength)
  {
    match TypeOf(db, record)
    case Invalid => CorruptTree
    case SearchNode => Descend(db, record, rest, used)
    case other => Leaf(other == Data, OffsetFor(db, record), used)
  }

  /** The same result, the length of the matched prefix aside. */
  predicate SameFinding(a: Outcome, b: Outcome) {
    a.Leaf? == b.Leaf? && (a.Leaf? ==> a.found == b.found && a.offset == b.offset)
  }

  /** From the start node on, a walk finds what the walk from the root finds along 96 zero bits. */
  lemma {:induction false} StartAgrees(db: Db, value: nat, steps: nat, rest: seq<bool>, used: nat)
    requires Opened(db) && KnownLength(db.recordLength) && 0 < steps <= 96 && LeftPathNonZero(db, value, steps)
    ensures var w := Descend(db, value, Zeros(steps) + rest, used);
      match Start(db, value, steps)
      case StartFails => w == CorruptTree
      case StartNode(v, m) =>
        && SameFinding(w, Onwards(db, v, rest, used + steps))
        && (TypeOf(db, v) != SearchNode && w.Leaf? ==> w.used == used + steps + m - 95 <= used + steps)
        && (TypeOf(db, v) == SearchNode ==> m == 96 && w == Descend(db, v, rest, used + steps))
        && (TypeOf(db, v) == SearchNode && w.Leaf? ==> w.used > used + steps)
    decreases steps
  {
    var bits := Zeros(steps) + rest;
    assert bits[1..] == Zeros(steps - 1) + rest;
    if !OutOfTree(db, value) {
      var next := RecordAt(db, value, false);
      if next < db.nodeCount {
        if steps == 1 {
          assert Zeros(0) + rest == rest;
          DescentUses(db, next, rest, used + 1);
        } else {
          StartAgrees(db, next, steps - 1, rest, used + 1);
        }
      }
    }
  }

  lemma {:induction false} ZeroBits(address: Bytes, from: nat, to: nat)
    requires from <= to <= 8 * |address| && forall k :: from <= k < to ==> !BitOf(address, k)
    ensures Bits(address, from) == Zeros(to - from) + Bits(address, to)
    decreases 8 * |address| - from
  {
    if from == to {
    } else {
      ZeroBits(address, from + 1, to);
      assert Zeros(to - from) == [false] + Zeros(to - from - 1);
    }
  }

  lemma {:induction false} ZeroByte(k: nat)
    ensures 0 / Power2(k) % 2 == 0
  {
  }

  lemma MappedBits(address: Bytes)
    requires IsMapped(address)
    ensures Bits(address, 0) == Zeros(96) + Bits(address, 96)
  {
    forall k | 0 <= k < 96 ensures !BitOf(address, k) {
      assert address[k / 8] == 0;
      ZeroByte(7 - k % 8);
    }
    ZeroBits(address, 0, 96);
  }

  /** What the search returns for what a walk finds. */
  predicate Reports(status: Status, result: Result, w: Outcome) {
    match w
    case CorruptTree => status == CorruptSearchTree
    case Leaf(found, offset, used) => status == Success && result == Result(found, offset, used)
  }

  /** As Reports, the netmask aside. */
  predicate ReportsFinding(status: Status, result: Result, w: Outcome) {
    match w
    case CorruptTree => status == CorruptSearchTree
    case Leaf(found, offset, _) => status == Success && result.found == found && result.offset == offset
  }

  class Reader {
    const db: Db
    var startValue: nat
    var startNetmask: nat

    constructor (db: Db)
      requires Opened(db)
      ensures this.db == db && Valid()
    {
      this.db := db;
      startValue, startNetmask := 0, 0;
    }

    /** The remembered start node, if there is one, is where the left path leads. */
    predicate Valid()
      reads this
    {
      && Opened(db)
      && (startValue != 0 ==> KnownLength(db.recordLength) && Start(db, 0, 96) == StartNode(startValue, startNetmask))
    }

    method FindIpv4StartNode() returns (status: Status)
      requires Valid() && KnownLength(db.recordLength)
      modifies this
      ensures Valid()
      ensures match Start(db, 0, 96)
        case StartFails => status == CorruptSearchTree
        case StartNode(v, m) => status == Success && v == startValue && m == startNetmask
    {
      hide RecordAt, OutOfTree, DataStart;
      if startValue != 0 { return Success; }
      var value: nat, netmask: nat := 0, 0;
      while netmask < 96
        invariant netmask <= 96 && Start(db, value, 96 - netmask) == Start(db, 0, 96) && startValue == 0
      {
        if OutOfTree(db, value) { return CorruptSearchTree; }
        value := RecordAt(db, value, false);
        // the path leaves the tree early
        if value >= db.nodeCount { break; }
        netmask := netmask + 1;
      }
      startValue, startNetmask := value, netmask;
      return Success;
    }

    /**
      find_address_in_search_tree. The walk from the root is what it computes; an IPv4 lookup in an IPv6
      tree finds the same through the start node, if no record on the way there is 0. Its netmask is that of the
      walk exactly if the walk gets past the start node; else it counts from the wrong end.
    */
    method FindAddress(address: Bytes, isIpv4: bool) returns (status: Status, result: Result)
      requires Valid() && 8 * |address| == Depth(db)
      modifies this
      ensures Valid()
      ensures db.recordLength !in {6, 7, 8} <==> status == UnknownFormat
      ensures KnownLength(db.recordLength) && !(db.ipVersion == 6 && isIpv4) ==>
        Reports(status, result, Descend(db, 0, Bits(address, 0), 0))
      ensures KnownLength(db.recordLength) && db.ipVersion == 6 && isIpv4 && IsMapped(address) && LeftPathNonZero(db, 0, 96) ==>
        var w := Descend(db, 0, Bits(address, 0), 0);
        && ReportsFinding(status, result, w)
        && (w.Leaf? ==> (result.netmask == w.used <==> w.used > 96))
        && (w.Leaf? && w.used <= 96 ==> result.netmask == 129 - w.used)
    {
      result := Result(false, 0, 0);
      if !KnownLength(db.recordLength) { return UnknownFormat, result; }
      if db.ipVersion == 6 && isIpv4 {
        status, result := FindIpv4(address);
      } else {
        status, result := Search(address, 0, 0, result);
      }
    }

    /** The loop over address bits, from a search node and a bit on. */
    method Search(address: Bytes, start: nat, from: nat, before: Result) returns (status: Status, result: Result)
      requires Valid() && KnownLength(db.recordLength) && 8 * |address| == Depth(db) && from <= Depth(db)
      ensures Reports(status, result, Descend(db, start, Bits(address, from), from))
    {
      var value := start;
      result := before;
      for bit := from to Depth(db)
        invariant Descend(db, value, Bits(address, bit), bit) == Descend(db, start, Bits(address, from), from)
      {
        if OutOfTree(db, value) { return CorruptSearchTree, result; }
        value := RecordAt(db, value, BitOf(address, bit));
        var kind := TypeOf(db, value);
        if kind == Invalid { return CorruptSearchTree, result; }
        if kind != SearchNode {
          return Success, Result(kind == Data, OffsetFor(db, value), bit + 1);
        }
      }
      return CorruptSearchTree, result;
    }

    method FindIpv4(address: Bytes) returns (status: Status, result: Result)
      requires Valid() && KnownLength(db.recordLength) && |address| == 16 && db.ipVersion == 6
      modifies this
      ensures Valid() && status != UnknownFormat
      ensures IsMapped(address) && LeftPathNonZero(db, 0, 96) ==>
        var w := Descend(db, 0, Bits(address, 0), 0);
        && ReportsFinding(status, result, w)
        && (w.Leaf? ==> (result.netmask == w.used <==> w.used > 96))
        && (w.Leaf? && w.used <= 96 ==> result.netmask == 129 - w.used)
    {
      hide Descend, Start, RecordAt, OffsetFor, LeftPathNonZero, Bits, IsMapped, DataStart;
      result := Result(false, 0, 0);
      if IsMapped(address) && LeftPathNonZero(db, 0, 96) {
        MappedBits(address);
        StartAgrees(db, 0, 96, Bits(address, 96), 0);
      }
      status := FindIpv4StartNode();
      if status != Success { return; }
      var kind := TypeOf(db, startValue);
      if kind == Invalid { return CorruptSearchTree, result; }
      if kind != SearchNode {
        // the left path ends above the IPv4 part
        return Success, Result(kind == Data, OffsetFor(db, startValue), Depth(db) - startNetmask);
      }
      status, result := Search(address, startValue, startNetmask, result);
    }
  }

  /** A tree of one node whose left record says that there is no data: the cached walk claims 128 bits of netmask for one. */
  method EarlyLeaf() returns (db: Db, result: Result)
    ensures Opened(db) && db.ipVersion == 6 && db.recordLength == 6 && result == Result(false, result.offset, 128)
    ensures var w := Descend(db, 0, Bits(seq(16, _ => 0), 0), 0); w.Leaf? && !w.found && w.used == 1
  {
    var address: Bytes := seq(16, _ => 0);
    db := Db([0, 0, 1, 0, 0, 1] + seq(16, _ => 0), 1, 6, 6, 0);
    assert db.content[0..6][..3] == [0, 0, 1];
    assert RecordAt(db, 0, false) == 1 && TypeOf(db, 1) == Empty;
    MappedBits(address);
    assert Bits(address, 0)[0] == Zeros(96)[0] == false;
    var reader := new Reader(db);
    var status;
    status, result := reader.FindAddress(address, true);
  }
}
