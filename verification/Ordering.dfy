/**
  The sort orders of the connection list: what each comparator of Source/ConnectionList.cpp compares, and
  the proof that every one of them is a strict weak order, given here as an integer rank.
*/
module Ordering {
  import opened Connections

  /** What the resolver knows about an address; all empty until it is resolved. */
  datatype HostInfo = HostInfo(hostname: string, country: nat, asn: nat)

  /** Everything a row of the list shows or is sorted by. */
  datatype World = World(conns: Table, hosts: map<Address, HostInfo>, services: map<Port, string>)

  datatype SortKey =
    | ByNone | ByProto | ByProtoState
    | BySrcAddress | BySrcHostname | BySrcAsn | BySrcCountry | BySrcPort | BySrcService
    | ByDstAddress | ByDstHostname | ByDstAsn | ByDstCountry | ByDstPort | ByDstService
    | ByRxPackets | ByTxPackets | ByRxBytes | ByTxBytes | ByRxSpeed | ByTxSpeed

  datatype SortMode = SortMode(key: SortKey, ascending: bool)

  function HostOf(w: World, a: Address): HostInfo {
    if a in w.hosts then w.hosts[a] else HostInfo("", 0, 0)
  }

  function ServiceOf(w: World, p: Port): string {
    if p in w.services then w.services[p] else ""
  }

  function DataOf(w: World, c: Connection): ConnectionData {
    if c in w.conns then w.conns[c] else ConnectionData(0, NO_TRAFFIC)
  }

  function TypeIndex(kind: ConnectionType): int {
    match kind
    case UDP4 => 0
    case UDP6 => 1
    case TCP4 => 2
    case TCP6 => 3
  }

  function FamilyIndex(family: AddressFamily): int { if family == IP4 then 0 else 1 }
  function ProtocolIndex(protocol: Protocol): int { if protocol == UDP then 0 else 1 }

  // ---------------------------------------------------------------- comparators

  /** Lexicographic order, as KString::compare has it on characters. */
  predicate LexLess(a: seq<int>, b: seq<int>) {
    if b == [] then false
    else if a == [] then true
    else a[0] < b[0] || (a[0] == b[0] && LexLess(a[1..], b[1..]))
  }

  function Codes(s: string): seq<int> { seq(|s|, i requires 0 <= i < |s| => s[i] as int) }

  predicate TextLess(a: string, b: string) { LexLess(Codes(a), Codes(b)) }

  /** The texts agree up to i, and there the first one ends or has the smaller character. */
  predicate DecidesAt(a: string, b: string, i: nat) {
    i <= |a| && i < |b| && a[..i] == b[..i] && (i == |a| || a[i] < b[i])
  }

  /** One text comes before another if it is a proper prefix or has the smaller character where they first differ. */
  lemma {:induction false} TextLessMeans(a: string, b: string)
    ensures TextLess(a, b) <==> exists i: nat :: DecidesAt(a, b, i)
    decreases |a|
  {
    if a == [] || b == [] {
      if b != [] { assert DecidesAt(a, b, 0); }
    } else {
      assert Codes(a)[1..] == Codes(a[1..]) && Codes(b)[1..] == Codes(b[1..]);
      TextLessMeans(a[1..], b[1..]);
      if a[0] < b[0] { assert DecidesAt(a, b, 0); }
      if a[0] == b[0] {
        forall i: nat | DecidesAt(a[1..], b[1..], i) ensures DecidesAt(a, b, i + 1) {
          assert a[..i + 1] == [a[0]] + a[1..][..i] && b[..i + 1] == [b[0]] + b[1..][..i];
        }
      }
      forall i: nat | DecidesAt(a, b, i) && i > 0 ensures a[0] == b[0] && DecidesAt(a[1..], b[1..], i - 1) {
        assert a[0] == a[..i][0] == b[..i][0] == b[0];
        assert a[1..][..i - 1] == a[..i][1..] == b[..i][1..] == b[1..][..i - 1];
      }
    }
  }

  predicate AddressLess(a: Address, b: Address) {
    if a.family == b.family then TextLess(a.text, b.text) else FamilyIndex(a.family) < FamilyIndex(b.family)
  }

  predicate ProtoStateLess(w: World, a: Connection, b: Connection) {
    if ProtocolOf(a.kind) == ProtocolOf(b.kind) then DataOf(w, a).state < DataOf(w, b).state
    else TypeIndex(a.kind) < TypeIndex(b.kind)
  }

  predicate Ascending(w: World, key: SortKey, a: Connection, b: Connection) {
    match key
    case ByNone => false
    case ByProto => TypeIndex(a.kind) < TypeIndex(b.kind)
    case ByProtoState => ProtoStateLess(w, a, b)
    case BySrcAddress => AddressLess(SrcAddress(a), SrcAddress(b))
    case BySrcHostname => TextLess(HostOf(w, SrcAddress(a)).hostname, HostOf(w, SrcAddress(b)).hostname)
    case BySrcAsn => HostOf(w, SrcAddress(a)).asn < HostOf(w, SrcAddress(b)).asn
    case BySrcCountry => HostOf(w, SrcAddress(a)).country < HostOf(w, SrcAddress(b)).country
    case BySrcPort => a.srcPort < b.srcPort
    case BySrcService => TextLess(ServiceOf(w, SrcPort(a)), ServiceOf(w, SrcPort(b)))
    case ByDstAddress => AddressLess(DstAddress(a), DstAddress(b))
    case ByDstHostname => TextLess(HostOf(w, DstAddress(a)).hostname, HostOf(w, DstAddress(b)).hostname)
    case ByDstAsn => HostOf(w, DstAddress(a)).asn < HostOf(w, DstAddress(b)).asn
    case ByDstCountry => HostOf(w, DstAddress(a)).country < HostOf(w, DstAddress(b)).country
    case ByDstPort => a.dstPort < b.dstPort
    case ByDstService => TextLess(ServiceOf(w, DstPort(a)), ServiceOf(w, DstPort(b)))
    case ByRxPackets => DataOf(w, a).traffic.rxPackets < DataOf(w, b).traffic.rxPackets
    case ByTxPackets => DataOf(w, a).traffic.txPackets < DataOf(w, b).traffic.txPackets
    case ByRxBytes => DataOf(w, a).traffic.rxBytes < DataOf(w, b).traffic.rxBytes
    case ByTxBytes => DataOf(w, a).traffic.txBytes < DataOf(w, b).traffic.txBytes
    case ByRxSpeed => DataOf(w, a).traffic.rxSpeed < DataOf(w, b).traffic.rxSpeed
    case ByTxSpeed => DataOf(w, a).traffic.txSpeed < DataOf(w, b).traffic.txSpeed
  }

  /** m_compareFunc: each descending comparator is the ascending one with its arguments exchanged. */
  predicate Less(w: World, mode: SortMode, a: Connection, b: Connection) {
    if mode.ascending then Ascending(w, mode.key, a, b) else Ascending(w, mode.key, b, a)
  }

  // ---------------------------------------------------------------- one lexicographic key for every comparator

  function AddressKey(a: Address): seq<int> { [FamilyIndex(a.family)] + Codes(a.text) }

  function KeyOf(w: World, key: SortKey, c: Connection): seq<int> {
    match key
    case ByNone => []
    case ByProto => [TypeIndex(c.kind)]
    case ByProtoState => [ProtocolIndex(ProtocolOf(c.kind)), DataOf(w, c).state]
    case BySrcAddress => AddressKey(SrcAddress(c))
    case BySrcHostname => Codes(HostOf(w, SrcAddress(c)).hostname)
    case BySrcAsn => [HostOf(w, SrcAddress(c)).asn]
    case BySrcCountry => [HostOf(w, SrcAddress(c)).country]
    case BySrcPort => [c.srcPort]
    case BySrcService => Codes(ServiceOf(w, SrcPort(c)))
    case ByDstAddress => AddressKey(DstAddress(c))
    case ByDstHostname => Codes(HostOf(w, DstAddress(c)).hostname)
    case ByDstAsn => [HostOf(w, DstAddress(c)).asn]
    case ByDstCountry => [HostOf(w, DstAddress(c)).country]
    case ByDstPort => [c.dstPort]
    case ByDstService => Codes(ServiceOf(w, DstPort(c)))
    case ByRxPackets => [DataOf(w, c).traffic.rxPackets]
    case ByTxPackets => [DataOf(w, c).traffic.txPackets]
    case ByRxBytes => [DataOf(w, c).traffic.rxBytes]
    case ByTxBytes => [DataOf(w, c).traffic.txBytes]
    case ByRxSpeed => [DataOf(w, c).traffic.rxSpeed]
    case ByTxSpeed => [DataOf(w, c).traffic.txSpeed]
  }

  lemma OneLess(a: int, b: int)
    ensures LexLess([a], [b]) <==> a < b
  {
    assert [a][1..] == [] && [b][1..] == [];
  }

  lemma AddressKeyLess(a: Address, b: Address)
    ensures LexLess(AddressKey(a), AddressKey(b)) <==> AddressLess(a, b)
  {
    assert AddressKey(a)[1..] == Codes(a.text) && AddressKey(b)[1..] == Codes(b.text);
  }

  lemma PairLess(a: int, x: int, b: int, y: int)
    ensures LexLess([a, x], [b, y]) <==> a < b || (a == b && x < y)
  {
    assert [a, x][1..] == [x] && [b, y][1..] == [y];
    OneLess(x, y);
  }

  lemma KeyDecides(w: World, key: SortKey, a: Connection, b: Connection)
    ensures Ascending(w, key, a, b) <==> LexLess(KeyOf(w, key, a), KeyOf(w, key, b))
  {
    match key
    case ByProtoState =>
      PairLess(ProtocolIndex(ProtocolOf(a.kind)), DataOf(w, a).state, ProtocolIndex(ProtocolOf(b.kind)), DataOf(w, b).state);
    case BySrcAddress => AddressKeyLess(SrcAddress(a), SrcAddress(b));
    case ByDstAddress => AddressKeyLess(DstAddress(a), DstAddress(b));
    case _ =>
  }

  lemma {:induction false} LexAsymmetric(a: seq<int>, b: seq<int>)
    requires LexLess(a, b)
    ensures !LexLess(b, a)
    decreases |a|
  {
    if a != [] && a[0] == b[0] { LexAsymmetric(a[1..], b[1..]); }
  }

  lemma {:induction false} LexSplits(a: seq<int>, b: seq<int>, c: seq<int>)
    requires LexLess(a, c)
    ensures LexLess(a, b) || LexLess(b, c)
    decreases |a|
  {
    if a != [] && b != [] && a[0] == b[0] == c[0] { LexSplits(a[1..], b[1..], c[1..]); }
  }

  // ---------------------------------------------------------------- ranks

  /** The connections that come before c, and how many they are. */
  ghost function Predecessors(w: World, mode: SortMode, c: Connection): set<Connection> {
    set d | d in w.conns && Less(w, mode, d, c)
  }

  /** The place of every stored connection in the order; ties share a rank. */
  ghost function Ranks(w: World, mode: SortMode): (rk: map<Connection, int>)
    ensures rk.Keys == w.conns.Keys
  {
    map c | c in w.conns :: |Predecessors(w, mode, c)|
  }

  lemma LessSplits(w: World, mode: SortMode, a: Connection, b: Connection, c: Connection)
    requires Less(w, mode, a, c)
    ensures Less(w, mode, a, b) || Less(w, mode, b, c)
  {
    KeyDecides(w, mode.key, a, c);
    KeyDecides(w, mode.key, a, b);
    KeyDecides(w, mode.key, b, c);
    KeyDecides(w, mode.key, c, a);
    KeyDecides(w, mode.key, b, a);
    KeyDecides(w, mode.key, c, b);
    hide Ascending;
    if mode.ascending {
      LexSplits(KeyOf(w, mode.key, a), KeyOf(w, mode.key, b), KeyOf(w, mode.key, c));
    } else {
      LexSplits(KeyOf(w, mode.key, c), KeyOf(w, mode.key, b), KeyOf(w, mode.key, a));
    }
  }

  lemma LessAsymmetric(w: World, mode: SortMode, a: Connection, b: Connection)
    requires Less(w, mode, a, b)
    ensures !Less(w, mode, b, a)
  {
    KeyDecides(w, mode.key, a, b);
    KeyDecides(w, mode.key, b, a);
    hide Ascending;
    if mode.ascending {
      LexAsymmetric(KeyOf(w, mode.key, a), KeyOf(w, mode.key, b));
    } else {
      LexAsymmetric(KeyOf(w, mode.key, b), KeyOf(w, mode.key, a));
    }
  }

  lemma SmallerSet<T>(a: set<T>, b: set<T>)
    requires a <= b
    ensures |a| <= |b| && (a != b ==> |a| < |b|)
  {
    assert b == a + (b - a);
  }

  /** Every comparator is a strict weak order: it compares ranks. */
  lemma RankDecides(w: World, mode: SortMode, a: Connection, b: Connection)
    requires a in w.conns && b in w.conns
    ensures Less(w, mode, a, b) <==> Ranks(w, mode)[a] < Ranks(w, mode)[b]
  {
    var p, q := Predecessors(w, mode, a), Predecessors(w, mode, b);
    if Less(w, mode, a, b) {
      forall d | d in p ensures d in q {
        LessSplits(w, mode, d, b, a);
        if !Less(w, mode, d, b) { LessAsymmetric(w, mode, a, b); }
      }
      assert a in q;
      if a in p { LessAsymmetric(w, mode, a, a); }
      SmallerSet(p, q);
    } else {
      forall d | d in q ensures d in p {
        LessSplits(w, mode, d, a, b);
      }
      SmallerSet(q, p);
    }
  }

  /** The counters by which stored connections are ordered. */
  lemma TrafficCompared(w: World, a: Connection, b: Connection)
    requires a in w.conns && b in w.conns
    ensures var s, t := w.conns[a].traffic, w.conns[b].traffic;
      && (Ascending(w, ByRxPackets, a, b) <==> s.rxPackets < t.rxPackets)
      && (Ascending(w, ByTxPackets, a, b) <==> s.txPackets < t.txPackets)
      && (Ascending(w, ByRxBytes, a, b) <==> s.rxBytes < t.rxBytes)
      && (Ascending(w, ByTxBytes, a, b) <==> s.txBytes < t.txBytes)
      && (Ascending(w, ByRxSpeed, a, b) <==> s.rxSpeed < t.rxSpeed)
      && (Ascending(w, ByTxSpeed, a, b) <==> s.txSpeed < t.txSpeed)
  {
  }

  /** By a source host name, network or country, once both are resolved. */
  lemma SourcesCompared(w: World, a: Connection, b: Connection)
    requires SrcAddress(a) in w.hosts && SrcAddress(b) in w.hosts
    ensures var x, y := w.hosts[SrcAddress(a)], w.hosts[SrcAddress(b)];
      && (Ascending(w, BySrcHostname, a, b) <==> exists i: nat :: DecidesAt(x.hostname, y.hostname, i))
      && (Ascending(w, BySrcAsn, a, b) <==> x.asn < y.asn)
      && (Ascending(w, BySrcCountry, a, b) <==> x.country < y.country)
  {
    TextLessMeans(w.hosts[SrcAddress(a)].hostname, w.hosts[SrcAddress(b)].hostname);
    hide TextLess, DecidesAt;
  }

  lemma DestinationsCompared(w: World, a: Connection, b: Connection)
    requires DstAddress(a) in w.hosts && DstAddress(b) in w.hosts
    ensures var x, y := w.hosts[DstAddress(a)], w.hosts[DstAddress(b)];
      && (Ascending(w, ByDstHostname, a, b) <==> exists i: nat :: DecidesAt(x.hostname, y.hostname, i))
      && (Ascending(w, ByDstAsn, a, b) <==> x.asn < y.asn)
      && (Ascending(w, ByDstCountry, a, b) <==> x.country < y.country)
  {
    TextLessMeans(w.hosts[DstAddress(a)].hostname, w.hosts[DstAddress(b)].hostname);
    hide TextLess, DecidesAt;
  }

  lemma ServicesCompared(w: World, a: Connection, b: Connection)
    requires SrcPort(a) in w.services && SrcPort(b) in w.services && DstPort(a) in w.services && DstPort(b) in w.services
    ensures Ascending(w, BySrcService, a, b) <==>
      exists i: nat :: DecidesAt(w.services[SrcPort(a)], w.services[SrcPort(b)], i)
    ensures Ascending(w, ByDstService, a, b) <==>
      exists i: nat :: DecidesAt(w.services[DstPort(a)], w.services[DstPort(b)], i)
  {
    TextLessMeans(w.services[SrcPort(a)], w.services[SrcPort(b)]);
    TextLessMeans(w.services[DstPort(a)], w.services[DstPort(b)]);
    hide TextLess, DecidesAt;
  }

  /** UDP comes before TCP and IPv4 before IPv6, states of one protocol by number, addresses of one family by text. */
  lemma KindsCompared(w: World, a: Connection, b: Connection)
    ensures Ascending(w, ByProto, a, b) <==>
      (a.kind, b.kind) in {(UDP4, UDP6), (UDP4, TCP4), (UDP4, TCP6), (UDP6, TCP4), (UDP6, TCP6), (TCP4, TCP6)}
    ensures a in w.conns && b in w.conns && ProtocolOf(a.kind) == ProtocolOf(b.kind) ==>
      (Ascending(w, ByProtoState, a, b) <==> w.conns[a].state < w.conns[b].state)
    ensures ProtocolOf(a.kind) != ProtocolOf(b.kind) ==> (Ascending(w, ByProtoState, a, b) <==> ProtocolOf(a.kind) == UDP)
    ensures Ascending(w, BySrcAddress, a, b) <==>
      (a.kind in {UDP4, TCP4} && b.kind in {UDP6, TCP6}) ||
      ((a.kind in {UDP4, TCP4} <==> b.kind in {UDP4, TCP4}) && exists i: nat :: DecidesAt(a.src, b.src, i))
    ensures Ascending(w, ByDstAddress, a, b) <==>
      (a.kind in {UDP4, TCP4} && b.kind in {UDP6, TCP6}) ||
      ((a.kind in {UDP4, TCP4} <==> b.kind in {UDP4, TCP4}) && exists i: nat :: DecidesAt(a.dst, b.dst, i))
  {
    TextLessMeans(a.src, b.src);
    TextLessMeans(a.dst, b.dst);
    hide TextLess, DecidesAt;
  }

  /** What is not resolved sorts like an empty name: before every name. */
  lemma UnresolvedFirst(w: World, a: Connection, b: Connection)
    requires SrcAddress(a) !in w.hosts && SrcAddress(b) in w.hosts && w.hosts[SrcAddress(b)].hostname != ""
    ensures Ascending(w, BySrcHostname, a, b)
  {
    assert Codes(w.hosts[SrcAddress(b)].hostname) != [];
  }
}
