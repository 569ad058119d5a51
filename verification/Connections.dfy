/**
  Network connections, the connection storage with its interning tables, and the
  JSON records that carry connections between server and client
  (Source/Connection.hpp, Source/Connection.cpp, Source/ConnectionStorage.hpp).
*/
module Connections {
  import opened Options

  type Uint16 = x: int | 0 <= x < 0x1_0000
  type Uint64 = x: int | 0 <= x < 0x1_0000_0000_0000_0000

  datatype AddressFamily = IP4 | IP6
  datatype Protocol = UDP | TCP
  datatype ConnectionType = UDP4 | UDP6 | TCP4 | TCP6
  datatype Action = Create | Update | Remove

  /** An address is identified by its family and its numeric text. */
  datatype Address = Address(family: AddressFamily, text: string)
  datatype Port = Port(protocol: Protocol, number: Uint16)

  /** The identity of a connection: its type and the two endpoints. */
  datatype Connection = Connection(kind: ConnectionType, src: string, srcPort: Uint16, dst: string, dstPort: Uint16)

  datatype Traffic = Traffic(
    rxPackets: Uint64, txPackets: Uint64, rxBytes: Uint64, txBytes: Uint64, rxSpeed: Uint64, txSpeed: Uint64)

  const NO_TRAFFIC := Traffic(0, 0, 0, 0, 0, 0)

  datatype ConnectionData = ConnectionData(state: int, traffic: Traffic)

  type Table = map<Connection, ConnectionData>

  /** The connection map plus the interning tables for addresses and ports. */
  datatype Storage = Storage(conns: Table, addresses: set<Address>, ports: set<Port>)

  function ProtocolOf(kind: ConnectionType): Protocol {
    if kind == UDP4 || kind == UDP6 then UDP else TCP
  }

  function FamilyOf(kind: ConnectionType): AddressFamily {
    if kind == UDP4 || kind == TCP4 then IP4 else IP6
  }

  function SrcAddress(c: Connection): Address { Address(FamilyOf(c.kind), c.src) }
  function DstAddress(c: Connection): Address { Address(FamilyOf(c.kind), c.dst) }
  function SrcPort(c: Connection): Port { Port(ProtocolOf(c.kind), c.srcPort) }
  function DstPort(c: Connection): Port { Port(ProtocolOf(c.kind), c.dstPort) }

  // ---------------------------------------------------------------- names

  function TypeName(kind: ConnectionType): string {
    match kind
    case UDP4 => "udp4"
    case UDP6 => "udp6"
    case TCP4 => "tcp4"
    case TCP6 => "tcp6"
  }

  function TypeFromName(name: string): Option<ConnectionType> {
    if name == "udp4" then Some(UDP4)
    else if name == "udp6" then Some(UDP6)
    else if name == "tcp4" then Some(TCP4)
    else if name == "tcp6" then Some(TCP6)
    else None
  }

  function ActionName(action: Action): string {
    match action
    case Create => "CREATE"
    case Update => "UPDATE"
    case Remove => "REMOVE"
  }

  function ActionFromName(name: string): Option<Action> {
    if name == "CREATE" then Some(Create)
    else if name == "UPDATE" then Some(Update)
    else if name == "REMOVE" then Some(Remove)
    else None
  }

  /** The TCP states LISTEN (-1) and SYN_SENT (1) to CLOSED (11); 0 is UNKNOWN and has no name. */
  const TCP_STATE_NAMES: seq<string> := [
    "SYN_SENT", "SYN_RECEIVED", "ESTABLISHED", "FIN_WAIT", "FIN_WAIT_1", "FIN_WAIT_2",
    "CLOSE_WAIT", "CLOSING", "LAST_ACK", "TIME_WAIT", "CLOSED"]

  function StateName(protocol: Protocol, state: int): string {
    if state == -1 then "LISTEN"
    else if protocol == UDP then (if state == 0 then "" else "?")
    else if 1 <= state <= 11 then TCP_STATE_NAMES[state - 1]
    else "?"
  }

  /** The value the static name table of the C++ source gives for a name; 0 (UNKNOWN) when it has none. */
  function StateFromName(protocol: Protocol, name: string): int {
    if name == "LISTEN" then -1
    else if protocol == UDP then 0
    else TcpStateIndex(name, 0)
  }

  function TcpStateIndex(name: string, i: nat): (r: int)
    requires i <= 11
    ensures r == 0 || (i < r <= 11 && TCP_STATE_NAMES[r - 1] == name)
    decreases 11 - i
  {
    if i == 11 then 0
    else if TCP_STATE_NAMES[i] == name then i + 1
    else TcpStateIndex(name, i + 1)
  }

  /** The states an enumeration of the given protocol has. */
  predicate ValidState(protocol: Protocol, state: int) {
    if protocol == UDP then -1 <= state <= 0 else -1 <= state <= 11
  }

  lemma {:induction false} TcpIndexOfName(k: nat, i: nat)
    requires i <= k < 11
    ensures TcpStateIndex(TCP_STATE_NAMES[k], i) == k + 1
    decreases k - i
  {
    if i == k {
    } else {
      assert TCP_STATE_NAMES[i] != TCP_STATE_NAMES[k] by { TcpNamesDiffer(i, k); }
      TcpIndexOfName(k, i + 1);
    }
  }

  /** No two states share a name: within a length, some character tells them apart. */
  lemma TcpNamesDiffer(i: nat, k: nat)
    requires i < k < 11
    ensures TCP_STATE_NAMES[i] != TCP_STATE_NAMES[k]
  {
    var a, b := TCP_STATE_NAMES[i], TCP_STATE_NAMES[k];
    assert |a| != |b| || a[0] != b[0] || (|a| > 9 && a[9] != b[9]);
  }

  /** A state survives printing and parsing exactly when it is one of its protocol's states. */
  lemma StateNameRoundTrip(protocol: Protocol, state: int)
    ensures StateFromName(protocol, StateName(protocol, state)) == state <==> ValidState(protocol, state)
  {
    if protocol == TCP && 1 <= state <= 11 {
      TcpIndexOfName(state - 1, 0);
      assert TCP_STATE_NAMES[state - 1] != "LISTEN";
    } else if protocol == TCP && state != -1 {
      assert forall k :: 0 <= k < 11 ==> |TCP_STATE_NAMES[k]| > 1;
      assert TcpStateIndex("?", 0) == 0;
    }
  }

  // ---------------------------------------------------------------- JSON records

  datatype Json = JString(text: string) | JNumber(value: int)

  /** The member names of a connection record: "action", "type", "srcAddress", ... */
  datatype Name =
    | NAction | NType | NSrcAddress | NDstAddress | NSrcPort | NDstPort | NUpdateFlags | NState
    | NRxPackets | NTxPackets | NRxBytes | NTxBytes | NRxSpeed | NTxSpeed

  /** A JSON object; the code never adds a member name twice. */
  type Doc = map<Name, Json>

  predicate IsInt(j: Json) { j.JNumber? && -0x8000_0000 <= j.value < 0x8000_0000 }
  predicate IsUint(j: Json) { j.JNumber? && 0 <= j.value < 0x1_0000_0000 }
  predicate IsUint64(j: Json) { j.JNumber? && 0 <= j.value < 0x1_0000_0000_0000_0000 }

  /** Bit masks of EConnectionUpdateFlags. */
  const PROTO_STATE := 2
  const RX_PACKETS := 64
  const TX_PACKETS := 128
  const RX_BYTES := 256
  const TX_BYTES := 512
  const RX_SPEED := 1024
  const TX_SPEED := 2048

  /** `flags & mask` for a one-bit mask, on a two's complement integer. */
  predicate HasFlag(flags: int, mask: int)
    requires mask > 0
  {
    (flags / mask) % 2 == 1
  }

  /** Which fields of a connection changed. */
  datatype Changes = Changes(
    state: bool, rxPackets: bool, txPackets: bool, rxBytes: bool, txBytes: bool, rxSpeed: bool, txSpeed: bool)

  function Bit(b: bool, mask: int): int { if b then mask else 0 }

  function LowFlags(c: Changes): (flags: int)
    ensures 0 <= flags < 256
    ensures HasFlag(flags, PROTO_STATE) == c.state
    ensures HasFlag(flags, RX_PACKETS) == c.rxPackets
    ensures HasFlag(flags, TX_PACKETS) == c.txPackets
  {
    Bit(c.state, PROTO_STATE) + Bit(c.rxPackets, RX_PACKETS) + Bit(c.txPackets, TX_PACKETS)
  }

  function HighFlags(c: Changes): (flags: int)
    ensures 0 <= flags < 4096 && flags % 256 == 0
    ensures HasFlag(flags, RX_BYTES) == c.rxBytes
    ensures HasFlag(flags, TX_BYTES) == c.txBytes
    ensures HasFlag(flags, RX_SPEED) == c.rxSpeed
    ensures HasFlag(flags, TX_SPEED) == c.txSpeed
  {
    Bit(c.rxBytes, RX_BYTES) + Bit(c.txBytes, TX_BYTES) + Bit(c.rxSpeed, RX_SPEED) + Bit(c.txSpeed, TX_SPEED)
  }

  /** Flags of different bits do not disturb each other. */
  lemma FlagsCombine(low: int, high: int)
    requires 0 <= low < 256 && 0 <= high < 4096 && high % 256 == 0
    ensures HasFlag(low + high, PROTO_STATE) == HasFlag(low, PROTO_STATE)
    ensures HasFlag(low + high, RX_PACKETS) == HasFlag(low, RX_PACKETS)
    ensures HasFlag(low + high, TX_PACKETS) == HasFlag(low, TX_PACKETS)
    ensures HasFlag(low + high, RX_BYTES) == HasFlag(high, RX_BYTES)
    ensures HasFlag(low + high, TX_BYTES) == HasFlag(high, TX_BYTES)
    ensures HasFlag(low + high, RX_SPEED) == HasFlag(high, RX_SPEED)
    ensures HasFlag(low + high, TX_SPEED) == HasFlag(high, TX_SPEED)
  {
    var k := high / 256;
    assert high == 256 * k;
    assert (low + high) / 2 == low / 2 + 128 * k;
    assert (low + high) / 64 == low / 64 + 4 * k;
    assert (low + high) / 128 == low / 128 + 2 * k;
    assert (low + high) / 256 == k;
    assert (low + high) / 512 == k / 2 == high / 512;
    assert (low + high) / 1024 == k / 4 == high / 1024;
    assert (low + high) / 2048 == k / 8 == high / 2048;
  }

  function FlagsOf(c: Changes): (flags: int)
    ensures 0 <= flags < 4096
    ensures HasFlag(flags, PROTO_STATE) == c.state
    ensures HasFlag(flags, RX_PACKETS) == c.rxPackets
    ensures HasFlag(flags, TX_PACKETS) == c.txPackets
    ensures HasFlag(flags, RX_BYTES) == c.rxBytes
    ensures HasFlag(flags, TX_BYTES) == c.txBytes
    ensures HasFlag(flags, RX_SPEED) == c.rxSpeed
    ensures HasFlag(flags, TX_SPEED) == c.txSpeed
  {
    FlagsCombine(LowFlags(c), HighFlags(c));
    LowFlags(c) + HighFlags(c)
  }

  predicate IsValueName(name: Name) {
    name.NState? || name.NRxPackets? || name.NTxPackets? || name.NRxBytes? || name.NTxBytes? ||
    name.NRxSpeed? || name.NTxSpeed?
  }

  function MaskOf(name: Name): (mask: int)
    requires IsValueName(name)
    ensures mask > 0
  {
    match name
    case NState => PROTO_STATE
    case NRxPackets => RX_PACKETS
    case NTxPackets => TX_PACKETS
    case NRxBytes => RX_BYTES
    case NTxBytes => TX_BYTES
    case NRxSpeed => RX_SPEED
    case _ => TX_SPEED
  }

  function ValueOf(c: Connection, d: ConnectionData, name: Name): Json
    requires IsValueName(name)
  {
    match name
    case NState => JString(StateName(ProtocolOf(c.kind), d.state))
    case NRxPackets => JNumber(d.traffic.rxPackets)
    case NTxPackets => JNumber(d.traffic.txPackets)
    case NRxBytes => JNumber(d.traffic.rxBytes)
    case NTxBytes => JNumber(d.traffic.txBytes)
    case NRxSpeed => JNumber(d.traffic.rxSpeed)
    case _ => JNumber(d.traffic.txSpeed)
  }

  /** Which members ConnectionData::serialize adds. */
  predicate IsWritten(name: Name, action: Action, flags: int) {
    if IsValueName(name) then action == Create || (action == Update && HasFlag(flags, MaskOf(name)))
    else name != NUpdateFlags || action == Update
  }

  function MemberValue(c: Connection, d: ConnectionData, action: Action, flags: int, name: Name): Json {
    match name
    case NAction => JString(ActionName(action))
    case NType => JString(TypeName(c.kind))
    case NSrcAddress => JString(c.src)
    case NDstAddress => JString(c.dst)
    case NSrcPort => JNumber(c.srcPort)
    case NDstPort => JNumber(c.dstPort)
    case NUpdateFlags => JNumber(flags)
    case _ => ValueOf(c, d, name)
  }

  /** ConnectionData::serialize. */
  function Serialize(c: Connection, d: ConnectionData, action: Action, flags: int): Doc {
    map name: Name | IsWritten(name, action, flags) :: MemberValue(c, d, action, flags, name)
  }

  // ---------------------------------------------------------------- Deserialize

  /** What std::invalid_argument reports. */
  datatype Invalid = Missing(name: Name) | WrongType(name: Name) | UnknownAction | UnknownType

  datatype Result<+T> = Ok(value: T) | Err(message: Invalid) {
    predicate IsFailure() { Err? }
    function PropagateFailure<U>(): Result<U> requires Err? { Err(message) }
    function Extract(): T requires Ok? { value }
  }

  function GetString(doc: Doc, name: Name): Result<string> {
    if name !in doc then Err(Missing(name))
    else if !doc[name].JString? then Err(WrongType(name))
    else Ok(doc[name].text)
  }

  function GetUint(doc: Doc, name: Name): Result<int> {
    if name !in doc then Err(Missing(name))
    else if !IsUint(doc[name]) then Err(WrongType(name))
    else Ok(doc[name].value)
  }

  function GetFlags(doc: Doc): Result<int> {
    if NUpdateFlags !in doc then Err(Missing(NUpdateFlags))
    else if !IsInt(doc[NUpdateFlags]) then Err(WrongType(NUpdateFlags))
    else Ok(doc[NUpdateFlags].value)
  }

  /** A counter that is read only when needed; an unread counter is 0. */
  function GetCounter(doc: Doc, needed: bool, name: Name): Result<Uint64> {
    if !needed then Ok(0)
    else if name !in doc then Err(Missing(name))
    else if !IsUint64(doc[name]) then Err(WrongType(name))
    else Ok(doc[name].value)
  }

  /** A record after all its members were found and type checked. */
  datatype Record = Record(action: Action, conn: Connection, flags: int, data: ConnectionData)

  /** The reading half of ConnectionData::Deserialize; every check that fails throws. */
  function Parse(doc: Doc): Result<Record> {
    var actionName :- GetString(doc, NAction);
    var action := ActionFromName(actionName);
    if action.None? then Err(UnknownAction) else
    var typeName :- GetString(doc, NType);
    var kind := TypeFromName(typeName);
    if kind.None? then Err(UnknownType) else
    var src :- GetString(doc, NSrcAddress);
    var dst :- GetString(doc, NDstAddress);
    var srcPort :- GetUint(doc, NSrcPort);
    var dstPort :- GetUint(doc, NDstPort);
    var flags :- (if action.value == Update then GetFlags(doc) else Ok(0));
    var conn := Connection(kind.value, src, srcPort % 0x1_0000, dst, dstPort % 0x1_0000);
    var data :- ParseData(doc, ProtocolOf(kind.value), action.value == Create, action.value == Remove, flags);
    Ok(Record(action.value, conn, flags, data))
  }

  function ParseData(doc: Doc, protocol: Protocol, create: bool, remove: bool, flags: int): Result<ConnectionData> {
    var state :- (if create || HasFlag(flags, PROTO_STATE) then ParseState(doc, protocol) else Ok(0));
    if remove then Ok(ConnectionData(state, NO_TRAFFIC)) else
    var rxPackets :- GetCounter(doc, create || HasFlag(flags, RX_PACKETS), NRxPackets);
    var txPackets :- GetCounter(doc, create || HasFlag(flags, TX_PACKETS), NTxPackets);
    var rxBytes :- GetCounter(doc, create || HasFlag(flags, RX_BYTES), NRxBytes);
    var txBytes :- GetCounter(doc, create || HasFlag(flags, TX_BYTES), NTxBytes);
    var rxSpeed :- GetCounter(doc, create || HasFlag(flags, RX_SPEED), NRxSpeed);
    var txSpeed :- GetCounter(doc, create || HasFlag(flags, TX_SPEED), NTxSpeed);
    Ok(ConnectionData(state, Traffic(rxPackets, txPackets, rxBytes, txBytes, rxSpeed, txSpeed)))
  }

  function ParseState(doc: Doc, protocol: Protocol): Result<int> {
    var name :- GetString(doc, NState);
    Ok(StateFromName(protocol, name))
  }

  /** The fields of `update` that `flags` names, over `old`. */
  function Patch(old_: ConnectionData, update: ConnectionData, flags: int): ConnectionData {
    var o, u := old_.traffic, update.traffic;
    ConnectionData(
      if HasFlag(flags, PROTO_STATE) then update.state else old_.state,
      Traffic(
        if HasFlag(flags, RX_PACKETS) then u.rxPackets else o.rxPackets,
        if HasFlag(flags, TX_PACKETS) then u.txPackets else o.txPackets,
        if HasFlag(flags, RX_BYTES) then u.rxBytes else o.rxBytes,
        if HasFlag(flags, TX_BYTES) then u.txBytes else o.txBytes,
        if HasFlag(flags, RX_SPEED) then u.rxSpeed else o.rxSpeed,
        if HasFlag(flags, TX_SPEED) then u.txSpeed else o.txSpeed))
  }

  predicate Interned(s: Storage, c: Connection) {
    && SrcAddress(c) in s.addresses && DstAddress(c) in s.addresses
    && SrcPort(c) in s.ports && DstPort(c) in s.ports
  }

  function Intern(s: Storage, c: Connection): Storage {
    s.(addresses := s.addresses + {SrcAddress(c), DstAddress(c)}, ports := s.ports + {SrcPort(c), DstPort(c)})
  }

  /** The writing half of ConnectionData::Deserialize: only CREATE may add addresses and ports. */
  function ApplyRecord(r: Record, s: Storage): Storage {
    match r.action
    case Create =>
      var t := Intern(s, r.conn);
      if r.conn in t.conns then t else t.(conns := t.conns[r.conn := r.data])
    case Update =>
      if !Interned(s, r.conn) || r.conn !in s.conns then s
      else s.(conns := s.conns[r.conn := Patch(s.conns[r.conn], r.data, r.flags)])
    case Remove =>
      if !Interned(s, r.conn) then s else s.(conns := s.conns - {r.conn})
  }

  /** The storage after a list of records; a record that throws leaves the earlier ones applied. */
  datatype Replayed = Done(store: Storage) | Threw(store: Storage, message: Invalid)

  function Replay(docs: seq<Doc>, s: Storage): Replayed {
    if docs == [] then Done(s)
    else match Parse(docs[0])
      case Err(m) => Threw(s, m)
      case Ok(r) => Replay(docs[1..], ApplyRecord(r, s))
  }

  // ---------------------------------------------------------------- meaning of records on the table alone

  /** What one record does to a connection table, interning aside. */
  function Effect(r: Record, t: Table): Table {
    match r.action
    case Create => if r.conn in t then t else t[r.conn := r.data]
    case Update => if r.conn in t then t[r.conn := Patch(t[r.conn], r.data, r.flags)] else t
    case Remove => t - {r.conn}
  }

  /** The table that a list of records turns `t` into; None when some record is malformed. */
  function Meaning(docs: seq<Doc>, t: Table): Option<Table> {
    if docs == [] then Some(t)
    else match Parse(docs[0])
      case Err(_) => None
      case Ok(r) => Meaning(docs[1..], Effect(r, t))
  }

  predicate WellInterned(s: Storage) {
    forall c :: c in s.conns ==> Interned(s, c)
  }

  predicate ValidTable(t: Table) {
    forall c :: c in t ==> ValidState(ProtocolOf(c.kind), t[c].state)
  }

  lemma ApplyRecordEffect(r: Record, s: Storage)
    requires WellInterned(s)
    ensures WellInterned(ApplyRecord(r, s))
    ensures ApplyRecord(r, s).conns == Effect(r, s.conns)
  {
    if r.action == Remove && !Interned(s, r.conn) {
      assert r.conn !in s.conns;
      assert s.conns - {r.conn} == s.conns;
    }
  }

  /** Interning never decides what a replica holds: replaying is the records' meaning on the table. */
  lemma {:induction false} ReplayIsMeaning(docs: seq<Doc>, s: Storage)
    requires WellInterned(s)
    ensures Replay(docs, s).Done? <==> Meaning(docs, s.conns).Some?
    ensures Replay(docs, s).Done? ==> Replay(docs, s).store.conns == Meaning(docs, s.conns).value
    ensures WellInterned(Replay(docs, s).store)
    decreases |docs|
  {
    if docs != [] && Parse(docs[0]).Ok? {
      ApplyRecordEffect(Parse(docs[0]).value, s);
      ReplayIsMeaning(docs[1..], ApplyRecord(Parse(docs[0]).value, s));
    }
  }

  lemma {:induction false} MeaningAppend(docs: seq<Doc>, doc: Doc, t: Table)
    ensures Meaning(docs + [doc], t) ==
      (if Meaning(docs, t).None? then None
       else if Parse(doc).Err? then None
       else Some(Effect(Parse(doc).value, Meaning(docs, t).value)))
    decreases |docs|
  {
    if docs == [] {
      assert [doc][1..] == [];
    } else {
      assert (docs + [doc])[1..] == docs[1..] + [doc];
      if Parse(docs[0]).Ok? {
        MeaningAppend(docs[1..], doc, Effect(Parse(docs[0]).value, t));
      }
    }
  }

  // ---------------------------------------------------------------- round trips

  lemma NamesRoundTrip(kind: ConnectionType, action: Action)
    ensures TypeFromName(TypeName(kind)) == Some(kind)
    ensures ActionFromName(ActionName(action)) == Some(action)
  {
    assert "udp4"[3] != "udp6"[3] && "tcp4"[3] != "tcp6"[3];
    assert "udp4"[0] != "tcp4"[0] && "udp6"[0] != "tcp6"[0] && "udp6"[0] != "tcp4"[0] && "udp4"[0] != "tcp6"[0];
    assert "CREATE"[0] != "UPDATE"[0] && "CREATE"[0] != "REMOVE"[0] && "UPDATE"[0] != "REMOVE"[0];
  }

  predicate HasIdentity(doc: Doc, c: Connection, action: Action) {
    && NAction in doc && doc[NAction] == JString(ActionName(action))
    && NType in doc && doc[NType] == JString(TypeName(c.kind))
    && NSrcAddress in doc && doc[NSrcAddress] == JString(c.src)
    && NDstAddress in doc && doc[NDstAddress] == JString(c.dst)
    && NSrcPort in doc && doc[NSrcPort] == JNumber(c.srcPort)
    && NDstPort in doc && doc[NDstPort] == JNumber(c.dstPort)
  }

  predicate HasValues(doc: Doc, c: Connection, d: ConnectionData, all: bool, flags: int) {
    forall name :: IsValueName(name) && (all || HasFlag(flags, MaskOf(name))) ==>
      name in doc && doc[name] == ValueOf(c, d, name)
  }

  /** With its identity in place, a record parses as its values do. */
  lemma ParseIdentity(doc: Doc, c: Connection, action: Action, flags: int)
    requires HasIdentity(doc, c, action)
    requires if action == Update then GetFlags(doc) == Ok(flags) else flags == 0
    ensures var d := ParseData(doc, ProtocolOf(c.kind), action == Create, action == Remove, flags);
      Parse(doc) == if d.Ok? then Ok(Record(action, c, flags, d.value)) else Err(d.message)
  {
    NamesRoundTrip(c.kind, action);
  }

  lemma ParseValues(doc: Doc, c: Connection, d: ConnectionData, create: bool, flags: int)
    requires ValidState(ProtocolOf(c.kind), d.state)
    requires HasValues(doc, c, d, create, flags)
    ensures ParseData(doc, ProtocolOf(c.kind), create, false, flags) ==
      Ok(if create then d else Patch(ConnectionData(0, NO_TRAFFIC), d, flags))
  {
    StateNameRoundTrip(ProtocolOf(c.kind), d.state);
    assert IsValueName(NState);
    ParseCounters(doc, c, d, create, flags);
  }

  lemma ParseCounters(doc: Doc, c: Connection, d: ConnectionData, create: bool, flags: int)
    requires HasValues(doc, c, d, create, flags)
    ensures forall name :: IsValueName(name) && !name.NState? ==>
      GetCounter(doc, create || HasFlag(flags, MaskOf(name)), name) ==
        Ok(if create || HasFlag(flags, MaskOf(name)) then ValueOf(c, d, name).value else 0)
  {
  }

  lemma SerializeMembers(c: Connection, d: ConnectionData, action: Action, flags: int)
    ensures HasIdentity(Serialize(c, d, action, flags), c, action)
    ensures action == Create ==> HasValues(Serialize(c, d, action, flags), c, d, true, 0)
    ensures action == Update ==> HasValues(Serialize(c, d, action, flags), c, d, false, flags)
    ensures action == Update ==> NUpdateFlags in Serialize(c, d, action, flags)
    ensures action == Update ==> Serialize(c, d, action, flags)[NUpdateFlags] == JNumber(flags)
  {
  }

  /** A CREATE record reads back as the connection with all its values. */
  lemma ParseCreate(c: Connection, d: ConnectionData, flags: int)
    requires ValidState(ProtocolOf(c.kind), d.state)
    ensures Parse(Serialize(c, d, Create, flags)) == Ok(Record(Create, c, 0, d))
  {
    var doc := Serialize(c, d, Create, flags);
    SerializeMembers(c, d, Create, flags);
    ParseValues(doc, c, d, true, 0);
    ParseIdentity(doc, c, Create, 0);
  }

  /** An UPDATE record reads back as the flagged values; the others read as 0 and are never used. */
  lemma ParseUpdate(c: Connection, d: ConnectionData, flags: int)
    requires ValidState(ProtocolOf(c.kind), d.state)
    requires -0x8000_0000 <= flags < 0x8000_0000
    ensures Parse(Serialize(c, d, Update, flags)) ==
      Ok(Record(Update, c, flags, Patch(ConnectionData(0, NO_TRAFFIC), d, flags)))
  {
    var doc := Serialize(c, d, Update, flags);
    SerializeMembers(c, d, Update, flags);
    assert GetFlags(doc) == Ok(flags);
    ParseValues(doc, c, d, false, flags);
    ParseIdentity(doc, c, Update, flags);
  }

  lemma ParseRemove(c: Connection, d: ConnectionData, flags: int)
    ensures Parse(Serialize(c, d, Remove, flags)) == Ok(Record(Remove, c, 0, ConnectionData(0, NO_TRAFFIC)))
  {
    ParseIdentity(Serialize(c, d, Remove, flags), c, Remove, 0);
  }

  // ---------------------------------------------------------------- which records are accepted

  predicate HasText(doc: Doc, name: Name) { name in doc && doc[name].JString? }
  predicate HasNumber(doc: Doc, name: Name, from: int, to: int) {
    name in doc && doc[name].JNumber? && from <= doc[name].value < to
  }

  predicate HasValue(doc: Doc, name: Name)
    requires IsValueName(name)
  {
    if name == NState then HasText(doc, name) else HasNumber(doc, name, 0, 0x1_0000_0000_0000_0000)
  }

  /** A record names a known action, a connection of a known type, and every value that its action needs. */
  predicate Acceptable(doc: Doc) {
    && HasText(doc, NAction) && doc[NAction].text in {"CREATE", "UPDATE", "REMOVE"}
    && HasText(doc, NType) && doc[NType].text in {"udp4", "udp6", "tcp4", "tcp6"}
    && HasText(doc, NSrcAddress) && HasText(doc, NDstAddress)
    && HasNumber(doc, NSrcPort, 0, 0x1_0000_0000) && HasNumber(doc, NDstPort, 0, 0x1_0000_0000)
    && (doc[NAction].text == "UPDATE" ==> HasNumber(doc, NUpdateFlags, -0x8000_0000, 0x8000_0000))
    && (doc[NAction].text == "CREATE" ==> forall name :: IsValueName(name) ==> HasValue(doc, name))
    && (doc[NAction].text == "UPDATE" ==>
        forall name :: IsValueName(name) && HasFlag(doc[NUpdateFlags].value, MaskOf(name)) ==> HasValue(doc, name))
  }

  lemma CounterAccepted(doc: Doc, needed: bool, name: Name)
    requires IsValueName(name) && !name.NState?
    ensures GetCounter(doc, needed, name).Ok? <==> (needed ==> HasValue(doc, name))
  {
  }

  predicate Needed(name: Name, create: bool, flags: int)
    requires IsValueName(name)
  {
    create || HasFlag(flags, MaskOf(name))
  }

  lemma DataAccepted(doc: Doc, protocol: Protocol, create: bool, flags: int)
    ensures ParseData(doc, protocol, create, false, flags).Ok? <==>
      forall name :: IsValueName(name) && Needed(name, create, flags) ==> HasValue(doc, name)
  {
    SevenValues(doc, create, flags);
    CounterAccepted(doc, Needed(NRxPackets, create, flags), NRxPackets);
    CounterAccepted(doc, Needed(NTxPackets, create, flags), NTxPackets);
    CounterAccepted(doc, Needed(NRxBytes, create, flags), NRxBytes);
    CounterAccepted(doc, Needed(NTxBytes, create, flags), NTxBytes);
    CounterAccepted(doc, Needed(NRxSpeed, create, flags), NRxSpeed);
    CounterAccepted(doc, Needed(NTxSpeed, create, flags), NTxSpeed);
    hide HasFlag, StateFromName, GetCounter;
  }

  lemma SevenValues(doc: Doc, create: bool, flags: int)
    ensures (forall name :: IsValueName(name) && Needed(name, create, flags) ==> HasValue(doc, name)) <==>
      && (Needed(NState, create, flags) ==> HasValue(doc, NState))
      && (Needed(NRxPackets, create, flags) ==> HasValue(doc, NRxPackets))
      && (Needed(NTxPackets, create, flags) ==> HasValue(doc, NTxPackets))
      && (Needed(NRxBytes, create, flags) ==> HasValue(doc, NRxBytes))
      && (Needed(NTxBytes, create, flags) ==> HasValue(doc, NTxBytes))
      && (Needed(NRxSpeed, create, flags) ==> HasValue(doc, NRxSpeed))
      && (Needed(NTxSpeed, create, flags) ==> HasValue(doc, NTxSpeed))
  {
    hide Needed, HasValue;
  }

  /** Replaying throws exactly if some record is not acceptable. */
  lemma {:induction false} ReplayThrows(docs: seq<Doc>, s: Storage)
    ensures Replay(docs, s).Threw? <==> exists k :: 0 <= k < |docs| && !Acceptable(docs[k])
    decreases |docs|
  {
    if docs == [] {
    } else {
      ParseAccepts(docs[0]);
      hide Parse, Acceptable, ApplyRecord;
      if Parse(docs[0]).Ok? {
        ReplayThrows(docs[1..], ApplyRecord(Parse(docs[0]).value, s));
        assert forall k :: 0 <= k < |docs| - 1 ==> docs[1..][k] == docs[k + 1];
        if exists k :: 0 <= k < |docs| && !Acceptable(docs[k]) {
          var k :| 0 <= k < |docs| && !Acceptable(docs[k]);
          assert !Acceptable(docs[1..][k - 1]);
        }
      }
    }
  }

  /** Deserialize throws exactly at the records that are not acceptable. */
  lemma ParseAccepts(doc: Doc)
    ensures Parse(doc).Ok? <==> Acceptable(doc)
  {
    hide HasFlag, ParseData;
    if HasText(doc, NType) && TypeFromName(doc[NType].text).Some? {
      var protocol := ProtocolOf(TypeFromName(doc[NType].text).value);
      DataAccepted(doc, protocol, true, 0);
      if NUpdateFlags in doc && IsInt(doc[NUpdateFlags]) { DataAccepted(doc, protocol, false, doc[NUpdateFlags].value); }
      RemovalAccepted(doc, protocol);
    }
  }

  lemma RemovalAccepted(doc: Doc, protocol: Protocol)
    ensures ParseData(doc, protocol, false, true, 0).Ok?
  {
  }
}
