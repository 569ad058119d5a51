/**
  The server's delta log (Source/Server.hpp) and the conntrack collector that
  feeds it (Source/Collector_Netfilter/Conntrack.cpp), as functions on values,
  with the proof that a log covers exactly one tick.
*/
module Collection {
  import opened Options
  import opened Connections

  // ---------------------------------------------------------------- ConnectionUpdateSerializer

  datatype Serializer = Serializer(storage: Storage, log: seq<Doc>, enabled: bool)

  function SetEnabled(s: Serializer, enable: bool): Serializer {
    Serializer(s.storage, if s.enabled && !enable then [] else s.log, enable)
  }

  function Logged(s: Serializer, doc: Doc): seq<Doc> {
    if s.enabled then s.log + [doc] else s.log
  }

  function AddConnection(s: Serializer, c: Connection, d: ConnectionData): Serializer {
    if c in s.storage.conns then s
    else Serializer(s.storage.(conns := s.storage.conns[c := d]), Logged(s, Serialize(c, d, Create, -1)), s.enabled)
  }

  /** The collector has stored `d` for `c` and reports which fields changed. */
  function UpdateConnection(s: Serializer, c: Connection, d: ConnectionData, flags: int): Serializer {
    Serializer(s.storage.(conns := s.storage.conns[c := d]),
               if flags == 0 then s.log else Logged(s, Serialize(c, d, Update, flags)), s.enabled)
  }

  function RemoveConnection(s: Serializer, c: Connection): Serializer {
    if c !in s.storage.conns then s
    else Serializer(s.storage.(conns := s.storage.conns - {c}),
                    Logged(s, Serialize(c, s.storage.conns[c], Remove, -1)), s.enabled)
  }

  function ClearConnections(s: Serializer): Serializer {
    SetEnabled(s.(storage := s.storage.(conns := map[])), false)
  }

  // ---------------------------------------------------------------- conntrack rows

  datatype RawState =
    | RawNone | RawSynSent | RawSynSent2 | RawSynRecv | RawEstablished | RawFinWait
    | RawCloseWait | RawLastAck | RawTimeWait | RawClose | RawOther

  /** A row of the conntrack table; `conn` is None when the row is neither TCP nor UDP over IP. */
  datatype Row = Row(
    conn: Option<Connection>, tcpState: RawState,
    replPackets: Uint64, origPackets: Uint64, replBytes: Uint64, origBytes: Uint64)

  datatype EventKind = NewConnection | RemovedConnection
  datatype Event = Event(kind: EventKind, conn: Connection)

  datatype Collector = Collector(events: seq<Event>, isInitialized: bool, isRefillRequired: bool, isPaused: bool)

  function TcpStateToEnum(raw: RawState): (state: int)
    ensures ValidState(TCP, state)
  {
    match raw
    case RawSynSent => 1
    case RawSynSent2 => 1
    case RawSynRecv => 2
    case RawEstablished => 3
    case RawFinWait => 4
    case RawCloseWait => 7
    case RawLastAck => 9
    case RawTimeWait => 10
    case RawClose => 8
    case _ => 0
  }

  /** TCPStateIsEqual: an unlisted raw state equals nothing, not even UNKNOWN. */
  predicate TcpStateIsEqual(state: int, raw: RawState) {
    raw != RawOther && state == TcpStateToEnum(raw)
  }

  /** The unsigned 64-bit difference `value - old`. */
  function Speed(value: Uint64, old_: Uint64): (speed: Uint64)
    ensures (old_ + speed) % 0x1_0000_0000_0000_0000 == value
  {
    (value - old_) % 0x1_0000_0000_0000_0000
  }

  /** What the update branch of Conntrack::handleQuery makes of a row: new values and changed fields. */
  function QueryData(d: ConnectionData, protocol: Protocol, row: Row): ConnectionData {
    ConnectionData(
      if protocol == TCP && !TcpStateIsEqual(d.state, row.tcpState) then TcpStateToEnum(row.tcpState) else d.state,
      Traffic(row.replPackets, row.origPackets, row.replBytes, row.origBytes,
              Speed(row.replBytes, d.traffic.rxBytes), Speed(row.origBytes, d.traffic.txBytes)))
  }

  function QueryChanges(d: ConnectionData, protocol: Protocol, row: Row): Changes {
    var t := d.traffic;
    Changes(
      protocol == TCP && !TcpStateIsEqual(d.state, row.tcpState),
      t.rxPackets != row.replPackets, t.txPackets != row.origPackets,
      t.rxBytes != row.replBytes, t.txBytes != row.origBytes,
      t.rxSpeed != Speed(row.replBytes, t.rxBytes), t.txSpeed != Speed(row.origBytes, t.txBytes))
  }

  /** The reported fields are enough: patching the old values with them gives the new values. */
  lemma ChangesCoverQuery(d: ConnectionData, protocol: Protocol, row: Row)
    requires ValidState(protocol, d.state)
    ensures var n := QueryData(d, protocol, row);
      && ValidState(protocol, n.state)
      && Patch(d, n, FlagsOf(QueryChanges(d, protocol, row))) == n
      && Patch(d, Patch(ConnectionData(0, NO_TRAFFIC), n, FlagsOf(QueryChanges(d, protocol, row))),
               FlagsOf(QueryChanges(d, protocol, row))) == n
      && (FlagsOf(QueryChanges(d, protocol, row)) == 0 ==> n == d)
  {
    var ch := QueryChanges(d, protocol, row);
    if FlagsOf(ch) == 0 {
      assert ch == Changes(false, false, false, false, false, false, false);
    }
  }

  // ---------------------------------------------------------------- one collector update

  function HandleRow(s: Serializer, row: Row, refill: bool): Serializer {
    if row.conn.None? then s
    else
      var c := row.conn.value;
      var protocol := ProtocolOf(c.kind);
      if refill then
        AddConnection(s.(storage := Intern(s.storage, c)), c,
          ConnectionData(if protocol == TCP then TcpStateToEnum(row.tcpState) else 0,
                         Traffic(row.replPackets, row.origPackets, row.replBytes, row.origBytes, 0, 0)))
      else if !Interned(s.storage, c) || c !in s.storage.conns then s
      else
        var d := s.storage.conns[c];
        UpdateConnection(s, c, QueryData(d, protocol, row), FlagsOf(QueryChanges(d, protocol, row)))
  }

  function HandleEvent(s: Serializer, e: Event): Serializer {
    match e.kind
    case NewConnection => AddConnection(s, e.conn, ConnectionData(0, NO_TRAFFIC))
    case RemovedConnection => RemoveConnection(s, e.conn)
  }

  function HandleRows(s: Serializer, rows: seq<Row>, refill: bool): Serializer {
    if rows == [] then s else HandleRow(HandleRows(s, rows[..|rows| - 1], refill), rows[|rows| - 1], refill)
  }

  function HandleEvents(s: Serializer, events: seq<Event>): Serializer {
    if events == [] then s else HandleEvent(HandleEvents(s, events[..|events| - 1]), events[|events| - 1])
  }

  predicate Runs(k: Collector) { k.isInitialized && !k.isPaused }

  /** Conntrack::onUpdate with the rows the dump query yields. */
  function CollectSerializer(k: Collector, s: Serializer, rows: seq<Row>): Serializer {
    if !Runs(k) then s
    else HandleRows(if k.isRefillRequired then ClearConnections(s) else HandleEvents(s, k.events), rows, k.isRefillRequired)
  }

  function CollectCollector(k: Collector): Collector {
    if !Runs(k) then k else k.(events := [], isRefillRequired := false)
  }

  /** An event read from the kernel between ticks: queued, unless a refill will drop it anyway. */
  function KernelEvent(k: Collector, s: Serializer, e: Event): (Collector, Serializer) {
    if k.isRefillRequired then (k, s)
    else if e.kind == NewConnection then (k.(events := k.events + [e]), s.(storage := Intern(s.storage, e.conn)))
    else if Interned(s.storage, e.conn) then (k.(events := k.events + [e]), s)
    else (k, s)
  }

  // ---------------------------------------------------------------- a log covers exactly its tick

  predicate StoreOk(s: Storage) { WellInterned(s) && ValidTable(s.conns) }

  predicate EventsInterned(events: seq<Event>, s: Storage) {
    forall i :: 0 <= i < |events| ==> Interned(s, events[i].conn)
  }

  /** While logging is on, the log turns `before` into the present table; while it is off, the log is empty. */
  predicate LogCovers(before: Table, s: Serializer) {
    if s.enabled then Meaning(s.log, before) == Some(s.storage.conns) else s.log == []
  }

  predicate Grows(s: Storage, t: Storage) { s.addresses <= t.addresses && s.ports <= t.ports }

  lemma MeaningOfCreate(docs: seq<Doc>, c: Connection, d: ConnectionData, t: Table)
    requires ValidState(ProtocolOf(c.kind), d.state) && Meaning(docs, t).Some?
    ensures var m := Meaning(docs, t).value;
      Meaning(docs + [Serialize(c, d, Create, -1)], t) == Some(if c in m then m else m[c := d])
  {
    MeaningAppend(docs, Serialize(c, d, Create, -1), t);
    ParseCreate(c, d, -1);
  }

  lemma AddKeepsCover(before: Table, s: Serializer, c: Connection, d: ConnectionData)
    requires LogCovers(before, s) && StoreOk(s.storage) && Interned(s.storage, c)
    requires ValidState(ProtocolOf(c.kind), d.state)
    ensures var t := AddConnection(s, c, d); LogCovers(before, t) && StoreOk(t.storage) && Grows(s.storage, t.storage)
  {
    if c !in s.storage.conns && s.enabled {
      MeaningOfCreate(s.log, c, d, before);
    }
  }

  lemma UpdateKeepsCover(before: Table, s: Serializer, c: Connection, row: Row)
    requires LogCovers(before, s) && StoreOk(s.storage) && c in s.storage.conns
    ensures var d := s.storage.conns[c];
      var p := ProtocolOf(c.kind);
      var t := UpdateConnection(s, c, QueryData(d, p, row), FlagsOf(QueryChanges(d, p, row)));
      LogCovers(before, t) && StoreOk(t.storage) && Grows(s.storage, t.storage)
  {
    var d := s.storage.conns[c];
    var p := ProtocolOf(c.kind);
    ChangesCoverQuery(d, p, row);
    var n, flags := QueryData(d, p, row), FlagsOf(QueryChanges(d, p, row));
    if flags == 0 {
      assert s.storage.conns[c := n] == s.storage.conns;
    } else if s.enabled {
      MeaningAppend(s.log, Serialize(c, n, Update, flags), before);
      ParseUpdate(c, n, flags);
    }
  }

  lemma RemoveKeepsCover(before: Table, s: Serializer, c: Connection)
    requires LogCovers(before, s) && StoreOk(s.storage)
    ensures var t := RemoveConnection(s, c); LogCovers(before, t) && StoreOk(t.storage) && Grows(s.storage, t.storage)
  {
    if c in s.storage.conns && s.enabled {
      MeaningAppend(s.log, Serialize(c, s.storage.conns[c], Remove, -1), before);
      ParseRemove(c, s.storage.conns[c], -1);
    }
  }

  lemma {:induction false} RowsKeepCover(before: Table, s: Serializer, rows: seq<Row>, refill: bool)
    requires LogCovers(before, s) && StoreOk(s.storage)
    ensures var t := HandleRows(s, rows, refill);
      LogCovers(before, t) && StoreOk(t.storage) && Grows(s.storage, t.storage) && t.enabled == s.enabled
    decreases |rows|
  {
    if rows == [] {
    } else {
      RowsKeepCover(before, s, rows[..|rows| - 1], refill);
      var m, row := HandleRows(s, rows[..|rows| - 1], refill), rows[|rows| - 1];
      if row.conn.Some? {
        var c := row.conn.value;
        if refill {
          var d := ConnectionData(if ProtocolOf(c.kind) == TCP then TcpStateToEnum(row.tcpState) else 0,
                                  Traffic(row.replPackets, row.origPackets, row.replBytes, row.origBytes, 0, 0));
          AddKeepsCover(before, m.(storage := Intern(m.storage, c)), c, d);
        } else if Interned(m.storage, c) && c in m.storage.conns {
          UpdateKeepsCover(before, m, c, row);
        }
      }
    }
  }

  lemma {:induction false} EventsKeepCover(before: Table, s: Serializer, events: seq<Event>)
    requires LogCovers(before, s) && StoreOk(s.storage) && EventsInterned(events, s.storage)
    ensures var t := HandleEvents(s, events);
      LogCovers(before, t) && StoreOk(t.storage) && Grows(s.storage, t.storage) && t.enabled == s.enabled
    decreases |events|
  {
    if events == [] {
    } else {
      EventsKeepCover(before, s, events[..|events| - 1]);
      var m, e := HandleEvents(s, events[..|events| - 1]), events[|events| - 1];
      if e.kind == NewConnection {
        AddKeepsCover(before, m, e.conn, ConnectionData(0, NO_TRAFFIC));
      } else {
        RemoveKeepsCover(before, m, e.conn);
      }
    }
  }

  /**
    A log that still exists at the end of a tick turns the table before the tick into the table
    after it; a refill leaves no log at all, whatever was logged or enabled before.
  */
  lemma TickIsCovered(k: Collector, s: Serializer, rows: seq<Row>)
    requires s.log == [] && StoreOk(s.storage) && EventsInterned(k.events, s.storage)
    ensures var t := CollectSerializer(k, s, rows);
      && StoreOk(t.storage) && Grows(s.storage, t.storage)
      && t.enabled == (s.enabled && !(Runs(k) && k.isRefillRequired))
      && (t.enabled ==> Meaning(t.log, s.storage.conns) == Some(t.storage.conns))
      && (!t.enabled ==> t.log == [])
  {
    var before := s.storage.conns;
    if Runs(k) {
      if k.isRefillRequired {
        RowsKeepCover(before, ClearConnections(s), rows, true);
      } else {
        EventsKeepCover(before, s, k.events);
        RowsKeepCover(before, HandleEvents(s, k.events), rows, false);
      }
    }
  }

  // ---------------------------------------------------------------- full dump

  /** ConnectionStorageSerializer over the storage in iteration order `order`. */
  function DumpDocs(t: Table, order: seq<Connection>): seq<Doc>
    requires forall i :: 0 <= i < |order| ==> order[i] in t
  {
    if order == [] then []
    else DumpDocs(t, order[..|order| - 1]) + [Serialize(order[|order| - 1], t[order[|order| - 1]], Create, -1)]
  }

  /** An iteration order of the table's keys. */
  predicate IsOrder(t: Table, order: seq<Connection>) {
    && (forall i :: 0 <= i < |order| ==> order[i] in t)
    && (forall i, j :: 0 <= i < j < |order| ==> order[i] != order[j])
    && (forall c :: c in t ==> c in order)
  }

  /** Every table has an iteration order. */
  lemma {:induction false} OrderExists(t: Table) returns (order: seq<Connection>)
    ensures IsOrder(t, order)
    decreases |t|
  {
    if t == map[] {
      order := [];
    } else {
      var c :| c in t;
      var rest := OrderExists(t - {c});
      order := rest + [c];
    }
  }

  function Selected(t: Table, order: seq<Connection>): Table {
    map c | c in t && c in order :: t[c]
  }

  lemma StoredState(t: Table, c: Connection)
    requires ValidTable(t) && c in t
    ensures ValidState(ProtocolOf(c.kind), t[c].state)
  {
  }

  /** A dump gives a cleared replica exactly the dumped connections, in any iteration order. */
  lemma {:induction false} DumpMeaning(t: Table, order: seq<Connection>)
    requires ValidTable(t)
    requires forall i :: 0 <= i < |order| ==> order[i] in t
    requires forall i, j :: 0 <= i < j < |order| ==> order[i] != order[j]
    ensures Meaning(DumpDocs(t, order), map[]) == Some(Selected(t, order))
    decreases |order|
  {
    hide Parse, Serialize, Effect, ValidState;
    if order == [] {
      assert Selected(t, order) == map[];
    } else {
      var rest, c := order[..|order| - 1], order[|order| - 1];
      DumpMeaning(t, rest);
      StoredState(t, c);
      MeaningOfCreate(DumpDocs(t, rest), c, t[c], map[]);
      assert order == rest + [c];
      assert Selected(t, rest)[c := t[c]] == Selected(t, order);
    }
  }

  lemma DumpIsTable(t: Table, order: seq<Connection>)
    requires ValidTable(t) && IsOrder(t, order)
    ensures Meaning(DumpDocs(t, order), map[]) == Some(t)
  {
    DumpMeaning(t, order);
    assert Selected(t, order) == t;
  }
}
