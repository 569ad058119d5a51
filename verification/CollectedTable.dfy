/**
  What table a collector update makes of the kernel's events and of the rows of the conntrack dump, said of the
  connections themselves.
*/
module CollectedTable {
  import opened Connections
  import opened Collection

  /** What the events and the rows say about one connection, oldest first. */
  function EventsAbout(events: seq<Event>, c: Connection): seq<EventKind> {
    if events == [] then []
    else
      var rest, e := EventsAbout(events[..|events| - 1], c), events[|events| - 1];
      if e.conn == c then rest + [e.kind] else rest
  }

  function RowsAbout(rows: seq<Row>, c: Connection): seq<Row> {
    if rows == [] then []
    else
      var rest, row := RowsAbout(rows[..|rows| - 1], c), rows[|rows| - 1];
      if row.conn.Some? && row.conn.value == c then rest + [row] else rest
  }

  /** The last event about a connection says whether it is there. */
  predicate Stays(before: Table, events: seq<Event>, c: Connection) {
    var kinds := EventsAbout(events, c);
    if kinds == [] then c in before else kinds[|kinds| - 1] == NewConnection
  }

  /** A connection keeps its data unless it was removed in the meantime; a new one starts from zero. */
  function StartingFrom(before: Table, events: seq<Event>, c: Connection): ConnectionData {
    if c in before && RemovedConnection !in EventsAbout(events, c) then before[c]
    else ConnectionData(0, Traffic(0, 0, 0, 0, 0, 0))
  }

  /** Unsigned 64-bit counters: the speed leads from the old reading to the new one. */
  predicate Leads(from: Uint64, speed: Uint64, to: Uint64) { (from + speed) % 0x1_0000_0000_0000_0000 == to }

  /** `n` is what `d` becomes when its counters had the readings rx and tx and the row is read. */
  predicate ReadOff(d: ConnectionData, n: ConnectionData, c: Connection, row: Row, rx: Uint64, tx: Uint64) {
    && n.traffic.rxPackets == row.replPackets && n.traffic.txPackets == row.origPackets
    && n.traffic.rxBytes == row.replBytes && n.traffic.txBytes == row.origBytes
    && Leads(rx, n.traffic.rxSpeed, row.replBytes) && Leads(tx, n.traffic.txSpeed, row.origBytes)
    && n.state == if ProtocolOf(c.kind) == TCP then TcpStateToEnum(row.tcpState) else d.state
  }

  /** The last row about a connection decides; the speed is what was counted since the reading before it. */
  predicate Updated(d: ConnectionData, n: ConnectionData, c: Connection, rows: seq<Row>) {
    if rows == [] then n == d
    else if |rows| == 1 then ReadOff(d, n, c, rows[0], d.traffic.rxBytes, d.traffic.txBytes)
    else ReadOff(d, n, c, rows[|rows| - 1], rows[|rows| - 2].replBytes, rows[|rows| - 2].origBytes)
  }

  /** A connection that a refill finds has the counters of its first row, and no speed yet. */
  predicate Found(n: ConnectionData, c: Connection, row: Row) {
    && n.traffic == Traffic(row.replPackets, row.origPackets, row.replBytes, row.origBytes, 0, 0)
    && n.state == if ProtocolOf(c.kind) == TCP then TcpStateToEnum(row.tcpState) else 0
  }

  /** The table that a collector update leaves. */
  ghost predicate TableAfter(before: Table, k: Collector, rows: seq<Row>, after: Table) {
    if !k.isInitialized || k.isPaused then after == before
    else if k.isRefillRequired then
      forall c :: (c in after <==> RowsAbout(rows, c) != []) && (c in after ==> Found(after[c], c, RowsAbout(rows, c)[0]))
    else
      forall c :: (c in after <==> Stays(before, k.events, c))
        && (c in after ==> Updated(StartingFrom(before, k.events, c), after[c], c, RowsAbout(rows, c)))
  }

  /** What one row does to the storage. */
  ghost predicate RowRead(before: Storage, row: Row, refill: bool, after: Table) {
    if row.conn.None? then after == before.conns
    else
      var c := row.conn.value;
      if refill then
        && after.Keys == before.conns.Keys + {c}
        && (forall d :: d in before.conns ==> after[d] == before.conns[d])
        && (c !in before.conns ==> Found(after[c], c, row))
      else if c !in before.conns || !Interned(before, c) then after == before.conns
      else
        && after.Keys == before.conns.Keys
        && (forall d :: d in before.conns && d != c ==> after[d] == before.conns[d])
        && ReadOff(before.conns[c], after[c], c, row, before.conns[c].traffic.rxBytes, before.conns[c].traffic.txBytes)
  }

  // ---------------------------------------------------------------- what the functions of the collector do

  lemma RowIsRead(s: Serializer, row: Row, refill: bool)
    ensures RowRead(s.storage, row, refill, HandleRow(s, row, refill).storage.conns)
  {
    hide Serialize, FlagsOf;
  }

  lemma {:induction false} EventsLeave(s: Serializer, events: seq<Event>, c: Connection)
    ensures var t := HandleEvents(s, events).storage.conns;
      && (c in t <==> Stays(s.storage.conns, events, c))
      && (c in t ==> t[c] == StartingFrom(s.storage.conns, events, c))
    decreases |events|
  {
    hide Serialize;
    if events == [] {
    } else {
      EventsLeave(s, events[..|events| - 1], c);
    }
  }

  lemma {:induction false} EventsIntern(s: Serializer, events: seq<Event>)
    requires WellInterned(s.storage) && EventsInterned(events, s.storage)
    ensures var t := HandleEvents(s, events).storage;
      WellInterned(t) && t.addresses == s.storage.addresses && t.ports == s.storage.ports
    decreases |events|
  {
    hide Serialize;
    if events == [] {
    } else {
      EventsIntern(s, events[..|events| - 1]);
    }
  }

  lemma {:induction false} RowsIntern(s: Serializer, rows: seq<Row>)
    requires WellInterned(s.storage)
    ensures WellInterned(HandleRows(s, rows, false).storage)
    decreases |rows|
  {
    hide Serialize, QueryData, QueryChanges, FlagsOf;
    if rows == [] {
    } else {
      RowsIntern(s, rows[..|rows| - 1]);
    }
  }

  lemma {:induction false} RowsUpdate(s: Serializer, rows: seq<Row>, c: Connection)
    requires WellInterned(s.storage)
    ensures var t := HandleRows(s, rows, false).storage.conns;
      && (c in t <==> c in s.storage.conns)
      && (c in t ==> Updated(s.storage.conns[c], t[c], c, RowsAbout(rows, c)))
    decreases |rows|
  {
    if rows == [] {
    } else {
      var rest, row := rows[..|rows| - 1], rows[|rows| - 1];
      RowsUpdate(s, rest, c);
      RowsIntern(s, rest);
      RowIsRead(HandleRows(s, rest, false), row, false);
      RowUpdates(HandleRows(s, rest, false).storage, row, HandleRows(s, rows, false).storage.conns, c);
      hide HandleRow, WellInterned, TcpStateToEnum, RowRead, ReadOff;
    }
  }

  /** A row changes the connection it is about, if that is stored, and no other. */
  lemma RowUpdates(before: Storage, row: Row, after: Table, c: Connection)
    requires WellInterned(before) && RowRead(before, row, false, after)
    ensures c in after <==> c in before.conns
    ensures c in after && row.conn.Some? && row.conn.value == c ==>
      ReadOff(before.conns[c], after[c], c, row, before.conns[c].traffic.rxBytes, before.conns[c].traffic.txBytes)
    ensures c in after && !(row.conn.Some? && row.conn.value == c) ==> after[c] == before.conns[c]
  {
    hide ReadOff;
  }

  lemma {:induction false} RowsRefill(s: Serializer, rows: seq<Row>, c: Connection)
    requires s.storage.conns == map[]
    ensures var t := HandleRows(s, rows, true).storage.conns;
      && (c in t <==> RowsAbout(rows, c) != [])
      && (c in t ==> Found(t[c], c, RowsAbout(rows, c)[0]))
    decreases |rows|
  {
    if rows == [] {
    } else {
      var rest, row := rows[..|rows| - 1], rows[|rows| - 1];
      RowsRefill(s, rest, c);
      RowIsRead(HandleRows(s, rest, true), row, true);
      hide HandleRow, TcpStateToEnum;
    }
  }

  /** The collector update leaves the table that events and rows describe. */
  lemma CollectedIsTable(k: Collector, s: Serializer, rows: seq<Row>)
    requires WellInterned(s.storage) && EventsInterned(k.events, s.storage)
    ensures TableAfter(s.storage.conns, k, rows, CollectSerializer(k, s, rows).storage.conns)
  {
    hide Stays, StartingFrom, Updated, Found, RowsAbout, HandleRows, HandleEvents, WellInterned, EventsInterned;
    if Runs(k) {
      if k.isRefillRequired {
        forall c ensures var t := CollectSerializer(k, s, rows).storage.conns;
          (c in t <==> RowsAbout(rows, c) != []) && (c in t ==> Found(t[c], c, RowsAbout(rows, c)[0]))
        {
          RowsRefill(ClearConnections(s), rows, c);
        }
      } else {
        var m := HandleEvents(s, k.events);
        EventsIntern(s, k.events);
        forall c ensures var t := CollectSerializer(k, s, rows).storage.conns;
          && (c in t <==> Stays(s.storage.conns, k.events, c))
          && (c in t ==> Updated(StartingFrom(s.storage.conns, k.events, c), t[c], c, RowsAbout(rows, c)))
        {
          EventsLeave(s, k.events, c);
          RowsUpdate(m, rows, c);
        }
      }
    }
  }

  /** The states that the kernel names, as they are sent. */
  lemma TcpStateNamed()
    ensures StateName(TCP, TcpStateToEnum(RawSynSent)) == StateName(TCP, TcpStateToEnum(RawSynSent2)) == "SYN_SENT"
    ensures StateName(TCP, TcpStateToEnum(RawSynRecv)) == "SYN_RECEIVED"
    ensures StateName(TCP, TcpStateToEnum(RawEstablished)) == "ESTABLISHED"
    ensures StateName(TCP, TcpStateToEnum(RawFinWait)) == "FIN_WAIT"
    ensures StateName(TCP, TcpStateToEnum(RawCloseWait)) == "CLOSE_WAIT"
    ensures StateName(TCP, TcpStateToEnum(RawLastAck)) == "LAST_ACK"
    ensures StateName(TCP, TcpStateToEnum(RawTimeWait)) == "TIME_WAIT"
    ensures StateName(TCP, TcpStateToEnum(RawClose)) == "CLOSING"
    ensures TcpStateToEnum(RawNone) == TcpStateToEnum(RawOther) == 0
  {
  }
}
