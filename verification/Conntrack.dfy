/**
  The conntrack collector (Source/Collector_Netfilter/Conntrack.cpp) as an object that feeds a serializer: events
  are queued as the kernel reports them, and each update replays them and then goes through a dump of the table.
*/
module Conntrack {
  import opened Options
  import opened Connections
  import opened Collection
  import opened CollectedTable
  import opened UpdateSerializer

  function EventFor(c: Connection, isNew: bool): Event {
    Event(if isNew then NewConnection else RemovedConnection, c)
  }

  lemma RowsMore(s: Serializer, rows: seq<Row>, n: nat, refill: bool)
    requires n < |rows|
    ensures HandleRows(s, rows[..n + 1], refill) == HandleRow(HandleRows(s, rows[..n], refill), rows[n], refill)
  {
    assert rows[..n + 1][..n] == rows[..n];
  }

  lemma EventsMore(s: Serializer, events: seq<Event>, n: nat)
    requires n < |events|
    ensures HandleEvents(s, events[..n + 1]) == HandleEvent(HandleEvents(s, events[..n]), events[n])
  {
    assert events[..n + 1][..n] == events[..n];
  }

  class Conntrack {
    var events: seq<Event>
    var isInitialized: bool
    var isRefillRequired: bool
    var isPaused: bool
    const callback: ConnectionUpdateSerializer

    function View(): Collector
      reads this
    {
      Collector(events, isInitialized, isRefillRequired, isPaused)
    }

    /** Constructor and init: a refill is due. */
    constructor (callback: ConnectionUpdateSerializer)
      ensures View() == Collector([], true, true, false) && this.callback == callback
    {
      this.callback := callback;
      events, isInitialized, isRefillRequired, isPaused := [], true, true, false;
    }

    /** ExtractAddressPort on a row or event about a TCP or UDP connection. */
    method ExtractAddressPort(c: Connection, add: bool) returns (found: bool)
      modifies callback`storage
      ensures found == (add || Interned(old(callback.storage), c))
      ensures callback.storage == if add then Intern(old(callback.storage), c) else old(callback.storage)
    {
      var src := callback.GetAddress(SrcAddress(c), add);
      var dst := callback.GetAddress(DstAddress(c), add);
      if !src || !dst { return false; }
      var srcPort := callback.GetPort(SrcPort(c), add);
      var dstPort := callback.GetPort(DstPort(c), add);
      if add {
        assert callback.storage.addresses == old(callback.storage.addresses) + {SrcAddress(c), DstAddress(c)};
        assert callback.storage.ports == old(callback.storage.ports) + {SrcPort(c), DstPort(c)};
      }
      return srcPort && dstPort;
    }

    /** An event read from the kernel between updates. */
    method OnEvent(conn: Option<Connection>, isNew: bool)
      modifies this`events, callback`storage
      ensures (View(), callback.View()) ==
        if conn.None? then old((View(), callback.View()))
        else KernelEvent(old(View()), old(callback.View()), EventFor(conn.value, isNew))
      ensures events ==
        if conn.Some? && !isRefillRequired && (isNew || Interned(old(callback.storage), conn.value))
        then old(events) + [Event(if isNew then NewConnection else RemovedConnection, conn.value)]
        else old(events)
      ensures conn.Some? && !isRefillRequired && isNew ==> Interned(callback.storage, conn.value)
    {
      if isRefillRequired || conn.None? { return; }
      var found := ExtractAddressPort(conn.value, isNew);
      if !found { return; }
      events := events + [EventFor(conn.value, isNew)];
    }

    /** One direction's byte counter: the speed is what was counted since the last reading. */
    static method RefreshBytes(bytes: Uint64, speed: Uint64, value: Uint64)
      returns (newBytes: Uint64, newSpeed: Uint64, bytesChanged: bool, speedChanged: bool)
      ensures newBytes == value && newSpeed == Speed(value, bytes)
      ensures bytesChanged == (bytes != value) && speedChanged == (speed != newSpeed)
    {
      newBytes, newSpeed, bytesChanged, speedChanged := bytes, speed, false, false;
      var difference := Speed(value, bytes);
      if difference != 0 {
        newBytes, bytesChanged := value, true;
        if difference != newSpeed { newSpeed, speedChanged := difference, true; }
      } else if newSpeed != 0 {
        newSpeed, speedChanged := 0, true;
      }
    }

    /** The new values of a listed connection and the flags of what changed. */
    static method Refresh(d: ConnectionData, protocol: Protocol, row: Row) returns (n: ConnectionData, ch: Changes)
      ensures n == QueryData(d, protocol, row) && ch == QueryChanges(d, protocol, row)
    {
      hide Speed, TcpStateIsEqual, TcpStateToEnum;
      var state, stateChanged := d.state, false;
      if protocol == TCP && !TcpStateIsEqual(state, row.tcpState) {
        state, stateChanged := TcpStateToEnum(row.tcpState), true;
      }
      var rxPackets, rxPacketsChanged := d.traffic.rxPackets, false;
      if rxPackets != row.replPackets { rxPackets, rxPacketsChanged := row.replPackets, true; }
      var txPackets, txPacketsChanged := d.traffic.txPackets, false;
      if txPackets != row.origPackets { txPackets, txPacketsChanged := row.origPackets, true; }
      var rxBytes, rxSpeed, rxBytesChanged, rxSpeedChanged :=
        RefreshBytes(d.traffic.rxBytes, d.traffic.rxSpeed, row.replBytes);
      var txBytes, txSpeed, txBytesChanged, txSpeedChanged :=
        RefreshBytes(d.traffic.txBytes, d.traffic.txSpeed, row.origBytes);
      n := ConnectionData(state, Traffic(rxPackets, txPackets, rxBytes, txBytes, rxSpeed, txSpeed));
      ch := Changes(stateChanged, rxPacketsChanged, txPacketsChanged, rxBytesChanged, txBytesChanged,
                    rxSpeedChanged, txSpeedChanged);
    }

    method HandleQuery(row: Row)
      modifies callback
      ensures callback.View() == HandleRow(old(callback.View()), row, isRefillRequired)
      ensures RowRead(old(callback.storage), row, isRefillRequired, callback.storage.conns)
    {
      RowIsRead(callback.View(), row, isRefillRequired);
      hide RowRead;
      if row.conn.None? { return; }
      var c := row.conn.value;
      var found := ExtractAddressPort(c, isRefillRequired);
      if !found { return; }
      var protocol := ProtocolOf(c.kind);
      if isRefillRequired {
        var state := 0;
        if protocol == TCP { state := TcpStateToEnum(row.tcpState); }
        callback.Add(c, ConnectionData(state, Traffic(row.replPackets, row.origPackets, row.replBytes, row.origBytes, 0, 0)));
      } else {
        if c !in callback.storage.conns { return; }
        var d, changes := Refresh(callback.storage.conns[c], protocol, row);
        var flags := FlagsOf(changes);
        callback.storage := callback.storage.(conns := callback.storage.conns[c := d]);
        if flags != 0 { callback.Update(c, flags); }
      }
    }

    /** `rows` is what the dump query reports. */
    method OnUpdate(rows: seq<Row>)
      modifies this, callback
      ensures callback.View() == CollectSerializer(old(View()), old(callback.View()), rows)
      ensures View() == CollectCollector(old(View()))
      ensures isInitialized == old(isInitialized) && isPaused == old(isPaused)
      ensures isInitialized && !isPaused ==> events == [] && !isRefillRequired
      ensures old(WellInterned(callback.storage) && EventsInterned(events, callback.storage)) ==>
        TableAfter(old(callback.storage.conns), old(View()), rows, callback.storage.conns)
    {
      if WellInterned(callback.storage) && EventsInterned(events, callback.storage) {
        CollectedIsTable(View(), callback.View(), rows);
      }
      hide TableAfter, WellInterned, EventsInterned;
      if !isInitialized || isPaused { return; }
      ghost var start := if isRefillRequired then ClearConnections(callback.View()) else HandleEvents(callback.View(), events);
      if isRefillRequired {
        callback.Clear();
      } else {
        ReplayEvents();
      }
      events := [];
      for i := 0 to |rows|
        invariant callback.View() == HandleRows(start, rows[..i], isRefillRequired)
        invariant events == [] && isRefillRequired == old(isRefillRequired) && isInitialized && !isPaused
      {
        RowsMore(start, rows, i, isRefillRequired);
        HandleQuery(rows[i]);
      }
      assert rows[..|rows|] == rows;
      isRefillRequired := false;
    }

    method ReplayEvents()
      modifies callback
      ensures callback.View() == HandleEvents(old(callback.View()), events)
    {
      for i := 0 to |events|
        invariant callback.View() == HandleEvents(old(callback.View()), events[..i])
      {
        EventsMore(old(callback.View()), events, i);
        match events[i].kind
        case NewConnection => callback.Add(events[i].conn, ConnectionData(0, NO_TRAFFIC));
        case RemovedConnection => callback.Remove(events[i].conn);
      }
      assert events[..|events|] == events;
    }
  }
}
