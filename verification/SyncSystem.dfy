/**
  Server and any number of clients as one transition system: FIFO channels in both
  directions, one step per message, send, tick, pause, refill or lost connection.
  The invariant proved here gives synchronisation safety and freedom from protocol errors
  for every run.
*/
module SyncSystem {
  import opened Options
  import opened Connections
  import opened Collection
  import opened Protocol

  datatype Phase = AwaitBanner | AwaitHello | Streaming | Ended

  /**
    A reader's position in a server stream: the handshake phase, the number of the last tick
    read and the flags of the last DATA_STATUS read.
  */
  datatype Cursor = Cursor(phase: Phase, tick: nat, dataFlags: bool, updateFlags: bool)

  /** What a DATA message sent at tick `tick` must hold; history[k] is the server table after tick k. */
  predicate DataOk(history: seq<Table>, tick: nat, isUpdate: bool, items: seq<Doc>) {
    && tick < |history|
    && (isUpdate ==> 0 < tick)
    && Meaning(items, if isUpdate then history[tick - 1] else map[]) == Some(history[tick])
  }

  /** Reading one message: the language of streams a server may send; None when the message is out of place. */
  function Advance(history: seq<Table>, available: bool, k: Cursor, m: ServerMsg): Option<Cursor> {
    match m
    case Banner(version) =>
      if k.phase == AwaitBanner && version == VERSION then Some(k.(phase := AwaitHello)) else None
    case Hello =>
      if k.phase == AwaitHello then Some(Cursor(Streaming, k.tick, false, false)) else None
    case ServerBye =>
      if k.phase == Streaming then Some(k.(phase := Ended)) else None
    case UpdateTick(timestamp) =>
      if k.phase == Streaming && k.tick + 1 < |history| && timestamp == (k.tick + 1) % 0x1_0000_0000
      then Some(k.(tick := k.tick + 1)) else None
    case DataStatus(d, u) =>
      if k.phase == Streaming && d == available && (u ==> available)
      then Some(k.(dataFlags := d, updateFlags := u)) else None
    case Data(isUpdate, items) =>
      if k.phase == Streaming && available && k.dataFlags && (isUpdate ==> k.updateFlags) && DataOk(history, k.tick, isUpdate, items)
      then Some(k) else None
  }

  function ReadAll(history: seq<Table>, available: bool, k: Cursor, stream: seq<ServerMsg>): Option<Cursor>
    decreases |stream|
  {
    if stream == [] then Some(k)
    else match Advance(history, available, k, stream[0])
      case None => None
      case Some(n) => ReadAll(history, available, n, stream[1..])
  }

  function Rank(p: Phase): nat {
    match p case AwaitBanner => 0 case AwaitHello => 1 case Streaming => 2 case Ended => 3
  }

  lemma {:induction false} ReadAppend(history: seq<Table>, available: bool, k: Cursor, a: seq<ServerMsg>, b: seq<ServerMsg>)
    ensures ReadAll(history, available, k, a + b) ==
      match ReadAll(history, available, k, a)
      case None => None
      case Some(n) => ReadAll(history, available, n, b)
    decreases |a|
  {
    if a == [] {
      assert a + b == b;
    } else {
      assert (a + b)[1..] == a[1..] + b;
      if Advance(history, available, k, a[0]).Some? {
        ReadAppend(history, available, Advance(history, available, k, a[0]).value, a[1..], b);
      }
    }
  }

  lemma {:induction false} ReadLongerHistory(history: seq<Table>, t: Table, available: bool, k: Cursor, stream: seq<ServerMsg>)
    requires ReadAll(history, available, k, stream).Some?
    ensures ReadAll(history + [t], available, k, stream) == ReadAll(history, available, k, stream)
    decreases |stream|
  {
    if stream == [] {
    } else {
      ReadLongerHistory(history, t, available, Advance(history, available, k, stream[0]).value, stream[1..]);
    }
  }

  lemma {:induction false} ReadRank(history: seq<Table>, available: bool, k: Cursor, stream: seq<ServerMsg>)
    requires ReadAll(history, available, k, stream).Some?
    ensures Rank(k.phase) <= Rank(ReadAll(history, available, k, stream).value.phase)
    ensures k.phase == AwaitHello == ReadAll(history, available, k, stream).value.phase ==> stream == []
    decreases |stream|
  {
    if stream == [] {
    } else {
      ReadRank(history, available, Advance(history, available, k, stream[0]).value, stream[1..]);
    }
  }

  /** Dropping DATA messages leaves the rest readable, and ends at the same place. */
  lemma {:induction false} ReadWithoutData(history: seq<Table>, available: bool, k: Cursor, stream: seq<ServerMsg>)
    requires ReadAll(history, available, k, stream).Some?
    ensures ReadAll(history, available, k, WithoutData(stream)) == ReadAll(history, available, k, stream)
    decreases |stream|
  {
    if stream == [] {
    } else {
      var n := Advance(history, available, k, stream[0]).value;
      ReadWithoutData(history, available, n, stream[1..]);
      if !stream[0].Data? {
        assert WithoutData(stream)[1..] == WithoutData(stream[1..]);
      }
    }
  }

  // ---------------------------------------------------------------- the system

  /**
    One client and its server session. `wire` is what the server's socket has sent and the client not
    yet read. `cursor` and `processed` are history variables: where the client reads in the stream, and
    the number of the last tick whose UPDATE_TICK it acted on.
  */
  datatype Link = Link(client: Client, session: Session, wire: seq<ServerMsg>, cursor: Cursor, processed: nat)

  datatype System = System(
    available: bool, timestamp: Uint32, collector: Collector, ser: Serializer, links: seq<Link>, history: seq<Table>)

  datatype Step =
    | Connect(client: Client)
    | Deliver(i: nat)
    | Serve(i: nat)
    | LoadWriter(i: nat)
    | SendPart(i: nat)
    | SendRest(i: nat)
    | Pause(i: nat, paused: bool)
    | LeaveClient(i: nat)
    | LeaveServer(i: nat)
    | LoseClient(i: nat, kept: nat)
    | LoseServer(i: nat)
    | Kernel(event: Event)
    | RequireRefill
    | PauseCollector(paused: bool)
    | Tick(rows: seq<Row>, order: seq<Connection>)

  function WriterMsgs(w: Writer): seq<ServerMsg> {
    match w case Idle => [] case Sending(m, _) => [m]
  }

  /** Everything the client has yet to read, oldest first. */
  function Stream(l: Link): seq<ServerMsg> {
    l.wire + WriterMsgs(l.session.writer) + l.session.queue
  }

  predicate CanConnect(c: Client) {
    c.state == Disconnected && !c.isSynchronized && WellInterned(c.replica)
  }

  function NewLink(c: Client): Link {
    Link(ClientConnect(c), NewSession(), [], Cursor(AwaitBanner, 0, false, false), 0)
  }

  predicate CanDeliver(l: Link) { l.client.state != Disconnected && l.wire != [] }
  predicate CanServe(l: Link) { l.session.state != Disconnected && l.client.outbox != [] }

  /** The client reads one message; a thrown exception disconnects it. */
  function DeliverLink(l: Link, history: seq<Table>, available: bool): Link
    requires CanDeliver(l)
  {
    var r := ClientOnMessage(l.client, l.wire[0]);
    var c := if r.Next? then r.client else ClientDrop(r.client, |r.client.outbox|);
    var k := Advance(history, available, l.cursor, l.wire[0]);
    var cursor := if k.Some? then k.value else l.cursor;
    Link(c, l.session, l.wire[1..], cursor, if c.state == Connected then cursor.tick else l.processed)
  }

  /** The server reads one message; a refused message disconnects the session. */
  function ServeLink(l: Link, available: bool, ser: Serializer, now: nat): (Link, Serializer)
    requires CanServe(l)
  {
    var m := l.client.outbox[0];
    var r := ServerOnMessage(available, ser, l.session, m);
    var rest := l.client.(outbox := l.client.outbox[1..]);
    if r.Refused? then (l.(client := rest, session := SessionDrop(r.session)), ser)
    else (Link(rest, r.session, l.wire, if m.ClientHello? then l.cursor.(tick := now) else l.cursor, l.processed), r.ser)
  }

  /** The send loop takes the next message from the queue. */
  function LoadLink(l: Link): Link {
    if l.session.state == Disconnected || l.session.writer.Sending? then l
    else if l.session.queue == [] then l.(session := l.session.(isSendingData := false))
    else
      var m := l.session.queue[0];
      l.(session := l.session.(writer := Sending(m, false), isSendingData := m.Data?, queue := l.session.queue[1..]))
  }

  function SendPartLink(l: Link): Link {
    if l.session.state == Disconnected || l.session.writer.Idle? then l
    else l.(session := l.session.(writer := Sending(l.session.writer.msg, true)))
  }

  /** The writer finishes its message and the send loop goes on. */
  function SendRestLink(l: Link): Link {
    if l.session.state == Disconnected || l.session.writer.Idle? then l
    else LoadLink(l.(wire := l.wire + [l.session.writer.msg], session := l.session.(writer := Idle)))
  }

  function LinkStep(l: Link, step: Step): Link {
    match step
    case LoadWriter(_) => LoadLink(l)
    case SendPart(_) => SendPartLink(l)
    case SendRest(_) => SendRestLink(l)
    case Pause(_, paused) => l.(client := ClientSetPaused(l.client, paused))
    case LeaveClient(_) => l.(client := ClientDisconnect(l.client))
    case LeaveServer(_) => l.(session := SessionDisconnect(l.session))
    case LoseClient(_, kept) => l.(client := ClientDrop(l.client, kept))
    case LoseServer(_) => l.(session := SessionDrop(l.session))
    case _ => l
  }

  predicate SomeWantsUpdate(links: seq<Link>) { exists i :: 0 <= i < |links| && WantsUpdate(links[i].session) }
  predicate SomeWantsDump(links: seq<Link>) { exists i :: 0 <= i < |links| && WantsDump(links[i].session) }

  function CollectedSerializer(s: System, rows: seq<Row>): Serializer {
    if s.available then CollectSerializer(s.collector, s.ser, rows) else s.ser
  }

  function TickUpdate(s: System, rows: seq<Row>): Option<seq<Doc>> {
    var ser := CollectedSerializer(s, rows);
    if s.available && ser.enabled && SomeWantsUpdate(s.links) then Some(ser.log) else None
  }

  function TickDump(s: System, rows: seq<Row>, order: seq<Connection>): Option<seq<Doc>>
    requires IsOrder(CollectedSerializer(s, rows).storage.conns, order)
  {
    if s.available && SomeWantsDump(s.links) then Some(DumpDocs(CollectedSerializer(s, rows).storage.conns, order)) else None
  }

  function TickLink(l: Link, timestamp: Uint32, update: Option<seq<Doc>>, dump: Option<seq<Doc>>): Link {
    l.(session := AfterTick(BeforeTick(l.session), timestamp, update, dump))
  }

  /** Server::onUpdate. */
  function TickSystem(s: System, rows: seq<Row>, order: seq<Connection>): System
    requires IsOrder(CollectedSerializer(s, rows).storage.conns, order)
  {
    var ser := CollectedSerializer(s, rows);
    var update, dump := TickUpdate(s, rows), TickDump(s, rows, order);
    var timestamp := NextTimestamp(s.timestamp);
    System(s.available, timestamp,
           if s.available then CollectCollector(s.collector) else s.collector,
           if s.available && ser.enabled then ser.(log := []) else ser,
           seq(|s.links|, i requires 0 <= i < |s.links| => TickLink(s.links[i], timestamp, update, dump)),
           s.history + [ser.storage.conns])
  }

  /** One step; a step that is not possible in a state leaves it as it is. */
  function After(s: System, step: Step): System {
    match step
    case Connect(c) => if CanConnect(c) then s.(links := s.links + [NewLink(c)]) else s
    case Deliver(i) =>
      if i < |s.links| && CanDeliver(s.links[i])
      then s.(links := s.links[i := DeliverLink(s.links[i], s.history, s.available)]) else s
    case Serve(i) =>
      if i < |s.links| && CanServe(s.links[i]) && |s.history| > 0 then
        var (l, ser) := ServeLink(s.links[i], s.available, s.ser, |s.history| - 1);
        s.(links := s.links[i := l], ser := ser)
      else s
    case Kernel(e) =>
      var (k, ser) := KernelEvent(s.collector, s.ser, e);
      s.(collector := k, ser := ser)
    case RequireRefill => s.(collector := s.collector.(isRefillRequired := true))
    case PauseCollector(p) => s.(collector := s.collector.(isPaused := p))
    case Tick(rows, order) =>
      if IsOrder(CollectedSerializer(s, rows).storage.conns, order) then TickSystem(s, rows, order) else s
    case _ => if step.i < |s.links| then s.(links := s.links[step.i := LinkStep(s.links[step.i], step)]) else s
  }

  function Run(s: System, steps: seq<Step>): System {
    if steps == [] then s else After(Run(s, steps[..|steps| - 1]), steps[|steps| - 1])
  }

  /** A started server without clients: timestamp 0, no connections, logging on, and a refill due. */
  function Initial(available: bool, collecting: bool): System {
    System(available, 0, Collector([], collecting, true, false), Serializer(Storage(map[], {}, {}), [], true), [], [map[]])
  }

  // ---------------------------------------------------------------- the invariant

  function Statuses(stream: seq<ServerMsg>): nat {
    if stream == [] then 0 else (if stream[0].DataStatus? then 1 else 0) + Statuses(stream[1..])
  }

  function Requests(outbox: seq<ClientMsg>): nat {
    if outbox == [] then 0 else (if outbox[0].RequestData? then 1 else 0) + Requests(outbox[1..])
  }

  function Awaited(c: Client): nat { if c.expected == ExpectStatus then 1 else 0 }

  predicate SessionMatches(s: Session, k: Cursor, now: nat) {
    match s.state
    case Opening => k.phase == AwaitHello
    case Connected =>
      && k.phase == Streaming && k.tick == now
      && (s.dataFlags ==> k.dataFlags) && (s.dataUpdateFlags ==> k.updateFlags)
    case Closing => k.phase == Ended
    case Disconnected => true
  }

  predicate ClientMatches(c: Client, k: Cursor, available: bool) {
    match c.state
    case Opening =>
      || (c.expected == ExpectBanner && k.phase == AwaitBanner && c.outbox == [])
      || (c.expected == ExpectHello && k.phase == AwaitHello)
    case Connected =>
      && k.phase == Streaming
      && (c.expected == ExpectNone || c.expected == ExpectStatus)
      && c.dataFlags == k.dataFlags && c.dataUpdateFlags == k.updateFlags
      && (c.timestamp == 0 || c.timestamp == k.tick % 0x1_0000_0000)
      && (available ==> c.requested)
    case Closing => k.phase == Streaming
    case Disconnected => true
  }

  /** The replica of a synchronised client is one tick behind exactly while it still waits for data. */
  predicate ReplicaOk(c: Client, processed: nat, history: seq<Table>, available: bool) {
    && WellInterned(c.replica)
    && (c.isSynchronized ==>
      && available && processed < |history|
      && (c.state == Connected || c.state == Closing)
      && if c.remaining
         then 0 < processed && c.replica.conns == history[processed - 1]
         else c.replica.conns == history[processed])
  }

  /** What a client may have sent, given the session that will read it. */
  predicate OutboxFits(c: Client, state: SessionState, available: bool) {
    && (state == Opening ==> c.outbox == [] || c.outbox == [ClientHello])
    && (state == Connected || state == Closing ==> ClientHello !in c.outbox)
    && (c.state == Opening || c.state == Connected ==> ClientBye !in c.outbox)
    && (c.state == Opening && c.expected == ExpectBanner ==> state == Opening || state == Disconnected)
    && (available ==> forall m :: m in c.outbox && m.RequestData? ==> m.dataFlags)
  }

  /** At most one request is under way, and only while its answer is awaited. */
  predicate CountOk(l: Link) {
    l.client.state == Opening || l.client.state == Connected ==>
      Statuses(Stream(l)) + Requests(l.client.outbox) <= Awaited(l.client)
  }

  predicate LinkOk(l: Link, history: seq<Table>, available: bool) {
    && |history| > 0
    && ReplicaOk(l.client, l.processed, history, available)
    && OutboxFits(l.client, l.session.state, available)
    && CountOk(l)
    && ClientMatches(l.client, l.cursor, available)
    && (l.client.state != Disconnected ==>
        && l.cursor.tick < |history|
        && (l.client.state == Connected ==> l.processed == l.cursor.tick)
        && var end := ReadAll(history, available, l.cursor, Stream(l));
           end.Some? && SessionMatches(l.session, end.value, |history| - 1))
    && (l.session.isSendingData ==> l.session.writer.Sending? && l.session.writer.msg.Data?)
    && (l.session.state == Opening ==> !l.session.dataFlags && !l.session.dataUpdateFlags)
  }

  predicate ServerOk(s: System) {
    && |s.history| > 0
    && s.history[|s.history| - 1] == s.ser.storage.conns
    && s.timestamp == (|s.history| - 1) % 0x1_0000_0000
    && s.ser.log == []
    && StoreOk(s.ser.storage)
    && EventsInterned(s.collector.events, s.ser.storage)
  }

  predicate SystemOk(s: System) {
    && ServerOk(s)
    && forall i :: 0 <= i < |s.links| ==> LinkOk(s.links[i], s.history, s.available)
  }

  lemma {:induction false} StatusesAppend(a: seq<ServerMsg>, b: seq<ServerMsg>)
    ensures Statuses(a + b) == Statuses(a) + Statuses(b)
    decreases |a|
  {
    if a == [] {
      assert a + b == b;
    } else {
      assert (a + b)[1..] == a[1..] + b;
      StatusesAppend(a[1..], b);
    }
  }

  lemma {:induction false} RequestsSnoc(a: seq<ClientMsg>, m: ClientMsg)
    ensures Requests(a + [m]) == Requests(a) + if m.RequestData? then 1 else 0
    decreases |a|
  {
    if a == [] {
      assert [m][1..] == [];
      assert Requests([]) == 0;
      assert [] + [m] == [m];
    } else {
      assert (a + [m])[1..] == a[1..] + [m];
      RequestsSnoc(a[1..], m);
    }
  }

  lemma {:induction false} StatusesWithoutData(a: seq<ServerMsg>)
    ensures Statuses(WithoutData(a)) == Statuses(a)
    decreases |a|
  {
    if a == [] {
    } else {
      StatusesWithoutData(a[1..]);
      if !a[0].Data? {
        assert WithoutData(a)[1..] == WithoutData(a[1..]);
      }
    }
  }

  // ---------------------------------------------------------------- what one client reaction does

  /** What a client's reaction may add to its outbox. */
  predicate Sends(c: Client, d: Client, available: bool) {
    || d.outbox == c.outbox
    || (d.outbox == c.outbox + [ClientHello] && c.state == Opening && c.expected == ExpectBanner)
    || (d.outbox == c.outbox + [ClientBye] && d.state == Closing)
    || (d.outbox == c.outbox + [RequestData(d.requested, d.requestedUpdate)] && d.state == Connected
        && d.expected == ExpectStatus && (available ==> d.requested))
  }

  lemma RequestSends(c: Client, available: bool)
    requires available ==> c.requested
    ensures Sends(c, ClientRequest(c), available)
    ensures c.state == Connected ==>
      Requests(ClientRequest(c).outbox) + Awaited(c) == Requests(c.outbox) + Awaited(ClientRequest(c))
  {
    var m := RequestData(c.requested, c.requestedUpdate);
    var d := ClientRequest(c);
    if c.state == Connected && c.expected == ExpectNone {
      assert d.outbox == c.outbox + [m];
      RequestsSnoc(c.outbox, m);
      assert Requests(d.outbox) == Requests(c.outbox) + 1;
    } else {
      assert d.outbox == c.outbox;
    }
  }

  /** No more requests are on their way than answers awaited, given how many were just answered. */
  predicate Balanced(c: Client, d: Client, answered: nat) {
    Requests(d.outbox) + Awaited(c) <= Requests(c.outbox) + Awaited(d) + answered
  }

  /** A reaction that does not throw, ends where the reader is, and asks at most once. */
  predicate GoodReaction(c: Client, d: Client, n: Cursor, available: bool, answered: nat) {
    && ClientMatches(d, n, available)
    && (d.state == Connected || d.state == Opening ==>
        && Sends(c, d, available)
        && Balanced(c, d, answered))
    && (d.state == Disconnected || d.state == Closing ==> d.outbox == c.outbox)
  }

  /** An accepted DATA message replays to the table of the tick the reader is at. */
  predicate DataReadable(c: Client, k: Cursor, m: ServerMsg, history: seq<Table>)
    requires m.Data?
  {
    c.state == Connected && !((m.isUpdate && !c.isSynchronized) || !c.remaining || c.isPaused) ==>
      var r := Replay(m.items, if m.isUpdate then c.replica else Cleared(c.replica));
      k.tick < |history| && r.Done? && WellInterned(r.store) && r.store.conns == history[k.tick]
  }

  lemma TickBalanced(c: Client, ts: Uint32, available: bool)
    requires c.state == Connected && (available ==> c.requested)
    ensures Balanced(c, OnServerTick(c.(timestamp := ts)), 0)
  {
    var d := c.(timestamp := ts);
    if c.remaining && !c.isPaused {
      RequestSends(d.(remaining := false, requestedUpdate := false, isSynchronized := false), available);
    }
    hide Requests, ClientRequest, Sends;
  }

  lemma StatusBalanced(c: Client, df: bool, uf: bool, available: bool)
    requires c.state == Connected && c.expected == ExpectStatus && (available ==> c.requested && df)
    ensures Balanced(c, OnDataStatus(c.(dataFlags := df, dataUpdateFlags := uf, expected := ExpectNone)), 1)
  {
    var d := c.(dataFlags := df, dataUpdateFlags := uf, expected := ExpectNone,
                requested := c.requested && df, requestedUpdate := c.requestedUpdate && uf);
    if d.requestedUpdate && !d.isSynchronized {
      RequestSends(d.(requestedUpdate := false), available);
    }
  }

  lemma DataBalanced(c: Client, store: Storage, available: bool)
    requires c.state == Connected && (available ==> c.requested)
    ensures var d := c.(replica := store, remaining := false);
      var e := if c.isSynchronized then d else d.(isSynchronized := true, requestedUpdate := c.requested);
      Sends(c, ClientRequest(e), available) && Balanced(c, ClientRequest(e), 0)
  {
    var d := c.(replica := store, remaining := false);
    RequestSends(if c.isSynchronized then d else d.(isSynchronized := true, requestedUpdate := c.requested), available);
  }

  lemma TickReaction(c: Client, k: Cursor, ts: Uint32, available: bool)
    requires c.state == Connected && ClientMatches(c, k, available)
    requires ts == (k.tick + 1) % 0x1_0000_0000
    ensures GoodReaction(c, OnServerTick(c.(timestamp := ts)), k.(tick := k.tick + 1), available, 0)
  {
    TickBalanced(c, ts, available);
  }

  lemma StatusReaction(c: Client, k: Cursor, df: bool, uf: bool, available: bool)
    requires c.state == Connected && c.expected == ExpectStatus && ClientMatches(c, k, available)
    requires available ==> df
    ensures GoodReaction(c, OnDataStatus(c.(dataFlags := df, dataUpdateFlags := uf, expected := ExpectNone)),
                         k.(dataFlags := df, updateFlags := uf), available, 1)
  {
    StatusBalanced(c, df, uf, available);
  }

  lemma DataReaction(c: Client, k: Cursor, m: ServerMsg, history: seq<Table>, available: bool)
    requires c.state == Connected && ClientMatches(c, k, available) && available
    requires m.Data? && DataReadable(c, k, m, history)
    ensures var r := OnData(c, m.isUpdate, m.items); r.Next? && GoodReaction(c, r.client, k, available, 0)
  {
    if !((m.isUpdate && !c.isSynchronized) || !c.remaining || c.isPaused) {
      DataBalanced(c, Replay(m.items, if m.isUpdate then c.replica else Cleared(c.replica)).store, available);
    }
  }

  lemma HelloReaction(c: Client, k: Cursor, available: bool)
    requires c.state == Opening && ClientMatches(c, k, available) && k.phase == AwaitHello
    ensures GoodReaction(c,
      OnSessionEstablished(
        c.(state := Connected, expected := ExpectNone, timestamp := 0, dataFlags := false, dataUpdateFlags := false)),
      Cursor(Streaming, k.tick, false, false), available, 0)
  {
    RequestSends(c.(state := Connected, expected := ExpectNone, timestamp := 0, dataFlags := false,
                    dataUpdateFlags := false, requested := true, requestedUpdate := false, remaining := false), available);
  }

  /** A readable message never makes the client throw, and leaves it where the reader is. */
  lemma ClientReads(c: Client, k: Cursor, m: ServerMsg, history: seq<Table>, available: bool)
    requires c.state != Disconnected
    requires ClientMatches(c, k, available)
    requires Advance(history, available, k, m).Some?
    requires c.state == Connected && m.DataStatus? ==> c.expected == ExpectStatus
    requires m.Data? ==> DataReadable(c, k, m, history)
    ensures var r := ClientOnMessage(c, m);
      r.Next? && GoodReaction(c, r.client, Advance(history, available, k, m).value, available,
                              if m.DataStatus? then 1 else 0)
  {
    match m
    case Banner(_) => RequestsSnoc(c.outbox, ClientHello);
    case Hello => HelloReaction(c, k, available);
    case ServerBye =>
    case UpdateTick(ts) => if c.state == Connected { TickReaction(c, k, ts, available); }
    case DataStatus(df, uf) => if c.state == Connected { StatusReaction(c, k, df, uf, available); }
    case Data(_, _) => if c.state == Connected { DataReaction(c, k, m, history, available); }
  }

  lemma DataIsReadable(l: Link, m: ServerMsg, history: seq<Table>, available: bool)
    requires LinkOk(l, history, available) && l.client.state != Disconnected
    requires m.Data? && Advance(history, available, l.cursor, m).Some?
    ensures DataReadable(l.client, l.cursor, m, history)
  {
    var c := l.client;
    var start := if m.isUpdate then c.replica else Cleared(c.replica);
    ReplayIsMeaning(m.items, start);
  }

  // ---------------------------------------------------------------- a delivered message keeps the link in order

  lemma StreamAfterDelivery(l: Link, history: seq<Table>, available: bool)
    requires CanDeliver(l)
    ensures var d := DeliverLink(l, history, available);
      Stream(l) != [] && Stream(l)[0] == l.wire[0] && Stream(l)[1..] == Stream(d)
  {
  }

  /** An UPDATE_TICK either leaves the replica one tick behind, waiting, or gives up synchronisation. */
  lemma TickReplica(c: Client, ts: Uint32, processed: nat, history: seq<Table>, available: bool)
    requires c.state == Connected && ReplicaOk(c, processed, history, available) && processed + 1 < |history|
    requires available ==> c.requested
    ensures ReplicaOk(OnServerTick(c.(timestamp := ts)), processed + 1, history, available)
  {
  }

  /** Applied data brings the replica to the tick just read. */
  lemma DataReplica(c: Client, k: Cursor, m: ServerMsg, history: seq<Table>, available: bool)
    requires c.state == Connected && ReplicaOk(c, k.tick, history, available) && available
    requires m.Data? && DataReadable(c, k, m, history)
    requires OnData(c, m.isUpdate, m.items).Next?
    ensures ReplicaOk(OnData(c, m.isUpdate, m.items).client, k.tick, history, available)
  {
  }

  lemma StatusReplica(c: Client, processed: nat, history: seq<Table>, available: bool)
    requires c.state == Connected && ReplicaOk(c, processed, history, available)
    ensures ReplicaOk(OnDataStatus(c), processed, history, available)
  {
  }

  /** Handshake messages, and any message to a closing client, leave the replica alone or end synchronisation. */
  lemma UnmovedReplica(c: Client, processed: nat, m: ServerMsg, history: seq<Table>, available: bool)
    requires ReplicaOk(c, processed, history, available) && c.state != Disconnected
    requires c.state != Connected || m.Banner? || m.Hello? || m.ServerBye?
    requires ClientOnMessage(c, m).Next?
    ensures var d := ClientOnMessage(c, m).client;
      && d.replica == c.replica
      && (d.isSynchronized ==> c.isSynchronized && d.state == c.state == Closing && d.remaining == c.remaining)
  {
    match m
    case Banner(_) =>
    case Hello =>
    case ServerBye =>
    case _ =>
  }

  /** The replica follows the ticks: one behind while data is awaited, level once it is applied. */
  lemma ReplicaFollows(c: Client, k: Cursor, processed: nat, m: ServerMsg, history: seq<Table>, available: bool)
    requires ReplicaOk(c, processed, history, available) && k.tick < |history|
    requires c.state == Connected ==> processed == k.tick && (available ==> c.requested)
    requires c.state != Disconnected && Advance(history, available, k, m).Some?
    requires m.Data? ==> DataReadable(c, k, m, history)
    requires ClientOnMessage(c, m).Next?
    ensures var d := ClientOnMessage(c, m).client;
      ReplicaOk(d, if d.state == Connected then Advance(history, available, k, m).value.tick else processed,
                history, available)
  {
    if c.state != Connected || m.Banner? || m.Hello? || m.ServerBye? {
      UnmovedReplica(c, processed, m, history, available);
    } else {
      match m
      case UpdateTick(ts) => TickReplica(c, ts, processed, history, available);
      case Data(_, _) => DataReplica(c, k, m, history, available);
      case DataStatus(df, uf) =>
        StatusReplica(c.(dataFlags := df, dataUpdateFlags := uf, expected := ExpectNone), processed, history, available);
    }
  }

  lemma ReplicaAfterDelivery(l: Link, history: seq<Table>, available: bool)
    requires LinkOk(l, history, available) && CanDeliver(l)
    requires Advance(history, available, l.cursor, l.wire[0]).Some?
    requires ClientOnMessage(l.client, l.wire[0]).Next?
    ensures var d := DeliverLink(l, history, available); ReplicaOk(d.client, d.processed, history, available)
  {
    if l.wire[0].Data? {
      DataIsReadable(l, l.wire[0], history, available);
    }
    ReplicaFollows(l.client, l.cursor, l.processed, l.wire[0], history, available);
  }

  lemma DeliverReaction(l: Link, history: seq<Table>, available: bool)
    requires LinkOk(l, history, available) && CanDeliver(l)
    ensures var n := Advance(history, available, l.cursor, l.wire[0]);
      && n.Some?
      && ClientOnMessage(l.client, l.wire[0]).Next?
      && GoodReaction(l.client, ClientOnMessage(l.client, l.wire[0]).client, n.value, available,
                      if l.wire[0].DataStatus? then 1 else 0)
  {
    var m := l.wire[0];
    StreamAfterDelivery(l, history, available);
    if m.Data? {
      DataIsReadable(l, m, history, available);
    }
    ClientReads(l.client, l.cursor, m, history, available);
  }

  lemma CountAfterDelivery(l: Link, history: seq<Table>, available: bool)
    requires LinkOk(l, history, available) && CanDeliver(l)
    ensures CountOk(DeliverLink(l, history, available))
  {
    DeliverReaction(l, history, available);
    StreamAfterDelivery(l, history, available);
    var d := DeliverLink(l, history, available);
    assert Statuses(Stream(l)) == Statuses(Stream(d)) + if l.wire[0].DataStatus? then 1 else 0;
  }

  lemma OutboxAfterSending(c: Client, d: Client, state: SessionState, available: bool)
    requires OutboxFits(c, state, available)
    requires d.state == Connected || d.state == Opening ==> Sends(c, d, available)
    requires d.state == Disconnected || d.state == Closing ==> d.outbox == c.outbox
    requires c.state == Opening && c.expected == ExpectBanner ==> c.outbox == []
    requires d.state == Opening && d.expected == ExpectBanner ==> c.state == Opening && c.expected == ExpectBanner
    requires d.state == Opening || d.state == Connected ==> c.state == Opening || c.state == Connected
    requires d.state == Connected ==> state != Opening
    ensures OutboxFits(d, state, available)
  {
  }

  lemma OutboxAfterDelivery(l: Link, history: seq<Table>, available: bool)
    requires LinkOk(l, history, available) && CanDeliver(l)
    ensures OutboxFits(DeliverLink(l, history, available).client, l.session.state, available)
  {
    DeliverReaction(l, history, available);
    ReaderPastHello(l, history, available);
    MessageStates(l.client, l.wire[0]);
    hide ClientOnMessage, ReadAll, Advance, Sends, OutboxFits, ReplicaOk;
    LinkOutbox(l, history, available);
    OutboxAfterSending(l.client, DeliverLink(l, history, available).client, l.session.state, available);
  }

  lemma LinkOutbox(l: Link, history: seq<Table>, available: bool)
    requires LinkOk(l, history, available)
    ensures OutboxFits(l.client, l.session.state, available)
    ensures l.client.state == Opening && l.client.expected == ExpectBanner ==> l.client.outbox == []
  {
  }

  /** A client that is connected has a session that is past its handshake. */
  lemma ReaderPastHello(l: Link, history: seq<Table>, available: bool)
    requires LinkOk(l, history, available) && CanDeliver(l)
    ensures DeliverLink(l, history, available).client.state == Connected ==> l.session.state != Opening
  {
    DeliverReaction(l, history, available);
    StreamAfterDelivery(l, history, available);
    hide ClientOnMessage, Sends, OutboxFits, ReplicaOk, Balanced;
    ReadRank(history, available, Advance(history, available, l.cursor, l.wire[0]).value, Stream(DeliverLink(l, history, available)));
  }

  /** No message a server sent makes the client throw, and reading it keeps the link in order. */
  lemma DeliverOk(l: Link, history: seq<Table>, available: bool)
    requires LinkOk(l, history, available) && CanDeliver(l)
    ensures ClientOnMessage(l.client, l.wire[0]).Next?
    ensures LinkOk(DeliverLink(l, history, available), history, available)
  {
    DeliverReaction(l, history, available);
    StreamAfterDelivery(l, history, available);
    ReplicaAfterDelivery(l, history, available);
    OutboxAfterDelivery(l, history, available);
    CountAfterDelivery(l, history, available);
  }

  // ---------------------------------------------------------------- the server reads a message

  /** The reader's part of LinkOk: the stream is readable and ends where the session is. */
  predicate StreamOk(k: Cursor, stream: seq<ServerMsg>, s: Session, history: seq<Table>, available: bool) {
    var end := ReadAll(history, available, k, stream);
    |history| > 0 && end.Some? && SessionMatches(s, end.value, |history| - 1)
  }

  lemma StreamPrefix(k: Cursor, a: seq<ServerMsg>, b: seq<ServerMsg>, history: seq<Table>, available: bool)
    requires ReadAll(history, available, k, a + b).Some?
    ensures ReadAll(history, available, k, a).Some?
  {
    ReadAppend(history, available, k, a, b);
  }

  lemma StreamSnoc(k: Cursor, a: seq<ServerMsg>, m: ServerMsg, history: seq<Table>, available: bool)
    requires ReadAll(history, available, k, a).Some?
    ensures ReadAll(history, available, k, a + [m]) ==
            Advance(history, available, ReadAll(history, available, k, a).value, m)
  {
    ReadAppend(history, available, k, a, [m]);
    assert [m][1..] == [];
  }

  lemma StatusesSnoc(a: seq<ServerMsg>, m: ServerMsg)
    ensures Statuses(a + [m]) == Statuses(a) + if m.DataStatus? then 1 else 0
  {
    StatusesAppend(a, [m]);
    assert [m][1..] == [];
    assert Statuses([m][1..]) == 0;
  }

  /** A message queued by the session is the next thing in the stream. */
  lemma QueuedStream(l: Link, s: Session, m: ServerMsg)
    requires s.writer == l.session.writer && s.queue == l.session.queue + [m]
    ensures Stream(l.(session := s)) == Stream(l) + [m]
  {
  }

  lemma DropSessionOk(l: Link, history: seq<Table>, available: bool)
    requires LinkOk(l, history, available)
    ensures LinkOk(l.(session := SessionDrop(l.session)), history, available)
  {
    var d := l.(session := SessionDrop(l.session));
    var rest := WriterMsgs(l.session.writer) + l.session.queue;
    assert Stream(l) == l.wire + rest;
    assert Stream(d) == l.wire;
    StatusesAppend(l.wire, rest);
    if l.client.state != Disconnected {
      StreamPrefix(l.cursor, l.wire, rest, history, available);
    }
  }

  lemma ServeHelloOk(l: Link, history: seq<Table>, available: bool, ser: Serializer)
    requires LinkOk(l, history, available) && CanServe(l) && l.client.outbox[0] == ClientHello
    ensures l.session.state == Opening
    ensures LinkOk(ServeLink(l, available, ser, |history| - 1).0, history, available)
  {
    var d := ServeLink(l, available, ser, |history| - 1).0;
    assert ClientHello in l.client.outbox;
    assert l.client.outbox == [ClientHello] && d.client.outbox == [];
    QueuedStream(l, d.session, Hello);
    assert Stream(d) == Stream(l) + [Hello];
    StatusesSnoc(Stream(l), Hello);
    if l.client.state != Disconnected {
      ReadRank(history, available, l.cursor, Stream(l));
      assert Stream(l) == [];
      StreamSnoc(d.cursor, [], Hello, history, available);
    }
  }

  /** The outbox after its first message was read. */
  lemma OutboxTail(c: Client, state: SessionState, available: bool)
    requires c.outbox != [] && (state == Connected || state == Closing)
    requires OutboxFits(c, state, available)
    ensures OutboxFits(c.(outbox := c.outbox[1..]), state, available)
    ensures Requests(c.outbox) == Requests(c.outbox[1..]) + if c.outbox[0].RequestData? then 1 else 0
  {
  }

  lemma StatusQueued(l: Link, d: Link, history: seq<Table>, available: bool, df: bool, uf: bool)
    requires LinkOk(l, history, available) && l.session.state == Connected
    requires df == available && (uf ==> available)
    requires d == l.(session := SendDataStatus(l.session, df, uf))
    ensures l.client.state != Disconnected ==> StreamOk(d.cursor, Stream(d), d.session, history, available)
    ensures Statuses(Stream(d)) == Statuses(Stream(l)) + 1
  {
    var st := DataStatus(df, uf);
    QueuedStream(l, d.session, st);
    StatusesSnoc(Stream(l), st);
    if l.client.state != Disconnected {
      StreamSnoc(l.cursor, Stream(l), st, history, available);
    }
  }

  /** A link whose session answered the oldest request is in order again. */
  lemma AnsweredOk(l: Link, d: Link, history: seq<Table>, available: bool)
    requires LinkOk(l, history, available) && l.client.outbox != [] && l.client.outbox[0].RequestData?
    requires l.session.state == Connected || l.session.state == Closing
    requires d.client == l.client.(outbox := l.client.outbox[1..]) && d.cursor == l.cursor && d.processed == l.processed
    requires d.session.state == l.session.state
    requires d.session.isSendingData == l.session.isSendingData && d.session.writer == l.session.writer
    requires l.client.state != Disconnected ==> StreamOk(d.cursor, Stream(d), d.session, history, available)
    requires Statuses(Stream(d)) <= Statuses(Stream(l)) + 1
    ensures LinkOk(d, history, available)
  {
    OutboxTail(l.client, l.session.state, available);
  }

  /** A request is read only by a session that has said HELLO, and asks for what the server has. */
  lemma RequestFits(l: Link, history: seq<Table>, available: bool)
    requires LinkOk(l, history, available) && CanServe(l) && l.client.outbox[0].RequestData?
    ensures l.session.state == Connected || l.session.state == Closing
    ensures available ==> l.client.outbox[0].dataFlags
    ensures l.client.state != Disconnected ==> StreamOk(l.cursor, Stream(l), l.session, history, available)
  {
    assert l.client.outbox[0] in l.client.outbox;
  }

  lemma ServeRequestOk(l: Link, history: seq<Table>, available: bool, ser: Serializer)
    requires LinkOk(l, history, available) && CanServe(l) && l.client.outbox[0].RequestData? && |history| > 0
    ensures l.session.state == Connected || l.session.state == Closing
    ensures LinkOk(ServeLink(l, available, ser, |history| - 1).0, history, available)
  {
    RequestFits(l, history, available);
    hide LinkOk, StreamOk;
    var d := ServeLink(l, available, ser, |history| - 1).0;
    var m := l.client.outbox[0];
    if l.session.state == Connected {
      var df, uf := m.dataFlags && available, m.updateFlags && available;
      var e := l.(session := SendDataStatus(l.session, df, uf));
      StatusQueued(l, e, history, available, df, uf);
      assert d.session == e.session && d.wire == e.wire;
      assert Stream(d) == Stream(e);
    } else {
      assert d.session == l.session;
      assert Stream(d) == Stream(l);
    }
    AnsweredOk(l, d, history, available);
  }

  lemma ServeByeOk(l: Link, history: seq<Table>, available: bool, ser: Serializer)
    requires LinkOk(l, history, available) && CanServe(l) && l.client.outbox[0] == ClientBye
    ensures LinkOk(ServeLink(l, available, ser, |history| - 1).0, history, available)
  {
    DropSessionOk(l, history, available);
    var e := l.(session := SessionDrop(l.session));
    var d := ServeLink(l, available, ser, |history| - 1).0;
    assert d.client.outbox == e.client.outbox[1..];
    assert Requests(d.client.outbox) == Requests(e.client.outbox);
    assert Stream(d) == Stream(e);
  }

  /** No message a client sent is refused, and serving it keeps the link in order. */
  lemma ServeOk(l: Link, history: seq<Table>, available: bool, ser: Serializer)
    requires LinkOk(l, history, available) && CanServe(l)
    ensures ServerOnMessage(available, ser, l.session, l.client.outbox[0]).Served?
    ensures LinkOk(ServeLink(l, available, ser, |history| - 1).0, history, available)
  {
    match l.client.outbox[0]
    case ClientHello => ServeHelloOk(l, history, available, ser);
    case ClientBye => ServeByeOk(l, history, available, ser);
    case RequestData(_, _) => ServeRequestOk(l, history, available, ser);
  }

  // ---------------------------------------------------------------- sending, pausing, leaving

  /** Moving messages along the way to the client changes nothing it will read. */
  lemma SendingOk(l: Link, d: Link, history: seq<Table>, available: bool)
    requires LinkOk(l, history, available)
    requires d.client == l.client && d.cursor == l.cursor && d.processed == l.processed && Stream(d) == Stream(l)
    requires d.session.state == l.session.state
    requires d.session.dataFlags == l.session.dataFlags && d.session.dataUpdateFlags == l.session.dataUpdateFlags
    requires d.session.isSendingData ==> d.session.writer.Sending? && d.session.writer.msg.Data?
    ensures LinkOk(d, history, available)
  {
  }

  lemma LoadedStream(l: Link)
    ensures Stream(LoadLink(l)) == Stream(l)
  {
  }

  lemma SentStream(l: Link)
    ensures Stream(SendPartLink(l)) == Stream(l) && Stream(SendRestLink(l)) == Stream(l)
  {
    if l.session.state != Disconnected && l.session.writer.Sending? {
      var e := l.(wire := l.wire + [l.session.writer.msg], session := l.session.(writer := Idle));
      assert Stream(e) == Stream(l);
      LoadedStream(e);
    }
  }

  lemma LoadOk(l: Link, history: seq<Table>, available: bool)
    requires LinkOk(l, history, available)
    ensures LinkOk(LoadLink(l), history, available)
  {
    LoadedStream(l);
    SendingOk(l, LoadLink(l), history, available);
  }

  lemma SendPartOk(l: Link, history: seq<Table>, available: bool)
    requires LinkOk(l, history, available)
    ensures LinkOk(SendPartLink(l), history, available)
  {
    SentStream(l);
    SendingOk(l, SendPartLink(l), history, available);
  }

  lemma SendRestOk(l: Link, history: seq<Table>, available: bool)
    requires LinkOk(l, history, available)
    ensures LinkOk(SendRestLink(l), history, available)
  {
    SentStream(l);
    SendingOk(l, SendRestLink(l), history, available);
  }

  /** A client that only asks, or drops out, keeps the link in order. */
  lemma ClientMovesOk(l: Link, c: Client, history: seq<Table>, available: bool)
    requires LinkOk(l, history, available)
    requires c.state == l.client.state || c.state == Disconnected || (c.state == Closing && l.client.state == Connected)
    requires ClientMatches(c, l.cursor, available) && ReplicaOk(c, l.processed, history, available)
    requires OutboxFits(c, l.session.state, available)
    requires c.state == Opening || c.state == Connected ==> Balanced(l.client, c, 0)
    ensures LinkOk(l.(client := c), history, available)
  {
    assert Stream(l.(client := c)) == Stream(l);
  }

  lemma SessionIsPastHello(l: Link, history: seq<Table>, available: bool)
    requires LinkOk(l, history, available) && l.client.state == Connected
    ensures l.session.state != Opening
  {
    ReadRank(history, available, l.cursor, Stream(l));
  }

  lemma PausedClientOk(c: Client, paused: bool, k: Cursor, processed: nat, history: seq<Table>, available: bool)
    requires ClientMatches(c, k, available) && ReplicaOk(c, processed, history, available)
    ensures var d := ClientSetPaused(c, paused);
      && ClientMatches(d, k, available) && ReplicaOk(d, processed, history, available)
      && d.state == c.state
  {
  }

  lemma AskedOutbox(c: Client, state: SessionState, available: bool)
    requires OutboxFits(c, state, available)
    requires c.state == Connected ==> state != Opening && (available ==> c.requested)
    ensures OutboxFits(ClientRequest(c), state, available)
    ensures c.state == Opening || c.state == Connected ==> Balanced(c, ClientRequest(c), 0)
  {
    if c.state == Connected {
      RequestSends(c, available);
      hide Sends, Requests;
      if c.expected == ExpectNone {
        AskedFits(c, state, available);
      }
    }
  }

  lemma AskedFits(c: Client, state: SessionState, available: bool)
    requires OutboxFits(c, state, available)
    requires c.state == Connected && c.expected == ExpectNone && state != Opening && (available ==> c.requested)
    ensures OutboxFits(ClientRequest(c), state, available)
  {
    var m := RequestData(c.requested, c.requestedUpdate);
    assert ClientRequest(c).outbox == c.outbox + [m];
    assert forall x :: x in c.outbox + [m] ==> x in c.outbox || x == m;
  }

  lemma PauseOutbox(c: Client, paused: bool, state: SessionState, available: bool)
    requires OutboxFits(c, state, available)
    requires c.state == Connected ==> state != Opening && (available ==> c.requested)
    ensures var d := ClientSetPaused(c, paused);
      OutboxFits(d, state, available) && (c.state == Opening || c.state == Connected ==> Balanced(c, d, 0))
  {
    hide Requests, ClientRequest;
    if c.isPaused && !paused && !c.remaining && !c.isDataRequested {
      AskedOutbox(c.(isPaused := false), state, available);
    }
  }

  lemma PauseOk(l: Link, paused: bool, history: seq<Table>, available: bool)
    requires LinkOk(l, history, available)
    ensures LinkOk(l.(client := ClientSetPaused(l.client, paused)), history, available)
  {
    if l.client.state == Connected {
      SessionIsPastHello(l, history, available);
    }
    PausedClientOk(l.client, paused, l.cursor, l.processed, history, available);
    PauseOutbox(l.client, paused, l.session.state, available);
    ClientMovesOk(l, ClientSetPaused(l.client, paused), history, available);
  }

  lemma LoseClientOk(l: Link, kept: nat, history: seq<Table>, available: bool)
    requires LinkOk(l, history, available)
    ensures LinkOk(l.(client := ClientDrop(l.client, kept)), history, available)
  {
    assert forall m :: m in ClientDrop(l.client, kept).outbox ==> m in l.client.outbox;
  }

  lemma LeaveClientOk(l: Link, history: seq<Table>, available: bool)
    requires LinkOk(l, history, available)
    ensures LinkOk(l.(client := ClientDisconnect(l.client)), history, available)
  {
    var d := l.(client := ClientDisconnect(l.client));
    assert Stream(d) == Stream(l);
    if l.client.state == Connected {
      ReadRank(history, available, l.cursor, Stream(l));
    } else if l.client.state == Opening {
      LoseClientOk(l, |l.client.outbox|, history, available);
    }
  }

  lemma LeaveServerOk(l: Link, history: seq<Table>, available: bool)
    requires LinkOk(l, history, available)
    ensures LinkOk(l.(session := SessionDisconnect(l.session)), history, available)
  {
    if l.session.state == Connected {
      QueuedStream(l, SessionDisconnect(l.session), ServerBye);
      StatusesSnoc(Stream(l), ServerBye);
      if l.client.state != Disconnected {
        StreamSnoc(l.cursor, Stream(l), ServerBye, history, available);
      }
    } else if l.session.state == Opening {
      DropSessionOk(l, history, available);
    }
  }

  lemma LinkStepOk(l: Link, step: Step, history: seq<Table>, available: bool)
    requires LinkOk(l, history, available)
    ensures LinkOk(LinkStep(l, step), history, available)
  {
    match step
    case LoadWriter(_) => LoadOk(l, history, available);
    case SendPart(_) => SendPartOk(l, history, available);
    case SendRest(_) => SendRestOk(l, history, available);
    case Pause(_, paused) => PauseOk(l, paused, history, available);
    case LeaveClient(_) => LeaveClientOk(l, history, available);
    case LeaveServer(_) => LeaveServerOk(l, history, available);
    case LoseClient(_, kept) => LoseClientOk(l, kept, history, available);
    case LoseServer(_) => DropSessionOk(l, history, available);
    case _ =>
  }
}
