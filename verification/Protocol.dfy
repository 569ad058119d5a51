/**
  The two protocol endpoints as functions on values: what the client does on each
  message (Source/Client.cpp, ClientSession in Source/ClientServerProtocol.cpp) and
  what the server does on each message and tick (Source/Server.cpp, ServerSession).

  EDataFlags has the single bit CONNECTION, so a word of data flags is a bool here.
*/
module Protocol {
  import opened Options
  import opened Connections
  import opened Collection

  type Uint32 = x: int | 0 <= x < 0x1_0000_0000

  const VERSION := 1

  datatype ServerMsg =
    | Banner(version: int)
    | Hello
    | ServerBye
    | UpdateTick(timestamp: Uint32)
    | DataStatus(dataFlags: bool, updateFlags: bool)
    | Data(isUpdate: bool, items: seq<Doc>)

  datatype ClientMsg = ClientHello | ClientBye | RequestData(dataFlags: bool, updateFlags: bool)

  datatype SessionState = Disconnected | Closing | Opening | Connected
  datatype Expected = ExpectNone | ExpectBanner | ExpectHello | ExpectStatus

  // ---------------------------------------------------------------- client

  /** Client with its ClientSession; `outbox` is the send queue and what the socket still carries. */
  datatype Client = Client(
    state: SessionState, expected: Expected, dataFlags: bool, dataUpdateFlags: bool, timestamp: Uint32,
    outbox: seq<ClientMsg>,
    requested: bool, requestedUpdate: bool, remaining: bool,
    isDataRequested: bool, isSynchronized: bool, isPaused: bool,
    replica: Storage)

  datatype ClientResult = Next(client: Client) | Throws(client: Client)

  /** ClientSession::connect on a disconnected client. */
  function ClientConnect(c: Client): Client {
    c.(state := Opening, expected := ExpectBanner, outbox := [])
  }

  /** Client::requestData: asks only when connected and no other answer is awaited. */
  function ClientRequest(c: Client): Client {
    if c.state == Connected && c.expected == ExpectNone then
      c.(expected := ExpectStatus, outbox := c.outbox + [RequestData(c.requested, c.requestedUpdate)],
         isDataRequested := true)
    else c.(isDataRequested := true)
  }

  /** quickDisconnect and Client::onSessionDisconnect; messages not yet on the wire are dropped. */
  function ClientDrop(c: Client, kept: nat): Client {
    c.(state := Disconnected, isSynchronized := false, isDataRequested := false,
       outbox := if kept <= |c.outbox| then c.outbox[..kept] else c.outbox)
  }

  function ClientSetPaused(c: Client, paused: bool): Client {
    if c.isPaused == paused then c
    else if !paused && !c.remaining && !c.isDataRequested then ClientRequest(c.(isPaused := false))
    else c.(isPaused := paused)
  }

  function ClientDisconnect(c: Client): Client {
    match c.state
    case Connected => c.(state := Closing, outbox := c.outbox + [ClientBye])
    case Opening => ClientDrop(c, |c.outbox|)
    case _ => c
  }

  function OnSessionEstablished(c: Client): Client {
    ClientRequest(c.(requested := true, requestedUpdate := false, remaining := false)).(isSynchronized := false)
  }

  function OnServerTick(c: Client): Client {
    var d :=
      if c.remaining then
        var e := c.(remaining := false, requestedUpdate := false, isSynchronized := false);
        if c.isPaused then e else ClientRequest(e)
      else if c.expected == ExpectStatus || c.isPaused then c.(isSynchronized := false)
      else c.(remaining := c.requested);
    d.(isDataRequested := false)
  }

  function OnDataStatus(c: Client): Client {
    var d := c.(requested := c.requested && c.dataFlags, requestedUpdate := c.requestedUpdate && c.dataUpdateFlags);
    if d.requestedUpdate && !d.isSynchronized then ClientRequest(d.(requestedUpdate := false)) else d
  }

  function Cleared(s: Storage): Storage { s.(conns := map[]) }

  function OnData(c: Client, isUpdate: bool, items: seq<Doc>): ClientResult {
    if (isUpdate && !c.isSynchronized) || !c.remaining || c.isPaused then Next(c)
    else match Replay(items, if isUpdate then c.replica else Cleared(c.replica))
      case Threw(store, _) => Throws(c.(replica := store))
      case Done(store) =>
        var d := c.(replica := store, remaining := false);
        Next(ClientRequest(if c.isSynchronized then d else d.(isSynchronized := true, requestedUpdate := c.requested)))
  }

  /** ClientSession::onMessage. */
  function ClientOnMessage(c: Client, m: ServerMsg): ClientResult {
    match m
    case Banner(version) =>
      if c.state != Opening || c.expected != ExpectBanner then Throws(c)
      else if version != VERSION then Next(ClientDrop(c, |c.outbox|))
      else Next(c.(expected := ExpectHello, outbox := c.outbox + [ClientHello]))
    case Hello =>
      if c.state != Opening || c.expected != ExpectHello then Throws(c)
      else Next(OnSessionEstablished(
        c.(state := Connected, expected := ExpectNone, timestamp := 0, dataFlags := false, dataUpdateFlags := false)))
    case ServerBye => Next(ClientDrop(c, |c.outbox|))
    case UpdateTick(timestamp) =>
      if c.state == Closing then Next(c)
      else if c.state != Connected then Throws(c)
      else if timestamp != (c.timestamp + 1) % 0x1_0000_0000 && c.timestamp != 0 then Throws(c)
      else Next(OnServerTick(c.(timestamp := timestamp)))
    case DataStatus(dataFlags, updateFlags) =>
      if c.state == Closing then Next(c)
      else if c.expected != ExpectStatus then Throws(c)
      else Next(OnDataStatus(c.(dataFlags := dataFlags, dataUpdateFlags := updateFlags, expected := ExpectNone)))
    case Data(isUpdate, items) =>
      if c.state == Closing then Next(c)
      else if c.state != Connected then Throws(c)
      else if !c.dataFlags || (isUpdate && !c.dataUpdateFlags) then Throws(c)
      else OnData(c, isUpdate, items)
  }

  // ---------------------------------------------------------------- what messages do to a client's state

  lemma RequestKeepsState(c: Client)
    ensures ClientRequest(c).state == c.state && ClientRequest(c).isPaused == c.isPaused && ClientRequest(c).replica == c.replica
  {
  }

  lemma EstablishedKeepsState(c: Client)
    ensures OnSessionEstablished(c).state == c.state && OnSessionEstablished(c).isPaused == c.isPaused
    ensures OnSessionEstablished(c).replica == c.replica
  {
    hide ClientRequest;
    RequestKeepsState(c.(requested := true, requestedUpdate := false, remaining := false));
  }

  lemma TickKeepsState(c: Client)
    ensures OnServerTick(c).state == c.state && OnServerTick(c).isPaused == c.isPaused && OnServerTick(c).replica == c.replica
  {
    hide ClientRequest;
    RequestKeepsState(c.(remaining := false, requestedUpdate := false, isSynchronized := false));
  }

  lemma StatusKeepsState(c: Client)
    ensures OnDataStatus(c).state == c.state && OnDataStatus(c).isPaused == c.isPaused && OnDataStatus(c).replica == c.replica
    ensures OnDataStatus(c).state != Connected ==> OnDataStatus(c).expected == c.expected
  {
  }

  lemma DataKeepsState(c: Client, isUpdate: bool, items: seq<Doc>)
    ensures OnData(c, isUpdate, items).client.state == c.state && OnData(c, isUpdate, items).client.isPaused == c.isPaused
  {
    hide Parse, ApplyRecord, Replay;
  }

  /** A client that is being set up or at work after a message was so before it. */
  lemma MessageStates(c: Client, m: ServerMsg)
    requires c.state != Disconnected && ClientOnMessage(c, m).Next?
    ensures var d := ClientOnMessage(c, m).client;
      && (d.state == Opening || d.state == Connected ==> c.state == Opening || c.state == Connected)
      && (d.state == Opening ==> c.state == Opening)
      && (d.state == Opening && d.expected == ExpectBanner ==> c.expected == ExpectBanner)
      && (d.state == Connected && !m.Hello? ==> c.state == Connected)
      && (c.state == Connected && (m.UpdateTick? || m.DataStatus? || m.Data?) ==> d.state == Connected && d.isPaused == c.isPaused)
  {
    hide OnServerTick, OnDataStatus, OnData, OnSessionEstablished;
    match m
    case Hello =>
      EstablishedKeepsState(c.(state := Connected, expected := ExpectNone, timestamp := 0, dataFlags := false, dataUpdateFlags := false));
    case UpdateTick(timestamp) => TickKeepsState(c.(timestamp := timestamp));
    case DataStatus(df, uf) => StatusKeepsState(c.(dataFlags := df, dataUpdateFlags := uf, expected := ExpectNone));
    case Data(isUpdate, items) => DataKeepsState(c, isUpdate, items);
    case _ =>
  }

  /** Data that the client waits for and can use. */
  predicate Wanted(c: Client, isUpdate: bool) { c.remaining && !c.isPaused && (isUpdate ==> c.isSynchronized) }

  /** A message that comes at the wrong time, with the wrong number, unasked for, or with a record that is not acceptable. */
  predicate OutOfPlace(c: Client, m: ServerMsg) {
    match m
    case Banner(_) => c.state != Opening || c.expected != ExpectBanner
    case Hello => c.state != Opening || c.expected != ExpectHello
    case ServerBye => false
    case UpdateTick(t) =>
      c.state != Closing && !(c.state == Connected && (c.timestamp == 0 || t == (c.timestamp + 1) % 0x1_0000_0000))
    case DataStatus(_, _) => c.state != Closing && c.expected != ExpectStatus
    case Data(isUpdate, items) =>
      c.state != Closing &&
      !(c.state == Connected && c.dataFlags && (isUpdate ==> c.dataUpdateFlags)
        && (Wanted(c, isUpdate) ==> forall k :: 0 <= k < |items| ==> Acceptable(items[k])))
  }

  /** The client throws exactly at messages out of place. */
  lemma ThrowsExactly(c: Client, m: ServerMsg)
    ensures ClientOnMessage(c, m).Throws? <==> OutOfPlace(c, m)
  {
    if m.Data? { ReplayThrows(m.items, if m.isUpdate then c.replica else Cleared(c.replica)); }
    hide OnServerTick, OnDataStatus, OnSessionEstablished, Replay, Acceptable, ClientRequest;
  }

  /** A banner of another version, and a farewell, end the session at once. */
  lemma SessionEnds(c: Client, m: ServerMsg)
    requires m.ServerBye? || (m.Banner? && m.version != 1 && c.state == Opening && c.expected == ExpectBanner)
    ensures var d := ClientOnMessage(c, m).client;
      ClientOnMessage(c, m).Next? && d.state == Disconnected && !d.isSynchronized && d.outbox == c.outbox
  {
  }

  /** Leaving says goodbye to a server that is listening, and otherwise ends the session. */
  lemma LeavingSaysBye(c: Client)
    ensures c.state == Connected ==> ClientDisconnect(c).state == Closing && ClientDisconnect(c).outbox == c.outbox + [ClientBye]
    ensures c.state == Opening ==> ClientDisconnect(c).state == Disconnected && ClientDisconnect(c).outbox == c.outbox
    ensures c.state == Closing || c.state == Disconnected ==> ClientDisconnect(c) == c
  {
  }

  /** Pausing and resuming take effect, and only resuming asks for data: when none is awaited and none was asked for. */
  lemma PauseTakesEffect(c: Client, paused: bool)
    ensures var d := ClientSetPaused(c, paused);
      var asks := c.isPaused && !paused && !c.remaining && !c.isDataRequested && c.state == Connected && c.expected == ExpectNone;
      && d.isPaused == paused && d.replica == c.replica && d.state == c.state
      && d.isSynchronized == c.isSynchronized && d.remaining == c.remaining
      && d.outbox == c.outbox + (if asks then [RequestData(c.requested, c.requestedUpdate)] else [])
      && d.expected == (if asks then ExpectStatus else c.expected)
  {
  }

  /** A paused client stays paused and keeps its replica, whatever it reads. */
  lemma PausedReads(c: Client, m: ServerMsg)
    requires c.isPaused
    ensures var r := ClientOnMessage(c, m); r.client.isPaused && r.client.replica == c.replica
  {
    hide OnServerTick, OnDataStatus, OnSessionEstablished, Replay, ClientRequest;
    match m
    case Hello =>
      EstablishedKeepsState(c.(state := Connected, expected := ExpectNone, timestamp := 0, dataFlags := false, dataUpdateFlags := false));
    case UpdateTick(timestamp) => TickKeepsState(c.(timestamp := timestamp));
    case DataStatus(df, uf) => StatusKeepsState(c.(dataFlags := df, dataUpdateFlags := uf, expected := ExpectNone));
    case _ =>
  }

  // ---------------------------------------------------------------- server session

  /** What the socket writer is busy with; `started` once a first byte was sent. */
  datatype Writer = Idle | Sending(msg: ServerMsg, started: bool)

  datatype Session = Session(
    state: SessionState, dataFlags: bool, dataUpdateFlags: bool, isSendingData: bool,
    queue: seq<ServerMsg>, writer: Writer)

  datatype ServerResult = Served(session: Session, ser: Serializer) | Refused(session: Session)

  function NewSession(): Session {
    Session(Opening, false, false, false, [Banner(VERSION)], Idle)
  }

  function SessionDrop(s: Session): Session {
    s.(state := Disconnected, isSendingData := false, queue := [], writer := Idle)
  }

  function SessionDisconnect(s: Session): Session {
    match s.state
    case Connected => s.(state := Closing, queue := s.queue + [ServerBye])
    case Opening => SessionDrop(s)
    case _ => s
  }

  function SendDataStatus(s: Session, dataFlags: bool, updateFlags: bool): Session {
    if s.state != Connected then s
    else s.(dataFlags := dataFlags, dataUpdateFlags := updateFlags, queue := s.queue + [DataStatus(dataFlags, updateFlags)])
  }

  /** Server::onSessionDataRequest. */
  function OnDataRequest(available: bool, ser: Serializer, s: Session, dataFlags: bool, updateFlags: bool): ServerResult {
    var d, u := dataFlags && available, updateFlags && available;
    Served(SendDataStatus(s, d, u), if d && u then SetEnabled(ser, true) else ser)
  }

  /** ServerSession::onMessage. */
  function ServerOnMessage(available: bool, ser: Serializer, s: Session, m: ClientMsg): ServerResult {
    match m
    case ClientHello =>
      if s.state != Opening then Refused(s) else Served(s.(state := Connected, queue := s.queue + [Hello]), ser)
    case ClientBye => Served(SessionDrop(s), ser)
    case RequestData(dataFlags, updateFlags) =>
      if s.state == Closing then Served(s, ser)
      else if s.state != Connected then Refused(s)
      else OnDataRequest(available, ser, s, dataFlags, updateFlags)
  }

  /** The server refuses exactly a second greeting and a request before the first. */
  lemma RefusesExactly(available: bool, ser: Serializer, s: Session, m: ClientMsg)
    ensures ServerOnMessage(available, ser, s, m).Refused? <==>
      (m.ClientHello? && s.state != Opening) || (m.RequestData? && s.state != Connected && s.state != Closing)
  {
  }

  /** What the server makes of each message that it accepts. */
  lemma ServerReacts(available: bool, ser: Serializer, s: Session, m: ClientMsg)
    requires ServerOnMessage(available, ser, s, m).Served?
    ensures var d := ServerOnMessage(available, ser, s, m).session;
      && (m.ClientHello? ==> d.state == Connected && d.queue == s.queue + [Hello])
      && (m.ClientBye? ==> d.state == Disconnected && d.queue == [] && !d.isSendingData)
      && (m.RequestData? && s.state == Connected ==>
          var df, uf := m.dataFlags && available, m.updateFlags && available;
          d.queue == s.queue + [DataStatus(df, uf)] && d.dataFlags == df && d.dataUpdateFlags == uf)
    ensures var t := ServerOnMessage(available, ser, s, m).ser;
      t.storage == ser.storage && t.log == ser.log
      && t.enabled == (ser.enabled || (m.RequestData? && s.state == Connected && available && m.dataFlags && m.updateFlags))
  {
  }

  function WithoutData(queue: seq<ServerMsg>): (r: seq<ServerMsg>)
    ensures |r| <= |queue|
    ensures forall m :: m in r <==> m in queue && !m.Data?
    ensures |r| == |queue| ==> r == queue
  {
    if queue == [] then []
    else if queue[0].Data? then WithoutData(queue[1..])
    else [queue[0]] + WithoutData(queue[1..])
  }

  /** ServerSession::stopSendingData: a message already begun is finished, everything else of type DATA is dropped. */
  function StopSendingData(s: Session): Session {
    var stopped := |WithoutData(s.queue)| < |s.queue| || s.isSendingData;
    s.(queue := WithoutData(s.queue),
       writer := if s.isSendingData && s.writer.Sending? && !s.writer.started then Idle else s.writer,
       isSendingData := false,
       dataFlags := s.dataFlags && !stopped, dataUpdateFlags := s.dataUpdateFlags && !stopped)
  }

  /** Nothing of type DATA is left to be sent but what was begun; flags are taken back exactly if something was under way. */
  lemma StopTakesEffect(s: Session)
    ensures var d, idle := StopSendingData(s), !s.isSendingData && forall m :: m in s.queue ==> !m.Data?;
      && !d.isSendingData && (forall m :: m in d.queue <==> m in s.queue && !m.Data?)
      && d.dataFlags == (s.dataFlags && idle) && d.dataUpdateFlags == (s.dataUpdateFlags && idle)
      && (s.isSendingData && s.writer.Sending? && !s.writer.started ==> d.writer == Idle)
      && (!(s.isSendingData && s.writer.Sending? && !s.writer.started) ==> d.writer == s.writer)
  {
    AllKept(s.queue);
  }

  lemma {:induction false} AllKept(queue: seq<ServerMsg>)
    ensures (forall m :: m in queue ==> !m.Data?) <==> |WithoutData(queue)| == |queue|
    decreases |queue|
  {
    if queue == [] {
    } else {
      AllKept(queue[1..]);
      assert forall m :: m in queue <==> m == queue[0] || m in queue[1..];
    }
  }

  // ---------------------------------------------------------------- server tick

  function BeforeTick(s: Session): Session {
    if s.state != Disconnected && s.isSendingData then StopSendingData(s) else s
  }

  predicate WantsUpdate(s: Session) {
    s.state != Disconnected && !s.isSendingData && s.dataFlags && s.dataUpdateFlags
  }

  predicate WantsDump(s: Session) {
    s.state != Disconnected && !s.isSendingData && s.dataFlags && !s.dataUpdateFlags
  }

  /** The second loop of Server::onUpdate for one session; None stands for data that is not available. */
  function AfterTick(s: Session, timestamp: Uint32, update: Option<seq<Doc>>, dump: Option<seq<Doc>>): Session {
    var t := s.(dataFlags := false, dataUpdateFlags := false);
    if s.state != Connected then t
    else
      var u := t.(queue := t.queue + [UpdateTick(timestamp)]);
      if !s.dataFlags then u
      else if update.Some? && s.dataUpdateFlags then u.(queue := u.queue + [Data(true, update.value)])
      else if dump.Some? then u.(queue := u.queue + [Data(false, dump.value)])
      else u
  }

  function NextTimestamp(t: Uint32): Uint32 { (t + 1) % 0x1_0000_0000 }
}
