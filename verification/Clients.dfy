/**
  The client (Source/Client.cpp) with its session (ClientSession in Source/ClientServerProtocol.cpp) as an
  object. Its replica of the server's table is the storage behind the connection list it shows. `View` is the
  client as the protocol model sees it.
*/
module Clients {
  import opened Connections
  import opened ConnectionLists
  import opened Protocol
  import P = Protocol
  import SyncSystem

  const OPENING_TTL := 4
  const CONNECTED_TTL := 3
  const CLOSING_TTL := 2

  /** What the poll handler leaves of a client after a message: a thrown exception disconnects it. */
  function AfterMessage(r: ClientResult): P.Client {
    if r.Next? then r.client else ClientDrop(r.client, |r.client.outbox|)
  }

  /** A session that was dropped has lost the messages that were still in its queue. */
  function Unsent(c: P.Client, onWire: nat): P.Client {
    if c.state == Disconnected then ClientDrop(c, onWire) else c
  }

  /** A message answered as the protocol model has it. */
  predicate Answered(before: P.Client, m: ServerMsg, threw: bool, after: P.Client, onWire: nat) {
    var r := ClientOnMessage(before, m);
    threw == r.Throws? && after == if threw then r.client else Unsent(r.client, onWire)
  }

  /** Ticks and answers put off the end of a session. */
  function TtlAfter(m: ServerMsg, ignored: bool, ttl: nat): nat {
    if ignored then ttl
    else match m
      case Hello => CONNECTED_TTL
      case UpdateTick(_) => ttl + 1
      case DataStatus(_, _) => CONNECTED_TTL
      case _ => ttl
  }

  lemma AnswerThrows(c: P.Client, m: ServerMsg, onWire: nat)
    ensures forall threw, d :: Answered(c, m, threw, d, onWire) ==> (threw <==> OutOfPlace(c, m))
  {
    ThrowsExactly(c, m);
    hide ClientOnMessage, OutOfPlace;
  }

  lemma TickAnswer(c: P.Client, stamp: Uint32, onWire: nat)
    requires c.state != Disconnected
    ensures var m, next := UpdateTick(stamp), stamp == (c.timestamp + 1) % 0x1_0000_0000 || c.timestamp == 0;
      if c.state == Closing then Answered(c, m, false, c, onWire)
      else if c.state == Opening || !next then Answered(c, m, true, c, onWire)
      else Answered(c, m, false, P.OnServerTick(c.(timestamp := stamp)), onWire)
  {
    hide P.OnServerTick;
    TickKeepsState(c.(timestamp := stamp));
  }

  lemma StatusAnswer(c: P.Client, df: bool, uf: bool, onWire: nat)
    requires c.state != Disconnected
    ensures var m, d := DataStatus(df, uf), c.(dataFlags := df, dataUpdateFlags := uf, expected := ExpectNone);
      if c.state == Closing then Answered(c, m, false, c, onWire)
      else if c.expected != ExpectStatus then Answered(c, m, true, c, onWire)
      else Answered(c, m, false, P.OnDataStatus(d), onWire)
  {
    hide P.OnDataStatus;
    StatusKeepsState(c.(dataFlags := df, dataUpdateFlags := uf, expected := ExpectNone));
  }

  lemma HelloAnswer(c: P.Client, onWire: nat)
    requires c.state != Disconnected
    ensures var d := c.(state := Connected, expected := ExpectNone, timestamp := 0, dataFlags := false, dataUpdateFlags := false);
      if c.state != Opening || c.expected != ExpectHello then Answered(c, Hello, true, c, onWire)
      else Answered(c, Hello, false, P.OnSessionEstablished(d), onWire)
  {
    hide P.OnSessionEstablished;
    EstablishedKeepsState(c.(state := Connected, expected := ExpectNone, timestamp := 0, dataFlags := false, dataUpdateFlags := false));
  }

  /** In the transition system, receiving is a delivery, and a lost connection after it if it ends the session. */
  lemma ReceiveIsDelivery(l: SyncSystem.Link, history: seq<Table>, available: bool, onWire: nat)
    requires SyncSystem.CanDeliver(l)
    ensures var d := SyncSystem.DeliverLink(l, history, available);
      Unsent(AfterMessage(ClientOnMessage(l.client, l.wire[0])), onWire) ==
        (if d.client.state == Disconnected then SyncSystem.LinkStep(d, SyncSystem.LoseClient(0, onWire)) else d).client
  {
    hide ClientOnMessage;
  }

  lemma ReplayNext(items: seq<Doc>, i: nat, s: Storage)
    requires i < |items|
    ensures var parsed := Parse(items[i]);
      Replay(items[i..], s) ==
        if parsed.Err? then Threw(s, parsed.message) else Replay(items[i + 1..], ApplyRecord(parsed.value, s))
  {
    assert items[i..][1..] == items[i + 1..];
  }

  /** What a tick makes of the flags, before the note that data was asked for is taken back. */
  function TickFlags(c: P.Client): P.Client {
    if c.remaining then
      var e := c.(remaining := false, requestedUpdate := false, isSynchronized := false);
      if c.isPaused then e else ClientRequest(e)
    else if c.expected == ExpectStatus || c.isPaused then c.(isSynchronized := false)
    else c.(remaining := c.requested)
  }

  /** What the client makes of its flags once data was read. */
  function DataRead(c: P.Client): P.Client {
    var d := c.(remaining := false);
    ClientRequest(if c.isSynchronized then d else d.(isSynchronized := true, requestedUpdate := c.requested))
  }

  lemma TickIsFlags(c: P.Client)
    ensures P.OnServerTick(c) == TickFlags(c).(isDataRequested := false)
  {
    hide ClientRequest;
  }

  class Client {
    var state: SessionState
    var expected: Expected
    var sessionTTL: nat
    var dataFlags: bool
    var dataUpdateFlags: bool
    var timestamp: Uint32
    var sendQueue: seq<ClientMsg>
    /** What the socket carries and the server has not read. */
    ghost var onWire: seq<ClientMsg>
    var requested: bool
    var requestedUpdate: bool
    var remaining: bool
    var isDataRequested: bool
    var isSynchronized: bool
    var isPaused: bool
    const list: ConnectionList
    /** The storage behind the list: its connections and the interned addresses and ports. */
    var replica: Storage

    ghost predicate Valid()
      reads this`replica, list
    {
      list.Valid() && replica.conns == list.world.conns
    }

    ghost function View(): P.Client
      reads this
    {
      P.Client(state, expected, dataFlags, dataUpdateFlags, timestamp, onWire + sendQueue,
               requested, requestedUpdate, remaining, isDataRequested, isSynchronized, isPaused, replica)
    }

    constructor (list: ConnectionList)
      requires list.Valid()
      ensures Valid() && this.list == list && View().state == Disconnected && !View().isSynchronized
    {
      this.list := list;
      state, expected, sessionTTL, dataFlags, dataUpdateFlags, timestamp := Disconnected, ExpectNone, 0, false, false, 0;
      sendQueue, onWire := [], [];
      requested, requestedUpdate, remaining, isDataRequested, isSynchronized, isPaused := false, false, false, false, false, false;
      replica := Storage(list.world.conns, {}, {});
    }

    // -------------------------------------------------------------- session

    method Connect()
      requires state == Disconnected
      modifies this
      ensures View() == ClientConnect(old(View()))
      ensures state == Opening && expected == ExpectBanner && sendQueue == []
      ensures sessionTTL == OPENING_TTL
    {
      state, sessionTTL, expected := Opening, OPENING_TTL, ExpectBanner;
      sendQueue, onWire := [], [];
    }

    method SendMessage(m: ClientMsg)
      modifies this
      ensures View() == old(View()).(outbox := old(View()).outbox + [m]) && onWire == old(onWire) && sessionTTL == old(sessionTTL)
      ensures sendQueue == old(sendQueue) + [m]
    {
      assert onWire + (sendQueue + [m]) == onWire + sendQueue + [m];
      sendQueue := sendQueue + [m];
    }

    /** quickDisconnect with Client::onSessionDisconnect. */
    method QuickDisconnect()
      modifies this
      ensures View() == ClientDrop(old(View()), |onWire|) && state == Disconnected && onWire == old(onWire) && sessionTTL == old(sessionTTL)
    {
      assert (onWire + sendQueue)[..|onWire|] == onWire == onWire + [];
      state, sendQueue := Disconnected, [];
      isSynchronized, isDataRequested := false, false;
    }

    method Disconnect()
      modifies this
      ensures onWire == old(onWire) && View() == Unsent(ClientDisconnect(old(View())), |onWire|)
      ensures old(state) == Connected ==> state == Closing && sendQueue == old(sendQueue) + [ClientBye]
      ensures old(state) == Opening ==> state == Disconnected
      ensures sessionTTL == if old(state) == Connected then CLOSING_TTL else old(sessionTTL)
    {
      if state == Connected {
        state, sessionTTL := Closing, CLOSING_TTL;
        SendMessage(ClientBye);
      } else if state == Opening {
        QuickDisconnect();
      } else if state == Disconnected {
        assert (onWire + sendQueue)[..|onWire|] == onWire;
        QuickDisconnect();
      }
    }

    /** The session's clock: every tick and answer of the server puts off the end. */
    method OnUpdate()
      modifies this
      ensures View() == if old(state) != Disconnected && old(sessionTTL) == 0 then ClientDrop(old(View()), |onWire|) else old(View())
      ensures sessionTTL == if old(state) != Disconnected && old(sessionTTL) > 0 then old(sessionTTL) - 1 else old(sessionTTL)
    {
      if state != Disconnected {
        if sessionTTL > 0 { sessionTTL := sessionTTL - 1; } else { QuickDisconnect(); }
      }
    }

    // -------------------------------------------------------------- requests

    method RequestData()
      modifies this
      ensures View() == ClientRequest(old(View())) && onWire == old(onWire) && replica == old(replica) && sessionTTL == old(sessionTTL)
      ensures isDataRequested
      ensures sendQueue == old(sendQueue) + if state == Connected && old(expected) == ExpectNone
        then [P.ClientMsg.RequestData(requested, requestedUpdate)] else []
    {
      if state == Connected && expected == ExpectNone {
        expected := ExpectStatus;
        SendMessage(P.ClientMsg.RequestData(requested, requestedUpdate));
      }
      isDataRequested := true;
    }

    method SetPaused(paused: bool)
      modifies this
      ensures View() == ClientSetPaused(old(View()), paused) && onWire == old(onWire) && sessionTTL == old(sessionTTL)
      ensures isPaused == paused && replica == old(replica) && state == old(state) && isSynchronized == old(isSynchronized)
      ensures old(isPaused) && !paused && !remaining && !old(isDataRequested) && state == Connected && old(expected) == ExpectNone ==>
        sendQueue == old(sendQueue) + [P.ClientMsg.RequestData(requested, requestedUpdate)] && expected == ExpectStatus
      ensures !(old(isPaused) && !paused && !remaining && !old(isDataRequested)) ==> sendQueue == old(sendQueue)
    {
      PauseTakesEffect(View(), paused);
      if isPaused != paused {
        isPaused := paused;
        if !isPaused && !remaining && !isDataRequested { RequestData(); }
      }
    }

    method OnSessionEstablished()
      modifies this
      ensures View() == P.OnSessionEstablished(old(View())) && onWire == old(onWire) && replica == old(replica) && sessionTTL == old(sessionTTL)
    {
      hide ClientRequest;
      ghost var c := View();
      requested, requestedUpdate, remaining := true, false, false;
      assert View() == c.(requested := true, requestedUpdate := false, remaining := false);
      RequestData();
      c := View();
      isSynchronized := false;
      assert View() == c.(isSynchronized := false);
    }

    method OnServerTick()
      modifies this
      ensures View() == P.OnServerTick(old(View())) && onWire == old(onWire) && replica == old(replica) && sessionTTL == old(sessionTTL)
    {
      hide P.OnServerTick, TickFlags;
      TickIsFlags(View());
      TakeTick();
      isDataRequested := false;
    }

    method TakeTick()
      modifies this
      ensures View() == TickFlags(old(View())) && onWire == old(onWire) && replica == old(replica) && sessionTTL == old(sessionTTL)
    {
      hide ClientRequest;
      if remaining {
        MissedData();
      } else if expected == ExpectStatus || isPaused {
        isSynchronized := false;
      } else {
        remaining := requested;
      }
    }

    /** A tick whose data never came. */
    method MissedData()
      requires remaining
      modifies this
      ensures View() == TickFlags(old(View())) && onWire == old(onWire) && replica == old(replica) && sessionTTL == old(sessionTTL)
    {
      hide ClientRequest;
      ghost var c := View();
      remaining, requestedUpdate := false, false;
      isSynchronized := false;
      assert View() == c.(remaining := false, requestedUpdate := false, isSynchronized := false);
      if !isPaused { RequestData(); }
    }

    method OnDataStatus()
      modifies this
      ensures View() == P.OnDataStatus(old(View())) && onWire == old(onWire) && replica == old(replica) && sessionTTL == old(sessionTTL)
    {
      hide ClientRequest;
      requested := requested && dataFlags;
      requestedUpdate := requestedUpdate && dataUpdateFlags;
      if requestedUpdate && !isSynchronized {
        requestedUpdate := false;
        RequestData();
      }
    }

    // -------------------------------------------------------------- data

    /** ConnectionData::Deserialize with the connection list as its callback. */
    method Deserialize(doc: Doc) returns (threw: bool)
      requires Valid()
      modifies this`replica, list
      ensures Valid() && threw == Parse(doc).Err?
      ensures replica == if threw then old(replica) else ApplyRecord(Parse(doc).value, old(replica))
    {
      hide Parse, Patch, ConnectionList.Valid;
      var parsed := Parse(doc);
      if parsed.Err? { return true; }
      var r := parsed.value;
      var c := r.conn;
      if r.action == Create {
        replica := Intern(replica, c);
      }
      if !Interned(replica, c) { return false; }
      Perform(r);
      return false;
    }

    /** The callback's part, once addresses and ports are known. */
    method Perform(r: Record)
      requires Valid() && Interned(replica, r.conn)
      modifies this`replica, list
      ensures Valid() && replica == old(replica).(conns := Effect(r, old(replica).conns))
    {
      hide ConnectionList.Valid, ConnectionList.HasTop, Patch, ListChanges.NonePrecedes, ListChanges.ColumnsOf;
      if r.action == Create {
        list.Add(r.conn, r.data);
      } else if r.action == Update {
        list.Update(r.conn, r.data, r.flags);
      } else {
        list.Remove(r.conn);
      }
      replica := replica.(conns := list.world.conns);
    }

    method OnData(isUpdate: bool, items: seq<Doc>) returns (threw: bool)
      requires Valid()
      modifies this, list
      ensures Valid() && onWire == old(onWire) && sessionTTL == old(sessionTTL)
      ensures (if threw then Throws(View()) else Next(View())) == P.OnData(old(View()), isUpdate, items)
    {
      hide Parse, ApplyRecord, ClientRequest, Replay, ConnectionList.Valid;
      if (isUpdate && !isSynchronized) || !remaining || isPaused { return false; }
      if !isUpdate { ClearList(); }
      threw := DeserializeAll(items);
      if threw { return true; }
      DataDone();
      return false;
    }

    method DataDone()
      modifies this
      ensures View() == DataRead(old(View())) && onWire == old(onWire) && replica == old(replica) && sessionTTL == old(sessionTTL)
    {
      hide ClientRequest;
      ghost var c := View();
      remaining := false;
      if !isSynchronized {
        isSynchronized := true;
        requestedUpdate := requested;
      }
      assert View() == var d := c.(remaining := false);
        if c.isSynchronized then d else d.(isSynchronized := true, requestedUpdate := c.requested);
      RequestData();
    }

    method ClearList()
      requires Valid()
      modifies this`replica, list
      ensures Valid() && replica == Cleared(old(replica))
    {
      hide ConnectionList.Valid, ConnectionList.HasTop;
      list.Clear();
      replica := replica.(conns := list.world.conns);
    }

    method DeserializeAll(items: seq<Doc>) returns (threw: bool)
      requires Valid()
      modifies this`replica, list
      ensures Valid() && threw == Replay(items, old(replica)).Threw?
      ensures replica == Replay(items, old(replica)).store
    {
      hide Parse, ApplyRecord, Replay, Valid;
      assert items[0..] == items;
      for i := 0 to |items|
        invariant Valid() && Replay(items, old(replica)) == Replay(items[i..], replica)
      {
        ReplayNext(items, i, replica);
        threw := Deserialize(items[i]);
        if threw { return true; }
      }
      ReplayNone(items[|items|..], replica);
      return false;
    }

    lemma ReplayNone(items: seq<Doc>, s: Storage)
      requires items == []
      ensures Replay(items, s) == Done(s)
    {
    }

    // -------------------------------------------------------------- messages

    /** ClientSession::onMessage, and what the poll handler does when it throws. */
    method Receive(m: ServerMsg)
      requires Valid() && state != Disconnected
      modifies this, list
      ensures Valid() && onWire == old(onWire)
      ensures View() == Unsent(AfterMessage(ClientOnMessage(old(View()), m)), |onWire|)
    {
      hide P.OnData, P.OnDataStatus, P.OnServerTick, P.OnSessionEstablished, ClientOnMessage, OutOfPlace, ConnectionList.Valid;
      var threw := OnMessage(m);
      if threw {
        QuickDisconnect();
      }
    }

    method OnMessage(m: ServerMsg) returns (threw: bool)
      requires Valid() && state != Disconnected
      modifies this, list
      ensures Valid() && onWire == old(onWire)
      ensures Answered(old(View()), m, threw, View(), |onWire|)
      ensures threw <==> OutOfPlace(old(View()), m)
      ensures sessionTTL == TtlAfter(m, threw || old(state) == Closing, old(sessionTTL))
    {
      AnswerThrows(View(), m, |onWire|);
      hide Answered, OutOfPlace, ConnectionList.Valid;
      match m
      case Banner(version) => threw := OnBanner(version);
      case Hello => threw := OnHello();
      case ServerBye => threw := OnBye();
      case UpdateTick(stamp) => threw := OnUpdateTick(stamp);
      case DataStatus(df, uf) => threw := OnStatus(df, uf);
      case Data(isUpdate, items) => threw := OnDataMessage(isUpdate, items);
    }

    method OnBanner(version: int) returns (threw: bool)
      requires state != Disconnected
      modifies this
      ensures onWire == old(onWire) && replica == old(replica) && sessionTTL == old(sessionTTL)
      ensures Answered(old(View()), Banner(version), threw, View(), |onWire|)
    {
      if state != Opening || expected != ExpectBanner { return true; }
      if version != VERSION {
        QuickDisconnect();
      } else {
        expected := ExpectHello;
        SendMessage(ClientHello);
      }
      return false;
    }

    method OnHello() returns (threw: bool)
      requires state != Disconnected
      modifies this
      ensures onWire == old(onWire) && replica == old(replica)
      ensures Answered(old(View()), Hello, threw, View(), |onWire|)
      ensures sessionTTL == TtlAfter(Hello, threw || old(state) == Closing, old(sessionTTL))
    {
      hide P.OnSessionEstablished, Answered;
      HelloAnswer(View(), |onWire|);
      if state != Opening || expected != ExpectHello { return true; }
      AcceptHello();
      return false;
    }

    method AcceptHello()
      modifies this
      ensures View() == P.OnSessionEstablished(old(View()).(
        state := Connected, expected := ExpectNone, timestamp := 0, dataFlags := false, dataUpdateFlags := false))
      ensures onWire == old(onWire) && replica == old(replica) && sessionTTL == CONNECTED_TTL
    {
      hide P.OnSessionEstablished;
      expected, state, sessionTTL, timestamp := ExpectNone, Connected, CONNECTED_TTL, 0;
      dataFlags, dataUpdateFlags := false, false;
      assert View() == old(View()).(
        state := Connected, expected := ExpectNone, timestamp := 0, dataFlags := false, dataUpdateFlags := false);
      OnSessionEstablished();
    }

    method OnBye() returns (threw: bool)
      requires state != Disconnected
      modifies this
      ensures onWire == old(onWire) && replica == old(replica) && sessionTTL == old(sessionTTL)
      ensures Answered(old(View()), ServerBye, threw, View(), |onWire|)
    {
      QuickDisconnect();
      return false;
    }

    method OnUpdateTick(stamp: Uint32) returns (threw: bool)
      requires state != Disconnected
      modifies this
      ensures onWire == old(onWire) && replica == old(replica)
      ensures Answered(old(View()), UpdateTick(stamp), threw, View(), |onWire|)
      ensures sessionTTL == TtlAfter(UpdateTick(stamp), threw || old(state) == Closing, old(sessionTTL))
    {
      hide P.OnServerTick, Answered;
      TickAnswer(View(), stamp, |onWire|);
      if state == Closing { return false; }
      if state != Connected || (stamp != (timestamp + 1) % 0x1_0000_0000 && timestamp != 0) { return true; }
      AcceptTick(stamp);
      return false;
    }

    method AcceptTick(stamp: Uint32)
      modifies this
      ensures View() == P.OnServerTick(old(View()).(timestamp := stamp)) && onWire == old(onWire) && replica == old(replica)
      ensures sessionTTL == old(sessionTTL) + 1
    {
      hide P.OnServerTick;
      timestamp := stamp;
      sessionTTL := sessionTTL + 1;
      OnServerTick();
    }

    method OnStatus(df: bool, uf: bool) returns (threw: bool)
      requires state != Disconnected
      modifies this
      ensures onWire == old(onWire) && replica == old(replica)
      ensures Answered(old(View()), DataStatus(df, uf), threw, View(), |onWire|)
      ensures sessionTTL == TtlAfter(DataStatus(df, uf), threw || old(state) == Closing, old(sessionTTL))
    {
      hide P.OnDataStatus, Answered;
      StatusAnswer(View(), df, uf, |onWire|);
      if state == Closing { return false; }
      if expected != ExpectStatus { return true; }
      AcceptStatus(df, uf);
      return false;
    }

    method AcceptStatus(df: bool, uf: bool)
      modifies this
      ensures View() == P.OnDataStatus(old(View()).(dataFlags := df, dataUpdateFlags := uf, expected := ExpectNone))
      ensures onWire == old(onWire) && replica == old(replica) && sessionTTL == CONNECTED_TTL
    {
      hide P.OnDataStatus;
      dataFlags, dataUpdateFlags, expected, sessionTTL := df, uf, ExpectNone, CONNECTED_TTL;
      OnDataStatus();
    }

    method OnDataMessage(isUpdate: bool, items: seq<Doc>) returns (threw: bool)
      requires Valid() && state != Disconnected
      modifies this, list
      ensures Valid() && onWire == old(onWire) && sessionTTL == old(sessionTTL)
      ensures Answered(old(View()), Data(isUpdate, items), threw, View(), |onWire|)
    {
      hide P.OnData, ConnectionList.Valid;
      if state == Closing { return false; }
      if state != Connected { return true; }
      if !dataFlags || (isUpdate && !dataUpdateFlags) { return true; }
      DataKeepsState(View(), isUpdate, items);
      threw := OnData(isUpdate, items);
    }
  }
}
