/**
  Bounded convergence: once its messages arrive before the next tick and no refill intervenes, a
  connected, unpaused client is synchronised within two ticks and stays so.
*/
module SyncLiveness {
  import opened Options
  import opened Connections
  import opened Collection
  import opened Protocol
  import opened SyncSystem

  // ---------------------------------------------------------------- what is under way

  predicate HasRequest(outbox: seq<ClientMsg>) { exists m :: m in outbox && m.RequestData? }
  predicate HasStatus(stream: seq<ServerMsg>) { exists m :: m in stream && m.DataStatus? }
  predicate HasTick(stream: seq<ServerMsg>) { exists m :: m in stream && m.UpdateTick? }

  /** Some UPDATE_TICK follows the last DATA_STATUS (or there is a tick and no status). */
  predicate TickAfterStatus(stream: seq<ServerMsg>) {
    exists j :: 0 <= j < |stream| && stream[j].UpdateTick? &&
      forall k :: j < k < |stream| ==> !stream[k].DataStatus?
  }

  predicate Both(l: Link) { l.client.state == Connected && l.session.state == Connected }

  /** A request that was made is on its way, or answered and still good for the next tick. */
  predicate Tracked(c: Client, df: bool, stream: seq<ServerMsg>) {
    c.expected == ExpectStatus ==>
      HasRequest(c.outbox) || (HasStatus(stream) && (df || TickAfterStatus(stream)))
  }

  /** A client that awaits no data has asked for some, or is about to read another tick. */
  predicate Covered(c: Client, df: bool, stream: seq<ServerMsg>) {
    (!c.isPaused || c.isDataRequested) && !c.remaining ==> df || HasRequest(c.outbox) || HasTick(stream)
  }

  /** Requests and answers under way that ask for updates, or all that do not. */
  predicate NoneForUpdates(c: Client, stream: seq<ServerMsg>) {
    && (forall m :: m in c.outbox && m.RequestData? ==> !m.updateFlags)
    && (forall m :: m in stream && m.DataStatus? ==> !m.updateFlags)
  }

  predicate AllForUpdates(c: Client, stream: seq<ServerMsg>) {
    && (forall m :: m in c.outbox && m.RequestData? ==> m.updateFlags)
    && (forall m :: m in stream && m.DataStatus? ==> m.updateFlags)
  }

  /** What is asked of the server agrees with what the client can use. */
  predicate UpdatesAgree(c: Client, uf: bool, stream: seq<ServerMsg>) {
    && (!c.requestedUpdate ==> NoneForUpdates(c, stream))
    && (c.isSynchronized ==> c.requestedUpdate && AllForUpdates(c, stream))
    && (uf ==>
        && (c.isSynchronized || HasStatus(stream) || HasRequest(c.outbox))
        && (forall m :: m in stream && m.DataStatus? ==> m.updateFlags))
  }

  /** The progress invariant of a client, the flags of its session and the stream it has yet to read. */
  predicate Live(c: Client, df: bool, uf: bool, stream: seq<ServerMsg>) {
    && (c.remaining ==> c.expected == ExpectNone)
    && (df ==> !TickAfterStatus(stream))
    && (uf ==> df)
    && Tracked(c, df, stream) && Covered(c, df, stream) && UpdatesAgree(c, uf, stream)
  }

  predicate LiveOk(l: Link) {
    && (Both(l) ==> Live(l.client, l.session.dataFlags, l.session.dataUpdateFlags, Stream(l)))
    && (l.client.state == Opening ==> !l.session.dataFlags && !l.session.dataUpdateFlags)
  }

  // ---------------------------------------------------------------- reading one message

  lemma StreamTail(stream: seq<ServerMsg>)
    requires stream != []
    ensures HasStatus(stream) <==> stream[0].DataStatus? || HasStatus(stream[1..])
    ensures HasTick(stream) <==> stream[0].UpdateTick? || HasTick(stream[1..])
    ensures TickAfterStatus(stream) <==>
      TickAfterStatus(stream[1..]) || (stream[0].UpdateTick? && !HasStatus(stream[1..]))
  {
    var tail := stream[1..];
    assert forall m :: m in stream <==> m == stream[0] || m in tail;
    if TickAfterStatus(tail) {
      var j :| 0 <= j < |tail| && tail[j].UpdateTick? && forall k :: j < k < |tail| ==> !tail[k].DataStatus?;
      assert stream[j + 1].UpdateTick?;
      assert forall k :: j + 1 < k < |stream| ==> stream[k] == tail[k - 1];
    }
    if TickAfterStatus(stream) && !(stream[0].UpdateTick? && !HasStatus(tail)) {
      var j :| 0 <= j < |stream| && stream[j].UpdateTick? && forall k :: j < k < |stream| ==> !stream[k].DataStatus?;
      assert forall k :: 0 <= k < |tail| ==> tail[k] == stream[k + 1];
      assert j > 0;
      assert tail[j - 1] == stream[j];
    }
    if stream[0].UpdateTick? && !HasStatus(tail) {
      assert forall k :: 0 < k < |stream| ==> stream[k] == tail[k - 1] && stream[k] in tail;
    }
  }

  /** A request changes what is under way only by adding itself, or not at all while one is awaited. */
  lemma RequestLive(c: Client, df: bool, uf: bool, stream: seq<ServerMsg>)
    requires c.state == Connected && !c.remaining
    requires df ==> !TickAfterStatus(stream)
    requires uf ==> df
    requires Tracked(c, df, stream)
    requires !c.requestedUpdate ==> NoneForUpdates(c, stream)
    requires c.isSynchronized ==> c.requestedUpdate && AllForUpdates(c, stream)
    requires c.expected == ExpectNone || c.expected == ExpectStatus
    requires uf ==> c.isSynchronized || HasStatus(stream) || HasRequest(c.outbox) || c.expected == ExpectNone
    requires uf ==> forall m :: m in stream && m.DataStatus? ==> m.updateFlags
    ensures Live(ClientRequest(c), df, uf, stream)
  {
    var d := ClientRequest(c);
    if c.expected == ExpectNone {
      var m := RequestData(c.requested, c.requestedUpdate);
      assert d.outbox == c.outbox + [m];
      assert m in d.outbox;
      assert HasRequest(d.outbox);
      assert forall x :: x in d.outbox <==> x in c.outbox || x == m;
    } else {
      assert d.outbox == c.outbox;
      if HasStatus(stream) && TickAfterStatus(stream) {
        var j :| 0 <= j < |stream| && stream[j].UpdateTick? && forall k :: j < k < |stream| ==> !stream[k].DataStatus?;
        assert stream[j] in stream;
        assert HasTick(stream);
      }
    }
  }

  /** When no answer is awaited, neither a request nor an answer is under way. */
  predicate Quiet(c: Client, stream: seq<ServerMsg>) {
    c.expected == ExpectNone ==> !HasRequest(c.outbox) && !HasStatus(stream)
  }

  lemma {:induction false} CountedStatus(stream: seq<ServerMsg>)
    ensures HasStatus(stream) ==> Statuses(stream) > 0
    decreases |stream|
  {
    if stream == [] {
    } else {
      StreamTail(stream);
      CountedStatus(stream[1..]);
    }
  }

  lemma {:induction false} CountedRequest(outbox: seq<ClientMsg>)
    ensures HasRequest(outbox) ==> Requests(outbox) > 0
    decreases |outbox|
  {
    if outbox == [] {
    } else {
      assert forall m :: m in outbox <==> m == outbox[0] || m in outbox[1..];
      CountedRequest(outbox[1..]);
    }
  }

  lemma TickLive(c: Client, ts: Uint32, df: bool, uf: bool, stream: seq<ServerMsg>)
    requires c.state == Connected && (c.expected == ExpectNone || c.expected == ExpectStatus) && c.requested
    requires stream != [] && stream[0].UpdateTick? && Live(c, df, uf, stream) && Quiet(c, stream)
    ensures Live(OnServerTick(c.(timestamp := ts)), df, uf, stream[1..])
  {
    StreamTail(stream);
    var rest := stream[1..];
    assert forall m :: m in rest ==> m in stream;
    if c.remaining {
      var e := c.(timestamp := ts, remaining := false, requestedUpdate := false, isSynchronized := false);
      if !c.isPaused {
        RequestLive(e, df, uf, rest);
      }
    } else if TickAfterStatus(rest) {
      TickAfterStatusHasTick(rest);
    }
  }

  lemma TickAfterStatusHasTick(stream: seq<ServerMsg>)
    requires TickAfterStatus(stream)
    ensures HasTick(stream)
  {
    var j :| 0 <= j < |stream| && stream[j].UpdateTick? && forall k :: j < k < |stream| ==> !stream[k].DataStatus?;
    assert stream[j] in stream;
  }

  lemma StatusLive(c: Client, d: bool, u: bool, df: bool, uf: bool, stream: seq<ServerMsg>)
    requires c.state == Connected && c.expected == ExpectStatus && c.requested && d
    requires stream != [] && stream[0] == DataStatus(d, u) && Live(c, df, uf, stream)
    requires !HasRequest(c.outbox) && !HasStatus(stream[1..])
    ensures Live(OnDataStatus(c.(dataFlags := d, dataUpdateFlags := u, expected := ExpectNone)), df, uf, stream[1..])
  {
    StreamTail(stream);
    var rest := stream[1..];
    assert forall m :: m in rest ==> m in stream;
    assert stream[0] in stream;
    if TickAfterStatus(rest) {
      TickAfterStatusHasTick(rest);
    }
    var e := c.(dataFlags := d, dataUpdateFlags := u, expected := ExpectNone, requestedUpdate := c.requestedUpdate && u);
    if e.requestedUpdate && !e.isSynchronized {
      RequestLive(e.(requestedUpdate := false), df, uf, rest);
    }
  }

  lemma DataLive(c: Client, m: ServerMsg, df: bool, uf: bool, stream: seq<ServerMsg>)
    requires c.state == Connected && (c.expected == ExpectNone || c.expected == ExpectStatus) && c.requested
    requires stream != [] && stream[0] == m && m.Data? && Live(c, df, uf, stream) && Quiet(c, stream)
    requires OnData(c, m.isUpdate, m.items).Next?
    ensures Live(OnData(c, m.isUpdate, m.items).client, df, uf, stream[1..])
  {
    StreamTail(stream);
    var rest := stream[1..];
    assert forall x :: x in rest ==> x in stream;
    if !((m.isUpdate && !c.isSynchronized) || !c.remaining || c.isPaused) {
      var e := c.(replica := Replay(m.items, if m.isUpdate then c.replica else Cleared(c.replica)).store, remaining := false);
      RequestLive(if c.isSynchronized then e else e.(isSynchronized := true, requestedUpdate := c.requested), df, uf, rest);
    }
  }

  lemma HelloLive(c: Client, stream: seq<ServerMsg>, df: bool, uf: bool)
    requires c.state == Opening && !HasRequest(c.outbox)
    requires !HasStatus(stream) && (uf ==> df) && (df ==> !TickAfterStatus(stream))
    ensures Live(
      OnSessionEstablished(
        c.(state := Connected, expected := ExpectNone, timestamp := 0, dataFlags := false, dataUpdateFlags := false)),
      df, uf, stream)
  {
    RequestLive(c.(state := Connected, expected := ExpectNone, timestamp := 0, dataFlags := false,
                   dataUpdateFlags := false, requested := true, requestedUpdate := false, remaining := false,
                   isSynchronized := false), df, uf, stream);
  }

  // ---------------------------------------------------------------- every step keeps the progress invariant

  /** One message read by a connected client whose session is connected too. */
  lemma ReactionLive(c: Client, m: ServerMsg, df: bool, uf: bool, stream: seq<ServerMsg>)
    requires c.state == Connected && (c.expected == ExpectNone || c.expected == ExpectStatus) && c.requested
    requires stream != [] && stream[0] == m && Live(c, df, uf, stream)
    requires Statuses(stream) + Requests(c.outbox) <= Awaited(c)
    requires m.UpdateTick? || (m.DataStatus? && m.dataFlags) || m.Data?
    requires ClientOnMessage(c, m).Next?
    ensures Live(ClientOnMessage(c, m).client, df, uf, stream[1..])
  {
    CountedStatus(stream);
    CountedStatus(stream[1..]);
    CountedRequest(c.outbox);
    hide Live, HasRequest, HasStatus, OnServerTick, OnDataStatus, OnData;
    match m
    case UpdateTick(ts) => TickLive(c, ts, df, uf, stream);
    case Data(_, _) => DataLive(c, m, df, uf, stream);
    case DataStatus(a, b) => StatusLive(c, a, b, df, uf, stream);
    case _ =>
  }

  lemma DeliverLive(l: Link, history: seq<Table>)
    requires LinkOk(l, history, true) && LiveOk(l) && CanDeliver(l)
    ensures LiveOk(DeliverLink(l, history, true))
  {
    var d := DeliverLink(l, history, true);
    DeliverReaction(l, history, true);
    StreamAfterDelivery(l, history, true);
    MessageStates(l.client, l.wire[0]);
    if l.wire[0].Hello? {
      GreetingLive(l, history);
    } else if Both(d) {
      ReactionLive(l.client, l.wire[0], l.session.dataFlags, l.session.dataUpdateFlags, Stream(l));
    }
  }

  lemma GreetingLive(l: Link, history: seq<Table>)
    requires LinkOk(l, history, true) && LiveOk(l) && CanDeliver(l) && l.wire[0].Hello?
    requires ClientOnMessage(l.client, l.wire[0]).Next?
    ensures LiveOk(DeliverLink(l, history, true))
  {
    StreamAfterDelivery(l, history, true);
    StreamTail(Stream(l));
    CountedStatus(Stream(l));
    CountedRequest(l.client.outbox);
    hide Live, HasRequest, HasStatus;
    HelloLive(l.client, Stream(l)[1..], l.session.dataFlags, l.session.dataUpdateFlags);
  }

  lemma StatusAppended(stream: seq<ServerMsg>, d: bool, u: bool)
    ensures HasStatus(stream + [DataStatus(d, u)])
    ensures !TickAfterStatus(stream + [DataStatus(d, u)])
  {
    var t := stream + [DataStatus(d, u)];
    assert t[|stream|] == DataStatus(d, u) && t[|stream|] in t;
  }

  lemma TickAppended(stream: seq<ServerMsg>, ts: Uint32, rest: seq<ServerMsg>)
    requires forall m :: m in rest ==> m.Data?
    ensures HasTick(stream + [UpdateTick(ts)] + rest)
    ensures TickAfterStatus(stream + [UpdateTick(ts)] + rest)
    ensures forall m: ServerMsg :: m.DataStatus? ==> (m in stream + [UpdateTick(ts)] + rest <==> m in stream)
  {
    var t := stream + [UpdateTick(ts)] + rest;
    assert t[|stream|] == UpdateTick(ts) && t[|stream|] in t;
    assert forall k :: |stream| < k < |t| ==> t[k] == rest[k - |stream| - 1] && t[k] in rest;
  }

  /** An answer takes the place of the request it answers. */
  lemma AnswerLive(c: Client, df: bool, uf: bool, stream: seq<ServerMsg>)
    requires c.outbox != [] && c.outbox[0].RequestData? && !HasRequest(c.outbox[1..]) && !HasStatus(stream)
    requires Live(c, df, uf, stream)
    ensures var u := c.outbox[0].updateFlags;
      Live(c.(outbox := c.outbox[1..]), true, u, stream + [DataStatus(true, u)])
  {
    var u := c.outbox[0].updateFlags;
    StatusAppended(stream, true, u);
    assert c.outbox[0] in c.outbox;
    assert forall x :: x in c.outbox <==> x == c.outbox[0] || x in c.outbox[1..];
    assert forall x :: x in stream + [DataStatus(true, u)] <==> x in stream || x == DataStatus(true, u);
  }

  lemma ServeRequestLive(l: Link, history: seq<Table>, ser: Serializer)
    requires LinkOk(l, history, true) && LiveOk(l) && CanServe(l) && l.client.outbox[0].RequestData?
    ensures LiveOk(ServeLink(l, true, ser, |history| - 1).0)
  {
    RequestFits(l, history, true);
    AskerIsSetUp(l, history);
    AnsweredLink(l, ser, |history| - 1);
    var d := ServeLink(l, true, ser, |history| - 1).0;
    if Both(l) {
      NothingElseAsked(l);
      hide LinkOk, ServeLink, Live;
      AnsweredLive(l, d);
    }
  }

  lemma AnsweredLink(l: Link, ser: Serializer, now: nat)
    requires CanServe(l) && l.client.outbox[0].RequestData? && l.client.outbox[0].dataFlags && l.session.state != Opening
    ensures var d := ServeLink(l, true, ser, now).0;
      && d.client == l.client.(outbox := l.client.outbox[1..]) && d.wire == l.wire
      && d.session == SendDataStatus(l.session, true, l.client.outbox[0].updateFlags)
  {
  }

  /** A session that answered the oldest request leaves its link as lively as it was. */
  lemma AnsweredLive(l: Link, d: Link)
    requires Both(l) && Live(l.client, l.session.dataFlags, l.session.dataUpdateFlags, Stream(l))
    requires l.client.outbox != [] && l.client.outbox[0].RequestData? && !HasRequest(l.client.outbox[1..]) && !HasStatus(Stream(l))
    requires d.client == l.client.(outbox := l.client.outbox[1..]) && d.wire == l.wire
    requires d.session == SendDataStatus(l.session, true, l.client.outbox[0].updateFlags)
    ensures Live(d.client, d.session.dataFlags, d.session.dataUpdateFlags, Stream(d))
  {
    var st := DataStatus(true, l.client.outbox[0].updateFlags);
    QueuedStream(l, d.session, st);
    assert Stream(d) == Stream(l) + [st];
    AnswerLive(l.client, l.session.dataFlags, l.session.dataUpdateFlags, Stream(l));
  }

  /** With a request under way there is no other, and no answer. */
  lemma NothingElseAsked(l: Link)
    requires CountOk(l) && l.client.state == Connected && l.client.outbox != [] && l.client.outbox[0].RequestData?
    ensures !HasRequest(l.client.outbox[1..]) && !HasStatus(Stream(l))
  {
    CountedStatus(Stream(l));
    CountedRequest(l.client.outbox[1..]);
  }

  lemma AskerIsSetUp(l: Link, history: seq<Table>)
    requires LinkOk(l, history, true) && l.client.outbox != [] && l.client.outbox[0].RequestData?
    ensures l.client.state != Opening
  {
    assert Requests(l.client.outbox) > 0;
  }

  lemma ServeHelloLive(l: Link, history: seq<Table>, ser: Serializer)
    requires LinkOk(l, history, true) && LiveOk(l) && CanServe(l) && l.client.outbox[0] == ClientHello
    ensures LiveOk(ServeLink(l, true, ser, |history| - 1).0)
  {
    ServeHelloOk(l, history, true, ser);
    ReadRankOfHello(l, history);
    hide LinkOk, Live, Stream;
  }

  lemma ServeLive(l: Link, history: seq<Table>, ser: Serializer)
    requires LinkOk(l, history, true) && LiveOk(l) && CanServe(l) && |history| > 0
    ensures LiveOk(ServeLink(l, true, ser, |history| - 1).0)
  {
    hide LinkOk, Live, Stream;
    match l.client.outbox[0]
    case RequestData(_, _) => ServeRequestLive(l, history, ser);
    case ClientHello => ServeHelloLive(l, history, ser);
    case ClientBye =>
  }

  lemma ReadRankOfHello(l: Link, history: seq<Table>)
    requires LinkOk(l, history, true) && l.session.state == Opening
    ensures l.client.state != Connected
  {
    if l.client.state == Connected {
      ReadRank(history, true, l.cursor, Stream(l));
    }
  }

  lemma LinkStepLive(l: Link, step: Step, history: seq<Table>)
    requires LinkOk(l, history, true) && LiveOk(l)
    ensures LiveOk(LinkStep(l, step))
  {
    LoadedStream(l);
    SentStream(l);
    hide LinkOk, Live, Stream;
    match step
    case Pause(_, paused) => PauseLive(l, paused, history);
    case _ =>
  }

  lemma PauseLive(l: Link, paused: bool, history: seq<Table>)
    requires LinkOk(l, history, true) && LiveOk(l)
    ensures LiveOk(l.(client := ClientSetPaused(l.client, paused)))
  {
    var c := l.client;
    assert Stream(l.(client := ClientSetPaused(c, paused))) == Stream(l);
    if Both(l) && c.isPaused && !paused && !c.remaining && !c.isDataRequested {
      RequestLive(c.(isPaused := false), l.session.dataFlags, l.session.dataUpdateFlags, Stream(l));
    }
  }

  lemma TickKeepsLive(l: Link, timestamp: Uint32, update: Option<seq<Doc>>, dump: Option<seq<Doc>>, history: seq<Table>)
    requires LinkOk(l, history, true) && LiveOk(l)
    ensures LiveOk(TickLink(l, timestamp, update, dump))
  {
    var s := BeforeTick(l.session);
    var m := l.(session := s);
    var d := TickLink(l, timestamp, update, dump);
    if Both(l) {
      var rest := d.session.queue[|s.queue| + 1..];
      assert d.session.queue == s.queue + [UpdateTick(timestamp)] + rest;
      assert Stream(d) == Stream(m) + [UpdateTick(timestamp)] + rest;
      TickAppended(Stream(m), timestamp, rest);
      StoppedStatuses(l, history);
      assert HasStatus(Stream(l)) ==> HasStatus(Stream(d));
    }
  }

  /** Stopping a transmission removes no DATA_STATUS. */
  lemma StoppedStatuses(l: Link, history: seq<Table>)
    requires LinkOk(l, history, true)
    ensures forall x: ServerMsg :: x.DataStatus? ==> (x in Stream(l.(session := BeforeTick(l.session))) <==> x in Stream(l))
  {
    var s := l.session;
    var d := l.(session := BeforeTick(s));
    assert Stream(l) == l.wire + WriterMsgs(s.writer) + s.queue;
    assert Stream(d) == l.wire + WriterMsgs(d.session.writer) + d.session.queue;
  }
}
